/**
 One pass of syncDatabase, with syncDatabaseSecret and the status writes, as a machine
 that issues one request at a time. Branches in which the controller dereferences a nil
 pointer end in Panicked; Databases of the MySQL plugin leave the model in Elsewhere.
 */
module DatabasePass {
  import opened Resources
  import opened Text
  import opened Dsn
  import opened Postgres
  import opened Api

  /** `writes` are the status writes still to come before the pass returns. */
  datatype Pass =
    | Begin(key: Key)
    | Initializing(db: Database)
    | FindingServer(db: Database)
    | GettingDsn(db: Database, s: Option<DatabaseServer>, source: ValueSource)
    | GettingPassword(db: Database, s: Option<DatabaseServer>, dsn: string, i: nat)
    | Syncing(db: Database, s: Option<DatabaseServer>, dsn: string, client: Client)
    | FindingSecret(db: Database, s: Option<DatabaseServer>, dsn: string)
    | CreatingSecret(db: Database, s: Option<DatabaseServer>, dsn: string)
    | Putting(db: Database, writes: seq<Status>, failed: bool)
    | Finished(failed: bool)
    | Panicked
    | Elsewhere

  function JobOf(db: Database): Job {
    Job(db.meta.key.name, Users(db.spec))
  }

  predicate WellFormedPass(p: Pass) {
    match p
    case GettingPassword(db, _, _, i) => i < |Users(db.spec)| && Users(db.spec)[i].passwordFrom.Some?
    case Syncing(db, _, _, client) => Working(JobOf(db), client)
    case FindingSecret(db, _, _) => db.spec.users.Some?
    case CreatingSecret(db, _, _) => db.spec.users.Some?
    case Putting(_, writes, _) => writes != []
    case _ => true
  }

  predicate Running(p: Pass) {
    WellFormedPass(p) && !p.Finished? && !p.Panicked? && !p.Elsewhere?
  }

  datatype Engine = PostgresEngine | MySqlEngine

  function EngineNamed(name: string): Option<Engine> {
    if Lower(name) == "mysql" then Some(MySqlEngine)
    else if Lower(name) == "postgres" then Some(PostgresEngine)
    else None
  }

  /** The database plugin of a server's plugin, which must be set. */
  function EngineOf(plugin: Plugin): Option<Engine> {
    match plugin
    case NoneSet => None
    case Postgres => Some(PostgresEngine)
    case MySql => Some(MySqlEngine)
    case Rds(engine) => EngineNamed(engine)
  }

  /** Two words name an engine, in letters of either case, and a server's plugin names its own. */
  lemma EngineWords(name: string, plugin: Plugin)
    ensures EngineNamed(name) == Some(PostgresEngine) <==> Spells(name, "postgres", "POSTGRES")
    ensures EngineNamed(name) == Some(MySqlEngine) <==> Spells(name, "mysql", "MYSQL")
    ensures EngineOf(plugin) == Some(PostgresEngine) <==>
              plugin.Postgres? || (plugin.Rds? && Spells(plugin.engine, "postgres", "POSTGRES"))
    ensures EngineOf(plugin) == Some(MySqlEngine) <==>
              plugin.MySql? || (plugin.Rds? && Spells(plugin.engine, "mysql", "MYSQL"))
  {
    LowersToIff(name, "postgres", "POSTGRES");
    LowersToIff(name, "mysql", "MYSQL");
    if plugin.Rds? {
      LowersToIff(plugin.engine, "postgres", "POSTGRES");
      LowersToIff(plugin.engine, "mysql", "MYSQL");
    }
  }

  function DsnEntry(name: string): ValueSource {
    ValueSource(None, Some(EntryRef(name, "dsn")))
  }

  function Secretive(db: Database, dsn: string): Secret {
    Secret(Some(OwnerRef("Secret", db.meta.key.name, db.meta.uid)), map["dsn" := dsn])
  }

  /** Making metadata for a child writes into the object's own label map, when it has one. */
  function Labelled(meta: Meta): Meta {
    if meta.labels.None? then meta
    else meta.(labels := Some(meta.labels.value["controller" := meta.key.name]))
  }

  function WithPassword(db: Database, i: nat, password: string): Database
    requires i < |Users(db.spec)|
  {
    var users := Users(db.spec);
    db.(spec := db.spec.(users := Some(users[i := users[i].(password := password)])))
  }

  /** The first user at or after `i` whose password comes from elsewhere. */
  function NextSourced(users: seq<DatabaseUser>, i: nat): (j: nat)
    requires i <= |users|
    ensures i <= j <= |users|
    ensures forall k :: i <= k < j ==> users[k].passwordFrom.None?
    ensures j < |users| ==> users[j].passwordFrom.Some?
    decreases |users| - i
  {
    if i == |users| || users[i].passwordFrom.Some? then i else NextSourced(users, i + 1)
  }

  function FirstAdmin(users: seq<DatabaseUser>): (j: nat)
    ensures j <= |users|
    ensures forall k :: 0 <= k < j ==> users[k].role != "admin"
    ensures j < |users| ==> users[j].role == "admin"
  {
    if users == [] || users[0].role == "admin" then 0 else 1 + FirstAdmin(users[1..])
  }

  function One(db: Database, state: State, message: Message, failed: bool): Pass {
    Putting(db, [Status(state, message)], failed)
  }

  function ResolvePasswords(db: Database, s: Option<DatabaseServer>, dsn: string, i: nat): Pass
    requires i <= |Users(db.spec)|
    ensures WellFormedPass(ResolvePasswords(db, s, dsn, i))
  {
    var j := NextSourced(Users(db.spec), i);
    if j < |Users(db.spec)| then GettingPassword(db, s, dsn, j) else Syncing(db, s, dsn, Probing)
  }

  function ChooseDsn(db: Database, s: Option<DatabaseServer>): (p: Pass)
    ensures WellFormedPass(p)
  {
    if db.spec.dsn != "" then ResolvePasswords(db, s, db.spec.dsn, 0)
    else if db.spec.dsnFrom.Some? then
      if db.spec.dsnFrom.value.secretKeyRef.None? then Panicked
      else GettingDsn(db, s, db.spec.dsnFrom.value)
    else if s.None? then Panicked
    else GettingDsn(db, s, DsnEntry(s.value.meta.key.name))
  }

  function ChoosePlugin(db: Database, s: Option<DatabaseServer>): (p: Pass)
    ensures WellFormedPass(p)
  {
    if db.spec.serverType == "" && s.None? then One(db, Error, NoServerOrType, false)
    else if db.spec.serverType == "" && s.value.spec.plugin.NoneSet? then Panicked
    else
      var engine := if db.spec.serverType != "" then EngineNamed(db.spec.serverType) else EngineOf(s.value.spec.plugin);
      if engine.None? then One(db, Error, NoPlugin, false)
      else if engine.value.MySqlEngine? then Elsewhere
      else ChooseDsn(db, s)
  }

  function AfterInitialization(db: Database): (p: Pass)
    ensures WellFormedPass(p)
  {
    if db.spec.server != "" then FindingServer(db) else ChoosePlugin(db, None)
  }

  function AfterSync(db: Database, s: Option<DatabaseServer>, dsn: string, outcome: Outcome): (p: Pass)
    ensures WellFormedPass(p)
  {
    if outcome.Failure? then One(db, Error, SyncError, true)
    else if outcome.Created? && s.None? then Panicked
    else if db.spec.users.None? then One(db, Success, Synced, false)
    else FindingSecret(db, s, dsn)
  }

  function AfterSecret(db: Database, controlled: bool): (p: Pass)
    ensures WellFormedPass(p)
  {
    if controlled then One(db, Success, Synced, false) else One(db, Error, SecretSyncError, false)
  }

  /** No secret was found: one is made for the first admin, if there is one. */
  function MakeSecret(db: Database, s: Option<DatabaseServer>, dsn: string): (p: Pass)
    requires db.spec.users.Some?
    ensures WellFormedPass(p)
  {
    var users := Users(db.spec);
    var i := FirstAdmin(users);
    if i == |users| then Panicked
    else if s.None? && GetHostAndPort(dsn).None? then Panicked
    else
      var server := if s.Some? then s.value else ServerlessServer(GetHostAndPort(dsn).value);
      CreatingSecret(db.(meta := Labelled(db.meta)), s,
                     PostgresDsn(users[i].name, users[i].password, Some(db.meta.key.name), server))
  }

  /** A lookup that fails for any reason but a missing object leaves the password empty, and the pass goes on. */
  function AfterPassword(db: Database, s: Option<DatabaseServer>, dsn: string, i: nat, found: Lookup<string>): (p: Pass)
    requires i < |Users(db.spec)|
    ensures WellFormedPass(p)
  {
    match found
    case NotFound => One(db, Pending, WaitingForUserSecret(Users(db.spec)[i].name), true)
    case Failed => ResolvePasswords(WithPassword(db, i, ""), s, dsn, i + 1)
    case Found(password) => ResolvePasswords(WithPassword(db, i, password), s, dsn, i + 1)
  }

  function AfterStatement(db: Database, s: Option<DatabaseServer>, dsn: string, client: Client): (p: Pass)
    requires WellFormed(JobOf(db), client)
    ensures WellFormedPass(p)
  {
    var outcome := Returned(JobOf(db), client);
    if outcome.None? then Syncing(db, s, dsn, client) else AfterSync(db, s, dsn, outcome.value)
  }

  function Ask(p: Pass): Request
    requires Running(p)
  {
    match p
    case Begin(key) => ListDatabase(key)
    case Initializing(db) => PutDatabase(db.(status := Status(Pending, YetToInitialize)))
    case FindingServer(db) => ListServer(Key(db.meta.key.namespace, db.spec.server))
    case GettingDsn(db, _, source) => GetValue(db.meta.key.namespace, Some(source))
    case GettingPassword(db, _, _, i) => GetValue(db.meta.key.namespace, Users(db.spec)[i].passwordFrom)
    case Syncing(db, _, dsn, client) => Sql(dsn, Postgres.Request(JobOf(db), client))
    case FindingSecret(db, _, _) => ListSecret(db.meta.key)
    case CreatingSecret(db, _, dsn) => CreateSecret(db.meta.key, Secretive(db, dsn))
    case Putting(db, writes, _) => PutDatabase(db.(status := writes[0]))
  }

  function Next(p: Pass, answer: Answer): (p': Pass)
    requires Running(p) && Fits(Ask(p), answer)
    ensures WellFormedPass(p')
  {
    match p
    case Begin(_) =>
      (match answer.database
       case NotFound => Finished(false)
       case Failed => Finished(true)
       case Found(db) => if db.status.state.Unset? then Initializing(db) else AfterInitialization(db))
    case Initializing(db) => AfterInitialization(db)
    case FindingServer(db) =>
      (match answer.server
       case NotFound => One(db, Pending, WaitingForServer, true)
       case Failed => Finished(true)
       case Found(s) => ChoosePlugin(db, Some(s)))
    case GettingDsn(db, s, _) =>
      (match answer.value
       case NotFound => One(db, Pending, WaitingForDsn, true)
       case Failed => One(db, Error, NoValidDsn, false)
       case Found(dsn) => ResolvePasswords(db, s, dsn, 0))
    case GettingPassword(db, s, dsn, i) =>
      AfterPassword(db, s, dsn, i, answer.value)
    case Syncing(db, s, dsn, client) =>
      AfterStatement(db, s, dsn, Advance(JobOf(db), client, answer.reply))
    case FindingSecret(db, s, dsn) =>
      (match answer.secret
       case Failed => Putting(db, [Status(Error, GetChildFailed), Status(Error, SecretSyncError)], false)
       case NotFound => MakeSecret(db, s, dsn)
       case Found(secret) => AfterSecret(db, IsControlledBy(secret.owner, db.meta.uid)))
    case CreatingSecret(db, _, dsn) =>
      if answer.ok then AfterSecret(db, IsControlledBy(Secretive(db, dsn).owner, db.meta.uid))
      else Putting(db, [Status(Error, CreateChildFailed), Status(Error, SecretSyncError)], false)
    case Putting(db, writes, failed) =>
      if |writes| == 1 then Finished(failed) else Putting(db, writes[1..], failed)
  }
}
