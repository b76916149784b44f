/**
 The end-to-end invariant: whenever a Database's own secret exists, the Postgres instance of
 its server holds the database and every user of its spec, and the credentials printed in
 the secret are those that Postgres stores.
 */
module ClusterCredentials {
  import opened Resources
  import opened Dsn
  import opened Postgres
  import opened PostgresFacts
  import PI = PostgresInterleaving
  import opened Api
  import opened Cluster
  import opened ClusterChildren
  import D = DatabasePass
  import S = ServerPass

  /** What the sources of passwords and of superuser names resolve to, in a namespace. */
  type Passwords = (string, ValueSource) -> string

  function ServerKey(db: Database): Key {
    Key(db.meta.key.namespace, db.spec.server)
  }

  function ResolvedUser(namespace: string, user: DatabaseUser, passwords: Passwords): DatabaseUser {
    if user.passwordFrom.Some? then user.(password := passwords(namespace, user.passwordFrom.value)) else user
  }

  /** The users of a Database with the passwords they are meant to have. */
  function ResolvedUsers(db: Database, passwords: Passwords): (users: seq<DatabaseUser>)
    ensures |users| == |Users(db.spec)|
    ensures forall i :: 0 <= i < |users| ==> users[i].name == Users(db.spec)[i].name
  {
    seq(|Users(db.spec)|, i requires 0 <= i < |Users(db.spec)| =>
      ResolvedUser(db.meta.key.namespace, Users(db.spec)[i], passwords))
  }

  function ResolvedJob(db: Database, passwords: Passwords): Job {
    Job(db.meta.key.name, ResolvedUsers(db, passwords))
  }

  /** The text a Database's secret is meant to hold: the DSN of its first admin. */
  function AdminDsn(c: Config, db: Database, passwords: Passwords): string
    requires ServerKey(db) in c.servers
  {
    var users := ResolvedUsers(db, passwords);
    var i := D.FirstAdmin(users);
    if i == |users| then ""
    else PostgresDsn(users[i].name, users[i].password, Some(db.meta.key.name), c.servers[ServerKey(db)])
  }

  /** A Database that goes through a server, with unique non-empty user names and non-empty passwords. */
  ghost predicate Plain(db: Database, passwords: Passwords) {
    db.spec.dsn == "" && db.spec.dsnFrom.None? && db.spec.server != "" &&
    UniqueNames(Users(db.spec)) &&
    forall user :: user in ResolvedUsers(db, passwords) ==> user.name != "" && user.password != ""
  }

  /** What a given text or else a source stands for. */
  function Credential(namespace: string, given: string, source: Option<ValueSource>, passwords: Passwords): string {
    if given == "" && source.Some? then passwords(namespace, source.value) else given
  }

  function SuperUserName(s: DatabaseServer, passwords: Passwords): string {
    Credential(s.meta.key.namespace, s.spec.superUser, s.spec.superUserFrom, passwords)
  }

  function SuperUserPassword(s: DatabaseServer, passwords: Passwords): string {
    Credential(s.meta.key.namespace, s.spec.superUserPassword, s.spec.superUserPasswordFrom, passwords)
  }

  /** The one DSN text that a server's secret is meant to hold. */
  function ServerDsn(s: DatabaseServer, passwords: Passwords): Option<string> {
    S.SuperUserDsn(s, SuperUserName(s, passwords), SuperUserPassword(s, passwords))
  }

  /** The text opens this instance, or the driver refuses it. */
  predicate OpensAtMost(opens: Opens, dsn: string, k: Key) {
    opens(dsn).None? || opens(dsn) == Some(k)
  }

  /** The text that a server's secret is meant to hold does not lead to another instance. */
  ghost predicate OpensNoOther(c: Config, passwords: Passwords) {
    forall k :: k in c.servers && ServerDsn(c.servers[k], passwords).Some? ==>
      OpensAtMost(c.opens, ServerDsn(c.servers[k], passwords).value, k)
  }

  /** Servers and Databases have different names, and Databases on one server have different users. */
  ghost predicate Provisioned(c: Config, passwords: Passwords) {
    WellFormedConfig(c) && OpensNoOther(c, passwords) &&
    c.servers.Keys !! c.databases.Keys &&
    (forall k :: k in c.databases ==> Plain(c.databases[k], passwords)) &&
    (forall j, k :: j in c.databases && k in c.databases && j != k &&
                    ServerKey(c.databases[j]) == ServerKey(c.databases[k]) ==>
       Names(Users(c.databases[j].spec)) !! Names(Users(c.databases[k].spec)))
  }

  /** One server and one Database with an admin are provisioned, whatever their passwords, as long as there is one. */
  lemma SmallestProvisioning(password: string) returns (c: Config, passwords: Passwords)
    requires password != ""
    ensures Provisioned(c, passwords) && c.servers != map[] && c.databases != map[]
  {
    var at, name := Key("ns", "server"), Key("ns", "db");
    var status := Status(Unset, NoMessage);
    var server := Resource(Meta(at, "1", 0, None), DatabaseServerSpec(Plugin.Postgres, "su", None, "pw", None, "", 5432), status);
    var users := [DatabaseUser("admin", password, None, "admin")];
    var db := Resource(Meta(name, "2", 0, None), DatabaseSpec(Some(users), "", None, "server", ""), status);
    c := Config(map[at := server], map[name := db], _ => Some(at));
    passwords := (_, _) => password;
    assert ResolvedUsers(db, passwords) == users;
    assert at in c.servers && name in c.databases;
  }

  lemma ResolvedNames(db: Database, passwords: Passwords)
    ensures Names(ResolvedUsers(db, passwords)) == Names(Users(db.spec))
  {
    var users, resolved := Users(db.spec), ResolvedUsers(db, passwords);
    forall name ensures name in Names(users) <==> name in Names(resolved) {
      if name in Names(users) {
        var i :| 0 <= i < |users| && users[i].name == name;
        assert resolved[i] in resolved;
      }
      if name in Names(resolved) {
        var i :| 0 <= i < |resolved| && resolved[i].name == name;
        assert users[i] in users;
      }
    }
  }

  lemma JobsApart(c: Config, passwords: Passwords, j: Key, k: Key)
    requires Provisioned(c, passwords) && j in c.databases && k in c.databases && j != k
    requires ServerKey(c.databases[j]) == ServerKey(c.databases[k])
    ensures PI.Apart(ResolvedJob(c.databases[j], passwords), ResolvedJob(c.databases[k], passwords))
  {
    ResolvedNames(c.databases[j], passwords);
    ResolvedNames(c.databases[k], passwords);
  }

  /** The instance of a Database's server is there and holds what the Database asks for. */
  ghost predicate InPlace(db: Database, passwords: Passwords, instances: map<Key, Instance>) {
    ServerKey(db) in instances && Established(ResolvedJob(db, passwords), instances[ServerKey(db)])
  }

  /** The passwords of the first `i` users are resolved. */
  ghost predicate ResolvedUpTo(config: Database, db: Database, passwords: Passwords, i: nat) {
    i <= |Users(db.spec)| == |Users(config.spec)| &&
    forall j :: 0 <= j < i ==> Users(db.spec)[j] == ResolvedUsers(config, passwords)[j]
  }

  ghost predicate KnowsServer(c: Config, config: Database, s: Option<DatabaseServer>) {
    s.Some? && ServerKey(config) in c.servers && CopyOfServer(c.servers[ServerKey(config)], s.value)
  }

  /** What a Database pass may rely on at its point. */
  ghost predicate OnTrack(c: Config, config: Database, passwords: Passwords, p: D.Pass, instances: map<Key, Instance>) {
    match p
    case GettingDsn(_, s, source) => KnowsServer(c, config, s) && source == D.DsnEntry(config.spec.server)
    case GettingPassword(db, s, dsn, i) =>
      KnowsServer(c, config, s) && OpensAtMost(c.opens, dsn, ServerKey(config)) && ResolvedUpTo(config, db, passwords, i)
    case Syncing(db, s, dsn, client) =>
      KnowsServer(c, config, s) && OpensAtMost(c.opens, dsn, ServerKey(config)) &&
      D.JobOf(db) == ResolvedJob(config, passwords) &&
      (client.Probing? ||
       (ServerKey(config) in instances && Progress(D.JobOf(db), client, instances[ServerKey(config)])))
    case FindingSecret(db, s, _) =>
      KnowsServer(c, config, s) && D.JobOf(db) == ResolvedJob(config, passwords) && InPlace(config, passwords, instances)
    case CreatingSecret(_, s, dsn) =>
      KnowsServer(c, config, s) && dsn == AdminDsn(c, config, passwords) && InPlace(config, passwords, instances)
    case _ => true
  }

  /** The invariant for one Database's secret. */
  ghost predicate SecretTrue(c: Config, config: Database, passwords: Passwords, store: Store) {
    OwnsSecret(store.secrets, config.meta.key, config.meta.uid) ==>
      && InPlace(config, passwords, store.instances)
      && ServerKey(config) in c.servers
      && "dsn" in store.secrets[config.meta.key].data
      && store.secrets[config.meta.key].data["dsn"] == AdminDsn(c, config, passwords)
  }

  /** A secret under a server's name opens no other instance than that server's. */
  ghost predicate ServerSecretTrue(c: Config, k: Key, store: Store) {
    k in store.secrets && "dsn" in store.secrets[k].data ==> OpensAtMost(c.opens, store.secrets[k].data["dsn"], k)
  }

  ghost predicate StoreTrue(c: Config, passwords: Passwords, store: Store) {
    (forall k :: k in c.servers ==> ServerSecretTrue(c, k, store)) &&
    (forall k :: k in c.databases ==> SecretTrue(c, c.databases[k], passwords, store))
  }

  ghost predicate AllOnTrack(c: Config, passwords: Passwords, w: World) {
    forall k :: k in w.databasePasses && k in c.databases ==>
      OnTrack(c, c.databases[k], passwords, w.databasePasses[k], w.store.instances)
  }

  // ---- A Database pass stays on track ----

  lemma ResolvingOnTrack(c: Config, config: Database, passwords: Passwords, db: Database, s: Option<DatabaseServer>,
                         dsn: string, i: nat, instances: map<Key, Instance>)
    requires CopyOfDatabase(config, db) && KnowsServer(c, config, s) && OpensAtMost(c.opens, dsn, ServerKey(config))
    requires ResolvedUpTo(config, db, passwords, i)
    ensures OnTrack(c, config, passwords, D.ResolvePasswords(db, s, dsn, i), instances)
  {
    var users, resolved := Users(db.spec), ResolvedUsers(config, passwords);
    var n := D.NextSourced(users, i);
    forall j | 0 <= j < n ensures users[j] == resolved[j] {
      if i <= j {
        assert SameUser(Users(config.spec)[j], users[j]);
      }
    }
    if n == |users| {
      assert users == resolved;
    }
  }

  lemma PasswordOnTrack(c: Config, config: Database, passwords: Passwords, p: D.Pass, found: Lookup<string>,
                        instances: map<Key, Instance>)
    requires p.GettingPassword? && D.WellFormedPass(p) && CopyOfDatabase(config, p.db)
    requires OnTrack(c, config, passwords, p, instances)
    requires found.NotFound? ||
             found == Found(passwords(config.meta.key.namespace, Users(p.db.spec)[p.i].passwordFrom.value))
    ensures OnTrack(c, config, passwords, D.AfterPassword(p.db, p.s, p.dsn, p.i, found), instances)
  {
    if found.Found? {
      var db := D.WithPassword(p.db, p.i, found.value);
      SourcedPasswordKeepsCopy(config, p.db, p.i, found.value);
      assert SameUser(Users(config.spec)[p.i], Users(p.db.spec)[p.i]);
      assert ResolvedUpTo(config, db, passwords, p.i + 1);
      ResolvingOnTrack(c, config, passwords, db, p.s, p.dsn, p.i + 1, instances);
    }
  }

  lemma DsnOnTrack(c: Config, config: Database, passwords: Passwords, p: D.Pass, found: Lookup<string>, store: Store)
    requires p.GettingDsn? && CopyOfDatabase(config, p.db) && OnTrack(c, config, passwords, p, store.instances)
    requires ServerSecretTrue(c, ServerKey(config), store)
    requires found.Found? ==>
               found == Resolve(Some(p.source), config.meta.key.namespace, store.configMaps, SecretData(store.secrets))
    ensures found.Found? ==> OnTrack(c, config, passwords, D.ResolvePasswords(p.db, p.s, found.value, 0), store.instances)
  {
    if found.Found? {
      assert OpensAtMost(c.opens, found.value, ServerKey(config));
      ResolvingOnTrack(c, config, passwords, p.db, p.s, found.value, 0, store.instances);
    }
  }

  lemma StatementOnTrack(c: Config, config: Database, passwords: Passwords, p: D.Pass, fault: Fault, instances: map<Key, Instance>)
    requires p.Syncing? && D.Running(p) && CopyOfDatabase(config, p.db)
    requires OnTrack(c, config, passwords, p, instances) && ServerKey(config) in instances
    ensures var (client, pg) := Step(D.JobOf(p.db), p.client, instances[ServerKey(config)], fault);
            OnTrack(c, config, passwords, D.AfterStatement(p.db, p.s, p.dsn, client), instances[ServerKey(config) := pg])
  {
    var job, pg := D.JobOf(p.db), instances[ServerKey(config)];
    assert Progress(job, p.client, pg);
    StepKeepsProgress(job, p.client, pg, fault);
    var (client, pg') := Step(job, p.client, pg, fault);
    if Returned(job, client).Some? && !Returned(job, client).value.Failure? {
      ProgressAtSuccess(job, client, pg');
    }
  }

  lemma SecretOnTrack(c: Config, config: Database, passwords: Passwords, p: D.Pass, instances: map<Key, Instance>)
    requires p.FindingSecret? && D.WellFormedPass(p) && CopyOfDatabase(config, p.db)
    requires OnTrack(c, config, passwords, p, instances)
    ensures OnTrack(c, config, passwords, D.MakeSecret(p.db, p.s, p.dsn), instances)
  {
    assert Users(p.db.spec) == ResolvedUsers(config, passwords);
  }

  lemma OpeningOnTrack(c: Config, config: Database, passwords: Passwords, db: Database, s: Option<DatabaseServer>,
                       instances: map<Key, Instance>)
    requires CopyOfDatabase(config, db) && Plain(config, passwords)
    requires s.None? || (KnowsServer(c, config, s) && s.value.meta.key == ServerKey(config))
    ensures OnTrack(c, config, passwords, D.ChoosePlugin(db, s), instances)
    ensures OnTrack(c, config, passwords, D.AfterInitialization(db), instances)
  {}
}
