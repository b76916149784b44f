/**
 A new Database in a healthy environment that nothing else changes: what its first pass and
 its second pass leave behind, and that every later pass changes nothing at all.
 */
module Settling {
  import opened Resources
  import opened Postgres
  import opened Api
  import opened Passes
  import opened PostgresFacts
  import Dsn
  import PassFacts
  import D = DatabasePass

  /** Listers that are up to date. */
  function Fresh(store: Store): View {
    View(store.databases, store.servers, store.pods, store.services, store.secrets)
  }

  /** Listers that show the same at every request. */
  function Always(view: View): Views {
    _ => view
  }

  /** How a pass ends when nothing fails, whatever the number of its first request. */
  ghost function EndOf(p: D.Pass, store: Store, view: View, opens: Opens): PassEnd<D.Pass>
    requires D.WellFormedPass(p) && RequestedKeys(view)
  {
    RunDatabase(p, store, Always(view), opens, FAULTLESS, 0).(clock := 0)
  }

  lemma {:induction false} AnyClock(p: D.Pass, store: Store, view: View, opens: Opens, clock: nat)
    requires D.WellFormedPass(p) && RequestedKeys(view)
    ensures RunDatabase(p, store, Always(view), opens, FAULTLESS, clock).(clock := 0) == EndOf(p, store, view, opens)
    decreases if p.Begin? then 1 else 0, DatabaseRank(p)
  {
    if D.Running(p) {
      var (after, answer) := Api.Serve(store, view, opens, D.Ask(p), NoFault);
      NextRank(p, answer);
      AnyClock(D.Next(p, answer), after, view, opens, clock + 1);
      AnyClock(D.Next(p, answer), after, view, opens, 1);
    }
  }

  /** One request further. */
  lemma Leads(p: D.Pass, store: Store, view: View, opens: Opens, after: Store, answer: Answer, p': D.Pass)
    requires D.Running(p) && RequestedKeys(view)
    requires Api.Serve(store, view, opens, D.Ask(p), NoFault) == (after, answer) && D.Next(p, answer) == p'
    ensures EndOf(p, store, view, opens) == EndOf(p', after, view, opens)
  {
    AdvancesTo(p, store, Always(view), opens, FAULTLESS, 0, after, answer, p');
    AnyClock(p', after, view, opens, 1);
  }

  function WithUsers(db: Database, users: seq<DatabaseUser>): Database {
    db.(spec := db.spec.(users := Some(users)))
  }

  /** What a source resolves to in the store. */
  function Value(store: Store, namespace: string, source: Option<ValueSource>): Lookup<string> {
    Resolve(source, namespace, store.configMaps, SecretData(store.secrets))
  }

  /** A user with its password looked up, if it comes from elsewhere. */
  function ResolvedUser(user: DatabaseUser, namespace: string, store: Store): DatabaseUser {
    var found := Value(store, namespace, user.passwordFrom);
    if user.passwordFrom.Some? && found.Found? then user.(password := found.value) else user
  }

  function ResolvedFrom(users: seq<DatabaseUser>, i: nat, namespace: string, store: Store): (r: seq<DatabaseUser>)
    requires i <= |users|
    ensures |r| == |users|
  {
    seq(|users|, k requires 0 <= k < |users| => if k < i then users[k] else ResolvedUser(users[k], namespace, store))
  }

  /** The Database with every sourced password looked up. */
  function Resolved(db: Database, store: Store): Database {
    WithUsers(db, ResolvedFrom(Users(db.spec), 0, db.meta.key.namespace, store))
  }

  ghost predicate PasswordsResolve(users: seq<DatabaseUser>, namespace: string, store: Store) {
    forall k :: 0 <= k < |users| && users[k].passwordFrom.Some? ==> Value(store, namespace, users[k].passwordFrom).Found?
  }

  /** The plugin is that of Postgres. */
  predicate OnPostgres(db: Database, s: DatabaseServer) {
    (if db.spec.serverType != "" then D.EngineNamed(db.spec.serverType) else D.EngineOf(s.spec.plugin)) ==
    Some(D.PostgresEngine)
  }

  /** The superuser's DSN text can be found, by whichever of the three ways applies. */
  ghost predicate FindsDsn(db: Database, s: DatabaseServer, store: Store, dsn: string) {
    if db.spec.dsn != "" then dsn == db.spec.dsn
    else if db.spec.dsnFrom.Some? then
      db.spec.dsnFrom.value.secretKeyRef.Some? && Value(store, db.meta.key.namespace, db.spec.dsnFrom) == Found(dsn)
    else
      var key := Key(db.meta.key.namespace, s.meta.key.name);
      key in store.secrets && "dsn" in store.secrets[key].data && store.secrets[key].data["dsn"] == dsn
  }

  /** The user list has an admin, unique names and valid roles, and its passwords are to be had. */
  ghost predicate UsersInOrder(db: Database, store: Store) {
    db.spec.users.Some? && PassFacts.HasAdmin(Users(db.spec)) && UniqueNames(Users(db.spec)) &&
    ValidRoles(Users(db.spec)) && PasswordsResolve(Users(db.spec), db.meta.key.namespace, store)
  }

  /** The server that the Database names is there, is one of Postgres, and leads to this DSN text. */
  ghost predicate FindsServer(db: Database, s: DatabaseServer, dsn: string, store: Store) {
    && db.spec.server != "" && Key(db.meta.key.namespace, db.spec.server) in store.servers
    && s == store.servers[Key(db.meta.key.namespace, db.spec.server)]
    && OnPostgres(db, s) && FindsDsn(db, s, store, dsn)
  }

  /** Everything but the secret that a pass for this Database needs, with the instance it gets to. */
  ghost predicate Healthy(db: Database, s: DatabaseServer, dsn: string, at: Key, store: Store, opens: Opens) {
    && FindsServer(db, s, dsn, store)
    && opens(dsn) == Some(at) && at in store.instances
    && UsersInOrder(db, store)
  }

  lemma FindsServerAndDsn(db: Database, s: DatabaseServer, dsn: string, store: Store, view: View, opens: Opens)
    requires FindsServer(db, s, dsn, store) && view.servers == store.servers && RequestedKeys(view)
    ensures EndOf(D.AfterInitialization(db), store, view, opens) ==
            EndOf(D.ResolvePasswords(db, Some(s), dsn, 0), store, view, opens)
  {
    Leads(D.FindingServer(db), store, view, opens, store, ServerIs(Found(s)), D.ChoosePlugin(db, Some(s)));
    assert D.ChoosePlugin(db, Some(s)) == D.ChooseDsn(db, Some(s));
    if db.spec.dsn == "" {
      var source := if db.spec.dsnFrom.Some? then db.spec.dsnFrom.value else D.DsnEntry(s.meta.key.name);
      Leads(D.GettingDsn(db, Some(s), source), store, view, opens, store, ValueIs(Found(dsn)),
            D.ResolvePasswords(db, Some(s), dsn, 0));
    }
  }

  /** Looking up the next sourced password leaves the same passwords to look up. */
  lemma OneLookupLess(db: Database, i: nat, store: Store, users: seq<DatabaseUser>, j: nat, db': Database)
    requires i <= |Users(db.spec)| && j == D.NextSourced(Users(db.spec), i) < |Users(db.spec)|
    requires PasswordsResolve(Users(db.spec), db.meta.key.namespace, store)
    requires users == ResolvedFrom(Users(db.spec), i, db.meta.key.namespace, store)
    requires db' == D.WithPassword(db, j, Value(store, db.meta.key.namespace, Users(db.spec)[j].passwordFrom).value)
    ensures PasswordsResolve(Users(db'.spec), db.meta.key.namespace, store)
    ensures ResolvedFrom(Users(db'.spec), j + 1, db.meta.key.namespace, store) == users
    ensures WithUsers(db', users) == WithUsers(db, users)
  {}

  lemma LooksUpOne(db: Database, s: Option<DatabaseServer>, dsn: string, store: Store, view: View, opens: Opens,
                   j: nat, password: string)
    requires j < |Users(db.spec)| && Users(db.spec)[j].passwordFrom.Some? && RequestedKeys(view)
    requires Value(store, db.meta.key.namespace, Users(db.spec)[j].passwordFrom) == Found(password)
    ensures EndOf(D.GettingPassword(db, s, dsn, j), store, view, opens) ==
            EndOf(D.ResolvePasswords(D.WithPassword(db, j, password), s, dsn, j + 1), store, view, opens)
  {
    Leads(D.GettingPassword(db, s, dsn, j), store, view, opens, store, ValueIs(Found(password)),
          D.ResolvePasswords(D.WithPassword(db, j, password), s, dsn, j + 1));
  }

  lemma NoneLeftToLookUp(users: seq<DatabaseUser>, i: nat, namespace: string, store: Store)
    requires i <= |users| && D.NextSourced(users, i) == |users|
    ensures ResolvedFrom(users, i, namespace, store) == users
  {}

  type Measure = D.Pass -> PassEnd<D.Pass>

  /** Looking up one password does not change the measure. */
  ghost predicate SameAfterLookup(f: Measure, s: Option<DatabaseServer>, dsn: string, namespace: string, store: Store) {
    forall db: Database, j: nat {:trigger D.GettingPassword(db, s, dsn, j)} ::
      db.meta.key.namespace == namespace && j < |Users(db.spec)| && Users(db.spec)[j].passwordFrom.Some? &&
      Value(store, namespace, Users(db.spec)[j].passwordFrom).Found? ==>
        var password := Value(store, namespace, Users(db.spec)[j].passwordFrom).value;
        f(D.GettingPassword(db, s, dsn, j)) == f(D.ResolvePasswords(D.WithPassword(db, j, password), s, dsn, j + 1))
  }

  /** The passwords are looked up one after the other and stored in the user list. */
  lemma {:induction false} LooksUpAll(f: Measure, db: Database, s: Option<DatabaseServer>, dsn: string, i: nat,
                                      store: Store, users: seq<DatabaseUser>)
    requires db.spec.users.Some? && i <= |Users(db.spec)|
    requires PasswordsResolve(Users(db.spec), db.meta.key.namespace, store)
    requires users == ResolvedFrom(Users(db.spec), i, db.meta.key.namespace, store)
    requires SameAfterLookup(f, s, dsn, db.meta.key.namespace, store)
    ensures f(D.ResolvePasswords(db, s, dsn, i)) == f(D.Syncing(WithUsers(db, users), s, dsn, Probing))
    decreases |Users(db.spec)| - i
  {
    var j := D.NextSourced(Users(db.spec), i);
    if j < |Users(db.spec)| {
      var db' := D.WithPassword(db, j, Value(store, db.meta.key.namespace, Users(db.spec)[j].passwordFrom).value);
      OneLookupLess(db, i, store, users, j, db');
      LooksUpAll(f, db', s, dsn, j + 1, store, users);
      assert f(D.GettingPassword(db, s, dsn, j)) == f(D.ResolvePasswords(db', s, dsn, j + 1));
    } else {
      NoneLeftToLookUp(Users(db.spec), i, db.meta.key.namespace, store);
      assert WithUsers(db, Users(db.spec)) == db;
    }
  }

  lemma LooksUpPasswords(db: Database, s: Option<DatabaseServer>, dsn: string, store: Store, view: View, opens: Opens)
    requires db.spec.users.Some? && RequestedKeys(view)
    requires PasswordsResolve(Users(db.spec), db.meta.key.namespace, store)
    ensures EndOf(D.ResolvePasswords(db, s, dsn, 0), store, view, opens) ==
            EndOf(D.Syncing(Resolved(db, store), s, dsn, Probing), store, view, opens)
  {
    var f: Measure := p => if D.WellFormedPass(p) then EndOf(p, store, view, opens) else PassEnd(p, store, 0);
    forall other: Database, j: nat {:trigger D.GettingPassword(other, s, dsn, j)} |
      other.meta.key.namespace == db.meta.key.namespace && j < |Users(other.spec)| &&
      Users(other.spec)[j].passwordFrom.Some? &&
      Value(store, db.meta.key.namespace, Users(other.spec)[j].passwordFrom).Found?
      ensures var password := Value(store, db.meta.key.namespace, Users(other.spec)[j].passwordFrom).value;
              f(D.GettingPassword(other, s, dsn, j)) ==
              f(D.ResolvePasswords(D.WithPassword(other, j, password), s, dsn, j + 1))
    {
      var password := Value(store, db.meta.key.namespace, Users(other.spec)[j].passwordFrom).value;
      LooksUpOne(other, s, dsn, store, view, opens, j, password);
    }
    LooksUpAll(f, db, s, dsn, 0, store, ResolvedFrom(Users(db.spec), 0, db.meta.key.namespace, store));
  }

  /** The instance after a call that nothing stands in the way of. */
  ghost function Synchronized(db: Database, pg: Instance): Instance {
    SyncDatabase(D.JobOf(db), pg, FAULTLESS, 0).pg
  }

  /** No user stands in the way: a new database wants new users. */
  ghost predicate Unblocked(db: Database, pg: Instance) {
    D.JobOf(db).db !in pg.dbs ==> forall name :: name in Names(Users(db.spec)) ==> name !in pg.users
  }

  lemma UnblockedSucceeds(db: Database, pg: Instance)
    requires UniqueNames(Users(db.spec)) && ValidRoles(Users(db.spec)) && Unblocked(db, pg)
    ensures !SyncDatabase(D.JobOf(db), pg, FAULTLESS, 0).outcome.Failure?
    ensures Established(D.JobOf(db), Synchronized(db, pg))
  {
    var job := D.JobOf(db);
    FailsIffBlocked(job, pg, 0);
    RunEstablishes(job, Probing, pg, FAULTLESS, 0);
  }

  lemma Synchronizes(db: Database, s: DatabaseServer, dsn: string, at: Key, store: Store, view: View, opens: Opens)
    requires UniqueNames(Users(db.spec)) && ValidRoles(Users(db.spec)) && db.spec.users.Some? && RequestedKeys(view)
    requires opens(dsn) == Some(at) && at in store.instances && Unblocked(db, store.instances[at])
    ensures EndOf(D.Syncing(db, Some(s), dsn, Probing), store, view, opens) ==
            EndOf(D.FindingSecret(db, Some(s), dsn),
                  store.(instances := store.instances[at := Synchronized(db, store.instances[at])]), view, opens)
  {
    UnblockedSucceeds(db, store.instances[at]);
    SyncingIsARun(db, Some(s), dsn, Probing, store, Always(view), opens, FAULTLESS, 0);
    var end := SyncDatabase(D.JobOf(db), store.instances[at], FAULTLESS, 0);
    AnyClock(D.FindingSecret(db, Some(s), dsn), store.(instances := store.instances[at := end.pg]), view, opens, end.clock);
  }

  lemma ResolvedUsersInOrder(db: Database, store: Store)
    requires UsersInOrder(db, store)
    ensures UsersInOrder(Resolved(db, store), store)
    ensures Names(Users(Resolved(db, store).spec)) == Names(Users(db.spec))
  {
    var users, resolved := Users(db.spec), Users(Resolved(db, store).spec);
    var i :| 0 <= i < |users| && users[i].role == "admin";
    assert resolved[i].role == "admin";
    forall name ensures name in Names(users) <==> name in Names(resolved) {
      if name in Names(users) {
        var k :| 0 <= k < |users| && users[k].name == name;
        assert resolved[k].name == name;
      }
    }
  }

  /** From a Database read to its secret: the instance is synchronized, nothing else happens. */
  lemma ReachesSecret(db: Database, s: DatabaseServer, dsn: string, at: Key, store: Store, view: View, opens: Opens)
    requires Healthy(db, s, dsn, at, store, opens) && view.servers == store.servers && RequestedKeys(view)
    requires Unblocked(db, store.instances[at])
    ensures var ready := Resolved(db, store);
            EndOf(D.AfterInitialization(db), store, view, opens) ==
            EndOf(D.FindingSecret(ready, Some(s), dsn),
                  store.(instances := store.instances[at := Synchronized(ready, store.instances[at])]), view, opens)
  {
    ResolvedUsersInOrder(db, store);
    FindsServerAndDsn(db, s, dsn, store, view, opens);
    LooksUpPasswords(db, Some(s), dsn, store, view, opens);
    Synchronizes(Resolved(db, store), s, dsn, at, store, view, opens);
  }

  lemma Reports(db: Database, status: Status, failed: bool, store: Store, view: View, opens: Opens)
    requires RequestedKeys(view)
    ensures EndOf(D.Putting(db, [status], failed), store, view, opens) ==
            PassEnd(D.Finished(failed), store.(databases := Put(db.(status := status), store.databases, NoFault)), 0)
  {
    var after := store.(databases := Put(db.(status := status), store.databases, NoFault));
    Leads(D.Putting(db, [status], failed), store, view, opens, after, PutIs, D.Finished(failed));
  }

  /** The secret of the first admin. */
  function AdminSecret(db: Database, s: DatabaseServer): Secret
    requires D.FirstAdmin(Users(db.spec)) < |Users(db.spec)|
  {
    var admin := Users(db.spec)[D.FirstAdmin(Users(db.spec))];
    Secret(Some(OwnerRef("Secret", db.meta.key.name, db.meta.uid)),
           map["dsn" := Dsn.PostgresDsn(admin.name, admin.password, Some(db.meta.key.name), s)])
  }

  lemma HasFirstAdmin(users: seq<DatabaseUser>)
    requires PassFacts.HasAdmin(users)
    ensures D.FirstAdmin(users) < |users|
  {}

  const SUCCESS := Status(Success, Synced)

  /** A secret that is not there is made for the first admin. */
  lemma AsksForSecret(db: Database, s: DatabaseServer, dsn: string, store: Store, view: View, opens: Opens, text: string)
    requires RequestedKeys(view) && db.spec.users.Some? && D.FirstAdmin(Users(db.spec)) < |Users(db.spec)|
    requires db.meta.key !in view.secrets && D.Secretive(db, text) == AdminSecret(db, s)
    ensures EndOf(D.FindingSecret(db, Some(s), dsn), store, view, opens) ==
            EndOf(D.CreatingSecret(db.(meta := D.Labelled(db.meta)), Some(s), text), store, view, opens)
  {
    var admin := Users(db.spec)[D.FirstAdmin(Users(db.spec))];
    assert D.Secretive(db, text).data["dsn"] == AdminSecret(db, s).data["dsn"];
    Leads(D.FindingSecret(db, Some(s), dsn), store, view, opens, store, SecretIs(NotFound),
          D.CreatingSecret(db.(meta := D.Labelled(db.meta)), Some(s), text));
  }

  lemma MakesSecret(db: Database, s: Option<DatabaseServer>, text: string, store: Store, view: View, opens: Opens)
    requires RequestedKeys(view) && db.spec.users.Some? && db.meta.key !in store.secrets
    ensures EndOf(D.CreatingSecret(db, s, text), store, view, opens) ==
            EndOf(D.Putting(db, [SUCCESS], false),
                  store.(secrets := store.secrets[db.meta.key := D.Secretive(db, text)]), view, opens)
  {
    Leads(D.CreatingSecret(db, s, text), store, view, opens,
          store.(secrets := store.secrets[db.meta.key := D.Secretive(db, text)]), CreationIs(true),
          D.Putting(db, [SUCCESS], false));
  }

  lemma FindsSecret(db: Database, s: DatabaseServer, dsn: string, store: Store, view: View, opens: Opens)
    requires RequestedKeys(view) && db.spec.users.Some?
    requires db.meta.key in view.secrets && IsControlledBy(view.secrets[db.meta.key].owner, db.meta.uid)
    ensures EndOf(D.FindingSecret(db, Some(s), dsn), store, view, opens) ==
            EndOf(D.Putting(db, [SUCCESS], false), store, view, opens)
  {
    Leads(D.FindingSecret(db, Some(s), dsn), store, view, opens, store, SecretIs(Found(view.secrets[db.meta.key])),
          D.Putting(db, [SUCCESS], false));
  }

  /** The store after a whole pass with up-to-date listers and no failure. */
  ghost function AfterPass(store: Store, opens: Opens, key: Key): Store
    requires RequestedKeys(Fresh(store))
  {
    EndOf(D.Begin(key), store, Fresh(store), opens).store
  }

  function WithStatus(db: Database, status: Status): Database {
    db.(status := status, meta := db.meta.(version := db.meta.version + 1))
  }

  const PENDING := Status(Pending, YetToInitialize)

  /** Lookups do not depend on the custom resources. */
  lemma SameLookups(db: Database, store: Store, store': Store)
    requires store'.configMaps == store.configMaps && store'.secrets == store.secrets
    ensures Resolved(db, store') == Resolved(db, store)
    ensures PasswordsResolve(Users(db.spec), db.meta.key.namespace, store') <==>
            PasswordsResolve(Users(db.spec), db.meta.key.namespace, store)
    ensures forall namespace, source :: Value(store', namespace, source) == Value(store, namespace, source)
  {
    assert ResolvedFrom(Users(db.spec), 0, db.meta.key.namespace, store') ==
           ResolvedFrom(Users(db.spec), 0, db.meta.key.namespace, store);
  }

  lemma FirstStatusLands(db: Database, store: Store, view: View, opens: Opens)
    requires RequestedKeys(view) && db.meta.key in view.databases && view.databases[db.meta.key] == db
    requires db.meta.key in store.databases && store.databases[db.meta.key] == db && db.status.state.Unset?
    ensures EndOf(D.Begin(db.meta.key), store, view, opens) ==
            EndOf(D.AfterInitialization(db),
                  store.(databases := store.databases[db.meta.key := WithStatus(db, PENDING)]), view, opens)
  {
    var pending := store.(databases := store.databases[db.meta.key := WithStatus(db, PENDING)]);
    Leads(D.Begin(db.meta.key), store, view, opens, store, DatabaseIs(Found(db)), D.Initializing(db));
    Leads(D.Initializing(db), store, view, opens, pending, PutIs, D.AfterInitialization(db));
  }

  /** The last status carries the version that was read, which is no longer the stored one. */
  lemma LastStatusIsRefused(ready: Database, s: DatabaseServer, dsn: string, store: Store, view: View, opens: Opens)
    requires RequestedKeys(view) && ready.spec.users.Some? && D.FirstAdmin(Users(ready.spec)) < |Users(ready.spec)|
    requires ready.meta.key !in view.secrets && ready.meta.key !in store.secrets
    requires ready.meta.key in store.databases && store.databases[ready.meta.key].meta.version != ready.meta.version
    ensures EndOf(D.FindingSecret(ready, Some(s), dsn), store, view, opens) ==
            PassEnd(D.Finished(false), store.(secrets := store.secrets[ready.meta.key := AdminSecret(ready, s)]), 0)
  {
    var labelled := ready.(meta := D.Labelled(ready.meta));
    var text := AdminSecret(ready, s).data["dsn"];
    AsksForSecret(ready, s, dsn, store, view, opens, text);
    MakesSecret(labelled, Some(s), text, store, view, opens);
    var made := store.(secrets := store.secrets[ready.meta.key := AdminSecret(ready, s)]);
    Reports(labelled, SUCCESS, false, made, view, opens);
    assert Put(labelled.(status := SUCCESS), made.databases, NoFault) == made.databases;
  }

  /** What the first pass leaves. */
  ghost function AfterFirst(db: Database, s: DatabaseServer, at: Key, store: Store): Store
    requires D.FirstAdmin(Users(Resolved(db, store).spec)) < |Users(Resolved(db, store).spec)| && at in store.instances
  {
    var ready := Resolved(db, store);
    store.(databases := store.databases[db.meta.key := WithStatus(db, PENDING)],
           secrets := store.secrets[db.meta.key := AdminSecret(ready, s)],
           instances := store.instances[at := Synchronized(ready, store.instances[at])])
  }

  ghost predicate Stored(db: Database, store: Store) {
    RequestedKeys(Fresh(store)) && db.meta.key in store.databases && db == store.databases[db.meta.key]
  }

  /** The first pass: the instance is synchronized and the secret made, but only the first status gets through. */
  lemma FirstPass(db: Database, s: DatabaseServer, dsn: string, at: Key, store: Store, opens: Opens)
    requires Stored(db, store) && Healthy(db, s, dsn, at, store, opens) && Unblocked(db, store.instances[at])
    requires db.status.state.Unset? && db.meta.key !in store.secrets
    ensures D.FirstAdmin(Users(Resolved(db, store).spec)) < |Users(Resolved(db, store).spec)|
    ensures AfterPass(store, opens, db.meta.key) == AfterFirst(db, s, at, store)
  {
    var key, view, ready := db.meta.key, Fresh(store), Resolved(db, store);
    ResolvedUsersInOrder(db, store);
    HasFirstAdmin(Users(ready.spec));
    FirstStatusLands(db, store, view, opens);
    var pending := store.(databases := store.databases[key := WithStatus(db, PENDING)]);
    SameLookups(db, store, pending);
    ReachesSecret(db, s, dsn, at, pending, view, opens);
    var synced := pending.(instances := pending.instances[at := Synchronized(ready, store.instances[at])]);
    LastStatusIsRefused(ready, s, dsn, synced, view, opens);
  }

  /** A later pass: the secret is there, and the resolved object is written back with a status of success. */
  lemma LaterPass(db: Database, s: DatabaseServer, dsn: string, at: Key, store: Store, opens: Opens)
    requires Stored(db, store) && Healthy(db, s, dsn, at, store, opens) && Unblocked(db, store.instances[at])
    requires !db.status.state.Unset?
    requires db.meta.key in store.secrets && IsControlledBy(store.secrets[db.meta.key].owner, db.meta.uid)
    ensures var ready := Resolved(db, store);
            AfterPass(store, opens, db.meta.key) ==
            store.(databases := store.databases[db.meta.key := Update(db, ready.(status := SUCCESS))],
                   instances := store.instances[at := Synchronized(ready, store.instances[at])])
  {
    var key, view, ready := db.meta.key, Fresh(store), Resolved(db, store);
    Leads(D.Begin(key), store, view, opens, store, DatabaseIs(Found(db)), D.AfterInitialization(db));
    ReachesSecret(db, s, dsn, at, store, view, opens);
    var synced := store.(instances := store.instances[at := Synchronized(ready, store.instances[at])]);
    FindsSecret(ready, s, dsn, synced, view, opens);
    Reports(ready, SUCCESS, false, synced, view, opens);
  }

  lemma PutKeepsKeys<T(!new)>(written: Resource<T>, objects: map<Key, Resource<T>>, fault: Fault)
    requires forall key :: key in objects ==> objects[key].meta.key == key
    ensures var after := Put(written, objects, fault); forall key :: key in after ==> after[key].meta.key == key
  {}

  lemma ServeKeepsKeys(store: Store, view: View, opens: Opens, request: Request, fault: Fault)
    requires RequestedKeys(Fresh(store))
    ensures RequestedKeys(Fresh(Api.Serve(store, view, opens, request, fault).0))
  {
    match request
    case PutDatabase(db) => PutKeepsKeys(db, store.databases, fault);
    case PutServer(server) => PutKeepsKeys(server, store.servers, fault);
    case _ =>
  }

  lemma {:induction false} PassKeepsKeys(p: D.Pass, store: Store, view: View, opens: Opens, clock: nat)
    requires D.WellFormedPass(p) && RequestedKeys(view) && RequestedKeys(Fresh(store))
    ensures RequestedKeys(Fresh(RunDatabase(p, store, Always(view), opens, FAULTLESS, clock).store))
    decreases if p.Begin? then 1 else 0, DatabaseRank(p)
  {
    if D.Running(p) {
      var (after, answer) := Api.Serve(store, view, opens, D.Ask(p), FAULTLESS(clock));
      NextRank(p, answer);
      ServeKeepsKeys(store, view, opens, D.Ask(p), FAULTLESS(clock));
      PassKeepsKeys(D.Next(p, answer), after, view, opens, clock + 1);
    }
  }

  /** The store after a number of passes, each with up-to-date listers. */
  ghost function AfterPasses(store: Store, opens: Opens, key: Key, n: nat): Store
    requires RequestedKeys(Fresh(store))
    decreases n
  {
    if n == 0 then store
    else
      PassKeepsKeys(D.Begin(key), store, Fresh(store), opens, 0);
      AfterPasses(AfterPass(store, opens, key), opens, key, n - 1)
  }

  /** Everything that is there stays as it is; only the object, the instances and new secrets differ. */
  ghost predicate SameEnvironment(store: Store, store': Store, at: Key) {
    && store'.servers == store.servers && store'.configMaps == store.configMaps && at in store'.instances
    && forall key :: key in store.secrets ==> key in store'.secrets && store'.secrets[key] == store.secrets[key]
  }

  lemma FoundStays(store: Store, store': Store, at: Key, namespace: string, source: Option<ValueSource>)
    requires SameEnvironment(store, store', at) && Value(store, namespace, source).Found?
    ensures Value(store', namespace, source) == Value(store, namespace, source)
  {}

  /** Another state of the same object: its sourced passwords may have been looked up. */
  ghost predicate SameButLookups(db: Database, db': Database, store: Store) {
    && db'.meta.key == db.meta.key && (db'.spec == db.spec || db'.spec == Resolved(db, store).spec)
  }

  lemma LookupsStay(db: Database, db': Database, store: Store, store': Store, at: Key)
    requires SameEnvironment(store, store', at) && SameButLookups(db, db', store) && UsersInOrder(db, store)
    ensures UsersInOrder(db', store') && Resolved(db', store').spec == Resolved(db, store).spec
    ensures Names(Users(db'.spec)) == Names(Users(db.spec))
  {
    var users, users', namespace := Users(db.spec), Users(db'.spec), db.meta.key.namespace;
    ResolvedUsersInOrder(db, store);
    forall k | 0 <= k < |users| && users[k].passwordFrom.Some?
      ensures Value(store', namespace, users'[k].passwordFrom) == Value(store, namespace, users[k].passwordFrom)
    {
      FoundStays(store, store', at, namespace, users[k].passwordFrom);
    }
    assert ResolvedFrom(users', 0, namespace, store') == ResolvedFrom(users, 0, namespace, store);
  }

  lemma HealthStays(db: Database, db': Database, s: DatabaseServer, dsn: string, at: Key,
                    store: Store, store': Store, opens: Opens)
    requires Healthy(db, s, dsn, at, store, opens)
    requires SameEnvironment(store, store', at) && SameButLookups(db, db', store)
    ensures Healthy(db', s, dsn, at, store', opens) && Resolved(db', store').spec == Resolved(db, store).spec
    ensures Unblocked(db, store'.instances[at]) ==> Unblocked(db', store'.instances[at])
  {
    LookupsStay(db, db', store, store', at);
    if db.spec.dsn == "" {
      FoundStays(store, store', at, db.meta.key.namespace,
                 if db.spec.dsnFrom.Some? then db.spec.dsnFrom else Some(D.DsnEntry(s.meta.key.name)));
    }
  }

  /** Where everything is in place, a pass leaves the instance as it is. */
  lemma NothingToSynchronize(db: Database, pg: Instance)
    requires Established(D.JobOf(db), pg) && UniqueNames(Users(db.spec))
    ensures Synchronized(db, pg) == pg && Unblocked(db, pg)
  {
    EstablishedIsFixed(D.JobOf(db), Probing, pg, FAULTLESS, 0);
  }

  /** A pass that finds its secret and an instance with everything in place writes one status, if that. */
  lemma QuietPass(db: Database, s: DatabaseServer, dsn: string, at: Key, store: Store, opens: Opens)
    requires Stored(db, store) && Healthy(db, s, dsn, at, store, opens) && !db.status.state.Unset?
    requires db.meta.key in store.secrets && IsControlledBy(store.secrets[db.meta.key].owner, db.meta.uid)
    requires Established(D.JobOf(Resolved(db, store)), store.instances[at])
    ensures AfterPass(store, opens, db.meta.key) ==
            store.(databases := store.databases[db.meta.key := Update(db, Resolved(db, store).(status := SUCCESS))])
  {
    ResolvedUsersInOrder(db, store);
    NothingToSynchronize(Resolved(db, store), store.instances[at]);
    LaterPass(db, s, dsn, at, store, opens);
    assert store.instances[at := store.instances[at]] == store.instances;
  }

  /** The environment in which a new Database settles. */
  ghost predicate ReadyForNew(db: Database, s: DatabaseServer, dsn: string, at: Key, store: Store, opens: Opens) {
    && Stored(db, store) && Healthy(db, s, dsn, at, store, opens) && Unblocked(db, store.instances[at])
    && db.status.state.Unset? && db.meta.key !in store.secrets
  }

  /** An empty instance that an inline DSN opens is environment enough for a Database with one admin. */
  lemma SmallestEnvironment(dsn: string, password: string)
    returns (db: Database, s: DatabaseServer, at: Key, store: Store, opens: Opens)
    requires dsn != ""
    ensures ReadyForNew(db, s, dsn, at, store, opens)
  {
    at := Key("ns", "server");
    var name, status := Key("ns", "db"), Status(Unset, NoMessage);
    var users := [DatabaseUser("admin", password, None, "admin")];
    s := Resource(Meta(at, "1", 0, None), DatabaseServerSpec(Plugin.Postgres, "", None, "", None, "", 5432), status);
    db := Resource(Meta(name, "2", 0, None), DatabaseSpec(Some(users), dsn, None, "server", ""), status);
    store := Store(map[name := db], map[at := s], map[], map[], map[], map[], map[at := Instance({}, map[])]);
    opens := _ => Some(at);
    assert Users(db.spec)[0].role == "admin";
  }

  /** What holds once the first pass is over, and from then on. */
  ghost predicate Settled(db: Database, db': Database, s: DatabaseServer, dsn: string, at: Key,
                          store: Store, store': Store, opens: Opens) {
    && Stored(db', store') && db'.meta.key == db.meta.key && db'.meta.uid == db.meta.uid && !db'.status.state.Unset?
    && Healthy(db', s, dsn, at, store', opens) && Resolved(db', store').spec == Resolved(db, store).spec
    && db.meta.key in store'.secrets && IsControlledBy(store'.secrets[db.meta.key].owner, db.meta.uid)
    && Established(D.JobOf(Resolved(db, store)), store'.instances[at])
  }

  lemma SettledAfterFirst(db: Database, s: DatabaseServer, dsn: string, at: Key, store: Store, opens: Opens)
    requires ReadyForNew(db, s, dsn, at, store, opens)
    requires D.FirstAdmin(Users(Resolved(db, store).spec)) < |Users(Resolved(db, store).spec)|
    ensures Settled(db, WithStatus(db, PENDING), s, dsn, at, store, AfterFirst(db, s, at, store), opens)
  {
    var ready, one := Resolved(db, store), AfterFirst(db, s, at, store);
    assert Stored(WithStatus(db, PENDING), one);
    assert one.instances[at] == Synchronized(ready, store.instances[at]);
    ResolvedUsersInOrder(db, store);
    UnblockedSucceeds(ready, store.instances[at]);
    HealthStays(db, WithStatus(db, PENDING), s, dsn, at, store, one, opens);
  }

  /** The object as the next pass leaves it. */
  function Rewritten(db: Database, store: Store): Database {
    Update(db, Resolved(db, store).(status := SUCCESS))
  }

  function Replaced(db: Database, store: Store): Store {
    store.(databases := store.databases[db.meta.key := db])
  }

  lemma PassRewrites(db: Database, db': Database, s: DatabaseServer, dsn: string, at: Key,
                     store: Store, store': Store, opens: Opens)
    requires Settled(db, db', s, dsn, at, store, store', opens)
    ensures AfterPass(store', opens, db.meta.key) == Replaced(Rewritten(db', store'), store')
    ensures Rewritten(db', store').spec == Resolved(db, store).spec
  {
    assert D.JobOf(Resolved(db', store')) == D.JobOf(Resolved(db, store));
    QuietPass(db', s, dsn, at, store', opens);
  }

  /** A quiet pass keeps things settled. */
  lemma SettledStays(db: Database, db': Database, s: DatabaseServer, dsn: string, at: Key,
                     store: Store, store': Store, opens: Opens, written: Database)
    requires Settled(db, db', s, dsn, at, store, store', opens) && written == Rewritten(db', store')
    ensures Settled(db, written, s, dsn, at, store, Replaced(written, store'), opens)
  {
    assert Stored(written, Replaced(written, store'));
    HealthStays(db', written, s, dsn, at, store', Replaced(written, store'), opens);
  }

  lemma SecondStatusLands(db: Database, store: Store, one: Store, done: Database)
    requires done == Rewritten(WithStatus(db, PENDING), one) && done.spec == Resolved(db, store).spec
    ensures done == WithStatus(WithStatus(Resolved(db, store), PENDING), SUCCESS)
  {}

  lemma FirstTwo(db: Database, s: DatabaseServer, dsn: string, at: Key, store: Store, opens: Opens, one: Store, done: Database)
    requires ReadyForNew(db, s, dsn, at, store, opens)
    requires D.FirstAdmin(Users(Resolved(db, store).spec)) < |Users(Resolved(db, store).spec)|
    requires one == AfterFirst(db, s, at, store) && done == Rewritten(WithStatus(db, PENDING), one)
    ensures Settled(db, WithStatus(db, PENDING), s, dsn, at, store, one, opens)
    ensures Settled(db, done, s, dsn, at, store, Replaced(done, one), opens)
    ensures AfterPass(store, opens, db.meta.key) == one && AfterPass(one, opens, db.meta.key) == Replaced(done, one)
    ensures done == WithStatus(WithStatus(Resolved(db, store), PENDING), SUCCESS)
  {
    FirstPass(db, s, dsn, at, store, opens);
    SettledAfterFirst(db, s, dsn, at, store, opens);
    PassRewrites(db, WithStatus(db, PENDING), s, dsn, at, store, one, opens);
    SecondStatusLands(db, store, one, done);
    SettledStays(db, WithStatus(db, PENDING), s, dsn, at, store, one, opens, done);
  }

  lemma {:induction false} FixedFromThereOn(store: Store, opens: Opens, key: Key, n: nat)
    requires RequestedKeys(Fresh(store)) && AfterPass(store, opens, key) == store
    ensures AfterPasses(store, opens, key, n) == store
    decreases n
  {
    if n > 0 { FixedFromThereOn(store, opens, key, n - 1); }
  }

  lemma SplitPasses(store: Store, opens: Opens, key: Key, one: Store, two: Store, n: nat)
    requires RequestedKeys(Fresh(store)) && RequestedKeys(Fresh(one)) && RequestedKeys(Fresh(two))
    requires one == AfterPass(store, opens, key) && two == AfterPass(one, opens, key)
    ensures AfterPasses(store, opens, key, 1) == one
    ensures AfterPasses(store, opens, key, n + 2) == AfterPasses(two, opens, key, n)
  {
    assert AfterPasses(one, opens, key, 0) == one;
    assert AfterPasses(one, opens, key, n + 1) == AfterPasses(two, opens, key, n);
  }

  /**
   Two-pass settling. The first pass synchronizes the instance and makes the secret, but stores
   a pending status; the second stores the resolved passwords with a status of success and
   changes nothing else.
   */
  lemma SettlesInTwoPasses(db: Database, s: DatabaseServer, dsn: string, at: Key, store: Store, opens: Opens)
    requires ReadyForNew(db, s, dsn, at, store, opens)
    ensures D.FirstAdmin(Users(Resolved(db, store).spec)) < |Users(Resolved(db, store).spec)|
    ensures var one := AfterPasses(store, opens, db.meta.key, 1);
            && one == AfterFirst(db, s, at, store)
            && Established(D.JobOf(Resolved(db, store)), one.instances[at])
            && AfterPasses(store, opens, db.meta.key, 2) ==
               Replaced(WithStatus(WithStatus(Resolved(db, store), PENDING), SUCCESS), one)
  {
    FirstPass(db, s, dsn, at, store, opens);
    var one := AfterFirst(db, s, at, store);
    var done := Rewritten(WithStatus(db, PENDING), one);
    FirstTwo(db, s, dsn, at, store, opens, one, done);
    SplitPasses(store, opens, db.meta.key, one, Replaced(done, one), 0);
  }

  lemma SettledSuccessIsFixed(db: Database, done: Database, s: DatabaseServer, dsn: string, at: Key,
                              store: Store, two: Store, opens: Opens)
    requires Settled(db, done, s, dsn, at, store, two, opens)
    requires done.status == SUCCESS && done.spec == Resolved(db, store).spec
    ensures AfterPass(two, opens, db.meta.key) == two
  {
    PassRewrites(db, done, s, dsn, at, store, two, opens);
    assert Resolved(done, two).(status := SUCCESS) == done;
    assert two.databases[done.meta.key := done] == two.databases;
  }

  /** From the second pass on, every pass leaves the object, the secret and the instance as they are. */
  lemma LaterPassesChangeNothing(db: Database, s: DatabaseServer, dsn: string, at: Key, store: Store, opens: Opens, n: nat)
    requires ReadyForNew(db, s, dsn, at, store, opens)
    ensures AfterPasses(store, opens, db.meta.key, n + 2) == AfterPasses(store, opens, db.meta.key, 2)
  {
    FirstPass(db, s, dsn, at, store, opens);
    var one := AfterFirst(db, s, at, store);
    var done := Rewritten(WithStatus(db, PENDING), one);
    FirstTwo(db, s, dsn, at, store, opens, one, done);
    SettledSuccessIsFixed(db, done, s, dsn, at, store, Replaced(done, one), opens);
    FixedFromThereOn(Replaced(done, one), opens, db.meta.key, n);
    SplitPasses(store, opens, db.meta.key, one, Replaced(done, one), n);
    SplitPasses(store, opens, db.meta.key, one, Replaced(done, one), 0);
  }
}
