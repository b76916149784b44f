/**
 A new server and a new Database on it, from nothing to a working login: the DSN that the
 server's pass leaves is the one that the Database's passes find and use.
 */
module Provisioning {
  import opened Resources
  import opened Postgres
  import opened Api
  import opened PostgresFacts
  import Dsn
  import Text
  import PassFacts
  import D = DatabasePass
  import St = Settling
  import SS = ServerSettling

  /** The superuser's DSN text for this server. */
  function TextOf(s: DatabaseServer, store: Store): string
    requires SS.SuperUser(s, store).Found? && SS.SuperUserPassword(s, store).Found?
  {
    SS.ServerText(s, SS.SuperUser(s, store).value, SS.SuperUserPassword(s, store).value)
  }

  /** A new Database that names this server and leaves everything else to it, with nothing in its way. */
  ghost predicate NewOn(db: Database, s: DatabaseServer, text: string, at: Key, store: Store, opens: Opens) {
    && db.meta.key in store.databases && db == store.databases[db.meta.key] && db.status.state.Unset?
    && db.spec.server == s.meta.key.name != "" && db.meta.key.namespace == s.meta.key.namespace
    && db.spec.dsn == "" && db.spec.dsnFrom.None? && St.OnPostgres(db, s) && St.UsersInOrder(db, store)
    && db.meta.key != s.meta.key && db.meta.key !in store.secrets
    && opens(text) == Some(at) && at in store.instances && St.Unblocked(db, store.instances[at])
  }

  /** A server with inline credentials and a Database with one admin on it are such a pair. */
  lemma SmallestPair(user: string, password: string)
    returns (s: DatabaseServer, db: Database, at: Key, store: Store, opens: Opens)
    requires user != "" && password != ""
    ensures SS.ReadyForNew(s, store) && NewOn(db, s, TextOf(s, store), at, store, opens)
  {
    at := Key("ns", "server");
    var name, status := Key("ns", "db"), Status(Unset, NoMessage);
    s := Resource(Meta(at, "1", 0, None), DatabaseServerSpec(Plugin.Postgres, user, None, password, None, "", 5432), status);
    var users := [DatabaseUser("admin", password, None, "admin")];
    db := Resource(Meta(name, "2", 0, None), DatabaseSpec(Some(users), "", None, "server", ""), status);
    store := Store(map[name := db], map[at := s], map[], map[], map[], map[], map[at := Instance({}, map[])]);
    opens := _ => Some(at);
    assert Users(db.spec)[0].role == "admin";
  }

  /** A lookup that succeeds still does when there are more secrets. */
  lemma FoundAmongMore(store: Store, done: Store, namespace: string, source: Option<ValueSource>)
    requires done.configMaps == store.configMaps && St.Value(store, namespace, source).Found?
    requires forall key :: key in store.secrets ==> key in done.secrets && done.secrets[key] == store.secrets[key]
    ensures St.Value(done, namespace, source) == St.Value(store, namespace, source)
  {}

  lemma LookupsAmongMore(db: Database, store: Store, done: Store)
    requires done.configMaps == store.configMaps && St.UsersInOrder(db, store)
    requires forall key :: key in store.secrets ==> key in done.secrets && done.secrets[key] == store.secrets[key]
    ensures St.UsersInOrder(db, done) && St.Resolved(db, done) == St.Resolved(db, store)
  {
    var users, namespace := Users(db.spec), db.meta.key.namespace;
    forall k | 0 <= k < |users| && users[k].passwordFrom.Some?
      ensures St.Value(done, namespace, users[k].passwordFrom) == St.Value(store, namespace, users[k].passwordFrom)
      ensures St.Value(done, namespace, users[k].passwordFrom).Found?
    {
      FoundAmongMore(store, done, namespace, users[k].passwordFrom);
    }
    assert St.ResolvedFrom(users, 0, namespace, done) == St.ResolvedFrom(users, 0, namespace, store);
  }

  /** What the server's pass leaves for a Database: its secret and itself, reporting success. */
  ghost predicate Served(s: DatabaseServer, now: DatabaseServer, text: string, store: Store, done: Store) {
    && done.databases == store.databases && done.configMaps == store.configMaps && done.instances == store.instances
    && done.servers == store.servers[s.meta.key := now]
    && now.meta.key == s.meta.key && now.spec == s.spec && now.status == Status(Success, Synced)
    && (exists owner :: done.secrets == store.secrets[s.meta.key := Secret(owner, map["dsn" := text])])
  }

  lemma PassServes(s: DatabaseServer, store: Store, opens: Opens, done: Store)
    requires SS.ReadyForNew(s, store) && done == SS.AfterPass(store, opens, s.meta.key)
    ensures Served(s, SS.Reported(s), TextOf(s, store), store, done)
  {
    SS.SettlesInOnePass(s, store, opens);
    var secret := SS.OwnSecret(s, store);
    SS.ReportIsStored(s, SS.WithService(s, SS.WithPod(s, store)), secret);
    assert done.secrets == store.secrets[s.meta.key := Secret(secret.owner, map["dsn" := TextOf(s, store)])];
  }

  lemma ServedIsReady(s: DatabaseServer, now: DatabaseServer, db: Database, text: string, at: Key, store: Store,
                      opens: Opens, done: Store)
    requires SS.Stored(s, store) && s.meta.key !in store.secrets && NewOn(db, s, text, at, store, opens)
    requires Served(s, now, text, store, done)
    ensures St.ReadyForNew(db, now, text, at, done, opens) && St.Resolved(db, done) == St.Resolved(db, store)
  {
    LookupsAmongMore(db, store, done);
    assert Key(db.meta.key.namespace, db.spec.server) == s.meta.key;
    assert St.OnPostgres(db, now);
    assert St.FindsDsn(db, now, done, text);
  }

  /** One pass of the server is all that a Database on it waits for. */
  lemma ServerServesDatabase(s: DatabaseServer, db: Database, at: Key, store: Store, opens: Opens, done: Store)
    requires SS.ReadyForNew(s, store) && NewOn(db, s, TextOf(s, store), at, store, opens)
    requires done == SS.AfterPass(store, opens, s.meta.key)
    ensures St.ReadyForNew(db, SS.Reported(s), TextOf(s, store), at, done, opens)
    ensures St.Resolved(db, done) == St.Resolved(db, store)
    ensures Served(s, SS.Reported(s), TextOf(s, store), store, done)
  {
    PassServes(s, store, opens, done);
    ServedIsReady(s, SS.Reported(s), db, TextOf(s, store), at, store, opens, done);
  }

  /** The instance has the database, and every user with the password and the rights asked for. */
  ghost predicate Holds(pg: Instance, name: string, users: seq<DatabaseUser>) {
    name in pg.dbs &&
    forall user :: user in users ==>
      user.name in pg.users && pg.users[user.name].password == user.password &&
      pg.users[user.name].flags == if user.role == "admin" then Flags(true, true) else Flags(false, false)
  }

  /** The first admin's DSN text for this Database, written out. */
  ghost predicate IsLogin(text: string, db: Database, users: seq<DatabaseUser>, s: DatabaseServer) {
    exists i :: 0 <= i < |users| && users[i].role == "admin" && (forall j :: 0 <= j < i ==> users[j].role != "admin") &&
      var name := if users[i].name == "" then s.spec.superUser else users[i].name;
      var password := if users[i].password == "" then s.spec.superUserPassword else users[i].password;
      text == "postgres://" + name + ":" + password + "@" + s.meta.key.name + "." + s.meta.key.namespace + ":" +
              Text.PrintInt(s.spec.servicePort) + "/" + db.meta.key.name + "?sslmode=disable"
  }

  lemma AdminTextIsLogin(db: Database, ready: Database, now: DatabaseServer, s: DatabaseServer)
    requires ready.meta.key == db.meta.key && now.meta.key == s.meta.key && now.spec == s.spec
    requires D.FirstAdmin(Users(ready.spec)) < |Users(ready.spec)|
    ensures IsLogin(St.AdminSecret(ready, now).data["dsn"], db, Users(ready.spec), s)
  {
    var i := D.FirstAdmin(Users(ready.spec));
    var admin := Users(ready.spec)[i];
    Dsn.PrintedText(admin.name, admin.password, Some(db.meta.key.name), now);
  }

  lemma SynchronizedHolds(ready: Database, pg: Instance)
    requires Established(D.JobOf(ready), pg) && UniqueNames(Users(ready.spec))
    ensures Holds(pg, ready.meta.key.name, Users(ready.spec))
  {
    UsersInPlace(D.JobOf(ready), pg);
  }

  /** What a Database needs to be of use, in one store. */
  ghost predicate Usable(db: Database, users: seq<DatabaseUser>, s: DatabaseServer, at: Key, store: Store) {
    && db.meta.key in store.databases && store.databases[db.meta.key].status == Status(Success, Synced)
    && at in store.instances && Holds(store.instances[at], db.meta.key.name, users)
    && db.meta.key in store.secrets && "dsn" in store.secrets[db.meta.key].data
    && IsLogin(store.secrets[db.meta.key].data["dsn"], db, users, s)
  }

  lemma SettledIsUsable(db: Database, now: DatabaseServer, s: DatabaseServer, text: string, at: Key, done: Store, opens: Opens,
                        n: nat, end: Store)
    requires St.ReadyForNew(db, now, text, at, done, opens) && now.meta.key == s.meta.key && now.spec == s.spec
    requires end == St.AfterPasses(done, opens, db.meta.key, n + 2)
    ensures Usable(db, Users(St.Resolved(db, done).spec), s, at, end) && end.servers == done.servers
  {
    var ready := St.Resolved(db, done);
    St.SettlesInTwoPasses(db, now, text, at, done, opens);
    St.LaterPassesChangeNothing(db, now, text, at, done, opens, n);
    St.ResolvedUsersInOrder(db, done);
    SynchronizedHolds(ready, end.instances[at]);
    AdminTextIsLogin(db, ready, now, s);
  }

  /**
   From nothing to a login: after one pass of a new server and any two or more passes of a new
   Database on it, both report success, the instance that the server's DSN opens holds the
   database and its users, and the Database's secret is the DSN of its first admin.
   */
  lemma FromNothingToLogin(s: DatabaseServer, db: Database, at: Key, store: Store, opens: Opens, done: Store, n: nat)
    requires SS.ReadyForNew(s, store) && NewOn(db, s, TextOf(s, store), at, store, opens)
    requires done == SS.AfterPass(store, opens, s.meta.key)
    ensures RequestedKeys(St.Fresh(done))
    ensures var end := St.AfterPasses(done, opens, db.meta.key, n + 2);
            && Usable(db, Users(St.Resolved(db, store).spec), s, at, end)
            && s.meta.key in end.servers && end.servers[s.meta.key].status == Status(Success, Synced)
  {
    ServerServesDatabase(s, db, at, store, opens, done);
    SettledIsUsable(db, SS.Reported(s), s, TextOf(s, store), at, done, opens, n,
                    St.AfterPasses(done, opens, db.meta.key, n + 2));
  }
}
