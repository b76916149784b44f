/**
 Whole passes of a Database while an object that it refers to is not there yet: what is stored,
 that the pass reports an error, and that nothing else is touched.
 */
module Waiting {
  import opened Resources
  import opened Postgres
  import opened Api
  import opened Passes
  import opened PostgresFacts
  import D = DatabasePass
  import St = Settling

  /** The object that a source refers to is not in the store. */
  ghost predicate Missing(source: ValueSource, namespace: string, store: Store) {
    (source.configMapKeyRef.Some? && Key(namespace, source.configMapKeyRef.value.name) !in store.configMaps) ||
    (source.configMapKeyRef.None? && source.secretKeyRef.Some? &&
     Key(namespace, source.secretKeyRef.value.name) !in store.secrets)
  }

  lemma MissingIsNotFound(source: Option<ValueSource>, namespace: string, store: Store)
    ensures St.Value(store, namespace, source) == NotFound <==> source.Some? && Missing(source.value, namespace, store)
  {
    LookupIff(source, namespace, store.configMaps, SecretData(store.secrets), "");
  }

  /**
   The object with the status that a pass leaves on it. Of an object without a status only the
   first write takes effect; otherwise it is the given one, with what the pass knows by then.
   */
  function Noted(db: Database, known: Database, status: Status): Database {
    if db.status.state.Unset? then
      db.(status := Status(Pending, YetToInitialize), meta := db.meta.(version := db.meta.version + 1))
    else if known.(status := status) == db then db
    else known.(status := status, meta := known.meta.(version := db.meta.version + 1))
  }

  /** A pass that comes to nothing more than one report on this store; until then it does nothing but run statements. */
  ghost predicate Comes(db: Database, known: Database, status: Status, failed: bool, store: Store, after: Store,
                        view: View, opens: Opens)
    requires RequestedKeys(view)
  {
    && after == store.(instances := after.instances)
    && St.EndOf(D.AfterInitialization(db), store, view, opens) ==
       St.EndOf(D.Putting(known, [status], failed), after, view, opens)
  }

  /** The store that a pass works on once the object has a status. */
  ghost function Met(db: Database, store: Store): Store {
    if db.status.state.Unset? then store.(databases := store.databases[db.meta.key := St.WithStatus(db, St.PENDING)])
    else store
  }

  lemma NotedIsStored(db: Database, known: Database, status: Status, failed: bool, store: Store, opens: Opens,
                      instances: map<Key, Instance>)
    requires St.Stored(db, store) && known.meta == db.meta
    requires Comes(db, known, status, failed, Met(db, store), Met(db, store).(instances := instances), St.Fresh(store), opens)
    ensures St.EndOf(D.Begin(db.meta.key), store, St.Fresh(store), opens) ==
            PassEnd(D.Finished(failed),
                    store.(databases := store.databases[db.meta.key := Noted(db, known, status)], instances := instances), 0)
  {
    var view := St.Fresh(store);
    if db.status.state.Unset? {
      var pending := Met(db, store).(instances := instances);
      St.FirstStatusLands(db, store, view, opens);
      St.Reports(known, status, failed, pending, view, opens);
      assert Put(known.(status := status), pending.databases, NoFault) == pending.databases;
    } else {
      St.Leads(D.Begin(db.meta.key), store, view, opens, store, DatabaseIs(Found(db)), D.AfterInitialization(db));
      St.Reports(known, status, failed, store.(instances := instances), view, opens);
    }
  }

  /** A Database that is gone when its pass starts is left at that, and the pass succeeds. */
  lemma GoneDatabase(key: Key, store: Store, opens: Opens)
    requires RequestedKeys(St.Fresh(store)) && key !in store.databases
    ensures St.EndOf(D.Begin(key), store, St.Fresh(store), opens) == PassEnd(D.Finished(false), store, 0)
  {
    St.Leads(D.Begin(key), store, St.Fresh(store), opens, store, DatabaseIs(NotFound), D.Finished(false));
  }

  lemma ServerComesToNothing(db: Database, store: Store, view: View, opens: Opens)
    requires RequestedKeys(view) && db.spec.server != "" && Key(db.meta.key.namespace, db.spec.server) !in view.servers
    ensures Comes(db, db, Status(Pending, WaitingForServer), true, store, store, view, opens)
  {
    St.Leads(D.FindingServer(db), store, view, opens, store, ServerIs(NotFound),
             D.Putting(db, [Status(Pending, WaitingForServer)], true));
  }

  /** A pass waits for a server that is missing. */
  lemma WaitsForServer(db: Database, store: Store, opens: Opens)
    requires St.Stored(db, store) && db.spec.server != "" && Key(db.meta.key.namespace, db.spec.server) !in store.servers
    ensures St.EndOf(D.Begin(db.meta.key), store, St.Fresh(store), opens) ==
            PassEnd(D.Finished(true),
                    store.(databases := store.databases[db.meta.key := Noted(db, db, Status(Pending, WaitingForServer))]), 0)
  {
    var met := Met(db, store);
    ServerComesToNothing(db, met, St.Fresh(store), opens);
    NotedIsStored(db, db, Status(Pending, WaitingForServer), true, store, opens, store.instances);
  }

  /** The object that is to hold the superuser's DSN is missing: the one the spec names, or the server's secret. */
  ghost predicate DsnMissing(db: Database, s: DatabaseServer, store: Store) {
    && db.spec.dsn == ""
    && if db.spec.dsnFrom.Some? then
         db.spec.dsnFrom.value.secretKeyRef.Some? && Missing(db.spec.dsnFrom.value, db.meta.key.namespace, store)
       else Key(db.meta.key.namespace, s.meta.key.name) !in store.secrets
  }

  lemma DsnComesToNothing(db: Database, s: DatabaseServer, store: Store, view: View, opens: Opens)
    requires RequestedKeys(view) && St.OnPostgres(db, s) && DsnMissing(db, s, store)
    requires db.spec.server != "" && Key(db.meta.key.namespace, db.spec.server) in view.servers
    requires s == view.servers[Key(db.meta.key.namespace, db.spec.server)]
    ensures Comes(db, db, Status(Pending, WaitingForDsn), true, store, store, view, opens)
  {
    var source := if db.spec.dsnFrom.Some? then db.spec.dsnFrom.value else D.DsnEntry(s.meta.key.name);
    MissingIsNotFound(Some(source), db.meta.key.namespace, store);
    St.Leads(D.FindingServer(db), store, view, opens, store, ServerIs(Found(s)), D.ChoosePlugin(db, Some(s)));
    assert D.ChoosePlugin(db, Some(s)) == D.GettingDsn(db, Some(s), source);
    St.Leads(D.GettingDsn(db, Some(s), source), store, view, opens, store, ValueIs(NotFound),
             D.Putting(db, [Status(Pending, WaitingForDsn)], true));
  }

  /** A pass waits for the object with the superuser's DSN. */
  lemma WaitsForDsn(db: Database, s: DatabaseServer, store: Store, opens: Opens)
    requires St.Stored(db, store) && St.OnPostgres(db, s) && DsnMissing(db, s, store)
    requires db.spec.server != "" && Key(db.meta.key.namespace, db.spec.server) in store.servers
    requires s == store.servers[Key(db.meta.key.namespace, db.spec.server)]
    ensures St.EndOf(D.Begin(db.meta.key), store, St.Fresh(store), opens) ==
            PassEnd(D.Finished(true),
                    store.(databases := store.databases[db.meta.key := Noted(db, db, Status(Pending, WaitingForDsn))]), 0)
  {
    var met := Met(db, store);
    DsnComesToNothing(db, s, met, St.Fresh(store), opens);
    NotedIsStored(db, db, Status(Pending, WaitingForDsn), true, store, opens, store.instances);
  }

  /** The user at `n` is the first at or after `i` whose password is in an object that is missing, if there is one. */
  ghost predicate IsFirstMissing(users: seq<DatabaseUser>, i: nat, n: nat, namespace: string, store: Store) {
    && i <= n <= |users|
    && (n < |users| ==> users[n].passwordFrom.Some? && Missing(users[n].passwordFrom.value, namespace, store))
    && forall k :: i <= k < n ==> users[k].passwordFrom.None? || !Missing(users[k].passwordFrom.value, namespace, store)
  }

  /**
   One lookup, served without fault: the pass stops exactly at a missing object, and with an
   object that is there but lacks the entry it goes on with an empty password.
   */
  lemma LookupStopsIffMissing(db: Database, s: Option<DatabaseServer>, dsn: string, i: nat, store: Store, view: View, opens: Opens)
    requires i < |Users(db.spec)| && Users(db.spec)[i].passwordFrom.Some? && RequestedKeys(view)
    ensures var p, source := D.GettingPassword(db, s, dsn, i), Users(db.spec)[i].passwordFrom.value;
            var (after, answer) := Api.Serve(store, view, opens, D.Ask(p), NoFault);
            && after == store
            && (Missing(source, db.meta.key.namespace, store) <==>
                  D.Next(p, answer) == D.Putting(db, [Status(Pending, WaitingForUserSecret(Users(db.spec)[i].name))], true))
            && (!Missing(source, db.meta.key.namespace, store) &&
                (forall text :: !Refers(source, db.meta.key.namespace, store.configMaps, SecretData(store.secrets), text)) ==>
                  D.Next(p, answer) == D.ResolvePasswords(D.WithPassword(db, i, ""), s, dsn, i + 1))
  {
    var source, namespace := Users(db.spec)[i].passwordFrom, db.meta.key.namespace;
    var found := St.Value(store, namespace, source);
    MissingIsNotFound(source, namespace, store);
    if found.Found? { LookupIff(source, namespace, store.configMaps, SecretData(store.secrets), found.value); }
    assert Api.Serve(store, view, opens, D.Ask(D.GettingPassword(db, s, dsn, i)), NoFault) == (store, ValueIs(found));
    assert D.Next(D.GettingPassword(db, s, dsn, i), ValueIs(found)) == D.AfterPassword(db, s, dsn, i, found);
  }

  /** The password that a pass goes on with: what the source refers to, or nothing when there is no such entry. */
  ghost predicate GoesOnWith(before: DatabaseUser, after: DatabaseUser, namespace: string, store: Store) {
    && after == before.(password := after.password)
    && if before.passwordFrom.None? then after == before
       else if exists text :: Refers(before.passwordFrom.value, namespace, store.configMaps, SecretData(store.secrets), text)
       then Refers(before.passwordFrom.value, namespace, store.configMaps, SecretData(store.secrets), after.password)
       else after.password == ""
  }

  function LookedUp(user: DatabaseUser, namespace: string, store: Store): DatabaseUser {
    var found := St.Value(store, namespace, user.passwordFrom);
    if user.passwordFrom.None? then user
    else user.(password := if found.Found? then found.value else "")
  }

  /** A user is gone on with as said. */
  lemma LookedUpGoesOn(user: DatabaseUser, namespace: string, store: Store)
    ensures GoesOnWith(user, LookedUp(user, namespace, store), namespace, store)
  {
    if user.passwordFrom.Some? {
      var configMaps, secrets := store.configMaps, SecretData(store.secrets);
      var found := St.Value(store, namespace, user.passwordFrom);
      forall text ensures found == Found(text) <==> Refers(user.passwordFrom.value, namespace, configMaps, secrets, text) {
        LookupIff(user.passwordFrom, namespace, configMaps, secrets, text);
      }
    }
  }

  /** The list when the users from `i` to before `n` have been looked up. */
  function SoFar(users: seq<DatabaseUser>, i: nat, n: nat, namespace: string, store: Store): (r: seq<DatabaseUser>)
    ensures |r| == |users|
  {
    seq(|users|, k requires 0 <= k < |users| => if i <= k < n then LookedUp(users[k], namespace, store) else users[k])
  }

  /** Looking up one password does not change the measure. */
  ghost predicate SameAfterLookup(f: St.Measure, s: Option<DatabaseServer>, dsn: string, namespace: string, store: Store) {
    forall db: Database, j: nat {:trigger D.GettingPassword(db, s, dsn, j)} ::
      db.meta.key.namespace == namespace && j < |Users(db.spec)| && Users(db.spec)[j].passwordFrom.Some? ==>
        f(D.GettingPassword(db, s, dsn, j)) ==
        f(D.AfterPassword(db, s, dsn, j, St.Value(store, namespace, Users(db.spec)[j].passwordFrom)))
  }

  /** Where the lookups end: at the first missing object, or with the list looked up and the statements to come. */
  function LookupsEnd(db: Database, s: Option<DatabaseServer>, dsn: string, n: nat, known: seq<DatabaseUser>): D.Pass {
    if n < |Users(db.spec)| then
      D.Putting(St.WithUsers(db, known), [Status(Pending, WaitingForUserSecret(Users(db.spec)[n].name))], true)
    else D.Syncing(St.WithUsers(db, known), s, dsn, Probing)
  }

  /** One lookup further, the same is still to come. */
  lemma OneLookupFurther(db: Database, i: nat, j: nat, n: nat, store: Store, db': Database)
    requires i <= |Users(db.spec)| && j == D.NextSourced(Users(db.spec), i) < n
    requires IsFirstMissing(Users(db.spec), i, n, db.meta.key.namespace, store)
    requires db' == D.WithPassword(db, j, LookedUp(Users(db.spec)[j], db.meta.key.namespace, store).password)
    ensures IsFirstMissing(Users(db'.spec), j + 1, n, db.meta.key.namespace, store)
    ensures var namespace := db.meta.key.namespace;
            SoFar(Users(db'.spec), j + 1, n, namespace, store) == SoFar(Users(db.spec), i, n, namespace, store)
  {}

  /** Without a lookup before it, the list is still as it was. */
  lemma NothingLookedUp(users: seq<DatabaseUser>, i: nat, n: nat, namespace: string, store: Store)
    requires i <= |users| && n <= D.NextSourced(users, i)
    ensures SoFar(users, i, n, namespace, store) == users
  {}

  /** The lookup of a password that is not missing leads on with what it gave. */
  lemma NotMissingGoesOn(db: Database, s: Option<DatabaseServer>, dsn: string, j: nat, store: Store)
    requires j < |Users(db.spec)| && Users(db.spec)[j].passwordFrom.Some?
    requires !Missing(Users(db.spec)[j].passwordFrom.value, db.meta.key.namespace, store)
    ensures var found := St.Value(store, db.meta.key.namespace, Users(db.spec)[j].passwordFrom);
            var password := LookedUp(Users(db.spec)[j], db.meta.key.namespace, store).password;
            D.AfterPassword(db, s, dsn, j, found) == D.ResolvePasswords(D.WithPassword(db, j, password), s, dsn, j + 1)
  {
    MissingIsNotFound(Users(db.spec)[j].passwordFrom, db.meta.key.namespace, store);
  }

  lemma StopsAtMissing(db: Database, s: Option<DatabaseServer>, dsn: string, i: nat, n: nat, store: Store)
    requires db.spec.users.Some? && i <= |Users(db.spec)| && n == D.NextSourced(Users(db.spec), i) < |Users(db.spec)|
    requires Missing(Users(db.spec)[n].passwordFrom.value, db.meta.key.namespace, store)
    ensures D.AfterPassword(db, s, dsn, n, St.Value(store, db.meta.key.namespace, Users(db.spec)[n].passwordFrom)) ==
            LookupsEnd(db, s, dsn, n, SoFar(Users(db.spec), i, n, db.meta.key.namespace, store))
  {
    MissingIsNotFound(Users(db.spec)[n].passwordFrom, db.meta.key.namespace, store);
    NothingLookedUp(Users(db.spec), i, n, db.meta.key.namespace, store);
    assert St.WithUsers(db, Users(db.spec)) == db;
  }

  lemma {:induction false} LooksUpUntilMissing(f: St.Measure, db: Database, s: Option<DatabaseServer>, dsn: string, i: nat,
                                               store: Store, n: nat, known: seq<DatabaseUser>)
    requires db.spec.users.Some? && IsFirstMissing(Users(db.spec), i, n, db.meta.key.namespace, store)
    requires known == SoFar(Users(db.spec), i, n, db.meta.key.namespace, store)
    requires SameAfterLookup(f, s, dsn, db.meta.key.namespace, store)
    ensures f(D.ResolvePasswords(db, s, dsn, i)) == f(LookupsEnd(db, s, dsn, n, known))
    decreases |Users(db.spec)| - i
  {
    var users, namespace := Users(db.spec), db.meta.key.namespace;
    var j := D.NextSourced(users, i);
    if j == |users| {
      NothingLookedUp(users, i, n, namespace, store);
      assert St.WithUsers(db, users) == db;
    } else {
      assert f(D.GettingPassword(db, s, dsn, j)) ==
             f(D.AfterPassword(db, s, dsn, j, St.Value(store, namespace, users[j].passwordFrom)));
      if j < n {
        var db' := D.WithPassword(db, j, LookedUp(users[j], namespace, store).password);
        NotMissingGoesOn(db, s, dsn, j, store);
        OneLookupFurther(db, i, j, n, store, db');
        LooksUpUntilMissing(f, db', s, dsn, j + 1, store, n, known);
      } else {
        StopsAtMissing(db, s, dsn, i, n, store);
      }
    }
  }

  lemma LookupIsServed(db: Database, s: Option<DatabaseServer>, dsn: string, j: nat, store: Store, view: View, opens: Opens)
    requires j < |Users(db.spec)| && Users(db.spec)[j].passwordFrom.Some? && RequestedKeys(view)
    ensures St.EndOf(D.GettingPassword(db, s, dsn, j), store, view, opens) ==
            St.EndOf(D.AfterPassword(db, s, dsn, j, St.Value(store, db.meta.key.namespace, Users(db.spec)[j].passwordFrom)),
                     store, view, opens)
  {
    var found := St.Value(store, db.meta.key.namespace, Users(db.spec)[j].passwordFrom);
    St.Leads(D.GettingPassword(db, s, dsn, j), store, view, opens, store, ValueIs(found), D.AfterPassword(db, s, dsn, j, found));
  }

  lemma LookupsLead(db: Database, s: Option<DatabaseServer>, dsn: string, store: Store, view: View, opens: Opens,
                    n: nat, known: seq<DatabaseUser>)
    requires db.spec.users.Some? && RequestedKeys(view)
    requires IsFirstMissing(Users(db.spec), 0, n, db.meta.key.namespace, store)
    requires known == SoFar(Users(db.spec), 0, n, db.meta.key.namespace, store)
    ensures D.WellFormedPass(LookupsEnd(db, s, dsn, n, known))
    ensures St.EndOf(D.ResolvePasswords(db, s, dsn, 0), store, view, opens) ==
            St.EndOf(LookupsEnd(db, s, dsn, n, known), store, view, opens)
  {
    var f: St.Measure := p => if D.WellFormedPass(p) then St.EndOf(p, store, view, opens) else PassEnd(p, store, 0);
    forall other: Database, j: nat {:trigger D.GettingPassword(other, s, dsn, j)} |
      other.meta.key.namespace == db.meta.key.namespace && j < |Users(other.spec)| && Users(other.spec)[j].passwordFrom.Some?
      ensures f(D.GettingPassword(other, s, dsn, j)) ==
              f(D.AfterPassword(other, s, dsn, j, St.Value(store, db.meta.key.namespace, Users(other.spec)[j].passwordFrom)))
    {
      LookupIsServed(other, s, dsn, j, store, view, opens);
    }
    LooksUpUntilMissing(f, db, s, dsn, 0, store, n, known);
  }

  /** What a pass knows after its lookups, user by user. */
  lemma SoFarGoesOn(users: seq<DatabaseUser>, n: nat, namespace: string, store: Store)
    requires n <= |users|
    ensures forall k :: 0 <= k < n ==> GoesOnWith(users[k], SoFar(users, 0, n, namespace, store)[k], namespace, store)
    ensures forall k :: n <= k < |users| ==> SoFar(users, 0, n, namespace, store)[k] == users[k]
  {
    forall k | 0 <= k < n ensures GoesOnWith(users[k], SoFar(users, 0, n, namespace, store)[k], namespace, store) {
      LookedUpGoesOn(users[k], namespace, store);
    }
  }

  lemma PasswordComesToNothing(db: Database, s: DatabaseServer, dsn: string, store: Store, met: Store, opens: Opens, n: nat)
    requires St.Stored(db, store) && St.FindsServer(db, s, dsn, store) && db.spec.users.Some?
    requires IsFirstMissing(Users(db.spec), 0, n, db.meta.key.namespace, store) && n < |Users(db.spec)|
    requires met == store.(databases := met.databases)
    ensures var known := St.WithUsers(db, SoFar(Users(db.spec), 0, n, db.meta.key.namespace, store));
            Comes(db, known, Status(Pending, WaitingForUserSecret(Users(db.spec)[n].name)), true, met, met, St.Fresh(store), opens)
  {
    var known := SoFar(Users(db.spec), 0, n, db.meta.key.namespace, store);
    assert SoFar(Users(db.spec), 0, n, db.meta.key.namespace, met) == known;
    assert IsFirstMissing(Users(db.spec), 0, n, db.meta.key.namespace, met);
    St.FindsServerAndDsn(db, s, dsn, met, St.Fresh(store), opens);
    LookupsLead(db, Some(s), dsn, met, St.Fresh(store), opens, n, known);
  }

  /**
   A pass waits for the object with a user's password: it runs no statement, and of the users
   before the missing one it keeps what it found (`SoFarGoesOn` says what that is).
   */
  lemma WaitsForPassword(db: Database, s: DatabaseServer, dsn: string, store: Store, opens: Opens, n: nat, known: Database)
    requires St.Stored(db, store) && St.FindsServer(db, s, dsn, store) && db.spec.users.Some?
    requires IsFirstMissing(Users(db.spec), 0, n, db.meta.key.namespace, store) && n < |Users(db.spec)|
    requires known == St.WithUsers(db, SoFar(Users(db.spec), 0, n, db.meta.key.namespace, store))
    ensures var status := Status(Pending, WaitingForUserSecret(Users(db.spec)[n].name));
            St.EndOf(D.Begin(db.meta.key), store, St.Fresh(store), opens) ==
            PassEnd(D.Finished(true), store.(databases := store.databases[db.meta.key := Noted(db, known, status)]), 0)
  {
    var met := Met(db, store);
    PasswordComesToNothing(db, s, dsn, store, met, opens, n);
    NotedIsStored(db, known, Status(Pending, WaitingForUserSecret(Users(db.spec)[n].name)), true, store, opens, store.instances);
  }

  /** When no object is missing, the pass comes to its statements, with an empty password where an entry is missing. */
  lemma GoesOnToStatements(db: Database, s: DatabaseServer, dsn: string, store: Store, view: View, opens: Opens)
    requires RequestedKeys(view) && view.servers == store.servers
    requires St.FindsServer(db, s, dsn, store) && db.spec.users.Some?
    requires IsFirstMissing(Users(db.spec), 0, |Users(db.spec)|, db.meta.key.namespace, store)
    ensures var known := SoFar(Users(db.spec), 0, |Users(db.spec)|, db.meta.key.namespace, store);
            && (forall k :: 0 <= k < |known| ==> GoesOnWith(Users(db.spec)[k], known[k], db.meta.key.namespace, store))
            && St.EndOf(D.AfterInitialization(db), store, view, opens) ==
               St.EndOf(D.Syncing(St.WithUsers(db, known), Some(s), dsn, Probing), store, view, opens)
  {
    var known := SoFar(Users(db.spec), 0, |Users(db.spec)|, db.meta.key.namespace, store);
    SoFarGoesOn(Users(db.spec), |Users(db.spec)|, db.meta.key.namespace, store);
    St.FindsServerAndDsn(db, s, dsn, store, view, opens);
    LookupsLead(db, Some(s), dsn, store, view, opens, |Users(db.spec)|, known);
  }
}
