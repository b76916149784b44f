/**
 Passes of Databases that name no server: when such a pass, with nothing going wrong, ends in a
 panic, in terms of the instance and the listers before it.
 */
module ServerlessPasses {
  import opened Resources
  import opened Dsn
  import opened Postgres
  import opened Api
  import opened Passes
  import opened PostgresFacts
  import opened Settling
  import opened PassPanics
  import PassFacts
  import D = DatabasePass

  /** What a pass without a server has yet to get past when its statements are through. */
  ghost predicate SecretPanics(db: Database, dsn: string, view: View) {
    db.spec.users.Some? && db.meta.key !in view.secrets &&
    (!PassFacts.HasAdmin(Users(db.spec)) || GetHostAndPort(dsn).None?)
  }

  /** A pass that has only statuses to write finishes. */
  lemma {:induction false} EndsWell(p: D.Pass, store: Store, view: View, opens: Opens)
    requires D.WellFormedPass(p) && RequestedKeys(view) && (p.Putting? || p.Finished?)
    ensures EndOf(p, store, view, opens).pass.Finished?
    decreases DatabaseRank(p)
  {
    if p.Putting? {
      var (after, answer) := Api.Serve(store, view, opens, D.Ask(p), NoFault);
      NextRank(p, answer);
      Leads(p, store, view, opens, after, answer, D.Next(p, answer));
      EndsWell(D.Next(p, answer), after, view, opens);
    }
  }

  lemma CreatingEndsWell(p: D.Pass, store: Store, view: View, opens: Opens)
    requires D.WellFormedPass(p) && RequestedKeys(view) && p.CreatingSecret?
    ensures EndOf(p, store, view, opens).pass.Finished?
  {
    var (after, answer) := Api.Serve(store, view, opens, D.Ask(p), NoFault);
    Leads(p, store, view, opens, after, answer, D.Next(p, answer));
    EndsWell(D.Next(p, answer), after, view, opens);
  }

  lemma SecretStagePanicsIff(db: Database, dsn: string, store: Store, view: View, opens: Opens)
    requires RequestedKeys(view) && db.spec.users.Some?
    ensures EndOf(D.FindingSecret(db, None, dsn), store, view, opens).pass.Panicked? <==> SecretPanics(db, dsn, view)
  {
    SecretPanicsIff(db, None, dsn);
    var p, key := D.FindingSecret(db, None, dsn), db.meta.key;
    if key in view.secrets {
      var p' := D.AfterSecret(db, IsControlledBy(view.secrets[key].owner, db.meta.uid));
      Leads(p, store, view, opens, store, SecretIs(Found(view.secrets[key])), p');
      EndsWell(p', store, view, opens);
    } else {
      var p' := D.MakeSecret(db, None, dsn);
      Leads(p, store, view, opens, store, SecretIs(NotFound), p');
      if p'.CreatingSecret? { CreatingEndsWell(p', store, view, opens); }
    }
  }

  lemma AfterSyncPanicsIff(db: Database, dsn: string, outcome: Outcome, store: Store, view: View, opens: Opens)
    requires RequestedKeys(view)
    ensures EndOf(D.AfterSync(db, None, dsn, outcome), store, view, opens).pass.Panicked? <==>
              outcome.Created? || (outcome.SuccessSynced? && SecretPanics(db, dsn, view))
  {
    if outcome.Failure? || (outcome.SuccessSynced? && db.spec.users.None?) {
      EndsWell(D.AfterSync(db, None, dsn, outcome), store, view, opens);
    } else if outcome.SuccessSynced? {
      SecretStagePanicsIff(db, dsn, store, view, opens);
    }
  }

  /** A job whose users can all be given what they ask for in one go. */
  ghost predicate GoesThrough(db: Database, pg: Instance) {
    !Blocked(D.JobOf(db), pg)
  }

  /**
   From its SQL statements on, a server-less pass with valid roles panics exactly when the call
   goes through, and either the database was not there before, because the event recorded for a
   creation names the server, or the secret is missing and cannot be made.
   */
  lemma SyncingPanicsIff(db: Database, dsn: string, at: Key, store: Store, view: View, opens: Opens)
    requires RequestedKeys(view) && opens(dsn) == Some(at) && at in store.instances && ValidRoles(Users(db.spec))
    ensures EndOf(D.Syncing(db, None, dsn, Probing), store, view, opens).pass.Panicked? <==>
              GoesThrough(db, store.instances[at]) &&
              (db.meta.key.name !in store.instances[at].dbs || SecretPanics(db, dsn, view))
  {
    var end := SyncDatabase(D.JobOf(db), store.instances[at], FAULTLESS, 0);
    var after := store.(instances := store.instances[at := end.pg]);
    SyncingIsARun(db, None, dsn, Probing, store, Always(view), opens, FAULTLESS, 0);
    AnyClock(D.AfterSync(db, None, dsn, end.outcome), after, view, opens, end.clock);
    FailsIffBlocked(D.JobOf(db), store.instances[at], 0);
    AfterSyncPanicsIff(db, dsn, end.outcome, after, view, opens);
  }

  /** A Database that names no server but a Postgres plugin, with an inline DSN that opens an instance. */
  ghost predicate Serverless(db: Database, at: Key, store: Store, opens: Opens) {
    && db.spec.server == "" && D.EngineNamed(db.spec.serverType) == Some(D.PostgresEngine)
    && db.spec.dsn != "" && opens(db.spec.dsn) == Some(at) && at in store.instances
    && ValidRoles(Users(db.spec)) && PasswordsResolve(Users(db.spec), db.meta.key.namespace, store)
  }

  /** The Database as its statements are issued for it. */
  function Ready(db: Database, store: Store): Database {
    if db.spec.users.Some? then Resolved(db, store) else db
  }

  lemma ResolvedRoles(db: Database, store: Store)
    requires ValidRoles(Users(db.spec))
    ensures ValidRoles(Users(Ready(db, store).spec))
  {}

  lemma ReachesSyncing(db: Database, at: Key, store: Store, view: View, opens: Opens)
    requires Serverless(db, at, store, opens) && RequestedKeys(view)
    ensures EndOf(D.AfterInitialization(db), store, view, opens) ==
            EndOf(D.Syncing(Ready(db, store), None, db.spec.dsn, Probing), store, view, opens)
  {
    assert D.EngineNamed("") == None;
    assert D.AfterInitialization(db) == D.ResolvePasswords(db, None, db.spec.dsn, 0);
    if db.spec.users.Some? { LooksUpPasswords(db, None, db.spec.dsn, store, view, opens); }
  }

  /** Reading the object, and the first status write if there is one, change nothing that matters. */
  lemma OpensAlike(db: Database, at: Key, store: Store, view: View, opens: Opens) returns (after: Store)
    requires Serverless(db, at, store, opens) && RequestedKeys(view)
    requires db.meta.key in view.databases && view.databases[db.meta.key] == db
    ensures EndOf(D.Begin(db.meta.key), store, view, opens) == EndOf(D.AfterInitialization(db), after, view, opens)
    ensures after == store.(databases := after.databases)
    ensures Serverless(db, at, after, opens) && Ready(db, after) == Ready(db, store)
  {
    var p := PassFacts.Opened(db);
    after := store;
    Leads(D.Begin(db.meta.key), store, view, opens, store, DatabaseIs(Found(db)), p);
    if p.Initializing? {
      after := Api.Serve(store, view, opens, D.Ask(p), NoFault).0;
      Leads(p, store, view, opens, after, PutIs, D.AfterInitialization(db));
    }
    SameLookups(db, store, after);
  }

  /**
   A whole faultless pass of a server-less Database panics exactly under this condition on the
   instance and on what the listers show before it.
   */
  lemma ServerlessPassPanicsIff(db: Database, at: Key, store: Store, view: View, opens: Opens)
    requires Serverless(db, at, store, opens) && RequestedKeys(view)
    requires db.meta.key in view.databases && view.databases[db.meta.key] == db
    ensures var ready := Ready(db, store);
            EndOf(D.Begin(db.meta.key), store, view, opens).pass.Panicked? <==>
              GoesThrough(ready, store.instances[at]) &&
              (db.meta.key.name !in store.instances[at].dbs || SecretPanics(ready, db.spec.dsn, view))
  {
    var after := OpensAlike(db, at, store, view, opens);
    ReachesSyncing(db, at, after, view, opens);
    ResolvedRoles(db, store);
    SyncingPanicsIff(Ready(db, store), db.spec.dsn, at, after, view, opens);
  }
}
