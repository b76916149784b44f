/**
 Whole passes that end in an error report of another kind: without a plugin, without a valid
 DSN, with statements that fail, or with a child of the same name that somebody else controls.
 */
module ErrorReports {
  import opened Resources
  import opened Postgres
  import opened Api
  import opened Passes
  import opened Waiting
  import Text
  import PostgresFacts
  import D = DatabasePass
  import S = ServerPass
  import St = Settling
  import SS = ServerSettling

  /** A pass of this object ends so: it fails or not, the object is left with this status, and nothing else changes. */
  ghost predicate EndsWith(db: Database, status: Status, failed: bool, store: Store, opens: Opens)
    requires RequestedKeys(St.Fresh(store))
  {
    St.EndOf(D.Begin(db.meta.key), store, St.Fresh(store), opens) ==
    PassEnd(D.Finished(failed), store.(databases := store.databases[db.meta.key := Noted(db, db, status)]), 0)
  }

  /** Neither a server nor a type. */
  lemma NoServerOrTypeEnds(db: Database, store: Store, opens: Opens)
    requires St.Stored(db, store) && db.spec.server == "" && db.spec.serverType == ""
    ensures EndsWith(db, Status(Error, NoServerOrType), false, store, opens)
  {
    NotedIsStored(db, db, Status(Error, NoServerOrType), false, store, opens, store.instances);
  }

  /** The type is neither of the two engines. */
  ghost predicate UnknownType(db: Database) {
    db.spec.serverType != "" && !Text.Spells(db.spec.serverType, "postgres", "POSTGRES") &&
    !Text.Spells(db.spec.serverType, "mysql", "MYSQL")
  }

  lemma UnknownTypeComesToNothing(db: Database, store: Store, view: View, opens: Opens)
    requires RequestedKeys(view) && UnknownType(db)
    requires db.spec.server != "" ==> Key(db.meta.key.namespace, db.spec.server) in view.servers
    ensures Comes(db, db, Status(Error, NoPlugin), false, store, store, view, opens)
  {
    D.EngineWords(db.spec.serverType, NoneSet);
    if db.spec.server != "" {
      var s := view.servers[Key(db.meta.key.namespace, db.spec.server)];
      St.Leads(D.FindingServer(db), store, view, opens, store, ServerIs(Found(s)), D.ChoosePlugin(db, Some(s)));
    }
  }

  lemma UnknownTypeEnds(db: Database, store: Store, opens: Opens)
    requires St.Stored(db, store) && UnknownType(db)
    requires db.spec.server != "" ==> Key(db.meta.key.namespace, db.spec.server) in store.servers
    ensures EndsWith(db, Status(Error, NoPlugin), false, store, opens)
  {
    UnknownTypeComesToNothing(db, Met(db, store), St.Fresh(store), opens);
    NotedIsStored(db, db, Status(Error, NoPlugin), false, store, opens, store.instances);
  }

  /** The server's secret is there, but has no DSN. */
  ghost predicate NoDsnEntry(db: Database, s: DatabaseServer, store: Store) {
    && db.spec.server != "" && Key(db.meta.key.namespace, db.spec.server) in store.servers
    && s == store.servers[Key(db.meta.key.namespace, db.spec.server)] && St.OnPostgres(db, s)
    && db.spec.dsn == "" && db.spec.dsnFrom.None?
    && Key(db.meta.key.namespace, s.meta.key.name) in store.secrets
    && "dsn" !in store.secrets[Key(db.meta.key.namespace, s.meta.key.name)].data
  }

  lemma NoDsnEntryComesToNothing(db: Database, s: DatabaseServer, store: Store, view: View, opens: Opens)
    requires RequestedKeys(view) && NoDsnEntry(db, s, store) && view.servers == store.servers
    ensures Comes(db, db, Status(Error, NoValidDsn), false, store, store, view, opens)
  {
    var source := D.DsnEntry(s.meta.key.name);
    St.Leads(D.FindingServer(db), store, view, opens, store, ServerIs(Found(s)), D.ChoosePlugin(db, Some(s)));
    assert D.ChoosePlugin(db, Some(s)) == D.GettingDsn(db, Some(s), source);
    St.Leads(D.GettingDsn(db, Some(s), source), store, view, opens, store, ValueIs(Lookup.Failed),
             D.Putting(db, [Status(Error, NoValidDsn)], false));
  }

  lemma NoDsnEntryEnds(db: Database, s: DatabaseServer, store: Store, opens: Opens)
    requires St.Stored(db, store) && NoDsnEntry(db, s, store)
    ensures EndsWith(db, Status(Error, NoValidDsn), false, store, opens)
  {
    NoDsnEntryComesToNothing(db, s, Met(db, store), St.Fresh(store), opens);
    NotedIsStored(db, db, Status(Error, NoValidDsn), false, store, opens, store.instances);
  }

  /** How the statements and the secret of a Database come out: the report, and whether the pass fails. */
  ghost predicate CallGives(job: Job, pg: Instance, foreign: bool, status: Status, failed: bool) {
    var outcome := SyncDatabase(job, pg, PostgresFacts.FAULTLESS, 0).outcome;
    if outcome.Failure? then status == Status(Error, SyncError) && failed
    else foreign && status == Status(Error, SecretSyncError) && !failed
  }

  /** Somebody else controls the secret of this name. */
  predicate ForeignSecret(db: Database, store: Store) {
    db.meta.key in store.secrets && !IsControlledBy(store.secrets[db.meta.key].owner, db.meta.uid)
  }

  lemma CallComesToReport(ready: Database, s: DatabaseServer, dsn: string, at: Key, store: Store, view: View, opens: Opens,
                          status: Status, failed: bool)
    requires RequestedKeys(view) && view.secrets == store.secrets && ready.spec.users.Some?
    requires opens(dsn) == Some(at) && at in store.instances
    requires CallGives(D.JobOf(ready), store.instances[at], ForeignSecret(ready, store), status, failed)
    ensures var pg := SyncDatabase(D.JobOf(ready), store.instances[at], PostgresFacts.FAULTLESS, 0).pg;
            St.EndOf(D.Syncing(ready, Some(s), dsn, Probing), store, view, opens) ==
            St.EndOf(D.Putting(ready, [status], failed), store.(instances := store.instances[at := pg]), view, opens)
  {
    var end := SyncDatabase(D.JobOf(ready), store.instances[at], PostgresFacts.FAULTLESS, 0);
    var after := store.(instances := store.instances[at := end.pg]);
    SyncingIsARun(ready, Some(s), dsn, Probing, store, St.Always(view), opens, PostgresFacts.FAULTLESS, 0);
    if end.outcome.Failure? {
      St.AnyClock(D.Putting(ready, [status], failed), after, view, opens, end.clock);
    } else {
      St.AnyClock(D.FindingSecret(ready, Some(s), dsn), after, view, opens, end.clock);
      St.Leads(D.FindingSecret(ready, Some(s), dsn), after, view, opens, after,
               SecretIs(Found(view.secrets[ready.meta.key])), D.Putting(ready, [status], failed));
    }
  }

  /** A Database on a server whose lookups all come out, with the passwords that its statements will ask for. */
  ghost predicate ReachesStatements(db: Database, ready: Database, s: DatabaseServer, dsn: string, at: Key,
                                    store: Store, opens: Opens)
  {
    && St.FindsServer(db, s, dsn, store) && opens(dsn) == Some(at) && at in store.instances && db.spec.users.Some?
    && IsFirstMissing(Users(db.spec), 0, |Users(db.spec)|, db.meta.key.namespace, store)
    && ready == St.WithUsers(db, SoFar(Users(db.spec), 0, |Users(db.spec)|, db.meta.key.namespace, store))
  }

  lemma StatementsComeToReport(db: Database, ready: Database, s: DatabaseServer, dsn: string, at: Key, store: Store,
                               view: View, opens: Opens, status: Status, failed: bool)
    requires RequestedKeys(view) && view.secrets == store.secrets && view.servers == store.servers
    requires ReachesStatements(db, ready, s, dsn, at, store, opens)
    requires CallGives(D.JobOf(ready), store.instances[at], ForeignSecret(db, store), status, failed)
    ensures var pg := SyncDatabase(D.JobOf(ready), store.instances[at], PostgresFacts.FAULTLESS, 0).pg;
            Comes(db, ready, status, failed, store, store.(instances := store.instances[at := pg]), view, opens)
  {
    GoesOnToStatements(db, s, dsn, store, view, opens);
    CallComesToReport(ready, s, dsn, at, store, view, opens, status, failed);
  }

  lemma StillReachesStatements(db: Database, ready: Database, s: DatabaseServer, dsn: string, at: Key, store: Store,
                               opens: Opens, met: Store)
    requires ReachesStatements(db, ready, s, dsn, at, store, opens) && met == store.(databases := met.databases)
    ensures ReachesStatements(db, ready, s, dsn, at, met, opens)
  {
    assert SoFar(Users(db.spec), 0, |Users(db.spec)|, db.meta.key.namespace, met) ==
           SoFar(Users(db.spec), 0, |Users(db.spec)|, db.meta.key.namespace, store);
  }

  /**
   Statements that fail are reported as an error of the pass, with whatever they did to the
   instance; a secret of somebody else is kept and reported, but the pass does not fail.
   */
  lemma FailedCallOrForeignSecretEnds(db: Database, ready: Database, s: DatabaseServer, dsn: string, at: Key,
                                      store: Store, opens: Opens, status: Status, failed: bool)
    requires St.Stored(db, store) && ReachesStatements(db, ready, s, dsn, at, store, opens)
    requires CallGives(D.JobOf(ready), store.instances[at], ForeignSecret(db, store), status, failed)
    ensures var pg := SyncDatabase(D.JobOf(ready), store.instances[at], PostgresFacts.FAULTLESS, 0).pg;
            St.EndOf(D.Begin(db.meta.key), store, St.Fresh(store), opens) ==
            PassEnd(D.Finished(failed),
                    store.(databases := store.databases[db.meta.key := Noted(db, ready, status)],
                           instances := store.instances[at := pg]), 0)
  {
    var pg := SyncDatabase(D.JobOf(ready), store.instances[at], PostgresFacts.FAULTLESS, 0).pg;
    StillReachesStatements(db, ready, s, dsn, at, store, opens, Met(db, store));
    StatementsComeToReport(db, ready, s, dsn, at, Met(db, store), St.Fresh(store), opens, status, failed);
    NotedIsStored(db, ready, status, failed, store, opens, store.instances[at := pg]);
  }

  /** Of pod, service and secret, in this order, the first that is not the server's own is somebody else's. */
  ghost predicate ForeignChild(s: DatabaseServer, store: Store, message: Message) {
    var key := s.meta.key;
    if SS.HasPod(s) && message == PodError then key in store.pods && !IsControlledBy(store.pods[key].owner, s.meta.uid)
    else
      && (SS.HasPod(s) ==> key in store.pods && IsControlledBy(store.pods[key].owner, s.meta.uid))
      && key in store.services
      && if message == ServiceError then !IsControlledBy(store.services[key].owner, s.meta.uid)
         else message == ServerSecretError && IsControlledBy(store.services[key].owner, s.meta.uid) &&
              key in store.secrets && !IsControlledBy(store.secrets[key].owner, s.meta.uid)
  }

  lemma ServerReports(s: DatabaseServer, status: Status, store: Store, view: View, opens: Opens)
    requires RequestedKeys(view) && s.meta.key in store.servers && store.servers[s.meta.key] == s
    ensures var now := if s.status == status then s
                       else s.(status := status, meta := s.meta.(version := s.meta.version + 1));
            SS.EndOf(S.Putting(s, [status], true), store, view, opens) ==
            PassEnd(S.Finished(true), store.(servers := store.servers[s.meta.key := now]), 0)
  {
    var after := store.(servers := Put(s.(status := status), store.servers, NoFault));
    SS.Leads(S.Putting(s, [status], true), store, view, opens, after, PutIs, S.Finished(true));
  }

  lemma ForeignChildStops(s: DatabaseServer, store: Store, view: View, opens: Opens, message: Message)
    requires RequestedKeys(view) && ForeignChild(s, store, message)
    requires view.pods == store.pods && view.services == store.services && view.secrets == store.secrets
    ensures SS.EndOf(S.AfterBegin(s), store, view, opens) ==
            SS.EndOf(S.Putting(s, [Status(Error, message)], true), store, view, opens)
  {
    var key := s.meta.key;
    var stop := S.Putting(s, [Status(Error, message)], true);
    if SS.HasPod(s) {
      SS.Leads(S.FindingPod(s), store, view, opens, store, ChildIs(Found(view.pods[key])),
               if message == PodError then stop else S.FindingService(s));
    }
    if !SS.HasPod(s) || message != PodError {
      SS.Leads(S.FindingService(s), store, view, opens, store, ChildIs(Found(view.services[key])),
               if message == ServiceError then stop else S.FindingSecret(s));
      if message == ServerSecretError {
        SS.Leads(S.FindingSecret(s), store, view, opens, store, SecretIs(Found(view.secrets[key])), stop);
      }
    }
  }

  /** A server does not adopt a child of somebody else: the pass reports it and fails, and touches nothing but the status. */
  lemma ForeignChildEnds(s: DatabaseServer, store: Store, opens: Opens, message: Message)
    requires SS.Stored(s, store) && ForeignChild(s, store, message)
    ensures var status := Status(Error, message);
            var now := if s.status == status then s
                       else s.(status := status, meta := s.meta.(version := s.meta.version + 1));
            SS.EndOf(S.Begin(s.meta.key), store, St.Fresh(store), opens) ==
            PassEnd(S.Finished(true), store.(servers := store.servers[s.meta.key := now]), 0)
  {
    SS.Opening(s, store, opens);
    ForeignChildStops(s, store, St.Fresh(store), opens, message);
    ServerReports(s, Status(Error, message), store, St.Fresh(store), opens);
  }
}
