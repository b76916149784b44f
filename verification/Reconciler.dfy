/**
 syncDatabase and syncServer as the controller runs them, over its mutable store. Each
 method is proved to do exactly what the pass machines do, request for request: `Rest` is
 how a pass ends from the current state, and every request leaves the end unchanged.
 */
module Reconciler {
  import opened Resources
  import opened Dsn
  import opened Postgres
  import opened Api
  import opened Passes
  import PostgresPlugin
  import D = DatabasePass
  import S = ServerPass

  /** How a helper ends: with an error, without one, or on a nil pointer. */
  datatype Result = Done | Err | Dereferenced

  lemma FailingOnce(s: DatabaseServer, message: Message)
    ensures S.Failing(s, [message]) == S.Putting(s, [Status(Error, message)], true)
  {
    assert seq(1, i requires 0 <= i < 1 => Status(Error, [message][i])) == [Status(Error, message)];
  }

  lemma FailingTwice(s: DatabaseServer, first: Message, second: Message)
    ensures S.Failing(s, [first, second]) == S.Putting(s, [Status(Error, first), Status(Error, second)], true)
    ensures [Status(Error, first), Status(Error, second)][1..] == [Status(Error, second)]
    ensures S.Failing(s, [second]) == S.Putting(s, [Status(Error, second)], true)
  {
    FailingOnce(s, second);
  }

  class Controller {
    var store: Store
    var clock: nat
    const views: Views
    const opens: Opens
    const faults: Faults

    constructor (store: Store, views: Views, opens: Opens, faults: Faults)
      ensures this.store == store && clock == 0 && this.views == views && this.opens == opens && this.faults == faults
    {
      this.store, this.clock, this.views, this.opens, this.faults := store, 0, views, opens, faults;
    }

    ghost predicate Valid() { Keyed(views) }

    ghost function Rest(p: D.Pass): PassEnd<D.Pass>
      requires D.WellFormedPass(p) && Valid()
      reads this
    {
      RunDatabase(p, store, views, opens, faults, clock)
    }

    ghost function ServerRest(p: S.Pass): PassEnd<S.Pass>
      requires S.WellFormedPass(p) && FewWrites(p) && Valid()
      reads this
    {
      RunServer(p, store, views, opens, faults, clock)
    }

    /** One request of whatever kind. */
    method Call(request: Request) returns (answer: Answer)
      modifies this
      ensures (store, answer) == Api.Serve(old(store), views(old(clock)), opens, request, faults(old(clock)))
      ensures clock == old(clock) + 1
    {
      var served := Api.Serve(store, views(clock), opens, request, faults(clock));
      store, answer, clock := served.0, served.1, clock + 1;
    }

    /** The request that a Database pass asks for at this point. */
    method Ask(ghost p: D.Pass, request: Request) returns (answer: Answer)
      requires Valid() && D.Running(p) && request == D.Ask(p)
      modifies this
      ensures Fits(request, answer) && Rest(D.Next(p, answer)) == old(Rest(p))
    {
      answer := Call(request);
      AdvancesTo(p, old(store), views, opens, faults, old(clock), store, answer, D.Next(p, answer));
    }

    method AskForServer(ghost p: S.Pass, request: Request) returns (answer: Answer)
      requires Valid() && S.Running(p) && FewWrites(p) && request == S.Ask(p)
      modifies this
      ensures Fits(request, answer) && FewWrites(S.Next(p, answer))
      ensures ServerRest(S.Next(p, answer)) == old(ServerRest(p))
    {
      ServerAdvances(p, store, views, opens, faults, clock);
      answer := Call(request);
    }

    /** Writes the statuses one after the other, each into a copy of the same object, and returns. */
    method Report(db: Database, writes: seq<Status>, failed: bool) returns (end: D.Pass)
      requires Valid() && writes != []
      modifies this
      ensures PassEnd(end, store, clock) == old(Rest(D.Putting(db, writes, failed)))
    {
      for n := 0 to |writes|
        invariant n < |writes| ==> Rest(D.Putting(db, writes[n..], failed)) == old(Rest(D.Putting(db, writes, failed)))
        invariant n == |writes| ==> Rest(D.Finished(failed)) == old(Rest(D.Putting(db, writes, failed)))
      {
        assert writes[n..][1..] == writes[n + 1..];
        var _ := Ask(D.Putting(db, writes[n..], failed), PutDatabase(db.(status := writes[n])));
      }
      end := D.Finished(failed);
    }

    /** The first of the two status writes about a secret that could not be had; the caller makes the second. */
    method ReportFirst(db: Database, message: Message)
      requires Valid()
      modifies this
      ensures Rest(D.AfterSecret(db, false)) ==
              old(Rest(D.Putting(db, [Status(Error, message), Status(Error, SecretSyncError)], false)))
    {
      ghost var writes := [Status(Error, message), Status(Error, SecretSyncError)];
      var _ := Ask(D.Putting(db, writes, false), PutDatabase(db.(status := Status(Error, message))));
      assert writes[1..] == [Status(Error, SecretSyncError)];
    }

    /** Makes the secret with this text. */
    method CreateWithText(db: Database, s: Option<DatabaseServer>, text: string) returns (result: Result)
      requires Valid() && db.spec.users.Some?
      modifies this
      ensures !result.Dereferenced?
      ensures Rest(D.AfterSecret(db, result.Done? && IsControlledBy(D.Secretive(db, text).owner, db.meta.uid))) ==
              old(Rest(D.CreatingSecret(db, s, text)))
    {
      var answer := Ask(D.CreatingSecret(db, s, text), CreateSecret(db.meta.key, D.Secretive(db, text)));
      if answer.ok { return Done; }
      ReportFirst(db, CreateChildFailed);
      result := Err;
    }

    /** Makes the secret with the DSN of the user at an index. */
    method CreateDatabaseSecret(db: Database, s: Option<DatabaseServer>, dsn: string, i: nat)
      returns (latest: Database, secret: Option<Secret>, result: Result)
      requires Valid() && db.spec.users.Some? && i < |Users(db.spec)| && D.FirstAdmin(Users(db.spec)) == i
      modifies this
      ensures result.Dereferenced? ==> PassEnd(D.Panicked, store, clock) == old(Rest(D.MakeSecret(db, s, dsn)))
      ensures result.Err? ==> Rest(D.AfterSecret(latest, false)) == old(Rest(D.MakeSecret(db, s, dsn)))
      ensures result.Done? ==> secret.Some? && Rest(D.AfterSecret(latest, IsControlledBy(secret.value.owner, db.meta.uid))) ==
                                               old(Rest(D.MakeSecret(db, s, dsn)))
    {
      latest, secret := db, None;
      var user := Users(db.spec)[i];
      var server;
      if s.Some? {
        server := s.value;
      } else {
        var target := GetHostAndPort(dsn);
        if target.None? { return latest, None, Dereferenced; }
        server := ServerlessServer(target.value);
      }
      var text := PostgresDsn(user.name, user.password, Some(db.meta.key.name), server);
      latest := db.(meta := D.Labelled(db.meta));
      result := CreateWithText(latest, s, text);
      secret := if result.Done? then Some(D.Secretive(db, text)) else None;
    }

    /** Makes the secret for the first admin when it is missing; a second admin finds it there. */
    method SyncDatabaseSecret(db: Database, s: Option<DatabaseServer>, dsn: string)
      returns (latest: Database, result: Result)
      requires Valid()
      modifies this
      ensures result.Dereferenced? ==> PassEnd(D.Panicked, store, clock) == old(Rest(D.AfterSync(db, s, dsn, SuccessSynced)))
      ensures !result.Dereferenced? ==>
                Rest(D.AfterSecret(latest, result.Done?)) == old(Rest(D.AfterSync(db, s, dsn, SuccessSynced)))
    {
      latest := db;
      if db.spec.users.None? { return latest, Done; }
      var answer := Ask(D.FindingSecret(db, s, dsn), ListSecret(db.meta.key));
      if answer.secret.Failed? {
        ReportFirst(db, GetChildFailed);
        return latest, Err;
      }
      var notFound := answer.secret.NotFound?;
      var secret := if notFound then None else Some(answer.secret.value);
      var users := db.spec.users.value;
      for i := 0 to |users|
        invariant notFound <==> secret.None?
        invariant notFound ==> latest == db && forall j :: 0 <= j < i ==> users[j].role != "admin"
        invariant notFound ==> Rest(D.MakeSecret(db, s, dsn)) == old(Rest(D.AfterSync(db, s, dsn, SuccessSynced)))
        invariant !notFound ==> Rest(D.AfterSecret(latest, IsControlledBy(secret.value.owner, db.meta.uid))) ==
                                old(Rest(D.AfterSync(db, s, dsn, SuccessSynced)))
      {
        if users[i].role == "admin" && notFound {
          assert D.FirstAdmin(users) == i;
          latest, secret, result := CreateDatabaseSecret(db, s, dsn, i);
          if !result.Done? { return; }
          notFound := false;
        }
      }
      if secret.None? { return latest, Dereferenced; }
      result := if IsControlledBy(secret.value.owner, db.meta.uid) then Done else Err;
    }

    method AfterInstance(db: Database, s: Option<DatabaseServer>, dsn: string, outcome: Outcome) returns (end: D.Pass)
      requires Valid()
      modifies this
      ensures PassEnd(end, store, clock) == old(Rest(D.AfterSync(db, s, dsn, outcome)))
    {
      if outcome.Failure? {
        end := Report(db, [Status(Error, SyncError)], true);
        return;
      }
      if outcome.Created? && s.None? { return D.Panicked; }
      var latest, result := SyncDatabaseSecret(db, s, dsn);
      match result {
        case Dereferenced => end := D.Panicked;
        case Err => end := Report(latest, [Status(Error, SecretSyncError)], false);
        case Done => end := Report(latest, [Status(Success, Synced)], false);
      }
    }

    /** Runs SyncDatabase over a connection to an instance. */
    method SyncAt(job: Job, at: Key) returns (outcome: Outcome)
      requires at in store.instances
      modifies this
      ensures var end := Run(job, Probing, old(store).instances[at], faults, old(clock));
              && outcome == end.outcome && clock == end.clock
              && store == old(store).(instances := old(store).instances[at := end.pg])
    {
      var conn := new PostgresPlugin.Connection(store.instances[at], faults, clock);
      outcome := PostgresPlugin.SyncDatabase(job, conn);
      store := store.(instances := store.instances[at := Instance(conn.dbs, conn.users)]);
      clock := conn.clock;
    }

    /** Synchronizes the instance that the DSN opens, if any. */
    method SyncOpened(job: Job, dsn: string) returns (outcome: Outcome)
      modifies this
      ensures PassEnd(outcome, store, clock) == old(SyncEnd(job, dsn, store, opens, faults, clock))
    {
      var target := opens(dsn);
      if target.None? || target.value !in store.instances {
        clock := clock + 1;
        return Failure(QueryFailed);
      }
      outcome := SyncAt(job, target.value);
    }

    method SyncInstance(db: Database, s: Option<DatabaseServer>, dsn: string) returns (outcome: Outcome)
      requires Valid()
      modifies this
      ensures Rest(D.AfterSync(db, s, dsn, outcome)) == old(Rest(D.Syncing(db, s, dsn, Probing)))
    {
      SyncingEnds(db, s, dsn, store, views, opens, faults, clock);
      outcome := SyncOpened(D.JobOf(db), dsn);
    }

    /** Resolves the sourced passwords in place, synchronizes the instance and then the secret. */
    method SyncWithDsn(original: Database, s: Option<DatabaseServer>, dsn: string) returns (end: D.Pass)
      requires Valid()
      modifies this
      ensures PassEnd(end, store, clock) == old(Rest(D.ResolvePasswords(original, s, dsn, 0)))
    {
      var db := original;
      var n := |Users(original.spec)|;
      for index := 0 to n
        invariant |Users(db.spec)| == n
        invariant Rest(D.ResolvePasswords(db, s, dsn, index)) == old(Rest(D.ResolvePasswords(original, s, dsn, 0)))
      {
        var user := Users(db.spec)[index];
        if user.passwordFrom.Some? {
          var answer := Ask(D.GettingPassword(db, s, dsn, index), GetValue(db.meta.key.namespace, user.passwordFrom));
          if answer.value.NotFound? {
            end := Report(db, [Status(Pending, WaitingForUserSecret(user.name))], true);
            return;
          }
          db := D.WithPassword(db, index, if answer.value.Found? then answer.value.value else "");
        }
      }
      var outcome := SyncInstance(db, s, dsn);
      end := AfterInstance(db, s, dsn, outcome);
    }

    method SyncWithServer(db: Database, s: Option<DatabaseServer>) returns (end: D.Pass)
      requires Valid()
      modifies this
      ensures PassEnd(end, store, clock) == old(Rest(D.ChoosePlugin(db, s)))
    {
      var engine;
      if db.spec.serverType == "" {
        if s.None? {
          end := Report(db, [Status(Error, NoServerOrType)], false);
          return;
        }
        if s.value.spec.plugin.NoneSet? { return D.Panicked; }
        engine := D.EngineOf(s.value.spec.plugin);
      } else {
        engine := D.EngineNamed(db.spec.serverType);
      }
      if engine.None? {
        end := Report(db, [Status(Error, NoPlugin)], false);
        return;
      }
      if engine.value.MySqlEngine? { return D.Elsewhere; }
      var dsn := db.spec.dsn;
      if dsn == "" {
        var source;
        if db.spec.dsnFrom.Some? {
          if db.spec.dsnFrom.value.secretKeyRef.None? { return D.Panicked; }
          source := db.spec.dsnFrom.value;
        } else {
          if s.None? { return D.Panicked; }
          source := D.DsnEntry(s.value.meta.key.name);
        }
        var answer := Ask(D.GettingDsn(db, s, source), GetValue(db.meta.key.namespace, Some(source)));
        if answer.value.NotFound? {
          end := Report(db, [Status(Pending, WaitingForDsn)], true);
          return;
        }
        if answer.value.Failed? {
          end := Report(db, [Status(Error, NoValidDsn)], false);
          return;
        }
        dsn := answer.value.value;
      }
      end := SyncWithDsn(db, s, dsn);
    }

    method SyncDatabase(key: Key) returns (end: D.Pass)
      requires Valid()
      modifies this
      ensures PassEnd(end, store, clock) == old(Rest(D.Begin(key)))
    {
      var answer := Ask(D.Begin(key), ListDatabase(key));
      if !answer.database.Found? { return D.Finished(answer.database.Failed?); }
      var db := answer.database.value;
      if db.status.state.Unset? {
        answer := Ask(D.Initializing(db), PutDatabase(db.(status := Status(Pending, YetToInitialize))));
      }
      var s: Option<DatabaseServer> := None;
      if db.spec.server != "" {
        answer := Ask(D.FindingServer(db), ListServer(Key(db.meta.key.namespace, db.spec.server)));
        if answer.server.NotFound? {
          end := Report(db, [Status(Pending, WaitingForServer)], true);
          return;
        }
        if answer.server.Failed? { return D.Finished(true); }
        s := Some(answer.server.value);
      }
      end := SyncWithServer(db, s);
    }

    method ReportServer(s: DatabaseServer, ghost writes: seq<Status>, ghost failed: bool, status: Status)
      requires Valid() && writes != [] && |writes| <= 2 && status == writes[0]
      modifies this
      ensures if |writes| == 1 then PassEnd(S.Finished(failed), store, clock) == old(ServerRest(S.Putting(s, writes, failed)))
              else ServerRest(S.Putting(s, writes[1..], failed)) == old(ServerRest(S.Putting(s, writes, failed)))
    {
      var _ := AskForServer(S.Putting(s, writes, failed), PutServer(s.(status := status)));
    }

    method SyncPodServer(s: DatabaseServer) returns (latest: DatabaseServer, result: Result)
      requires Valid()
      modifies this
      ensures !result.Dereferenced? && ServerRest(S.AfterPod(latest, result.Done?)) == old(ServerRest(S.FindingPod(s)))
    {
      latest := s;
      var answer := AskForServer(S.FindingPod(s), ListPod(s.meta.key));
      if answer.child.Failed? {
        FailingTwice(s, GetChildFailed, PodError);
        ReportServer(s, [Status(Error, GetChildFailed), Status(Error, PodError)], true, Status(Error, GetChildFailed));
        return latest, Err;
      }
      if answer.child.Found? {
        return latest, if IsControlledBy(answer.child.value.owner, s.meta.uid) then Done else Err;
      }
      latest := s.(meta := S.LabelledForPod(s.meta));
      answer := AskForServer(S.CreatingPod(latest), CreatePod(s.meta.key, Child(S.OwnedBy("DatabaseServer", s.meta))));
      if answer.ok { return latest, Done; }
      FailingTwice(latest, CreateChildFailed, PodError);
      ReportServer(latest, [Status(Error, CreateChildFailed), Status(Error, PodError)], true,
                   Status(Error, CreateChildFailed));
      result := Err;
    }

    method SyncService(s: DatabaseServer) returns (latest: DatabaseServer, result: Result)
      requires Valid()
      modifies this
      ensures !result.Dereferenced? && ServerRest(S.AfterService(latest, result.Done?)) == old(ServerRest(S.FindingService(s)))
    {
      latest := s;
      var answer := AskForServer(S.FindingService(s), ListService(s.meta.key));
      if answer.child.Failed? {
        FailingTwice(s, GetChildFailed, ServiceError);
        ReportServer(s, [Status(Error, GetChildFailed), Status(Error, ServiceError)], true, Status(Error, GetChildFailed));
        return latest, Err;
      }
      if answer.child.Found? {
        return latest, if IsControlledBy(answer.child.value.owner, s.meta.uid) then Done else Err;
      }
      latest := s.(meta := D.Labelled(s.meta));
      answer := AskForServer(S.CreatingService(latest), CreateService(s.meta.key, Child(S.OwnedBy("DatabaseServer", s.meta))));
      if answer.ok { return latest, Done; }
      FailingTwice(latest, CreateChildFailed, ServiceError);
      ReportServer(latest, [Status(Error, CreateChildFailed), Status(Error, ServiceError)], true,
                   Status(Error, CreateChildFailed));
      result := Err;
    }

    method CreateServerSecret(s: DatabaseServer, user: string, password: string) returns (latest: DatabaseServer, result: Result)
      requires Valid()
      modifies this
      ensures result.Dereferenced? ==> PassEnd(S.Panicked, store, clock) == old(ServerRest(S.MakeSecret(s, user, password)))
      ensures !result.Dereferenced? ==>
                ServerRest(S.AfterSecret(latest, result.Done?)) == old(ServerRest(S.MakeSecret(s, user, password)))
    {
      latest := s;
      var dsn := S.SuperUserDsn(s, user, password);
      if dsn.None? { return latest, Dereferenced; }
      latest := s.(meta := D.Labelled(s.meta));
      var answer := AskForServer(S.CreatingSecret(latest, dsn.value), CreateSecret(s.meta.key, S.SecretOf(s, dsn.value)));
      if answer.ok { return latest, Done; }
      FailingTwice(latest, CreateChildFailed, ServerSecretError);
      ReportServer(latest, [Status(Error, CreateChildFailed), Status(Error, ServerSecretError)], true,
                   Status(Error, CreateChildFailed));
      result := Err;
    }

    method ReportCredential(s: DatabaseServer, failed: bool, waiting: Message, invalid: Message) returns (result: Result)
      requires Valid()
      modifies this
      ensures !result.Dereferenced?
      ensures ServerRest(S.AfterSecret(s, result.Done?)) == old(ServerRest(S.CredentialMissing(s, failed, waiting, invalid)))
    {
      if failed {
        ReportServer(s, [Status(Error, invalid), Status(Success, Synced)], false, Status(Error, invalid));
        result := Done;
      } else {
        FailingOnce(s, ServerSecretError);
        ReportServer(s, [Status(Pending, waiting), Status(Error, ServerSecretError)], true, Status(Pending, waiting));
        result := Err;
      }
    }

    /** Finds or makes the secret; a credential that does not resolve is reported and then passed over as done. */
    method SyncServerSecret(s: DatabaseServer) returns (latest: DatabaseServer, result: Result)
      requires Valid()
      modifies this
      ensures result.Dereferenced? ==> PassEnd(S.Panicked, store, clock) == old(ServerRest(S.FindingSecret(s)))
      ensures !result.Dereferenced? ==> ServerRest(S.AfterSecret(latest, result.Done?)) == old(ServerRest(S.FindingSecret(s)))
    {
      latest := s;
      var answer := AskForServer(S.FindingSecret(s), ListSecret(s.meta.key));
      if answer.secret.Failed? {
        FailingTwice(s, GetChildFailed, ServerSecretError);
        ReportServer(s, [Status(Error, GetChildFailed), Status(Error, ServerSecretError)], true, Status(Error, GetChildFailed));
        return latest, Err;
      }
      if answer.secret.Found? {
        return latest, if IsControlledBy(answer.secret.value.owner, s.meta.uid) then Done else Err;
      }
      var user := s.spec.superUser;
      if user == "" {
        answer := AskForServer(S.GettingSuperUser(s), GetValue(s.meta.key.namespace, s.spec.superUserFrom));
        if !answer.value.Found? {
          result := ReportCredential(s, answer.value.Failed?, WaitingForSuperUser, NoSuperUser);
          return;
        }
        user := answer.value.value;
      }
      var password := s.spec.superUserPassword;
      if password == "" {
        answer := AskForServer(S.GettingSuperUserPassword(s, user), GetValue(s.meta.key.namespace, s.spec.superUserPasswordFrom));
        if !answer.value.Found? {
          result := ReportCredential(s, answer.value.Failed?, WaitingForSuperUserPassword, NoSuperUserPassword);
          return;
        }
        password := answer.value.value;
      }
      latest, result := CreateServerSecret(s, user, password);
    }

    method SyncServer(key: Key) returns (end: S.Pass)
      requires Valid()
      modifies this
      ensures PassEnd(end, store, clock) == old(ServerRest(S.Begin(key)))
    {
      var answer := AskForServer(S.Begin(key), ListServer(key));
      if !answer.server.Found? { return S.Finished(answer.server.Failed?); }
      var s, result := answer.server.value, Done;
      if S.PodBacked(s.spec.plugin) {
        s, result := SyncPodServer(s);
        if result.Err? {
          FailingOnce(s, PodError);
          ReportServer(s, [Status(Error, PodError)], true, Status(Error, PodError));
          return S.Finished(true);
        }
      }
      s, result := SyncService(s);
      if result.Err? {
        FailingOnce(s, ServiceError);
        ReportServer(s, [Status(Error, ServiceError)], true, Status(Error, ServiceError));
        return S.Finished(true);
      }
      s, result := SyncServerSecret(s);
      match result {
        case Dereferenced =>
          end := S.Panicked;
        case Err =>
          FailingOnce(s, ServerSecretError);
          ReportServer(s, [Status(Error, ServerSecretError)], true, Status(Error, ServerSecretError));
          end := S.Finished(true);
        case Done =>
          ReportServer(s, [Status(Success, Synced)], false, Status(Success, Synced));
          end := S.Finished(false);
      }
    }
  }
}
