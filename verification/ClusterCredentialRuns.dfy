/**
 The end-to-end credential invariant over whole runs: each action of the cluster keeps it.
 */
module ClusterCredentialRuns {
  import opened Resources
  import opened Dsn
  import opened Text
  import opened Postgres
  import opened PostgresFacts
  import PI = PostgresInterleaving
  import opened Api
  import opened Cluster
  import opened ClusterChildren
  import opened ClusterCredentials
  import opened PassFacts
  import D = DatabasePass
  import S = ServerPass

  /** A Database's instance stays and is not disturbed. */
  ghost predicate InstanceKept(db: Database, passwords: Passwords, before: map<Key, Instance>, after: map<Key, Instance>) {
    ServerKey(db) in before ==>
      ServerKey(db) in after &&
      Undisturbed(ResolvedJob(db, passwords), before[ServerKey(db)], after[ServerKey(db)])
  }

  lemma InPlaceStays(db: Database, passwords: Passwords, before: map<Key, Instance>, after: map<Key, Instance>)
    requires InPlace(db, passwords, before) && InstanceKept(db, passwords, before, after)
    ensures InPlace(db, passwords, after)
  {
    DesiredIsLast(ResolvedUsers(db, passwords), "");
  }

  lemma OnTrackStays(c: Config, config: Database, passwords: Passwords, p: D.Pass,
                     before: map<Key, Instance>, after: map<Key, Instance>)
    requires OnTrack(c, config, passwords, p, before) && InstanceKept(config, passwords, before, after)
    ensures OnTrack(c, config, passwords, p, after)
  {
    match p
    case Syncing(db, _, _, client) =>
      if !client.Probing? {
        ProgressIsStable(D.JobOf(db), client, before[ServerKey(config)], after[ServerKey(config)]);
      }
    case FindingSecret(_, _, _) => InPlaceStays(config, passwords, before, after);
    case CreatingSecret(_, _, _) => InPlaceStays(config, passwords, before, after);
    case _ =>
  }

  /** One statement of one Database's call, as it changes the instances. */
  ghost predicate StatementOf(db: Database, passwords: Passwords, before: map<Key, Instance>, after: map<Key, Instance>) {
    exists client, fault ::
      ServerKey(db) in before && Working(ResolvedJob(db, passwords), client) &&
      after == before[ServerKey(db) := Step(ResolvedJob(db, passwords), client, before[ServerKey(db)], fault).1]
  }

  lemma AgreeingIsUndisturbed(job: Job, pg: Instance, pg': Instance)
    requires PI.Agree(job, pg, pg')
    ensures Undisturbed(job, pg, pg')
  {}

  lemma StatementKeepsApart(db: Database, other: Database, passwords: Passwords,
                            before: map<Key, Instance>, after: map<Key, Instance>)
    requires ServerKey(db) == ServerKey(other) ==> PI.Apart(ResolvedJob(db, passwords), ResolvedJob(other, passwords))
    requires StatementOf(db, passwords, before, after)
    ensures InstanceKept(other, passwords, before, after)
  {
    var client, fault :| ServerKey(db) in before && Working(ResolvedJob(db, passwords), client) &&
      after == before[ServerKey(db) := Step(ResolvedJob(db, passwords), client, before[ServerKey(db)], fault).1];
    if ServerKey(other) == ServerKey(db) {
      PI.StepTouchesOwn(ResolvedJob(db, passwords), ResolvedJob(other, passwords), client, before[ServerKey(db)], fault);
      AgreeingIsUndisturbed(ResolvedJob(other, passwords), before[ServerKey(db)], after[ServerKey(db)]);
    }
  }

  lemma StatementKeepsOthers(c: Config, passwords: Passwords, k: Key, j: Key,
                             before: map<Key, Instance>, after: map<Key, Instance>)
    requires Provisioned(c, passwords) && k in c.databases && j in c.databases && j != k
    requires StatementOf(c.databases[k], passwords, before, after)
    ensures InstanceKept(c.databases[j], passwords, before, after)
  {
    if ServerKey(c.databases[k]) == ServerKey(c.databases[j]) { JobsApart(c, passwords, k, j); }
    StatementKeepsApart(c.databases[k], c.databases[j], passwords, before, after);
  }

  lemma StatementKeepsOwnInPlace(db: Database, passwords: Passwords, before: map<Key, Instance>, after: map<Key, Instance>)
    requires Plain(db, passwords) && StatementOf(db, passwords, before, after) && InPlace(db, passwords, before)
    ensures InPlace(db, passwords, after)
  {
    var job := ResolvedJob(db, passwords);
    var client, fault :| ServerKey(db) in before && Working(job, client) &&
      after == before[ServerKey(db) := Step(job, client, before[ServerKey(db)], fault).1];
    assert UniqueNames(job.users);
    StepOnEstablished(job, client, before[ServerKey(db)], fault);
  }

  /** A superuser credential that is found is the one it is meant to be; the lookup may always fail. */
  ghost predicate SteadyCredential(passwords: Passwords, p: S.Pass, answer: Answer) {
    match p
    case GettingSuperUser(s) =>
      answer.ValueIs? && answer.value.Found? && s.spec.superUserFrom.Some? ==>
        answer.value.value == passwords(s.meta.key.namespace, s.spec.superUserFrom.value)
    case GettingSuperUserPassword(s, _) =>
      answer.ValueIs? && answer.value.Found? && s.spec.superUserPasswordFrom.Some? ==>
        answer.value.value == passwords(s.meta.key.namespace, s.spec.superUserPasswordFrom.value)
    case _ => true
  }

  ghost predicate SteadyUserPasswords(c: Config, passwords: Passwords, w: World, a: Action)
    requires Enabled(c, w, a)
  {
    a.DatabaseStep? && w.databasePasses[a.key].GettingPassword? ==>
      var p := w.databasePasses[a.key];
      var answer := DatabaseServed(c, w, a.key, a.view, a.fault).1;
      answer.ValueIs? &&
      (answer.value.NotFound? ||
       answer.value == Found(passwords(p.db.meta.key.namespace, Users(p.db.spec)[p.i].passwordFrom.value)))
  }

  /**
   The user password that a Database pass is answered, if it asks for one, is the one it is
   meant to have, and so is a superuser credential that a server pass is answered.
   */
  ghost predicate SteadyPasswords(c: Config, passwords: Passwords, w: World, a: Action)
    requires Enabled(c, w, a)
  {
    SteadyUserPasswords(c, passwords, w, a) &&
    (a.ServerStep? ==>
       SteadyCredential(passwords, w.serverPasses[a.key], ServerServed(c, w, a.key, a.view, a.fault).1))
  }

  /** Others keep their hands off the names of servers and Databases and off the Databases' accounts. */
  ghost predicate OutsideKeepsOff(c: Config, passwords: Passwords, before: Store, after: Store) {
    (forall k :: (k in c.servers || k in c.databases) && k in before.secrets ==>
       k in after.secrets && after.secrets[k] == before.secrets[k]) &&
    (forall k :: k in c.servers && k in after.secrets ==> k in before.secrets) &&
    (forall k :: k in c.databases ==> InstanceKept(c.databases[k], passwords, before.instances, after.instances))
  }

  ghost predicate Allowed(c: Config, passwords: Passwords, w: World, a: Action)
    requires Enabled(c, w, a)
  {
    SteadyPasswords(c, passwords, w, a) &&
    (a.Outside? ==> OutsideKeepsOff(c, passwords, w.store, a.after))
  }

  /** A server pass goes on only with the credentials it is meant to have, and prints the text its secret is meant to hold. */
  ghost predicate ServerOnTrack(passwords: Passwords, p: S.Pass) {
    match p
    case GettingSuperUser(s) => s.spec.superUser == ""
    case GettingSuperUserPassword(s, user) => s.spec.superUserPassword == "" && user == SuperUserName(s, passwords)
    case CreatingSecret(s, dsn) => ServerDsn(s, passwords) == Some(dsn)
    case _ => true
  }

  ghost predicate Invariant(c: Config, passwords: Passwords, w: World) {
    PassesFit(c, w) && StoreTrue(c, passwords, w.store) && AllOnTrack(c, passwords, w) &&
    forall k :: k in w.serverPasses ==> ServerOnTrack(passwords, w.serverPasses[k])
  }

  lemma SuperUserOnTrack(passwords: Passwords, s: DatabaseServer, user: string)
    requires user == SuperUserName(s, passwords)
    ensures ServerOnTrack(passwords, S.AfterSuperUser(s, user))
  {}

  lemma PasswordLeadsToOwnDsn(passwords: Passwords, s: DatabaseServer, user: string, password: string)
    requires user == SuperUserName(s, passwords) && password == SuperUserPassword(s, passwords)
    ensures ServerOnTrack(passwords, S.MakeSecret(s, user, password))
  {}

  lemma ServerStaysOnTrack(passwords: Passwords, p: S.Pass, answer: Answer)
    requires S.Running(p) && Fits(S.Ask(p), answer) && ServerOnTrack(passwords, p)
    requires SteadyCredential(passwords, p, answer)
    ensures ServerOnTrack(passwords, S.Next(p, answer))
  {
    match p
    case FindingSecret(s) => if s.spec.superUser != "" { SuperUserOnTrack(passwords, s, s.spec.superUser); }
    case GettingSuperUser(s) => if answer.value.Found? { SuperUserOnTrack(passwords, s, answer.value.value); }
    case GettingSuperUserPassword(s, user) =>
      if answer.value.Found? { PasswordLeadsToOwnDsn(passwords, s, user, answer.value.value); }
    case _ =>
  }

  /** Copies of a server are meant to have the same secret. */
  lemma SameServerDsn(a: DatabaseServer, b: DatabaseServer, passwords: Passwords)
    requires CopyOfServer(a, b)
    ensures ServerDsn(a, passwords) == ServerDsn(b, passwords)
  {}

  /** What a server pass's request can change of what matters here. */
  ghost predicate ServerEffect(k: Key, p: S.Pass, before: Store, after: Store) {
    after.instances == before.instances &&
    (after.secrets == before.secrets ||
     (p.CreatingSecret? && after.secrets == before.secrets[k := S.SecretOf(p.s, p.dsn)]))
  }

  /** Only SQL statements change instances, and only the creation of a secret changes secrets. */
  ghost predicate Narrow(before: Store, after: Store, request: Request) {
    (!request.Sql? ==> after.instances == before.instances) &&
    (after.secrets == before.secrets ||
     (request.CreateSecret? && after.secrets == before.secrets[request.key := request.secret]))
  }

  lemma RequestIsNarrow(store: Store, view: View, opens: Opens, request: Request, fault: Fault)
    ensures Narrow(store, Api.Serve(store, view, opens, request, fault).0, request)
  {}

  lemma ServerRequestEffect(c: Config, k: Key, p: S.Pass, before: Store, after: Store)
    requires WellFormedConfig(c) && S.Running(p) && WorksOnServer(c, k, p) && Narrow(before, after, S.Ask(p))
    ensures ServerEffect(k, p, before, after)
  {}

  lemma ServerEffectKeepsStore(c: Config, passwords: Passwords, k: Key, p: S.Pass, before: Store, after: Store)
    requires Provisioned(c, passwords) && StoreTrue(c, passwords, before) && ServerEffect(k, p, before, after)
    requires S.Running(p) && WorksOnServer(c, k, p) && ServerOnTrack(passwords, p)
    ensures StoreTrue(c, passwords, after)
  {
    forall j | j in c.databases ensures SecretTrue(c, c.databases[j], passwords, after) {
      assert SecretTrue(c, c.databases[j], passwords, before);
      assert j !in c.servers;
    }
    if p.CreatingSecret? { SameServerDsn(c.servers[k], p.s, passwords); }
    forall j | j in c.servers ensures ServerSecretTrue(c, j, after) {
      assert ServerSecretTrue(c, j, before);
    }
  }

  lemma ServerStepKeepsInvariant(c: Config, passwords: Passwords, w: World, k: Key, view: View, fault: Fault)
    requires Provisioned(c, passwords) && Invariant(c, passwords, w) && Enabled(c, w, ServerStep(k, view, fault))
    requires SteadyPasswords(c, passwords, w, ServerStep(k, view, fault))
    ensures Invariant(c, passwords, Next(c, w, ServerStep(k, view, fault)))
  {
    var p := w.serverPasses[k];
    var (after, answer) := ServerServed(c, w, k, view, fault);
    ActionKeepsPassesFit(c, w, ServerStep(k, view, fault));
    ServerStaysOnTrack(passwords, p, answer);
    RequestIsNarrow(w.store, view, c.opens, S.Ask(p), fault);
    ServerRequestEffect(c, k, p, w.store, after);
    ServerEffectKeepsStore(c, passwords, k, p, w.store, after);
  }

  /** What a Database pass's request can change of what matters here. */
  ghost predicate DatabaseEffect(config: Database, passwords: Passwords, p: D.Pass, before: Store, after: Store) {
    (after.instances == before.instances || StatementOf(config, passwords, before.instances, after.instances)) &&
    (after.secrets == before.secrets ||
     (p.CreatingSecret? && after.secrets == before.secrets[config.meta.key := D.Secretive(p.db, p.dsn)] &&
      after.instances == before.instances))
  }

  lemma PlainRequestEffect(c: Config, passwords: Passwords, k: Key, p: D.Pass, before: Store, after: Store)
    requires WellFormedConfig(c) && D.Running(p) && WorksOnDatabase(c, k, p) && Narrow(before, after, D.Ask(p))
    requires !p.Syncing?
    ensures k in c.databases ==> DatabaseEffect(c.databases[k], passwords, p, before, after)
  {}

  lemma StatementRequestEffect(c: Config, passwords: Passwords, store: Store, view: View, k: Key, p: D.Pass, fault: Fault)
    requires WellFormedConfig(c) && D.Running(p) && WorksOnDatabase(c, k, p) && p.Syncing?
    requires OnTrack(c, c.databases[k], passwords, p, store.instances)
    ensures DatabaseEffect(c.databases[k], passwords, p, store, Api.Serve(store, view, c.opens, D.Ask(p), fault).0)
  {
    var config := c.databases[k];
    if c.opens(p.dsn).Some? && ServerKey(config) in store.instances {
      var pg := Step(D.JobOf(p.db), p.client, store.instances[ServerKey(config)], fault).1;
      assert Api.Serve(store, view, c.opens, D.Ask(p), fault).0.instances == store.instances[ServerKey(config) := pg];
    }
  }

  lemma DatabaseRequestEffect(c: Config, passwords: Passwords, store: Store, view: View, k: Key, p: D.Pass, fault: Fault)
    requires WellFormedConfig(c) && D.Running(p) && WorksOnDatabase(c, k, p) && k in c.databases
    requires OnTrack(c, c.databases[k], passwords, p, store.instances)
    ensures DatabaseEffect(c.databases[k], passwords, p, store, Api.Serve(store, view, c.opens, D.Ask(p), fault).0)
  {
    if p.Syncing? {
      StatementRequestEffect(c, passwords, store, view, k, p, fault);
    } else {
      RequestIsNarrow(store, view, c.opens, D.Ask(p), fault);
      PlainRequestEffect(c, passwords, k, p, store, Api.Serve(store, view, c.opens, D.Ask(p), fault).0);
    }
  }

  lemma EffectKeepsInPlace(c: Config, passwords: Passwords, j: Key, k: Key, p: D.Pass, before: Store, after: Store)
    requires Provisioned(c, passwords) && j in c.databases && k in c.databases
    requires DatabaseEffect(c.databases[k], passwords, p, before, after)
    requires InPlace(c.databases[j], passwords, before.instances)
    ensures InPlace(c.databases[j], passwords, after.instances)
  {
    if after.instances != before.instances {
      if j == k {
        StatementKeepsOwnInPlace(c.databases[k], passwords, before.instances, after.instances);
      } else {
        StatementKeepsOthers(c, passwords, k, j, before.instances, after.instances);
        InPlaceStays(c.databases[j], passwords, before.instances, after.instances);
      }
    }
  }

  lemma EffectKeepsSecretTrue(c: Config, passwords: Passwords, j: Key, k: Key, p: D.Pass, before: Store, after: Store)
    requires Provisioned(c, passwords) && j in c.databases && k in c.databases
    requires D.Running(p) && WorksOnDatabase(c, k, p) && OnTrack(c, c.databases[k], passwords, p, before.instances)
    requires DatabaseEffect(c.databases[k], passwords, p, before, after)
    requires SecretTrue(c, c.databases[j], passwords, before)
    ensures SecretTrue(c, c.databases[j], passwords, after)
  {
    if InPlace(c.databases[j], passwords, before.instances) {
      EffectKeepsInPlace(c, passwords, j, k, p, before, after);
    }
  }

  lemma DatabaseEffectKeepsStore(c: Config, passwords: Passwords, k: Key, p: D.Pass, before: Store, after: Store)
    requires Provisioned(c, passwords) && StoreTrue(c, passwords, before) && k in c.databases
    requires D.Running(p) && WorksOnDatabase(c, k, p) && OnTrack(c, c.databases[k], passwords, p, before.instances)
    requires DatabaseEffect(c.databases[k], passwords, p, before, after)
    ensures StoreTrue(c, passwords, after)
  {
    forall j | j in c.databases ensures SecretTrue(c, c.databases[j], passwords, after) {
      EffectKeepsSecretTrue(c, passwords, j, k, p, before, after);
    }
    forall j | j in c.servers ensures ServerSecretTrue(c, j, after) {
      assert ServerSecretTrue(c, j, before);
      assert j !in c.databases;
    }
  }

  /** What the answers that a Database pass reads can be. */
  ghost predicate Credible(c: Config, config: Database, passwords: Passwords, store: Store, p: D.Pass, answer: Answer)
    requires D.Running(p) && Fits(D.Ask(p), answer)
  {
    match p
    case Begin(_) => answer.database.Found? ==> CopyOfDatabase(config, answer.database.value)
    case FindingServer(_) =>
      answer.server.Found? ==>
        KnowsServer(c, config, Some(answer.server.value)) && answer.server.value.meta.key == ServerKey(config)
    case GettingDsn(_, _, source) =>
      answer.value.Found? ==>
        answer.value == Resolve(Some(source), config.meta.key.namespace, store.configMaps, SecretData(store.secrets))
    case GettingPassword(db, _, _, i) =>
      answer.value.NotFound? ||
      answer.value == Found(passwords(config.meta.key.namespace, Users(db.spec)[i].passwordFrom.value))
    case _ => true
  }

  lemma AnswersAreCredible(c: Config, passwords: Passwords, w: World, k: Key, view: View, fault: Fault)
    requires Provisioned(c, passwords) && PassesFit(c, w) && Enabled(c, w, DatabaseStep(k, view, fault))
    requires SteadyUserPasswords(c, passwords, w, DatabaseStep(k, view, fault)) && k in c.databases
    ensures Credible(c, c.databases[k], passwords, w.store, w.databasePasses[k], DatabaseServed(c, w, k, view, fault).1)
  {}

  lemma OpeningStepOnTrack(c: Config, config: Database, passwords: Passwords, store: Store, p: D.Pass, answer: Answer)
    requires D.Running(p) && Fits(D.Ask(p), answer) && (p.Begin? || p.Initializing? || p.FindingServer?)
    requires Plain(config, passwords) && (p.Begin? || CopyOfDatabase(config, p.db))
    requires Credible(c, config, passwords, store, p, answer)
    ensures OnTrack(c, config, passwords, D.Next(p, answer), store.instances)
  {
    match p
    case Begin(_) =>
      if answer.database.Found? { OpeningOnTrack(c, config, passwords, answer.database.value, None, store.instances); }
    case Initializing(db) => OpeningOnTrack(c, config, passwords, db, None, store.instances);
    case FindingServer(db) =>
      if answer.server.Found? { OpeningOnTrack(c, config, passwords, db, Some(answer.server.value), store.instances); }
  }

  lemma ReadingStaysOnTrack(c: Config, config: Database, passwords: Passwords, store: Store, p: D.Pass, answer: Answer)
    requires D.Running(p) && Fits(D.Ask(p), answer) && !p.Syncing? && Plain(config, passwords)
    requires p.Begin? || CopyOfDatabase(config, p.db) || p.Finished? || p.Panicked? || p.Elsewhere?
    requires OnTrack(c, config, passwords, p, store.instances) && Credible(c, config, passwords, store, p, answer)
    requires ServerKey(config) in c.servers ==> ServerSecretTrue(c, ServerKey(config), store)
    ensures OnTrack(c, config, passwords, D.Next(p, answer), store.instances)
  {
    match p
    case Begin(_) => OpeningStepOnTrack(c, config, passwords, store, p, answer);
    case Initializing(_) => OpeningStepOnTrack(c, config, passwords, store, p, answer);
    case FindingServer(_) => OpeningStepOnTrack(c, config, passwords, store, p, answer);
    case GettingDsn(_, _, _) => DsnOnTrack(c, config, passwords, p, answer.value, store);
    case GettingPassword(_, _, _, _) => PasswordOnTrack(c, config, passwords, p, answer.value, store.instances);
    case FindingSecret(_, _, _) =>
      if answer.secret.NotFound? { SecretOnTrack(c, config, passwords, p, store.instances); } else { EndingNext(p, answer); }
    case _ => EndingNext(p, answer);
  }

  /** A statement reaches the instance its DSN opens, or is refused. */
  lemma SqlServed(store: Store, view: View, opens: Opens, dsn: string, statement: Statement, fault: Fault, k: Key)
    requires OpensAtMost(opens, dsn, k)
    ensures var (after, answer) := Api.Serve(store, view, opens, Sql(dsn, statement), fault);
            if opens(dsn) == Some(k) && k in store.instances then
              && after.instances == store.instances[k := Postgres.Serve(store.instances[k], statement, fault).0]
              && answer == SqlIs(Postgres.Serve(store.instances[k], statement, fault).1)
            else answer == SqlIs(Refusal)
  {}

  lemma RefusedStops(db: Database, s: Option<DatabaseServer>, dsn: string, client: Client)
    requires Working(D.JobOf(db), client)
    ensures D.AfterStatement(db, s, dsn, Advance(D.JobOf(db), client, Refusal)).Putting?
  {}

  lemma SqlAnswerOnTrack(c: Config, config: Database, passwords: Passwords, p: D.Pass, store: Store, view: View, fault: Fault)
    requires p.Syncing? && D.Running(p) && CopyOfDatabase(config, p.db)
    requires OnTrack(c, config, passwords, p, store.instances)
    requires Fits(D.Ask(p), Api.Serve(store, view, c.opens, D.Ask(p), fault).1)
    ensures var (after, answer) := Api.Serve(store, view, c.opens, D.Ask(p), fault);
            OnTrack(c, config, passwords, D.AfterStatement(p.db, p.s, p.dsn, Advance(D.JobOf(p.db), p.client, answer.reply)),
                    after.instances)
  {
    SqlServed(store, view, c.opens, p.dsn, Postgres.Request(D.JobOf(p.db), p.client), fault, ServerKey(config));
    if c.opens(p.dsn).Some? && ServerKey(config) in store.instances {
      StatementOnTrack(c, config, passwords, p, fault, store.instances);
    } else {
      RefusedStops(p.db, p.s, p.dsn, p.client);
    }
  }

  lemma PassStaysOnTrack(c: Config, passwords: Passwords, w: World, k: Key, view: View, fault: Fault)
    requires Provisioned(c, passwords) && Invariant(c, passwords, w) && Enabled(c, w, DatabaseStep(k, view, fault))
    requires SteadyUserPasswords(c, passwords, w, DatabaseStep(k, view, fault)) && k in c.databases
    ensures var (after, answer) := DatabaseServed(c, w, k, view, fault);
            OnTrack(c, c.databases[k], passwords, D.Next(w.databasePasses[k], answer), after.instances)
  {
    var p := w.databasePasses[k];
    if p.Syncing? {
      SqlAnswerOnTrack(c, c.databases[k], passwords, p, w.store, view, fault);
    } else {
      AnswersAreCredible(c, passwords, w, k, view, fault);
      ReadingStaysOnTrack(c, c.databases[k], passwords, w.store, p, DatabaseServed(c, w, k, view, fault).1);
      RequestIsNarrow(w.store, view, c.opens, D.Ask(p), fault);
    }
  }

  lemma OthersStayOnTrack(c: Config, passwords: Passwords, j: Key, k: Key, p: D.Pass, before: Store, after: Store, q: D.Pass)
    requires Provisioned(c, passwords) && j in c.databases && k in c.databases && j != k
    requires DatabaseEffect(c.databases[k], passwords, p, before, after)
    requires OnTrack(c, c.databases[j], passwords, q, before.instances)
    ensures OnTrack(c, c.databases[j], passwords, q, after.instances)
  {
    if after.instances != before.instances {
      StatementKeepsOthers(c, passwords, k, j, before.instances, after.instances);
      OnTrackStays(c, c.databases[j], passwords, q, before.instances, after.instances);
    }
  }

  lemma AllOthersStayOnTrack(c: Config, passwords: Passwords, w: World, k: Key, p: D.Pass, after: Store)
    requires Provisioned(c, passwords) && AllOnTrack(c, passwords, w) && k in c.databases
    requires DatabaseEffect(c.databases[k], passwords, p, w.store, after)
    ensures forall j :: j in w.databasePasses && j in c.databases && j != k ==>
              OnTrack(c, c.databases[j], passwords, w.databasePasses[j], after.instances)
  {
    forall j | j in w.databasePasses && j in c.databases && j != k
      ensures OnTrack(c, c.databases[j], passwords, w.databasePasses[j], after.instances)
    {
      OthersStayOnTrack(c, passwords, j, k, p, w.store, after, w.databasePasses[j]);
    }
  }

  lemma PiecesMakeInvariant(c: Config, passwords: Passwords, w: World, k: Key, w': World)
    requires Invariant(c, passwords, w) && PassesFit(c, w') && StoreTrue(c, passwords, w'.store)
    requires w'.serverPasses == w.serverPasses && k in c.databases && k in w'.databasePasses
    requires w'.databasePasses == w.databasePasses[k := w'.databasePasses[k]]
    requires OnTrack(c, c.databases[k], passwords, w'.databasePasses[k], w'.store.instances)
    requires forall j :: j in w.databasePasses && j in c.databases && j != k ==>
               OnTrack(c, c.databases[j], passwords, w.databasePasses[j], w'.store.instances)
    ensures Invariant(c, passwords, w')
  {}

  lemma DatabaseStepKeepsInvariant(c: Config, passwords: Passwords, w: World, k: Key, view: View, fault: Fault)
    requires Provisioned(c, passwords) && Invariant(c, passwords, w) && Enabled(c, w, DatabaseStep(k, view, fault))
    requires SteadyUserPasswords(c, passwords, w, DatabaseStep(k, view, fault)) && k in c.databases
    ensures Invariant(c, passwords, Next(c, w, DatabaseStep(k, view, fault)))
  {
    var p := w.databasePasses[k];
    var after := DatabaseServed(c, w, k, view, fault).0;
    ActionKeepsPassesFit(c, w, DatabaseStep(k, view, fault));
    DatabaseRequestEffect(c, passwords, w.store, view, k, p, fault);
    DatabaseEffectKeepsStore(c, passwords, k, p, w.store, after);
    PassStaysOnTrack(c, passwords, w, k, view, fault);
    AllOthersStayOnTrack(c, passwords, w, k, p, after);
    PiecesMakeInvariant(c, passwords, w, k, Next(c, w, DatabaseStep(k, view, fault)));
  }

  /** A pass for a Database that was never there ends at once. */
  lemma StrayStepKeepsInvariant(c: Config, passwords: Passwords, w: World, k: Key, view: View, fault: Fault)
    requires Provisioned(c, passwords) && Invariant(c, passwords, w) && Enabled(c, w, DatabaseStep(k, view, fault))
    requires k !in c.databases
    ensures Invariant(c, passwords, Next(c, w, DatabaseStep(k, view, fault)))
  {
    assert w.databasePasses[k].Begin?;
    ActionKeepsPassesFit(c, w, DatabaseStep(k, view, fault));
  }

  lemma OutsideKeepsInvariant(c: Config, passwords: Passwords, w: World, after: Store)
    requires Provisioned(c, passwords) && Invariant(c, passwords, w)
    requires OutsideMay(c, w.store, after) && OutsideKeepsOff(c, passwords, w.store, after)
    ensures Invariant(c, passwords, w.(store := after))
  {
    forall j | j in c.databases ensures SecretTrue(c, c.databases[j], passwords, after) {
      assert SecretTrue(c, c.databases[j], passwords, w.store);
      if InPlace(c.databases[j], passwords, w.store.instances) {
        InPlaceStays(c.databases[j], passwords, w.store.instances, after.instances);
      }
    }
    forall j | j in c.servers ensures ServerSecretTrue(c, j, after) {
      assert ServerSecretTrue(c, j, w.store);
    }
    forall j | j in w.databasePasses && j in c.databases
      ensures OnTrack(c, c.databases[j], passwords, w.databasePasses[j], after.instances)
    {
      OnTrackStays(c, c.databases[j], passwords, w.databasePasses[j], w.store.instances, after.instances);
    }
  }

  lemma ActionKeepsInvariant(c: Config, passwords: Passwords, w: World, a: Action)
    requires Provisioned(c, passwords) && Invariant(c, passwords, w) && Enabled(c, w, a) && Allowed(c, passwords, w, a)
    ensures Invariant(c, passwords, Next(c, w, a))
  {
    match a
    case DatabaseStep(k, view, fault) =>
      if k in c.databases {
        DatabaseStepKeepsInvariant(c, passwords, w, k, view, fault);
      } else {
        StrayStepKeepsInvariant(c, passwords, w, k, view, fault);
      }
    case ServerStep(k, view, fault) => ServerStepKeepsInvariant(c, passwords, w, k, view, fault);
    case Outside(after) => OutsideKeepsInvariant(c, passwords, w, after);
    case StartDatabase(_) =>
    case StartServer(_) =>
  }

  ghost predicate RunAllowed(c: Config, passwords: Passwords, worlds: seq<World>, actions: seq<Action>)
    requires IsRun(c, worlds, actions)
  {
    forall i {:trigger actions[i]} :: 0 <= i < |actions| ==> Allowed(c, passwords, worlds[i], actions[i])
  }

  lemma {:induction false} RunKeepsInvariant(c: Config, passwords: Passwords, worlds: seq<World>, actions: seq<Action>, i: nat)
    requires Provisioned(c, passwords) && IsRun(c, worlds, actions) && RunAllowed(c, passwords, worlds, actions)
    requires i < |worlds| && Idle(worlds[0]) && StoreTrue(c, passwords, worlds[0].store)
    ensures Invariant(c, passwords, worlds[i])
  {
    if i > 0 {
      RunKeepsInvariant(c, passwords, worlds, actions, i - 1);
      ActionKeepsInvariant(c, passwords, worlds[i - 1], actions[i - 1]);
    }
  }

  ghost predicate IsFirstAdmin(users: seq<DatabaseUser>, i: nat) {
    i < |users| && users[i].role == "admin" && forall j :: 0 <= j < i ==> users[j].role != "admin"
  }

  lemma FirstAdminOf(db: Database, passwords: Passwords)
    requires exists user :: user in Users(db.spec) && user.role == "admin"
    ensures var users := ResolvedUsers(db, passwords); var i := D.FirstAdmin(users);
            i < |users| && users[i].role == "admin" && users[i] in users && IsFirstAdmin(Users(db.spec), i)
  {
    var j :| 0 <= j < |Users(db.spec)| && Users(db.spec)[j].role == "admin";
    var users := ResolvedUsers(db, passwords);
    forall k | 0 <= k < |users| ensures users[k].role == Users(db.spec)[k].role {}
    assert users[j].role == "admin";
  }

  /** The meant text, written out. */
  lemma MeantText(c: Config, db: Database, passwords: Passwords)
    requires ServerKey(db) in c.servers && c.servers[ServerKey(db)].meta.key == ServerKey(db) && Plain(db, passwords)
    requires D.FirstAdmin(ResolvedUsers(db, passwords)) < |Users(db.spec)|
    ensures var admin := ResolvedUsers(db, passwords)[D.FirstAdmin(ResolvedUsers(db, passwords))];
            AdminDsn(c, db, passwords) ==
            "postgres://" + admin.name + ":" + admin.password + "@" + db.spec.server + "." + db.meta.key.namespace + ":" +
            PrintInt(c.servers[ServerKey(db)].spec.servicePort) + "/" + db.meta.key.name + "?sslmode=disable"
  {
    var admin := ResolvedUsers(db, passwords)[D.FirstAdmin(ResolvedUsers(db, passwords))];
    assert admin in ResolvedUsers(db, passwords);
    PrintedText(admin.name, admin.password, Some(db.meta.key.name), c.servers[ServerKey(db)]);
  }

  /** The text opens this Database's own database on its own server, as the first admin with the stored password. */
  ghost predicate TellsTheTruth(db: Database, port: int, pg: Instance, text: string) {
    exists i: nat :: IsFirstAdmin(Users(db.spec), i) && Users(db.spec)[i].name in pg.users &&
      var name := Users(db.spec)[i].name;
      text == "postgres://" + name + ":" + pg.users[name].password + "@" + db.spec.server + "." + db.meta.key.namespace +
              ":" + PrintInt(port) + "/" + db.meta.key.name + "?sslmode=disable"
  }

  lemma TrueSecret(c: Config, db: Database, passwords: Passwords, store: Store)
    requires SecretTrue(c, db, passwords, store) && OwnsSecret(store.secrets, db.meta.key, db.meta.uid)
    requires Plain(db, passwords) && exists user :: user in Users(db.spec) && user.role == "admin"
    requires ServerKey(db) in c.servers ==> c.servers[ServerKey(db)].meta.key == ServerKey(db)
    ensures TellsTheTruth(db, c.servers[ServerKey(db)].spec.servicePort, store.instances[ServerKey(db)],
                          store.secrets[db.meta.key].data["dsn"])
  {
    UsersInPlace(ResolvedJob(db, passwords), store.instances[ServerKey(db)]);
    FirstAdminOf(db, passwords);
    MeantText(c, db, passwords);
    var i := D.FirstAdmin(ResolvedUsers(db, passwords));
    assert ResolvedUsers(db, passwords)[i].name == Users(db.spec)[i].name;
  }

  /**
   The credential invariant: at every point of every run, when a Database controls the secret
   under its name, its server's instance holds the database and every user of the spec, with
   the password asked for and the rights of its role, and the secret's text opens that database
   on that server as the first admin, with the very password the instance stores for that user.
   */
  lemma SecretsTellTheTruth(c: Config, passwords: Passwords, worlds: seq<World>, actions: seq<Action>, i: nat, k: Key)
    requires Provisioned(c, passwords) && IsRun(c, worlds, actions) && RunAllowed(c, passwords, worlds, actions)
    requires i < |worlds| && Idle(worlds[0]) && StoreTrue(c, passwords, worlds[0].store) && k in c.databases
    requires OwnsSecret(worlds[i].store.secrets, k, c.databases[k].meta.uid)
    requires exists user :: user in Users(c.databases[k].spec) && user.role == "admin"
    ensures var db, store, at := c.databases[k], worlds[i].store, Key(k.namespace, c.databases[k].spec.server);
            at in store.instances && at in c.servers && "dsn" in store.secrets[k].data &&
            var pg, text := store.instances[at], store.secrets[k].data["dsn"];
            && k.name in pg.dbs
            && (forall user :: user in ResolvedUsers(db, passwords) ==>
                  user.name in pg.users && pg.users[user.name].password == user.password &&
                  pg.users[user.name].flags == if user.role == "admin" then Flags(true, true) else Flags(false, false))
            && TellsTheTruth(db, c.servers[at].spec.servicePort, pg, text)
  {
    RunKeepsInvariant(c, passwords, worlds, actions, i);
    var db, store := c.databases[k], worlds[i].store;
    assert SecretTrue(c, db, passwords, store);
    UsersInPlace(ResolvedJob(db, passwords), store.instances[ServerKey(db)]);
    TrueSecret(c, db, passwords, store);
  }
}
