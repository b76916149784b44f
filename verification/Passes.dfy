/**
 Passes run to their end: every request is served from one store that nobody else changes,
 with what the listers show, and what goes wrong, given by the number of the request.
 */
module Passes {
  import opened Resources
  import opened Postgres
  import opened Api
  import D = DatabasePass
  import S = ServerPass

  /** An upper bound on the requests still to come, once the object is read. */
  function DatabaseRank(p: D.Pass): nat
    requires D.WellFormedPass(p)
  {
    match p
    case Begin(_) => 0
    case Initializing(db) => 3 * |Users(db.spec)| + 15
    case FindingServer(db) => 3 * |Users(db.spec)| + 14
    case GettingDsn(db, _, _) => 3 * |Users(db.spec)| + 13
    case GettingPassword(db, _, _, i) => 3 * |Users(db.spec)| - i + 12
    case Syncing(db, _, _, client) => Rank(D.JobOf(db), client) + 5
    case FindingSecret(_, _, _) => 4
    case CreatingSecret(_, _, _) => 3
    case Putting(_, writes, _) => |writes|
    case Finished(_) => 0
    case Panicked => 0
    case Elsewhere => 0
  }

  lemma PasswordRank(db: Database, s: Option<DatabaseServer>, dsn: string, i: nat)
    requires i <= |Users(db.spec)|
    ensures !D.ResolvePasswords(db, s, dsn, i).Begin?
    ensures DatabaseRank(D.ResolvePasswords(db, s, dsn, i)) < 3 * |Users(db.spec)| - i + 13
  {}

  lemma ChoosingRank(db: Database, s: Option<DatabaseServer>)
    ensures !D.ChoosePlugin(db, s).Begin? && DatabaseRank(D.ChoosePlugin(db, s)) < 3 * |Users(db.spec)| + 14
  {
    PasswordRank(db, s, db.spec.dsn, 0);
  }

  lemma OpeningRank(db: Database)
    ensures !D.AfterInitialization(db).Begin? && DatabaseRank(D.AfterInitialization(db)) < 3 * |Users(db.spec)| + 15
  {
    ChoosingRank(db, None);
  }

  lemma StatementRank(db: Database, s: Option<DatabaseServer>, dsn: string, client: Client)
    requires WellFormed(D.JobOf(db), client)
    ensures !D.AfterStatement(db, s, dsn, client).Begin?
    ensures DatabaseRank(D.AfterStatement(db, s, dsn, client)) <= Rank(D.JobOf(db), client) + 5
  {}

  lemma EndingRank(p: D.Pass, answer: Answer)
    requires D.Running(p) && Fits(D.Ask(p), answer) && (p.FindingSecret? || p.CreatingSecret? || p.Putting?)
    ensures !D.Next(p, answer).Begin? && DatabaseRank(D.Next(p, answer)) < DatabaseRank(p)
  {}

  lemma ReadingRank(p: D.Pass, answer: Answer)
    requires D.Running(p) && Fits(D.Ask(p), answer)
    requires p.Initializing? || p.FindingServer? || p.GettingDsn? || p.GettingPassword?
    ensures !D.Next(p, answer).Begin? && DatabaseRank(D.Next(p, answer)) < DatabaseRank(p)
  {
    match p
    case Initializing(db) => OpeningRank(db);
    case FindingServer(db) => if answer.server.Found? { ChoosingRank(db, Some(answer.server.value)); }
    case GettingDsn(db, s, _) => if answer.value.Found? { PasswordRank(db, s, answer.value.value, 0); }
    case GettingPassword(db, s, dsn, i) =>
      if !answer.value.NotFound? {
        PasswordRank(D.WithPassword(db, i, if answer.value.Found? then answer.value.value else ""), s, dsn, i + 1);
      }
  }

  /** Every answer brings a pass closer to its end. */
  lemma NextRank(p: D.Pass, answer: Answer)
    requires D.Running(p) && Fits(D.Ask(p), answer)
    ensures !D.Next(p, answer).Begin?
    ensures !p.Begin? ==> DatabaseRank(D.Next(p, answer)) < DatabaseRank(p)
  {
    match p
    case Begin(_) => if answer.database.Found? { OpeningRank(answer.database.value); }
    case Initializing(_) => ReadingRank(p, answer);
    case FindingServer(_) => ReadingRank(p, answer);
    case GettingDsn(_, _, _) => ReadingRank(p, answer);
    case GettingPassword(_, _, _, _) => ReadingRank(p, answer);
    case Syncing(db, s, dsn, client) => StatementRank(db, s, dsn, Advance(D.JobOf(db), client, answer.reply));
    case _ => EndingRank(p, answer);
  }

  /** What the listers show at each request. */
  type Views = nat -> View

  ghost predicate Keyed(views: Views) {
    forall n :: RequestedKeys(views(n))
  }

  datatype PassEnd<P> = PassEnd(pass: P, store: Store, clock: nat)

  /** A Database pass from this point to its end. */
  function RunDatabase(p: D.Pass, store: Store, views: Views, opens: Opens, faults: Faults, clock: nat): PassEnd<D.Pass>
    requires D.WellFormedPass(p) && Keyed(views)
    decreases if p.Begin? then 1 else 0, DatabaseRank(p)
  {
    if !D.Running(p) then PassEnd(p, store, clock)
    else
      var (after, answer) := Api.Serve(store, views(clock), opens, D.Ask(p), faults(clock));
      NextRank(p, answer);
      RunDatabase(D.Next(p, answer), after, views, opens, faults, clock + 1)
  }

  lemma DatabaseAdvances(p: D.Pass, store: Store, views: Views, opens: Opens, faults: Faults, clock: nat)
    requires D.Running(p) && Keyed(views)
    ensures var (after, answer) := Api.Serve(store, views(clock), opens, D.Ask(p), faults(clock));
            RunDatabase(p, store, views, opens, faults, clock) ==
            RunDatabase(D.Next(p, answer), after, views, opens, faults, clock + 1)
  {}

  lemma StatementServed(db: Database, s: Option<DatabaseServer>, dsn: string, client: Client,
                        store: Store, view: View, opens: Opens, fault: Fault, pg: Instance, reply: Reply)
    requires Working(D.JobOf(db), client)
    requires opens(dsn).Some? && opens(dsn).value in store.instances
    requires (pg, reply) == Postgres.Serve(store.instances[opens(dsn).value], Postgres.Request(D.JobOf(db), client), fault)
    requires Answers(Postgres.Request(D.JobOf(db), client), reply)
    ensures Api.Serve(store, view, opens, D.Ask(D.Syncing(db, s, dsn, client)), fault) ==
            (store.(instances := store.instances[opens(dsn).value := pg]), SqlIs(reply))
    ensures D.Next(D.Syncing(db, s, dsn, client), SqlIs(reply)) ==
            D.AfterStatement(db, s, dsn, Advance(D.JobOf(db), client, reply))
  {}

  lemma AdvancesTo(p: D.Pass, store: Store, views: Views, opens: Opens, faults: Faults, clock: nat,
                   after: Store, answer: Answer, p': D.Pass)
    requires D.Running(p) && Keyed(views)
    requires Api.Serve(store, views(clock), opens, D.Ask(p), faults(clock)) == (after, answer) && D.Next(p, answer) == p'
    ensures RunDatabase(p, store, views, opens, faults, clock) == RunDatabase(p', after, views, opens, faults, clock + 1)
  {}

  /** The measure is the same before and after every statement of a call, and known once the call returns. */
  ghost predicate SameThroughout<T(!new)>(job: Job, faults: Faults, f: (Client, Instance, nat) -> T,
                                          result: (Outcome, Instance, nat) -> T)
  {
    (forall c: Client, pg: Instance, n: nat :: Working(job, c) ==>
       f(c, pg, n) == f(Step(job, c, pg, faults(n)).0, Step(job, c, pg, faults(n)).1, n + 1)) &&
    (forall c: Client, pg: Instance, n: nat :: WellFormed(job, c) && Returned(job, c).Some? ==>
       f(c, pg, n) == result(Returned(job, c).value, pg, n))
  }

  /** What is the same before and after every statement of a call, and known once the call returns, is known at its start. */
  lemma {:induction false} RunFollows<T(!new)>(job: Job, client: Client, pg: Instance, faults: Faults, clock: nat,
                                         f: (Client, Instance, nat) -> T, result: (Outcome, Instance, nat) -> T)
    requires WellFormed(job, client) && SameThroughout(job, faults, f, result)
    ensures var end := Run(job, client, pg, faults, clock);
            f(client, pg, clock) == result(end.outcome, end.pg, end.clock)
    decreases Rank(job, client)
  {
    if Returned(job, client).None? {
      var (client', pg') := Step(job, client, pg, faults(clock));
      RunFollows(job, client', pg', faults, clock + 1, f, result);
    }
  }

  lemma StatementAdvances(db: Database, s: Option<DatabaseServer>, dsn: string, client: Client, store: Store, views: Views,
                          opens: Opens, faults: Faults, clock: nat, at: Key, client': Client, after: Store)
    requires Working(D.JobOf(db), client) && Keyed(views) && opens(dsn) == Some(at) && at in store.instances
    requires client' == Step(D.JobOf(db), client, store.instances[at], faults(clock)).0
    requires after == store.(instances :=
                        store.instances[at := Step(D.JobOf(db), client, store.instances[at], faults(clock)).1])
    ensures RunDatabase(D.Syncing(db, s, dsn, client), store, views, opens, faults, clock) ==
            RunDatabase(D.AfterStatement(db, s, dsn, client'), after, views, opens, faults, clock + 1)
  {
    var request := Postgres.Request(D.JobOf(db), client);
    var (pg, reply) := Postgres.Serve(store.instances[at], request, faults(clock));
    ServeAnswers(store.instances[at], request, faults(clock));
    StatementServed(db, s, dsn, client, store, views(clock), opens, faults(clock), pg, reply);
    AdvancesTo(D.Syncing(db, s, dsn, client), store, views, opens, faults, clock, after, SqlIs(reply),
               D.AfterStatement(db, s, dsn, client'));
  }

  /** How a pass ends from each point of its call. */
  ghost function FromClient(db: Database, s: Option<DatabaseServer>, dsn: string, at: Key, store: Store, views: Views,
                            opens: Opens, faults: Faults): (Client, Instance, nat) -> PassEnd<D.Pass>
    requires Keyed(views)
  {
    (c: Client, pg: Instance, n: nat) =>
      if !WellFormed(D.JobOf(db), c) then PassEnd(D.Panicked, store, n)
      else RunDatabase(D.AfterStatement(db, s, dsn, c), store.(instances := store.instances[at := pg]), views, opens, faults, n)
  }

  ghost function FromOutcome(db: Database, s: Option<DatabaseServer>, dsn: string, at: Key, store: Store, views: Views,
                             opens: Opens, faults: Faults): (Outcome, Instance, nat) -> PassEnd<D.Pass>
    requires Keyed(views)
  {
    (outcome: Outcome, pg: Instance, n: nat) =>
      RunDatabase(D.AfterSync(db, s, dsn, outcome), store.(instances := store.instances[at := pg]), views, opens, faults, n)
  }

  lemma StatementsFollow(db: Database, s: Option<DatabaseServer>, dsn: string, at: Key, store: Store, views: Views,
                         opens: Opens, faults: Faults)
    requires Keyed(views) && opens(dsn) == Some(at)
    ensures SameThroughout(D.JobOf(db), faults, FromClient(db, s, dsn, at, store, views, opens, faults),
                           FromOutcome(db, s, dsn, at, store, views, opens, faults))
  {
    var job := D.JobOf(db);
    forall c: Client, pg: Instance, n: nat | Working(job, c)
      ensures var f := FromClient(db, s, dsn, at, store, views, opens, faults);
              f(c, pg, n) == f(Step(job, c, pg, faults(n)).0, Step(job, c, pg, faults(n)).1, n + 1)
    {
      var (c', pg') := Step(job, c, pg, faults(n));
      var there := store.(instances := store.instances[at := pg]);
      assert store.instances[at := pg][at := pg'] == store.instances[at := pg'];
      StatementAdvances(db, s, dsn, c, there, views, opens, faults, n, at, c',
                        store.(instances := store.instances[at := pg']));
    }
    forall c: Client, pg: Instance, n: nat | WellFormed(job, c) && Returned(job, c).Some?
      ensures FromClient(db, s, dsn, at, store, views, opens, faults)(c, pg, n) ==
              FromOutcome(db, s, dsn, at, store, views, opens, faults)(Returned(job, c).value, pg, n)
    {
      assert D.AfterStatement(db, s, dsn, c) == D.AfterSync(db, s, dsn, Returned(job, c).value);
    }
  }

  /** The SQL statements of a pass are one call of SyncDatabase on the instance its DSN opens. */
  lemma SyncingIsARun(db: Database, s: Option<DatabaseServer>, dsn: string, client: Client,
                      store: Store, views: Views, opens: Opens, faults: Faults, clock: nat)
    requires Working(D.JobOf(db), client) && Keyed(views)
    requires opens(dsn).Some? && opens(dsn).value in store.instances
    ensures var at := opens(dsn).value;
            var end := Run(D.JobOf(db), client, store.instances[at], faults, clock);
            RunDatabase(D.Syncing(db, s, dsn, client), store, views, opens, faults, clock) ==
            RunDatabase(D.AfterSync(db, s, dsn, end.outcome), store.(instances := store.instances[at := end.pg]),
                        views, opens, faults, end.clock)
  {
    var at := opens(dsn).value;
    StatementsFollow(db, s, dsn, at, store, views, opens, faults);
    RunFollows(D.JobOf(db), client, store.instances[at], faults, clock,
               FromClient(db, s, dsn, at, store, views, opens, faults), FromOutcome(db, s, dsn, at, store, views, opens, faults));
    assert store.instances[at := store.instances[at]] == store.instances;
  }

  /** Where the DSN opens no instance, the first statement fails. */
  lemma SyncingNowhere(db: Database, s: Option<DatabaseServer>, dsn: string,
                       store: Store, views: Views, opens: Opens, faults: Faults, clock: nat)
    requires Keyed(views) && (opens(dsn).None? || opens(dsn).value !in store.instances)
    ensures RunDatabase(D.Syncing(db, s, dsn, Probing), store, views, opens, faults, clock) ==
            RunDatabase(D.AfterSync(db, s, dsn, Failure(QueryFailed)), store, views, opens, faults, clock + 1)
  {
    DatabaseAdvances(D.Syncing(db, s, dsn, Probing), store, views, opens, faults, clock);
  }

  /** How the SQL statements of a pass come out: the call's outcome, and the store and the clock behind it. */
  function SyncEnd(job: Job, dsn: string, store: Store, opens: Opens, faults: Faults, clock: nat): PassEnd<Outcome> {
    if opens(dsn).None? || opens(dsn).value !in store.instances then PassEnd(Failure(QueryFailed), store, clock + 1)
    else
      var end := Run(job, Probing, store.instances[opens(dsn).value], faults, clock);
      PassEnd(end.outcome, store.(instances := store.instances[opens(dsn).value := end.pg]), end.clock)
  }

  lemma SyncingEnds(db: Database, s: Option<DatabaseServer>, dsn: string,
                    store: Store, views: Views, opens: Opens, faults: Faults, clock: nat)
    requires Keyed(views)
    ensures var end := SyncEnd(D.JobOf(db), dsn, store, opens, faults, clock);
            RunDatabase(D.Syncing(db, s, dsn, Probing), store, views, opens, faults, clock) ==
            RunDatabase(D.AfterSync(db, s, dsn, end.pass), end.store, views, opens, faults, end.clock)
  {
    if opens(dsn).None? || opens(dsn).value !in store.instances {
      SyncingNowhere(db, s, dsn, store, views, opens, faults, clock);
    } else {
      SyncingIsARun(db, s, dsn, Probing, store, views, opens, faults, clock);
    }
  }

  function ServerRank(p: S.Pass): nat {
    match p
    case Begin(_) => 20
    case FindingPod(_) => 12
    case CreatingPod(_) => 11
    case FindingService(_) => 10
    case CreatingService(_) => 9
    case FindingSecret(_) => 8
    case GettingSuperUser(_) => 7
    case GettingSuperUserPassword(_, _) => 6
    case CreatingSecret(_, _) => 5
    case Putting(_, writes, _) => |writes|
    case Finished(_) => 0
    case Panicked => 0
  }

  /** No pass writes a status more than twice. */
  predicate FewWrites(p: S.Pass) {
    p.Putting? ==> |p.writes| <= 2
  }

  lemma NextServerRank(p: S.Pass, answer: Answer)
    requires S.Running(p) && Fits(S.Ask(p), answer) && FewWrites(p)
    ensures FewWrites(S.Next(p, answer)) && ServerRank(S.Next(p, answer)) < ServerRank(p)
  {}

  /** A server pass from this point to its end. */
  function RunServer(p: S.Pass, store: Store, views: Views, opens: Opens, faults: Faults, clock: nat): PassEnd<S.Pass>
    requires S.WellFormedPass(p) && FewWrites(p) && Keyed(views)
    decreases ServerRank(p)
  {
    if !S.Running(p) then PassEnd(p, store, clock)
    else
      var (after, answer) := Api.Serve(store, views(clock), opens, S.Ask(p), faults(clock));
      NextServerRank(p, answer);
      RunServer(S.Next(p, answer), after, views, opens, faults, clock + 1)
  }

  lemma ServerAdvances(p: S.Pass, store: Store, views: Views, opens: Opens, faults: Faults, clock: nat)
    requires S.Running(p) && FewWrites(p) && Keyed(views)
    ensures var (after, answer) := Api.Serve(store, views(clock), opens, S.Ask(p), faults(clock));
            FewWrites(S.Next(p, answer)) &&
            RunServer(p, store, views, opens, faults, clock) ==
            RunServer(S.Next(p, answer), after, views, opens, faults, clock + 1)
  {
    NextServerRank(p, Api.Serve(store, views(clock), opens, S.Ask(p), faults(clock)).1);
  }
}
