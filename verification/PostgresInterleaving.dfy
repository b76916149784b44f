/**
 Two calls of SyncDatabase on one instance, interleaved statement by statement: two
 workers process the queue of Databases, so this happens for two different Databases.
 */
module PostgresInterleaving {
  import opened Resources
  import opened Postgres
  import opened PostgresFacts

  /** Two calls under way; each counts its own statements. */
  datatype Two = Two(a: Client, clockA: nat, b: Client, clockB: nat, pg: Instance)

  /** The two jobs have different databases and no user name in common. */
  ghost predicate Apart(jobA: Job, jobB: Job) {
    jobA.db != jobB.db && Names(jobA.users) !! Names(jobB.users)
  }

  /** One turn: the call whose turn it is executes a statement, unless it has returned. */
  function Turn(jobA: Job, faultsA: Faults, jobB: Job, faultsB: Faults, s: Two, turnOfA: bool): (s': Two)
    requires WellFormed(jobA, s.a) && WellFormed(jobB, s.b)
    ensures WellFormed(jobA, s'.a) && WellFormed(jobB, s'.b)
  {
    if turnOfA && Working(jobA, s.a) then
      var (a, pg) := Step(jobA, s.a, s.pg, faultsA(s.clockA));
      s.(a := a, clockA := s.clockA + 1, pg := pg)
    else if !turnOfA && Working(jobB, s.b) then
      var (b, pg) := Step(jobB, s.b, s.pg, faultsB(s.clockB));
      s.(b := b, clockB := s.clockB + 1, pg := pg)
    else s
  }

  /** The two calls under a schedule of turns. */
  function Interleave(jobA: Job, faultsA: Faults, jobB: Job, faultsB: Faults, s: Two, schedule: seq<bool>): (s': Two)
    requires WellFormed(jobA, s.a) && WellFormed(jobB, s.b)
    ensures WellFormed(jobA, s'.a) && WellFormed(jobB, s'.b)
    decreases |schedule|
  {
    if schedule == [] then s
    else
      Interleave(jobA, faultsA, jobB, faultsB,
                 Turn(jobA, faultsA, jobB, faultsB, s, schedule[0]), schedule[1..])
  }

  /** Two instances that look the same to a job. */
  ghost predicate Agree(job: Job, pg1: Instance, pg2: Instance) {
    (job.db in pg1.dbs <==> job.db in pg2.dbs) &&
    forall name :: name in Names(job.users) ==>
      (name in pg1.users <==> name in pg2.users) && (name in pg1.users ==> pg1.users[name] == pg2.users[name])
  }

  ghost predicate SameSeen(job: Job, seen1: set<string>, seen2: set<string>) {
    forall name :: name in Names(job.users) ==> (name in seen1 <==> name in seen2)
  }

  /** Two calls at the same point whose snapshots agree on the names that matter. */
  ghost predicate Alike(job: Job, c1: Client, c2: Client) {
    match c1
    case Checking(i, seen) => c2.Checking? && c2.i == i && SameSeen(job, seen, c2.seen)
    case SettingPassword(i, seen) => c2.SettingPassword? && c2.i == i && SameSeen(job, seen, c2.seen)
    case _ => c1 == c2
  }

  lemma NameListed(users: seq<DatabaseUser>, i: nat)
    requires i < |users|
    ensures users[i].name in Names(users)
  {}

  lemma AlikeAreAtTheSamePoint(job: Job, c1: Client, c2: Client)
    requires WellFormed(job, c1) && WellFormed(job, c2) && Alike(job, c1, c2)
    ensures Returned(job, c1) == Returned(job, c2)
    ensures Returned(job, c1).None? ==> Request(job, c1) == Request(job, c2)
  {
    if c1.Checking? && c1.i < |job.users| { NameListed(job.users, c1.i); }
  }

  lemma DdlIsLocal(job: Job, pg1: Instance, pg2: Instance, ddl: Ddl)
    requires Agree(job, pg1, pg2)
    requires if ddl.CreateDatabase? then ddl.db == job.db else ddl.user in Names(job.users)
    ensures Apply(pg1, ddl).None? <==> Apply(pg2, ddl).None?
    ensures Apply(pg1, ddl).Some? ==> Agree(job, Apply(pg1, ddl).value, Apply(pg2, ddl).value)
  {}

  lemma RequestIsOwn(job: Job, c: Client)
    requires Working(job, c)
    ensures match Request(job, c)
            case SelectDatabase(db) => db == job.db
            case SelectUsers => true
            case Exec(ddl) => if ddl.CreateDatabase? then ddl.db == job.db else ddl.user in Names(job.users)
  {
    if c.Creating? || c.Checking? || c.SettingPassword? { NameListed(job.users, Position(c)); }
  }

  ghost predicate SameReply(job: Job, reply1: Reply, reply2: Reply) {
    if reply1.Rows? then reply2.Rows? && SameSeen(job, reply1.names, reply2.names) else reply1 == reply2
  }

  lemma ServeIsLocal(job: Job, pg1: Instance, pg2: Instance, request: Statement, fault: Fault)
    requires Agree(job, pg1, pg2)
    requires match request
             case SelectDatabase(db) => db == job.db
             case SelectUsers => true
             case Exec(ddl) => if ddl.CreateDatabase? then ddl.db == job.db else ddl.user in Names(job.users)
    ensures SameReply(job, Serve(pg1, request, fault).1, Serve(pg2, request, fault).1)
    ensures Agree(job, Serve(pg1, request, fault).0, Serve(pg2, request, fault).0)
  {
    if request.Exec? { DdlIsLocal(job, pg1, pg2, request.ddl); }
  }

  lemma AdvanceIsLocal(job: Job, c1: Client, reply1: Reply, c2: Client, reply2: Reply)
    requires Working(job, c1) && Working(job, c2) && Alike(job, c1, c2) && Request(job, c1) == Request(job, c2)
    requires Answers(Request(job, c1), reply1) && Answers(Request(job, c2), reply2) && SameReply(job, reply1, reply2)
    ensures Alike(job, Advance(job, c1, reply1), Advance(job, c2, reply2))
  {
    if c1.Checking? { NameListed(job.users, c1.i); }
  }

  /** A step depends only on what the job can see of the instance. */
  lemma StepIsLocal(job: Job, c1: Client, pg1: Instance, c2: Client, pg2: Instance, fault: Fault)
    requires Working(job, c1) && WellFormed(job, c2) && Alike(job, c1, c2) && Agree(job, pg1, pg2)
    ensures Working(job, c2)
    ensures Alike(job, Step(job, c1, pg1, fault).0, Step(job, c2, pg2, fault).0)
    ensures Agree(job, Step(job, c1, pg1, fault).1, Step(job, c2, pg2, fault).1)
  {
    AlikeAreAtTheSamePoint(job, c1, c2);
    RequestIsOwn(job, c1);
    var request := Request(job, c1);
    ServeAnswers(pg1, request, fault);
    ServeAnswers(pg2, request, fault);
    ServeIsLocal(job, pg1, pg2, request, fault);
    AdvanceIsLocal(job, c1, Serve(pg1, request, fault).1, c2, Serve(pg2, request, fault).1);
  }

  /** A whole run depends only on what the job can see of the instance. */
  lemma {:induction false} RunIsLocal(job: Job, c1: Client, pg1: Instance, c2: Client, pg2: Instance,
                                      faults: Faults, clock: nat)
    requires WellFormed(job, c1) && WellFormed(job, c2) && Alike(job, c1, c2) && Agree(job, pg1, pg2)
    ensures Run(job, c1, pg1, faults, clock).outcome == Run(job, c2, pg2, faults, clock).outcome
    ensures Agree(job, Run(job, c1, pg1, faults, clock).pg, Run(job, c2, pg2, faults, clock).pg)
    decreases Rank(job, c1)
  {
    AlikeAreAtTheSamePoint(job, c1, c2);
    if Returned(job, c1).None? {
      StepIsLocal(job, c1, pg1, c2, pg2, faults(clock));
      RunIsLocal(job, Step(job, c1, pg1, faults(clock)).0, Step(job, c1, pg1, faults(clock)).1,
                 Step(job, c2, pg2, faults(clock)).0, Step(job, c2, pg2, faults(clock)).1, faults, clock + 1);
    }
  }

  /** What neither job names is as it was. */
  ghost predicate SameOutside(jobA: Job, jobB: Job, pg1: Instance, pg2: Instance) {
    (forall db :: db != jobA.db && db != jobB.db ==> (db in pg1.dbs <==> db in pg2.dbs)) &&
    (forall name :: name !in Names(jobA.users) && name !in Names(jobB.users) ==>
      (name in pg1.users <==> name in pg2.users) && (name in pg1.users ==> pg1.users[name] == pg2.users[name]))
  }

  lemma StepTouchesOwn(job: Job, other: Job, c: Client, pg: Instance, fault: Fault)
    requires Working(job, c) && Apart(job, other)
    ensures Agree(other, pg, Step(job, c, pg, fault).1)
    ensures SameOutside(job, other, pg, Step(job, c, pg, fault).1)
  {
    RequestIsOwn(job, c);
  }

  /** Two ends of a call with the same outcome that look the same to the job. */
  ghost predicate SameEnd(job: Job, end1: Finish, end2: Finish) {
    end1.outcome == end2.outcome && Agree(job, end1.pg, end2.pg)
  }

  lemma AlikeItself(job: Job, c: Client)
    ensures Alike(job, c, c)
  {}

  /** A turn of either call leaves both calls heading for the end they were heading for. */
  lemma TurnKeepsEnds(jobA: Job, faultsA: Faults, jobB: Job, faultsB: Faults, s: Two, turnOfA: bool)
    requires WellFormed(jobA, s.a) && WellFormed(jobB, s.b) && Apart(jobA, jobB)
    ensures var s' := Turn(jobA, faultsA, jobB, faultsB, s, turnOfA);
            && SameEnd(jobA, Run(jobA, s.a, s.pg, faultsA, s.clockA), Run(jobA, s'.a, s'.pg, faultsA, s'.clockA))
            && SameEnd(jobB, Run(jobB, s.b, s.pg, faultsB, s.clockB), Run(jobB, s'.b, s'.pg, faultsB, s'.clockB))
            && SameOutside(jobA, jobB, s.pg, s'.pg)
  {
    var s' := Turn(jobA, faultsA, jobB, faultsB, s, turnOfA);
    if turnOfA && Working(jobA, s.a) {
      StepTouchesOwn(jobA, jobB, s.a, s.pg, faultsA(s.clockA));
      AlikeItself(jobB, s.b);
      RunIsLocal(jobB, s.b, s.pg, s.b, s'.pg, faultsB, s.clockB);
    } else if !turnOfA && Working(jobB, s.b) {
      StepTouchesOwn(jobB, jobA, s.b, s.pg, faultsB(s.clockB));
      AlikeItself(jobA, s.a);
      RunIsLocal(jobA, s.a, s.pg, s.a, s'.pg, faultsA, s.clockA);
    }
  }

  lemma {:induction false} ScheduleKeepsEnds(jobA: Job, faultsA: Faults, jobB: Job, faultsB: Faults,
                                             s: Two, schedule: seq<bool>)
    requires WellFormed(jobA, s.a) && WellFormed(jobB, s.b) && Apart(jobA, jobB)
    ensures var s' := Interleave(jobA, faultsA, jobB, faultsB, s, schedule);
            && SameEnd(jobA, Run(jobA, s.a, s.pg, faultsA, s.clockA), Run(jobA, s'.a, s'.pg, faultsA, s'.clockA))
            && SameEnd(jobB, Run(jobB, s.b, s.pg, faultsB, s.clockB), Run(jobB, s'.b, s'.pg, faultsB, s'.clockB))
            && SameOutside(jobA, jobB, s.pg, s'.pg)
    decreases |schedule|
  {
    if schedule != [] {
      var s1 := Turn(jobA, faultsA, jobB, faultsB, s, schedule[0]);
      TurnKeepsEnds(jobA, faultsA, jobB, faultsB, s, schedule[0]);
      ScheduleKeepsEnds(jobA, faultsA, jobB, faultsB, s1, schedule[1..]);
    }
  }

  /** An instance is determined by what each job sees of it and by the rest. */
  lemma JointlyDetermined(jobA: Job, jobB: Job, pg1: Instance, pg2: Instance)
    requires Agree(jobA, pg1, pg2) && Agree(jobB, pg1, pg2) && SameOutside(jobA, jobB, pg1, pg2)
    ensures pg1 == pg2
  {
    assert forall db :: db in pg1.dbs <==> db in pg2.dbs;
    assert pg1.dbs == pg2.dbs;
    assert forall name :: name in pg1.users <==> name in pg2.users;
    assert pg1.users == pg2.users;
  }

  lemma {:induction false} RunTouchesOwn(job: Job, other: Job, c: Client, pg: Instance, faults: Faults, clock: nat)
    requires WellFormed(job, c) && Apart(job, other)
    ensures Agree(other, pg, Run(job, c, pg, faults, clock).pg)
    ensures SameOutside(job, other, pg, Run(job, c, pg, faults, clock).pg)
    decreases Rank(job, c)
  {
    if Returned(job, c).None? {
      StepTouchesOwn(job, other, c, pg, faults(clock));
      RunTouchesOwn(job, other, Step(job, c, pg, faults(clock)).0, Step(job, c, pg, faults(clock)).1, faults, clock + 1);
    }
  }

  /** One call after the other: how each ends, and the instance at the end. */
  datatype Both = Both(outcomeA: Outcome, outcomeB: Outcome, pg: Instance)

  function OneAfterTheOther(jobA: Job, faultsA: Faults, jobB: Job, faultsB: Faults, pg: Instance): Both {
    var first := SyncDatabase(jobA, pg, faultsA, 0);
    var second := SyncDatabase(jobB, first.pg, faultsB, 0);
    Both(first.outcome, second.outcome, second.pg)
  }

  /** What both orders have in common: each job ends as it would alone. */
  lemma SequentialEnds(jobA: Job, faultsA: Faults, jobB: Job, faultsB: Faults, pg: Instance)
    requires Apart(jobA, jobB)
    ensures var both := OneAfterTheOther(jobA, faultsA, jobB, faultsB, pg);
            && both.outcomeA == SyncDatabase(jobA, pg, faultsA, 0).outcome
            && both.outcomeB == SyncDatabase(jobB, pg, faultsB, 0).outcome
            && Agree(jobA, both.pg, SyncDatabase(jobA, pg, faultsA, 0).pg)
            && Agree(jobB, both.pg, SyncDatabase(jobB, pg, faultsB, 0).pg)
            && SameOutside(jobA, jobB, pg, both.pg)
  {
    var first := SyncDatabase(jobA, pg, faultsA, 0).pg;
    RunTouchesOwn(jobA, jobB, Probing, pg, faultsA, 0);
    RunTouchesOwn(jobB, jobA, Probing, first, faultsB, 0);
    RunIsLocal(jobB, Probing, pg, Probing, first, faultsB, 0);
  }

  /**
   Commutation: every statement-level interleaving of two calls for Databases with different
   names and disjoint user names, run to the end of both, gives the outcomes and the instance
   of running them one after the other, in either order, whatever faults each call meets.
   */
  lemma Commutation(jobA: Job, faultsA: Faults, jobB: Job, faultsB: Faults, pg: Instance, schedule: seq<bool>)
    requires Apart(jobA, jobB)
    requires var end := Interleave(jobA, faultsA, jobB, faultsB, Two(Probing, 0, Probing, 0, pg), schedule);
             !Working(jobA, end.a) && !Working(jobB, end.b)
    ensures var end := Interleave(jobA, faultsA, jobB, faultsB, Two(Probing, 0, Probing, 0, pg), schedule);
            var ab := OneAfterTheOther(jobA, faultsA, jobB, faultsB, pg);
            var ba := OneAfterTheOther(jobB, faultsB, jobA, faultsA, pg);
            && Returned(jobA, end.a) == Some(ab.outcomeA) == Some(ba.outcomeB)
            && Returned(jobB, end.b) == Some(ab.outcomeB) == Some(ba.outcomeA)
            && end.pg == ab.pg == ba.pg
  {
    var start := Two(Probing, 0, Probing, 0, pg);
    var end := Interleave(jobA, faultsA, jobB, faultsB, start, schedule);
    ScheduleKeepsEnds(jobA, faultsA, jobB, faultsB, start, schedule);
    assert Run(jobA, end.a, end.pg, faultsA, end.clockA).pg == end.pg;
    assert Run(jobB, end.b, end.pg, faultsB, end.clockB).pg == end.pg;
    SequentialEnds(jobA, faultsA, jobB, faultsB, pg);
    SequentialEnds(jobB, faultsB, jobA, faultsA, pg);
    JointlyDetermined(jobA, jobB, end.pg, OneAfterTheOther(jobA, faultsA, jobB, faultsB, pg).pg);
    JointlyDetermined(jobA, jobB, end.pg, OneAfterTheOther(jobB, faultsB, jobA, faultsA, pg).pg);
  }
}
