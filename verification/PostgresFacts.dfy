/**
 What a call of SyncDatabase achieves and what it leaves alone, for every initial
 instance and every pattern of faults; when it fails, and how often it can.
 */
module PostgresFacts {
  import opened Resources
  import opened Postgres

  /** There are two roles. */
  lemma ValidMeansAdminOrRead(users: seq<DatabaseUser>)
    ensures ValidRoles(users) <==> forall i :: 0 <= i < |users| ==> users[i].role == "admin" || users[i].role == "read"
  {
    forall i | 0 <= i < |users|
      ensures RoleFlags(users[i].role).Some? <==> users[i].role == "admin" || users[i].role == "read"
    {}
  }

  /** The accounts a user list asks for; a later entry for the same name overrides an earlier one. */
  function Desired(users: seq<DatabaseUser>): map<string, Account> {
    if users == [] then map[]
    else
      var last := users[|users| - 1];
      Desired(users[..|users| - 1])[last.name := AccountOf(last)]
  }

  ghost predicate IsLastOf(users: seq<DatabaseUser>, j: nat, name: string) {
    j < |users| && users[j].name == name && forall k :: j < k < |users| ==> users[k].name != name
  }

  /** The account asked for under a name is that of the last entry with the name. */
  lemma {:induction false} DesiredIsLast(users: seq<DatabaseUser>, name: string)
    ensures Desired(users).Keys == Names(users)
    ensures forall j: nat :: IsLastOf(users, j, name) ==> Desired(users)[name] == AccountOf(users[j])
    ensures name in Names(users) ==> exists j: nat :: IsLastOf(users, j, name)
  {
    if users != [] {
      var n := |users| - 1;
      var front, last := users[..n], users[n];
      DesiredIsLast(front, name);
      assert users == front + [last];
      forall x ensures x in Names(users) <==> x in Names(front) || x == last.name {}
      if last.name == name {
        assert IsLastOf(users, n, name);
      } else {
        forall j: nat | IsLastOf(users, j, name) ensures Desired(users)[name] == AccountOf(users[j]) {
          assert IsLastOf(front, j, name);
        }
        if name in Names(users) {
          var j: nat :| IsLastOf(front, j, name);
          assert IsLastOf(users, j, name);
        }
      }
    }
  }

  ghost predicate HasAll(pg: Instance, wanted: map<string, Account>) {
    forall name :: name in wanted ==> name in pg.users && pg.users[name] == wanted[name]
  }

  /** The instance holds the database and every user as asked for. */
  ghost predicate Established(job: Job, pg: Instance) {
    job.db in pg.dbs && HasAll(pg, Desired(job.users))
  }

  /** The user a call is at. */
  function Position(c: Client): nat {
    match c
    case Creating(i) => i
    case Checking(i, _) => i
    case SettingPassword(i, _) => i
    case _ => 0
  }

  /** What a call knows to hold between two of its statements. */
  ghost predicate Progress(job: Job, c: Client, pg: Instance) {
    WellFormed(job, c) &&
    match c
    case Probing => true
    case CreatingDatabase => true
    case Stopped(_) => true
    case Listing => job.db in pg.dbs
    case Creating(i) =>
      job.db in pg.dbs && ValidRoles(job.users[..i]) && HasAll(pg, Desired(job.users[..i]))
    case Checking(i, _) =>
      job.db in pg.dbs && ValidRoles(job.users[..i]) && HasAll(pg, Desired(job.users[..i]))
    case SettingPassword(i, _) =>
      var user := job.users[i];
      job.db in pg.dbs && ValidRoles(job.users[..i]) &&
      HasAll(pg, Desired(job.users[..i]) - {user.name}) &&
      user.name in pg.users && pg.users[user.name].flags == Flagged(user)
  }

  lemma DesiredExtends(users: seq<DatabaseUser>, i: nat)
    requires i < |users|
    ensures Desired(users[..i + 1]) == Desired(users[..i])[users[i].name := AccountOf(users[i])]
  {
    assert users[..i + 1][..i] == users[..i];
  }

  /** Once the next user's account is as asked for, one more user is done. */
  lemma OneMoreUser(users: seq<DatabaseUser>, i: nat, pg: Instance)
    requires i < |users| && ValidRoles(users[..i]) && RoleFlags(users[i].role).Some?
    requires HasAll(pg, Desired(users[..i]) - {users[i].name})
    requires users[i].name in pg.users && pg.users[users[i].name] == AccountOf(users[i])
    ensures ValidRoles(users[..i + 1]) && HasAll(pg, Desired(users[..i + 1]))
  {
    DesiredExtends(users, i);
  }

  lemma UserStepKeepsProgress(job: Job, c: Client, pg: Instance, fault: Fault)
    requires Working(job, c) && Progress(job, c, pg)
    requires c.Creating? || c.Checking? || c.SettingPassword?
    ensures var (c', pg') := Step(job, c, pg, fault); Progress(job, c', pg')
  {
    var (c', pg') := Step(job, c, pg, fault);
    var i := Position(c);
    var user, done := job.users[i], Desired(job.users[..i]) - {job.users[i].name};
    if !c'.Stopped? {
      assert HasAll(pg, done);
      assert forall name :: name in done ==> name in pg'.users && pg'.users[name] == pg.users[name];
      assert HasAll(pg', done);
      if !c'.SettingPassword? { OneMoreUser(job.users, i, pg'); }
    }
  }

  lemma StepKeepsProgress(job: Job, c: Client, pg: Instance, fault: Fault)
    requires Working(job, c) && Progress(job, c, pg)
    ensures var (c', pg') := Step(job, c, pg, fault); Progress(job, c', pg')
  {
    if c.Creating? || c.Checking? || c.SettingPassword? {
      UserStepKeepsProgress(job, c, pg, fault);
    }
  }

  /** Nothing a call relies on changes: its database stays, its users are the same. */
  ghost predicate Undisturbed(job: Job, pg: Instance, pg': Instance) {
    (job.db in pg.dbs ==> job.db in pg'.dbs) &&
    forall name :: name in Names(job.users) ==>
      (name in pg.users <==> name in pg'.users) && (name in pg.users ==> pg.users[name] == pg'.users[name])
  }

  lemma DesiredAreNames(users: seq<DatabaseUser>, i: nat)
    requires i <= |users|
    ensures Desired(users[..i]).Keys <= Names(users)
    ensures Desired(users).Keys == Names(users)
  {
    DesiredIsLast(users[..i], "");
    DesiredIsLast(users, "");
  }

  /** Steps of others that leave a call's own names alone do not undo its progress. */
  lemma ProgressIsStable(job: Job, c: Client, pg: Instance, pg': Instance)
    requires Progress(job, c, pg) && Undisturbed(job, pg, pg')
    ensures Progress(job, c, pg')
  {
    match c
    case Creating(i) => DesiredAreNames(job.users, i);
    case Checking(i, _) => DesiredAreNames(job.users, i);
    case SettingPassword(i, _) =>
      DesiredAreNames(job.users, i);
      assert job.users[i].name in Names(job.users);
    case _ =>
  }

  lemma ProgressAtSuccess(job: Job, c: Client, pg: Instance)
    requires Progress(job, c, pg)
    requires Returned(job, c).Some? && !Returned(job, c).value.Failure?
    ensures Established(job, pg) && ValidRoles(job.users)
  {
    assert job.users[..|job.users|] == job.users;
  }

  lemma {:induction false} RunEstablishes(job: Job, c: Client, pg: Instance, faults: Faults, clock: nat)
    requires Progress(job, c, pg)
    ensures var end := Run(job, c, pg, faults, clock);
            !end.outcome.Failure? ==> Established(job, end.pg) && ValidRoles(job.users)
    decreases Rank(job, c)
  {
    if Returned(job, c).Some? {
      if !Returned(job, c).value.Failure? { ProgressAtSuccess(job, c, pg); }
    } else {
      var (c', pg') := Step(job, c, pg, faults(clock));
      StepKeepsProgress(job, c, pg, faults(clock));
      RunEstablishes(job, c', pg', faults, clock + 1);
    }
  }

  /**
   A call that succeeds leaves every listed name with the password of its last entry and the
   rights of that entry's role, whatever the instance held before and whatever faults the call
   met: an admin may create roles and databases, a reader neither, and there is no other role.
   */
  lemma SuccessEstablishes(job: Job, pg: Instance, faults: Faults, clock: nat)
    ensures var end := SyncDatabase(job, pg, faults, clock);
            !end.outcome.Failure? ==>
              job.db in end.pg.dbs &&
              (forall j :: 0 <= j < |job.users| ==> job.users[j].role == "admin" || job.users[j].role == "read") &&
              forall j: nat :: j < |job.users| && IsLastOf(job.users, j, job.users[j].name) ==>
                var user := job.users[j];
                user.name in end.pg.users && end.pg.users[user.name].password == user.password &&
                end.pg.users[user.name].flags == if user.role == "admin" then Flags(true, true) else Flags(false, false)
  {
    RunEstablishes(job, Probing, pg, faults, clock);
    forall j: nat | j < |job.users| && IsLastOf(job.users, j, job.users[j].name)
      ensures job.users[j].name in Desired(job.users)
      ensures Desired(job.users)[job.users[j].name] == AccountOf(job.users[j])
    {
      DesiredIsLast(job.users, job.users[j].name);
    }
  }

  /** The instance after a number of calls, each with its own faults. */
  function AfterCalls(job: Job, pg: Instance, calls: seq<Faults>): Instance
    decreases |calls|
  {
    if calls == [] then pg
    else AfterCalls(job, SyncDatabase(job, pg, calls[0], 0).pg, calls[1..])
  }

  /**
   Confluence: two histories may start from different instances and meet different faults;
   if the last call of each succeeds, the instances agree on everything the job names.
   */
  lemma Confluence(job: Job, pg1: Instance, earlier1: seq<Faults>, last1: Faults,
                   pg2: Instance, earlier2: seq<Faults>, last2: Faults)
    requires !SyncDatabase(job, AfterCalls(job, pg1, earlier1), last1, 0).outcome.Failure?
    requires !SyncDatabase(job, AfterCalls(job, pg2, earlier2), last2, 0).outcome.Failure?
    ensures var end1 := SyncDatabase(job, AfterCalls(job, pg1, earlier1), last1, 0).pg;
            var end2 := SyncDatabase(job, AfterCalls(job, pg2, earlier2), last2, 0).pg;
            && job.db in end1.dbs && job.db in end2.dbs
            && forall name :: name in Names(job.users) ==>
                 name in end1.users && name in end2.users && end1.users[name] == end2.users[name]
  {
    RunEstablishes(job, Probing, AfterCalls(job, pg1, earlier1), last1, 0);
    RunEstablishes(job, Probing, AfterCalls(job, pg2, earlier2), last2, 0);
    DesiredIsLast(job.users, "");
  }

  /** How many leading users have a valid role: the ones a call can get to. */
  function Reachable(users: seq<DatabaseUser>): (n: nat)
    ensures n <= |users| && ValidRoles(users[..n])
    ensures n < |users| ==> RoleFlags(users[n].role).None?
  {
    if users == [] || RoleFlags(users[0].role).None? then 0
    else
      var n := 1 + Reachable(users[1..]);
      assert users[..n] == [users[0]] + users[1..][..n - 1];
      n
  }

  /** What `pg'` may differ from `pg` in: the job's database, and users before the first invalid role. */
  ghost predicate WithinFrame(job: Job, pg: Instance, pg': Instance) {
    pg.dbs <= pg'.dbs <= pg.dbs + {job.db} &&
    pg.users.Keys <= pg'.users.Keys &&
    forall name :: name !in Names(job.users[..Reachable(job.users)]) ==>
      (name in pg.users <==> name in pg'.users) && (name in pg.users ==> pg.users[name] == pg'.users[name])
  }

  /** The statement names nothing but the job's database and the users a call can get to. */
  ghost predicate Permitted(job: Job, request: Statement) {
    request.Exec? ==>
      if request.ddl.CreateDatabase? then request.ddl.db == job.db
      else request.ddl.user in Names(job.users[..Reachable(job.users)])
  }

  lemma RequestIsPermitted(job: Job, c: Client)
    requires Working(job, c) && Position(c) <= Reachable(job.users)
    ensures Permitted(job, Request(job, c))
  {
    var n, i := Reachable(job.users), Position(c);
    if c.Creating? || c.Checking? || c.SettingPassword? {
      assert i < n;
      assert job.users[..n][i].name in Names(job.users[..n]);
    }
  }

  lemma ServeFrame(job: Job, pg: Instance, request: Statement, fault: Fault)
    requires Permitted(job, request)
    ensures WithinFrame(job, pg, Serve(pg, request, fault).0)
  {}

  lemma StepFrame(job: Job, c: Client, pg: Instance, fault: Fault)
    requires Working(job, c) && Position(c) <= Reachable(job.users)
    ensures WithinFrame(job, pg, Step(job, c, pg, fault).1)
    ensures Position(Step(job, c, pg, fault).0) <= Reachable(job.users)
  {
    RequestIsPermitted(job, c);
    ServeFrame(job, pg, Request(job, c), fault);
  }

  /**
   Frame: in every call, successful or not, users outside the list are unchanged, no user
   and no database is removed, and users listed only after an invalid role are not touched.
   */
  lemma {:induction false} CallFrame(job: Job, c: Client, pg: Instance, faults: Faults, clock: nat)
    requires WellFormed(job, c) && Position(c) <= Reachable(job.users)
    ensures WithinFrame(job, pg, Run(job, c, pg, faults, clock).pg)
    decreases Rank(job, c)
  {
    if Returned(job, c).None? {
      var (c', pg') := Step(job, c, pg, faults(clock));
      StepFrame(job, c, pg, faults(clock));
      CallFrame(job, c', pg', faults, clock + 1);
    }
  }

  /** The work left: the database and the listed names the instance does not have yet. */
  function Missing(job: Job, pg: Instance): nat {
    (if job.db in pg.dbs then 0 else 1) + |Names(job.users) - pg.users.Keys|
  }

  lemma SubsetSize<T>(a: set<T>, b: set<T>)
    requires a <= b
    ensures |a| <= |b|
    ensures a != b ==> |a| < |b|
  {
    var rest := b - a;
    assert b == a + rest;
    assert a != b ==> rest != {};
  }

  lemma MissingShrinks(job: Job, pg: Instance, pg': Instance)
    requires pg.dbs <= pg'.dbs && pg.users.Keys <= pg'.users.Keys
    ensures Missing(job, pg') <= Missing(job, pg)
    ensures job.db !in pg.dbs && job.db in pg'.dbs ==> Missing(job, pg') < Missing(job, pg)
    ensures (exists name :: name in Names(job.users) && name !in pg.users && name in pg'.users) ==>
              Missing(job, pg') < Missing(job, pg)
  {
    SubsetSize(Names(job.users) - pg'.users.Keys, Names(job.users) - pg.users.Keys);
  }

  /** No fault makes more work: whatever happens to a call, what was there stays there. */
  lemma MissingNeverGrows(job: Job, pg: Instance, faults: Faults, clock: nat)
    ensures Missing(job, SyncDatabase(job, pg, faults, clock).pg) <= Missing(job, pg)
  {
    CallFrame(job, Probing, pg, faults, clock);
    MissingShrinks(job, pg, SyncDatabase(job, pg, faults, clock).pg);
  }

  const FAULTLESS: Faults := _ => NoFault

  /**
   Whether the user at `i` cannot be created: its name is there before the call although
   every user is created anew, or it is not there and listed more than once.
   */
  ghost predicate Clash(job: Job, pg: Instance, i: nat)
    requires i < |job.users|
  {
    var name := job.users[i].name;
    if name in pg.users then job.db !in pg.dbs else name in Names(job.users[..i])
  }

  /**
   The calls that cannot go through in one go, in terms of the instance before the call:
   creating the database creates every user anew, otherwise only those not yet there.
   */
  ghost predicate Blocked(job: Job, pg: Instance) {
    exists i: nat :: i < |job.users| && Clash(job, pg, i)
  }

  /** A user that clashes is there by now, whether it was there before or came with an earlier entry. */
  ghost predicate StoppedByClash(job: Job, start: Instance, pg: Instance) {
    job.db in pg.dbs && start.users.Keys <= pg.users.Keys &&
    exists i: nat :: i < |job.users| && Clash(job, start, i) && job.users[i].name in pg.users
  }

  /** The first `i` users are there and none of them clashed. */
  ghost predicate DoneSoFar(job: Job, start: Instance, i: nat, pg: Instance)
    requires i <= |job.users|
  {
    pg.users.Keys == start.users.Keys + Names(job.users[..i]) && forall j: nat :: j < i ==> !Clash(job, start, j)
  }

  /** What holds during a faultless call that started at `start`. */
  ghost predicate Undamaged(job: Job, start: Instance, c: Client, pg: Instance) {
    WellFormed(job, c) &&
    match c
    case Probing => pg == start
    case CreatingDatabase => pg == start && job.db !in start.dbs
    case Listing => pg == start && job.db in start.dbs
    case Creating(i) =>
      job.db !in start.dbs && job.db in pg.dbs && DoneSoFar(job, start, i, pg)
    case Checking(i, seen) =>
      job.db in start.dbs && job.db in pg.dbs && seen == start.users.Keys && DoneSoFar(job, start, i, pg)
    case SettingPassword(i, seen) =>
      job.db in start.dbs && job.db in pg.dbs && seen == start.users.Keys && job.users[i].name in seen &&
      DoneSoFar(job, start, i, pg)
    case Stopped(_) => StoppedByClash(job, start, pg)
  }

  lemma OneMoreDone(job: Job, start: Instance, i: nat, pg: Instance, pg': Instance)
    requires i < |job.users| && DoneSoFar(job, start, i, pg) && !Clash(job, start, i)
    requires pg'.users.Keys == pg.users.Keys + {job.users[i].name}
    ensures DoneSoFar(job, start, i + 1, pg')
  {
    assert job.users[..i + 1] == job.users[..i] + [job.users[i]];
  }

  lemma DatabaseAdded(job: Job, start: Instance, pg: Instance)
    requires job.db !in start.dbs && job.db in pg.dbs && start.users.Keys <= pg.users.Keys
    ensures Missing(job, pg) < Missing(job, start)
  {
    SubsetSize(Names(job.users) - pg.users.Keys, Names(job.users) - start.users.Keys);
  }

  lemma NameAdded(job: Job, start: Instance, pg: Instance, name: string)
    requires job.db in start.dbs ==> job.db in pg.dbs
    requires start.users.Keys <= pg.users.Keys
    requires name in Names(job.users) && name !in start.users && name in pg.users
    ensures Missing(job, pg) < Missing(job, start)
  {
    assert name in Names(job.users) - start.users.Keys;
    SubsetSize(Names(job.users) - pg.users.Keys, Names(job.users) - start.users.Keys);
  }

  lemma ClashStops(job: Job, start: Instance, pg: Instance)
    requires StoppedByClash(job, start, pg)
    ensures Blocked(job, start) && Missing(job, pg) < Missing(job, start)
  {
    var i: nat :| i < |job.users| && Clash(job, start, i) && job.users[i].name in pg.users;
    assert job.users[i].name in Names(job.users);
    if job.db !in start.dbs { DatabaseAdded(job, start, pg); } else { NameAdded(job, start, pg, job.users[i].name); }
  }

  /** A user that does not clash can be created; creating one that does stops the call. */
  lemma CreateDoneSoFar(job: Job, start: Instance, i: nat, pg: Instance, pg': Instance)
    requires i < |job.users| && DoneSoFar(job, start, i, pg) && job.db in pg.dbs
    requires job.users[i].name in start.users ==> job.db !in start.dbs
    requires job.users[i].name in pg.users ==> pg' == pg
    requires job.users[i].name !in pg.users ==> pg'.users.Keys == pg.users.Keys + {job.users[i].name}
    ensures if job.users[i].name in pg.users then StoppedByClash(job, start, pg') else DoneSoFar(job, start, i + 1, pg')
  {
    if job.users[i].name in pg.users {
      assert Clash(job, start, i);
    } else {
      OneMoreDone(job, start, i, pg, pg');
    }
  }

  lemma CreateKeepsUndamaged(job: Job, start: Instance, c: Client, pg: Instance)
    requires ValidRoles(job.users) && Working(job, c) && Undamaged(job, start, c, pg)
    requires c.Creating? || (c.Checking? && job.users[c.i].name !in c.seen)
    ensures Undamaged(job, start, Step(job, c, pg, NoFault).0, Step(job, c, pg, NoFault).1)
  {
    CreateDoneSoFar(job, start, c.i, pg, Step(job, c, pg, NoFault).1);
  }

  lemma AlterKeepsUndamaged(job: Job, start: Instance, c: Client, pg: Instance)
    requires ValidRoles(job.users) && Working(job, c) && Undamaged(job, start, c, pg)
    requires c.SettingPassword? || (c.Checking? && job.users[c.i].name in c.seen)
    ensures Undamaged(job, start, Step(job, c, pg, NoFault).0, Step(job, c, pg, NoFault).1)
  {
    var pg' := Step(job, c, pg, NoFault).1;
    assert job.users[c.i].name in pg.users;
    assert pg'.users.Keys == pg.users.Keys;
    if c.SettingPassword? { OneMoreDone(job, start, c.i, pg, pg'); }
  }

  lemma NoneDone(job: Job, start: Instance, pg: Instance)
    requires pg.users.Keys == start.users.Keys
    ensures DoneSoFar(job, start, 0, pg)
  {
    assert Names(job.users[..0]) == {};
  }

  lemma OpeningKeepsUndamaged(job: Job, start: Instance, c: Client, pg: Instance)
    requires Working(job, c) && Undamaged(job, start, c, pg)
    requires c.Probing? || c.CreatingDatabase? || c.Listing?
    ensures Undamaged(job, start, Step(job, c, pg, NoFault).0, Step(job, c, pg, NoFault).1)
  {
    NoneDone(job, start, Step(job, c, pg, NoFault).1);
    match c
    case Probing =>
    case CreatingDatabase => assert Step(job, c, pg, NoFault).0 == Creating(0);
    case Listing => assert Step(job, c, pg, NoFault).0 == Checking(0, start.users.Keys);
  }

  lemma StepKeepsUndamaged(job: Job, start: Instance, c: Client, pg: Instance)
    requires ValidRoles(job.users) && Working(job, c) && Undamaged(job, start, c, pg)
    ensures Undamaged(job, start, Step(job, c, pg, NoFault).0, Step(job, c, pg, NoFault).1)
  {
    match c
    case Creating(i) => CreateKeepsUndamaged(job, start, c, pg);
    case Checking(i, seen) =>
      if job.users[i].name in seen {
        AlterKeepsUndamaged(job, start, c, pg);
      } else {
        CreateKeepsUndamaged(job, start, c, pg);
      }
    case SettingPassword(_, _) => AlterKeepsUndamaged(job, start, c, pg);
    case _ => OpeningKeepsUndamaged(job, start, c, pg);
  }

  lemma {:induction false} FaultlessRun(job: Job, start: Instance, c: Client, pg: Instance, clock: nat)
    requires ValidRoles(job.users) && Undamaged(job, start, c, pg)
    ensures var end := Run(job, c, pg, FAULTLESS, clock);
            if end.outcome.Failure? then Blocked(job, start) && Missing(job, end.pg) < Missing(job, start)
            else !Blocked(job, start) && (end.outcome.Created? <==> job.db !in start.dbs)
    decreases Rank(job, c)
  {
    if c.Stopped? {
      ClashStops(job, start, pg);
    } else if Returned(job, c).None? {
      var (c', pg') := Step(job, c, pg, FAULTLESS(clock));
      StepKeepsUndamaged(job, start, c, pg);
      FaultlessRun(job, start, c', pg', clock + 1);
    }
  }

  /**
   Without faults and with valid roles, a call fails exactly when some user cannot be
   created; it reports Created exactly when the database was not there.
   */
  lemma FailsIffBlocked(job: Job, pg: Instance, clock: nat)
    requires ValidRoles(job.users)
    ensures var end := SyncDatabase(job, pg, FAULTLESS, clock);
            && (end.outcome.Failure? <==> Blocked(job, pg))
            && (!end.outcome.Failure? ==> (end.outcome.Created? <==> job.db !in pg.dbs))
            && (end.outcome.Failure? ==> Missing(job, end.pg) < Missing(job, pg))
  {
    FaultlessRun(job, pg, Probing, pg, clock);
  }

  lemma OneCall(job: Job, pg: Instance)
    requires ValidRoles(job.users)
    ensures var end := SyncDatabase(job, pg, FAULTLESS, 0);
            Missing(job, end.pg) + (if end.outcome.Failure? then 1 else 0) <= Missing(job, pg)
  {
    FailsIffBlocked(job, pg, 0);
    MissingNeverGrows(job, pg, FAULTLESS, 0);
  }

  /** How many of the next `n` faultless calls fail. */
  function Failures(job: Job, pg: Instance, n: nat): nat
    decreases n
  {
    if n == 0 then 0
    else
      var end := SyncDatabase(job, pg, FAULTLESS, 0);
      (if end.outcome.Failure? then 1 else 0) + Failures(job, end.pg, n - 1)
  }

  /**
   Convergence: with valid roles, the faultless calls that fail are at most as many as the
   things missing at the start, even with names listed twice.
   */
  lemma {:induction false} Convergence(job: Job, pg: Instance, n: nat)
    requires ValidRoles(job.users)
    ensures Failures(job, pg, n) <= Missing(job, pg)
    decreases n
  {
    if n > 0 {
      OneCall(job, pg);
      Convergence(job, SyncDatabase(job, pg, FAULTLESS, 0).pg, n - 1);
    }
  }

  ghost predicate UniqueNames(users: seq<DatabaseUser>) {
    forall i, j :: 0 <= i < j < |users| ==> users[i].name != users[j].name
  }

  /** The user a call is at has its account already. */
  lemma AccountInPlace(job: Job, i: nat, pg: Instance)
    requires i < |job.users| && Established(job, pg) && UniqueNames(job.users)
    ensures job.users[i].name in pg.users && pg.users[job.users[i].name] == AccountOf(job.users[i])
  {
    var user := job.users[i];
    assert IsLastOf(job.users, i, user.name);
    assert user.name in Names(job.users);
    DesiredIsLast(job.users, user.name);
  }

  /** With unique names, everybody on the list has the password asked for and the rights of the role. */
  lemma UsersInPlace(job: Job, pg: Instance)
    requires Established(job, pg) && UniqueNames(job.users)
    ensures forall user :: user in job.users ==>
              user.name in pg.users && pg.users[user.name].password == user.password &&
              pg.users[user.name].flags == if user.role == "admin" then Flags(true, true) else Flags(false, false)
  {
    forall i: nat | i < |job.users|
      ensures job.users[i].name in pg.users && pg.users[job.users[i].name] == AccountOf(job.users[i])
    {
      AccountInPlace(job, i, pg);
    }
  }

  /** Where everything is in place already, a call with unique names changes nothing the job names. */
  lemma StepOnEstablished(job: Job, c: Client, pg: Instance, fault: Fault)
    requires Working(job, c) && Established(job, pg) && UniqueNames(job.users)
    ensures Step(job, c, pg, fault).1 == pg
  {
    if c.Creating? || c.Checking? || c.SettingPassword? {
      var name := job.users[Position(c)].name;
      AccountInPlace(job, Position(c), pg);
      assert pg.users[name := pg.users[name]] == pg.users;
    }
  }

  /** A call that finds everything in place is idempotent, whatever faults it meets. */
  lemma {:induction false} EstablishedIsFixed(job: Job, c: Client, pg: Instance, faults: Faults, clock: nat)
    requires WellFormed(job, c) && Established(job, pg) && UniqueNames(job.users)
    ensures Run(job, c, pg, faults, clock).pg == pg
    decreases Rank(job, c)
  {
    if Returned(job, c).None? {
      var (c', pg') := Step(job, c, pg, faults(clock));
      StepOnEstablished(job, c, pg, faults(clock));
      EstablishedIsFixed(job, c', pg', faults, clock + 1);
    }
  }
}
