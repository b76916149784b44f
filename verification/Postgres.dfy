/**
 A Postgres instance as the plugin sees it, and SyncDatabase with its helpers
 checkUsers and createuser as a client of that instance. The client is a state
 machine that issues one statement a step, so that a run can fail at any statement
 and two runs can interleave.
 */
module Postgres {
  import opened Resources

  datatype Flags = Flags(createRole: bool, createDb: bool)

  const ADMIN_ROLE := Flags(true, true)
  const READ_ROLE := Flags(false, false)

  function RoleFlags(role: string): Option<Flags> {
    if role == "admin" then Some(ADMIN_ROLE)
    else if role == "read" then Some(READ_ROLE)
    else None
  }

  datatype Account = Account(password: string, flags: Flags)

  datatype Instance = Instance(dbs: set<string>, users: map<string, Account>)

  datatype Ddl =
    | CreateDatabase(db: string)
    | CreateUser(user: string, account: Account)
    | AlterFlags(user: string, flags: Flags)
    | AlterPassword(user: string, password: string)

  datatype Statement = SelectDatabase(db: string) | SelectUsers | Exec(ddl: Ddl)

  datatype Reply = Row(found: bool) | Rows(names: set<string>) | Completed | Refusal

  /**
   What can go wrong with one statement: it is refused, its effect takes place but the
   reply is lost, or the rows of a query end early without an error being reported.
   */
  datatype Fault = NoFault | Refused | LostReply | CutShort(hidden: set<string>)

  function Apply(pg: Instance, ddl: Ddl): Option<Instance> {
    match ddl
    case CreateDatabase(db) =>
      if db in pg.dbs then None else Some(pg.(dbs := pg.dbs + {db}))
    case CreateUser(user, account) =>
      if user in pg.users then None else Some(pg.(users := pg.users[user := account]))
    case AlterFlags(user, flags) =>
      if user !in pg.users then None
      else Some(pg.(users := pg.users[user := pg.users[user].(flags := flags)]))
    case AlterPassword(user, password) =>
      if user !in pg.users then None
      else Some(pg.(users := pg.users[user := pg.users[user].(password := password)]))
  }

  function Hidden(fault: Fault): set<string> {
    if fault.CutShort? then fault.hidden else {}
  }

  /** The instance's side of one statement: its new state and what it replies. */
  function Serve(pg: Instance, statement: Statement, fault: Fault): (Instance, Reply) {
    if fault.Refused? then (pg, Refusal)
    else
      match statement
      case SelectDatabase(db) =>
        (pg, if fault.LostReply? then Refusal else Row(db in pg.dbs - Hidden(fault)))
      case SelectUsers =>
        (pg, if fault.LostReply? then Refusal else Rows(pg.users.Keys - Hidden(fault)))
      case Exec(ddl) =>
        var applied := Apply(pg, ddl);
        if applied.None? then (pg, Refusal)
        else (applied.value, if fault.LostReply? then Refusal else Completed)
  }

  /** One call of SyncDatabase: the database name and the users with their passwords resolved. */
  datatype Job = Job(db: string, users: seq<DatabaseUser>)

  datatype SyncFailure = QueryFailed | StatementFailed(ddl: Ddl) | InvalidRole(user: string)

  datatype Outcome = Created | SuccessSynced | Failure(why: SyncFailure)

  /** Where a call stands. `seen` is the user table as it was read before the first user. */
  datatype Client =
    | Probing
    | CreatingDatabase
    | Listing
    | Creating(i: nat)
    | Checking(i: nat, seen: set<string>)
    | SettingPassword(i: nat, seen: set<string>)
    | Stopped(why: SyncFailure)

  function Flagged(user: DatabaseUser): Flags {
    if RoleFlags(user.role).Some? then RoleFlags(user.role).value else READ_ROLE
  }

  function AccountOf(user: DatabaseUser): Account {
    Account(user.password, Flagged(user))
  }

  predicate WellFormed(job: Job, c: Client) {
    match c
    case Creating(i) => i <= |job.users|
    case Checking(i, _) => i <= |job.users|
    case SettingPassword(i, _) => i < |job.users| && RoleFlags(job.users[i].role).Some?
    case _ => true
  }

  /** What the call returns once it needs no further statement. */
  function Returned(job: Job, c: Client): Option<Outcome>
    requires WellFormed(job, c)
  {
    match c
    case Stopped(why) => Some(Failure(why))
    case Creating(i) =>
      if i == |job.users| then Some(Created)
      else if RoleFlags(job.users[i].role).None? then Some(Failure(InvalidRole(job.users[i].name)))
      else None
    case Checking(i, _) =>
      if i == |job.users| then Some(SuccessSynced)
      else if RoleFlags(job.users[i].role).None? then Some(Failure(InvalidRole(job.users[i].name)))
      else None
    case _ => None
  }

  predicate Working(job: Job, c: Client) {
    WellFormed(job, c) && Returned(job, c).None?
  }

  function CreateUserOf(user: DatabaseUser): Ddl {
    CreateUser(user.name, AccountOf(user))
  }

  /** The next statement. */
  function Request(job: Job, c: Client): Statement
    requires Working(job, c)
  {
    match c
    case Probing => SelectDatabase(job.db)
    case CreatingDatabase => Exec(CreateDatabase(job.db))
    case Listing => SelectUsers
    case Creating(i) => Exec(CreateUserOf(job.users[i]))
    case Checking(i, seen) =>
      if job.users[i].name !in seen then Exec(CreateUserOf(job.users[i]))
      else Exec(AlterFlags(job.users[i].name, Flagged(job.users[i])))
    case SettingPassword(i, _) => Exec(AlterPassword(job.users[i].name, job.users[i].password))
  }

  predicate Answers(statement: Statement, reply: Reply) {
    reply.Refusal? ||
    match statement
    case SelectDatabase(_) => reply.Row?
    case SelectUsers => reply.Rows?
    case Exec(_) => reply.Completed?
  }

  /** An upper bound on the statements still to come. */
  function Rank(job: Job, c: Client): nat
    requires WellFormed(job, c)
  {
    match c
    case Probing => 2 * |job.users| + 3
    case CreatingDatabase => |job.users| + 2
    case Listing => 2 * |job.users| + 2
    case Creating(i) => |job.users| - i + 1
    case Checking(i, _) => 2 * (|job.users| - i) + 1
    case SettingPassword(i, _) => 2 * (|job.users| - i)
    case Stopped(_) => 0
  }

  /** The call's reaction to the reply. */
  function Advance(job: Job, c: Client, reply: Reply): (c': Client)
    requires Working(job, c) && Answers(Request(job, c), reply)
    ensures WellFormed(job, c') && Rank(job, c') < Rank(job, c)
  {
    var request := Request(job, c);
    if reply.Refusal? then Stopped(if request.Exec? then StatementFailed(request.ddl) else QueryFailed)
    else
      match c
      case Probing => if reply.found then Listing else CreatingDatabase
      case CreatingDatabase => Creating(0)
      case Listing => Checking(0, reply.names)
      case Creating(i) => Creating(i + 1)
      case Checking(i, seen) =>
        if job.users[i].name !in seen then Checking(i + 1, seen) else SettingPassword(i, seen)
      case SettingPassword(i, seen) => Checking(i + 1, seen)
  }

  lemma ServeAnswers(pg: Instance, statement: Statement, fault: Fault)
    ensures Answers(statement, Serve(pg, statement, fault).1)
  {}

  /** One statement of a call against an instance. */
  function Step(job: Job, c: Client, pg: Instance, fault: Fault): (r: (Client, Instance))
    requires Working(job, c)
    ensures WellFormed(job, r.0) && Rank(job, r.0) < Rank(job, c)
  {
    var (pg', reply) := Serve(pg, Request(job, c), fault);
    (Advance(job, c, reply), pg')
  }

  /** What befalls each statement of an instance's life, by its number. */
  type Faults = nat -> Fault

  datatype Finish = Finish(outcome: Outcome, pg: Instance, clock: nat)

  /** Runs a call to its end; `clock` numbers the statements. */
  function Run(job: Job, c: Client, pg: Instance, faults: Faults, clock: nat): Finish
    requires WellFormed(job, c)
    decreases Rank(job, c)
  {
    if Returned(job, c).Some? then Finish(Returned(job, c).value, pg, clock)
    else
      var (c', pg') := Step(job, c, pg, faults(clock));
      Run(job, c', pg', faults, clock + 1)
  }

  /** The rest of a run after one statement with a known reply. */
  lemma RunAdvances(job: Job, c: Client, pg: Instance, faults: Faults, clock: nat, pg': Instance, reply: Reply)
    requires Working(job, c) && Answers(Request(job, c), reply)
    requires (pg', reply) == Serve(pg, Request(job, c), faults(clock))
    ensures Run(job, c, pg, faults, clock) == Run(job, Advance(job, c, reply), pg', faults, clock + 1)
  {}

  /** A whole call of SyncDatabase. */
  function SyncDatabase(job: Job, pg: Instance, faults: Faults, clock: nat): Finish {
    Run(job, Probing, pg, faults, clock)
  }

  function Names(users: seq<DatabaseUser>): set<string> {
    set u | u in users :: u.name
  }

  predicate ValidRoles(users: seq<DatabaseUser>) {
    forall i :: 0 <= i < |users| ==> RoleFlags(users[i].role).Some?
  }
}
