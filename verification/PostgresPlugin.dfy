/**
 SyncDatabase, checkUsers and createuser as the plugin runs them: statements are executed
 one at a time against a mutable instance, and each error ends the call. Every method is
 proved to do what the client machine of module Postgres does, statement for statement.
 */
module PostgresPlugin {
  import opened Resources
  import opened Postgres
  import opened PostgresFacts

  /** An open connection to an instance. */
  class Connection {
    var dbs: set<string>
    var users: map<string, Account>
    var clock: nat
    const faults: Faults

    constructor (pg: Instance, faults: Faults, clock: nat)
      ensures Pg() == pg && this.clock == clock && this.faults == faults
    {
      this.dbs, this.users, this.clock, this.faults := pg.dbs, pg.users, clock, faults;
    }

    ghost function Pg(): Instance
      reads this
    {
      Instance(dbs, users)
    }

    method Exec(ddl: Ddl) returns (ok: bool)
      modifies this
      ensures (Pg(), if ok then Completed else Refusal) == Serve(old(Pg()), Statement.Exec(ddl), faults(old(clock)))
      ensures clock == old(clock) + 1
    {
      var fault := faults(clock);
      clock := clock + 1;
      if fault.Refused? { return false; }
      var applied := Apply(Instance(dbs, users), ddl);
      if applied.None? { return false; }
      dbs, users := applied.value.dbs, applied.value.users;
      ok := !fault.LostReply?;
    }

    /** Whether the database is listed; None when the query fails. */
    method QueryDatabase(db: string) returns (found: Option<bool>)
      modifies this`clock
      ensures (Pg(), if found.Some? then Row(found.value) else Refusal) ==
              Serve(old(Pg()), SelectDatabase(db), faults(old(clock)))
      ensures clock == old(clock) + 1
    {
      var fault := faults(clock);
      clock := clock + 1;
      found := if fault.Refused? || fault.LostReply? then None else Some(db in dbs - Hidden(fault));
    }

    /** The rows of the user table in some order; None when the query fails. */
    method QueryUsers() returns (rows: Option<seq<string>>)
      modifies this`clock
      ensures (Pg(), if rows.Some? then Rows(set row | row in rows.value) else Refusal) ==
              Serve(old(Pg()), SelectUsers, faults(old(clock)))
      ensures clock == old(clock) + 1
    {
      var fault := faults(clock);
      clock := clock + 1;
      if fault.Refused? || fault.LostReply? { return None; }
      var left, names := users.Keys - Hidden(fault), [];
      ghost var all := left;
      while left != {}
        invariant all == left + set name | name in names
      {
        var name :| name in left;
        left, names := left - {name}, names + [name];
      }
      assert (set row | row in names) == all;
      rows := Some(names);
    }
  }

  /** The error of the failed statement, if it failed. */
  function ErrorOf(ok: bool, ddl: Ddl): Option<SyncFailure> {
    if ok then None else Some(StatementFailed(ddl))
  }

  /** The rights of the two roles, written out; there is no third. */
  ghost predicate Grants(role: string, flags: Flags) {
    (role == "admin" && flags == Flags(true, true)) || (role == "read" && flags == Flags(false, false))
  }

  method CreateUser(name: string, role: string, password: string, conn: Connection) returns (err: Option<SyncFailure>)
    modifies conn
    ensures role != "admin" && role != "read" ==>
              err == Some(InvalidRole(name)) && conn.Pg() == old(conn.Pg()) && conn.clock == old(conn.clock)
    ensures forall flags :: Grants(role, flags) ==>
              var ddl := Ddl.CreateUser(name, Account(password, flags));
              var (pg, reply) := Serve(old(conn.Pg()), Exec(ddl), conn.faults(old(conn.clock)));
              && conn.Pg() == pg && conn.clock == old(conn.clock) + 1
              && err == if reply.Completed? then None else Some(StatementFailed(ddl))
  {
    if role == "admin" {
      var ddl := Ddl.CreateUser(name, Account(password, ADMIN_ROLE));
      var ok := conn.Exec(ddl);
      return ErrorOf(ok, ddl);
    } else if role == "read" {
      var ddl := Ddl.CreateUser(name, Account(password, READ_ROLE));
      var ok := conn.Exec(ddl);
      return ErrorOf(ok, ddl);
    } else {
      return Some(InvalidRole(name));
    }
  }

  function OutcomeOf(err: Option<SyncFailure>, success: Outcome): Outcome {
    if err.Some? then Failure(err.value) else success
  }

  /** Gives a user that is there already the flags of its role. */
  method AlterRole(ghost job: Job, ghost i: nat, ghost seen: set<string>, user: DatabaseUser, conn: Connection)
    returns (err: Option<SyncFailure>)
    requires i < |job.users| && user == job.users[i] && user.name in seen
    modifies conn
    ensures var whole := Run(job, Checking(i, seen), old(conn.Pg()), conn.faults, old(conn.clock));
            if err.Some? then Finish(Failure(err.value), conn.Pg(), conn.clock) == whole
            else RoleFlags(user.role).Some? &&
                 Run(job, SettingPassword(i, seen), conn.Pg(), conn.faults, conn.clock) == whole
    ensures err.None? ==> user.name in conn.Pg().users && Grants(user.role, conn.Pg().users[user.name].flags)
  {
    var flags;
    if user.role == "admin" {
      flags := ADMIN_ROLE;
    } else if user.role == "read" {
      flags := READ_ROLE;
    } else {
      return Some(InvalidRole(user.name));
    }
    var ok := conn.Exec(AlterFlags(user.name, flags));
    RunAdvances(job, Checking(i, seen), old(conn.Pg()), conn.faults, old(conn.clock), conn.Pg(),
                if ok then Completed else Refusal);
    err := ErrorOf(ok, AlterFlags(user.name, flags));
  }

  method AlterUser(ghost job: Job, ghost i: nat, ghost seen: set<string>, user: DatabaseUser, conn: Connection)
    returns (err: Option<SyncFailure>)
    requires i < |job.users| && user == job.users[i] && user.name in seen
    modifies conn
    ensures var whole := Run(job, Checking(i, seen), old(conn.Pg()), conn.faults, old(conn.clock));
            if err.Some? then Finish(Failure(err.value), conn.Pg(), conn.clock) == whole
            else Run(job, Checking(i + 1, seen), conn.Pg(), conn.faults, conn.clock) == whole
    ensures err.None? ==>
              user.name in conn.Pg().users && conn.Pg().users[user.name].password == user.password &&
              Grants(user.role, conn.Pg().users[user.name].flags)
  {
    err := AlterRole(job, i, seen, user, conn);
    if err.Some? { return; }
    label setting:
    var ok := conn.Exec(AlterPassword(user.name, user.password));
    RunAdvances(job, SettingPassword(i, seen), old@setting(conn.Pg()), conn.faults, old@setting(conn.clock), conn.Pg(),
                if ok then Completed else Refusal);
    err := ErrorOf(ok, AlterPassword(user.name, user.password));
  }

  function NextUser(c: Client): Client
    requires c.Creating? || c.Checking?
  {
    if c.Creating? then Creating(c.i + 1) else Checking(c.i + 1, c.seen)
  }

  /** What happens to a user that is not there yet; `c` says which of the two callers it is. */
  method AddUser(ghost job: Job, ghost c: Client, user: DatabaseUser, conn: Connection) returns (err: Option<SyncFailure>)
    requires WellFormed(job, c) && Position(c) < |job.users| && user == job.users[Position(c)]
    requires c.Creating? || (c.Checking? && user.name !in c.seen)
    modifies conn
    ensures var whole := Run(job, c, old(conn.Pg()), conn.faults, old(conn.clock));
            if err.Some? then Finish(Failure(err.value), conn.Pg(), conn.clock) == whole
            else Run(job, NextUser(c), conn.Pg(), conn.faults, conn.clock) == whole
  {
    err := CreateUser(user.name, user.role, user.password, conn);
    if RoleFlags(user.role).Some? {
      RunAdvances(job, c, old(conn.Pg()), conn.faults, old(conn.clock), conn.Pg(),
                  if err.None? then Completed else Refusal);
    }
  }

  method CheckUsers(job: Job, conn: Connection) returns (err: Option<SyncFailure>)
    modifies conn
    ensures Finish(OutcomeOf(err, SuccessSynced), conn.Pg(), conn.clock) ==
            Run(job, Listing, old(conn.Pg()), conn.faults, old(conn.clock))
  {
    var rows := conn.QueryUsers();
    RunAdvances(job, Listing, old(conn.Pg()), conn.faults, old(conn.clock), conn.Pg(),
                if rows.Some? then Rows(set row | row in rows.value) else Refusal);
    if rows.None? { return Some(QueryFailed); }
    var dbUserMap: map<string, string> := map[];
    for k := 0 to |rows.value|
      invariant dbUserMap.Keys == set row | row in rows.value[..k]
    {
      dbUserMap := dbUserMap[rows.value[k] := "delete-me"];
    }
    ghost var seen := set row | row in rows.value;
    assert rows.value[..|rows.value|] == rows.value;
    for i := 0 to |job.users|
      invariant dbUserMap.Keys == seen
      invariant Run(job, Checking(i, seen), conn.Pg(), conn.faults, conn.clock) ==
                Run(job, Listing, old(conn.Pg()), conn.faults, old(conn.clock))
    {
      if job.users[i].name !in dbUserMap {
        err := AddUser(job, Checking(i, seen), job.users[i], conn);
      } else {
        dbUserMap := dbUserMap[job.users[i].name := "dont-delete"];
        err := AlterUser(job, i, seen, job.users[i], conn);
      }
      if err.Some? { return; }
    }
    err := None;
  }

  method SyncDatabase(job: Job, conn: Connection) returns (outcome: Outcome)
    modifies conn
    ensures Finish(outcome, conn.Pg(), conn.clock) ==
            Postgres.SyncDatabase(job, old(conn.Pg()), conn.faults, old(conn.clock))
  {
    var found := conn.QueryDatabase(job.db);
    RunAdvances(job, Probing, old(conn.Pg()), conn.faults, old(conn.clock), conn.Pg(),
                if found.Some? then Row(found.value) else Refusal);
    if found.None? { return Failure(QueryFailed); }
    if found.value {
      var err := CheckUsers(job, conn);
      return OutcomeOf(err, SuccessSynced);
    }
    label creating:
    var ok := conn.Exec(CreateDatabase(job.db));
    RunAdvances(job, CreatingDatabase, old@creating(conn.Pg()), conn.faults, old@creating(conn.clock), conn.Pg(),
                if ok then Completed else Refusal);
    if !ok { return Failure(StatementFailed(CreateDatabase(job.db))); }
    for i := 0 to |job.users|
      invariant Run(job, Creating(i), conn.Pg(), conn.faults, conn.clock) ==
                Postgres.SyncDatabase(job, old(conn.Pg()), conn.faults, old(conn.clock))
    {
      var err := AddUser(job, Creating(i), job.users[i], conn);
      if err.Some? { return Failure(err.value); }
    }
    outcome := Created;
  }
}
