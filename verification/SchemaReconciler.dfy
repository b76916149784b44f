/**
 syncSchema as the controller runs it, over its mutable driver cache and the shared status
 message, while other passes change both before any of its requests. Each method is proved to
 do what the pass machine does, request for request.
 */
module SchemaReconciler {
  import opened Resources
  import opened SchemaPass
  import D = DatabasePass
  import Runs = SchemaRuns

  /** What the outside answers to a request, by the number of the request. */
  type Oracle = (nat, Request) -> Answer

  /** What other passes make of the driver cache and the shared message right before a request. */
  type Others = (nat, map<string, Driver>, Message) -> (map<string, Driver>, Message)

  datatype Environment = Environment(oracle: Oracle, others: Others)

  ghost predicate AnswersFit(env: Environment) {
    forall n, request :: Fits(request, env.oracle(n, request))
  }

  /** The controller's own variables, and the objects it has sent to the API server. */
  datatype Variables = Variables(drivers: map<string, Driver>, message: Message, written: seq<DatabaseSchema>)

  /** The variables as a request finds them. */
  function Disturbed(v: Variables, env: Environment, clock: nat): Variables {
    var (drivers, message) := env.others(clock, v.drivers, v.message);
    v.(drivers := drivers, message := message)
  }

  /** What one request does to the variables, and its answer: the cache is the controller's own. */
  function Serve(v: Variables, request: Request, outside: Answer): (r: (Variables, Answer))
    requires Fits(request, outside)
    ensures Fits(request, r.1)
  {
    match request
    case LookUpDriver(driverKey) =>
      (v, DriverIs(if driverKey in v.drivers then Some(v.drivers[driverKey]) else None))
    case OpenDriver(driverKey, _) =>
      (if outside.driver.None? then v else v.(drivers := v.drivers[driverKey := outside.driver.value]), outside)
    case EvictDriver(driverKey) => (v.(drivers := v.drivers - {driverKey}), outside)
    case PutSchema(schema, state, message) =>
      var status := Status(state, if message.Some? then message.value else v.message);
      (v.(written := v.written + [schema.(status := status)]), outside)
    case _ => (v, outside)
  }

  function Noted(v: Variables, stored: Option<Message>): Variables {
    if stored.Some? then v.(message := stored.value) else v
  }

  /** A step of the runs does to cache, message and pass what the request does to the controller's own variables. */
  lemma RunsStepLikeTheController(c: Runs.Config, w: Runs.World, k: Key, answer: Answer, after: Runs.Migrations,
                                  written: seq<DatabaseSchema>)
    requires Runs.Enabled(c, w, Runs.Step(k, answer, after))
    ensures var p, w' := w.passes[k], Runs.Next(c, w, Runs.Step(k, answer, after));
            var (v, seen) := Serve(Variables(w.drivers, w.message, written), Ask(p), answer);
            && seen == answer && w'.drivers == v.drivers
            && w'.message == Noted(v, Stores(p, answer)).message && w'.passes == w.passes[k := Next(p, answer)]
  {
    var p := w.passes[k];
    if p.Evicting? && DriverKey(p.schema.meta.key) !in w.drivers {
      assert w.drivers - {DriverKey(p.schema.meta.key)} == w.drivers;
    }
  }

  function SchemaRank(p: Pass): nat {
    match p
    case Begin(_) => 12
    case FindingDatabase(_) => 11
    case GettingDsn(_, _) => 10
    case GettingSource(_, _) => 9
    case LookingUp(_, _, _) => 8
    case Opening(_, _, _) => 7
    case MakingEngine(_, _, _) => 6
    case Versioning(_, _) => 5
    case NotingNothingApplied(_, _) => 4
    case Migrating(_, _) => 3
    case Evicting(_) => 2
    case Putting(_, _, _, _) => 1
    case Finished(_) => 0
    case Panicked => 0
  }

  lemma NextSchemaRank(p: Pass, answer: Answer)
    requires Running(p) && Fits(Ask(p), answer)
    ensures SchemaRank(Next(p, answer)) < SchemaRank(p)
  {}

  datatype SchemaEnd = SchemaEnd(pass: Pass, variables: Variables, clock: nat)

  /** A schema pass from this point to its end. */
  ghost function Run(p: Pass, v: Variables, env: Environment, clock: nat): SchemaEnd
    requires AnswersFit(env)
    decreases SchemaRank(p)
  {
    if !Running(p) then SchemaEnd(p, v, clock)
    else
      var (after, answer) := Serve(Disturbed(v, env, clock), Ask(p), env.oracle(clock, Ask(p)));
      NextSchemaRank(p, answer);
      Run(Next(p, answer), Noted(after, Stores(p, answer)), env, clock + 1)
  }

  /** The pass is for the schema with this key. */
  predicate IsFor(p: Pass, key: Key) {
    match p
    case Begin(k) => k == key
    case Finished(_) => true
    case Panicked => true
    case _ => p.schema.meta.key == key
  }

  predicate SameOutside(driverKey: string, drivers: map<string, Driver>, drivers': map<string, Driver>) {
    drivers - {driverKey} == drivers' - {driverKey}
  }

  /** Nobody else changes the variables. */
  ghost predicate Quiet(env: Environment) {
    forall n, drivers, message :: env.others(n, drivers, message) == (drivers, message)
  }

  lemma NextIsFor(p: Pass, answer: Answer, key: Key)
    requires Running(p) && Fits(Ask(p), answer) && IsFor(p, key)
    ensures IsFor(Next(p, answer), key)
  {}

  /** By itself, a whole pass leaves every cached driver alone but the one under its schema's own key. */
  lemma {:induction false} PassTouchesOwnDriver(p: Pass, v: Variables, env: Environment, clock: nat, key: Key)
    requires AnswersFit(env) && Quiet(env) && IsFor(p, key)
    ensures SameOutside(DriverKey(key), v.drivers, Run(p, v, env, clock).variables.drivers)
    decreases SchemaRank(p)
  {
    if Running(p) {
      var (after, answer) := Serve(Disturbed(v, env, clock), SchemaPass.Ask(p), env.oracle(clock, SchemaPass.Ask(p)));
      NextSchemaRank(p, answer);
      NextIsFor(p, answer, key);
      PassTouchesOwnDriver(Next(p, answer), Noted(after, Stores(p, answer)), env, clock + 1, key);
    }
  }

  /** The pass works on this very object. */
  predicate Holds(p: Pass, schema: DatabaseSchema) {
    match p
    case Begin(_) => false
    case Finished(_) => true
    case Panicked => true
    case _ => p.schema == schema
  }

  /** What a pass is to report when this lookup comes to nothing, and whether it then fails. */
  ghost predicate ComesToNothing(p: Pass, answer: Answer, status: Status, failed: bool) {
    match p
    case FindingDatabase(_) => answer.DatabaseIs? && !answer.database.Found? && status == Status(Error, NoDatabase) && failed
    case GettingDsn(_, _) =>
      answer.ValueIs? &&
      ((answer.value.NotFound? && status == Status(Pending, WaitingForDsn) && failed) ||
       (answer.value.Failed? && status == Status(Error, NoValidDsn) && !failed))
    case GettingSource(_, _) =>
      answer.ValueIs? &&
      ((answer.value.NotFound? && status == Status(Pending, WaitingForSource) && failed) ||
       (answer.value.Failed? && status == Status(Error, NoValidSource) && !failed))
    case _ => false
  }

  lemma LastWrite(p: Pass, v: Variables, env: Environment, clock: nat)
    requires AnswersFit(env) && Quiet(env) && p.Putting?
    ensures var end := Run(p, v, env, clock);
            && end.pass == Finished(p.failed) && end.variables.drivers == v.drivers
            && end.variables.written ==
               v.written + [p.schema.(status := Status(p.state, if p.message.Some? then p.message.value else v.message))]
  {
    var answer := env.oracle(clock, Ask(p));
    assert Disturbed(v, env, clock) == v;
    assert Next(p, answer) == Finished(p.failed) && Stores(p, answer) == None;
    var after := Serve(v, Ask(p), answer).0;
    assert Run(p, v, env, clock) == Run(Finished(p.failed), after, env, clock + 1);
  }

  /** A schema whose database, DSN or source cannot be had gets one report, and no driver is touched. */
  lemma MissingObjectIsReported(p: Pass, v: Variables, env: Environment, clock: nat, status: Status, failed: bool)
    requires AnswersFit(env) && Quiet(env) && Running(p)
    requires ComesToNothing(p, env.oracle(clock, Ask(p)), status, failed)
    ensures var end := Run(p, v, env, clock);
            && end.pass == Finished(failed) && end.variables.drivers == v.drivers
            && end.variables.written == v.written + [p.schema.(status := status)]
  {
    var answer := env.oracle(clock, Ask(p));
    assert Disturbed(v, env, clock) == v && Serve(v, Ask(p), answer) == (v, answer);
    var p', v' := Next(p, answer), Noted(v, Stores(p, answer));
    assert Run(p, v, env, clock) == Run(p', v', env, clock + 1);
    LastWrite(p', v', env, clock + 1);
  }

  /** How many status writes can still come. */
  function WritesLeft(p: Pass): nat {
    match p
    case Finished(_) => 0
    case Panicked => 0
    case Putting(_, _, _, _) => 1
    case Evicting(_) => 1
    case Migrating(_, _) => 1
    case _ => 2
  }

  lemma NextHolds(p: Pass, answer: Answer, schema: DatabaseSchema)
    requires Running(p) && Fits(Ask(p), answer) && Holds(p, schema)
    ensures Holds(Next(p, answer), schema)
    ensures WritesLeft(Next(p, answer)) + (if Ask(p).PutSchema? then 1 else 0) <= WritesLeft(p)
  {}

  /** A pass sends at most two writes, each of the object it read with nothing but the status changed. */
  lemma {:induction false} WritesWhatItRead(p: Pass, v: Variables, env: Environment, clock: nat, schema: DatabaseSchema)
    requires AnswersFit(env) && Holds(p, schema)
    ensures var written := Run(p, v, env, clock).variables.written;
            && v.written <= written && |written| <= |v.written| + WritesLeft(p)
            && forall i :: |v.written| <= i < |written| ==> written[i] == schema.(status := written[i].status)
    decreases SchemaRank(p)
  {
    if Running(p) {
      var (after, answer) := Serve(Disturbed(v, env, clock), SchemaPass.Ask(p), env.oracle(clock, SchemaPass.Ask(p)));
      NextSchemaRank(p, answer);
      NextHolds(p, answer, schema);
      WritesWhatItRead(Next(p, answer), Noted(after, Stores(p, answer)), env, clock + 1, schema);
    }
  }

  /** A cache that is given a driver, if there is one. */
  function Cached(drivers: map<string, Driver>, driverKey: string, driver: Option<Driver>): map<string, Driver> {
    if driver.Some? then drivers[driverKey := driver.value] else drivers
  }

  class Controller {
    var dbDriverMap: map<string, Driver>
    var schemaStatusMsg: Message
    var written: seq<DatabaseSchema>
    var clock: nat
    const env: Environment

    constructor (env: Environment)
      ensures this.env == env && clock == 0 && State() == Variables(map[], NoMessage, [])
    {
      this.dbDriverMap, this.schemaStatusMsg, this.written, this.clock, this.env := map[], NoMessage, [], 0, env;
    }

    ghost function State(): Variables
      reads this
    {
      Variables(dbDriverMap, schemaStatusMsg, written)
    }

    ghost predicate Valid() { AnswersFit(env) }

    ghost function Rest(p: Pass): SchemaEnd
      requires Valid()
      reads this
    {
      Run(p, State(), env, clock)
    }

    /** The turn of the other passes. */
    method Yield()
      modifies this`dbDriverMap, this`schemaStatusMsg
      ensures State() == Disturbed(old(State()), env, clock)
    {
      var after := env.others(clock, dbDriverMap, schemaStatusMsg);
      dbDriverMap, schemaStatusMsg := after.0, after.1;
    }

    /** A request to the outside that touches none of the controller's variables. */
    method Ask(ghost p: Pass, request: Request) returns (answer: Answer)
      requires Valid() && Running(p) && request == SchemaPass.Ask(p)
      requires !request.LookUpDriver? && !request.OpenDriver? && !request.EvictDriver? && !request.PutSchema?
      modifies this
      ensures Fits(request, answer) && clock == old(clock) + 1
      ensures Run(Next(p, answer), Noted(State(), Stores(p, answer)), env, clock) == old(Rest(p))
    {
      Yield();
      answer := env.oracle(clock, request);
      clock := clock + 1;
    }

    /** Writes a status into a copy of the object; without a message of its own, the shared one is read now. */
    method UpdateStatus(schema: DatabaseSchema, state: State, own: Option<Message>, ghost p: Pass)
      requires Valid() && Running(p) && SchemaPass.Ask(p) == PutSchema(schema, state, own)
      modifies this
      ensures Run(Next(p, Ok(true)), Noted(State(), Stores(p, Ok(true))), env, clock) == old(Rest(p))
    {
      assert Fits(SchemaPass.Ask(p), env.oracle(clock, SchemaPass.Ask(p)));
      Yield();
      written := written + [schema.(status := Status(state, if own.Some? then own.value else schemaStatusMsg))];
      clock := clock + 1;
    }

    /** Ends a pass with one status write. */
    method Report(schema: DatabaseSchema, state: State, own: Option<Message>, failed: bool) returns (end: Pass)
      requires Valid()
      modifies this
      ensures SchemaEnd(end, State(), clock) == old(Rest(Putting(schema, state, own, failed)))
    {
      UpdateStatus(schema, state, own, Putting(schema, state, own, failed));
      end := Finished(failed);
    }

    method Open(schema: DatabaseSchema, dsn: string, url: string) returns (driver: Option<Driver>)
      requires Valid()
      modifies this
      ensures driver.Some? ==> Rest(MakingEngine(schema, driver.value, url)) == old(Rest(Opening(schema, dsn, url)))
      ensures driver.None? ==> Rest(Shared(schema, Error, true)) == old(Rest(Opening(schema, dsn, url)))
      ensures dbDriverMap ==
              Cached(Disturbed(old(State()), env, old(clock)).drivers, DriverKey(schema.meta.key), driver)
    {
      var dbKey := DriverKey(schema.meta.key);
      Yield();
      var answer := env.oracle(clock, OpenDriver(dbKey, dsn));
      assert Fits(OpenDriver(dbKey, dsn), answer);
      clock, driver := clock + 1, answer.driver;
      if driver.None? {
        schemaStatusMsg := OpenFailed;
      } else {
        dbDriverMap := dbDriverMap[dbKey := driver.value];
      }
    }

    /** The cached driver, or a new one that is cached from now on; None when opening fails. */
    method FindDriver(schema: DatabaseSchema, dsn: string, url: string) returns (driver: Option<Driver>)
      requires Valid()
      modifies this
      ensures driver.Some? ==> Rest(MakingEngine(schema, driver.value, url)) == old(Rest(LookingUp(schema, dsn, url)))
      ensures driver.None? ==> Rest(Shared(schema, Error, true)) == old(Rest(LookingUp(schema, dsn, url)))
      ensures var found, dbKey := Disturbed(old(State()), env, old(clock)), DriverKey(schema.meta.key);
              if dbKey in found.drivers then driver == Some(found.drivers[dbKey]) && State() == found
              else dbDriverMap == Cached(Disturbed(found, env, old(clock) + 1).drivers, dbKey, driver)
    {
      var dbKey := DriverKey(schema.meta.key);
      assert Fits(LookUpDriver(dbKey), env.oracle(clock, LookUpDriver(dbKey)));
      Yield();
      clock := clock + 1;
      if dbKey in dbDriverMap {
        assert Rest(MakingEngine(schema, dbDriverMap[dbKey], url)) == old(Rest(LookingUp(schema, dsn, url)));
        return Some(dbDriverMap[dbKey]);
      }
      assert Rest(Opening(schema, dsn, url)) == old(Rest(LookingUp(schema, dsn, url)));
      driver := Open(schema, dsn, url);
    }

    /** Stores a message in the shared variable and ends the pass with an error that takes it from there. */
    method Complain(schema: DatabaseSchema, message: Message, failed: bool) returns (end: Pass)
      requires Valid()
      modifies this
      ensures SchemaEnd(end, State(), clock) ==
              old(Run(Shared(schema, Error, failed), Noted(State(), Some(message)), env, clock))
    {
      schemaStatusMsg := message;
      assert State() == Noted(old(State()), Some(message));
      end := Report(schema, Error, None, failed);
    }

    method NoteNothingApplied(schema: DatabaseSchema, driver: Driver)
      requires Valid()
      modifies this
      ensures var p := NotingNothingApplied(schema, driver);
              Run(AtVersion(schema, driver, 0), Noted(State(), Stores(p, Ok(true))), env, clock) ==
              old(Run(p, Noted(State(), Some(NothingApplied)), env, clock))
    {
      schemaStatusMsg := NothingApplied;
      assert State() == Noted(old(State()), Some(NothingApplied));
      UpdateStatus(schema, Pending, None, NotingNothingApplied(schema, driver));
    }

    method Evict(schema: DatabaseSchema)
      requires Valid()
      modifies this
      ensures Rest(Shared(schema, Error, true)) == old(Rest(Evicting(schema)))
      ensures dbDriverMap == Disturbed(old(State()), env, old(clock)).drivers - {DriverKey(schema.meta.key)}
    {
      assert Fits(EvictDriver(DriverKey(schema.meta.key)), env.oracle(clock, EvictDriver(DriverKey(schema.meta.key))));
      Yield();
      dbDriverMap := dbDriverMap - {DriverKey(schema.meta.key)};
      schemaStatusMsg := ConnectionLost;
      clock := clock + 1;
    }

    method MigrateTo(schema: DatabaseSchema, driver: Driver, toVersion: nat) returns (end: Pass)
      requires Valid() && toVersion == Target(schema)
      modifies this
      ensures SchemaEnd(end, State(), clock) == old(Rest(Migrating(schema, driver)))
    {
      var answer := Ask(Migrating(schema, driver), Migrate(driver, toVersion));
      if !answer.ok {
        end := Complain(schema, MigrateFailed, true);
        return;
      }
      end := Report(schema, Success, Some(Synced), false);
    }

    /** The database is clean at `ver`, or has no version and `ver` is 0. */
    method MigrateFrom(schema: DatabaseSchema, driver: Driver, ver: nat) returns (end: Pass)
      requires Valid()
      modifies this
      ensures SchemaEnd(end, State(), clock) ==
              old(Run(AtVersion(schema, driver, ver),
                      Noted(State(), if ver == Target(schema) then Some(AlreadyAtVersion) else None), env, clock))
    {
      var toVersion := Target(schema);
      if ver == toVersion {
        schemaStatusMsg := AlreadyAtVersion;
        end := Report(schema, Success, Some(Synced), false);
        return;
      }
      end := MigrateTo(schema, driver, toVersion);
    }

    /** A database with a version: a dirty one is left as it is. */
    method AtVersionRead(schema: DatabaseSchema, driver: Driver, at: nat, dirty: bool) returns (end: Pass)
      requires Valid()
      modifies this
      ensures SchemaEnd(end, State(), clock) ==
              old(Run(AfterReport(schema, driver, Version(at, dirty)),
                      Noted(State(), Stores(Versioning(schema, driver), VersionIs(Version(at, dirty)))), env, clock))
    {
      if dirty {
        end := Complain(schema, DirtyDatabase(at), false);
      } else {
        end := MigrateFrom(schema, driver, at);
      }
    }

    method AfterVersion(schema: DatabaseSchema, driver: Driver, report: VersionReport) returns (end: Pass)
      requires Valid()
      modifies this
      ensures SchemaEnd(end, State(), clock) ==
              old(Run(AfterReport(schema, driver, report),
                      Noted(State(), Stores(Versioning(schema, driver), VersionIs(report))), env, clock))
    {
      match report {
        case ConnectionBroken =>
          Evict(schema);
          end := Report(schema, Error, None, true);
        case Unreadable =>
          end := Complain(schema, VersionUnknown, true);
        case NoVersion =>
          NoteNothingApplied(schema, driver);
          end := MigrateFrom(schema, driver, 0);
        case Version(at, dirty) =>
          end := AtVersionRead(schema, driver, at, dirty);
      }
    }

    method SyncWithDriver(schema: DatabaseSchema, driver: Driver, url: string) returns (end: Pass)
      requires Valid()
      modifies this
      ensures SchemaEnd(end, State(), clock) == old(Rest(MakingEngine(schema, driver, url)))
    {
      var answer := Ask(MakingEngine(schema, driver, url), MakeEngine(driver, url));
      if !answer.ok {
        end := Complain(schema, EngineFailed, true);
        return;
      }
      answer := Ask(Versioning(schema, driver), AskVersion(driver));
      end := AfterVersion(schema, driver, answer.report);
    }

    method SyncWithDsn(schema: DatabaseSchema, dsn: string) returns (end: Pass)
      requires Valid()
      modifies this
      ensures SchemaEnd(end, State(), clock) == old(Rest(ChooseSource(schema, dsn)))
    {
      var url := schema.spec.source;
      if url == "" {
        if schema.spec.sourceFrom.None? {
          end := Report(schema, Error, Some(NoValidSource), false);
          return;
        }
        if schema.spec.sourceFrom.value.secretKeyRef.None? { return Panicked; }
        var answer := Ask(GettingSource(schema, dsn), GetValue(schema.meta.key.namespace, schema.spec.sourceFrom.value));
        if answer.value.NotFound? {
          end := Report(schema, Pending, Some(WaitingForSource), true);
          return;
        }
        if answer.value.Failed? {
          end := Report(schema, Error, Some(NoValidSource), false);
          return;
        }
        url := answer.value.value;
      }
      var driver := FindDriver(schema, dsn, url);
      if driver.None? {
        end := Report(schema, Error, None, true);
        return;
      }
      end := SyncWithDriver(schema, driver.value, url);
    }

    /** The DSN comes from a named source, or else from the secret of the schema's database. */
    method SyncWithLookedUpDsn(schema: DatabaseSchema) returns (end: Pass)
      requires Valid() && schema.spec.dsn == ""
      modifies this
      ensures SchemaEnd(end, State(), clock) == old(Rest(ChooseDsn(schema)))
    {
      var source;
      if schema.spec.dsnFrom.Some? {
        if schema.spec.dsnFrom.value.secretKeyRef.None? { return Panicked; }
        source := schema.spec.dsnFrom.value;
      } else {
        var answer := Ask(FindingDatabase(schema), ListDatabase(Key(schema.meta.key.namespace, schema.spec.database)));
        if !answer.database.Found? {
          end := Complain(schema, NoDatabase, true);
          return;
        }
        source := D.DsnEntry(schema.spec.database);
      }
      var answer := Ask(GettingDsn(schema, source), GetValue(schema.meta.key.namespace, source));
      if answer.value.NotFound? {
        end := Report(schema, Pending, Some(WaitingForDsn), true);
      } else if answer.value.Failed? {
        end := Report(schema, Error, Some(NoValidDsn), false);
      } else {
        end := SyncWithDsn(schema, answer.value.value);
      }
    }

    method SyncSchema(key: Key) returns (end: Pass)
      requires Valid()
      modifies this
      ensures SchemaEnd(end, State(), clock) == old(Rest(Begin(key)))
    {
      var answer := Ask(Begin(key), ListSchema(key));
      if !answer.schema.Found? { return Finished(answer.schema.Failed?); }
      var schema := answer.schema.value;
      if schema.spec.dsn != "" {
        end := SyncWithDsn(schema, schema.spec.dsn);
        return;
      }
      end := SyncWithLookedUpDsn(schema);
    }
  }
}
