/**
 One pass of syncSchema as a machine that issues one request at a time, with the cache of
 database drivers and the migration engine as the things it asks. Some status messages go
 through a variable that all passes share; such a write has no message of its own.
 */
module SchemaPass {
  import opened Resources
  import D = DatabasePass

  /** A driver, opened on a DSN. */
  datatype Driver = Driver(dsn: string, serial: nat)

  /** What the engine answers when asked for the version of a database. */
  datatype VersionReport = NoVersion | Version(at: nat, dirty: bool) | ConnectionBroken | Unreadable

  datatype Request =
    | ListSchema(key: Key)
    | ListDatabase(key: Key)
    | GetValue(namespace: string, source: ValueSource)
    | LookUpDriver(driverKey: string)
    | OpenDriver(driverKey: string, dsn: string)
    | MakeEngine(driver: Driver, url: string)
    | AskVersion(driver: Driver)
    | EvictDriver(driverKey: string)
    | Migrate(driver: Driver, target: nat)
    | PutSchema(schema: DatabaseSchema, state: State, message: Option<Message>)

  datatype Answer =
    | SchemaIs(schema: Lookup<DatabaseSchema>)
    | DatabaseIs(database: Lookup<Database>)
    | ValueIs(value: Lookup<string>)
    | DriverIs(driver: Option<Driver>)
    | VersionIs(report: VersionReport)
    | Ok(ok: bool)

  datatype Pass =
    | Begin(key: Key)
    | FindingDatabase(schema: DatabaseSchema)
    | GettingDsn(schema: DatabaseSchema, source: ValueSource)
    | GettingSource(schema: DatabaseSchema, dsn: string)
    | LookingUp(schema: DatabaseSchema, dsn: string, url: string)
    | Opening(schema: DatabaseSchema, dsn: string, url: string)
    | MakingEngine(schema: DatabaseSchema, driver: Driver, url: string)
    | Versioning(schema: DatabaseSchema, driver: Driver)
    | Evicting(schema: DatabaseSchema)
    | NotingNothingApplied(schema: DatabaseSchema, driver: Driver)
    | Migrating(schema: DatabaseSchema, driver: Driver)
    | Putting(schema: DatabaseSchema, state: State, message: Option<Message>, failed: bool)
    | Finished(failed: bool)
    | Panicked

  predicate Running(p: Pass) {
    !p.Finished? && !p.Panicked?
  }

  /** The text under which a schema's driver is cached. */
  function DriverKey(key: Key): string {
    key.namespace + "." + key.name
  }

  /** The 64-bit unsigned conversion of the requested version. */
  function Target(schema: DatabaseSchema): nat {
    schema.spec.version % 0x1_0000_0000_0000_0000
  }

  /** A write whose message is the pass's own. */
  function Own(schema: DatabaseSchema, state: State, message: Message, failed: bool): Pass {
    Putting(schema, state, Some(message), failed)
  }

  /** A write whose message is whatever the shared variable holds by then. */
  function Shared(schema: DatabaseSchema, state: State, failed: bool): Pass {
    Putting(schema, state, None, failed)
  }

  function ChooseSource(schema: DatabaseSchema, dsn: string): Pass {
    if schema.spec.source != "" then LookingUp(schema, dsn, schema.spec.source)
    else if schema.spec.sourceFrom.None? then Own(schema, Error, NoValidSource, false)
    else if schema.spec.sourceFrom.value.secretKeyRef.None? then Panicked
    else GettingSource(schema, dsn)
  }

  function ChooseDsn(schema: DatabaseSchema): Pass {
    if schema.spec.dsn != "" then ChooseSource(schema, schema.spec.dsn)
    else if schema.spec.dsnFrom.Some? then
      if schema.spec.dsnFrom.value.secretKeyRef.None? then Panicked
      else GettingDsn(schema, schema.spec.dsnFrom.value)
    else FindingDatabase(schema)
  }

  /** What follows once the database is known to be clean at this version, or at none. */
  function AtVersion(schema: DatabaseSchema, driver: Driver, at: nat): Pass {
    if at == Target(schema) then Own(schema, Success, Synced, false) else Migrating(schema, driver)
  }

  function Ask(p: Pass): Request
    requires Running(p)
  {
    match p
    case Begin(key) => ListSchema(key)
    case FindingDatabase(schema) => ListDatabase(Key(schema.meta.key.namespace, schema.spec.database))
    case GettingDsn(schema, source) => GetValue(schema.meta.key.namespace, source)
    case GettingSource(schema, _) =>
      GetValue(schema.meta.key.namespace,
               if schema.spec.sourceFrom.Some? then schema.spec.sourceFrom.value else ValueSource(None, None))
    case LookingUp(schema, _, _) => LookUpDriver(DriverKey(schema.meta.key))
    case Opening(schema, dsn, _) => OpenDriver(DriverKey(schema.meta.key), dsn)
    case MakingEngine(_, driver, source) => MakeEngine(driver, source)
    case Versioning(_, driver) => AskVersion(driver)
    case Evicting(schema) => EvictDriver(DriverKey(schema.meta.key))
    case NotingNothingApplied(schema, _) => PutSchema(schema, Pending, None)
    case Migrating(schema, driver) => Migrate(driver, Target(schema))
    case Putting(schema, state, message, _) => PutSchema(schema, state, message)
  }

  predicate Fits(request: Request, answer: Answer) {
    match request
    case ListSchema(key) => answer.SchemaIs? && (answer.schema.Found? ==> answer.schema.value.meta.key == key)
    case ListDatabase(key) => answer.DatabaseIs? && (answer.database.Found? ==> answer.database.value.meta.key == key)
    case GetValue(_, _) => answer.ValueIs?
    case LookUpDriver(_) => answer.DriverIs?
    case OpenDriver(_, _) => answer.DriverIs?
    case AskVersion(_) => answer.VersionIs?
    case _ => answer.Ok?
  }

  function AfterReport(schema: DatabaseSchema, driver: Driver, report: VersionReport): Pass {
    match report
    case NoVersion => NotingNothingApplied(schema, driver)
    case ConnectionBroken => Evicting(schema)
    case Unreadable => Shared(schema, Error, true)
    case Version(at, dirty) => if dirty then Shared(schema, Error, false) else AtVersion(schema, driver, at)
  }

  function Next(p: Pass, answer: Answer): Pass
    requires Running(p) && Fits(Ask(p), answer)
  {
    match p
    case Begin(_) =>
      (match answer.schema
       case NotFound => Finished(false)
       case Failed => Finished(true)
       case Found(schema) => ChooseDsn(schema))
    case FindingDatabase(schema) =>
      if answer.database.Found? then GettingDsn(schema, D.DsnEntry(schema.spec.database)) else Shared(schema, Error, true)
    case GettingDsn(schema, _) =>
      (match answer.value
       case NotFound => Own(schema, Pending, WaitingForDsn, true)
       case Failed => Own(schema, Error, NoValidDsn, false)
       case Found(dsn) => ChooseSource(schema, dsn))
    case GettingSource(schema, dsn) =>
      (match answer.value
       case NotFound => Own(schema, Pending, WaitingForSource, true)
       case Failed => Own(schema, Error, NoValidSource, false)
       case Found(source) => LookingUp(schema, dsn, source))
    case LookingUp(schema, dsn, source) =>
      if answer.driver.Some? then MakingEngine(schema, answer.driver.value, source) else Opening(schema, dsn, source)
    case Opening(schema, _, source) =>
      if answer.driver.Some? then MakingEngine(schema, answer.driver.value, source) else Shared(schema, Error, true)
    case MakingEngine(schema, driver, _) =>
      if answer.ok then Versioning(schema, driver) else Shared(schema, Error, true)
    case Versioning(schema, driver) => AfterReport(schema, driver, answer.report)
    case Evicting(schema) => Shared(schema, Error, true)
    case NotingNothingApplied(schema, driver) => AtVersion(schema, driver, 0)
    case Migrating(schema, _) => if answer.ok then Own(schema, Success, Synced, false) else Shared(schema, Error, true)
    case Putting(_, _, _, failed) => Finished(failed)
  }

  /** What a step stores in the shared message variable, if anything. */
  function Stores(p: Pass, answer: Answer): Option<Message>
    requires Running(p) && Fits(Ask(p), answer)
  {
    match p
    case FindingDatabase(_) => if answer.database.Found? then None else Some(NoDatabase)
    case Opening(_, _, _) => if answer.driver.Some? then None else Some(OpenFailed)
    case MakingEngine(_, _, _) => if answer.ok then None else Some(EngineFailed)
    case Evicting(_) => Some(ConnectionLost)
    case Versioning(schema, _) =>
      (match answer.report
       case NoVersion => Some(NothingApplied)
       case ConnectionBroken => None
       case Unreadable => Some(VersionUnknown)
       case Version(at, dirty) =>
         if dirty then Some(DirtyDatabase(at)) else if at == Target(schema) then Some(AlreadyAtVersion) else None)
    case NotingNothingApplied(schema, _) => if Target(schema) == 0 then Some(AlreadyAtVersion) else None
    case Migrating(_, _) => if answer.ok then None else Some(MigrateFailed)
    case _ => None
  }
}
