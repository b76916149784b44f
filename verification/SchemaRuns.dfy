/**
 Schema passes at work: any number in flight, at most one per key, interleaved request by
 request over the driver cache, the databases' migration states and the shared message.
 */
module SchemaRuns {
  import opened Resources
  import opened SchemaPass
  import Text

  /** Where a database's migrations stand. */
  datatype Migrations = Untouched | At(version: nat, dirty: bool)

  /** The schemas with the DSN that each resolves to; specs and DSNs do not change. */
  datatype Config = Config(schemas: map<Key, DatabaseSchema>, dsns: map<Key, string>)

  /**
   `databases` are the migration states by DSN; `opens`, `evictions` and `successes` count the
   successful opens and the evictions by driver key and the successful migrations by DSN.
   */
  datatype World = World(
    drivers: map<string, Driver>,
    databases: map<string, Migrations>,
    message: Message,
    passes: map<Key, Pass>,
    opens: multiset<string>,
    evictions: multiset<string>,
    successes: multiset<string>)

  /** `after` is where a migration leaves the database when it fails. */
  datatype Action =
    | Start(key: Key)
    | Step(key: Key, answer: Answer, after: Migrations)
    | Repair(dsn: string, state: Migrations)

  /** A namespace is a label without dots (section 2.1 of RFC 1123). */
  ghost predicate WellFormedConfig(c: Config) {
    c.dsns.Keys == c.schemas.Keys &&
    (forall k :: k in c.schemas ==> c.schemas[k].meta.key == k && '.' !in k.namespace)
  }

  /** Each database has one schema. */
  ghost predicate OneSchemaPerDatabase(c: Config) {
    forall j, k :: j in c.dsns && k in c.dsns && c.dsns[j] == c.dsns[k] ==> j == k
  }

  function StateOf(w: World, dsn: string): Migrations {
    if dsn in w.databases then w.databases[dsn] else Untouched
  }

  predicate Dirty(state: Migrations) {
    state.At? && state.dirty
  }

  /** The answers the environment may give. Only a broken connection hides the true version. */
  ghost predicate Possible(c: Config, w: World, k: Key, p: Pass, answer: Answer)
    requires Running(p) && Fits(Ask(p), answer)
  {
    match Ask(p)
    case ListSchema(key) =>
      answer.schema.Found? ==>
        key in c.schemas && answer.schema.value.spec == c.schemas[key].spec && answer.schema.value.meta.key == key
    case GetValue(_, _) => p.GettingDsn? && answer.value.Found? ==> k in c.dsns && answer.value.value == c.dsns[k]
    case LookUpDriver(driverKey) =>
      answer.driver == if driverKey in w.drivers then Some(w.drivers[driverKey]) else None
    case OpenDriver(_, dsn) => answer.driver.Some? ==> answer.driver.value.dsn == dsn
    case AskVersion(driver) =>
      (match answer.report
       case NoVersion => StateOf(w, driver.dsn).Untouched?
       case Version(at, dirty) => StateOf(w, driver.dsn) == At(at, dirty)
       case _ => true)
    case _ => true
  }

  /** Outside repair leaves a database in some clean state. */
  ghost predicate Enabled(c: Config, w: World, a: Action) {
    match a
    case Start(k) => k in w.passes ==> !Running(w.passes[k])
    case Step(k, answer, _) =>
      k in w.passes && Running(w.passes[k]) && Fits(Ask(w.passes[k]), answer) && Possible(c, w, k, w.passes[k], answer)
    case Repair(_, state) => !Dirty(state)
  }

  /** What a request does to the world besides answering it. */
  function Effect(w: World, request: Request, answer: Answer, after: Migrations): World
    requires Fits(request, answer)
  {
    match request
    case OpenDriver(driverKey, _) =>
      if answer.driver.None? then w
      else w.(drivers := w.drivers[driverKey := answer.driver.value], opens := w.opens + multiset{driverKey})
    case EvictDriver(driverKey) =>
      if driverKey !in w.drivers then w
      else w.(drivers := w.drivers - {driverKey}, evictions := w.evictions + multiset{driverKey})
    case Migrate(driver, target) =>
      if answer.ok then
        w.(databases := w.databases[driver.dsn := At(target, false)], successes := w.successes + multiset{driver.dsn})
      else w.(databases := w.databases[driver.dsn := after])
    case _ => w
  }

  ghost function Next(c: Config, w: World, a: Action): World
    requires Enabled(c, w, a)
  {
    match a
    case Start(k) => w.(passes := w.passes[k := Begin(k)])
    case Step(k, answer, after) =>
      var p := w.passes[k];
      var stored := Stores(p, answer);
      Effect(w, Ask(p), answer, after).(
        passes := w.passes[k := SchemaPass.Next(p, answer)],
        message := if stored.Some? then stored.value else w.message)
    case Repair(dsn, state) => w.(databases := w.databases[dsn := state])
  }

  ghost predicate IsRun(c: Config, worlds: seq<World>, actions: seq<Action>) {
    |worlds| == |actions| + 1 &&
    forall i {:trigger actions[i]} :: 0 <= i < |actions| ==>
      Enabled(c, worlds[i], actions[i]) && worlds[i + 1] == Next(c, worlds[i], actions[i])
  }

  ghost predicate Initial(w: World) {
    w.passes == map[] && w.drivers == map[] &&
    w.opens == multiset{} && w.evictions == multiset{} && w.successes == multiset{}
  }

  /** Distinct schemas have distinct driver keys, dots in names or not. */
  lemma DriverKeysAreInjective(j: Key, k: Key)
    requires '.' !in j.namespace && '.' !in k.namespace
    ensures DriverKey(j) == j.namespace + "." + j.name
    ensures DriverKey(j) == DriverKey(k) <==> j == k
  {
    Text.SplitAtFirst(j.namespace, j.name, '.');
    Text.SplitAtFirst(k.namespace, k.name, '.');
    assert DriverKey(j) == j.namespace + ['.'] + j.name && DriverKey(k) == k.namespace + ['.'] + k.name;
    assert Text.Split(DriverKey(j), '.')[0] == j.namespace && Text.Split(DriverKey(k), '.')[0] == k.namespace;
    assert DriverKey(j)[|j.namespace| + 1..] == j.name && DriverKey(k)[|k.namespace| + 1..] == k.name;
  }

  /** The schema a pass works on is the configured one. */
  ghost predicate WorksOn(c: Config, k: Key, p: Pass) {
    match p
    case Begin(key) => key == k
    case Finished(_) => true
    case Panicked => true
    case _ => k in c.schemas && p.schema.meta.key == k && p.schema.spec == c.schemas[k].spec
  }

  /** An inline DSN is the configured one. */
  ghost predicate DsnsAgree(c: Config) {
    forall k :: k in c.schemas && c.schemas[k].spec.dsn != "" ==> k in c.dsns && c.dsns[k] == c.schemas[k].spec.dsn
  }

  /** A pass that has a driver has one for its own DSN. */
  ghost predicate UsesOwnDsn(c: Config, k: Key, p: Pass) {
    match p
    case GettingSource(_, dsn) => k in c.dsns && dsn == c.dsns[k]
    case LookingUp(_, dsn, _) => k in c.dsns && dsn == c.dsns[k]
    case Opening(_, dsn, _) => k in c.dsns && dsn == c.dsns[k]
    case MakingEngine(_, driver, _) => k in c.dsns && driver.dsn == c.dsns[k]
    case Versioning(_, driver) => k in c.dsns && driver.dsn == c.dsns[k]
    case NotingNothingApplied(_, driver) => k in c.dsns && driver.dsn == c.dsns[k]
    case Migrating(_, driver) => k in c.dsns && driver.dsn == c.dsns[k]
    case _ => true
  }

  /** A cached driver is for the DSN that a fresh open would use. */
  ghost predicate CacheAgrees(c: Config, drivers: map<string, Driver>) {
    forall k :: k in c.schemas && DriverKey(k) in drivers ==> k in c.dsns && drivers[DriverKey(k)].dsn == c.dsns[k]
  }

  /** A pass that is about to open a driver has none cached: nobody else uses its key. */
  ghost predicate OpensOnlyWhenAbsent(c: Config, k: Key, p: Pass, drivers: map<string, Driver>) {
    p.Opening? ==> DriverKey(k) !in drivers
  }

  ghost predicate Accounted(w: World) {
    forall driverKey :: w.opens[driverKey] == w.evictions[driverKey] + (if driverKey in w.drivers then 1 else 0)
  }

  ghost predicate CacheInvariant(c: Config, w: World) {
    CacheAgrees(c, w.drivers) && Accounted(w) &&
    forall k :: k in w.passes ==>
      WorksOn(c, k, w.passes[k]) && UsesOwnDsn(c, k, w.passes[k]) && OpensOnlyWhenAbsent(c, k, w.passes[k], w.drivers)
  }

  lemma StepKeepsSchema(c: Config, w: World, k: Key, p: Pass, answer: Answer)
    requires WellFormedConfig(c) && WorksOn(c, k, p)
    requires Running(p) && Fits(Ask(p), answer) && Possible(c, w, k, p, answer)
    ensures WorksOn(c, k, SchemaPass.Next(p, answer))
  {}

  /** From the engine on, a pass keeps the driver it has. */
  predicate HasDriver(p: Pass) {
    p.MakingEngine? || p.Versioning? || p.Evicting? || p.NotingNothingApplied? || p.Migrating? || p.Putting?
  }

  lemma AfterReportKeepsDsn(c: Config, k: Key, schema: DatabaseSchema, driver: Driver, report: VersionReport)
    requires k in c.dsns && driver.dsn == c.dsns[k]
    ensures UsesOwnDsn(c, k, AfterReport(schema, driver, report))
  {}

  lemma LateStepKeepsDsn(c: Config, k: Key, p: Pass, answer: Answer)
    requires Running(p) && Fits(Ask(p), answer) && HasDriver(p) && UsesOwnDsn(c, k, p)
    ensures UsesOwnDsn(c, k, SchemaPass.Next(p, answer))
  {
    if p.Versioning? { AfterReportKeepsDsn(c, k, p.schema, p.driver, answer.report); }
  }

  lemma ChosenSourceKeepsDsn(c: Config, k: Key, schema: DatabaseSchema, dsn: string)
    requires k in c.dsns && dsn == c.dsns[k]
    ensures UsesOwnDsn(c, k, ChooseSource(schema, dsn))
  {}

  lemma ChosenDsnIsOwn(c: Config, k: Key, schema: DatabaseSchema)
    requires DsnsAgree(c) && k in c.schemas && schema.spec == c.schemas[k].spec
    ensures UsesOwnDsn(c, k, ChooseDsn(schema))
  {
    if schema.spec.dsn != "" { ChosenSourceKeepsDsn(c, k, schema, schema.spec.dsn); }
  }

  lemma LookupKeepsDsn(c: Config, w: World, k: Key, p: Pass, answer: Answer)
    requires CacheAgrees(c, w.drivers) && p.LookingUp? && Fits(Ask(p), answer) && Possible(c, w, k, p, answer)
    requires WorksOn(c, k, p) && UsesOwnDsn(c, k, p)
    ensures UsesOwnDsn(c, k, SchemaPass.Next(p, answer))
  {
    assert Ask(p) == LookUpDriver(DriverKey(k));
  }

  lemma LateReadKeepsDsn(c: Config, w: World, k: Key, p: Pass, answer: Answer)
    requires Running(p) && Fits(Ask(p), answer) && Possible(c, w, k, p, answer) && UsesOwnDsn(c, k, p)
    requires p.FindingDatabase? || p.GettingSource? || p.Opening?
    ensures UsesOwnDsn(c, k, SchemaPass.Next(p, answer))
  {}

  lemma EarlyStepKeepsDsn(c: Config, w: World, k: Key, p: Pass, answer: Answer)
    requires WellFormedConfig(c) && DsnsAgree(c) && CacheAgrees(c, w.drivers)
    requires Running(p) && Fits(Ask(p), answer) && Possible(c, w, k, p, answer) && !HasDriver(p)
    requires WorksOn(c, k, p) && UsesOwnDsn(c, k, p)
    ensures UsesOwnDsn(c, k, SchemaPass.Next(p, answer))
  {
    match p
    case Begin(_) => if answer.schema.Found? { ChosenDsnIsOwn(c, k, answer.schema.value); }
    case GettingDsn(schema, _) => if answer.value.Found? { ChosenSourceKeepsDsn(c, k, schema, answer.value.value); }
    case LookingUp(_, _, _) => LookupKeepsDsn(c, w, k, p, answer);
    case _ => LateReadKeepsDsn(c, w, k, p, answer);
  }

  lemma StepKeepsDsn(c: Config, w: World, k: Key, p: Pass, answer: Answer)
    requires WellFormedConfig(c) && DsnsAgree(c) && CacheAgrees(c, w.drivers)
    requires Running(p) && Fits(Ask(p), answer) && Possible(c, w, k, p, answer)
    requires WorksOn(c, k, p) && UsesOwnDsn(c, k, p)
    ensures UsesOwnDsn(c, k, SchemaPass.Next(p, answer))
  {
    if HasDriver(p) { LateStepKeepsDsn(c, k, p, answer); } else { EarlyStepKeepsDsn(c, w, k, p, answer); }
  }

  /** A pass touches no cached driver but the one under its own key. */
  lemma StepTouchesOwnDriver(c: Config, w: World, k: Key, answer: Answer, after: Migrations, j: Key)
    requires WellFormedConfig(c) && Enabled(c, w, Step(k, answer, after)) && WorksOn(c, k, w.passes[k])
    requires k in c.schemas && j in c.schemas && j != k
    ensures var w' := Next(c, w, Step(k, answer, after)); var driverKey := DriverKey(j);
            (driverKey in w'.drivers <==> driverKey in w.drivers) &&
            (driverKey in w.drivers ==> w'.drivers[driverKey] == w.drivers[driverKey])
  {
    DriverKeysAreInjective(j, k);
  }

  /** What a step makes of the cache: an open fills in the schema's key, an eviction empties it, and nothing else matters. */
  lemma StepChangesCacheBy(c: Config, w: World, k: Key, answer: Answer, after: Migrations)
    requires Enabled(c, w, Step(k, answer, after)) && WorksOn(c, k, w.passes[k])
    ensures var p, driverKey := w.passes[k], k.namespace + "." + k.name;
            Next(c, w, Step(k, answer, after)).drivers ==
            if p.Opening? && answer.driver.Some? then w.drivers[driverKey := answer.driver.value]
            else if p.Evicting? then w.drivers - {driverKey}
            else w.drivers
  {
    assert DriverKey(k) == k.namespace + "." + k.name;
  }

  lemma OnlyLookingUpLeadsToOpening(p: Pass, answer: Answer)
    requires Running(p) && Fits(Ask(p), answer) && !p.LookingUp?
    ensures !SchemaPass.Next(p, answer).Opening?
  {}

  lemma StepKeepsAbsence(c: Config, w: World, k: Key, p: Pass, answer: Answer)
    requires WellFormedConfig(c) && WorksOn(c, k, p)
    requires Running(p) && Fits(Ask(p), answer) && Possible(c, w, k, p, answer)
    ensures OpensOnlyWhenAbsent(c, k, SchemaPass.Next(p, answer), w.drivers)
  {
    if p.LookingUp? {
      assert Ask(p) == LookUpDriver(DriverKey(k));
    } else {
      OnlyLookingUpLeadsToOpening(p, answer);
    }
  }

  lemma EffectKeepsAccount(c: Config, w: World, k: Key, answer: Answer, after: Migrations)
    requires Enabled(c, w, Step(k, answer, after)) && Accounted(w)
    requires WorksOn(c, k, w.passes[k]) && OpensOnlyWhenAbsent(c, k, w.passes[k], w.drivers)
    ensures Accounted(Next(c, w, Step(k, answer, after)))
  {}

  lemma EffectKeepsCache(c: Config, w: World, k: Key, answer: Answer, after: Migrations)
    requires WellFormedConfig(c) && Enabled(c, w, Step(k, answer, after)) && CacheAgrees(c, w.drivers)
    requires WorksOn(c, k, w.passes[k]) && UsesOwnDsn(c, k, w.passes[k])
    ensures CacheAgrees(c, Next(c, w, Step(k, answer, after)).drivers)
  {
    forall j | j in c.schemas && DriverKey(j) in Next(c, w, Step(k, answer, after)).drivers
      ensures j in c.dsns && Next(c, w, Step(k, answer, after)).drivers[DriverKey(j)].dsn == c.dsns[j]
    {
      if w.passes[k].Opening? { DriverKeysAreInjective(j, k); }
    }
  }

  /** While one pass is between its lookup and its open, no other pass fills in a driver for it. */
  lemma OthersKeepAbsence(c: Config, w: World, k: Key, answer: Answer, after: Migrations, j: Key)
    requires WellFormedConfig(c) && Enabled(c, w, Step(k, answer, after)) && WorksOn(c, k, w.passes[k])
    requires j != k && j in w.passes && WorksOn(c, j, w.passes[j]) && OpensOnlyWhenAbsent(c, j, w.passes[j], w.drivers)
    ensures OpensOnlyWhenAbsent(c, j, w.passes[j], Next(c, w, Step(k, answer, after)).drivers)
  {
    if w.passes[k].Opening? && w.passes[j].Opening? { DriverKeysAreInjective(j, k); }
  }

  lemma StepKeepsCacheInvariant(c: Config, w: World, k: Key, answer: Answer, after: Migrations)
    requires WellFormedConfig(c) && DsnsAgree(c) && CacheInvariant(c, w) && Enabled(c, w, Step(k, answer, after))
    ensures CacheInvariant(c, Next(c, w, Step(k, answer, after)))
  {
    var w', p := Next(c, w, Step(k, answer, after)), w.passes[k];
    EffectKeepsAccount(c, w, k, answer, after);
    EffectKeepsCache(c, w, k, answer, after);
    StepKeepsSchema(c, w, k, p, answer);
    StepKeepsDsn(c, w, k, p, answer);
    StepKeepsAbsence(c, w, k, p, answer);
    forall j | j in w.passes && j != k ensures OpensOnlyWhenAbsent(c, j, w.passes[j], w'.drivers) {
      OthersKeepAbsence(c, w, k, answer, after, j);
    }
  }

  lemma ActionKeepsCacheInvariant(c: Config, w: World, a: Action)
    requires WellFormedConfig(c) && DsnsAgree(c) && CacheInvariant(c, w) && Enabled(c, w, a)
    ensures CacheInvariant(c, Next(c, w, a))
  {
    match a
    case Step(k, answer, after) => StepKeepsCacheInvariant(c, w, k, answer, after);
    case Start(_) =>
    case Repair(_, _) =>
  }

  lemma {:induction false} RunKeepsCacheInvariant(c: Config, worlds: seq<World>, actions: seq<Action>, i: nat)
    requires WellFormedConfig(c) && DsnsAgree(c) && IsRun(c, worlds, actions) && Initial(worlds[0]) && i < |worlds|
    ensures CacheInvariant(c, worlds[i])
  {
    if i > 0 {
      RunKeepsCacheInvariant(c, worlds, actions, i - 1);
      ActionKeepsCacheInvariant(c, worlds[i - 1], actions[i - 1]);
    }
  }

  /**
   Accounting: in every run, the successful opens under a driver key exceed the evictions by
   one when the key is cached and by nothing when it is not.
   */
  lemma OpensMinusEvictions(c: Config, worlds: seq<World>, actions: seq<Action>, i: nat, driverKey: string)
    requires WellFormedConfig(c) && DsnsAgree(c) && IsRun(c, worlds, actions) && Initial(worlds[0]) && i < |worlds|
    ensures worlds[i].opens[driverKey] == worlds[i].evictions[driverKey] + if driverKey in worlds[i].drivers then 1 else 0
  {
    RunKeepsCacheInvariant(c, worlds, actions, i);
  }

  /**
   The cache is a refinement of opening afresh: a pass that asks for the version, or migrates,
   uses a driver for the DSN that its schema resolves to, whoever put the driver there.
   */
  lemma CachedDriverIsTheRightOne(c: Config, worlds: seq<World>, actions: seq<Action>, i: nat, k: Key)
    requires WellFormedConfig(c) && DsnsAgree(c) && IsRun(c, worlds, actions) && Initial(worlds[0]) && i < |worlds|
    requires k in worlds[i].passes && (worlds[i].passes[k].Versioning? || worlds[i].passes[k].Migrating?)
    ensures k in c.dsns && worlds[i].passes[k].driver.dsn == c.dsns[k]
  {
    RunKeepsCacheInvariant(c, worlds, actions, i);
  }
}
