/**
 The status messages of schema passes, some of which go through one variable that all passes
 share: which message a write carries in any run, and a run in which it is another pass's.
 */
module SchemaMessages {
  import opened Resources
  import opened SchemaPass
  import opened SchemaRuns

  /** The pass is about to write a status whose message it takes from the shared variable. */
  predicate WritesShared(p: Pass) {
    p.NotingNothingApplied? || (p.Putting? && p.message.None?)
  }

  /** The status a write carries: a shared message is read when the write is made. */
  function WrittenStatus(w: World, p: Pass): Status
    requires p.NotingNothingApplied? || p.Putting?
  {
    var request := Ask(p);
    Status(request.state, if request.message.Some? then request.message.value else w.message)
  }

  /** What an action stores in the shared variable, if anything. */
  ghost function StoredBy(c: Config, w: World, a: Action): Option<Message>
    requires Enabled(c, w, a)
  {
    if a.Step? then Stores(w.passes[a.key], a.answer) else None
  }

  /** What is stored last from the world at `i` to the world at `j`, if anything. */
  ghost function LastStored(c: Config, worlds: seq<World>, actions: seq<Action>, i: nat, j: nat): Option<Message>
    requires IsRun(c, worlds, actions) && i <= j <= |actions|
    decreases j - i
  {
    if i == j then None
    else
      var stored := StoredBy(c, worlds[j - 1], actions[j - 1]);
      if stored.Some? then stored else LastStored(c, worlds, actions, i, j - 1)
  }

  lemma {:induction false} MessageIsLastStored(c: Config, worlds: seq<World>, actions: seq<Action>, i: nat, j: nat)
    requires IsRun(c, worlds, actions) && i <= j <= |actions|
    ensures var last := LastStored(c, worlds, actions, i, j);
            worlds[j].message == if last.Some? then last.value else worlds[i].message
    decreases j - i
  {
    if i < j { MessageIsLastStored(c, worlds, actions, i, j - 1); }
  }

  /** The action belongs to the pass for this schema. */
  predicate Concerns(a: Action, k: Key) {
    (a.Start? || a.Step?) && a.key == k
  }

  /** The world after the latest action of the pass for this schema. */
  function Since(actions: seq<Action>, n: nat, k: Key): (i: nat)
    requires n <= |actions|
    ensures i <= n
    ensures forall m {:trigger actions[m]} :: i <= m < n ==> !Concerns(actions[m], k)
    ensures i > 0 ==> Concerns(actions[i - 1], k)
  {
    if n == 0 || Concerns(actions[n - 1], k) then n else Since(actions, n - 1, k)
  }

  lemma {:induction false} PassWaits(c: Config, worlds: seq<World>, actions: seq<Action>, i: nat, j: nat, k: Key)
    requires IsRun(c, worlds, actions) && i <= j <= |actions|
    requires forall m {:trigger actions[m]} :: i <= m < j ==> !Concerns(actions[m], k)
    ensures k in worlds[i].passes <==> k in worlds[j].passes
    ensures k in worlds[i].passes ==> worlds[i].passes[k] == worlds[j].passes[k]
    decreases j - i
  {
    if i < j {
      PassWaits(c, worlds, actions, i, j - 1, k);
      assert !Concerns(actions[j - 1], k);
    }
  }

  /** A step that leads to a write with the shared message has stored a message itself. */
  lemma SharedWriteStored(p: Pass, answer: Answer)
    requires Running(p) && Fits(Ask(p), answer) && WritesShared(SchemaPass.Next(p, answer))
    ensures Stores(p, answer).Some?
  {}

  lemma SharedIsRead(w: World, p: Pass)
    requires WritesShared(p)
    ensures WrittenStatus(w, p).message == w.message
  {}

  /** What the pass for this schema has stored in its latest step. */
  ghost function OwnMessage(c: Config, worlds: seq<World>, actions: seq<Action>, n: nat, k: Key): Option<Message>
    requires IsRun(c, worlds, actions) && n <= |actions|
  {
    var i := Since(actions, n, k);
    if i == 0 then None else StoredBy(c, worlds[i - 1], actions[i - 1])
  }

  /** A pass that is about to write the shared message has stored what was in the variable then. */
  lemma OwnStored(c: Config, worlds: seq<World>, actions: seq<Action>, i: nat, k: Key)
    requires IsRun(c, worlds, actions) && Initial(worlds[0]) && i <= |actions|
    requires i > 0 ==> Concerns(actions[i - 1], k)
    requires k in worlds[i].passes && WritesShared(worlds[i].passes[k])
    ensures i > 0 && StoredBy(c, worlds[i - 1], actions[i - 1]) == Some(worlds[i].message)
  {
    assert i > 0;
    assert actions[i - 1].Step?;
    SharedWriteStored(worlds[i - 1].passes[k], actions[i - 1].answer);
  }

  /**
   In every run, a pass that is about to write the shared message has stored one of its own,
   and the status carries that one exactly when the last message that others have stored
   since, if there is any, is the same.
   */
  lemma OwnMessageIff(c: Config, worlds: seq<World>, actions: seq<Action>, j: nat, k: Key)
    requires IsRun(c, worlds, actions) && Initial(worlds[0]) && j <= |actions|
    requires k in worlds[j].passes && WritesShared(worlds[j].passes[k])
    ensures var own, others := OwnMessage(c, worlds, actions, j, k), LastStored(c, worlds, actions, Since(actions, j, k), j);
            own.Some? &&
            (WrittenStatus(worlds[j], worlds[j].passes[k]).message == own.value <==> others.None? || others == own)
  {
    var i := Since(actions, j, k);
    PassWaits(c, worlds, actions, i, j, k);
    OwnStored(c, worlds, actions, i, k);
    MessageIsLastStored(c, worlds, actions, i, j);
    SharedIsRead(worlds[j], worlds[j].passes[k]);
  }

  lemma {:induction false} NothingStored(c: Config, worlds: seq<World>, actions: seq<Action>, i: nat, j: nat)
    requires IsRun(c, worlds, actions) && i <= j <= |actions|
    requires forall m {:trigger actions[m]} :: i <= m < j ==> !actions[m].Step?
    ensures LastStored(c, worlds, actions, i, j).None?
    decreases j - i
  {
    if i < j { NothingStored(c, worlds, actions, i, j - 1); }
  }

  /** While no other pass takes a step, the message stays the pass's own. */
  lemma AloneTheMessageIsOwn(c: Config, worlds: seq<World>, actions: seq<Action>, j: nat, k: Key)
    requires IsRun(c, worlds, actions) && Initial(worlds[0]) && j <= |actions|
    requires k in worlds[j].passes && WritesShared(worlds[j].passes[k])
    requires forall m {:trigger actions[m]} :: Since(actions, j, k) <= m < j ==> !actions[m].Step?
    ensures Some(WrittenStatus(worlds[j], worlds[j].passes[k]).message) == OwnMessage(c, worlds, actions, j, k)
  {
    NothingStored(c, worlds, actions, Since(actions, j, k), j);
    OwnMessageIff(c, worlds, actions, j, k);
  }

  /** A write with a message of the pass's own carries it, whatever the shared variable holds. */
  lemma UnsharedMessageIsOwn(w: World, p: Pass)
    requires p.Putting? && p.message.Some?
    ensures WrittenStatus(w, p) == Status(p.state, p.message.value)
  {}

  // ---- A run that mixes two messages up ----

  /** A run that goes on with one more action. */
  lemma Extends(c: Config, worlds: seq<World>, actions: seq<Action>, a: Action)
    returns (worlds': seq<World>, actions': seq<Action>)
    requires IsRun(c, worlds, actions) && Enabled(c, worlds[|actions|], a)
    ensures actions' == actions + [a] && IsRun(c, worlds', actions') && worlds'[0] == worlds[0]
    ensures worlds <= worlds' && worlds'[|actions'|] == SchemaRuns.Next(c, worlds[|actions|], a)
  {
    worlds', actions' := worlds + [SchemaRuns.Next(c, worlds[|actions|], a)], actions + [a];
    forall i {:trigger actions'[i]} | 0 <= i < |actions'|
      ensures Enabled(c, worlds'[i], actions'[i]) && worlds'[i + 1] == SchemaRuns.Next(c, worlds'[i], actions'[i])
    {
      if i < |actions| { assert actions'[i] == actions[i] && worlds'[i] == worlds[i] && worlds'[i + 1] == worlds[i + 1]; }
    }
  }

  /** The actions lead from one world to another. */
  ghost predicate LeadsTo(c: Config, start: World, worlds: seq<World>, actions: seq<Action>, w: World) {
    IsRun(c, worlds, actions) && worlds[0] == start && worlds[|actions|] == w
  }

  ghost predicate Reaches(c: Config, start: World, w: World) {
    exists worlds, actions :: LeadsTo(c, start, worlds, actions, w)
  }

  lemma ReachesNext(c: Config, start: World, w: World, a: Action, w': World)
    requires Reaches(c, start, w) && Enabled(c, w, a) && SchemaRuns.Next(c, w, a) == w'
    ensures Reaches(c, start, w')
  {
    var worlds, actions :| LeadsTo(c, start, worlds, actions, w);
    var worlds', actions' := Extends(c, worlds, actions, a);
    assert LeadsTo(c, start, worlds', actions', w');
  }

  /** The schema gives its DSN and its source in the spec itself. */
  predicate Inline(c: Config, k: Key) {
    k in c.schemas && k in c.dsns && c.schemas[k].spec.dsn != "" && c.schemas[k].spec.source != "" &&
    c.dsns[k] == c.schemas[k].spec.dsn
  }

  /** The world with another state of one pass. */
  function At(w: World, k: Key, p: Pass): World {
    w.(passes := w.passes[k := p])
  }

  lemma StartLeads(c: Config, w: World, k: Key)
    requires k !in w.passes
    ensures Enabled(c, w, Start(k)) && SchemaRuns.Next(c, w, Start(k)) == At(w, k, Begin(k))
  {}

  lemma ReadingLeads(c: Config, w: World, k: Key)
    requires WellFormedConfig(c) && Inline(c, k) && k in w.passes && w.passes[k] == Begin(k)
    ensures var schema := c.schemas[k]; var a := Step(k, SchemaIs(Found(schema)), Untouched);
            Enabled(c, w, a) && SchemaRuns.Next(c, w, a) == At(w, k, LookingUp(schema, c.dsns[k], schema.spec.source))
  {}

  lemma LookupLeads(c: Config, w: World, k: Key, schema: DatabaseSchema, dsn: string, url: string)
    requires k in w.passes && w.passes[k] == LookingUp(schema, dsn, url) && DriverKey(schema.meta.key) !in w.drivers
    ensures var a := Step(k, DriverIs(None), Untouched);
            Enabled(c, w, a) && SchemaRuns.Next(c, w, a) == At(w, k, Opening(schema, dsn, url))
  {}

  lemma OpeningLeads(c: Config, w: World, k: Key, schema: DatabaseSchema, dsn: string, url: string)
    requires k in w.passes && w.passes[k] == Opening(schema, dsn, url)
    ensures var driver := Driver(dsn, 0); var a := Step(k, DriverIs(Some(driver)), Untouched);
            Enabled(c, w, a) &&
            SchemaRuns.Next(c, w, a) ==
              At(w, k, MakingEngine(schema, driver, url)).(
                drivers := w.drivers[DriverKey(schema.meta.key) := driver],
                opens := w.opens + multiset{DriverKey(schema.meta.key)})
  {}

  lemma EngineLeads(c: Config, w: World, k: Key, schema: DatabaseSchema, driver: Driver, url: string)
    requires k in w.passes && w.passes[k] == MakingEngine(schema, driver, url)
    ensures var a := Step(k, Ok(true), Untouched);
            Enabled(c, w, a) && SchemaRuns.Next(c, w, a) == At(w, k, Versioning(schema, driver))
  {}

  lemma DirtyLeads(c: Config, w: World, k: Key, schema: DatabaseSchema, driver: Driver, at: nat)
    requires k in w.passes && w.passes[k] == Versioning(schema, driver) && StateOf(w, driver.dsn) == Migrations.At(at, true)
    ensures var a := Step(k, VersionIs(Version(at, true)), Untouched);
            Enabled(c, w, a) &&
            SchemaRuns.Next(c, w, a) == At(w, k, Shared(schema, Error, false)).(message := DirtyDatabase(at)) &&
            StoredBy(c, w, a) == Some(DirtyDatabase(at))
  {}

  /** The world in which the pass for a schema is about to ask for the version, with a driver just opened. */
  function Asking(c: Config, w: World, k: Key): World
    requires k in c.schemas && k in c.dsns
  {
    At(w, k, Versioning(c.schemas[k], Driver(c.dsns[k], 0))).(
      drivers := w.drivers[DriverKey(k) := Driver(c.dsns[k], 0)], opens := w.opens + multiset{DriverKey(k)})
  }

  lemma ReachesOpening(c: Config, start: World, w: World, k: Key)
    requires WellFormedConfig(c) && Reaches(c, start, w) && Inline(c, k)
    requires k !in w.passes && DriverKey(k) !in w.drivers
    ensures Reaches(c, start, At(w, k, Opening(c.schemas[k], c.dsns[k], c.schemas[k].spec.source)))
  {
    var schema, dsn, url := c.schemas[k], c.dsns[k], c.schemas[k].spec.source;
    var w1, w2, w3 := At(w, k, Begin(k)), At(w, k, LookingUp(schema, dsn, url)), At(w, k, Opening(schema, dsn, url));
    StartLeads(c, w, k);
    ReachesNext(c, start, w, Start(k), w1);
    ReadingLeads(c, w1, k);
    assert At(w1, k, LookingUp(schema, dsn, url)) == w2;
    ReachesNext(c, start, w1, Step(k, SchemaIs(Found(schema)), Untouched), w2);
    LookupLeads(c, w2, k, schema, dsn, url);
    assert At(w2, k, Opening(schema, dsn, url)) == w3;
    ReachesNext(c, start, w2, Step(k, DriverIs(None), Untouched), w3);
  }

  /** The world in which the pass for a schema has just opened its driver. */
  function Opened(c: Config, w: World, k: Key): World
    requires k in c.schemas && k in c.dsns
  {
    var driver := Driver(c.dsns[k], 0);
    At(w, k, MakingEngine(c.schemas[k], driver, c.schemas[k].spec.source)).(
      drivers := w.drivers[DriverKey(k) := driver], opens := w.opens + multiset{DriverKey(k)})
  }

  lemma ReachesOpened(c: Config, start: World, w: World, k: Key)
    requires WellFormedConfig(c) && Reaches(c, start, w) && Inline(c, k)
    requires k !in w.passes && DriverKey(k) !in w.drivers
    ensures Reaches(c, start, Opened(c, w, k))
  {
    var schema, driver, url := c.schemas[k], Driver(c.dsns[k], 0), c.schemas[k].spec.source;
    var w' := At(w, k, Opening(schema, c.dsns[k], url));
    ReachesOpening(c, start, w, k);
    OpeningLeads(c, w', k, schema, c.dsns[k], url);
    assert w'.passes[k := MakingEngine(schema, driver, url)] == Opened(c, w, k).passes;
    ReachesNext(c, start, w', Step(k, DriverIs(Some(driver)), Untouched), Opened(c, w, k));
  }

  /** A pass of a schema with an inline DSN can get as far as asking for the version. */
  lemma ReachesAsking(c: Config, start: World, w: World, k: Key)
    requires WellFormedConfig(c) && Reaches(c, start, w) && Inline(c, k)
    requires k !in w.passes && DriverKey(k) !in w.drivers
    ensures Reaches(c, start, Asking(c, w, k))
  {
    var schema, driver, url := c.schemas[k], Driver(c.dsns[k], 0), c.schemas[k].spec.source;
    ReachesOpened(c, start, w, k);
    EngineLeads(c, Opened(c, w, k), k, schema, driver, url);
    assert At(Opened(c, w, k), k, Versioning(schema, driver)) == Asking(c, w, k);
    ReachesNext(c, start, Opened(c, w, k), Step(k, Ok(true), Untouched), Asking(c, w, k));
  }

  /** Two passes can come to ask for the version both. */
  lemma BothAsk(c: Config, start: World, j: Key, k: Key) returns (worlds: seq<World>, actions: seq<Action>)
    requires WellFormedConfig(c) && Inline(c, j) && Inline(c, k) && j != k && Initial(start)
    ensures IsRun(c, worlds, actions) && worlds[0] == start
    ensures var w := worlds[|actions|];
            && w.databases == start.databases && j in w.passes && k in w.passes
            && w.passes[j] == Versioning(c.schemas[j], Driver(c.dsns[j], 0))
            && w.passes[k] == Versioning(c.schemas[k], Driver(c.dsns[k], 0))
  {
    assert LeadsTo(c, start, [start], [], start);
    ReachesAsking(c, start, start, j);
    DriverKeysAreInjective(j, k);
    ReachesAsking(c, start, Asking(c, start, j), k);
    worlds, actions :| LeadsTo(c, start, worlds, actions, Asking(c, Asking(c, start, j), k));
  }

  lemma OwnBeforeOther(c: Config, worlds: seq<World>, actions: seq<Action>, n: nat, j: Key)
    requires IsRun(c, worlds, actions) && |actions| == n + 2
    requires Concerns(actions[n], j) && !Concerns(actions[n + 1], j)
    ensures OwnMessage(c, worlds, actions, n + 2, j) == StoredBy(c, worlds[n], actions[n])
  {
    assert Since(actions, n + 1, j) == n + 1;
  }

  /** Once both ask, the answers can come one after the other before either pass writes. */
  lemma BothFindDirt(c: Config, worlds: seq<World>, actions: seq<Action>, j: Key, first: Pass, k: Key, second: Pass, a: nat, b: nat)
    returns (worlds': seq<World>, actions': seq<Action>)
    requires IsRun(c, worlds, actions) && j != k && first.Versioning? && second.Versioning?
    requires var w := worlds[|actions|];
             && j in w.passes && w.passes[j] == first && StateOf(w, first.driver.dsn) == Migrations.At(a, true)
             && k in w.passes && w.passes[k] == second && StateOf(w, second.driver.dsn) == Migrations.At(b, true)
    ensures IsRun(c, worlds', actions') && worlds'[0] == worlds[0]
    ensures OwnMessage(c, worlds', actions', |actions'|, j) == Some(DirtyDatabase(a))
    ensures var w := worlds'[|actions'|];
            && w.databases == worlds[|actions|].databases && w.message == DirtyDatabase(b)
            && j in w.passes && w.passes[j] == Shared(first.schema, Error, false)
  {
    var n := |actions|;
    DirtyLeads(c, worlds[n], j, first.schema, first.driver, a);
    var worlds1, actions1 := Extends(c, worlds, actions, Step(j, VersionIs(Version(a, true)), Untouched));
    DirtyLeads(c, worlds1[n + 1], k, second.schema, second.driver, b);
    worlds', actions' := Extends(c, worlds1, actions1, Step(k, VersionIs(Version(b, true)), Untouched));
    assert actions'[n] == actions1[n] && worlds'[n] == worlds1[n] == worlds[n];
    OwnBeforeOther(c, worlds', actions', n, j);
  }

  /**
   The mix-up is reachable: any two schemas with inline DSNs, whose databases are dirty at
   different versions, have a run in which the first one's status names the second one's version.
   */
  lemma MessagesCanBeMixedUp(c: Config, start: World, j: Key, k: Key, a: nat, b: nat)
    returns (worlds: seq<World>, actions: seq<Action>)
    requires WellFormedConfig(c) && Inline(c, j) && Inline(c, k) && j != k && a != b && Initial(start)
    requires StateOf(start, c.dsns[j]) == Migrations.At(a, true) && StateOf(start, c.dsns[k]) == Migrations.At(b, true)
    ensures IsRun(c, worlds, actions) && worlds[0] == start
    ensures var w := worlds[|actions|];
            && j in w.passes && w.passes[j].Putting? && StateOf(w, c.dsns[j]) == Migrations.At(a, true)
            && OwnMessage(c, worlds, actions, |actions|, j) == Some(DirtyDatabase(a))
            && WrittenStatus(w, w.passes[j]) == Status(Error, DirtyDatabase(b))
  {
    worlds, actions := BothAsk(c, start, j, k);
    var w := worlds[|actions|];
    worlds, actions := BothFindDirt(c, worlds, actions, j, w.passes[j], k, w.passes[k], a, b);
  }
}
