/**
 Migration safety over runs of schema passes, with one schema per database.
 */
module SchemaMigrations {
  import opened Resources
  import opened SchemaPass
  import opened SchemaRuns

  /** The database stands where the schema wants it: clean at the target, or untouched when the target is 0. */
  predicate Reached(state: Migrations, target: nat) {
    state == At(target, false) || (target == 0 && state.Untouched?)
  }

  /** A pass that has seen its database clean still finds it clean. */
  ghost predicate SeesClean(w: World, p: Pass) {
    match p
    case NotingNothingApplied(_, driver) => !Dirty(StateOf(w, driver.dsn))
    case Migrating(_, driver) => !Dirty(StateOf(w, driver.dsn))
    case _ => true
  }

  ghost predicate AllSeeClean(w: World) {
    forall k :: k in w.passes ==> SeesClean(w, w.passes[k])
  }

  /** A step changes no database but the one of its own schema. */
  lemma StepKeepsOtherDatabases(c: Config, w: World, k: Key, answer: Answer, after: Migrations, dsn: string)
    requires Enabled(c, w, Step(k, answer, after)) && UsesOwnDsn(c, k, w.passes[k])
    requires !w.passes[k].Migrating? || (k in c.dsns ==> c.dsns[k] != dsn)
    ensures StateOf(SchemaRuns.Next(c, w, Step(k, answer, after)), dsn) == StateOf(w, dsn)
  {}

  lemma OwnStepSeesClean(c: Config, w: World, k: Key, answer: Answer, after: Migrations)
    requires Enabled(c, w, Step(k, answer, after)) && SeesClean(w, w.passes[k])
    ensures SeesClean(SchemaRuns.Next(c, w, Step(k, answer, after)), SchemaPass.Next(w.passes[k], answer))
  {}

  lemma OthersStillSeeClean(c: Config, w: World, k: Key, answer: Answer, after: Migrations, j: Key, q: Pass)
    requires OneSchemaPerDatabase(c) && Enabled(c, w, Step(k, answer, after)) && j != k
    requires UsesOwnDsn(c, k, w.passes[k]) && UsesOwnDsn(c, j, q) && SeesClean(w, q)
    ensures SeesClean(SchemaRuns.Next(c, w, Step(k, answer, after)), q)
  {
    if q.NotingNothingApplied? || q.Migrating? {
      StepKeepsOtherDatabases(c, w, k, answer, after, q.driver.dsn);
    }
  }

  lemma StepKeepsSeesClean(c: Config, w: World, k: Key, answer: Answer, after: Migrations)
    requires CacheInvariant(c, w) && OneSchemaPerDatabase(c) && AllSeeClean(w) && Enabled(c, w, Step(k, answer, after))
    ensures AllSeeClean(SchemaRuns.Next(c, w, Step(k, answer, after)))
  {
    OwnStepSeesClean(c, w, k, answer, after);
    forall j | j in w.passes && j != k ensures SeesClean(SchemaRuns.Next(c, w, Step(k, answer, after)), w.passes[j]) {
      OthersStillSeeClean(c, w, k, answer, after, j, w.passes[j]);
    }
  }

  lemma ActionKeepsSeesClean(c: Config, w: World, a: Action)
    requires CacheInvariant(c, w) && OneSchemaPerDatabase(c) && AllSeeClean(w) && Enabled(c, w, a)
    ensures AllSeeClean(SchemaRuns.Next(c, w, a))
  {
    match a
    case Step(k, answer, after) => StepKeepsSeesClean(c, w, k, answer, after);
    case Start(_) =>
    case Repair(_, _) =>
  }

  ghost predicate Proper(c: Config, worlds: seq<World>, actions: seq<Action>) {
    WellFormedConfig(c) && DsnsAgree(c) && OneSchemaPerDatabase(c) && IsRun(c, worlds, actions) && Initial(worlds[0])
  }

  lemma {:induction false} RunSeesClean(c: Config, worlds: seq<World>, actions: seq<Action>, i: nat)
    requires Proper(c, worlds, actions) && i < |worlds|
    ensures AllSeeClean(worlds[i])
  {
    if i > 0 {
      RunKeepsCacheInvariant(c, worlds, actions, i - 1);
      RunSeesClean(c, worlds, actions, i - 1);
      ActionKeepsSeesClean(c, worlds[i - 1], actions[i - 1]);
    }
  }

  /** The action is a migration of this database. */
  ghost predicate Migrates(w: World, a: Action, dsn: string) {
    a.Step? && a.key in w.passes && w.passes[a.key].Migrating? && w.passes[a.key].driver.dsn == dsn
  }

  /** No run ever migrates a database while it is dirty, even when others repair databases meanwhile. */
  lemma NeverMigratesDirty(c: Config, worlds: seq<World>, actions: seq<Action>, i: nat, dsn: string)
    requires Proper(c, worlds, actions) && i < |actions| && Migrates(worlds[i], actions[i], dsn)
    ensures !Dirty(StateOf(worlds[i], dsn))
  {
    RunSeesClean(c, worlds, actions, i);
    assert SeesClean(worlds[i], worlds[i].passes[actions[i].key]);
  }

  lemma StateMovesOnlyBy(c: Config, w: World, a: Action, dsn: string)
    requires CacheInvariant(c, w) && Enabled(c, w, a)
    requires !Migrates(w, a, dsn) && !(a.Repair? && a.dsn == dsn)
    ensures StateOf(SchemaRuns.Next(c, w, a), dsn) == StateOf(w, dsn)
  {}

  /** One action finds a database dirty: it does not migrate it, and without repair leaves it as it is. */
  lemma DirtyStaysOnce(c: Config, worlds: seq<World>, actions: seq<Action>, i: nat, dsn: string)
    requires Proper(c, worlds, actions) && i < |actions| && Dirty(StateOf(worlds[i], dsn))
    requires !(actions[i].Repair? && actions[i].dsn == dsn)
    ensures StateOf(worlds[i + 1], dsn) == StateOf(worlds[i], dsn) && !Migrates(worlds[i], actions[i], dsn)
  {
    if Migrates(worlds[i], actions[i], dsn) { NeverMigratesDirty(c, worlds, actions, i, dsn); }
    RunKeepsCacheInvariant(c, worlds, actions, i);
    StateMovesOnlyBy(c, worlds[i], actions[i], dsn);
  }

  /**
   The first migration that leaves a database dirty is the last one: without repair, the
   database stays exactly as that migration left it and no pass migrates it again.
   */
  lemma {:induction false} DirtyStaysUntilRepair(c: Config, worlds: seq<World>, actions: seq<Action>, i: nat, j: nat, dsn: string)
    requires Proper(c, worlds, actions) && i <= j < |worlds| && Dirty(StateOf(worlds[i], dsn))
    requires forall n {:trigger actions[n]} :: i <= n < j ==> !(actions[n].Repair? && actions[n].dsn == dsn)
    ensures StateOf(worlds[j], dsn) == StateOf(worlds[i], dsn)
    ensures forall n {:trigger actions[n]} :: i <= n < j ==> !Migrates(worlds[n], actions[n], dsn)
    decreases j - i
  {
    if i < j {
      DirtyStaysUntilRepair(c, worlds, actions, i, j - 1, dsn);
      DirtyStaysOnce(c, worlds, actions, j - 1, dsn);
    }
  }

  /** What holds about one schema while nobody else touches its database. */
  ghost predicate Undisturbed(c: Config, k: Key, w: World)
    requires k in c.schemas && k in c.dsns
  {
    var dsn, target := c.dsns[k], Target(c.schemas[k]);
    && w.successes[dsn] <= 1
    && (w.successes[dsn] == 1 ==> StateOf(w, dsn) == At(target, false))
    && (k in w.passes ==>
          match w.passes[k]
          case NotingNothingApplied(_, _) => StateOf(w, dsn).Untouched?
          case Migrating(_, _) => !Reached(StateOf(w, dsn), target)
          case Putting(_, state, _, _) => state.Success? ==> Reached(StateOf(w, dsn), target)
          case _ => true)
  }

  lemma OnlyMigratingMoves(c: Config, w: World, k: Key, answer: Answer, after: Migrations)
    requires Enabled(c, w, Step(k, answer, after)) && !w.passes[k].Migrating?
    ensures var w' := SchemaRuns.Next(c, w, Step(k, answer, after));
            w'.databases == w.databases && w'.successes == w.successes
  {}

  /** What a step that does not migrate leads to, given the state that its answer tells of. */
  lemma ReadingLeadsTo(c: Config, k: Key, w: World, p: Pass, answer: Answer)
    requires k in c.schemas && k in c.dsns && WorksOn(c, k, p) && UsesOwnDsn(c, k, p) && !p.Migrating?
    requires Running(p) && Fits(Ask(p), answer) && Possible(c, w, k, p, answer)
    requires p.NotingNothingApplied? ==> StateOf(w, c.dsns[k]).Untouched?
    ensures var p', state, target := SchemaPass.Next(p, answer), StateOf(w, c.dsns[k]), Target(c.schemas[k]);
            && (p'.NotingNothingApplied? ==> state.Untouched?)
            && (p'.Migrating? ==> !Reached(state, target))
            && (p'.Putting? && p'.state.Success? ==> Reached(state, target))
  {
    if p.Versioning? || p.NotingNothingApplied? {
      assert Target(p.schema) == Target(c.schemas[k]);
    }
  }

  lemma OwnMigrationCounts(c: Config, k: Key, w: World, answer: Answer, after: Migrations)
    requires k in c.schemas && k in c.dsns && Undisturbed(c, k, w) && Enabled(c, w, Step(k, answer, after))
    requires WorksOn(c, k, w.passes[k]) && UsesOwnDsn(c, k, w.passes[k]) && w.passes[k].Migrating?
    ensures Undisturbed(c, k, SchemaRuns.Next(c, w, Step(k, answer, after)))
  {
    assert Target(w.passes[k].schema) == Target(c.schemas[k]);
  }

  lemma OwnStepKeepsUndisturbed(c: Config, k: Key, w: World, answer: Answer, after: Migrations)
    requires k in c.schemas && k in c.dsns && Undisturbed(c, k, w) && Enabled(c, w, Step(k, answer, after))
    requires WorksOn(c, k, w.passes[k]) && UsesOwnDsn(c, k, w.passes[k])
    ensures Undisturbed(c, k, SchemaRuns.Next(c, w, Step(k, answer, after)))
  {
    var p := w.passes[k];
    if p.Migrating? {
      OwnMigrationCounts(c, k, w, answer, after);
    } else {
      OnlyMigratingMoves(c, w, k, answer, after);
      ReadingLeadsTo(c, k, w, p, answer);
    }
  }

  lemma OthersKeepUndisturbed(c: Config, k: Key, w: World, j: Key, answer: Answer, after: Migrations)
    requires k in c.schemas && k in c.dsns && Undisturbed(c, k, w) && Enabled(c, w, Step(j, answer, after)) && j != k
    requires OneSchemaPerDatabase(c) && UsesOwnDsn(c, j, w.passes[j])
    ensures Undisturbed(c, k, SchemaRuns.Next(c, w, Step(j, answer, after)))
  {
    StepKeepsOtherDatabases(c, w, j, answer, after, c.dsns[k]);
    assert SchemaRuns.Next(c, w, Step(j, answer, after)).successes[c.dsns[k]] == w.successes[c.dsns[k]];
  }

  lemma {:induction false} RunKeepsUndisturbed(c: Config, worlds: seq<World>, actions: seq<Action>, i: nat, k: Key)
    requires Proper(c, worlds, actions) && i < |worlds| && k in c.schemas
    requires forall n {:trigger actions[n]} :: 0 <= n < i ==> !(actions[n].Repair? && actions[n].dsn == c.dsns[k])
    ensures Undisturbed(c, k, worlds[i])
  {
    if i > 0 {
      RunKeepsUndisturbed(c, worlds, actions, i - 1, k);
      RunKeepsCacheInvariant(c, worlds, actions, i - 1);
      match actions[i - 1]
      case Step(j, answer, after) =>
        if j == k {
          OwnStepKeepsUndisturbed(c, k, worlds[i - 1], answer, after);
        } else {
          OthersKeepUndisturbed(c, k, worlds[i - 1], j, answer, after);
        }
      case Start(_) =>
      case Repair(_, _) =>
    }
  }

  /**
   While nobody else touches the database: a report of success is only written when the
   database is clean at the requested version, or untouched with version 0 requested; and at
   most one migration succeeds in the whole run. A negative version counts as its 64-bit
   two's complement.
   */
  lemma SuccessMeansReached(c: Config, worlds: seq<World>, actions: seq<Action>, i: nat, k: Key)
    requires Proper(c, worlds, actions) && i < |worlds| && k in c.schemas
    requires forall n {:trigger actions[n]} :: 0 <= n < i ==> !(actions[n].Repair? && actions[n].dsn == c.dsns[k])
    ensures var state, version := StateOf(worlds[i], c.dsns[k]), c.schemas[k].spec.version;
            k in worlds[i].passes && worlds[i].passes[k].Putting? && worlds[i].passes[k].state.Success? ==>
              && (0 <= version < 0x1_0000_0000_0000_0000 ==> state == At(version, false) || (version == 0 && state.Untouched?))
              && (-0x8000_0000_0000_0000 <= version < 0 ==> state == At(version + 0x1_0000_0000_0000_0000, false))
    ensures worlds[i].successes[c.dsns[k]] <= 1
  {
    RunKeepsUndisturbed(c, worlds, actions, i, k);
  }

  /** Every migration of every run is of the schema's own database, and to the version requested. */
  lemma MigratesAsRequested(c: Config, worlds: seq<World>, actions: seq<Action>, i: nat, k: Key)
    requires WellFormedConfig(c) && DsnsAgree(c) && IsRun(c, worlds, actions) && Initial(worlds[0])
    requires i < |actions| && actions[i].Step? && actions[i].key == k && Ask(worlds[i].passes[k]).Migrate?
    ensures k in c.schemas && k in c.dsns &&
            var request, version := Ask(worlds[i].passes[k]), c.schemas[k].spec.version;
            && request.driver.dsn == c.dsns[k]
            && (0 <= version < 0x1_0000_0000_0000_0000 ==> request.target == version)
            && (-0x8000_0000_0000_0000 <= version < 0 ==> request.target == version + 0x1_0000_0000_0000_0000)
    ensures actions[i].answer.ok ==> k in c.dsns && StateOf(worlds[i + 1], c.dsns[k]) == At(Ask(worlds[i].passes[k]).target, false)
  {
    RunKeepsCacheInvariant(c, worlds, actions, i);
    assert Ask(worlds[i].passes[k]) == Migrate(worlds[i].passes[k].driver, Target(worlds[i].passes[k].schema));
  }
}
