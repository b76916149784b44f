/**
 Whole-object status writes against versioned storage: every write of a pass starts from the
 one object the pass read, so at most one of them takes effect, and no write undoes an edit.
 */
module StatusWrites {
  import opened Resources
  import opened Api
  import opened Cluster
  import opened ClusterChildren
  import opened PassFacts
  import D = DatabasePass
  import S = ServerPass
  import SP = SchemaPass
  import SR = SchemaReconciler

  /** What happens to a stored resource: a controller's write, or someone else's edit. */
  datatype Event<S> = Write(written: Resource<S>) | Edit(edited: Resource<S>)

  /** An edit is made against the current version and replaces the content. */
  function After<S(==)>(stored: Resource<S>, event: Event<S>): Resource<S> {
    match event
    case Write(written) => Update(stored, written)
    case Edit(edited) =>
      edited.(meta := stored.meta.(version := stored.meta.version + 1, labels := edited.meta.labels))
  }

  /** The resource before the first event and after each of them. */
  function History<S(==)>(stored: Resource<S>, events: seq<Event<S>>): (states: seq<Resource<S>>)
    ensures |states| == |events| + 1 && states[0] == stored
    decreases |events|
  {
    if events == [] then [stored] else [stored] + History(After(stored, events[0]), events[1..])
  }

  lemma {:induction false} HistoryStep<S>(stored: Resource<S>, events: seq<Event<S>>, i: nat)
    requires i < |events|
    ensures History(stored, events)[i + 1] == After(History(stored, events)[i], events[i])
    decreases |events|
  {
    if i > 0 { HistoryStep(After(stored, events[0]), events[1..], i - 1); }
  }

  /** Versions never go back, and the same version means the same object. */
  lemma {:induction false} VersionsGrow<S>(stored: Resource<S>, events: seq<Event<S>>, i: nat, j: nat)
    requires i <= j <= |events|
    ensures var states := History(stored, events);
            && states[i].meta.version <= states[j].meta.version
            && (states[i].meta.version == states[j].meta.version ==> states[i] == states[j])
    decreases j - i
  {
    if i < j {
      VersionsGrow(stored, events, i, j - 1);
      HistoryStep(stored, events, j - 1);
    }
  }

  ghost predicate LandsAt<S>(stored: Resource<S>, events: seq<Event<S>>, i: nat)
    requires i < |events|
  {
    events[i].Write? && History(stored, events)[i + 1] != History(stored, events)[i]
  }

  /**
   One landing write per pass: of all writes that carry the same version, as those of one
   pass do, at most one changes the stored object, whatever happens in between.
   */
  lemma AtMostOneLands<S>(stored: Resource<S>, events: seq<Event<S>>, i: nat, j: nat)
    requires i < j < |events| && events[i].Write? && events[j].Write?
    requires events[i].written.meta.version == events[j].written.meta.version
    requires LandsAt(stored, events, i)
    ensures !LandsAt(stored, events, j)
  {
    HistoryStep(stored, events, i);
    HistoryStep(stored, events, j);
    VersionsGrow(stored, events, i + 1, j);
  }

  function Writes<S>(writes: seq<Resource<S>>): seq<Event<S>> {
    seq(|writes|, i requires 0 <= i < |writes| => Write(writes[i]))
  }

  function FirstDifference<S(==)>(stored: Resource<S>, writes: seq<Resource<S>>): (n: nat)
    ensures n <= |writes|
    ensures forall i :: 0 <= i < n ==> writes[i] == stored
    ensures n < |writes| ==> writes[n] != stored
  {
    if writes == [] || writes[0] != stored then 0 else 1 + FirstDifference(stored, writes[1..])
  }

  /**
   Undisturbed, it is the first write whose content differs from what is stored that lands;
   the stored object stays as it is exactly when there is none.
   */
  lemma {:induction false} FirstDifferenceLands<S>(stored: Resource<S>, writes: seq<Resource<S>>)
    requires forall i :: 0 <= i < |writes| ==> writes[i].meta.version == stored.meta.version
    ensures var n := FirstDifference(stored, writes);
            History(stored, Writes(writes))[|writes|] == if n == |writes| then stored else Update(stored, writes[n])
    ensures FirstDifference(stored, writes) < |writes| ==> Update(stored, writes[FirstDifference(stored, writes)]) != stored
  {
    var events := Writes(writes);
    var n := FirstDifference(stored, writes);
    var k := 0;
    while k < |writes|
      invariant k <= |writes|
      invariant History(stored, events)[k] == if n < k then Update(stored, writes[n]) else stored
    {
      HistoryStep(stored, events, k);
      k := k + 1;
    }
  }

  /** A write that lands replaces the very object whose version it carries. */
  lemma LandsOnWhatWasRead<S>(stored: Resource<S>, events: seq<Event<S>>, i: nat, j: nat)
    requires i <= j < |events| && LandsAt(stored, events, j)
    requires events[j].written.meta.version == History(stored, events)[i].meta.version
    ensures History(stored, events)[j] == History(stored, events)[i]
  {
    HistoryStep(stored, events, j);
    VersionsGrow(stored, events, i, j);
  }

  /** An object as a lister may hand it out: an earlier version, with sourced passwords overwritten at most. */
  ghost predicate CachedFrom(earlier: Database, cached: Database) {
    cached.meta.version == earlier.meta.version && CopyOfDatabase(earlier, cached)
  }

  ghost predicate WrittenOnPath(cached: Database, answers: seq<Answer>, written: Database) {
    var p := Follow(Opened(cached), answers);
    D.Running(p) && D.Ask(p) == PutDatabase(written)
  }

  /** The write is one that a Database pass makes on some path after reading an earlier version. */
  ghost predicate ByPass(states: seq<Database>, j: nat, written: Database) {
    exists i: nat, cached, answers ::
      i <= j < |states| && CachedFrom(states[i], cached) && WrittenOnPath(cached, answers, written)
  }

  /** Every write in the history comes from a pass. */
  ghost predicate PassesAndEdits(stored: Database, events: seq<Event<DatabaseSpec>>) {
    forall j {:trigger events[j]} :: 0 <= j < |events| && events[j].Write? ==>
      ByPass(History(stored, events), j, events[j].written)
  }

  lemma SameSpecTransitive(a: DatabaseSpec, b: DatabaseSpec, d: DatabaseSpec)
    requires SameSpec(a, b) && SameSpec(b, d)
    ensures SameSpec(a, d)
  {
    SameUsersTransitive(Users(a), Users(b), Users(d));
  }

  /** A pass's write changes nothing in the stored spec but sourced passwords. */
  lemma WriteKeepsSpec(stored: Database, events: seq<Event<DatabaseSpec>>, j: nat)
    requires j < |events| && events[j].Write? && PassesAndEdits(stored, events)
    ensures SameSpec(History(stored, events)[j].spec, History(stored, events)[j + 1].spec)
  {
    var states, written := History(stored, events), events[j].written;
    SameUsersReflexive(Users(states[j].spec));
    HistoryStep(stored, events, j);
    if LandsAt(stored, events, j) {
      var i: nat, cached, answers :|
        i <= j < |states| && CachedFrom(states[i], cached) && WrittenOnPath(cached, answers, written);
      WritesWhatItRead(cached, answers);
      LandsOnWhatWasRead(stored, events, i, j);
      SameSpecTransitive(states[i].spec, cached.spec, written.spec);
    }
  }

  /**
   No lost edits: from an edit on, until the next one, the stored spec is the edited spec up
   to sourced passwords, although passes write back whole objects they read at any time
   before or after the edit.
   */
  lemma {:induction false} EditsArePreserved(stored: Database, events: seq<Event<DatabaseSpec>>, i: nat, j: nat)
    requires i <= j <= |events| && PassesAndEdits(stored, events)
    requires forall k :: i <= k < j ==> events[k].Write?
    ensures SameSpec(History(stored, events)[i].spec, History(stored, events)[j].spec)
    decreases j - i
  {
    if i == j {
      SameUsersReflexive(Users(History(stored, events)[i].spec));
    } else {
      EditsArePreserved(stored, events, i, j - 1);
      WriteKeepsSpec(stored, events, j - 1);
      SameSpecTransitive(History(stored, events)[i].spec, History(stored, events)[j - 1].spec, History(stored, events)[j].spec);
    }
  }

  /** Two writes of one pass, wherever they come on its path, do not both land. */
  lemma OneLandingPerPass(stored: Database, events: seq<Event<DatabaseSpec>>, read: Database,
                          answers1: seq<Answer>, answers2: seq<Answer>, i: nat, j: nat)
    requires i < j < |events| && events[i].Write? && events[j].Write?
    requires WrittenOnPath(read, answers1, events[i].written) && WrittenOnPath(read, answers2, events[j].written)
    ensures !(LandsAt(stored, events, i) && LandsAt(stored, events, j))
  {
    WritesWhatItRead(read, answers1);
    WritesWhatItRead(read, answers2);
    if LandsAt(stored, events, i) { AtMostOneLands(stored, events, i, j); }
  }

  ghost predicate WrittenOnServerPath(read: DatabaseServer, answers: seq<Answer>, written: DatabaseServer) {
    var p := FollowServer(S.AfterBegin(read), answers);
    S.Running(p) && S.Ask(p) == PutServer(written)
  }

  lemma OneLandingPerServerPass(stored: DatabaseServer, events: seq<Event<DatabaseServerSpec>>, read: DatabaseServer,
                                answers1: seq<Answer>, answers2: seq<Answer>, i: nat, j: nat)
    requires i < j < |events| && events[i].Write? && events[j].Write?
    requires WrittenOnServerPath(read, answers1, events[i].written) && WrittenOnServerPath(read, answers2, events[j].written)
    ensures !(LandsAt(stored, events, i) && LandsAt(stored, events, j))
  {
    ServerWritesWhatItRead(read, answers1);
    ServerWritesWhatItRead(read, answers2);
    if LandsAt(stored, events, i) { AtMostOneLands(stored, events, i, j); }
  }

  /** The objects that a schema pass sends after reading its object, whatever other passes do meanwhile. */
  ghost function WrittenBySchemaPass(read: DatabaseSchema, start: SR.Variables, env: SR.Environment, clock: nat): seq<DatabaseSchema>
    requires SR.AnswersFit(env) && start.written == []
  {
    SR.Run(SP.ChooseDsn(read), start, env, clock).variables.written
  }

  lemma OneLandingPerSchemaPass(stored: DatabaseSchema, events: seq<Event<DatabaseSchemaSpec>>, read: DatabaseSchema,
                                start: SR.Variables, env: SR.Environment, clock: nat, i: nat, j: nat)
    requires SR.AnswersFit(env) && start.written == []
    requires i < j < |events| && events[i].Write? && events[j].Write?
    requires events[i].written in WrittenBySchemaPass(read, start, env, clock)
    requires events[j].written in WrittenBySchemaPass(read, start, env, clock)
    ensures !(LandsAt(stored, events, i) && LandsAt(stored, events, j))
  {
    SR.WritesWhatItRead(SP.ChooseDsn(read), start, env, clock, read);
    if LandsAt(stored, events, i) { AtMostOneLands(stored, events, i, j); }
  }

  /** All the objects that a Database pass writes along these answers, in order. */
  function Written(p: D.Pass, answers: seq<Answer>): seq<Database>
    requires D.WellFormedPass(p)
    decreases |answers|
  {
    if answers == [] || !D.Running(p) || !Fits(D.Ask(p), answers[0]) then []
    else (if D.Ask(p).PutDatabase? then [D.Ask(p).db] else []) + Written(D.Next(p, answers[0]), answers[1..])
  }

  lemma {:induction false} AllCarryTheVersion(read: Database, p: D.Pass, answers: seq<Answer>)
    requires D.WellFormedPass(p) && StillHolds(read, p)
    ensures forall i :: 0 <= i < |Written(p, answers)| ==> Written(p, answers)[i].meta.version == read.meta.version
    decreases |answers|
  {
    if answers != [] && D.Running(p) && Fits(D.Ask(p), answers[0]) {
      NextHolds(read, p, answers[0]);
      AllCarryTheVersion(read, D.Next(p, answers[0]), answers[1..]);
    }
  }

  /**
   On every path of an undisturbed pass, of all its status writes the first that differs from
   the stored object is the one that takes effect, and the object stays as it is exactly when
   none of them differs.
   */
  lemma PassLandsFirstDifference(stored: Database, read: Database, answers: seq<Answer>)
    requires read.meta.version == stored.meta.version
    ensures var writes := Written(Opened(read), answers); var n := FirstDifference(stored, writes);
            && History(stored, Writes(writes))[|writes|] == (if n == |writes| then stored else Update(stored, writes[n]))
            && (n < |writes| ==> Update(stored, writes[n]) != stored)
  {
    OpenedHolds(read);
    AllCarryTheVersion(read, Opened(read), answers);
    FirstDifferenceLands(stored, Written(Opened(read), answers));
  }
}
