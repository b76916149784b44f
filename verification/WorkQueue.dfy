/**
 A rate-limiting work queue as its users may rely on it, and processNextWorkItem with the two
 workers of each queue: which items get a pass, and when. A pass that fails is not queued again.
 */
module WorkQueue {

  /** What a queue can hold: the text of a key, or anything else, which no pass is made for. */
  datatype Item = Text(key: string) | Other(id: nat)

  /**
   `dirty` are the items that want a pass and `processing` those that have one; `waiting` orders
   the dirty ones that nobody processes. `delayed` are items whose addition is still held back,
   and `failures` what the limiter has counted for an item since it was last told to forget it.
   */
  datatype Queue = Queue(
    waiting: seq<Item>,
    dirty: set<Item>,
    processing: set<Item>,
    delayed: set<Item>,
    failures: multiset<Item>)

  const EMPTY := Queue([], {}, {}, {}, multiset{})

  /** An item waits exactly when it is dirty and nobody processes it, and it waits once. */
  ghost predicate WellFormed(q: Queue) {
    (forall item :: item in q.waiting <==> item in q.dirty && item !in q.processing) &&
    forall i, j :: 0 <= i < j < |q.waiting| ==> q.waiting[i] != q.waiting[j]
  }

  function Added(q: Queue, item: Item): Queue {
    if item in q.dirty then q
    else if item in q.processing then q.(dirty := q.dirty + {item})
    else q.(dirty := q.dirty + {item}, waiting := q.waiting + [item])
  }

  /** An addition after a delay that the limiter derives from its count; the delay can be over at once. */
  function AddedRateLimited(q: Queue, item: Item, atOnce: bool): Queue {
    var counted := q.(failures := q.failures + multiset{item});
    if atOnce then Added(counted, item) else counted.(delayed := q.delayed + {item})
  }

  /** The delay of an addition is over. */
  function Elapsed(q: Queue, item: Item): Queue
    requires item in q.delayed
  {
    Added(q.(delayed := q.delayed - {item}), item)
  }

  function Taken(q: Queue): Queue
    requires q.waiting != []
  {
    q.(waiting := q.waiting[1..], processing := q.processing + {q.waiting[0]}, dirty := q.dirty - {q.waiting[0]})
  }

  function Forgotten(q: Queue, item: Item): Queue {
    q.(failures := q.failures[item := 0])
  }

  function Done(q: Queue, item: Item): Queue {
    q.(processing := q.processing - {item}, waiting := if item in q.dirty then q.waiting + [item] else q.waiting)
  }

  /** The end of a pass: only a pass that succeeded is forgotten by the limiter. */
  function Finished(q: Queue, item: Item, failed: bool): Queue {
    Done(if failed then q else Forgotten(q, item), item)
  }

  /** The queue as a mutable object. */
  class RateLimitingQueue {
    var waiting: seq<Item>
    var dirty: set<Item>
    var processing: set<Item>
    var delayed: set<Item>
    var failures: multiset<Item>
    var shuttingDown: bool

    constructor ()
      ensures State() == EMPTY && !shuttingDown
    {
      waiting, dirty, processing, delayed, failures, shuttingDown := [], {}, {}, {}, multiset{}, false;
    }

    ghost function State(): Queue
      reads this
    {
      Queue(waiting, dirty, processing, delayed, failures)
    }

    /** A queue that shuts down takes no more items, though its limiter goes on counting. */
    method AddRateLimited(item: Item)
      modifies this
      ensures !shuttingDown ==> State() == AddedRateLimited(old(State()), item, false)
      ensures shuttingDown ==> State() == AddedRateLimited(old(State()), item, false).(delayed := old(delayed))
      ensures shuttingDown == old(shuttingDown)
    {
      failures := failures + multiset{item};
      if !shuttingDown { delayed := delayed + {item}; }
    }

    /** The next item; a queue that shuts down has none once it is empty. */
    method Get() returns (item: Item, shutdown: bool)
      requires waiting != [] || shuttingDown
      modifies this
      ensures shutdown <==> old(waiting) == []
      ensures shutdown ==> State() == old(State())
      ensures !shutdown ==> item == old(waiting)[0] && State() == old(Taken(State()))
      ensures shuttingDown == old(shuttingDown)
    {
      if waiting == [] { return Text(""), true; }
      item, shutdown := waiting[0], false;
      waiting, processing, dirty := waiting[1..], processing + {item}, dirty - {item};
    }

    method Forget(item: Item)
      modifies this
      ensures State() == Forgotten(old(State()), item) && shuttingDown == old(shuttingDown)
    {
      failures := failures[item := 0];
    }

    method Complete(item: Item)
      modifies this
      ensures State() == Done(old(State()), item) && shuttingDown == old(shuttingDown)
    {
      processing := processing - {item};
      if item in dirty { waiting := waiting + [item]; }
    }
  }

  /** What syncing an item comes to: whether the pass returns an error. */
  type Handler = string -> bool

  /** Whether a turn with this item ends in an error: an item that is no text has no pass that could fail. */
  function Fails(item: Item, syncFails: Handler): bool {
    item.Text? && syncFails(item.key)
  }

  /**
   One turn of a worker with nobody else at work: it takes the first item, runs a pass if it is
   a text and lets the queue know. After a failure the item is neither forgotten nor added again.
   */
  method ProcessNextWorkItem(q: RateLimitingQueue, syncFails: Handler) returns (goOn: bool)
    requires q.waiting != [] || q.shuttingDown
    modifies q
    ensures goOn <==> old(q.waiting) != []
    ensures !goOn ==> q.State() == old(q.State())
    ensures goOn ==> q.State() == old(Finished(Taken(q.State()), q.waiting[0], Fails(q.waiting[0], syncFails)))
  {
    var item, shutdown := q.Get();
    if shutdown { return false; }
    if item.Other? {
      q.Forget(item);
    } else {
      var failed := syncFails(item.key);
      if !failed { q.Forget(item); }
    }
    q.Complete(item);
    goOn := true;
  }

  /** The queue with its workers, each with the item it has at hand. */
  datatype World = World(queue: Queue, workers: map<nat, Item>)

  datatype Action =
    | Enqueue(item: Item, atOnce: bool)
    | Elapse(item: Item)
    | Take(worker: nat)
    | Finish(worker: nat, failed: bool)

  /** Each queue has two workers. */
  const WORKERS: nat := 2

  predicate Enabled(w: World, a: Action) {
    match a
    case Enqueue(_, _) => true
    case Elapse(item) => item in w.queue.delayed
    case Take(worker) => worker < WORKERS && worker !in w.workers && w.queue.waiting != []
    case Finish(worker, _) => worker in w.workers
  }

  function Next(w: World, a: Action): World
    requires Enabled(w, a)
  {
    match a
    case Enqueue(item, atOnce) => w.(queue := AddedRateLimited(w.queue, item, atOnce))
    case Elapse(item) => w.(queue := Elapsed(w.queue, item))
    case Take(worker) => World(Taken(w.queue), w.workers[worker := w.queue.waiting[0]])
    case Finish(worker, failed) => World(Finished(w.queue, w.workers[worker], failed), w.workers - {worker})
  }

  ghost predicate IsRun(worlds: seq<World>, actions: seq<Action>) {
    |worlds| == |actions| + 1 && worlds[0] == World(EMPTY, map[]) &&
    forall i {:trigger actions[i]} :: 0 <= i < |actions| ==>
      Enabled(worlds[i], actions[i]) && worlds[i + 1] == Next(worlds[i], actions[i])
  }

  /** The items being processed are those of the workers, and no two workers have the same one. */
  ghost predicate Exclusive(w: World) {
    (forall worker :: worker in w.workers ==> w.workers[worker] in w.queue.processing) &&
    (forall item :: item in w.queue.processing ==> exists worker :: worker in w.workers && w.workers[worker] == item) &&
    forall a, b :: a in w.workers && b in w.workers && w.workers[a] == w.workers[b] ==> a == b
  }

  lemma TakeKeepsExclusive(w: World, worker: nat)
    requires WellFormed(w.queue) && Exclusive(w) && Enabled(w, Take(worker))
    ensures Exclusive(Next(w, Take(worker)))
  {
    var w', taken := Next(w, Take(worker)), w.queue.waiting[0];
    assert taken !in w.queue.processing;
    forall item | item in w'.queue.processing ensures exists a :: a in w'.workers && w'.workers[a] == item {
      if item == taken {
        assert worker in w'.workers && w'.workers[worker] == item;
      } else {
        var a :| a in w.workers && w.workers[a] == item;
        assert a in w'.workers && w'.workers[a] == item;
      }
    }
  }

  lemma FinishKeepsExclusive(w: World, worker: nat, failed: bool)
    requires Exclusive(w) && Enabled(w, Finish(worker, failed))
    ensures Exclusive(Next(w, Finish(worker, failed)))
  {
    var w' := Next(w, Finish(worker, failed));
    forall item | item in w'.queue.processing ensures exists a :: a in w'.workers && w'.workers[a] == item {
      var a :| a in w.workers && w.workers[a] == item;
      assert a in w'.workers && w'.workers[a] == item;
    }
  }

  lemma ActionKeepsWellFormed(w: World, a: Action)
    requires WellFormed(w.queue) && Exclusive(w) && Enabled(w, a)
    ensures WellFormed(Next(w, a).queue)
  {
    var q, q' := w.queue, Next(w, a).queue;
    match a
    case Enqueue(_, _) =>
    case Elapse(item) => forall k ensures k in q'.waiting <==> k in q'.dirty && k !in q'.processing {}
    case Take(_) => assert q.waiting == [q.waiting[0]] + q'.waiting;
    case Finish(worker, _) => forall k ensures k in q'.waiting <==> k in q'.dirty && k !in q'.processing {}
  }

  /** In every run, no item is in the hands of two workers at once. */
  lemma {:induction false} RunIsExclusive(worlds: seq<World>, actions: seq<Action>, i: nat)
    requires IsRun(worlds, actions) && i < |worlds|
    ensures WellFormed(worlds[i].queue) && Exclusive(worlds[i])
  {
    if i > 0 {
      RunIsExclusive(worlds, actions, i - 1);
      var w, a := worlds[i - 1], actions[i - 1];
      ActionKeepsWellFormed(w, a);
      match a
      case Take(worker) => TakeKeepsExclusive(w, worker);
      case Finish(worker, failed) => FinishKeepsExclusive(w, worker, failed);
      case Enqueue(_, _) =>
      case Elapse(_) =>
    }
  }

  lemma {:induction false} WorkersAreNumbered(worlds: seq<World>, actions: seq<Action>, i: nat)
    requires IsRun(worlds, actions) && i < |worlds|
    ensures worlds[i].workers.Keys <= {0, 1}
  {
    if i > 0 {
      WorkersAreNumbered(worlds, actions, i - 1);
      assert Enabled(worlds[i - 1], actions[i - 1]);
    }
  }

  /** At most two items are in process at once, and as long as fewer are, the next can be taken. */
  lemma TwoAtOnce(worlds: seq<World>, actions: seq<Action>, i: nat)
    requires IsRun(worlds, actions) && i < |worlds|
    ensures var busy := worlds[i].queue.processing;
            && (forall a, b, c :: a in busy && b in busy && c in busy ==> a == b || b == c || a == c)
            && (worlds[i].queue.waiting == [] || (exists a, b :: a in busy && b in busy && a != b) ||
                exists worker :: Enabled(worlds[i], Take(worker)))
  {
    RunIsExclusive(worlds, actions, i);
    WorkersAreNumbered(worlds, actions, i);
    var w := worlds[i];
    if w.queue.waiting != [] {
      if 0 in w.workers && 1 in w.workers {
        assert w.workers[0] in w.queue.processing && w.workers[1] in w.queue.processing;
      } else {
        var worker := if 0 in w.workers then 1 else 0;
        assert Enabled(w, Take(worker));
      }
    }
  }

  predicate IsEnqueue(a: Action, item: Item) {
    a.Enqueue? && a.item == item
  }

  /** What can happen to an item: it is enqueued, an addition of it comes to nothing, or a pass starts for it. */
  datatype Kind = Enqueues | Merges | Starts

  predicate Is(kind: Kind, w: World, a: Action, item: Item) {
    match kind
    case Enqueues => IsEnqueue(a, item)
    case Merges =>
      (IsEnqueue(a, item) && item in (if a.atOnce then w.queue.dirty else w.queue.delayed)) ||
      (a == Elapse(item) && item in w.queue.dirty)
    case Starts => a.Take? && w.queue.waiting != [] && w.queue.waiting[0] == item
  }

  function One(kind: Kind, w: World, a: Action, item: Item): nat {
    if Is(kind, w, a, item) then 1 else 0
  }

  /** How often it has happened in the first `n` actions. */
  function Tally(kind: Kind, worlds: seq<World>, actions: seq<Action>, n: nat, item: Item): nat
    requires n <= |actions| && |worlds| == |actions| + 1
    decreases n
  {
    if n == 0 then 0
    else Tally(kind, worlds, actions, n - 1, item) + One(kind, worlds[n - 1], actions[n - 1], item)
  }

  /** What of an item's enqueueings is still to come. */
  function Outstanding(q: Queue, item: Item): nat {
    (if item in q.delayed then 1 else 0) + if item in q.dirty then 1 else 0
  }

  lemma ActionBalances(w: World, a: Action, item: Item)
    requires WellFormed(w.queue) && Enabled(w, a)
    ensures Outstanding(Next(w, a).queue, item) + One(Merges, w, a, item) + One(Starts, w, a, item) ==
            Outstanding(w.queue, item) + One(Enqueues, w, a, item)
  {}

  /**
   Conservation: every enqueueing is still held back, still waiting for a pass, was merged with
   one that was waiting already, or has had its pass. Failed passes add nothing.
   */
  lemma {:induction false} Conservation(worlds: seq<World>, actions: seq<Action>, n: nat, item: Item)
    requires IsRun(worlds, actions) && n <= |actions|
    ensures Tally(Enqueues, worlds, actions, n, item) ==
            Outstanding(worlds[n].queue, item) + Tally(Merges, worlds, actions, n, item) +
            Tally(Starts, worlds, actions, n, item)
    decreases n
  {
    if n > 0 {
      Conservation(worlds, actions, n - 1, item);
      RunIsExclusive(worlds, actions, n - 1);
      ActionBalances(worlds[n - 1], actions[n - 1], item);
    }
  }

  /** Whether the item was enqueued after its last pass had started, or without ever having had one. */
  predicate Owed(worlds: seq<World>, actions: seq<Action>, n: nat, item: Item)
    requires n <= |actions| && |worlds| == |actions| + 1
    decreases n
  {
    if n == 0 then false
    else if IsEnqueue(actions[n - 1], item) then true
    else if Is(Starts, worlds[n - 1], actions[n - 1], item) then false
    else Owed(worlds, actions, n - 1, item)
  }

  predicate Wanted(q: Queue, item: Item) {
    item in q.delayed || item in q.dirty
  }

  /** What an action means for an item that wants a pass, or does not. */
  lemma WantedMoves(w: World, a: Action, item: Item)
    requires WellFormed(w.queue) && Enabled(w, a)
    ensures IsEnqueue(a, item) ==> Wanted(Next(w, a).queue, item)
    ensures !IsEnqueue(a, item) && !Is(Starts, w, a, item) ==> (Wanted(Next(w, a).queue, item) <==> Wanted(w.queue, item))
    ensures Is(Starts, w, a, item) ==> Wanted(w.queue, item)
  {}

  /** No enqueueing is lost, not even one that comes while the item has its pass. */
  lemma {:induction false} NoLostWakeup(worlds: seq<World>, actions: seq<Action>, n: nat, item: Item)
    requires IsRun(worlds, actions) && n <= |actions| && Owed(worlds, actions, n, item)
    ensures Wanted(worlds[n].queue, item)
    decreases n
  {
    RunIsExclusive(worlds, actions, n - 1);
    WantedMoves(worlds[n - 1], actions[n - 1], item);
    if !IsEnqueue(actions[n - 1], item) { NoLostWakeup(worlds, actions, n - 1, item); }
  }

  /**
   No retry: once an item wants no pass, it gets none until somebody enqueues it again, whether
   or not its last pass failed.
   */
  lemma {:induction false} NoPassWithoutEnqueue(worlds: seq<World>, actions: seq<Action>, n: nat, m: nat, item: Item)
    requires IsRun(worlds, actions) && n <= m <= |actions| && !Wanted(worlds[n].queue, item)
    requires forall i {:trigger actions[i]} :: n <= i < m ==> !IsEnqueue(actions[i], item)
    ensures !Wanted(worlds[m].queue, item)
    ensures forall i {:trigger actions[i]} :: n <= i < m ==> !Is(Starts, worlds[i], actions[i], item)
    decreases m - n
  {
    if n < m {
      NoPassWithoutEnqueue(worlds, actions, n, m - 1, item);
      RunIsExclusive(worlds, actions, m - 1);
      WantedMoves(worlds[m - 1], actions[m - 1], item);
    }
  }

  /** The action ends a pass for the item that succeeded. */
  predicate Succeeds(w: World, a: Action, item: Item) {
    a.Finish? && !a.failed && a.worker in w.workers && w.workers[a.worker] == item
  }

  /** How often the item was enqueued since its last successful pass ended. */
  function SinceSuccess(worlds: seq<World>, actions: seq<Action>, n: nat, item: Item): nat
    requires n <= |actions| && |worlds| == |actions| + 1
    decreases n
  {
    if n == 0 || Succeeds(worlds[n - 1], actions[n - 1], item) then 0
    else SinceSuccess(worlds, actions, n - 1, item) + if IsEnqueue(actions[n - 1], item) then 1 else 0
  }

  lemma LimiterMoves(w: World, a: Action, item: Item)
    requires Enabled(w, a)
    ensures Next(w, a).queue.failures[item] ==
            if Succeeds(w, a, item) then 0 else w.queue.failures[item] + if IsEnqueue(a, item) then 1 else 0
  {}

  /** The limiter's count, on which the delay depends, is not reset by a pass that fails. */
  lemma {:induction false} LimiterCountsSinceSuccess(worlds: seq<World>, actions: seq<Action>, n: nat, item: Item)
    requires IsRun(worlds, actions) && n <= |actions|
    ensures worlds[n].queue.failures[item] == SinceSuccess(worlds, actions, n, item)
    decreases n
  {
    if n > 0 {
      LimiterCountsSinceSuccess(worlds, actions, n - 1, item);
      LimiterMoves(worlds[n - 1], actions[n - 1], item);
    }
  }
}
