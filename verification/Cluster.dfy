/**
 The controller at work: any number of server and Database passes in flight, interleaved
 request by request over one store, with listers that read old views and faults anywhere.
 At most one pass per key is in flight. Specs do not change and nothing is deleted.
 */
module Cluster {
  import opened Resources
  import opened Postgres
  import opened Api
  import D = DatabasePass
  import S = ServerPass

  /** The resources as created, and which instance a DSN text opens. */
  datatype Config = Config(
    servers: map<Key, DatabaseServer>,
    databases: map<Key, Database>,
    opens: Opens)

  datatype World = World(
    store: Store,
    databasePasses: map<Key, D.Pass>,
    serverPasses: map<Key, S.Pass>)

  /** A step of the cluster; `view` is what the listers show during it. */
  datatype Action =
    | StartDatabase(key: Key)
    | StartServer(key: Key)
    | DatabaseStep(key: Key, view: View, fault: Fault)
    | ServerStep(key: Key, view: View, fault: Fault)
    | Outside(after: Store)

  /** A user as it may sit in a cache: a sourced password may have been overwritten by an earlier pass. */
  predicate SameUser(a: DatabaseUser, b: DatabaseUser) {
    b == a.(password := b.password) && (a.passwordFrom.None? ==> b.password == a.password)
  }

  ghost predicate SameUsers(a: seq<DatabaseUser>, b: seq<DatabaseUser>) {
    |a| == |b| && forall i :: 0 <= i < |a| ==> SameUser(a[i], b[i])
  }

  /** Two specs that differ at most in sourced passwords. */
  ghost predicate SameSpec(a: DatabaseSpec, b: DatabaseSpec) {
    b == a.(users := b.users) && (a.users.Some? <==> b.users.Some?) && SameUsers(Users(a), Users(b))
  }

  ghost predicate CopyOfDatabase(a: Database, b: Database) {
    a.meta.key == b.meta.key && a.meta.uid == b.meta.uid && SameSpec(a.spec, b.spec)
  }

  ghost predicate CopyOfServer(a: DatabaseServer, b: DatabaseServer) {
    a.meta.key == b.meta.key && a.meta.uid == b.meta.uid && a.spec == b.spec
  }

  /** What a lister may show: some earlier version of an object, or nothing yet. */
  ghost predicate Stale(c: Config, store: Store, view: View) {
    (forall k :: k in view.databases ==> k in c.databases && CopyOfDatabase(c.databases[k], view.databases[k])) &&
    (forall k :: k in view.servers ==> k in c.servers && CopyOfServer(c.servers[k], view.servers[k])) &&
    (forall k :: k in view.pods ==> k in store.pods && view.pods[k].owner == store.pods[k].owner) &&
    (forall k :: k in view.services ==> k in store.services && view.services[k].owner == store.services[k].owner) &&
    (forall k :: k in view.secrets ==> k in store.secrets && view.secrets[k].owner == store.secrets[k].owner)
  }

  /** No child disappears or changes its controller. */
  ghost predicate OwnersKept(before: Store, after: Store) {
    (forall k :: k in before.pods ==> k in after.pods && after.pods[k].owner == before.pods[k].owner) &&
    (forall k :: k in before.services ==> k in after.services && after.services[k].owner == before.services[k].owner) &&
    (forall k :: k in before.secrets ==> k in after.secrets && after.secrets[k].owner == before.secrets[k].owner)
  }

  ghost predicate Ours(c: Config, owner: Option<OwnerRef>) {
    owner.Some? &&
    ((exists k :: k in c.servers && c.servers[k].meta.uid == owner.value.uid) ||
     (exists k :: k in c.databases && c.databases[k].meta.uid == owner.value.uid))
  }

  /** What others do: they may create children, but none that claim one of our resources as controller. */
  ghost predicate OutsideMay(c: Config, before: Store, after: Store) {
    OwnersKept(before, after) &&
    (forall k :: k in after.pods && k !in before.pods ==> !Ours(c, after.pods[k].owner)) &&
    (forall k :: k in after.services && k !in before.services ==> !Ours(c, after.services[k].owner)) &&
    (forall k :: k in after.secrets && k !in before.secrets ==> !Ours(c, after.secrets[k].owner))
  }

  /** Resources have their own keys, and no two have the same uid. */
  ghost predicate WellFormedConfig(c: Config) {
    (forall k :: k in c.servers ==> c.servers[k].meta.key == k) &&
    (forall k :: k in c.databases ==> c.databases[k].meta.key == k) &&
    (forall k1, k2 :: k1 in c.servers && k2 in c.servers && k1 != k2 ==>
       c.servers[k1].meta.uid != c.servers[k2].meta.uid) &&
    (forall k1, k2 :: k1 in c.databases && k2 in c.databases && k1 != k2 ==>
       c.databases[k1].meta.uid != c.databases[k2].meta.uid) &&
    (forall k1, k2 :: k1 in c.servers && k2 in c.databases ==> c.servers[k1].meta.uid != c.databases[k2].meta.uid)
  }

  /** Whether the action can happen. */
  ghost predicate Enabled(c: Config, w: World, a: Action) {
    match a
    case StartDatabase(k) => k in w.databasePasses ==> !D.Running(w.databasePasses[k])
    case StartServer(k) => k in w.serverPasses ==> !S.Running(w.serverPasses[k])
    case DatabaseStep(k, view, _) =>
      k in w.databasePasses && D.Running(w.databasePasses[k]) && Stale(c, w.store, view) && RequestedKeys(view)
    case ServerStep(k, view, _) =>
      k in w.serverPasses && S.Running(w.serverPasses[k]) && Stale(c, w.store, view) && RequestedKeys(view)
    case Outside(after) => OutsideMay(c, w.store, after)
  }

  function DatabaseServed(c: Config, w: World, k: Key, view: View, fault: Fault): (Store, Answer)
    requires k in w.databasePasses && D.Running(w.databasePasses[k])
  {
    Api.Serve(w.store, view, c.opens, D.Ask(w.databasePasses[k]), fault)
  }

  function ServerServed(c: Config, w: World, k: Key, view: View, fault: Fault): (Store, Answer)
    requires k in w.serverPasses && S.Running(w.serverPasses[k])
  {
    Api.Serve(w.store, view, c.opens, S.Ask(w.serverPasses[k]), fault)
  }

  ghost function Next(c: Config, w: World, a: Action): World
    requires Enabled(c, w, a)
  {
    match a
    case StartDatabase(k) => w.(databasePasses := w.databasePasses[k := D.Begin(k)])
    case StartServer(k) => w.(serverPasses := w.serverPasses[k := S.Begin(k)])
    case DatabaseStep(k, view, fault) =>
      var (store, answer) := DatabaseServed(c, w, k, view, fault);
      w.(store := store, databasePasses := w.databasePasses[k := D.Next(w.databasePasses[k], answer)])
    case ServerStep(k, view, fault) =>
      var (store, answer) := ServerServed(c, w, k, view, fault);
      w.(store := store, serverPasses := w.serverPasses[k := S.Next(w.serverPasses[k], answer)])
    case Outside(after) => w.(store := after)
  }

  /** A run: every world follows from the one before by the action between them. */
  ghost predicate IsRun(c: Config, worlds: seq<World>, actions: seq<Action>) {
    |worlds| == |actions| + 1 &&
    forall i {:trigger actions[i]} :: 0 <= i < |actions| ==>
      Enabled(c, worlds[i], actions[i]) && worlds[i + 1] == Next(c, worlds[i], actions[i])
  }

  /** The child under this key is controlled by the object with this uid. */
  predicate OwnsChild(children: map<Key, Child>, k: Key, uid: string) {
    k in children && IsControlledBy(children[k].owner, uid)
  }

  predicate OwnsSecret(secrets: map<Key, Secret>, k: Key, uid: string) {
    k in secrets && IsControlledBy(secrets[k].owner, uid)
  }

  /** Every child that is new was asked for. */
  ghost predicate OnlyAdds(before: Store, after: Store, request: Request) {
    (forall k :: k in after.pods && k !in before.pods ==> request == CreatePod(k, after.pods[k])) &&
    (forall k :: k in after.services && k !in before.services ==> request == CreateService(k, after.services[k])) &&
    (forall k :: k in after.secrets && k !in before.secrets ==> request == CreateSecret(k, after.secrets[k]))
  }

  /** A child that the answer tells of is there, with the controller it tells of. */
  ghost predicate Truthful(after: Store, request: Request, answer: Answer) {
    match request
    case ListPod(k) =>
      answer.ChildIs? && answer.child.Found? ==> k in after.pods && after.pods[k].owner == answer.child.value.owner
    case ListService(k) =>
      answer.ChildIs? && answer.child.Found? ==> k in after.services && after.services[k].owner == answer.child.value.owner
    case ListSecret(k) =>
      answer.SecretIs? && answer.secret.Found? ==> k in after.secrets && after.secrets[k].owner == answer.secret.value.owner
    case CreatePod(k, child) => answer.CreationIs? && answer.ok ==> k in after.pods && after.pods[k] == child
    case CreateService(k, child) => answer.CreationIs? && answer.ok ==> k in after.services && after.services[k] == child
    case CreateSecret(k, secret) => answer.CreationIs? && answer.ok ==> k in after.secrets && after.secrets[k] == secret
    case _ => true
  }

  /** A creation keeps what is there and adds at most its own item. */
  lemma CreationAdds<T>(key: Key, item: T, objects: map<Key, T>, fault: Fault)
    ensures var after := Create(key, item, objects, fault).0;
            && (forall k :: k in objects ==> k in after && after[k] == objects[k])
            && (forall k :: k in after && k !in objects ==> k == key && after[k] == item)
  {}

  predicate Creates(request: Request) {
    request.CreatePod? || request.CreateService? || request.CreateSecret?
  }

  predicate SameChildren(before: Store, after: Store) {
    after.pods == before.pods && after.services == before.services && after.secrets == before.secrets
  }

  /** No other request touches a child. */
  lemma OthersLeaveChildren(store: Store, view: View, opens: Opens, request: Request, fault: Fault)
    requires !Creates(request)
    ensures SameChildren(store, Api.Serve(store, view, opens, request, fault).0)
  {}

  lemma SameChildrenMean(before: Store, after: Store, request: Request)
    requires SameChildren(before, after)
    ensures OwnersKept(before, after) && OnlyAdds(before, after, request)
  {}

  lemma CreationEffect(store: Store, view: View, opens: Opens, request: Request, fault: Fault)
    requires Creates(request)
    ensures var after := Api.Serve(store, view, opens, request, fault).0;
            OwnersKept(store, after) && OnlyAdds(store, after, request)
  {
    match request
    case CreatePod(key, child) => CreationAdds(key, child, store.pods, fault);
    case CreateService(key, child) => CreationAdds(key, child, store.services, fault);
    case CreateSecret(key, secret) => CreationAdds(key, secret, store.secrets, fault);
  }

  lemma CreatedIsThere<T>(key: Key, item: T, objects: map<Key, T>, fault: Fault)
    ensures var (after, ok) := Create(key, item, objects, fault); ok ==> key in after && after[key] == item
  {}

  lemma CreationAnswersTruly(store: Store, view: View, opens: Opens, request: Request, fault: Fault)
    requires Creates(request)
    ensures var (after, answer) := Api.Serve(store, view, opens, request, fault); Truthful(after, request, answer)
  {
    match request
    case CreatePod(key, child) => CreatedIsThere(key, child, store.pods, fault);
    case CreateService(key, child) => CreatedIsThere(key, child, store.services, fault);
    case CreateSecret(key, secret) => CreatedIsThere(key, secret, store.secrets, fault);
  }

  lemma ListingAnswersTruly(c: Config, store: Store, view: View, request: Request, fault: Fault)
    requires Stale(c, store, view) && (request.ListPod? || request.ListService? || request.ListSecret?)
    ensures var (after, answer) := Api.Serve(store, view, c.opens, request, fault); Truthful(after, request, answer)
  {}

  lemma RequestAnswersTruly(c: Config, store: Store, view: View, request: Request, fault: Fault)
    requires Stale(c, store, view)
    ensures var (after, answer) := Api.Serve(store, view, c.opens, request, fault); Truthful(after, request, answer)
  {
    if Creates(request) {
      CreationAnswersTruly(store, view, c.opens, request, fault);
    } else if request.ListPod? || request.ListService? || request.ListSecret? {
      ListingAnswersTruly(c, store, view, request, fault);
    }
  }

  /** All that a pass's proof needs to know about one request. */
  lemma RequestEffect(c: Config, store: Store, view: View, request: Request, fault: Fault)
    requires Stale(c, store, view)
    ensures var (after, answer) := Api.Serve(store, view, c.opens, request, fault);
            OwnersKept(store, after) && OnlyAdds(store, after, request) && Truthful(after, request, answer)
  {
    if Creates(request) {
      CreationEffect(store, view, c.opens, request, fault);
    } else {
      OthersLeaveChildren(store, view, c.opens, request, fault);
      SameChildrenMean(store, Api.Serve(store, view, c.opens, request, fault).0, request);
    }
    RequestAnswersTruly(c, store, view, request, fault);
  }

  /** Single ownership, no adoption: no action removes a child or changes its controller. */
  lemma ActionKeepsOwners(c: Config, w: World, a: Action)
    requires Enabled(c, w, a)
    ensures OwnersKept(w.store, Next(c, w, a).store)
  {
    match a
    case DatabaseStep(k, view, fault) => RequestEffect(c, w.store, view, D.Ask(w.databasePasses[k]), fault);
    case ServerStep(k, view, fault) => RequestEffect(c, w.store, view, S.Ask(w.serverPasses[k]), fault);
    case _ =>
  }

  lemma OwnersKeptTransitive(s1: Store, s2: Store, s3: Store)
    requires OwnersKept(s1, s2) && OwnersKept(s2, s3)
    ensures OwnersKept(s1, s3)
  {}

  lemma StepKeepsOwners(c: Config, worlds: seq<World>, actions: seq<Action>, i: nat)
    requires IsRun(c, worlds, actions) && i < |actions|
    ensures OwnersKept(worlds[i].store, worlds[i + 1].store)
  {
    ActionKeepsOwners(c, worlds[i], actions[i]);
  }

  /** No run ever changes the controller of an existing pod, service or secret. */
  lemma {:induction false} RunKeepsOwners(c: Config, worlds: seq<World>, actions: seq<Action>, i: nat, j: nat)
    requires IsRun(c, worlds, actions) && i <= j < |worlds|
    ensures OwnersKept(worlds[i].store, worlds[j].store)
    decreases j - i
  {
    if i < j {
      RunKeepsOwners(c, worlds, actions, i, j - 1);
      StepKeepsOwners(c, worlds, actions, j - 1);
      OwnersKeptTransitive(worlds[i].store, worlds[j - 1].store, worlds[j].store);
    }
  }
}
