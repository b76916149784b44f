/**
 What every reachable world of the cluster keeps about children: passes work on their own
 resources, and a server's secret implies its service and its pod.
 */
module ClusterChildren {
  import opened Resources
  import opened Postgres
  import opened Api
  import opened Cluster
  import opened PassObjects
  import D = DatabasePass
  import S = ServerPass

  ghost predicate PodInPlace(store: Store, s: DatabaseServer) {
    s.spec.plugin.Postgres? || s.spec.plugin.MySql? ==> OwnsChild(store.pods, s.meta.key, s.meta.uid)
  }

  ghost predicate ServiceInPlace(store: Store, s: DatabaseServer) {
    OwnsChild(store.services, s.meta.key, s.meta.uid) && PodInPlace(store, s)
  }

  /** The child ordering for one server: its secret implies its service, its service implies its pod. */
  ghost predicate Ordered(store: Store, s: DatabaseServer) {
    (OwnsSecret(store.secrets, s.meta.key, s.meta.uid) ==> OwnsChild(store.services, s.meta.key, s.meta.uid)) &&
    (OwnsChild(store.services, s.meta.key, s.meta.uid) ==> PodInPlace(store, s))
  }

  /** The server a pass works on is a copy of the configured one. */
  ghost predicate WorksOnServer(c: Config, k: Key, p: S.Pass) {
    match p
    case Begin(key) => key == k
    case Finished(_) => true
    case Panicked => true
    case _ => k in c.servers && CopyOfServer(c.servers[k], p.s)
  }

  /** What a server pass may rely on at its point, however old the views were that it read. */
  ghost predicate ServerPassOrdered(store: Store, p: S.Pass) {
    match p
    case FindingService(s) => PodInPlace(store, s)
    case CreatingService(s) => PodInPlace(store, s)
    case FindingSecret(s) => ServiceInPlace(store, s)
    case GettingSuperUser(s) => ServiceInPlace(store, s)
    case GettingSuperUserPassword(s, _) => ServiceInPlace(store, s)
    case CreatingSecret(s, _) => ServiceInPlace(store, s)
    case _ => true
  }

  ghost predicate WorksOnDatabase(c: Config, k: Key, p: D.Pass) {
    match p
    case Begin(key) => key == k
    case Finished(_) => true
    case Panicked => true
    case Elsewhere => true
    case _ => k in c.databases && CopyOfDatabase(c.databases[k], p.db)
  }

  ghost predicate PassesFit(c: Config, w: World) {
    (forall k :: k in w.serverPasses ==> WorksOnServer(c, k, w.serverPasses[k])) &&
    (forall k :: k in w.databasePasses ==> WorksOnDatabase(c, k, w.databasePasses[k]))
  }

  ghost predicate AllOrdered(c: Config, w: World) {
    (forall k :: k in c.servers ==> Ordered(w.store, c.servers[k])) &&
    (forall k :: k in w.serverPasses ==> ServerPassOrdered(w.store, w.serverPasses[k]))
  }

  lemma ServerPassStaysOnServer(c: Config, k: Key, p: S.Pass, answer: Answer)
    requires S.Running(p) && Fits(S.Ask(p), answer) && WorksOnServer(c, k, p)
    requires p.Begin? && answer.server.Found? ==> k in c.servers && CopyOfServer(c.servers[k], answer.server.value)
    ensures WorksOnServer(c, k, S.Next(p, answer))
  {}

  lemma SameUsersTransitive(a: seq<DatabaseUser>, b: seq<DatabaseUser>, d: seq<DatabaseUser>)
    requires SameUsers(a, b) && SameUsers(b, d)
    ensures SameUsers(a, d)
  {
    forall i | 0 <= i < |a| ensures SameUser(a[i], d[i]) {
      assert SameUser(a[i], b[i]) && SameUser(b[i], d[i]);
    }
  }

  lemma PasswordKeepsCopy(db: Database, i: nat, password: string)
    requires i < |Users(db.spec)| && Users(db.spec)[i].passwordFrom.Some?
    ensures SameSpec(db.spec, D.WithPassword(db, i, password).spec)
  {}

  lemma SourcedPasswordKeepsCopy(a: Database, db: Database, i: nat, password: string)
    requires CopyOfDatabase(a, db)
    requires i < |Users(db.spec)| && Users(db.spec)[i].passwordFrom.Some?
    ensures CopyOfDatabase(a, D.WithPassword(db, i, password))
  {
    PasswordKeepsCopy(db, i, password);
    SameUsersTransitive(Users(a.spec), Users(db.spec), Users(D.WithPassword(db, i, password).spec));
  }

  lemma KeptIsOnDatabase(c: Config, k: Key, p: D.Pass, db: Database)
    requires k in c.databases && CopyOfDatabase(c.databases[k], db) && Keeps(p, db)
    ensures WorksOnDatabase(c, k, p)
  {}

  /** What an answer makes of a pass's Database is still a copy of the configured one. */
  lemma ObjectStaysCopy(a: Database, p: D.Pass, answer: Answer)
    requires D.Running(p) && Fits(D.Ask(p), answer) && !p.Begin? && CopyOfDatabase(a, p.db)
    ensures CopyOfDatabase(a, ObjectAfter(p, answer)) && ObjectAfter(p, answer).meta.version == p.db.meta.version
  {
    if p.GettingPassword? { SourcedPasswordKeepsCopy(a, p.db, p.i, Looked(answer.value)); }
  }

  lemma DatabasePassStaysOnDatabase(c: Config, k: Key, p: D.Pass, answer: Answer)
    requires D.Running(p) && Fits(D.Ask(p), answer) && WorksOnDatabase(c, k, p)
    requires p.Begin? && answer.database.Found? ==> k in c.databases && CopyOfDatabase(c.databases[k], answer.database.value)
    ensures WorksOnDatabase(c, k, D.Next(p, answer))
  {
    NextKeeps(p, answer);
    if !p.Begin? { ObjectStaysCopy(c.databases[k], p, answer); }
    if !p.Begin? || answer.database.Found? { KeptIsOnDatabase(c, k, D.Next(p, answer), ObjectAfter(p, answer)); }
  }

  lemma ActionKeepsPassesFit(c: Config, w: World, a: Action)
    requires WellFormedConfig(c) && PassesFit(c, w) && Enabled(c, w, a)
    ensures PassesFit(c, Next(c, w, a))
  {
    match a
    case DatabaseStep(k, view, fault) =>
      DatabasePassStaysOnDatabase(c, k, w.databasePasses[k], DatabaseServed(c, w, k, view, fault).1);
    case ServerStep(k, view, fault) =>
      ServerPassStaysOnServer(c, k, w.serverPasses[k], ServerServed(c, w, k, view, fault).1);
    case _ =>
  }

  lemma InPlaceIsKept(before: Store, after: Store, s: DatabaseServer)
    requires OwnersKept(before, after)
    ensures PodInPlace(before, s) ==> PodInPlace(after, s)
    ensures ServiceInPlace(before, s) ==> ServiceInPlace(after, s)
  {}

  lemma ServerPassOrderedIsKept(before: Store, after: Store, p: S.Pass)
    requires OwnersKept(before, after) && ServerPassOrdered(before, p)
    ensures ServerPassOrdered(after, p)
  {
    match p
    case Begin(_) =>
    case Finished(_) =>
    case Panicked =>
    case _ => InPlaceIsKept(before, after, p.s);
  }

  /** The ordering survives when a child only appears after what it implies. */
  lemma OrderedIsKept(before: Store, after: Store, s: DatabaseServer)
    requires OwnersKept(before, after) && Ordered(before, s)
    requires OwnsSecret(after.secrets, s.meta.key, s.meta.uid) && !OwnsSecret(before.secrets, s.meta.key, s.meta.uid) ==>
               ServiceInPlace(before, s)
    requires OwnsChild(after.services, s.meta.key, s.meta.uid) && !OwnsChild(before.services, s.meta.key, s.meta.uid) ==>
               PodInPlace(before, s)
    ensures Ordered(after, s)
  {
    InPlaceIsKept(before, after, s);
  }

  /** What a server pass's request adds, it adds under the pass's own key and after what it implies. */
  lemma ServerRequestOrder(c: Config, k: Key, p: S.Pass, before: Store, after: Store, s: DatabaseServer)
    requires WellFormedConfig(c) && S.Running(p) && WorksOnServer(c, k, p) && ServerPassOrdered(before, p)
    requires s.meta.key in c.servers && c.servers[s.meta.key] == s && Ordered(before, s)
    requires OwnersKept(before, after) && OnlyAdds(before, after, S.Ask(p))
    ensures Ordered(after, s)
  {
    OrderedIsKept(before, after, s);
  }

  lemma DatabaseRequestOrder(c: Config, k: Key, p: D.Pass, before: Store, after: Store, s: DatabaseServer)
    requires WellFormedConfig(c) && D.Running(p) && WorksOnDatabase(c, k, p)
    requires s.meta.key in c.servers && c.servers[s.meta.key] == s && Ordered(before, s)
    requires OwnersKept(before, after) && OnlyAdds(before, after, D.Ask(p))
    ensures Ordered(after, s)
  {
    OrderedIsKept(before, after, s);
  }

  /** The next point of a server pass finds what it relies on in place. */
  lemma ServerPassStaysOrdered(before: Store, after: Store, p: S.Pass, answer: Answer)
    requires S.Running(p) && Fits(S.Ask(p), answer) && ServerPassOrdered(before, p)
    requires OwnersKept(before, after) && Truthful(after, S.Ask(p), answer)
    ensures ServerPassOrdered(after, S.Next(p, answer))
  {
    ServerPassOrderedIsKept(before, after, p);
  }

  lemma ServerStepKeepsOrder(c: Config, w: World, k: Key, view: View, fault: Fault)
    requires WellFormedConfig(c) && PassesFit(c, w) && AllOrdered(c, w) && Enabled(c, w, ServerStep(k, view, fault))
    ensures AllOrdered(c, Next(c, w, ServerStep(k, view, fault)))
  {
    var p := w.serverPasses[k];
    var (after, answer) := ServerServed(c, w, k, view, fault);
    RequestEffect(c, w.store, view, S.Ask(p), fault);
    ServerPassStaysOrdered(w.store, after, p, answer);
    forall j | j in c.servers ensures Ordered(after, c.servers[j]) {
      ServerRequestOrder(c, k, p, w.store, after, c.servers[j]);
    }
    forall j | j in w.serverPasses ensures ServerPassOrdered(after, w.serverPasses[j]) {
      ServerPassOrderedIsKept(w.store, after, w.serverPasses[j]);
    }
  }

  lemma DatabaseStepKeepsOrder(c: Config, w: World, k: Key, view: View, fault: Fault)
    requires WellFormedConfig(c) && PassesFit(c, w) && AllOrdered(c, w) && Enabled(c, w, DatabaseStep(k, view, fault))
    ensures AllOrdered(c, Next(c, w, DatabaseStep(k, view, fault)))
  {
    var p := w.databasePasses[k];
    var after := DatabaseServed(c, w, k, view, fault).0;
    RequestEffect(c, w.store, view, D.Ask(p), fault);
    forall j | j in c.servers ensures Ordered(after, c.servers[j]) {
      DatabaseRequestOrder(c, k, p, w.store, after, c.servers[j]);
    }
    forall j | j in w.serverPasses ensures ServerPassOrdered(after, w.serverPasses[j]) {
      ServerPassOrderedIsKept(w.store, after, w.serverPasses[j]);
    }
  }

  lemma OutsideKeepsOrder(c: Config, w: World, after: Store)
    requires WellFormedConfig(c) && AllOrdered(c, w) && OutsideMay(c, w.store, after)
    ensures AllOrdered(c, w.(store := after))
  {
    forall j | j in c.servers ensures Ordered(after, c.servers[j]) {
      OrderedIsKept(w.store, after, c.servers[j]);
    }
    forall j | j in w.serverPasses ensures ServerPassOrdered(after, w.serverPasses[j]) {
      ServerPassOrderedIsKept(w.store, after, w.serverPasses[j]);
    }
  }

  lemma ActionKeepsOrder(c: Config, w: World, a: Action)
    requires WellFormedConfig(c) && PassesFit(c, w) && AllOrdered(c, w) && Enabled(c, w, a)
    ensures AllOrdered(c, Next(c, w, a))
  {
    match a
    case DatabaseStep(k, view, fault) => DatabaseStepKeepsOrder(c, w, k, view, fault);
    case ServerStep(k, view, fault) => ServerStepKeepsOrder(c, w, k, view, fault);
    case Outside(after) => OutsideKeepsOrder(c, w, after);
    case StartDatabase(_) =>
    case StartServer(_) =>
  }

  ghost predicate Idle(w: World) {
    w.databasePasses == map[] && w.serverPasses == map[]
  }

  lemma {:induction false} RunKeepsOrder(c: Config, worlds: seq<World>, actions: seq<Action>, i: nat)
    requires WellFormedConfig(c) && IsRun(c, worlds, actions) && i < |worlds|
    requires Idle(worlds[0]) && forall k :: k in c.servers ==> Ordered(worlds[0].store, c.servers[k])
    ensures PassesFit(c, worlds[i]) && AllOrdered(c, worlds[i])
  {
    if i > 0 {
      RunKeepsOrder(c, worlds, actions, i - 1);
      ActionKeepsPassesFit(c, worlds[i - 1], actions[i - 1]);
      ActionKeepsOrder(c, worlds[i - 1], actions[i - 1]);
    }
  }

  /**
   Child ordering: in every world of every run, a secret controlled by a server implies that
   the service is there and controlled by it, and so is the pod when the plugin has one.
   */
  lemma SecretImpliesServiceImpliesPod(c: Config, worlds: seq<World>, actions: seq<Action>, i: nat, k: Key)
    requires WellFormedConfig(c) && IsRun(c, worlds, actions) && i < |worlds| && k in c.servers
    requires Idle(worlds[0]) && forall j :: j in c.servers ==> Ordered(worlds[0].store, c.servers[j])
    ensures var store, s := worlds[i].store, c.servers[k];
            && (OwnsSecret(store.secrets, k, s.meta.uid) ==> OwnsChild(store.services, k, s.meta.uid))
            && (OwnsChild(store.services, k, s.meta.uid) && (s.spec.plugin.Postgres? || s.spec.plugin.MySql?) ==>
                  OwnsChild(store.pods, k, s.meta.uid))
  {
    RunKeepsOrder(c, worlds, actions, i);
    assert Ordered(worlds[i].store, c.servers[k]);
  }
}
