/**
 handleObject: which queue an event on a pod, a service or a secret reaches. The kind in the
 owner reference decides, and the controller writes a kind for its secrets that reaches none.
 */
module Notifications {
  import opened Resources
  import Api
  import D = DatabasePass
  import S = ServerPass
  import T = Text
  import WorkQueue

  /** What an informer hands over; the last state of a deleted object may come wrapped, or be unusable. */
  datatype Notification =
    | Object(namespace: string, owner: Option<OwnerRef>)
    | Tombstone(last: Option<(string, Option<OwnerRef>)>)
    | Unknown

  function Content(event: Notification): Option<(string, Option<OwnerRef>)> {
    match event
    case Object(namespace, owner) => Some((namespace, owner))
    case Tombstone(last) => last
    case Unknown => None
  }

  datatype Woken = Nobody | Server(key: Key) | Database(key: Key)

  /** Who is enqueued, with what the listers know at the time. */
  function Woke(event: Notification, servers: set<Key>, databases: set<Key>): Woken {
    var content := Content(event);
    if content.None? || content.value.1.None? then Nobody
    else
      var (namespace, owner) := (content.value.0, content.value.1.value);
      var key := Key(namespace, owner.name);
      if owner.kind == "DatabaseServer" then (if key in servers then Server(key) else Nobody)
      else if owner.kind == "Database" then (if key in databases then Database(key) else Nobody)
      else Nobody
  }

  /** The text under which the queues know an object. */
  function QueueKey(key: Key): string {
    if key.namespace == "" then key.name else key.namespace + "/" + key.name
  }

  /** The object that a queued text stands for, if it stands for one. */
  function SplitKey(text: string): Option<Key> {
    var parts := T.Split(text, '/');
    if |parts| == 1 then Some(Key("", parts[0]))
    else if |parts| == 2 then Some(Key(parts[0], parts[1]))
    else None
  }

  /**
   A pass gets the key that was enqueued exactly when neither part of the key holds a slash.
   */
  lemma SplitsBackIff(key: Key)
    ensures QueueKey(key) == if key.namespace == "" then key.name else key.namespace + "/" + key.name
    ensures SplitKey(QueueKey(key)) == Some(key) <==> '/' !in key.namespace && '/' !in key.name
  {
    var namespace, name := key.namespace, key.name;
    T.SeveralPiecesIff(name, '/');
    T.SeveralPiecesIff(namespace, '/');
    if '/' !in name { T.SplitNone(name, '/'); }
    if '/' !in namespace { T.SplitNone(namespace, '/'); }
    if namespace != "" {
      T.SplitAcross(namespace, name, '/');
    }
  }

  /** Different objects are enqueued under different texts. */
  lemma QueueKeysAreInjective(j: Key, k: Key)
    requires '/' !in j.namespace && '/' !in j.name && '/' !in k.namespace && '/' !in k.name
    ensures QueueKey(j) == QueueKey(k) <==> j == k
  {
    SplitsBackIff(j);
    SplitsBackIff(k);
  }

  /** A queue that is given the key of whom an event woke, if it is the queue for that. */
  function Enqueued(q: WorkQueue.Queue, meant: bool, woken: Woken): WorkQueue.Queue {
    if meant && !woken.Nobody? then WorkQueue.AddedRateLimited(q, WorkQueue.Text(QueueKey(woken.key)), false) else q
  }

  /** The controller's side of events: two of its queues and what its listers know. */
  class Handler {
    const serverQueue: WorkQueue.RateLimitingQueue
    const dbQueue: WorkQueue.RateLimitingQueue
    var servers: set<Key>
    var databases: set<Key>

    constructor (servers: set<Key>, databases: set<Key>)
      ensures fresh(serverQueue) && fresh(dbQueue) && serverQueue != dbQueue
      ensures this.servers == servers && this.databases == databases
      ensures !serverQueue.shuttingDown && !dbQueue.shuttingDown
    {
      var first := new WorkQueue.RateLimitingQueue();
      var second := new WorkQueue.RateLimitingQueue();
      serverQueue, dbQueue, this.servers, this.databases := first, second, servers, databases;
    }

    method HandleObject(event: Notification)
      requires serverQueue != dbQueue && !serverQueue.shuttingDown && !dbQueue.shuttingDown
      modifies serverQueue, dbQueue
      ensures var woken := Woke(event, servers, databases);
              && serverQueue.State() == Enqueued(old(serverQueue.State()), woken.Server?, woken)
              && dbQueue.State() == Enqueued(old(dbQueue.State()), woken.Database?, woken)
    {
      var namespace, ownerRef;
      match event {
        case Object(ns, owner) =>
          namespace, ownerRef := ns, owner;
        case Tombstone(last) =>
          if last.None? { return; }
          namespace, ownerRef := last.value.0, last.value.1;
        case Unknown =>
          return;
      }
      if ownerRef.None? { return; }
      var key := Key(namespace, ownerRef.value.name);
      if ownerRef.value.kind == "DatabaseServer" {
        if key in servers { serverQueue.AddRateLimited(WorkQueue.Text(QueueKey(key))); }
      } else if ownerRef.value.kind == "Database" {
        if key in databases { dbQueue.AddRateLimited(WorkQueue.Text(QueueKey(key))); }
      }
    }
  }

  /** The object a request creates, as an event shows it. */
  function Created(request: Api.Request): Notification
    requires request.CreatePod? || request.CreateService? || request.CreateSecret?
  {
    match request
    case CreatePod(key, child) => Object(key.namespace, child.owner)
    case CreateService(key, child) => Object(key.namespace, child.owner)
    case CreateSecret(key, secret) => Object(key.namespace, secret.owner)
  }

  /** Whatever happens to a secret that a Database pass made, nobody is enqueued for it. */
  lemma DatabaseSecretsWakeNobody(p: D.Pass, servers: set<Key>, databases: set<Key>)
    requires D.Running(p) && D.Ask(p).CreateSecret?
    ensures Woke(Created(D.Ask(p)), servers, databases) == Nobody
    ensures D.Ask(p).secret.owner == Some(OwnerRef("Secret", p.db.meta.key.name, p.db.meta.uid))
  {
    assert D.Ask(p).secret.owner.value.kind == "Secret";
  }

  /**
   Of what a server pass makes, pods and services wake their own server, as long as the
   listers know it, and secrets wake nobody.
   */
  lemma ServerChildrenWakeTheirServer(p: S.Pass, servers: set<Key>, databases: set<Key>)
    requires S.Running(p) && (S.Ask(p).CreatePod? || S.Ask(p).CreateService? || S.Ask(p).CreateSecret?)
    ensures Woke(Created(S.Ask(p)), servers, databases) ==
            if S.Ask(p).CreateSecret? || p.s.meta.key !in servers then Nobody else Server(p.s.meta.key)
    ensures var owner := OwnerRef(if p.CreatingSecret? then "Secret" else "DatabaseServer", p.s.meta.key.name, p.s.meta.uid);
            Created(S.Ask(p)) == Object(p.s.meta.key.namespace, Some(owner))
  {
    if p.CreatingSecret? { assert S.Ask(p).secret.owner.value.kind == "Secret"; }
    assert Key(p.s.meta.key.namespace, p.s.meta.key.name) == p.s.meta.key;
  }
}
