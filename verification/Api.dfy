/**
 What a pass asks of the outside and what it can be answered: reads of the informer
 caches, live reads, creations, writes of whole custom resources, and SQL statements.
 */
module Api {
  import opened Resources
  import opened Postgres

  datatype Request =
    | ListDatabase(key: Key)
    | ListServer(key: Key)
    | ListPod(key: Key)
    | ListService(key: Key)
    | ListSecret(key: Key)
    | GetValue(namespace: string, source: Option<ValueSource>)
    | CreatePod(key: Key, child: Child)
    | CreateService(key: Key, child: Child)
    | CreateSecret(key: Key, secret: Secret)
    | PutDatabase(db: Database)
    | PutServer(server: DatabaseServer)
    | Sql(dsn: string, statement: Statement)

  datatype Answer =
    | DatabaseIs(database: Lookup<Database>)
    | ServerIs(server: Lookup<DatabaseServer>)
    | ChildIs(child: Lookup<Child>)
    | SecretIs(secret: Lookup<Secret>)
    | ValueIs(value: Lookup<string>)
    | CreationIs(ok: bool)
    | PutIs
    | SqlIs(reply: Reply)

  /** The answers a request can get. */
  predicate Fits(request: Request, answer: Answer) {
    match request
    case ListDatabase(key) =>
      answer.DatabaseIs? && (answer.database.Found? ==> answer.database.value.meta.key == key)
    case ListServer(key) =>
      answer.ServerIs? && (answer.server.Found? ==> answer.server.value.meta.key == key)
    case ListPod(_) => answer.ChildIs?
    case ListService(_) => answer.ChildIs?
    case ListSecret(_) => answer.SecretIs?
    case GetValue(_, source) => answer.ValueIs? && (source.None? ==> answer.value.Failed?)
    case CreatePod(_, _) => answer.CreationIs?
    case CreateService(_, _) => answer.CreationIs?
    case CreateSecret(_, _) => answer.CreationIs?
    case PutDatabase(_) => answer.PutIs?
    case PutServer(_) => answer.PutIs?
    case Sql(_, statement) => answer.SqlIs? && Answers(statement, answer.reply)
  }

  /** The API server's objects and the Postgres instances. */
  datatype Store = Store(
    databases: map<Key, Database>,
    servers: map<Key, DatabaseServer>,
    pods: map<Key, Child>,
    services: map<Key, Child>,
    secrets: map<Key, Secret>,
    configMaps: map<Key, map<string, string>>,
    instances: map<Key, Instance>)

  /** What the informer caches hold. */
  datatype View = View(
    databases: map<Key, Database>,
    servers: map<Key, DatabaseServer>,
    pods: map<Key, Child>,
    services: map<Key, Child>,
    secrets: map<Key, Secret>)

  /** Which instance a DSN text opens, if any: the SQL driver is not part of the model. */
  type Opens = string -> Option<Key>

  /** One read, given what is there. */
  function Read<T>(key: Key, objects: map<Key, T>, fault: Fault): Lookup<T> {
    if !fault.NoFault? then Lookup.Failed
    else if key in objects then Found(objects[key])
    else NotFound
  }

  /** A creation fails when the name is taken; the reply can be lost after it took place. */
  function Create<T>(key: Key, item: T, objects: map<Key, T>, fault: Fault): (map<Key, T>, bool) {
    if fault.Refused? || key in objects then (objects, false)
    else (objects[key := item], !fault.LostReply?)
  }

  /**
   A write of a whole resource: it is refused when its version is not the stored one, and
   the version only changes when the content does.
   */
  function Update<S(==)>(stored: Resource<S>, written: Resource<S>): Resource<S> {
    if written.meta.version != stored.meta.version || written == stored then stored
    else written.(meta := written.meta.(version := stored.meta.version + 1))
  }

  function Put<S(==)>(written: Resource<S>, objects: map<Key, Resource<S>>, fault: Fault): map<Key, Resource<S>> {
    var key := written.meta.key;
    if fault.Refused? || key !in objects then objects
    else objects[key := Update(objects[key], written)]
  }

  function SecretData(secrets: map<Key, Secret>): map<Key, map<string, string>> {
    map key | key in secrets :: secrets[key].data
  }

  /** Objects sit under their own keys. */
  ghost predicate RequestedKeys(view: View) {
    (forall key :: key in view.databases ==> view.databases[key].meta.key == key) &&
    (forall key :: key in view.servers ==> view.servers[key].meta.key == key)
  }

  /** One request against the store, with listers reading a view of it. */
  function Serve(store: Store, view: View, opens: Opens, request: Request, fault: Fault): (r: (Store, Answer))
    ensures RequestedKeys(view) ==> Fits(request, r.1)
  {
    match request
    case ListDatabase(key) => (store, DatabaseIs(Read(key, view.databases, fault)))
    case ListServer(key) => (store, ServerIs(Read(key, view.servers, fault)))
    case ListPod(key) => (store, ChildIs(Read(key, view.pods, fault)))
    case ListService(key) => (store, ChildIs(Read(key, view.services, fault)))
    case ListSecret(key) => (store, SecretIs(Read(key, view.secrets, fault)))
    case GetValue(namespace, source) =>
      (store, ValueIs(if !fault.NoFault? then Lookup.Failed
                      else Resolve(source, namespace, store.configMaps, SecretData(store.secrets))))
    case CreatePod(key, child) =>
      var (pods, ok) := Create(key, child, store.pods, fault);
      (store.(pods := pods), CreationIs(ok))
    case CreateService(key, child) =>
      var (services, ok) := Create(key, child, store.services, fault);
      (store.(services := services), CreationIs(ok))
    case CreateSecret(key, secret) =>
      var (secrets, ok) := Create(key, secret, store.secrets, fault);
      (store.(secrets := secrets), CreationIs(ok))
    case PutDatabase(db) => (store.(databases := Put(db, store.databases, fault)), PutIs)
    case PutServer(server) => (store.(servers := Put(server, store.servers, fault)), PutIs)
    case Sql(dsn, statement) =>
      var target := opens(dsn);
      if target.None? || target.value !in store.instances then (store, SqlIs(Refusal))
      else
        var (pg, reply) := Postgres.Serve(store.instances[target.value], statement, fault);
        ServeAnswers(store.instances[target.value], statement, fault);
        (store.(instances := store.instances[target.value := pg]), SqlIs(reply))
  }
}
