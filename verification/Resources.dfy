/**
 The API objects the controller works on, as values: the three custom resources,
 the children it creates for them and the lookups that resolve a value source.
 Status messages are constructors rather than formatted text.
 */
module Resources {

  datatype Option<+T> = None | Some(value: T)

  /** The namespace and name that identify an object of a given kind. */
  datatype Key = Key(namespace: string, name: string)

  /** One entry of a config map or of a secret. */
  datatype EntryRef = EntryRef(name: string, entry: string)

  datatype ValueSource = ValueSource(configMapKeyRef: Option<EntryRef>, secretKeyRef: Option<EntryRef>)

  datatype OwnerRef = OwnerRef(kind: string, name: string, uid: string)

  /** Metadata; `version` is the resource version the API server assigns. */
  datatype Meta = Meta(key: Key, uid: string, version: nat, labels: Option<map<string, string>>)

  datatype State = Unset | Pending | Error | Success

  datatype Message =
    | NoMessage
    | YetToInitialize
    | WaitingForServer
    | NoServerOrType
    | NoPlugin
    | WaitingForDsn
    | NoValidDsn
    | WaitingForUserSecret(user: string)
    | SyncError
    | SecretSyncError
    | GetChildFailed
    | CreateChildFailed
    | PodError
    | ServiceError
    | ServerSecretError
    | WaitingForSuperUser
    | NoSuperUser
    | WaitingForSuperUserPassword
    | NoSuperUserPassword
    | NoDatabase
    | WaitingForSource
    | NoValidSource
    | OpenFailed
    | EngineFailed
    | ConnectionLost
    | NothingApplied
    | VersionUnknown
    | DirtyDatabase(at: nat)
    | AlreadyAtVersion
    | MigrateFailed
    | Synced

  datatype Status = Status(state: State, message: Message)

  datatype DatabaseUser = DatabaseUser(name: string, password: string, passwordFrom: Option<ValueSource>, role: string)

  /** `users` is None when the list is absent, which the controller tells from an empty list. */
  datatype DatabaseSpec = DatabaseSpec(
    users: Option<seq<DatabaseUser>>,
    dsn: string,
    dsnFrom: Option<ValueSource>,
    server: string,
    serverType: string)

  /** A custom resource; the three kinds differ in their specs. */
  datatype Resource<+S> = Resource(meta: Meta, spec: S, status: Status)

  /** The active member of the server's plugin union. */
  datatype Plugin = NoneSet | Postgres | MySql | Rds(engine: string)

  datatype DatabaseServerSpec = DatabaseServerSpec(
    plugin: Plugin,
    superUser: string,
    superUserFrom: Option<ValueSource>,
    superUserPassword: string,
    superUserPasswordFrom: Option<ValueSource>,
    dbHost: string,
    servicePort: int)

  datatype DatabaseSchemaSpec = DatabaseSchemaSpec(
    database: string,
    dsn: string,
    dsnFrom: Option<ValueSource>,
    source: string,
    sourceFrom: Option<ValueSource>,
    version: int)

  type Database = Resource<DatabaseSpec>
  type DatabaseServer = Resource<DatabaseServerSpec>
  type DatabaseSchema = Resource<DatabaseSchemaSpec>

  /** A pod or a service, of which only the controller reference matters. */
  datatype Child = Child(owner: Option<OwnerRef>)

  datatype Secret = Secret(owner: Option<OwnerRef>, data: map<string, string>)

  /** Whether the object with this controller reference is controlled by the object with this uid. */
  predicate IsControlledBy(owner: Option<OwnerRef>, uid: string) {
    owner.Some? && owner.value.uid == uid
  }

  /** The entries of a user list; an absent list has none. */
  function Users(spec: DatabaseSpec): seq<DatabaseUser> {
    if spec.users.Some? then spec.users.value else []
  }

  /** Nobody on the list is left out, and nobody else comes in. */
  lemma UsersAreTheList(spec: DatabaseSpec)
    ensures spec.users.Some? ==> Users(spec) == spec.users.value
    ensures spec.users.None? ==> Users(spec) == []
  {}

  /** The answer of one read: what was read, that the object is missing, or any other error. */
  datatype Lookup<+T> = Found(value: T) | NotFound | Failed

  /** One entry of the object a key names: a missing object and a missing entry are different errors. */
  function Entry(key: Key, entry: string, objects: map<Key, map<string, string>>): Lookup<string> {
    if key !in objects then NotFound
    else if entry in objects[key] then Found(objects[key][entry])
    else Failed
  }

  /** What a value source resolves to; a config map reference wins over a secret reference. */
  function Resolve(source: Option<ValueSource>, namespace: string,
                   configMaps: map<Key, map<string, string>>, secrets: map<Key, map<string, string>>): Lookup<string>
  {
    if source.None? then Failed
    else if source.value.configMapKeyRef.Some? then
      var ref := source.value.configMapKeyRef.value;
      Entry(Key(namespace, ref.name), ref.entry, configMaps)
    else if source.value.secretKeyRef.Some? then
      var ref := source.value.secretKeyRef.value;
      Entry(Key(namespace, ref.name), ref.entry, secrets)
    else Found("")
  }

  /** The object that a source refers to is not there. */
  predicate ObjectMissing(source: ValueSource, namespace: string,
                          configMaps: map<Key, map<string, string>>, secrets: map<Key, map<string, string>>)
  {
    (source.configMapKeyRef.Some? && Key(namespace, source.configMapKeyRef.value.name) !in configMaps) ||
    (source.configMapKeyRef.None? && source.secretKeyRef.Some? &&
     Key(namespace, source.secretKeyRef.value.name) !in secrets)
  }

  predicate HasEntry(key: Key, entry: string, objects: map<Key, map<string, string>>, text: string) {
    key in objects && entry in objects[key] && objects[key][entry] == text
  }

  /** The text is what a source refers to; a source without references stands for the empty text. */
  predicate Refers(source: ValueSource, namespace: string,
                   configMaps: map<Key, map<string, string>>, secrets: map<Key, map<string, string>>, text: string)
  {
    if source.configMapKeyRef.Some? then
      HasEntry(Key(namespace, source.configMapKeyRef.value.name), source.configMapKeyRef.value.entry, configMaps, text)
    else if source.secretKeyRef.Some? then
      HasEntry(Key(namespace, source.secretKeyRef.value.name), source.secretKeyRef.value.entry, secrets, text)
    else text == ""
  }

  /**
   A lookup tells three cases apart: the object that the source refers to is missing, the object
   has the text, or neither, which is so when there is no source or the object lacks the entry.
   */
  lemma LookupIff(source: Option<ValueSource>, namespace: string,
                  configMaps: map<Key, map<string, string>>, secrets: map<Key, map<string, string>>, text: string)
    ensures Resolve(source, namespace, configMaps, secrets) == NotFound <==>
              source.Some? && ObjectMissing(source.value, namespace, configMaps, secrets)
    ensures Resolve(source, namespace, configMaps, secrets) == Found(text) <==>
              source.Some? && Refers(source.value, namespace, configMaps, secrets, text)
  {}
}
