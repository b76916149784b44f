/**
 One pass of syncServer, with syncPodServer, syncService, syncServerSecret and the status
 writes, as a machine that issues one request at a time. Branches in which the controller
 dereferences a nil plugin end in Panicked.
 */
module ServerPass {
  import opened Resources
  import opened Dsn
  import opened Postgres
  import opened Api
  import DatabasePass

  datatype Pass =
    | Begin(key: Key)
    | FindingPod(s: DatabaseServer)
    | CreatingPod(s: DatabaseServer)
    | FindingService(s: DatabaseServer)
    | CreatingService(s: DatabaseServer)
    | FindingSecret(s: DatabaseServer)
    | GettingSuperUser(s: DatabaseServer)
    | GettingSuperUserPassword(s: DatabaseServer, user: string)
    | CreatingSecret(s: DatabaseServer, dsn: string)
    | Putting(s: DatabaseServer, writes: seq<Status>, failed: bool)
    | Finished(failed: bool)
    | Panicked

  predicate WellFormedPass(p: Pass) {
    p.Putting? ==> p.writes != []
  }

  predicate Running(p: Pass) {
    WellFormedPass(p) && !p.Finished? && !p.Panicked?
  }

  /** Whether the server is backed by a pod of its own. */
  predicate PodBacked(plugin: Plugin) {
    plugin.Postgres? || plugin.MySql?
  }

  function OwnedBy(kind: string, meta: Meta): Option<OwnerRef> {
    Some(OwnerRef(kind, meta.key.name, meta.uid))
  }

  /** Making the pod writes two labels into the object's own label map, when it has one. */
  function LabelledForPod(meta: Meta): Meta {
    if meta.labels.None? then meta
    else meta.(labels := Some(meta.labels.value["controller" := meta.key.name]["databaseserver" := meta.key.name]))
  }

  function Failing(s: DatabaseServer, messages: seq<Message>): (p: Pass)
    requires messages != []
    ensures WellFormedPass(p)
  {
    Putting(s, seq(|messages|, i requires 0 <= i < |messages| => Status(Error, messages[i])), true)
  }

  function AfterBegin(s: DatabaseServer): Pass {
    if PodBacked(s.spec.plugin) then FindingPod(s) else FindingService(s)
  }

  /** The DSN text with the superuser's credentials, unless the plugin has no database plugin. */
  function SuperUserDsn(s: DatabaseServer, user: string, password: string): Option<string> {
    var engine := DatabasePass.EngineOf(s.spec.plugin);
    if engine.None? then None
    else if engine.value.MySqlEngine? then Some(MySqlDsn(user, password, s))
    else Some(PostgresDsn(user, password, None, s))
  }

  function MakeSecret(s: DatabaseServer, user: string, password: string): Pass {
    var dsn := SuperUserDsn(s, user, password);
    if dsn.None? then Panicked
    else CreatingSecret(s.(meta := DatabasePass.Labelled(s.meta)), dsn.value)
  }

  function AfterSuperUser(s: DatabaseServer, user: string): Pass {
    if s.spec.superUserPassword != "" then MakeSecret(s, user, s.spec.superUserPassword)
    else GettingSuperUserPassword(s, user)
  }

  function SecretOf(s: DatabaseServer, dsn: string): Secret {
    Secret(OwnedBy("Secret", s.meta), map["dsn" := dsn])
  }

  function Ask(p: Pass): Request
    requires Running(p)
  {
    match p
    case Begin(key) => ListServer(key)
    case FindingPod(s) => ListPod(s.meta.key)
    case CreatingPod(s) => CreatePod(s.meta.key, Child(OwnedBy("DatabaseServer", s.meta)))
    case FindingService(s) => ListService(s.meta.key)
    case CreatingService(s) => CreateService(s.meta.key, Child(OwnedBy("DatabaseServer", s.meta)))
    case FindingSecret(s) => ListSecret(s.meta.key)
    case GettingSuperUser(s) => GetValue(s.meta.key.namespace, s.spec.superUserFrom)
    case GettingSuperUserPassword(s, _) => GetValue(s.meta.key.namespace, s.spec.superUserPasswordFrom)
    case CreatingSecret(s, dsn) => CreateSecret(s.meta.key, SecretOf(s, dsn))
    case Putting(s, writes, _) => PutServer(s.(status := writes[0]))
  }

  function AfterPod(s: DatabaseServer, controlled: bool): Pass {
    if controlled then FindingService(s) else Failing(s, [PodError])
  }

  function AfterService(s: DatabaseServer, controlled: bool): Pass {
    if controlled then FindingSecret(s) else Failing(s, [ServiceError])
  }

  function AfterSecret(s: DatabaseServer, controlled: bool): (p: Pass)
    ensures WellFormedPass(p)
  {
    if controlled then Putting(s, [Status(Success, Synced)], false) else Failing(s, [ServerSecretError])
  }

  /**
   The answer to a credential lookup: a missing object ends the pass with an error, but any
   other failure is reported and then overwritten by a report of success.
   */
  function CredentialMissing(s: DatabaseServer, failed: bool, waiting: Message, invalid: Message): (p: Pass)
    ensures WellFormedPass(p)
  {
    if failed then Putting(s, [Status(Error, invalid), Status(Success, Synced)], false)
    else Putting(s, [Status(Pending, waiting), Status(Error, ServerSecretError)], true)
  }

  function Next(p: Pass, answer: Answer): (p': Pass)
    requires Running(p) && Fits(Ask(p), answer)
    ensures WellFormedPass(p')
  {
    match p
    case Begin(_) =>
      (match answer.server
       case NotFound => Finished(false)
       case Failed => Finished(true)
       case Found(s) => AfterBegin(s))
    case FindingPod(s) =>
      (match answer.child
       case Failed => Failing(s, [GetChildFailed, PodError])
       case NotFound => CreatingPod(s.(meta := LabelledForPod(s.meta)))
       case Found(pod) => AfterPod(s, IsControlledBy(pod.owner, s.meta.uid)))
    case CreatingPod(s) =>
      if answer.ok then AfterPod(s, true) else Failing(s, [CreateChildFailed, PodError])
    case FindingService(s) =>
      (match answer.child
       case Failed => Failing(s, [GetChildFailed, ServiceError])
       case NotFound => CreatingService(s.(meta := DatabasePass.Labelled(s.meta)))
       case Found(service) => AfterService(s, IsControlledBy(service.owner, s.meta.uid)))
    case CreatingService(s) =>
      if answer.ok then AfterService(s, true) else Failing(s, [CreateChildFailed, ServiceError])
    case FindingSecret(s) =>
      (match answer.secret
       case Failed => Failing(s, [GetChildFailed, ServerSecretError])
       case NotFound => if s.spec.superUser != "" then AfterSuperUser(s, s.spec.superUser) else GettingSuperUser(s)
       case Found(secret) => AfterSecret(s, IsControlledBy(secret.owner, s.meta.uid)))
    case GettingSuperUser(s) =>
      if answer.value.Found? then AfterSuperUser(s, answer.value.value)
      else CredentialMissing(s, answer.value.Failed?, WaitingForSuperUser, NoSuperUser)
    case GettingSuperUserPassword(s, user) =>
      if answer.value.Found? then MakeSecret(s, user, answer.value.value)
      else CredentialMissing(s, answer.value.Failed?, WaitingForSuperUserPassword, NoSuperUserPassword)
    case CreatingSecret(s, _) =>
      if answer.ok then AfterSecret(s, true) else Failing(s, [CreateChildFailed, ServerSecretError])
    case Putting(s, writes, failed) =>
      if |writes| == 1 then Finished(failed) else Putting(s, writes[1..], failed)
  }
}
