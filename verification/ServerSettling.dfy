/**
 A new DatabaseServer in a healthy environment that nothing else changes: one pass makes its
 pod, its service and its secret and reports success, and the next pass changes nothing.
 */
module ServerSettling {
  import opened Resources
  import opened Postgres
  import opened Api
  import opened Passes
  import opened PostgresFacts
  import Dsn
  import Text
  import D = DatabasePass
  import S = ServerPass
  import St = Settling

  /** How a server pass ends when nothing fails, whatever the number of its first request. */
  ghost function EndOf(p: S.Pass, store: Store, view: View, opens: Opens): PassEnd<S.Pass>
    requires S.WellFormedPass(p) && FewWrites(p) && RequestedKeys(view)
  {
    RunServer(p, store, St.Always(view), opens, FAULTLESS, 0).(clock := 0)
  }

  lemma {:induction false} AnyClock(p: S.Pass, store: Store, view: View, opens: Opens, clock: nat)
    requires S.WellFormedPass(p) && FewWrites(p) && RequestedKeys(view)
    ensures RunServer(p, store, St.Always(view), opens, FAULTLESS, clock).(clock := 0) == EndOf(p, store, view, opens)
    decreases ServerRank(p)
  {
    if S.Running(p) {
      var (after, answer) := Api.Serve(store, view, opens, S.Ask(p), NoFault);
      NextServerRank(p, answer);
      AnyClock(S.Next(p, answer), after, view, opens, clock + 1);
      AnyClock(S.Next(p, answer), after, view, opens, 1);
    }
  }

  /** One request further. */
  lemma Leads(p: S.Pass, store: Store, view: View, opens: Opens, after: Store, answer: Answer, p': S.Pass)
    requires S.Running(p) && FewWrites(p) && RequestedKeys(view)
    requires Api.Serve(store, view, opens, S.Ask(p), NoFault) == (after, answer) && S.Next(p, answer) == p'
    ensures FewWrites(p') && EndOf(p, store, view, opens) == EndOf(p', after, view, opens)
  {
    ServerAdvances(p, store, St.Always(view), opens, FAULTLESS, 0);
    AnyClock(p', after, view, opens, 1);
  }

  /** What the superuser's name or password comes to: the one in the spec wins over its source. */
  function Credential(given: string, source: Option<ValueSource>, namespace: string, store: Store): Lookup<string> {
    if given != "" then Found(given) else St.Value(store, namespace, source)
  }

  function SuperUser(s: DatabaseServer, store: Store): Lookup<string> {
    Credential(s.spec.superUser, s.spec.superUserFrom, s.meta.key.namespace, store)
  }

  function SuperUserPassword(s: DatabaseServer, store: Store): Lookup<string> {
    Credential(s.spec.superUserPassword, s.spec.superUserPasswordFrom, s.meta.key.namespace, store)
  }

  /** The credentials can be had, and the plugin has a DSN format. */
  ghost predicate Healthy(s: DatabaseServer, store: Store) {
    && SuperUser(s, store).Found? && SuperUserPassword(s, store).Found?
    && D.EngineOf(s.spec.plugin).Some?
  }

  function OwnChild(s: DatabaseServer): Child {
    Child(Some(OwnerRef("DatabaseServer", s.meta.key.name, s.meta.uid)))
  }

  /** The superuser's DSN text, written out for the two engines. */
  function ServerText(s: DatabaseServer, user: string, password: string): string {
    var port := Text.PrintInt(s.spec.servicePort);
    if D.EngineOf(s.spec.plugin) == Some(D.MySqlEngine) then
      user + ":" + password + "@tcp(" + s.meta.key.name + "." + s.meta.key.namespace + ":" + port +
      ")/mysql?charset=utf8&parseTime=True"
    else
      "postgres://" + user + ":" + password + "@" + s.meta.key.name + "." + s.meta.key.namespace + ":" + port +
      "/" + "postgres" + "?sslmode=disable"
  }

  lemma Regroup(front: string, name: string, dot: string, namespace: string)
    ensures front + (name + dot + namespace) == front + name + dot + namespace
  {}

  /** A credential that is empty has no default either, once the spec and its source have been asked. */
  lemma PrintsServerText(s: DatabaseServer, user: string, password: string)
    requires D.EngineOf(s.spec.plugin).Some?
    requires (user == "" ==> s.spec.superUser == "") && (password == "" ==> s.spec.superUserPassword == "")
    ensures S.SuperUserDsn(s, user, password) == Some(ServerText(s, user, password))
  {
    if D.EngineOf(s.spec.plugin) == Some(D.MySqlEngine) {
      Regroup(user + ":" + password + "@tcp(", s.meta.key.name, ".", s.meta.key.namespace);
    } else {
      Dsn.PrintedText(user, password, None, s);
    }
  }

  /** The secret with the superuser's DSN, under the entry that Database passes look for. */
  function OwnSecret(s: DatabaseServer, store: Store): (secret: Secret)
    requires SuperUser(s, store).Found? && SuperUserPassword(s, store).Found?
  {
    Secret(Some(OwnerRef("Secret", s.meta.key.name, s.meta.uid)),
           map["dsn" := ServerText(s, SuperUser(s, store).value, SuperUserPassword(s, store).value)])
  }

  /** The plugins whose servers run in a pod of their own. */
  predicate HasPod(s: DatabaseServer) {
    s.spec.plugin.Postgres? || s.spec.plugin.MySql?
  }

  function WithPod(s: DatabaseServer, store: Store): Store {
    if HasPod(s) then store.(pods := store.pods[s.meta.key := OwnChild(s)]) else store
  }

  function WithService(s: DatabaseServer, store: Store): Store {
    store.(services := store.services[s.meta.key := OwnChild(s)])
  }

  function WithLabel(s: DatabaseServer, name: string): DatabaseServer {
    if s.meta.labels.None? then s
    else s.(meta := s.meta.(labels := Some(s.meta.labels.value[name := s.meta.key.name])))
  }

  /** The server object with the labels that making its pod, its service and its secret leave on it. */
  function AfterPodLabels(s: DatabaseServer): DatabaseServer {
    if HasPod(s) then WithLabel(WithLabel(s, "controller"), "databaseserver") else s
  }

  function AfterLabels(s: DatabaseServer): DatabaseServer {
    WithLabel(AfterPodLabels(s), "controller")
  }

  lemma LabelsOnce(s: DatabaseServer)
    ensures AfterLabels(s).(meta := D.Labelled(AfterLabels(s).meta)) == AfterLabels(s)
    ensures OwnChild(AfterLabels(s)) == OwnChild(s) && OwnChild(AfterPodLabels(s)) == OwnChild(s)
  {
    if s.meta.labels.Some? {
      var labels := AfterLabels(s).meta.labels.value;
      assert labels["controller" := s.meta.key.name] == labels;
    }
  }

  lemma MakesPod(s: DatabaseServer, store: Store, view: View, opens: Opens)
    requires RequestedKeys(view) && s.meta.key !in view.pods && s.meta.key !in store.pods
    ensures EndOf(S.AfterBegin(s), store, view, opens) ==
            EndOf(S.FindingService(AfterPodLabels(s)), WithPod(s, store), view, opens)
  {
    if HasPod(s) {
      var s' := AfterPodLabels(s);
      Leads(S.FindingPod(s), store, view, opens, store, ChildIs(NotFound), S.CreatingPod(s'));
      Leads(S.CreatingPod(s'), store, view, opens, WithPod(s, store), CreationIs(true), S.FindingService(s'));
    }
  }

  lemma MakesService(s: DatabaseServer, store: Store, view: View, opens: Opens)
    requires RequestedKeys(view) && s.meta.key !in view.services && s.meta.key !in store.services
    ensures EndOf(S.FindingService(s), store, view, opens) ==
            EndOf(S.FindingSecret(s.(meta := D.Labelled(s.meta))), WithService(s, store), view, opens)
  {
    var s' := s.(meta := D.Labelled(s.meta));
    Leads(S.FindingService(s), store, view, opens, store, ChildIs(NotFound), S.CreatingService(s'));
    Leads(S.CreatingService(s'), store, view, opens, WithService(s, store), CreationIs(true), S.FindingSecret(s'));
  }

  lemma FindsPassword(s: DatabaseServer, user: string, password: string, store: Store, view: View, opens: Opens)
    requires RequestedKeys(view) && SuperUserPassword(s, store) == Found(password)
    ensures FewWrites(S.MakeSecret(s, user, password))
    ensures EndOf(S.AfterSuperUser(s, user), store, view, opens) == EndOf(S.MakeSecret(s, user, password), store, view, opens)
  {
    if s.spec.superUserPassword == "" {
      Leads(S.GettingSuperUserPassword(s, user), store, view, opens, store, ValueIs(Found(password)),
            S.MakeSecret(s, user, password));
    }
  }

  lemma FindsUser(s: DatabaseServer, user: string, store: Store, view: View, opens: Opens)
    requires RequestedKeys(view) && s.meta.key !in view.secrets && SuperUser(s, store) == Found(user)
    ensures EndOf(S.FindingSecret(s), store, view, opens) == EndOf(S.AfterSuperUser(s, user), store, view, opens)
  {
    if s.spec.superUser == "" {
      Leads(S.FindingSecret(s), store, view, opens, store, SecretIs(NotFound), S.GettingSuperUser(s));
      Leads(S.GettingSuperUser(s), store, view, opens, store, ValueIs(Found(user)), S.AfterSuperUser(s, user));
    } else {
      Leads(S.FindingSecret(s), store, view, opens, store, SecretIs(NotFound), S.AfterSuperUser(s, user));
    }
  }

  lemma MakesSecret(s: DatabaseServer, dsn: string, store: Store, view: View, opens: Opens)
    requires RequestedKeys(view) && s.meta.key !in store.secrets
    ensures EndOf(S.CreatingSecret(s, dsn), store, view, opens) ==
            EndOf(S.Putting(s, [St.SUCCESS], false),
                  store.(secrets := store.secrets[s.meta.key := S.SecretOf(s, dsn)]), view, opens)
  {
    Leads(S.CreatingSecret(s, dsn), store, view, opens,
          store.(secrets := store.secrets[s.meta.key := S.SecretOf(s, dsn)]), CreationIs(true),
          S.Putting(s, [St.SUCCESS], false));
  }

  lemma Reports(s: DatabaseServer, store: Store, view: View, opens: Opens)
    requires RequestedKeys(view)
    ensures EndOf(S.Putting(s, [St.SUCCESS], false), store, view, opens) ==
            PassEnd(S.Finished(false), store.(servers := Put(s.(status := St.SUCCESS), store.servers, NoFault)), 0)
  {
    Leads(S.Putting(s, [St.SUCCESS], false), store, view, opens,
          store.(servers := Put(s.(status := St.SUCCESS), store.servers, NoFault)), PutIs, S.Finished(false));
  }

  /** With the credentials known, the secret is made with the DSN text that they give. */
  lemma AsksForSecret(s: DatabaseServer, user: string, password: string, text: string, secret: Secret)
    requires S.SuperUserDsn(s, user, password) == Some(text)
    requires secret == Secret(Some(OwnerRef("Secret", s.meta.key.name, s.meta.uid)), map["dsn" := text])
    ensures S.MakeSecret(s, user, password) == S.CreatingSecret(s.(meta := D.Labelled(s.meta)), text)
    ensures S.SecretOf(s.(meta := D.Labelled(s.meta)), text) == secret
  {}

  /** From the service on: the secret, with the credentials looked up, and the report. */
  lemma SecretAndReport(s: DatabaseServer, store: Store, view: View, opens: Opens, secret: Secret)
    requires RequestedKeys(view) && Healthy(s, store) && secret == OwnSecret(s, store)
    requires s.meta.key !in view.secrets && s.meta.key !in store.secrets
    ensures var s' := s.(meta := D.Labelled(s.meta));
            var made := store.(secrets := store.secrets[s.meta.key := secret]);
            EndOf(S.FindingSecret(s), store, view, opens) ==
            PassEnd(S.Finished(false), made.(servers := Put(s'.(status := St.SUCCESS), store.servers, NoFault)), 0)
  {
    var user, password := SuperUser(s, store).value, SuperUserPassword(s, store).value;
    var s', text := s.(meta := D.Labelled(s.meta)), secret.data["dsn"];
    FindsUser(s, user, store, view, opens);
    FindsPassword(s, user, password, store, view, opens);
    PrintsServerText(s, user, password);
    AsksForSecret(s, user, password, text, secret);
    MakesSecret(s', text, store, view, opens);
    Reports(s', store.(secrets := store.secrets[s.meta.key := secret]), view, opens);
  }

  /** The store after a whole pass with up-to-date listers and no failure. */
  ghost function AfterPass(store: Store, opens: Opens, key: Key): Store
    requires RequestedKeys(St.Fresh(store))
  {
    EndOf(S.Begin(key), store, St.Fresh(store), opens).store
  }

  ghost predicate Stored(s: DatabaseServer, store: Store) {
    RequestedKeys(St.Fresh(store)) && s.meta.key in store.servers && s == store.servers[s.meta.key]
  }

  ghost predicate ReadyForNew(s: DatabaseServer, store: Store) {
    Stored(s, store) && Healthy(s, store) &&
    s.meta.key !in store.pods && s.meta.key !in store.services && s.meta.key !in store.secrets
  }

  /** The server object as its pass leaves it: labelled, and reporting success. */
  function Reported(s: DatabaseServer): DatabaseServer {
    Update(s, AfterLabels(s).(status := St.SUCCESS))
  }

  function WithSecret(s: DatabaseServer, secret: Secret, store: Store): Store {
    store.(secrets := store.secrets[s.meta.key := secret], servers := store.servers[s.meta.key := Reported(s)])
  }

  /** What one pass leaves. */
  function Complete(s: DatabaseServer, store: Store): Store
    requires SuperUser(s, store).Found? && SuperUserPassword(s, store).Found? && D.EngineOf(s.spec.plugin).Some?
  {
    WithSecret(s, OwnSecret(s, store), WithService(s, WithPod(s, store)))
  }

  lemma ReportIsStored(s: DatabaseServer, store: Store, secret: Secret)
    requires s.meta.key in store.servers && store.servers[s.meta.key] == s
    ensures var made := store.(secrets := store.secrets[s.meta.key := secret]);
            made.(servers := Put(AfterLabels(s).(status := St.SUCCESS), store.servers, NoFault)) == WithSecret(s, secret, store)
    ensures Reported(s).status == St.SUCCESS && Reported(s).spec == s.spec
    ensures Reported(s).meta.key == s.meta.key && Reported(s).meta.uid == s.meta.uid
  {}

  lemma Opening(s: DatabaseServer, store: Store, opens: Opens)
    requires Stored(s, store)
    ensures EndOf(S.Begin(s.meta.key), store, St.Fresh(store), opens) == EndOf(S.AfterBegin(s), store, St.Fresh(store), opens)
  {
    Leads(S.Begin(s.meta.key), store, St.Fresh(store), opens, store, ServerIs(Found(s)), S.AfterBegin(s));
  }

  lemma MakesChildren(s: DatabaseServer, store: Store, view: View, opens: Opens)
    requires RequestedKeys(view) && s.meta.key !in view.pods && s.meta.key !in store.pods
    requires s.meta.key !in view.services && s.meta.key !in store.services
    ensures EndOf(S.AfterBegin(s), store, view, opens) ==
            EndOf(S.FindingSecret(AfterLabels(s)), WithService(s, WithPod(s, store)), view, opens)
  {
    LabelsOnce(s);
    MakesPod(s, store, view, opens);
    MakesService(AfterPodLabels(s), WithPod(s, store), view, opens);
  }

  /** Neither labels nor other objects matter for the secret. */
  lemma SameSecret(s: DatabaseServer, s': DatabaseServer, store: Store, store': Store)
    requires Healthy(s, store)
    requires s'.spec == s.spec && s'.meta.key == s.meta.key && s'.meta.uid == s.meta.uid
    requires store'.configMaps == store.configMaps && store'.secrets == store.secrets
    ensures Healthy(s', store') && OwnSecret(s', store') == OwnSecret(s, store)
  {
    assert SuperUser(s', store') == SuperUser(s, store) && SuperUserPassword(s', store') == SuperUserPassword(s, store);
  }

  /** One pass makes everything a server needs and reports success. */
  lemma SettlesInOnePass(s: DatabaseServer, store: Store, opens: Opens)
    requires ReadyForNew(s, store)
    ensures AfterPass(store, opens, s.meta.key) == Complete(s, store)
  {
    var served := WithService(s, WithPod(s, store));
    Opening(s, store, opens);
    MakesChildren(s, store, St.Fresh(store), opens);
    SameSecret(s, AfterLabels(s), store, served);
    LabelsOnce(s);
    SecretAndReport(AfterLabels(s), served, St.Fresh(store), opens, OwnSecret(s, store));
    ReportIsStored(s, served, OwnSecret(s, store));
  }

  /**
   A new Postgres or MySQL server gets a pod that it controls and the servers of other plugins
   none; every one gets its service, and a secret with the superuser's DSN.
   */
  lemma NewServerHasItsChildren(s: DatabaseServer, store: Store, opens: Opens)
    requires ReadyForNew(s, store)
    ensures var done, key := AfterPass(store, opens, s.meta.key), s.meta.key;
            var child := Child(Some(OwnerRef("DatabaseServer", key.name, s.meta.uid)));
            && done.pods == (if s.spec.plugin.Postgres? || s.spec.plugin.MySql? then store.pods[key := child] else store.pods)
            && done.services == store.services[key := child]
            && key in done.secrets && "dsn" in done.secrets[key].data
            && done.secrets[key].data["dsn"] == ServerText(s, SuperUser(s, store).value, SuperUserPassword(s, store).value)
  {
    SettlesInOnePass(s, store, opens);
  }

  /** A server whose children are all there, under its own control. */
  ghost predicate HasChildren(s: DatabaseServer, view: View) {
    && (HasPod(s) ==> s.meta.key in view.pods && IsControlledBy(view.pods[s.meta.key].owner, s.meta.uid))
    && s.meta.key in view.services && IsControlledBy(view.services[s.meta.key].owner, s.meta.uid)
    && s.meta.key in view.secrets && IsControlledBy(view.secrets[s.meta.key].owner, s.meta.uid)
  }

  lemma FindsChildren(s: DatabaseServer, store: Store, view: View, opens: Opens)
    requires RequestedKeys(view) && HasChildren(s, view)
    ensures EndOf(S.AfterBegin(s), store, view, opens) == EndOf(S.Putting(s, [St.SUCCESS], false), store, view, opens)
  {
    var key := s.meta.key;
    if HasPod(s) {
      Leads(S.FindingPod(s), store, view, opens, store, ChildIs(Found(view.pods[key])), S.FindingService(s));
    }
    Leads(S.FindingService(s), store, view, opens, store, ChildIs(Found(view.services[key])), S.FindingSecret(s));
    Leads(S.FindingSecret(s), store, view, opens, store, SecretIs(Found(view.secrets[key])), S.Putting(s, [St.SUCCESS], false));
  }

  /** A server that has its children and reports success is left as it is. */
  lemma SuccessIsFixed(s: DatabaseServer, store: Store, opens: Opens)
    requires Stored(s, store) && HasChildren(s, St.Fresh(store)) && s.status == St.SUCCESS
    ensures AfterPass(store, opens, s.meta.key) == store
  {
    Opening(s, store, opens);
    FindsChildren(s, store, St.Fresh(store), opens);
    Reports(s, store, St.Fresh(store), opens);
    assert Put(s.(status := St.SUCCESS), store.servers, NoFault) == store.servers;
  }

  lemma KeepsChildren(s: DatabaseServer, served: Store, secret: Secret)
    requires Stored(s, served) && secret.owner == Some(OwnerRef("Secret", s.meta.key.name, s.meta.uid))
    requires s.meta.key in served.services && served.services[s.meta.key] == OwnChild(s)
    requires HasPod(s) ==> s.meta.key in served.pods && served.pods[s.meta.key] == OwnChild(s)
    ensures Stored(Reported(s), WithSecret(s, secret, served))
    ensures HasChildren(Reported(s), St.Fresh(WithSecret(s, secret, served)))
  {
    assert OwnChild(s).owner.value.uid == s.meta.uid;
  }

  lemma CompleteIsSettled(s: DatabaseServer, store: Store, secret: Secret, done: Store)
    requires Stored(s, store) && secret.owner == Some(OwnerRef("Secret", s.meta.key.name, s.meta.uid))
    requires done == WithSecret(s, secret, WithService(s, WithPod(s, store)))
    ensures Stored(Reported(s), done) && HasChildren(Reported(s), St.Fresh(done)) && Reported(s).status == St.SUCCESS
    ensures Reported(s).meta.key == s.meta.key
  {
    var served := WithService(s, WithPod(s, store));
    assert Stored(s, served);
    ReportIsStored(s, served, secret);
    KeepsChildren(s, served, secret);
  }

  /** From the first pass on, every pass leaves the server, its children and its secret as they are. */
  lemma NextPassChangesNothing(s: DatabaseServer, store: Store, opens: Opens, done: Store)
    requires ReadyForNew(s, store) && done == AfterPass(store, opens, s.meta.key)
    ensures RequestedKeys(St.Fresh(done)) && AfterPass(done, opens, s.meta.key) == done
  {
    SettlesInOnePass(s, store, opens);
    CompleteIsSettled(s, store, OwnSecret(s, store), done);
    SuccessIsFixed(Reported(s), done, opens);
  }
}
