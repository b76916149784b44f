/**
 Whole passes of a server while one of its superuser credentials cannot be had: its pod and its
 service are made all the same, no secret is, and of the two reports that every such pass writes
 the one takes effect that was not there before.
 */
module ServerWaiting {
  import opened Resources
  import opened Postgres
  import opened Api
  import opened Passes
  import opened Waiting
  import D = DatabasePass
  import S = ServerPass
  import St = Settling
  import SS = ServerSettling

  /** A server that is gone when its pass starts is left at that, and the pass succeeds. */
  lemma GoneServer(key: Key, store: Store, opens: Opens)
    requires RequestedKeys(St.Fresh(store)) && key !in store.servers
    ensures SS.EndOf(S.Begin(key), store, St.Fresh(store), opens) == PassEnd(S.Finished(false), store, 0)
  {
    SS.Leads(S.Begin(key), store, St.Fresh(store), opens, store, ServerIs(NotFound), S.Finished(false));
  }

  /** The credential is left to a source whose object is not there. */
  ghost predicate ObjectIsMissing(given: string, source: Option<ValueSource>, namespace: string, store: Store) {
    given == "" && source.Some? && Missing(source.value, namespace, store)
  }

  /** The credential is left to no source, or to an object that is there without the entry. */
  ghost predicate EntryIsMissing(given: string, source: Option<ValueSource>, namespace: string, store: Store) {
    given == "" &&
    (source.Some? ==>
       !Missing(source.value, namespace, store) &&
       forall text :: !Refers(source.value, namespace, store.configMaps, SecretData(store.secrets), text))
  }

  /** What a pass writes when it cannot have a credential, one report after the other, and whether it fails. */
  datatype Trouble = Trouble(first: Status, second: Status, failed: bool)

  function Writes(t: Trouble): seq<Status> {
    [t.first, t.second]
  }

  /**
   The trouble with one credential. A missing object is waited for and then reported as an error;
   a missing entry is reported as an error and then, the pass being over, as a success.
   */
  ghost predicate CredentialGives(given: string, source: Option<ValueSource>, namespace: string, store: Store,
                                  waiting: Message, invalid: Message, t: Trouble)
  {
    || (ObjectIsMissing(given, source, namespace, store) &&
        t == Trouble(Status(Pending, waiting), Status(Error, ServerSecretError), true))
    || (EntryIsMissing(given, source, namespace, store) &&
        t == Trouble(Status(Error, invalid), Status(Success, Synced), false))
  }

  ghost predicate UserGives(s: DatabaseServer, store: Store, t: Trouble) {
    CredentialGives(s.spec.superUser, s.spec.superUserFrom, s.meta.key.namespace, store,
                    WaitingForSuperUser, NoSuperUser, t)
  }

  ghost predicate PasswordGives(s: DatabaseServer, store: Store, t: Trouble) {
    CredentialGives(s.spec.superUserPassword, s.spec.superUserPasswordFrom, s.meta.key.namespace, store,
                    WaitingForSuperUserPassword, NoSuperUserPassword, t)
  }

  /** The trouble with a server's credentials: that with the name, or else that with the password. */
  ghost predicate Has(s: DatabaseServer, store: Store, t: Trouble) {
    UserGives(s, store, t) || (SS.SuperUser(s, store).Found? && PasswordGives(s, store, t))
  }

  /** The lookup behind a trouble. */
  lemma TroubleIsLookedUp(given: string, source: Option<ValueSource>, namespace: string, store: Store,
                          waiting: Message, invalid: Message, t: Trouble)
    requires CredentialGives(given, source, namespace, store, waiting, invalid, t)
    ensures given == "" && !St.Value(store, namespace, source).Found?
    ensures var failed := St.Value(store, namespace, source).Failed?;
            t == if failed then Trouble(Status(Error, invalid), Status(Success, Synced), false)
                 else Trouble(Status(Pending, waiting), Status(Error, ServerSecretError), true)
  {
    MissingIsNotFound(source, namespace, store);
    var found := St.Value(store, namespace, source);
    if found.Found? { LookupIff(source, namespace, store.configMaps, SecretData(store.secrets), found.value); }
  }

  lemma PasswordComesToReports(s: DatabaseServer, user: string, store: Store, view: View, opens: Opens, t: Trouble)
    requires RequestedKeys(view) && PasswordGives(s, store, t)
    ensures FewWrites(S.AfterSuperUser(s, user))
    ensures SS.EndOf(S.AfterSuperUser(s, user), store, view, opens) ==
            SS.EndOf(S.Putting(s, Writes(t), t.failed), store, view, opens)
  {
    var namespace := s.meta.key.namespace;
    TroubleIsLookedUp(s.spec.superUserPassword, s.spec.superUserPasswordFrom, namespace, store,
                      WaitingForSuperUserPassword, NoSuperUserPassword, t);
    SS.Leads(S.GettingSuperUserPassword(s, user), store, view, opens, store,
             ValueIs(St.Value(store, namespace, s.spec.superUserPasswordFrom)), S.Putting(s, Writes(t), t.failed));
  }

  lemma UserComesToReports(s: DatabaseServer, store: Store, view: View, opens: Opens, t: Trouble)
    requires RequestedKeys(view) && s.meta.key !in view.secrets && UserGives(s, store, t)
    ensures SS.EndOf(S.FindingSecret(s), store, view, opens) ==
            SS.EndOf(S.Putting(s, Writes(t), t.failed), store, view, opens)
  {
    var namespace := s.meta.key.namespace;
    TroubleIsLookedUp(s.spec.superUser, s.spec.superUserFrom, namespace, store, WaitingForSuperUser, NoSuperUser, t);
    SS.Leads(S.FindingSecret(s), store, view, opens, store, SecretIs(NotFound), S.GettingSuperUser(s));
    SS.Leads(S.GettingSuperUser(s), store, view, opens, store,
             ValueIs(St.Value(store, namespace, s.spec.superUserFrom)), S.Putting(s, Writes(t), t.failed));
  }

  /** Instead of a secret, the pass comes to its two reports. */
  lemma ComesToReports(s: DatabaseServer, store: Store, view: View, opens: Opens, t: Trouble)
    requires RequestedKeys(view) && s.meta.key !in view.secrets && Has(s, store, t)
    ensures SS.EndOf(S.FindingSecret(s), store, view, opens) ==
            SS.EndOf(S.Putting(s, Writes(t), t.failed), store, view, opens)
  {
    if UserGives(s, store, t) {
      UserComesToReports(s, store, view, opens, t);
    } else {
      SS.FindsUser(s, SS.SuperUser(s, store).value, store, view, opens);
      PasswordComesToReports(s, SS.SuperUser(s, store).value, store, view, opens, t);
    }
  }

  /** Of the two reports on an object, the one that changes it takes effect: the first, or else the second. */
  function Reported(stored: DatabaseServer, known: DatabaseServer, t: Trouble): DatabaseServer {
    var status := if known.(status := t.first) == stored then t.second else t.first;
    known.(status := status, meta := known.meta.(version := stored.meta.version + 1))
  }

  lemma OneReportLands(known: DatabaseServer, t: Trouble, store: Store, view: View, opens: Opens, stored: DatabaseServer)
    requires RequestedKeys(view) && known.meta.key in store.servers && stored == store.servers[known.meta.key]
    requires stored.meta.version == known.meta.version && t.first != t.second
    ensures SS.EndOf(S.Putting(known, Writes(t), t.failed), store, view, opens) ==
            PassEnd(S.Finished(t.failed),
                    store.(servers := store.servers[known.meta.key := Reported(stored, known, t)]), 0)
  {
    var first, second := known.(status := t.first), known.(status := t.second);
    var once := store.(servers := Put(first, store.servers, NoFault));
    var twice := once.(servers := Put(second, once.servers, NoFault));
    SS.Leads(S.Putting(known, Writes(t), t.failed), store, view, opens, once, PutIs,
             S.Putting(known, Writes(t)[1..], t.failed));
    SS.Leads(S.Putting(known, Writes(t)[1..], t.failed), once, view, opens, twice, PutIs, S.Finished(t.failed));
    assert twice.servers == store.servers[known.meta.key := Reported(stored, known, t)];
  }

  /** Neither labels nor the other children make up for a missing credential. */
  lemma StillHas(s: DatabaseServer, s': DatabaseServer, store: Store, store': Store, t: Trouble)
    requires Has(s, store, t) && s'.spec == s.spec && s'.meta.key == s.meta.key
    requires store'.configMaps == store.configMaps && store'.secrets == store.secrets
    ensures Has(s', store', t)
  {
    assert SS.SuperUser(s', store') == SS.SuperUser(s, store);
  }

  /** From the lookup of the secret on: no secret, and one report. */
  lemma WaitsForSecret(known: DatabaseServer, stored: DatabaseServer, store: Store, view: View, opens: Opens, t: Trouble)
    requires RequestedKeys(view) && known.meta.key !in view.secrets && Has(known, store, t)
    requires known.meta.key in store.servers && stored == store.servers[known.meta.key]
    requires stored.meta.version == known.meta.version
    ensures SS.EndOf(S.FindingSecret(known), store, view, opens) ==
            PassEnd(S.Finished(t.failed),
                    store.(servers := store.servers[known.meta.key := Reported(stored, known, t)]), 0)
  {
    ComesToReports(known, store, view, opens, t);
    OneReportLands(known, t, store, view, opens, stored);
  }

  /** The children of a new server are made although its secret cannot be, and one report takes effect. */
  lemma NewServerWaits(s: DatabaseServer, store: Store, opens: Opens, t: Trouble)
    requires SS.Stored(s, store) && Has(s, store, t)
    requires s.meta.key !in store.pods && s.meta.key !in store.services && s.meta.key !in store.secrets
    ensures var served := SS.WithService(s, SS.WithPod(s, store));
            SS.EndOf(S.Begin(s.meta.key), store, St.Fresh(store), opens) ==
            PassEnd(S.Finished(t.failed),
                    served.(servers := store.servers[s.meta.key := Reported(s, SS.AfterLabels(s), t)]), 0)
  {
    var view, served := St.Fresh(store), SS.WithService(s, SS.WithPod(s, store));
    SS.Opening(s, store, opens);
    SS.MakesChildren(s, store, view, opens);
    StillHas(s, SS.AfterLabels(s), store, served, t);
    WaitsForSecret(SS.AfterLabels(s), s, served, view, opens, t);
  }

  /** The pod, for the plugins that have one, and the service are there under the server's control. */
  ghost predicate Standing(s: DatabaseServer, store: Store) {
    && (SS.HasPod(s) ==> s.meta.key in store.pods && IsControlledBy(store.pods[s.meta.key].owner, s.meta.uid))
    && s.meta.key in store.services && IsControlledBy(store.services[s.meta.key].owner, s.meta.uid)
  }

  lemma FindsPodAndService(s: DatabaseServer, store: Store, view: View, opens: Opens)
    requires RequestedKeys(view) && Standing(s, store) && view.pods == store.pods && view.services == store.services
    ensures SS.EndOf(S.AfterBegin(s), store, view, opens) == SS.EndOf(S.FindingSecret(s), store, view, opens)
  {
    var key := s.meta.key;
    if SS.HasPod(s) {
      SS.Leads(S.FindingPod(s), store, view, opens, store, ChildIs(Found(view.pods[key])), S.FindingService(s));
    }
    SS.Leads(S.FindingService(s), store, view, opens, store, ChildIs(Found(view.services[key])), S.FindingSecret(s));
  }

  /** A server without a credential and so without its secret, with its other children in place. */
  ghost predicate Waits(s: DatabaseServer, store: Store, t: Trouble) {
    SS.Stored(s, store) && Standing(s, store) && s.meta.key !in store.secrets && Has(s, store, t)
  }

  /** The other of the two reports, as the next version of the object. */
  function Flipped(s: DatabaseServer, t: Trouble): DatabaseServer {
    s.(status := if s.status == t.first then t.second else t.first,
       meta := s.meta.(version := s.meta.version + 1))
  }

  /** Every pass of such a server changes its report to the other one and leaves it waiting. */
  lemma WaitingServerFlips(s: DatabaseServer, store: Store, opens: Opens, t: Trouble)
    requires Waits(s, store, t)
    ensures var after := store.(servers := store.servers[s.meta.key := Flipped(s, t)]);
            && SS.EndOf(S.Begin(s.meta.key), store, St.Fresh(store), opens) == PassEnd(S.Finished(t.failed), after, 0)
            && Waits(Flipped(s, t), after, t)
  {
    var after := store.(servers := store.servers[s.meta.key := Flipped(s, t)]);
    SS.Opening(s, store, opens);
    FindsPodAndService(s, store, St.Fresh(store), opens);
    WaitsForSecret(s, s, store, St.Fresh(store), opens, t);
    assert Reported(s, s, t) == Flipped(s, t);
    StillHas(s, Flipped(s, t), store, after, t);
  }

  /** The store after a number of passes of a waiting server. */
  ghost function AfterWaiting(s: DatabaseServer, store: Store, opens: Opens, t: Trouble, n: nat): Store
    requires Waits(s, store, t)
    decreases n
  {
    if n == 0 then store
    else
      WaitingServerFlips(s, store, opens, t);
      AfterWaiting(Flipped(s, t), SS.AfterPass(store, opens, s.meta.key), opens, t, n - 1)
  }

  /** The object after as many reports. */
  function FlippedTimes(s: DatabaseServer, t: Trouble, n: nat): DatabaseServer
    decreases n
  {
    if n == 0 then s else FlippedTimes(Flipped(s, t), t, n - 1)
  }

  lemma {:induction false} BackAndForth(s: DatabaseServer, t: Trouble, n: nat)
    requires s.status in Writes(t) && t.first != t.second
    ensures var now := FlippedTimes(s, t, n);
            && now.meta == s.meta.(version := s.meta.version + n) && now.spec == s.spec
            && now.status in Writes(t) && (now.status == s.status <==> n % 2 == 0)
    decreases n
  {
    if n > 0 { BackAndForth(Flipped(s, t), t, n - 1); }
  }

  lemma {:induction false} PassesFlip(s: DatabaseServer, store: Store, opens: Opens, t: Trouble, n: nat)
    requires Waits(s, store, t)
    ensures AfterWaiting(s, store, opens, t, n) ==
            store.(servers := store.servers[s.meta.key := FlippedTimes(s, t, n)])
    decreases n
  {
    if n == 0 {
      assert store.servers[s.meta.key := s] == store.servers;
    } else {
      var s', after := Flipped(s, t), store.(servers := store.servers[s.meta.key := Flipped(s, t)]);
      WaitingServerFlips(s, store, opens, t);
      assert SS.AfterPass(store, opens, s.meta.key) == after;
      PassesFlip(s', after, opens, t, n - 1);
      var end := FlippedTimes(s', t, n - 1);
      assert after.servers[s.meta.key := end] == store.servers[s.meta.key := end];
    }
  }

  /**
   No number of passes brings it to rest: each one makes a new version, and the status goes back
   and forth between pending and error or, when an entry is missing, between error and success.
   */
  lemma WaitingNeverRests(s: DatabaseServer, store: Store, opens: Opens, t: Trouble, n: nat)
    requires Waits(s, store, t)
    requires s.status == t.first || s.status == t.second
    ensures var end := AfterWaiting(s, store, opens, t, n);
            s.meta.key in end.servers &&
            var now := end.servers[s.meta.key];
            && end == store.(servers := store.servers[s.meta.key := now])
            && now.meta == s.meta.(version := s.meta.version + n) && now.spec == s.spec
            && (now.status == t.first || now.status == t.second)
            && (now.status == s.status <==> n % 2 == 0)
  {
    PassesFlip(s, store, opens, t, n);
    BackAndForth(s, t, n);
  }
}
