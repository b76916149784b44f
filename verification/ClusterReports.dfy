/**
 When a pass reports success: it owns the secret under its key, unless a credential lookup
 of a server failed. So a server and a Database of the same name exclude each other.
 */
module ClusterReports {
  import opened Resources
  import opened Postgres
  import opened Api
  import opened Cluster
  import opened ClusterChildren
  import D = DatabasePass
  import S = ServerPass

  const SUCCESS := Status(Success, Synced)

  /** The pass still has a report of success to write. */
  predicate ServerClaims(p: S.Pass) {
    p.Putting? && SUCCESS in p.writes
  }

  predicate DatabaseClaims(p: D.Pass) {
    p.Putting? && SUCCESS in p.writes
  }

  ghost predicate ServerPassHonest(store: Store, p: S.Pass) {
    ServerClaims(p) ==> OwnsSecret(store.secrets, p.s.meta.key, p.s.meta.uid)
  }

  /** A Database without a user list has no secret and claims success without one. */
  ghost predicate DatabasePassHonest(store: Store, p: D.Pass) {
    DatabaseClaims(p) && p.db.spec.users.Some? ==> OwnsSecret(store.secrets, p.db.meta.key, p.db.meta.uid)
  }

  /** The answer says that a superuser credential cannot be resolved, although no object is missing. */
  predicate CredentialFails(p: S.Pass, answer: Answer) {
    (p.GettingSuperUser? || p.GettingSuperUserPassword?) && answer.ValueIs? && answer.value.Failed?
  }

  /**
   A step leads to a claim of success without the secret exactly when the pass gives up on a
   credential while the server does not own the secret; a pass that gives up always claims.
   */
  lemma ServerClaimsIff(before: Store, after: Store, p: S.Pass, answer: Answer)
    requires S.Running(p) && Fits(S.Ask(p), answer) && ServerPassHonest(before, p)
    requires OwnersKept(before, after) && Truthful(after, S.Ask(p), answer)
    ensures !ServerPassHonest(after, S.Next(p, answer)) <==>
              CredentialFails(p, answer) && !OwnsSecret(after.secrets, p.s.meta.key, p.s.meta.uid)
    ensures CredentialFails(p, answer) ==> ServerClaims(S.Next(p, answer))
  {
    if CredentialFails(p, answer) {
      assert S.Next(p, answer).writes[1] == SUCCESS;
    }
  }

  /** Before the SQL statements are through, a Database pass claims nothing. */
  lemma EarlyPassesClaimNothing(p: D.Pass, answer: Answer)
    requires D.Running(p) && Fits(D.Ask(p), answer)
    requires p.Begin? || p.Initializing? || p.FindingServer? || p.GettingDsn? || p.GettingPassword?
    ensures !DatabaseClaims(D.Next(p, answer))
  {}

  lemma DatabaseStaysHonest(before: Store, after: Store, p: D.Pass, answer: Answer)
    requires D.Running(p) && Fits(D.Ask(p), answer) && DatabasePassHonest(before, p)
    requires OwnersKept(before, after) && Truthful(after, D.Ask(p), answer)
    ensures DatabasePassHonest(after, D.Next(p, answer))
  {
    if p.Begin? || p.Initializing? || p.FindingServer? || p.GettingDsn? || p.GettingPassword? {
      EarlyPassesClaimNothing(p, answer);
    } else if p.FindingSecret? && answer.secret.NotFound? {
      assert !D.MakeSecret(p.db, p.s, p.dsn).Putting?;
    }
  }

  /** The pass for one key is honest. */
  ghost predicate DatabaseHonest(w: World, k: Key) {
    k in w.databasePasses ==> DatabasePassHonest(w.store, w.databasePasses[k])
  }

  lemma ActionKeepsDatabaseHonest(c: Config, w: World, a: Action, k: Key)
    requires Enabled(c, w, a) && DatabaseHonest(w, k)
    ensures DatabaseHonest(Next(c, w, a), k)
  {
    ActionKeepsOwners(c, w, a);
    if a.DatabaseStep? && a.key == k {
      var (after, answer) := DatabaseServed(c, w, k, a.view, a.fault);
      RequestEffect(c, w.store, a.view, D.Ask(w.databasePasses[k]), a.fault);
      DatabaseStaysHonest(w.store, after, w.databasePasses[k], answer);
    }
  }

  /** The last status that the pass still has to write reports success. */
  predicate EndsInSuccess(p: S.Pass) {
    p.Putting? && p.writes != [] && p.writes[|p.writes| - 1] == SUCCESS
  }

  /** In this action, the server with this key gives up on a credential. */
  ghost predicate GivesUp(c: Config, w: World, a: Action, k: Key)
    requires Enabled(c, w, a)
  {
    a.ServerStep? && a.key == k && CredentialFails(w.serverPasses[k], ServerServed(c, w, k, a.view, a.fault).1)
  }

  /** The latest pass of the server with this key has given up on a credential by now. */
  ghost predicate GaveUp(c: Config, worlds: seq<World>, actions: seq<Action>, n: nat, k: Key)
    requires IsRun(c, worlds, actions) && n <= |actions|
    decreases n
  {
    n > 0 && actions[n - 1] != StartServer(k) &&
    (GivesUp(c, worlds[n - 1], actions[n - 1], k) || GaveUp(c, worlds, actions, n - 1, k))
  }

  /** What the pass for a server's key claims, given whether it has given up. */
  ghost predicate ClaimsAccordingly(w: World, k: Key, gaveUp: bool) {
    k in w.serverPasses ==>
      (!gaveUp ==> ServerPassHonest(w.store, w.serverPasses[k])) &&
      (gaveUp ==> EndsInSuccess(w.serverPasses[k]) || w.serverPasses[k].Finished?)
  }

  lemma OwnStepClaimsAccordingly(before: Store, after: Store, p: S.Pass, answer: Answer, gaveUp: bool)
    requires S.Running(p) && Fits(S.Ask(p), answer)
    requires OwnersKept(before, after) && Truthful(after, S.Ask(p), answer)
    requires !gaveUp ==> ServerPassHonest(before, p)
    requires gaveUp ==> EndsInSuccess(p)
    ensures var p', now := S.Next(p, answer), gaveUp || CredentialFails(p, answer);
            && (!now ==> ServerPassHonest(after, p'))
            && (now ==> EndsInSuccess(p') || p'.Finished?)
  {
    if !gaveUp { ServerClaimsIff(before, after, p, answer); }
  }

  lemma ActionClaimsAccordingly(c: Config, w: World, a: Action, k: Key, gaveUp: bool)
    requires Enabled(c, w, a) && ClaimsAccordingly(w, k, gaveUp)
    ensures ClaimsAccordingly(Next(c, w, a), k, a != StartServer(k) && (GivesUp(c, w, a, k) || gaveUp))
  {
    ActionKeepsOwners(c, w, a);
    if a.ServerStep? && a.key == k {
      var (after, answer) := ServerServed(c, w, k, a.view, a.fault);
      RequestEffect(c, w.store, a.view, S.Ask(w.serverPasses[k]), a.fault);
      OwnStepClaimsAccordingly(w.store, after, w.serverPasses[k], answer, gaveUp);
    }
  }

  lemma {:induction false} RunClaimsAccordingly(c: Config, worlds: seq<World>, actions: seq<Action>, i: nat, k: Key)
    requires IsRun(c, worlds, actions) && i < |worlds| && Idle(worlds[0])
    ensures ClaimsAccordingly(worlds[i], k, GaveUp(c, worlds, actions, i, k))
  {
    if i > 0 {
      RunClaimsAccordingly(c, worlds, actions, i - 1, k);
      ActionClaimsAccordingly(c, worlds[i - 1], actions[i - 1], k, GaveUp(c, worlds, actions, i - 1, k));
    }
  }

  lemma {:induction false} RunKeepsDatabaseHonest(c: Config, worlds: seq<World>, actions: seq<Action>, i: nat, k: Key)
    requires IsRun(c, worlds, actions) && i < |worlds| && Idle(worlds[0])
    ensures DatabaseHonest(worlds[i], k)
  {
    if i > 0 {
      RunKeepsDatabaseHonest(c, worlds, actions, i - 1, k);
      ActionKeepsDatabaseHonest(c, worlds[i - 1], actions[i - 1], k);
    }
  }

  lemma {:induction false} RunKeepsPassesFit(c: Config, worlds: seq<World>, actions: seq<Action>, i: nat)
    requires WellFormedConfig(c) && IsRun(c, worlds, actions) && i < |worlds| && Idle(worlds[0])
    ensures PassesFit(c, worlds[i])
  {
    if i > 0 {
      RunKeepsPassesFit(c, worlds, actions, i - 1);
      ActionKeepsPassesFit(c, worlds[i - 1], actions[i - 1]);
    }
  }

  lemma SecretHasOneOwner(w: World, k: Key, uid1: string, uid2: string)
    requires uid1 != uid2
    ensures !(OwnsSecret(w.store.secrets, k, uid1) && OwnsSecret(w.store.secrets, k, uid2))
  {}

  /**
   A server and a Database share namespace and name. Once the server owns the secret, no pass
   of the Database has a report of success to write, at any later point of any run, however
   stale its views. Once the Database owns it, a pass of the server has one exactly while it
   is writing its statuses after giving up on a credential.
   */
  lemma OwnershipExcludesOtherSuccess(c: Config, worlds: seq<World>, actions: seq<Action>, i: nat, j: nat, k: Key)
    requires WellFormedConfig(c) && IsRun(c, worlds, actions) && i <= j < |worlds| && Idle(worlds[0])
    requires k in c.servers && k in c.databases
    ensures OwnsSecret(worlds[i].store.secrets, k, c.servers[k].meta.uid) && c.databases[k].spec.users.Some? &&
            k in worlds[j].databasePasses ==>
              !DatabaseClaims(worlds[j].databasePasses[k])
    ensures OwnsSecret(worlds[i].store.secrets, k, c.databases[k].meta.uid) && k in worlds[j].serverPasses ==>
              (ServerClaims(worlds[j].serverPasses[k]) <==>
               worlds[j].serverPasses[k].Putting? && GaveUp(c, worlds, actions, j, k))
  {
    RunKeepsOwners(c, worlds, actions, i, j);
    RunKeepsPassesFit(c, worlds, actions, j);
    RunKeepsDatabaseHonest(c, worlds, actions, j, k);
    RunClaimsAccordingly(c, worlds, actions, j, k);
    SecretHasOneOwner(worlds[j], k, c.servers[k].meta.uid, c.databases[k].meta.uid);
  }
}
