/**
 When a Database pass dereferences a nil pointer or indexes out of range: an exact condition on
 the Database and the server it finds, over all answers that the pass can be given.
 */
module PassPanics {
  import opened Resources
  import opened Dsn
  import opened Postgres
  import opened Api
  import opened PassFacts
  import D = DatabasePass

  predicate DsnChoicePanics(db: Database, s: Option<DatabaseServer>) {
    db.spec.dsn == "" && if db.spec.dsnFrom.Some? then db.spec.dsnFrom.value.secretKeyRef.None? else s.None?
  }

  /** Choosing a plugin and a DSN goes wrong exactly on an unset plugin, a source without a secret, or no server at all. */
  lemma ChoosingPanicsIff(db: Database, s: Option<DatabaseServer>)
    ensures D.ChoosePlugin(db, s).Panicked? <==>
              if db.spec.serverType == "" then
                s.Some? && (s.value.spec.plugin.NoneSet? ||
                            (D.EngineOf(s.value.spec.plugin) == Some(D.PostgresEngine) && DsnChoicePanics(db, s)))
              else D.EngineNamed(db.spec.serverType) == Some(D.PostgresEngine) && DsnChoicePanics(db, s)
  {}

  /** Making a secret goes wrong exactly without an admin, or without a server on an unparsable DSN. */
  lemma {:induction false} SecretPanicsIff(db: Database, s: Option<DatabaseServer>, dsn: string)
    requires db.spec.users.Some?
    ensures D.MakeSecret(db, s, dsn).Panicked? <==>
              (forall i :: 0 <= i < |Users(db.spec)| ==> Users(db.spec)[i].role != "admin") ||
              (s.None? && GetHostAndPort(dsn).None?)
  {
    var i := D.FirstAdmin(Users(db.spec));
    if i < |Users(db.spec)| { assert Users(db.spec)[i].role == "admin"; }
  }

  /** The plugin that is chosen is that of Postgres. */
  predicate PicksPostgres(db: Database, s: Option<DatabaseServer>) {
    if db.spec.serverType != "" then D.EngineNamed(db.spec.serverType) == Some(D.PostgresEngine)
    else s.Some? && D.EngineOf(s.value.spec.plugin) == Some(D.PostgresEngine)
  }

  /**
   What a pass cannot survive: an unset plugin; with Postgres, a DSN source without a secret, or
   all roles valid and no server, or a user list without an admin.
   */
  ghost predicate CanPanic(db: Database, s: Option<DatabaseServer>) {
    (db.spec.serverType == "" && s.Some? && s.value.spec.plugin.NoneSet?) ||
    (PicksPostgres(db, s) &&
     (DsnChoicePanics(db, s) ||
      (ValidRoles(Users(db.spec)) && (s.None? || (db.spec.users.Some? && !HasAdmin(Users(db.spec)))))))
  }

  /** If the pass reads a server, it reads this one. */
  ghost predicate Finds(answers: seq<Answer>, s: Option<DatabaseServer>) {
    forall answer :: answer in answers && answer.ServerIs? && answer.server.Found? ==> s == Some(answer.server.value)
  }

  // ---- Nothing else panics ----

  /** The same Database, but for passwords. */
  ghost predicate SameRoles(db: Database, now: Database) {
    (now.spec.users.Some? <==> db.spec.users.Some?) && |Users(now.spec)| == |Users(db.spec)| &&
    forall i :: 0 <= i < |Users(db.spec)| ==> Users(now.spec)[i].role == Users(db.spec)[i].role
  }

  lemma SameRolesMean(db: Database, now: Database)
    requires SameRoles(db, now)
    ensures ValidRoles(Users(now.spec)) <==> ValidRoles(Users(db.spec))
    ensures HasAdmin(Users(now.spec)) <==> HasAdmin(Users(db.spec))
  {
    if HasAdmin(Users(db.spec)) {
      var i :| 0 <= i < |Users(db.spec)| && Users(db.spec)[i].role == "admin";
      assert Users(now.spec)[i].role == "admin";
    }
    forall i | 0 <= i < |Users(db.spec)|
      ensures RoleFlags(Users(now.spec)[i].role) == RoleFlags(Users(db.spec)[i].role)
    {
    }
  }

  /** The roles that a call has got past are valid. */
  ghost predicate RolesSoFar(users: seq<DatabaseUser>, client: Client) {
    match client
    case Creating(i) => i <= |users| && ValidRoles(users[..i])
    case Checking(i, _) => i <= |users| && ValidRoles(users[..i])
    case SettingPassword(i, _) => i < |users| && ValidRoles(users[..i])
    case _ => true
  }

  /** What holds at each point of a pass for `db` that finds `s`. */
  ghost predicate Bounded(p: D.Pass, db: Database, s: Option<DatabaseServer>) {
    match p
    case Initializing(now) => now == db
    case FindingServer(now) => now == db && db.spec.server != ""
    case GettingDsn(now, s', _) => now == db && s' == s && PicksPostgres(db, s)
    case GettingPassword(now, s', _, _) => SameRoles(db, now) && s' == s && PicksPostgres(db, s)
    case Syncing(now, s', _, client) =>
      SameRoles(db, now) && s' == s && PicksPostgres(db, s) && RolesSoFar(Users(now.spec), client)
    case FindingSecret(now, s', _) =>
      SameRoles(db, now) && s' == s && PicksPostgres(db, s) && ValidRoles(Users(db.spec))
    case Panicked => CanPanic(db, s)
    case Begin(_) => false
    case _ => true
  }

  lemma ChoosingIsBounded(db: Database, s: Option<DatabaseServer>)
    ensures Bounded(D.ChoosePlugin(db, s), db, s)
  {
    ChoosingPanicsIff(db, s);
  }

  lemma ResolvingIsBounded(now: Database, dsn: string, i: nat, db: Database, s: Option<DatabaseServer>)
    requires i <= |Users(now.spec)| && SameRoles(db, now) && PicksPostgres(db, s)
    ensures Bounded(D.ResolvePasswords(now, s, dsn, i), db, s)
  {}

  lemma LookupIsBounded(p: D.Pass, found: Lookup<string>, db: Database, s: Option<DatabaseServer>)
    requires D.WellFormedPass(p) && p.GettingPassword? && Bounded(p, db, s)
    ensures Bounded(D.AfterPassword(p.db, p.s, p.dsn, p.i, found), db, s)
  {
    if !found.NotFound? {
      var password := if found.Found? then found.value else "";
      ResolvingIsBounded(D.WithPassword(p.db, p.i, password), p.dsn, p.i + 1, db, s);
    }
  }

  lemma RolesAdvance(job: Job, client: Client, reply: Reply)
    requires Working(job, client) && Answers(Postgres.Request(job, client), reply) && RolesSoFar(job.users, client)
    ensures RolesSoFar(job.users, Advance(job, client, reply))
  {
    var client' := Advance(job, client, reply);
    if client'.Creating? && client'.i > 0 {
      assert job.users[..client'.i] == job.users[..client'.i - 1] + [job.users[client'.i - 1]];
    } else if client'.Checking? && client'.i > 0 {
      assert job.users[..client'.i] == job.users[..client'.i - 1] + [job.users[client'.i - 1]];
    }
  }

  lemma ReturnIsBounded(p: D.Pass, client: Client, db: Database, s: Option<DatabaseServer>)
    requires p.Syncing? && Bounded(p, db, s) && WellFormed(D.JobOf(p.db), client)
    requires RolesSoFar(Users(p.db.spec), client)
    ensures Bounded(D.AfterStatement(p.db, p.s, p.dsn, client), db, s)
  {
    SameRolesMean(db, p.db);
    assert Users(p.db.spec)[..|Users(p.db.spec)|] == Users(p.db.spec);
  }

  lemma SecretIsBounded(p: D.Pass, db: Database, s: Option<DatabaseServer>)
    requires D.WellFormedPass(p) && p.FindingSecret? && Bounded(p, db, s)
    ensures Bounded(D.MakeSecret(p.db, p.s, p.dsn), db, s)
  {
    SameRolesMean(db, p.db);
    SecretPanicsIff(p.db, p.s, p.dsn);
  }

  lemma NextIsBounded(p: D.Pass, answer: Answer, db: Database, s: Option<DatabaseServer>)
    requires D.Running(p) && Fits(D.Ask(p), answer) && Bounded(p, db, s)
    requires p.FindingServer? ==> Finds([answer], s)
    requires s.Some? <==> db.spec.server != ""
    ensures Bounded(D.Next(p, answer), db, s)
  {
    match p
    case Initializing(_) => ChoosingIsBounded(db, s);
    case FindingServer(_) =>
      if answer.server.Found? {
        assert answer in [answer];
        ChoosingIsBounded(db, s);
      }
    case GettingDsn(_, _, _) => if answer.value.Found? { ResolvingIsBounded(db, answer.value.value, 0, db, s); }
    case GettingPassword(_, _, _, _) => LookupIsBounded(p, answer.value, db, s);
    case Syncing(_, _, _, client) =>
      RolesAdvance(D.JobOf(p.db), client, answer.reply);
      ReturnIsBounded(p, Advance(D.JobOf(p.db), client, answer.reply), db, s);
    case FindingSecret(_, _, _) =>
      if answer.secret.NotFound? { SecretIsBounded(p, db, s); } else { EndingNext(p, answer); }
    case _ => EndingNext(p, answer);
  }

  /** The pass has not read its server yet. */
  predicate Early(p: D.Pass) {
    p.Begin? || p.Initializing? || p.FindingServer?
  }

  lemma StaysLate(p: D.Pass, answer: Answer)
    requires D.Running(p) && Fits(D.Ask(p), answer) && (p.FindingServer? || !Early(p))
    ensures !Early(D.Next(p, answer))
  {}

  lemma {:induction false} FollowIsBounded(p: D.Pass, answers: seq<Answer>, db: Database, s: Option<DatabaseServer>)
    requires D.WellFormedPass(p) && Bounded(p, db, s) && (s.Some? <==> db.spec.server != "")
    requires Early(p) ==> Finds(answers, s)
    ensures Bounded(Follow(p, answers), db, s)
    decreases |answers|
  {
    if answers != [] && D.Running(p) && Fits(D.Ask(p), answers[0]) {
      assert Early(p) ==> Finds([answers[0]], s) && Finds(answers[1..], s);
      NextIsBounded(p, answers[0], db, s);
      if !Early(p) { StaysLate(p, answers[0]); }
      FollowIsBounded(D.Next(p, answers[0]), answers[1..], db, s);
    }
  }

  // ---- All of it can ----

  /** Some answers lead the pass to a panic. */
  ghost predicate Dooms(p: D.Pass, s: Option<DatabaseServer>)
    requires D.WellFormedPass(p)
  {
    exists answers :: Finds(answers, s) && Follow(p, answers).Panicked?
  }

  lemma PanickedDooms(s: Option<DatabaseServer>)
    ensures Dooms(D.Panicked, s)
  {
    assert Finds([], s) && Follow(D.Panicked, []).Panicked?;
  }

  /** A pass that one more answer brings to doom is doomed. */
  lemma DoomsBefore(p: D.Pass, answer: Answer, s: Option<DatabaseServer>)
    requires D.Running(p) && Fits(D.Ask(p), answer) && Finds([answer], s) && Dooms(D.Next(p, answer), s)
    ensures Dooms(p, s)
  {
    var answers :| Finds(answers, s) && Follow(D.Next(p, answer), answers).Panicked?;
    var all := [answer] + answers;
    assert all[1..] == answers;
    assert Follow(p, all).Panicked?;
    forall a | a in all && a.ServerIs? && a.server.Found? ensures s == Some(a.server.value) {
      if a !in answers { assert a in [answer]; }
    }
    assert Finds(all, s);
  }

  /** What is left to panic about once the SQL statements have created the database. */
  lemma CreatedDooms(now: Database, s: Option<DatabaseServer>, dsn: string)
    requires s.None? || (now.spec.users.Some? && !HasAdmin(Users(now.spec)))
    ensures Dooms(D.AfterSync(now, s, dsn, Created), s)
  {
    PanickedDooms(s);
    if s.Some? {
      SecretPanicsIff(now, s, dsn);
      DoomsBefore(D.FindingSecret(now, s, dsn), SecretIs(NotFound), s);
    }
  }

  lemma AllCreatedDooms(now: Database, s: Option<DatabaseServer>, dsn: string, client: Client)
    requires client == Creating(|Users(now.spec)|)
    requires s.None? || (now.spec.users.Some? && !HasAdmin(Users(now.spec)))
    ensures Dooms(D.AfterStatement(now, s, dsn, client), s)
  {
    CreatedDooms(now, s, dsn);
  }

  lemma OneMoreCreated(now: Database, s: Option<DatabaseServer>, dsn: string, i: nat)
    requires i < |Users(now.spec)| && ValidRoles(Users(now.spec))
    ensures var p := D.Syncing(now, s, dsn, Creating(i));
            && D.AfterStatement(now, s, dsn, Creating(i)) == p && D.Running(p) && Fits(D.Ask(p), SqlIs(Completed))
            && D.Next(p, SqlIs(Completed)) == D.AfterStatement(now, s, dsn, Creating(i + 1))
  {}

  lemma CreatingDoomsBefore(now: Database, s: Option<DatabaseServer>, dsn: string, i: nat)
    requires i < |Users(now.spec)| && ValidRoles(Users(now.spec))
    requires Dooms(D.AfterStatement(now, s, dsn, Creating(i + 1)), s)
    ensures Dooms(D.AfterStatement(now, s, dsn, Creating(i)), s)
  {
    OneMoreCreated(now, s, dsn, i);
    DoomsBefore(D.Syncing(now, s, dsn, Creating(i)), SqlIs(Completed), s);
  }

  /** Counting down from a number at which something holds. */
  lemma {:induction false} CountsDown(holds: nat -> bool, n: nat)
    requires holds(n) && forall i: nat :: i < n && holds(i + 1) ==> holds(i)
    ensures holds(0)
  {
    if n > 0 { CountsDown(holds, n - 1); }
  }

  lemma CreatingDooms(now: Database, s: Option<DatabaseServer>, dsn: string)
    requires ValidRoles(Users(now.spec)) && (s.None? || (now.spec.users.Some? && !HasAdmin(Users(now.spec))))
    ensures Dooms(D.AfterStatement(now, s, dsn, Creating(0)), s)
  {
    var n := |Users(now.spec)|;
    var holds := (i: nat) => i <= n && Dooms(D.AfterStatement(now, s, dsn, Creating(i)), s);
    AllCreatedDooms(now, s, dsn, Creating(n));
    forall i: nat | i < n && holds(i + 1) ensures holds(i) {
      CreatingDoomsBefore(now, s, dsn, i);
    }
    CountsDown(holds, n);
  }

  lemma ProbingDooms(now: Database, s: Option<DatabaseServer>, dsn: string)
    requires ValidRoles(Users(now.spec)) && (s.None? || (now.spec.users.Some? && !HasAdmin(Users(now.spec))))
    ensures Dooms(D.Syncing(now, s, dsn, Probing), s)
  {
    CreatingDooms(now, s, dsn);
    DoomsBefore(D.Syncing(now, s, dsn, CreatingDatabase), SqlIs(Completed), s);
    DoomsBefore(D.Syncing(now, s, dsn, Probing), SqlIs(Row(false)), s);
  }

  lemma {:induction false} ResolvingDooms(now: Database, s: Option<DatabaseServer>, dsn: string, i: nat)
    requires i <= |Users(now.spec)| && ValidRoles(Users(now.spec))
    requires s.None? || (now.spec.users.Some? && !HasAdmin(Users(now.spec)))
    ensures Dooms(D.ResolvePasswords(now, s, dsn, i), s)
    decreases |Users(now.spec)| - i
  {
    var j := D.NextSourced(Users(now.spec), i);
    if j == |Users(now.spec)| {
      ProbingDooms(now, s, dsn);
    } else {
      SameRolesMean(now, D.WithPassword(now, j, ""));
      ResolvingDooms(D.WithPassword(now, j, ""), s, dsn, j + 1);
      DoomsBefore(D.GettingPassword(now, s, dsn, j), ValueIs(Found("")), s);
    }
  }

  lemma ChoosingDooms(db: Database, s: Option<DatabaseServer>)
    requires CanPanic(db, s)
    ensures Dooms(D.ChoosePlugin(db, s), s)
  {
    ChoosingPanicsIff(db, s);
    if D.ChoosePlugin(db, s).Panicked? {
      PanickedDooms(s);
    } else {
      assert D.ChoosePlugin(db, s) == D.ChooseDsn(db, s);
      ResolvingDooms(db, s, db.spec.dsn, 0);
      ResolvingDooms(db, s, "dsn", 0);
      if db.spec.dsn == "" { DoomsBefore(D.ChooseDsn(db, s), ValueIs(Found("dsn")), s); }
    }
  }

  /**
   A whole pass for a Database, from the moment it has read it, can be answered so that it
   panics exactly when the condition above holds of the Database and of the server it finds.
   */
  lemma WholePassPanicsIff(db: Database, s: Option<DatabaseServer>)
    requires s.Some? <==> db.spec.server != ""
    requires s.Some? ==> s.value.meta.key == Key(db.meta.key.namespace, db.spec.server)
    ensures (exists answers :: Finds(answers, s) && Follow(Opened(db), answers).Panicked?) <==> CanPanic(db, s)
  {
    if CanPanic(db, s) {
      ChoosingDooms(db, s);
      if s.Some? { DoomsBefore(D.FindingServer(db), ServerIs(Found(s.value)), s); }
      if db.status.state.Unset? { DoomsBefore(D.Initializing(db), PutIs, s); }
      assert Dooms(Opened(db), s);
    }
    forall answers | Finds(answers, s) && Follow(Opened(db), answers).Panicked? ensures CanPanic(db, s) {
      ChoosingIsBounded(db, s);
      FollowIsBounded(Opened(db), answers, db, s);
    }
  }

  /** The servers that the pass is shown all have a plugin. */
  ghost predicate PluginsSet(answers: seq<Answer>) {
    forall answer :: answer in answers && answer.ServerIs? && answer.server.Found? ==>
      !answer.server.value.spec.plugin.NoneSet?
  }

  lemma {:induction false} EndsWithoutPanic(p: D.Pass, answers: seq<Answer>)
    requires D.WellFormedPass(p) && (p.Putting? || p.Finished?)
    ensures !Follow(p, answers).Panicked?
    decreases |answers|
  {
    if answers != [] && D.Running(p) && Fits(D.Ask(p), answers[0]) {
      EndsWithoutPanic(D.Next(p, answers[0]), answers[1..]);
    }
  }

  /** What can make a pass panic even on servers that have a plugin. */
  ghost predicate CanPanicOnAnyPlugin(db: Database) {
    (db.spec.dsn == "" && db.spec.dsnFrom.Some? && db.spec.dsnFrom.value.secretKeyRef.None?) ||
    (db.spec.users.Some? && !HasAdmin(Users(db.spec)))
  }

  lemma {:induction false} EarlyPassesSurvive(p: D.Pass, answers: seq<Answer>, db: Database)
    requires p == D.Initializing(db) || p == D.FindingServer(db)
    requires db.spec.server != "" && PluginsSet(answers) && !CanPanicOnAnyPlugin(db)
    ensures !Follow(p, answers).Panicked?
    decreases |answers|
  {
    if answers != [] && Fits(D.Ask(p), answers[0]) {
      if p.Initializing? {
        assert PluginsSet(answers[1..]);
        EarlyPassesSurvive(D.FindingServer(db), answers[1..], db);
      } else if answers[0].server.Found? {
        var s := Some(answers[0].server.value);
        assert answers[0] in answers;
        ChoosingIsBounded(db, s);
        StaysLate(p, answers[0]);
        FollowIsBounded(D.ChoosePlugin(db, s), answers[1..], db, s);
      } else {
        EndsWithoutPanic(D.Next(p, answers[0]), answers[1..]);
      }
    }
  }

  /**
   So a Database on a server, whose DSN source names a secret and whose user list, if any, has
   an admin, never panics, as long as the servers it is shown have a plugin.
   */
  lemma SoundNeverPanics(db: Database, answers: seq<Answer>)
    requires db.spec.server != "" && PluginsSet(answers) && !CanPanicOnAnyPlugin(db)
    ensures !Follow(Opened(db), answers).Panicked?
  {
    EarlyPassesSurvive(Opened(db), answers, db);
  }
}
