/**
 The secret that a Database pass makes, on every path: how many there are, whose it is, and when
 the password in it is the one of the account.
 */
module PassSecrets {
  import opened Resources
  import opened Dsn
  import opened Postgres
  import opened Api
  import opened PassFacts
  import D = DatabasePass

  /** How often a pass asks for the creation of a secret along these answers. */
  function Creations(p: D.Pass, answers: seq<Answer>): nat
    requires D.WellFormedPass(p)
    decreases |answers|
  {
    if answers == [] || !D.Running(p) || !Fits(D.Ask(p), answers[0]) then 0
    else (if D.Ask(p).CreateSecret? then 1 else 0) + Creations(D.Next(p, answers[0]), answers[1..])
  }

  lemma {:induction false} NoCreationAfterwards(p: D.Pass, answers: seq<Answer>)
    requires D.WellFormedPass(p) && (p.Putting? || !D.Running(p))
    ensures Creations(p, answers) == 0
    decreases |answers|
  {
    if answers != [] && D.Running(p) && Fits(D.Ask(p), answers[0]) {
      NoCreationAfterwards(D.Next(p, answers[0]), answers[1..]);
    }
  }

  /** One secret: however many admins there are, no path through a pass creates more than one. */
  lemma {:induction false} AtMostOneSecret(p: D.Pass, answers: seq<Answer>)
    requires D.WellFormedPass(p)
    ensures Creations(p, answers) <= 1
    decreases |answers|
  {
    if answers != [] && D.Running(p) && Fits(D.Ask(p), answers[0]) {
      if p.CreatingSecret? {
        NoCreationAfterwards(D.Next(p, answers[0]), answers[1..]);
      } else {
        AtMostOneSecret(D.Next(p, answers[0]), answers[1..]);
      }
    }
  }

  /** A pass that finds its secret there, whoever controls it, creates none. */
  lemma FoundSecretIsKept(p: D.Pass, secret: Secret, answers: seq<Answer>)
    requires D.WellFormedPass(p) && p.FindingSecret?
    ensures Creations(p, [SecretIs(Found(secret))] + answers) == 0
  {
    var all := [SecretIs(Found(secret))] + answers;
    assert all[1..] == answers;
    NoCreationAfterwards(D.Next(p, all[0]), answers);
  }

  /** The secret is that of the first admin: every user before it has another role. */
  lemma SecretIsForFirstAdmin(p: D.Pass, i: nat)
    requires D.WellFormedPass(p) && p.FindingSecret? && p.s.Some?
    requires i < |Users(p.db.spec)| && Users(p.db.spec)[i].role == "admin"
    requires forall j :: 0 <= j < i ==> Users(p.db.spec)[j].role != "admin"
    ensures var p' := D.Next(p, SecretIs(NotFound)); var user := Users(p.db.spec)[i];
            && p'.CreatingSecret?
            && D.Ask(p').secret.data == map["dsn" := PostgresDsn(user.name, user.password, Some(p.db.meta.key.name), p.s.value)]
  {
    assert D.FirstAdmin(Users(p.db.spec)) == i;
  }

  /**
   The credentials printed for a named user are the user's own exactly when the password is
   not empty, or equals the empty superuser password it would be replaced by.
   */
  lemma PrintsOwnPasswordIff(user: DatabaseUser, db: string, s: DatabaseServer)
    requires user.name != ""
    ensures PostgresDsn(user.name, user.password, Some(db), s) ==
              Credentials(user.name, user.password) + "@" + AfterCredentials(HostName(s.meta.key), s.spec.servicePort, db)
            <==> user.password != "" || s.spec.superUserPassword == ""
  {
    var tail := "@" + AfterCredentials(HostName(s.meta.key), s.spec.servicePort, db);
    var own := Credentials(user.name, user.password);
    var printed := Credentials(user.name, PasswordOrDefault(user.password, s));
    assert PostgresDsn(user.name, user.password, Some(db), s) ==
             printed + "@" + AfterCredentials(HostName(s.meta.key), s.spec.servicePort, db);
    assert |printed + tail| - |own + tail| == |PasswordOrDefault(user.password, s)| - |user.password|;
    assert printed + tail == printed + "@" + AfterCredentials(HostName(s.meta.key), s.spec.servicePort, db);
    assert own + tail == own + "@" + AfterCredentials(HostName(s.meta.key), s.spec.servicePort, db);
  }

  /** The text for the first admin of a user list. */
  function AdminText(users: seq<DatabaseUser>, name: string, s: DatabaseServer): string
    requires D.FirstAdmin(users) < |users|
  {
    var admin := users[D.FirstAdmin(users)];
    PostgresDsn(admin.name, admin.password, Some(name), s)
  }

  /** From its SQL statements on, a pass keeps the user list, and the secret it makes is for the first admin in it. */
  ghost predicate WorksFor(p: D.Pass, users: seq<DatabaseUser>, key: Key, s: DatabaseServer) {
    match p
    case Syncing(db, s', _, _) => Users(db.spec) == users && db.meta.key == key && s' == Some(s)
    case FindingSecret(db, s', _) => Users(db.spec) == users && db.meta.key == key && s' == Some(s)
    case CreatingSecret(_, _, dsn) => D.FirstAdmin(users) < |users| && dsn == AdminText(users, key.name, s)
    case Putting(_, _, _) => true
    case Finished(_) => true
    case Panicked => true
    case _ => false
  }

  lemma StatementWorksFor(p: D.Pass, client: Client, users: seq<DatabaseUser>, key: Key, s: DatabaseServer)
    requires p.Syncing? && WorksFor(p, users, key, s) && WellFormed(D.JobOf(p.db), client)
    ensures WorksFor(D.AfterStatement(p.db, p.s, p.dsn, client), users, key, s)
  {}

  lemma MakingWorksFor(db: Database, dsn: string, users: seq<DatabaseUser>, key: Key, s: DatabaseServer)
    requires db.spec.users.Some? && Users(db.spec) == users && db.meta.key == key
    ensures WorksFor(D.MakeSecret(db, Some(s), dsn), users, key, s)
  {}

  lemma NextWorksFor(p: D.Pass, answer: Answer, users: seq<DatabaseUser>, key: Key, s: DatabaseServer)
    requires D.Running(p) && Fits(D.Ask(p), answer) && WorksFor(p, users, key, s)
    ensures WorksFor(D.Next(p, answer), users, key, s)
  {
    match p
    case Syncing(_, _, _, client) => StatementWorksFor(p, Advance(D.JobOf(p.db), client, answer.reply), users, key, s);
    case FindingSecret(db, _, dsn) =>
      if answer.secret.NotFound? { MakingWorksFor(db, dsn, users, key, s); } else { EndingNext(p, answer); }
    case _ => EndingNext(p, answer);
  }

  lemma {:induction false} FollowWorksFor(p: D.Pass, answers: seq<Answer>, users: seq<DatabaseUser>, key: Key, s: DatabaseServer)
    requires D.WellFormedPass(p) && WorksFor(p, users, key, s)
    ensures WorksFor(Follow(p, answers), users, key, s)
    decreases |answers|
  {
    if answers != [] && D.Running(p) && Fits(D.Ask(p), answers[0]) {
      NextWorksFor(p, answers[0], users, key, s);
      FollowWorksFor(D.Next(p, answers[0]), answers[1..], users, key, s);
    }
  }

  /**
   On every path: the secret that a pass makes after its SQL statements is for the first admin
   of the very job those statements are for, and it prints the password of that account
   exactly when the password is not empty or the superuser's is empty as well.
   */
  lemma PrintedIsTheAccountsIff(p: D.Pass, answers: seq<Answer>)
    requires D.WellFormedPass(p) && p.Syncing? && p.s.Some?
    ensures var p', users, s := Follow(p, answers), D.JobOf(p.db).users, p.s.value;
            p'.CreatingSecret? ==>
              && D.FirstAdmin(users) < |users|
              && var admin := users[D.FirstAdmin(users)];
                 D.Ask(p').secret.data == map["dsn" := AdminText(users, D.JobOf(p.db).db, s)] &&
                 (admin.name != "" ==>
                    (AdminText(users, D.JobOf(p.db).db, s) ==
                       Credentials(admin.name, AccountOf(admin).password) + "@" +
                       AfterCredentials(HostName(s.meta.key), s.spec.servicePort, D.JobOf(p.db).db)
                     <==> AccountOf(admin).password != "" || s.spec.superUserPassword == ""))
  {
    var users, key := Users(p.db.spec), p.db.meta.key;
    FollowWorksFor(p, answers, users, key, p.s.value);
    var i := D.FirstAdmin(users);
    if i < |users| && users[i].name != "" { PrintsOwnPasswordIff(users[i], key.name, p.s.value); }
  }

  lemma {:induction false} FirstAdminSame(a: seq<DatabaseUser>, b: seq<DatabaseUser>)
    requires |a| == |b| && forall j :: 0 <= j < |a| ==> a[j].role == b[j].role
    ensures D.FirstAdmin(a) == D.FirstAdmin(b)
  {
    if a != [] && a[0].role != "admin" { FirstAdminSame(a[1..], b[1..]); }
  }

  /** Another state of a user list, in which the password at `i` has been lost. */
  ghost predicate Lost(users: seq<DatabaseUser>, now: seq<DatabaseUser>, i: nat) {
    |now| == |users| && i < |users| && now[i].password == "" &&
    forall j :: 0 <= j < |users| ==> now[j].role == users[j].role && now[j].name == users[j].name
  }

  /** A pass that has gone past user `i` with its password lost. */
  ghost predicate GoesOnWithout(p: D.Pass, db: Database, s: DatabaseServer, i: nat) {
    match p
    case GettingPassword(db', s', _, j) =>
      i < j && Lost(Users(db.spec), Users(db'.spec), i) && db'.meta.key == db.meta.key && s' == Some(s)
    case Syncing(db', s', _, _) =>
      Lost(Users(db.spec), Users(db'.spec), i) && db'.meta.key == db.meta.key && s' == Some(s)
    case FindingSecret(db', s', _) =>
      Lost(Users(db.spec), Users(db'.spec), i) && db'.meta.key == db.meta.key && s' == Some(s)
    case CreatingSecret(_, _, dsn) =>
      D.FirstAdmin(Users(db.spec)) == i < |Users(db.spec)| ==>
        dsn == PostgresDsn(Users(db.spec)[i].name, "", Some(db.meta.key.name), s)
    case Putting(_, _, _) => true
    case Finished(_) => true
    case Panicked => true
    case _ => false
  }

  lemma ResolvingGoesOn(db': Database, dsn: string, j: nat, db: Database, s: DatabaseServer, i: nat)
    requires i < j <= |Users(db'.spec)| && Lost(Users(db.spec), Users(db'.spec), i) && db'.meta.key == db.meta.key
    ensures GoesOnWithout(D.ResolvePasswords(db', Some(s), dsn, j), db, s, i)
  {}

  lemma MakingGoesOn(db': Database, dsn: string, db: Database, s: DatabaseServer, i: nat)
    requires db'.spec.users.Some? && Lost(Users(db.spec), Users(db'.spec), i) && db'.meta.key == db.meta.key
    ensures GoesOnWithout(D.MakeSecret(db', Some(s), dsn), db, s, i)
  {
    FirstAdminSame(Users(db.spec), Users(db'.spec));
  }

  lemma LookupGoesOn(p: D.Pass, found: Lookup<string>, db: Database, s: DatabaseServer, i: nat)
    requires D.WellFormedPass(p) && p.GettingPassword? && GoesOnWithout(p, db, s, i)
    ensures GoesOnWithout(D.AfterPassword(p.db, p.s, p.dsn, p.i, found), db, s, i)
  {
    if !found.NotFound? {
      var password := if found.Found? then found.value else "";
      ResolvingGoesOn(D.WithPassword(p.db, p.i, password), p.dsn, p.i + 1, db, s, i);
    }
  }

  lemma StatementGoesOn(p: D.Pass, client: Client, db: Database, s: DatabaseServer, i: nat)
    requires p.Syncing? && GoesOnWithout(p, db, s, i) && WellFormed(D.JobOf(p.db), client)
    ensures GoesOnWithout(D.AfterStatement(p.db, p.s, p.dsn, client), db, s, i)
  {}

  lemma NextGoesOn(p: D.Pass, answer: Answer, db: Database, s: DatabaseServer, i: nat)
    requires D.Running(p) && Fits(D.Ask(p), answer) && GoesOnWithout(p, db, s, i)
    ensures GoesOnWithout(D.Next(p, answer), db, s, i)
  {
    match p
    case GettingPassword(_, _, _, _) => LookupGoesOn(p, answer.value, db, s, i);
    case Syncing(_, _, _, client) => StatementGoesOn(p, Advance(D.JobOf(p.db), client, answer.reply), db, s, i);
    case FindingSecret(db', _, dsn) =>
      if answer.secret.NotFound? { MakingGoesOn(db', dsn, db, s, i); } else { EndingNext(p, answer); }
    case _ => EndingNext(p, answer);
  }

  lemma {:induction false} FollowGoesOn(p: D.Pass, answers: seq<Answer>, db: Database, s: DatabaseServer, i: nat)
    requires D.WellFormedPass(p) && GoesOnWithout(p, db, s, i)
    ensures GoesOnWithout(Follow(p, answers), db, s, i)
    decreases |answers|
  {
    if answers != [] && D.Running(p) && Fits(D.Ask(p), answers[0]) {
      NextGoesOn(p, answers[0], db, s, i);
      FollowGoesOn(D.Next(p, answers[0]), answers[1..], db, s, i);
    }
  }

  /**
   A password lookup that fails for another reason than a missing object does not stop the
   pass. On every path from there, the statements ask for an account with an empty password,
   and a secret made for that user prints the superuser's password instead.
   */
  lemma FailedLookupDiverges(db: Database, s: DatabaseServer, dsn: string, i: nat, answers: seq<Answer>)
    requires i < |Users(db.spec)| && Users(db.spec)[i].passwordFrom.Some? && Users(db.spec)[i].name != ""
    ensures var p := Follow(D.Next(D.GettingPassword(db, Some(s), dsn, i), ValueIs(Lookup.Failed)), answers);
            && (p.Syncing? ==>
                  i < |D.JobOf(p.db).users| && D.JobOf(p.db).users[i].name == Users(db.spec)[i].name &&
                  AccountOf(D.JobOf(p.db).users[i]).password == "")
            && (p.CreatingSecret? && D.FirstAdmin(Users(db.spec)) == i ==>
                  p.dsn == Credentials(Users(db.spec)[i].name, s.spec.superUserPassword) + "@" +
                           AfterCredentials(HostName(s.meta.key), s.spec.servicePort, db.meta.key.name))
  {
    ResolvingGoesOn(D.WithPassword(db, i, ""), dsn, i + 1, db, s, i);
    FollowGoesOn(D.AfterPassword(db, Some(s), dsn, i, Lookup.Failed), answers, db, s, i);
  }
}
