/**
 Paths through one pass, whatever it is answered, and what every status write on them carries.
 */
module PassFacts {
  import opened Resources
  import opened Postgres
  import opened Api
  import opened Cluster
  import opened ClusterChildren
  import opened PassObjects
  import D = DatabasePass
  import S = ServerPass

  /** Where a Database pass gets with these answers; it stops at an answer that does not fit. */
  function Follow(p: D.Pass, answers: seq<Answer>): (p': D.Pass)
    requires D.WellFormedPass(p)
    ensures D.WellFormedPass(p')
    decreases |answers|
  {
    if answers == [] || !D.Running(p) || !Fits(D.Ask(p), answers[0]) then p
    else Follow(D.Next(p, answers[0]), answers[1..])
  }

  function FollowServer(p: S.Pass, answers: seq<Answer>): (p': S.Pass)
    requires S.WellFormedPass(p)
    ensures S.WellFormedPass(p')
    decreases |answers|
  {
    if answers == [] || !S.Running(p) || !Fits(S.Ask(p), answers[0]) then p
    else FollowServer(S.Next(p, answers[0]), answers[1..])
  }

  /** Once its secret is found or asked for, a pass has only statuses to write. */
  lemma EndingNext(p: D.Pass, answer: Answer)
    requires D.Running(p) && Fits(D.Ask(p), answer)
    requires p.CreatingSecret? || p.Putting? || (p.FindingSecret? && !answer.secret.NotFound?)
    ensures D.Next(p, answer).Putting? || D.Next(p, answer).Finished?
  {}

  /** A Database pass that has just read its object. */
  function Opened(db: Database): (p: D.Pass)
    ensures D.WellFormedPass(p)
  {
    if db.status.state.Unset? then D.Initializing(db) else D.AfterInitialization(db)
  }

  /** The object a pass works on is the one it read, but for sourced passwords and labels. */
  ghost predicate StillHolds(read: Database, p: D.Pass) {
    match p
    case Begin(_) => false
    case Finished(_) => true
    case Panicked => true
    case Elsewhere => true
    case _ => CopyOfDatabase(read, p.db) && p.db.meta.version == read.meta.version
  }

  lemma KeptHolds(read: Database, p: D.Pass, db: Database)
    requires CopyOfDatabase(read, db) && db.meta.version == read.meta.version && Keeps(p, db)
    ensures StillHolds(read, p)
  {}

  lemma NextHolds(read: Database, p: D.Pass, answer: Answer)
    requires D.Running(p) && Fits(D.Ask(p), answer) && StillHolds(read, p)
    ensures StillHolds(read, D.Next(p, answer))
  {
    NextKeeps(p, answer);
    ObjectStaysCopy(read, p, answer);
    KeptHolds(read, D.Next(p, answer), ObjectAfter(p, answer));
  }

  lemma SameUsersReflexive(users: seq<DatabaseUser>)
    ensures SameUsers(users, users)
  {
    forall i | 0 <= i < |users| ensures SameUser(users[i], users[i]) {}
  }

  lemma OpenedHolds(read: Database)
    ensures StillHolds(read, Opened(read))
  {
    SameUsersReflexive(Users(read.spec));
    OpeningKeeps(read);
    KeptHolds(read, Opened(read), read);
  }

  lemma {:induction false} FollowHolds(read: Database, p: D.Pass, answers: seq<Answer>)
    requires D.WellFormedPass(p) && StillHolds(read, p)
    ensures StillHolds(read, Follow(p, answers))
    decreases |answers|
  {
    if answers != [] && D.Running(p) && Fits(D.Ask(p), answers[0]) {
      NextHolds(read, p, answers[0]);
      FollowHolds(read, D.Next(p, answers[0]), answers[1..]);
    }
  }

  /**
   Every write of a Database pass, on every path, carries the version, the key and the uid of
   the object it read; its spec differs from the one read at most in sourced passwords.
   */
  lemma WritesWhatItRead(read: Database, answers: seq<Answer>)
    ensures var p := Follow(Opened(read), answers);
            D.Running(p) && D.Ask(p).PutDatabase? ==>
              var written := D.Ask(p).db;
              && written.meta.version == read.meta.version && written.meta.key == read.meta.key
              && written.meta.uid == read.meta.uid && SameSpec(read.spec, written.spec)
  {
    OpenedHolds(read);
    FollowHolds(read, Opened(read), answers);
  }

  /** A server pass that has its object works on the one it read, but for labels. */
  ghost predicate ServerStillHolds(read: DatabaseServer, p: S.Pass) {
    match p
    case Begin(_) => false
    case Finished(_) => true
    case Panicked => true
    case _ => CopyOfServer(read, p.s) && p.s.meta.version == read.meta.version
  }

  lemma {:induction false} FollowServerHolds(read: DatabaseServer, p: S.Pass, answers: seq<Answer>)
    requires S.WellFormedPass(p) && ServerStillHolds(read, p)
    ensures ServerStillHolds(read, FollowServer(p, answers))
    decreases |answers|
  {
    if answers != [] && S.Running(p) && Fits(S.Ask(p), answers[0]) {
      FollowServerHolds(read, S.Next(p, answers[0]), answers[1..]);
    }
  }

  /** Every write of a server pass carries the version and the whole spec of the object it read. */
  lemma ServerWritesWhatItRead(read: DatabaseServer, answers: seq<Answer>)
    ensures var p := FollowServer(S.AfterBegin(read), answers);
            S.Running(p) && S.Ask(p).PutServer? ==>
              var written := S.Ask(p).server;
              && written.meta.version == read.meta.version && written.meta.key == read.meta.key
              && written.meta.uid == read.meta.uid && written.spec == read.spec
  {
    FollowServerHolds(read, S.AfterBegin(read), answers);
  }

  ghost predicate HasAdmin(users: seq<DatabaseUser>) {
    exists i :: 0 <= i < |users| && users[i].role == "admin"
  }
}
