/**
 Which Database a pass works on, and what one answer makes of it.
 */
module PassObjects {
  import opened Resources
  import opened Postgres
  import opened Api
  import D = DatabasePass

  /** The Database that a pass has at hand, if it has read one and has not ended. */
  function Object(p: D.Pass): Option<Database> {
    match p
    case Begin(_) => None
    case Finished(_) => None
    case Panicked => None
    case Elsewhere => None
    case _ => Some(p.db)
  }

  /** The pass has ended, or has this Database at hand. */
  predicate Keeps(p: D.Pass, db: Database) {
    !p.Begin? && (Object(p).None? || Object(p) == Some(db))
  }

  lemma ChoosingKeeps(db: Database, s: Option<DatabaseServer>)
    ensures Keeps(D.ChoosePlugin(db, s), db)
  {}

  lemma OpeningKeeps(db: Database)
    ensures Keeps(D.AfterInitialization(db), db)
  {
    ChoosingKeeps(db, None);
  }

  lemma ResolvingKeeps(db: Database, s: Option<DatabaseServer>, dsn: string, i: nat)
    requires i <= |Users(db.spec)|
    ensures Keeps(D.ResolvePasswords(db, s, dsn, i), db)
  {}

  lemma StatementKeeps(db: Database, s: Option<DatabaseServer>, dsn: string, client: Client)
    requires WellFormed(D.JobOf(db), client)
    ensures Keeps(D.AfterStatement(db, s, dsn, client), db)
  {}

  lemma MakingLabels(db: Database, s: Option<DatabaseServer>, dsn: string)
    requires db.spec.users.Some?
    ensures Keeps(D.MakeSecret(db, s, dsn), db.(meta := D.Labelled(db.meta)))
  {}

  /** The password that an answer stores for a user. */
  function Looked(found: Lookup<string>): string {
    if found.Found? then found.value else ""
  }

  /** The Database that a pass has at hand after an answer, unless it has ended. */
  function ObjectAfter(p: D.Pass, answer: Answer): Database
    requires D.Running(p) && Fits(D.Ask(p), answer) && (p.Begin? ==> answer.database.Found?)
  {
    if p.Begin? then answer.database.value
    else if p.GettingPassword? && !answer.value.NotFound? then D.WithPassword(p.db, p.i, Looked(answer.value))
    else if p.FindingSecret? && answer.secret.NotFound? then p.db.(meta := D.Labelled(p.db.meta))
    else p.db
  }

  lemma ReadingKeeps(p: D.Pass, answer: Answer)
    requires D.Running(p) && Fits(D.Ask(p), answer)
    requires p.Initializing? || p.FindingServer? || p.GettingDsn? || p.GettingPassword?
    ensures Keeps(D.Next(p, answer), ObjectAfter(p, answer))
  {
    match p
    case Initializing(db) => OpeningKeeps(db);
    case FindingServer(db) => if answer.server.Found? { ChoosingKeeps(db, Some(answer.server.value)); }
    case GettingDsn(db, s, _) => if answer.value.Found? { ResolvingKeeps(db, s, answer.value.value, 0); }
    case GettingPassword(db, s, dsn, i) =>
      if !answer.value.NotFound? { ResolvingKeeps(D.WithPassword(db, i, Looked(answer.value)), s, dsn, i + 1); }
  }

  lemma EndingKeeps(p: D.Pass, answer: Answer)
    requires D.Running(p) && Fits(D.Ask(p), answer) && (p.FindingSecret? || p.CreatingSecret? || p.Putting?)
    ensures Keeps(D.Next(p, answer), ObjectAfter(p, answer))
  {
    if p.FindingSecret? && answer.secret.NotFound? { MakingLabels(p.db, p.s, p.dsn); }
  }

  /** One answer changes a pass's Database at most in a sourced password or in the labels. */
  lemma NextKeeps(p: D.Pass, answer: Answer)
    requires D.Running(p) && Fits(D.Ask(p), answer)
    ensures if p.Begin? && !answer.database.Found? then D.Next(p, answer).Finished?
            else Keeps(D.Next(p, answer), ObjectAfter(p, answer))
  {
    match p
    case Begin(_) => if answer.database.Found? { OpeningKeeps(answer.database.value); }
    case Syncing(db, s, dsn, client) => StatementKeeps(db, s, dsn, Advance(D.JobOf(db), client, answer.reply));
    case FindingSecret(_, _, _) => EndingKeeps(p, answer);
    case CreatingSecret(_, _, _) => EndingKeeps(p, answer);
    case Putting(_, _, _) => EndingKeeps(p, answer);
    case _ => ReadingKeeps(p, answer);
  }
}
