// Sending a message and deleting a thread, statement by statement.
module ChatController {
  import opened Prelude
  import opened Tables
  import opened Transactions
  import opened Database
  import opened Outcomes

  datatype Reply =
    | Accepted(run: Id, credits: int)
    | NotFound
    | AlreadyRunning
    | OutOfCredits
    | ServerError

  /** How a transaction body that ran its statements relates to the step it stands for. */
  ghost predicate Ran(tx: Tx, before: DB, after: DB, ok: bool, wrote: bool) {
    match tx
    case Commit(d) => ok && wrote && after == d
    case Refuse => ok && !wrote && after == before
    case Rollback => !ok
  }

  // The two checks before the transaction read the tables at different times; both may be stale when it begins.

  method AssertThread(db: Database, u: Id, t: Id) returns (refusal: Option<Reply>)
    ensures refusal == if t in db.threads && db.threads[t].owner == u then None else Some(NotFound)
  {
    if t !in db.threads || db.threads[t].owner != u { return Some(NotFound); }
    return None;
  }

  method CheckIdle(db: Database, t: Id) returns (refusal: Option<Reply>)
    ensures refusal == if Busy(db.runs, t) then Some(AlreadyRunning) else None
  {
    if r :| r in db.runs && db.runs[r].thread == t && db.runs[r].status.Running? {
      assert RunningIn(db.runs, r, t);
      return Some(AlreadyRunning);
    }
    return None;
  }

  lemma BusyIs(runs: map<Id, Run>, t: Id)
    ensures Busy(runs, t) <==> exists r :: r in runs && runs[r].thread == t && runs[r].status.Running?
  {
    if r :| r in runs && runs[r].thread == t && runs[r].status.Running? {
      assert RunningIn(runs, r, t);
    }
  }

  /** The send transaction in one piece. */
  function SendInOne(db: DB, u: Id, t: Id, content: string, model: string): (tx: Tx) {
    if u !in db.users || db.users[u].credits <= 0 then Refuse
    else if t !in db.threads || Busy(db.runs, t) || db.users[u].credits - 1 > MAX_INT4 then Rollback
    else
      Commit(db.(users := db.users[u := db.users[u].(credits := db.users[u].credits - 1)],
                 ledger := db.ledger + [LedgerRow(u, -1, Charge, OfRun(db.nextId))],
                 messages := db.messages + [Message(t, FromUser, content)],
                 runs := db.runs[db.nextId := Run(t, u, model, Running)],
                 nextId := db.nextId + 1))
  }

  lemma SendIs(db: DB, u: Id, t: Id, content: string, model: string)
    ensures Send(db, u, t, content, model) == SendInOne(db, u, t, content, model)
  {
  }

  /** The inserts of a send: question, run, charge. */
  method InsertStatements(db: Database, u: Id, t: Id, content: string, model: string) returns (r: Result<Id, Violation>)
    requires u in db.users
    modifies db
    ensures r.Ok? <==> t in old(db.threads) && !Busy(old(db.runs), t)
    ensures r.Err? && r.error.UniqueViolation? <==> t in old(db.threads) && Busy(old(db.runs), t)
    ensures r.Ok? ==>
              var begin := old(db.State());
              && r.value == begin.nextId
              && db.State() == begin.(ledger := begin.ledger + [LedgerRow(u, -1, Charge, OfRun(begin.nextId))],
                                      messages := begin.messages + [Message(t, FromUser, content)],
                                      runs := begin.runs[begin.nextId := Run(t, u, model, Running)],
                                      nextId := begin.nextId + 1)
  {
    var _ :- db.InsertMessage(t, FromUser, content);
    var run :- db.InsertRun(t, u, model);
    var charge := db.InsertLedger(u, -1, Charge, OfRun(run));
    assert charge.Ok?;
    return Ok(run);
  }

  method SendStatements(db: Database, u: Id, t: Id, content: string, model: string)
      returns (r: Result<Option<Reply>, Violation>)
    modifies db
    ensures Ran(SendInOne(old(db.State()), u, t, content, model), old(db.State()), db.State(),
                r.Ok?, r.Ok? && r.value.Some?)
    ensures r.Ok? && r.value.Some? ==> r.value.value == Accepted(old(db.nextId), old(db.State()).users[u].credits - 1)
    ensures r.Err? && r.error.UniqueViolation? <==>
              u in old(db.users) && 0 < old(db.users)[u].credits <= MAX_INT4 + 1
              && t in old(db.threads) && Busy(old(db.runs), t)
  {
    if u !in db.users || db.users[u].credits <= 0 { return Ok(None); }
    var deducted :- db.AddCredits(u, -1);
    var run :- InsertStatements(db, u, t, content, model);
    return Ok(Some(Accepted(run, deducted.value)));
  }

  /**
   * One credit, the question, the run and its charge go in together or not at all; a second running run on the
   * thread is reported as such and costs nothing.
   */
  method SendMessage(db: Database, u: Id, t: Id, content: string, model: string) returns (reply: Reply)
    modifies db
    ensures db.State() == After(old(db.State()), Send(old(db.State()), u, t, content, model))
    ensures reply.Accepted? <==> Send(old(db.State()), u, t, content, model).Commit?
    ensures reply.Accepted? ==> reply.run == old(db.nextId) && db.users[u].credits == reply.credits
    ensures reply.Accepted? <==>
              && Fits(old(db.State()), u, -1) && t in old(db.threads)
              && !exists r :: r in old(db.runs) && old(db.runs)[r].thread == t && old(db.runs)[r].status.Running?
    ensures reply.Accepted? ==>
              && Credited(old(db.users), old(db.ledger), db.users, db.ledger, u, -1, Charge, OfRun(reply.run))
              && db.messages == old(db.messages) + [Message(t, FromUser, content)]
              && db.runs == old(db.runs)[reply.run := Run(t, u, model, Running)]
    ensures reply.OutOfCredits? <==> Send(old(db.State()), u, t, content, model).Refuse?
    ensures reply.AlreadyRunning? <==>
              u in old(db.users) && 0 < old(db.users)[u].credits <= MAX_INT4 + 1
              && t in old(db.threads) && Busy(old(db.runs), t)
  {
    var begin := db.State();
    SendIs(begin, u, t, content, model);
    BusyIs(begin.runs, t);
    var r := SendStatements(db, u, t, content, model);
    if r.Err? {
      db.Rollback(begin);
      return if r.error.UniqueViolation? then AlreadyRunning else ServerError;
    }
    return if r.value.Some? then r.value.value else OutOfCredits;
  }

  /** Only the owner deletes, and everything of the thread goes with it. */
  method DeleteOwnThread(db: Database, u: Id, t: Id) returns (ok: bool)
    modifies db
    ensures ok <==> t in old(db.threads) && old(db.threads)[t].owner == u
    ensures db.State() == if ok then After(old(db.State()), DeleteThread(old(db.State()), t)) else old(db.State())
    ensures ok ==> ThreadGone(old(db.State()), db.State(), t)
  {
    var refusal := AssertThread(db, u, t);
    ok := refusal.None?;
    if ok { db.DeleteFromThreads(t); }
  }
}
