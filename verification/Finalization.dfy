// The end of a run, statement by statement, and the boot sweep over runs whose job was lost.
module Finalization {
  import opened Prelude
  import opened Tables
  import opened Transactions
  import opened Database
  import opened ChatController
  import opened ServiceSystem
  import opened LedgerInvariant
  import opened Outcomes

  /** The answer goes in; the run is done unless somebody finalized it before. */
  method Succeed(db: Database, run: Id, thread: Id, text: string) returns (ok: bool)
    modifies db
    ensures db.State() == After(old(db.State()), FinalizeDone(old(db.State()), run, thread, text))
    ensures ok <==> thread in old(db.threads)
    ensures ok ==>
              && db.messages == old(db.messages) + [Message(thread, FromAssistant, text)]
              && forall r | r in old(db.runs) ::
                   r in db.runs && db.runs[r] == if r == run && old(db.runs)[r].status.Running?
                                                 then old(db.runs)[r].(status := Done) else old(db.runs)[r]
  {
    var begin := db.State();
    var r := db.InsertMessage(thread, FromAssistant, text);
    if r.Err? {
      db.Rollback(begin);
      return false;
    }
    var _ := db.CloseRun(run, Done);
    return true;
  }

  method FailStatements(db: Database, run: Id, owner: Id) returns (r: Result<bool, Violation>)
    modifies db
    ensures Ran(FinalizeFailed(old(db.State()), run, owner), old(db.State()), db.State(), r.Ok?, r.Ok? && r.value)
  {
    var failed := db.CloseRun(run, Failed);
    if !failed { return Ok(false); }
    var _ :- db.AddCredits(owner, 1);
    var _ :- db.InsertLedger(owner, 1, Refund, OfRun(run));
    return Ok(true);
  }

  /** Refunds exactly when this call is the one that takes the run out of running. */
  method FailRun(db: Database, run: Id, owner: Id) returns (ok: bool)
    modifies db
    ensures db.State() == After(old(db.State()), FinalizeFailed(old(db.State()), run, owner))
    ensures ok <==> !(run in old(db.runs) && old(db.runs)[run].status.Running?) || Fits(old(db.State()), owner, 1)
    ensures ok && run in old(db.runs) && old(db.runs)[run].status.Running? ==>
              && Credited(old(db.users), old(db.ledger), db.users, db.ledger, owner, 1, Refund, OfRun(run))
              && db.runs == old(db.runs)[run := old(db.runs)[run].(status := Failed)]
  {
    FailOutcome(db.State(), run, owner);
    var begin := db.State();
    var r := FailStatements(db, run, owner);
    ok := r.Ok?;
    if r.Err? { db.Rollback(begin); }
  }

  // ---- Boot sweep ------------------------------------------------------------------------------------

  /** The sweep of a list: the tables it leaves, and whether it got to the end. An error ends it. */
  function Swept(db: DB, stale: seq<Snapshot>): (r: (DB, bool)) {
    if stale == [] then (db, true)
    else
      var before := Swept(db, Front(stale));
      var tx := FinalizeFailed(before.0, Last(stale).run, Last(stale).owner);
      if before.1 && !tx.Rollback? then (After(before.0, tx), true) else (before.0, false)
  }

  method Sweep(db: Database, stale: seq<Snapshot>) returns (done: bool)
    modifies db
    ensures (db.State(), done) == Swept(old(db.State()), stale)
  {
    for k := 0 to |stale|
      invariant (db.State(), true) == Swept(old(db.State()), stale[..k])
    {
      assert Front(stale[..k + 1]) == stale[..k];
      var ok := FailRun(db, stale[k].run, stale[k].owner);
      if !ok {
        StoppedForGood(old(db.State()), stale, k + 1);
        return false;
      }
    }
    TakeAll(stale);
    return true;
  }

  lemma {:induction false} StoppedForGood(db: DB, stale: seq<Snapshot>, n: nat)
    requires n <= |stale| && !Swept(db, stale[..n]).1
    ensures Swept(db, stale) == Swept(db, stale[..n])
    decreases |stale|
  {
    if n == |stale| {
      TakeAll(stale);
    } else {
      assert Front(stale)[..n] == stale[..n];
      StoppedForGood(db, Front(stale), n);
    }
  }

  // What the sweep will do, read off the list and the tables it starts from.

  predicate Listed(stale: seq<Snapshot>, r: Id) {
    stale != [] && (Last(stale).run == r || Listed(Front(stale), r))
  }

  /** After the entries `before`, the entry `w` still has a running run to fail. */
  predicate Due(runs: map<Id, Run>, before: seq<Snapshot>, w: Snapshot) {
    w.run in runs && runs[w.run].status.Running? && !Listed(before, w.run)
  }

  /** How many of the entries refund the account `u`. */
  function Refunds(runs: map<Id, Run>, stale: seq<Snapshot>, u: Id): (n: nat) {
    if stale == [] then 0
    else
      Refunds(runs, Front(stale), u) + (if Due(runs, Front(stale), Last(stale)) && Last(stale).owner == u then 1 else 0)
  }

  function RefundRows(runs: map<Id, Run>, stale: seq<Snapshot>): (rows: seq<LedgerRow>) {
    if stale == [] then []
    else
      var w := Last(stale);
      RefundRows(runs, Front(stale)) + (if Due(runs, Front(stale), w) then [LedgerRow(w.owner, 1, Refund, OfRun(w.run))]
                                        else [])
  }

  /** The entry `w` cannot be settled: its owner was merged away, or the refunds so far fill the balance. */
  predicate Blocked(db: DB, before: seq<Snapshot>, w: Snapshot) {
    && Due(db.runs, before, w)
    && (w.owner !in db.users || db.users[w.owner].credits + Refunds(db.runs, before, w.owner) >= MAX_INT4)
  }

  predicate NoneBlocked(db: DB, stale: seq<Snapshot>) {
    forall k | 0 <= k < |stale| :: !Blocked(db, stale[..k], stale[k])
  }

  ghost predicate UsersSettled(db: DB, stale: seq<Snapshot>, users: map<Id, User>) {
    && users.Keys == db.users.Keys
    && forall u | u in db.users ::
         users[u] == db.users[u].(credits := db.users[u].credits + Refunds(db.runs, stale, u))
  }

  ghost predicate RunsSettled(db: DB, stale: seq<Snapshot>, runs: map<Id, Run>) {
    && runs.Keys == db.runs.Keys
    && forall r | r in db.runs ::
         runs[r] == if db.runs[r].status.Running? && Listed(stale, r) then db.runs[r].(status := Failed) else db.runs[r]
  }

  /** Every listed run is settled: failed if it was running, its entry's owner refunded; nothing else changes. */
  ghost predicate Settled(db: DB, stale: seq<Snapshot>, d: DB) {
    && UsersSettled(db, stale, d.users) && RunsSettled(db, stale, d.runs)
    && d == db.(users := d.users, runs := d.runs, ledger := db.ledger + RefundRows(db.runs, stale))
  }

  lemma NoneBlockedFront(db: DB, stale: seq<Snapshot>)
    requires stale != []
    ensures NoneBlocked(db, stale) <==> NoneBlocked(db, Front(stale)) && !Blocked(db, Front(stale), Last(stale))
  {
    var n := |stale| - 1;
    assert forall k | 0 <= k < n :: Front(stale)[..k] == stale[..k] && Front(stale)[k] == stale[k];
    assert stale[..n] == Front(stale) && stale[n] == Last(stale);
  }

  /** The entry's run, as the sweep finds it: still running exactly when the entry is due. */
  lemma FoundRunning(db: DB, before: seq<Snapshot>, m: DB, w: Snapshot)
    requires RunsSettled(db, before, m.runs)
    ensures w.run in m.runs && m.runs[w.run].status.Running? <==> Due(db.runs, before, w)
  {
  }

  lemma StepsBackIff(db: DB, before: seq<Snapshot>, m: DB, w: Snapshot)
    requires Settled(db, before, m) && BalancesOk(m.users)
    ensures FinalizeFailed(m, w.run, w.owner).Rollback? <==> Blocked(db, before, w)
  {
    FoundRunning(db, before, m, w);
    if Due(db.runs, before, w) {
      FailCommitsIff(m, w.run, w.owner);
    }
  }

  lemma OneMoreUser(db: DB, before: seq<Snapshot>, users: map<Id, User>, w: Snapshot)
    requires UsersSettled(db, before, users) && Due(db.runs, before, w) && w.owner in users
    ensures UsersSettled(db, before + [w], users[w.owner := users[w.owner].(credits := users[w.owner].credits + 1)])
  {
    assert Front(before + [w]) == before;
  }

  lemma OneMoreRun(db: DB, before: seq<Snapshot>, runs: map<Id, Run>, w: Snapshot)
    requires RunsSettled(db, before, runs) && Due(db.runs, before, w)
    ensures RunsSettled(db, before + [w], runs[w.run := runs[w.run].(status := Failed)])
  {
    assert Front(before + [w]) == before;
  }

  lemma NothingDue(db: DB, before: seq<Snapshot>, m: DB, w: Snapshot)
    requires Settled(db, before, m) && !Due(db.runs, before, w)
    ensures Settled(db, before + [w], m)
  {
    assert Front(before + [w]) == before;
  }

  lemma OneMoreRow(db: DB, before: seq<Snapshot>, ledger: seq<LedgerRow>, w: Snapshot)
    requires ledger == db.ledger + RefundRows(db.runs, before) && Due(db.runs, before, w)
    ensures ledger + [LedgerRow(w.owner, 1, Refund, OfRun(w.run))] == db.ledger + RefundRows(db.runs, before + [w])
  {
    assert Front(before + [w]) == before;
    SnocAssociates(db.ledger, RefundRows(db.runs, before), LedgerRow(w.owner, 1, Refund, OfRun(w.run)));
  }

  /** What a refund changes. */
  lemma FailChanges(m: DB, w: Snapshot)
    requires w.run in m.runs && m.runs[w.run].status.Running?
    requires !FinalizeFailed(m, w.run, w.owner).Rollback?
    ensures w.owner in m.users
    ensures After(m, FinalizeFailed(m, w.run, w.owner)) ==
              m.(users := m.users[w.owner := m.users[w.owner].(credits := m.users[w.owner].credits + 1)],
                 runs := m.runs[w.run := m.runs[w.run].(status := Failed)],
                 ledger := m.ledger + [LedgerRow(w.owner, 1, Refund, OfRun(w.run))])
  {
  }

  lemma SettleDue(db: DB, before: seq<Snapshot>, m: DB, w: Snapshot)
    requires Settled(db, before, m) && Due(db.runs, before, w)
    requires w.run in m.runs && m.runs[w.run].status.Running?
    requires !FinalizeFailed(m, w.run, w.owner).Rollback?
    ensures Settled(db, before + [w], After(m, FinalizeFailed(m, w.run, w.owner)))
  {
    FailChanges(m, w);
    OneMoreUser(db, before, m.users, w);
    OneMoreRun(db, before, m.runs, w);
    OneMoreRow(db, before, m.ledger, w);
  }

  lemma SettleOne(db: DB, before: seq<Snapshot>, m: DB, w: Snapshot)
    requires Settled(db, before, m) && !FinalizeFailed(m, w.run, w.owner).Rollback?
    ensures Settled(db, before + [w], After(m, FinalizeFailed(m, w.run, w.owner)))
  {
    FoundRunning(db, before, m, w);
    if Due(db.runs, before, w) {
      SettleDue(db, before, m, w);
    } else {
      FailEffect(m, w.run, w.owner);
      NothingDue(db, before, m, w);
    }
  }

  lemma NothingSwept(db: DB)
    ensures Settled(db, [], db) && NoneBlocked(db, [])
  {
    ConcatNothing(db.ledger);
  }

  /** A sweep reaches the end of its list iff no entry is blocked, and then every entry is settled. */
  lemma {:induction false} SweepCompletes(db: DB, stale: seq<Snapshot>)
    requires BalancesOk(db.users)
    ensures Swept(db, stale).1 <==> NoneBlocked(db, stale)
    ensures Swept(db, stale).1 ==> Settled(db, stale, Swept(db, stale).0) && BalancesOk(Swept(db, stale).0.users)
  {
    if stale == [] {
      NothingSwept(db);
    } else {
      var before, w := Front(stale), Last(stale);
      SweepCompletes(db, before);
      NoneBlockedFront(db, stale);
      if Swept(db, before).1 {
        var m := Swept(db, before).0;
        StepsBackIff(db, before, m, w);
        if Swept(db, stale).1 {
          SettleOne(db, before, m, w);
          FrontAndLast(stale);
          BalancesStay(m, w);
        }
      }
    }
  }

  lemma BalancesStay(m: DB, w: Snapshot)
    requires BalancesOk(m.users)
    ensures BalancesOk(After(m, FinalizeFailed(m, w.run, w.owner)).users)
  {
    FailEffect(m, w.run, w.owner);
  }

  /** The entries before the first blocked one. */
  function Reached(db: DB, stale: seq<Snapshot>): (n: nat)
    ensures n <= |stale|
  {
    if stale == [] then 0
    else
      var n := Reached(db, Front(stale));
      if n < |stale| - 1 || Blocked(db, Front(stale), Last(stale)) then n else |stale|
  }

  lemma {:induction false} ReachedIs(db: DB, stale: seq<Snapshot>)
    ensures var n := Reached(db, stale);
            && NoneBlocked(db, stale[..n])
            && (n < |stale| ==> Blocked(db, stale[..n], stale[n]))
            && (n == |stale| <==> NoneBlocked(db, stale))
  {
    var n := Reached(db, stale);
    if stale == [] {
    } else {
      ReachedIs(db, Front(stale));
      NoneBlockedFront(db, stale);
      if n == |stale| {
        TakeAll(stale);
        TakeAll(Front(stale));
      } else {
        assert Front(stale)[..n] == stale[..n];
        assert n < |stale| - 1 ==> Front(stale)[n] == stale[n];
        assert n == |stale| - 1 ==> stale[..n] == Front(stale);
      }
    }
  }

  /**
   * Whatever happened between the read of the list and the sweep: it settles exactly the entries before the first
   * blocked one and nothing else, so a running run of that entry stays running; and it settles the whole list
   * iff no entry is blocked.
   */
  lemma SweepRefunds(db: DB, stale: seq<Snapshot>)
    requires BalancesOk(db.users)
    ensures var n := Reached(db, stale);
            var d := Swept(db, stale).0;
            && Settled(db, stale[..n], d)
            && NoneBlocked(db, stale[..n])
            && (n < |stale| ==>
                  && Blocked(db, stale[..n], stale[n])
                  && d.runs[stale[n].run] == db.runs[stale[n].run])
            && (Swept(db, stale).1 <==> n == |stale|)
            && (n == |stale| <==> NoneBlocked(db, stale))
  {
    var n := Reached(db, stale);
    ReachedIs(db, stale);
    SweepCompletes(db, stale);
    SweepCompletes(db, stale[..n]);
    if n == |stale| {
      TakeAll(stale);
    } else {
      assert Front(stale[..n + 1]) == stale[..n];
      StepsBackIff(db, stale[..n], Swept(db, stale[..n]).0, stale[n]);
      StoppedForGood(db, stale, n + 1);
    }
  }
}
