// Money over whole histories: balances equal the ledger, every run is charged once and refunded at most once
// to the account that paid, purchases match Stripe events, and coupons match redemptions.
module LedgerInvariant {
  import opened Prelude
  import opened Tables
  import opened Transactions
  import opened ServiceSystem
  import opened SchemaInvariant

  // ---- Conservation ---------------------------------------------------------------------------

  /** Each user's credits are the sum of that user's ledger rows. */
  ghost predicate Conserved(db: DB) {
    forall u | u in db.users :: db.users[u].credits == Balance(db.ledger, u)
  }

  lemma BalanceSnoc(ledger: seq<LedgerRow>, row: LedgerRow, u: Id)
    ensures Balance(ledger + [row], u) == Balance(ledger, u) + (if row.owner == u then row.delta else 0)
  {
    assert Front(ledger + [row]) == ledger;
  }

  lemma {:induction false} NoRowsNoBalance(ledger: seq<LedgerRow>, u: Id)
    requires forall k | 0 <= k < |ledger| :: ledger[k].owner != u
    ensures Balance(ledger, u) == 0
  {
    if ledger == [] {
    } else {
      NoRowsNoBalance(Front(ledger), u);
    }
  }

  lemma {:induction false} MovedBalance(ledger: seq<LedgerRow>, l: Id, w: Id, u: Id)
    requires l != w
    ensures Balance(MoveRows(ledger, l, w), u) ==
              if u == w then Balance(ledger, l) + Balance(ledger, w) else if u == l then 0 else Balance(ledger, u)
  {
    if ledger == [] {
    } else {
      MovedBalance(Front(ledger), l, w, u);
      assert Front(MoveRows(ledger, l, w)) == MoveRows(Front(ledger), l, w);
    }
  }

  lemma PostConserves(db: DB, u: Id, delta: int, reason: Reason, ref: Ref)
    requires Conserved(db)
    ensures Post(db, u, delta, reason, ref).Some? ==> Conserved(Post(db, u, delta, reason, ref).value)
  {
    var row := LedgerRow(u, delta, reason, ref);
    forall v | v in db.users
      ensures Balance(db.ledger + [row], v) == Balance(db.ledger, v) + (if v == u then delta else 0)
    {
      BalanceSnoc(db.ledger, row, v);
    }
  }

  /** What a posting transaction does to users and ledger is one Post, or nothing. */
  function PostOf(db: DB, a: Action): (r: Option<DB>)
    requires Posts(a)
  {
    match a
    case CommitSend(q, _, _) => Post(db, q.user, -1, Charge, OfRun(db.nextId))
    case Fail(w) => Post(db, w.owner, 1, Refund, OfRun(w.run))
    case Webhook(event, session, u, amount) => Post(db, u, amount, Purchase, OfSession(session))
    case Redeem(u, code, amount) => Post(db, u, amount, Coupon, OfCode(code))
    case Grant(u, delta, admin) => Post(db, u, delta, AdminGrant, OfAdmin(admin))
  }

  lemma PostingIsPost(db: DB, a: Action)
    requires Posts(a)
    ensures TxOf(db, a).Commit? ==>
              && PostOf(db, a).Some?
              && TxOf(db, a).db.users == PostOf(db, a).value.users
              && TxOf(db, a).db.ledger == PostOf(db, a).value.ledger
    ensures !TxOf(db, a).Commit? ==> After(db, TxOf(db, a)) == db
  {
  }

  lemma PostingConserves(db: DB, a: Action)
    requires Conserved(db) && Posts(a)
    ensures Conserved(After(db, TxOf(db, a)))
  {
    PostingIsPost(db, a);
    match a
    case CommitSend(q, _, _) => PostConserves(db, q.user, -1, Charge, OfRun(db.nextId));
    case Fail(w) => PostConserves(db, w.owner, 1, Refund, OfRun(w.run));
    case Webhook(event, session, u, amount) => PostConserves(db, u, amount, Purchase, OfSession(session));
    case Redeem(u, code, amount) => PostConserves(db, u, amount, Coupon, OfCode(code));
    case Grant(u, delta, admin) => PostConserves(db, u, delta, AdminGrant, OfAdmin(admin));
  }

  lemma MergeConserves(db: DB, l: Id, w: Id)
    requires Conserved(db) && l in db.users && w in db.users && l != w
    ensures Conserved(Merged(db, l, w))
  {
    var m := Merged(db, l, w);
    forall u | u in m.users ensures m.users[u].credits == Balance(m.ledger, u) {
      MovedBalance(db.ledger, l, w, u);
    }
  }

  lemma UpsertConserves(db: DB, c: Claim, target: Option<Id>)
    requires Conserved(db) && (target.Some? ==> target.value in db.users)
    requires forall k | 0 <= k < |db.ledger| :: db.ledger[k].owner != db.nextId
    ensures Conserved(After(db, Upserted(db, c, target)))
  {
    NoRowsNoBalance(db.ledger, db.nextId);
  }

  lemma MovedOwners(db: DB, l: Id, w: Id)
    requires OwnersOk(db) && IdsOk(db) && l in db.users && w in db.users && l != w
    ensures forall k | 0 <= k < |Merged(db, l, w).ledger| :: Merged(db, l, w).ledger[k].owner != db.nextId
  {
  }

  lemma LoginConserves(db: DB, c: Claim)
    requires Conserved(db) && Schema(db)
    ensures Conserved(After(db, Login(db, c)))
  {
    var byIdentity, byEmail := ByIdentity(db, c), ByEmail(db, c);
    var target := if byEmail.Some? then byEmail else byIdentity;
    if !NeedsMerge(byIdentity, byEmail) {
      UpsertConserves(db, c, target);
    } else {
      MergeConserves(db, byIdentity.value, byEmail.value);
      MovedOwners(db, byIdentity.value, byEmail.value);
      UpsertConserves(Merged(db, byIdentity.value, byEmail.value), c, target);
    }
  }

  lemma ConservedStep(s: System, a: Action)
    requires Inv(s) && Conserved(s.db) && Enabled(s, a)
    ensures Conserved(Apply(s, a).db)
  {
    if a.SignIn? {
      LoginConserves(s.db, a.claim);
    } else if Posts(a) {
      PostingConserves(s.db, a);
    } else {
      OthersKeepUsers(s.db, a);
    }
  }

  /** In every reachable state each balance is the sum of its ledger rows, and none is negative. */
  lemma {:induction false} LedgerConservation(acts: seq<Action>)
    requires Exec(Init(), acts).Some?
    ensures var db := Exec(Init(), acts).value.db;
            forall u | u in db.users ::
              db.users[u].credits == Balance(db.ledger, u) && 0 <= Balance(db.ledger, u) <= MAX_INT4
  {
    SchemaHolds(acts);
    if acts == [] {
    } else {
      LedgerConservation(Front(acts));
      SchemaHolds(Front(acts));
      ConservedStep(Exec(Init(), Front(acts)).value, Last(acts));
    }
  }

  // ---- One charge, at most one refund, same account ----------------------------------------------

  predicate RowOf(ledger: seq<LedgerRow>, k: int, reason: Reason, run: Id) {
    0 <= k < |ledger| && ledger[k].reason == reason && ledger[k].ref == OfRun(run)
  }

  ghost predicate HasRow(ledger: seq<LedgerRow>, reason: Reason, run: Id) {
    exists k :: RowOf(ledger, k, reason, run)
  }

  /** Charges and refunds name runs that were created, and each at most once. */
  ghost predicate RowsOk(s: System) {
    && (forall k | 0 <= k < |s.db.ledger| && (s.db.ledger[k].reason.Charge? || s.db.ledger[k].reason.Refund?) ::
          && s.db.ledger[k].ref.OfRun? && s.db.ledger[k].ref.run in s.created
          && s.db.ledger[k].delta == (if s.db.ledger[k].reason.Charge? then -1 else 1))
    && (forall j, k, r | RowOf(s.db.ledger, j, Charge, r) && RowOf(s.db.ledger, k, Charge, r) :: j == k)
    && (forall j, k, r | RowOf(s.db.ledger, j, Refund, r) && RowOf(s.db.ledger, k, Refund, r) :: j == k)
    && (forall j, k, r | RowOf(s.db.ledger, j, Charge, r) && RowOf(s.db.ledger, k, Refund, r) ::
          s.db.ledger[j].owner == s.db.ledger[k].owner)
  }

  ghost predicate RunsPaid(s: System) {
    && (forall r | r in s.created :: r < s.db.nextId && HasRow(s.db.ledger, Charge, r))
    && (forall r | r in s.db.runs :: r in s.created)
    && (forall r | r in s.db.runs :: s.db.runs[r].status.Failed? <==> HasRow(s.db.ledger, Refund, r))
    && (forall r, k | r in s.db.runs && RowOf(s.db.ledger, k, Charge, r) :: s.db.ledger[k].owner == s.db.runs[r].owner)
  }

  ghost predicate PaidInv(s: System) {
    RowsOk(s) && RunsPaid(s)
  }

  lemma AppendRow(ledger: seq<LedgerRow>, row: LedgerRow)
    ensures forall k, reason, r ::
              RowOf(ledger + [row], k, reason, r) <==>
                RowOf(ledger, k, reason, r) || (k == |ledger| && row.reason == reason && row.ref == OfRun(r))
    ensures forall reason, r ::
              HasRow(ledger + [row], reason, r) <==>
                HasRow(ledger, reason, r) || (row.reason == reason && row.ref == OfRun(r))
  {
    forall reason, r
      ensures HasRow(ledger + [row], reason, r) <==>
                HasRow(ledger, reason, r) || (row.reason == reason && row.ref == OfRun(r))
    {
      if HasRow(ledger, reason, r) {
        var k :| RowOf(ledger, k, reason, r);
        assert RowOf(ledger + [row], k, reason, r);
      }
      if row.reason == reason && row.ref == OfRun(r) {
        assert RowOf(ledger + [row], |ledger|, reason, r);
      }
      if HasRow(ledger + [row], reason, r) {
        var k :| RowOf(ledger + [row], k, reason, r);
        assert k < |ledger| ==> RowOf(ledger, k, reason, r);
      }
    }
  }

  lemma MovedRows(ledger: seq<LedgerRow>, l: Id, w: Id)
    ensures forall k, reason, r :: RowOf(MoveRows(ledger, l, w), k, reason, r) <==> RowOf(ledger, k, reason, r)
    ensures forall reason, r :: HasRow(MoveRows(ledger, l, w), reason, r) <==> HasRow(ledger, reason, r)
  {
    forall reason, r ensures HasRow(MoveRows(ledger, l, w), reason, r) <==> HasRow(ledger, reason, r) {
      if HasRow(ledger, reason, r) {
        var k :| RowOf(ledger, k, reason, r);
        assert RowOf(MoveRows(ledger, l, w), k, reason, r);
      }
      if HasRow(MoveRows(ledger, l, w), reason, r) {
        var k :| RowOf(MoveRows(ledger, l, w), k, reason, r);
        assert RowOf(ledger, k, reason, r);
      }
    }
  }

  /** A new run with its charge. */
  lemma ChargePaid(s: System, s': System, u: Id, t: Id, model: string)
    requires PaidInv(s) && IdsOk(s.db)
    requires s'.created == s.created + {s.db.nextId} && s'.db.nextId == s.db.nextId + 1
    requires s'.db.ledger == s.db.ledger + [LedgerRow(u, -1, Charge, OfRun(s.db.nextId))]
    requires s'.db.runs == s.db.runs[s.db.nextId := Run(t, u, model, Running)]
    ensures PaidInv(s')
  {
    AppendRow(s.db.ledger, LedgerRow(u, -1, Charge, OfRun(s.db.nextId)));
    assert forall k :: !RowOf(s.db.ledger, k, Charge, s.db.nextId) && !RowOf(s.db.ledger, k, Refund, s.db.nextId);
    ChargeRows(s, s', u);
  }

  lemma ChargeRows(s: System, s': System, u: Id)
    requires PaidInv(s)
    requires s'.created == s.created + {s.db.nextId}
    requires s'.db.ledger == s.db.ledger + [LedgerRow(u, -1, Charge, OfRun(s.db.nextId))]
    ensures RowsOk(s')
  {
    AppendRow(s.db.ledger, LedgerRow(u, -1, Charge, OfRun(s.db.nextId)));
    assert forall k :: !RowOf(s.db.ledger, k, Charge, s.db.nextId) && !RowOf(s.db.ledger, k, Refund, s.db.nextId);
  }

  lemma SendEffect(db: DB, u: Id, t: Id, content: string, model: string)
    ensures Send(db, u, t, content, model).Commit? ==>
              var d := Send(db, u, t, content, model).db;
              && d.ledger == db.ledger + [LedgerRow(u, -1, Charge, OfRun(db.nextId))]
              && d.runs == db.runs[db.nextId := Run(t, u, model, Running)]
              && d.nextId == db.nextId + 1
              && d.messages == db.messages + [Message(t, FromUser, content)]
  {
  }

  lemma SendPaid(s: System, a: Action)
    requires Inv(s) && PaidInv(s) && Enabled(s, a) && a.CommitSend?
    ensures PaidInv(Apply(s, a))
  {
    SendEffect(s.db, a.req.user, a.req.thread, a.content, a.model);
    if TxOf(s.db, a).Commit? {
      ChargePaid(s, Apply(s, a), a.req.user, a.req.thread, a.model);
    }
  }

  lemma FailEffect(db: DB, run: Id, owner: Id)
    ensures var tx := FinalizeFailed(db, run, owner);
            if tx.Commit? then
              && run in db.runs && db.runs[run].status.Running? && owner in db.users
              && tx.db.ledger == db.ledger + [LedgerRow(owner, 1, Refund, OfRun(run))]
              && tx.db.runs == db.runs[run := db.runs[run].(status := Failed)]
              && tx.db.nextId == db.nextId
            else After(db, tx) == db
  {
  }

  lemma RefundRows(s: System, s': System, run: Id)
    requires PaidInv(s) && run in s.db.runs && s.db.runs[run].status.Running?
    requires s'.created == s.created
    requires s'.db.ledger == s.db.ledger + [LedgerRow(s.db.runs[run].owner, 1, Refund, OfRun(run))]
    ensures RowsOk(s')
  {
    AppendRow(s.db.ledger, LedgerRow(s.db.runs[run].owner, 1, Refund, OfRun(run)));
    assert !HasRow(s.db.ledger, Refund, run);
    assert forall k :: !RowOf(s.db.ledger, k, Refund, run);
  }

  /** A refund to the owner of a running run. */
  lemma RefundPaid(s: System, s': System, run: Id)
    requires PaidInv(s) && run in s.db.runs && s.db.runs[run].status.Running?
    requires s'.created == s.created && s'.db.nextId == s.db.nextId
    requires s'.db.ledger == s.db.ledger + [LedgerRow(s.db.runs[run].owner, 1, Refund, OfRun(run))]
    requires s'.db.runs == s.db.runs[run := s.db.runs[run].(status := Failed)]
    ensures PaidInv(s')
  {
    AppendRow(s.db.ledger, LedgerRow(s.db.runs[run].owner, 1, Refund, OfRun(run)));
    RefundRows(s, s', run);
  }

  /** The refund goes to the account that paid, because a stale owner fails the ledger's foreign key. */
  lemma FailPaid(s: System, a: Action)
    requires Inv(s) && PaidInv(s) && Enabled(s, a) && a.Fail?
    ensures PaidInv(Apply(s, a))
  {
    FailEffect(s.db, a.worker.run, a.worker.owner);
    if TxOf(s.db, a).Commit? {
      RefundPaid(s, Apply(s, a), a.worker.run);
    }
  }

  /** Rows that are neither charge nor refund do not matter. */
  lemma AppendedPaid(s: System, s': System, row: LedgerRow)
    requires PaidInv(s) && !row.reason.Charge? && !row.reason.Refund?
    requires s'.created == s.created && s'.db.nextId == s.db.nextId && s'.db.runs == s.db.runs
    requires s'.db.ledger == s.db.ledger + [row]
    ensures PaidInv(s')
  {
    AppendRow(s.db.ledger, row);
  }

  lemma GrantEffect(db: DB, a: Action)
    requires a.Webhook? || a.Redeem? || a.Grant?
    ensures var tx := TxOf(db, a);
            if tx.Commit? then
              && tx.db.nextId == db.nextId && tx.db.runs == db.runs && tx.db.ledger != []
              && tx.db.ledger == db.ledger + [Last(tx.db.ledger)]
              && !Last(tx.db.ledger).reason.Charge? && !Last(tx.db.ledger).reason.Refund?
            else After(db, tx) == db
  {
  }

  lemma GrantPaid(s: System, a: Action)
    requires PaidInv(s) && (a.Webhook? || a.Redeem? || a.Grant?)
    ensures PaidInv(Apply(s, a))
  {
    GrantEffect(s.db, a);
    if TxOf(s.db, a).Commit? {
      AppendedPaid(s, Apply(s, a), Last(TxOf(s.db, a).db.ledger));
    }
  }

  lemma LoginRows(db: DB, c: Claim)
    ensures var d := After(db, Login(db, c));
            var byIdentity, byEmail := ByIdentity(db, c), ByEmail(db, c);
            if Login(db, c).Commit? && NeedsMerge(byIdentity, byEmail)
            then d.ledger == MoveRows(db.ledger, byIdentity.value, byEmail.value)
                 && d.runs == MoveRuns(db.runs, byIdentity.value, byEmail.value)
            else d.ledger == db.ledger && d.runs == db.runs
  {
  }

  /** Nothing about charges changed: the runs that are left keep owner and failure. */
  lemma SamePaid(s: System, s': System)
    requires PaidInv(s) && s'.created == s.created && s.db.nextId <= s'.db.nextId
    requires s'.db.ledger == s.db.ledger
    requires forall r | r in s'.db.runs ::
               r in s.db.runs && s'.db.runs[r].owner == s.db.runs[r].owner
               && (s'.db.runs[r].status.Failed? <==> s.db.runs[r].status.Failed?)
    ensures PaidInv(s')
  {
  }

  lemma LoginPaid(s: System, a: Action)
    requires IdsOk(s.db) && PaidInv(s) && Enabled(s, a) && a.SignIn?
    ensures PaidInv(Apply(s, a))
  {
    var c := a.claim;
    LoginRows(s.db, c);
    LoginIdsOk(s.db, c);
    PaidAfterSignIn(s, Apply(s, a), Login(s.db, c).Commit?, ByIdentity(s.db, c), ByEmail(s.db, c));
  }

  lemma PaidAfterSignIn(s: System, s': System, signedIn: bool, byIdentity: Option<Id>, byEmail: Option<Id>)
    requires PaidInv(s) && s'.created == s.created && s.db.nextId <= s'.db.nextId
    requires if signedIn && NeedsMerge(byIdentity, byEmail)
             then s'.db.ledger == MoveRows(s.db.ledger, byIdentity.value, byEmail.value)
                  && s'.db.runs == MoveRuns(s.db.runs, byIdentity.value, byEmail.value)
             else s'.db.ledger == s.db.ledger && s'.db.runs == s.db.runs
    ensures PaidInv(s')
  {
    if signedIn && NeedsMerge(byIdentity, byEmail) {
      MovePaid(s, s', byIdentity.value, byEmail.value);
    } else {
      SamePaid(s, s');
    }
  }

  lemma MovePaid(s: System, s': System, l: Id, w: Id)
    requires PaidInv(s) && s'.created == s.created && s.db.nextId <= s'.db.nextId
    requires s'.db.ledger == MoveRows(s.db.ledger, l, w)
    requires s'.db.runs == MoveRuns(s.db.runs, l, w)
    ensures PaidInv(s')
  {
    MovedRows(s.db.ledger, l, w);
  }

  lemma ThreadEffect(db: DB, a: Action)
    requires a.DropThread? || a.Complete?
    ensures var d := After(db, TxOf(db, a));
            && d.ledger == db.ledger && d.nextId == db.nextId
            && forall r | r in d.runs ::
                 r in db.runs && d.runs[r].owner == db.runs[r].owner
                 && (d.runs[r].status.Failed? <==> db.runs[r].status.Failed?)
  {
  }

  lemma ThreadPaid(s: System, a: Action)
    requires Inv(s) && PaidInv(s) && Enabled(s, a) && (a.DropThread? || a.Complete?)
    ensures PaidInv(Apply(s, a))
  {
    ThreadEffect(s.db, a);
    SamePaid(s, Apply(s, a));
  }

  lemma OtherPaid(s: System, a: Action)
    requires Inv(s) && PaidInv(s) && Enabled(s, a)
    requires !Posts(a) && !a.SignIn? && !a.DropThread? && !a.Complete?
    ensures PaidInv(Apply(s, a))
  {
    OthersKeepUsers(s.db, a);
    OthersKeepRuns(s.db, a);
    IdsStep(s, a);
    SamePaid(s, Apply(s, a));
  }

  lemma PaidStep(s: System, a: Action)
    requires Inv(s) && PaidInv(s) && Enabled(s, a)
    ensures PaidInv(Apply(s, a))
  {
    if a.SignIn? {
      LoginPaid(s, a);
    } else if a.CommitSend? {
      SendPaid(s, a);
    } else if a.Fail? {
      FailPaid(s, a);
    } else if a.Webhook? || a.Redeem? || a.Grant? {
      GrantPaid(s, a);
    } else if a.DropThread? || a.Complete? {
      ThreadPaid(s, a);
    } else {
      OtherPaid(s, a);
    }
  }

  lemma {:induction false} PaidHolds(acts: seq<Action>)
    requires Exec(Init(), acts).Some?
    ensures PaidInv(Exec(Init(), acts).value)
  {
    if acts == [] {
    } else {
      PaidHolds(Front(acts));
      SchemaHolds(Front(acts));
      PaidStep(Exec(Init(), Front(acts)).value, Last(acts));
    }
  }

  /**
   * However sends, workers, retries, sweeps, deletions and merges interleave: a run ever created has exactly one
   * -1 row and at most one +1 row, owned by the same user; while the run exists, the refund is there iff it
   * failed, and both rows belong to the run's owner.
   */
  lemma OneChargeOneRefund(acts: seq<Action>, run: Id)
    requires Exec(Init(), acts).Some? && run in Exec(Init(), acts).value.created
    ensures var s := Exec(Init(), acts).value;
            exists c :: RowOf(s.db.ledger, c, Charge, run) && s.db.ledger[c].delta == -1
              && (forall k | RowOf(s.db.ledger, k, Charge, run) :: k == c)
              && (forall k | RowOf(s.db.ledger, k, Refund, run) ::
                    s.db.ledger[k].delta == 1 && s.db.ledger[k].owner == s.db.ledger[c].owner)
              && (run in s.db.runs ==> s.db.ledger[c].owner == s.db.runs[run].owner)
    ensures var s := Exec(Init(), acts).value;
            && (forall j, k | RowOf(s.db.ledger, j, Refund, run) && RowOf(s.db.ledger, k, Refund, run) :: j == k)
            && (run in s.db.runs ==> (s.db.runs[run].status.Failed? <==> HasRow(s.db.ledger, Refund, run)))
  {
    PaidHolds(acts);
    var s := Exec(Init(), acts).value;
    var c :| RowOf(s.db.ledger, c, Charge, run);
    assert s.db.ledger[c].delta == -1;
  }

  /** A run that is done or failed stays what it is, for as long as it exists. */
  lemma FinalStays(acts: seq<Action>, a: Action, run: Id)
    requires Exec(Init(), acts).Some? && Enabled(Exec(Init(), acts).value, a)
    requires var s := Exec(Init(), acts).value; run in s.db.runs && !s.db.runs[run].status.Running?
    ensures var s := Exec(Init(), acts).value;
            var s' := Apply(s, a);
            run in s'.db.runs ==> s'.db.runs[run].status == s.db.runs[run].status
  {
    SchemaHolds(acts);
    RunsStep(Exec(Init(), acts).value, a);
  }

  // ---- When a failure can be recorded ------------------------------------------------------------------

  /** CHECK (credits >= 0) and the width of the column. */
  predicate BalancesOk(users: map<Id, User>) {
    forall u | u in users :: CreditsOk(users[u].credits)
  }

  lemma BalancesHold(acts: seq<Action>)
    requires Exec(Init(), acts).Some?
    ensures BalancesOk(Exec(Init(), acts).value.db.users)
  {
    SchemaHolds(acts);
  }

  lemma FailCommitsIff(db: DB, run: Id, owner: Id)
    requires BalancesOk(db.users) && run in db.runs && db.runs[run].status.Running?
    ensures FinalizeFailed(db, run, owner).Commit? <==> owner in db.users && db.users[owner].credits < MAX_INT4
    ensures FinalizeFailed(db, run, owner).Rollback? <==> !FinalizeFailed(db, run, owner).Commit?
  {
  }

  /**
   * In every reachable state a worker fails and refunds its running run iff the owner it read still exists and has
   * room on the balance.
   */
  lemma FailSettlesIff(acts: seq<Action>, w: Snapshot)
    requires Exec(Init(), acts).Some?
    requires var s := Exec(Init(), acts).value; w.run in s.db.runs && s.db.runs[w.run].status.Running?
    ensures var s := Exec(Init(), acts).value;
            TxOf(s.db, Fail(w)).Commit? <==> w.owner in s.db.users && s.db.users[w.owner].credits < MAX_INT4
  {
    var s := Exec(Init(), acts).value;
    BalancesHold(acts);
    FailCommitsIff(s.db, w.run, w.owner);
  }

  /** Ids are not used twice: who is gone stays gone. */
  lemma {:induction false} GoneStaysGone(s: System, more: seq<Action>, u: Id)
    requires Inv(s) && u < s.db.nextId && u !in s.db.users && Exec(s, more).Some?
    ensures var s' := Exec(s, more).value; Inv(s') && u < s'.db.nextId && u !in s'.db.users
  {
    if more == [] {
    } else {
      GoneStaysGone(s, Front(more), u);
      var m := Exec(s, Front(more)).value;
      Step(m, Last(more));
      FlightStep(m, Last(more));
    }
  }

  /** A worker whose owner was folded away never fails its run, whatever happens later. */
  lemma StaleWorkerNeverFails(acts: seq<Action>, w: Snapshot, more: seq<Action>)
    requires Exec(Init(), acts).Some?
    requires var s := Exec(Init(), acts).value; w in s.workers && w.owner !in s.db.users
    requires Exec(Exec(Init(), acts).value, more).Some?
    ensures !TxOf(Exec(Exec(Init(), acts).value, more).value.db, Fail(w)).Commit?
  {
    var s := Exec(Init(), acts).value;
    SchemaHolds(acts);
    GoneStaysGone(s, more, w.owner);
    FailEffect(Exec(s, more).value.db, w.run, w.owner);
  }
}
