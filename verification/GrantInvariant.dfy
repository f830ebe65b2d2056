// Idempotent grants over whole histories of repeated webhook deliveries, redemptions and account merges.
module GrantInvariant {
  import opened Prelude
  import opened Tables
  import opened Transactions
  import opened ServiceSystem
  import opened SchemaInvariant
  import opened LedgerInvariant

  // ---- Purchases ------------------------------------------------------------------------------

  lemma CountReasonSnoc(ledger: seq<LedgerRow>, row: LedgerRow, reason: Reason)
    ensures CountReason(ledger + [row], reason) == CountReason(ledger, reason) + (if row.reason == reason then 1 else 0)
  {
    assert Front(ledger + [row]) == ledger;
  }

  lemma {:induction false} MovedReasons(ledger: seq<LedgerRow>, l: Id, w: Id, reason: Reason)
    ensures CountReason(MoveRows(ledger, l, w), reason) == CountReason(ledger, reason)
  {
    if ledger == [] {
    } else {
      MovedReasons(Front(ledger), l, w, reason);
      assert Front(MoveRows(ledger, l, w)) == MoveRows(Front(ledger), l, w);
    }
  }

  ghost predicate PurchasesOk(db: DB) {
    CountReason(db.ledger, Purchase) == |db.stripeEvents|
  }

  /** The row a posting transaction appends. */
  function RowFor(db: DB, a: Action): (row: LedgerRow)
    requires Posts(a)
  {
    match a
    case CommitSend(q, _, _) => LedgerRow(q.user, -1, Charge, OfRun(db.nextId))
    case Fail(w) => LedgerRow(w.owner, 1, Refund, OfRun(w.run))
    case Webhook(_, session, u, amount) => LedgerRow(u, amount, Purchase, OfSession(session))
    case Redeem(u, code, amount) => LedgerRow(u, amount, Coupon, OfCode(code))
    case Grant(u, delta, admin) => LedgerRow(u, delta, AdminGrant, OfAdmin(admin))
  }

  lemma PostingRow(db: DB, a: Action)
    requires Posts(a)
    ensures TxOf(db, a).Commit? ==>
              && TxOf(db, a).db.ledger == db.ledger + [RowFor(db, a)]
              && TxOf(db, a).db.users.Keys == db.users.Keys
              && RowFor(db, a).owner in db.users
  {
    PostingIsPost(db, a);
  }

  lemma PostingMarks(db: DB, a: Action)
    requires Posts(a)
    ensures TxOf(db, a).Commit? ==>
              && TxOf(db, a).db.stripeEvents == db.stripeEvents + (if a.Webhook? then {a.event} else {})
              && (a.Webhook? ==> a.event !in db.stripeEvents)
              && TxOf(db, a).db.redemptions == db.redemptions + (if a.Redeem? then {(a.user, a.code)} else {})
              && (a.Redeem? ==> (a.user, a.code) !in db.redemptions)
  {
  }

  lemma OthersKeepMarks(db: DB, a: Action)
    requires !Posts(a) && !a.SignIn?
    ensures var d := After(db, TxOf(db, a));
            d.ledger == db.ledger && d.stripeEvents == db.stripeEvents && d.redemptions == db.redemptions
            && d.users == db.users
  {
  }

  lemma LoginMarks(db: DB, c: Claim)
    ensures After(db, Login(db, c)).stripeEvents == db.stripeEvents
  {
  }

  lemma LoginPurchases(db: DB, c: Claim)
    requires PurchasesOk(db)
    ensures PurchasesOk(After(db, Login(db, c)))
  {
    var byIdentity, byEmail := ByIdentity(db, c), ByEmail(db, c);
    LoginMarks(db, c);
    LoginRows(db, c);
    if NeedsMerge(byIdentity, byEmail) {
      MovedReasons(db.ledger, byIdentity.value, byEmail.value, Purchase);
    }
  }

  lemma PostPurchases(db: DB, a: Action)
    requires PurchasesOk(db) && Posts(a)
    ensures PurchasesOk(After(db, TxOf(db, a)))
  {
    PostingRow(db, a);
    PostingMarks(db, a);
    if TxOf(db, a).Commit? {
      CountReasonSnoc(db.ledger, RowFor(db, a), Purchase);
    } else {
      PostingIsPost(db, a);
    }
  }

  lemma PurchasesStep(s: System, a: Action)
    requires PurchasesOk(s.db) && Enabled(s, a)
    ensures PurchasesOk(Apply(s, a).db)
  {
    if a.SignIn? {
      LoginPurchases(s.db, a.claim);
    } else if Posts(a) {
      PostPurchases(s.db, a);
    } else {
      OthersKeepMarks(s.db, a);
    }
  }

  /** How often a history granted credits for one Stripe event. */
  ghost function GrantsFor(acts: seq<Action>, event: string): (n: nat) {
    if acts == [] then 0
    else
      var before := Exec(Init(), Front(acts));
      var a := Last(acts);
      GrantsFor(Front(acts), event)
      + (if before.Some? && a.Webhook? && a.event == event && TxOf(before.value.db, a).Commit? then 1 else 0)
  }

  /**
   * Purchase rows are as many as recorded Stripe events, and over any history an event has granted exactly once
   * if it is recorded and never otherwise, however often it was delivered.
   */
  lemma {:induction false} PurchasesOncePerEvent(acts: seq<Action>, event: string)
    requires Exec(Init(), acts).Some?
    ensures var db := Exec(Init(), acts).value.db;
            && CountReason(db.ledger, Purchase) == |db.stripeEvents|
            && GrantsFor(acts, event) == (if event in db.stripeEvents then 1 else 0)
  {
    if acts == [] {
    } else {
      var s, a := Exec(Init(), Front(acts)).value, Last(acts);
      PurchasesOncePerEvent(Front(acts), event);
      PurchasesStep(s, a);
      EventStep(s, a, event);
    }
  }

  lemma EventStep(s: System, a: Action, event: string)
    requires Enabled(s, a)
    ensures event in Apply(s, a).db.stripeEvents <==>
              event in s.db.stripeEvents || (a.Webhook? && a.event == event && TxOf(s.db, a).Commit?)
    ensures a.Webhook? && a.event == event && TxOf(s.db, a).Commit? ==> event !in s.db.stripeEvents
  {
    if a.SignIn? {
      LoginMarks(s.db, a.claim);
    } else if Posts(a) {
      PostingMarks(s.db, a);
    } else {
      OthersKeepMarks(s.db, a);
    }
  }

  // ---- Coupons -----------------------------------------------------------------------------------

  /** A redemption is recorded iff the user holds a coupon row, and there is at most one per folded account. */
  ghost predicate CouponsOk(s: System) {
    && (forall u | u in s.db.users :: Folded(s, u) >= 1)
    && (forall u, code | u in s.db.users ::
          && ((u, code) in s.db.redemptions <==> CountCoupon(s.db.ledger, u, code) >= 1)
          && CountCoupon(s.db.ledger, u, code) <= Folded(s, u))
  }

  lemma CouponSnoc(ledger: seq<LedgerRow>, row: LedgerRow, u: Id, code: string)
    ensures CountCoupon(ledger + [row], u, code) ==
              CountCoupon(ledger, u, code)
              + (if row.owner == u && row.reason.Coupon? && row.ref == OfCode(code) then 1 else 0)
  {
    assert Front(ledger + [row]) == ledger;
  }

  lemma {:induction false} MovedCoupons(ledger: seq<LedgerRow>, l: Id, w: Id, u: Id, code: string)
    requires l != w && u != l
    ensures CountCoupon(MoveRows(ledger, l, w), u, code) ==
              CountCoupon(ledger, u, code) + (if u == w then CountCoupon(ledger, l, code) else 0)
  {
    if ledger == [] {
    } else {
      MovedCoupons(Front(ledger), l, w, u, code);
      assert Front(MoveRows(ledger, l, w)) == MoveRows(Front(ledger), l, w);
    }
  }

  lemma {:induction false} NoRowsNoCoupons(ledger: seq<LedgerRow>, u: Id, code: string)
    requires forall k | 0 <= k < |ledger| :: ledger[k].owner != u
    ensures CountCoupon(ledger, u, code) == 0
  {
    if ledger == [] {
    } else {
      NoRowsNoCoupons(Front(ledger), u, code);
    }
  }

  /** The redemption a row stands for. */
  function MarkOf(row: LedgerRow): (marks: set<(Id, string)>) {
    if row.reason.Coupon? && row.ref.OfCode? then {(row.owner, row.ref.code)} else {}
  }

  lemma AppendedCoupons(s: System, s': System, row: LedgerRow)
    requires CouponsOk(s) && s'.folded == s.folded && s'.db.users.Keys == s.db.users.Keys
    requires s'.db.ledger == s.db.ledger + [row] && s'.db.redemptions == s.db.redemptions + MarkOf(row)
    requires MarkOf(row) !! s.db.redemptions && row.owner in s.db.users
    ensures CouponsOk(s')
  {
    forall u, code | u in s'.db.users
      ensures ((u, code) in s'.db.redemptions <==> CountCoupon(s'.db.ledger, u, code) >= 1)
              && CountCoupon(s'.db.ledger, u, code) <= Folded(s', u)
    {
      CouponSnoc(s.db.ledger, row, u, code);
    }
  }

  lemma PostCoupons(s: System, a: Action)
    requires CouponsOk(s) && Enabled(s, a) && Posts(a)
    ensures CouponsOk(Apply(s, a))
  {
    PostingRow(s.db, a);
    PostingMarks(s.db, a);
    if TxOf(s.db, a).Commit? {
      AppendedCoupons(s, Apply(s, a), RowFor(s.db, a));
    }
  }

  lemma MergeCoupons(s: System, s': System, l: Id, w: Id)
    requires CouponsOk(s) && l in s.db.users && w in s.db.users && l != w
    requires s'.db.ledger == MoveRows(s.db.ledger, l, w)
    requires s'.db.redemptions == MovedRedemptions(s.db.redemptions, l, w)
    requires s'.db.users.Keys == s.db.users.Keys - {l}
    requires s'.folded == (s.folded - {l})[w := Folded(s, w) + Folded(s, l)]
    ensures CouponsOk(s')
  {
    forall u, code | u in s'.db.users
      ensures ((u, code) in s'.db.redemptions <==> CountCoupon(s'.db.ledger, u, code) >= 1)
              && CountCoupon(s'.db.ledger, u, code) <= Folded(s', u)
    {
      MovedCoupons(s.db.ledger, l, w, u, code);
      assert (u, code) in s'.db.redemptions <==>
          (u, code) in s.db.redemptions || (u == w && (l, code) in s.db.redemptions);
      assert (l, code) in s.db.redemptions <==> CountCoupon(s.db.ledger, l, code) >= 1;
    }
  }

  /** The next id owns nothing yet. */
  ghost predicate NextOwnsNothing(db: DB) {
    && (forall k | 0 <= k < |db.ledger| :: db.ledger[k].owner != db.nextId)
    && (forall k | k in db.redemptions :: k.0 != db.nextId)
  }

  lemma NewCoupons(s: System, s': System)
    requires NextOwnsNothing(s.db) && CouponsOk(s)
    requires s'.db.ledger == s.db.ledger && s'.db.redemptions == s.db.redemptions
    requires s'.db.users.Keys == s.db.users.Keys + {s.db.nextId} && s'.folded == s.folded[s.db.nextId := 1]
    ensures CouponsOk(s')
  {
    forall code ensures CountCoupon(s.db.ledger, s.db.nextId, code) == 0 {
      NoRowsNoCoupons(s.db.ledger, s.db.nextId, code);
    }
  }

  lemma SameCoupons(s: System, s': System)
    requires CouponsOk(s) && s'.folded == s.folded
    requires s'.db.ledger == s.db.ledger && s'.db.redemptions == s.db.redemptions
    requires s'.db.users.Keys == s.db.users.Keys
    ensures CouponsOk(s')
  {
  }

  /** What a sign-in does to the rows that matter here. */
  ghost predicate SignInShape(s: System, s': System, signedIn: bool, byIdentity: Option<Id>, byEmail: Option<Id>) {
    if !signedIn then s' == s
    else if NeedsMerge(byIdentity, byEmail) then
      && byIdentity.value in s.db.users && byEmail.value in s.db.users
      && s'.db.users.Keys == s.db.users.Keys - {byIdentity.value}
      && s'.db.ledger == MoveRows(s.db.ledger, byIdentity.value, byEmail.value)
      && s'.db.redemptions == MovedRedemptions(s.db.redemptions, byIdentity.value, byEmail.value)
      && s'.folded == (s.folded - {byIdentity.value})
                      [byEmail.value := Folded(s, byEmail.value) + Folded(s, byIdentity.value)]
    else
      && s'.db.ledger == s.db.ledger && s'.db.redemptions == s.db.redemptions
      && if byIdentity.None? && byEmail.None?
         then s'.db.users.Keys == s.db.users.Keys + {s.db.nextId} && s'.folded == s.folded[s.db.nextId := 1]
         else s'.db.users.Keys == s.db.users.Keys && s'.folded == s.folded
  }

  lemma UpsertedShape(db: DB, c: Claim, target: Option<Id>)
    requires target.Some? ==> target.value in db.users
    ensures Upserted(db, c, target).Commit? ==>
              && Upserted(db, c, target).db.ledger == db.ledger
              && Upserted(db, c, target).db.redemptions == db.redemptions
              && Upserted(db, c, target).db.users.Keys ==
                   db.users.Keys + (if target.None? then {db.nextId} else {})
  {
  }

  lemma SignInHasShape(s: System, c: Claim)
    ensures SignInShape(s, Apply(s, SignIn(c)), Login(s.db, c).Commit?, ByIdentity(s.db, c), ByEmail(s.db, c))
  {
    var byIdentity, byEmail := ByIdentity(s.db, c), ByEmail(s.db, c);
    var target := if byEmail.Some? then byEmail else byIdentity;
    if NeedsMerge(byIdentity, byEmail) {
      UpsertedShape(Merged(s.db, byIdentity.value, byEmail.value), c, target);
    } else {
      UpsertedShape(s.db, c, target);
    }
  }

  lemma CouponsAfterSignIn(s: System, s': System, signedIn: bool, byIdentity: Option<Id>, byEmail: Option<Id>)
    requires NextOwnsNothing(s.db) && CouponsOk(s)
    requires SignInShape(s, s', signedIn, byIdentity, byEmail)
    ensures CouponsOk(s')
  {
    if signedIn {
      if NeedsMerge(byIdentity, byEmail) {
        MergeCoupons(s, s', byIdentity.value, byEmail.value);
      } else if byIdentity.None? && byEmail.None? {
        NewCoupons(s, s');
      } else {
        SameCoupons(s, s');
      }
    }
  }

  lemma SchemaNextOwnsNothing(db: DB)
    requires Schema(db)
    ensures NextOwnsNothing(db)
  {
  }

  lemma CouponsStep(s: System, a: Action)
    requires Inv(s) && CouponsOk(s) && Enabled(s, a)
    ensures CouponsOk(Apply(s, a))
  {
    if a.SignIn? {
      SchemaNextOwnsNothing(s.db);
      SignInHasShape(s, a.claim);
      CouponsAfterSignIn(s, Apply(s, a), Login(s.db, a.claim).Commit?,
                         ByIdentity(s.db, a.claim), ByEmail(s.db, a.claim));
    } else if Posts(a) {
      PostCoupons(s, a);
    } else {
      OthersKeepMarks(s.db, a);
      SameCoupons(s, Apply(s, a));
    }
  }

  /**
   * Over any history of redemptions and merges: (user, code) is redeemed iff the user holds a coupon row for it,
   * and holds no more of them than original accounts were folded into the user.
   */
  lemma {:induction false} CouponsMatchRedemptions(acts: seq<Action>)
    requires Exec(Init(), acts).Some?
    ensures CouponsOk(Exec(Init(), acts).value)
  {
    if acts == [] {
    } else {
      CouponsMatchRedemptions(Front(acts));
      SchemaHolds(Front(acts));
      CouponsStep(Exec(Init(), Front(acts)).value, Last(acts));
    }
  }
}
