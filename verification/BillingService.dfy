// Purchases, coupons and admin grants, statement by statement.
module BillingService {
  import opened Prelude
  import opened Tables
  import opened Transactions
  import opened Database
  import opened ChatController
  import opened Outcomes

  method PurchaseStatements(db: Database, event: string, session: string, u: Id, amount: int)
      returns (r: Result<bool, Violation>)
    modifies db
    ensures Ran(Purchased(old(db.State()), event, session, u, amount), old(db.State()), db.State(),
                r.Ok?, r.Ok? && r.value)
  {
    var seen := db.InsertStripeEvent(event);
    if !seen {
      assert db.stripeEvents == old(db.stripeEvents);
      return Ok(false);
    }
    var _ :- db.AddCredits(u, amount);
    var _ :- db.InsertLedger(u, amount, Purchase, OfSession(session));
    return Ok(true);
  }

  /** A completed checkout grants once per event; an error makes the sender deliver again later. */
  method HandleWebhook(db: Database, event: string, session: string, u: Id, amount: int) returns (ok: bool)
    modifies db
    ensures db.State() == After(old(db.State()), Purchased(old(db.State()), event, session, u, amount))
    ensures ok <==> !Purchased(old(db.State()), event, session, u, amount).Rollback?
    ensures ok <==> event in old(db.stripeEvents) || Fits(old(db.State()), u, amount)
    ensures ok && event !in old(db.stripeEvents) ==>
              && Credited(old(db.users), old(db.ledger), db.users, db.ledger, u, amount, Purchase, OfSession(session))
              && db.stripeEvents == old(db.stripeEvents) + {event}
  {
    PurchaseOutcome(db.State(), event, session, u, amount);
    var begin := db.State();
    var r := PurchaseStatements(db, event, session, u, amount);
    ok := r.Ok?;
    if r.Err? { db.Rollback(begin); }
  }

  datatype RedeemError = AlreadyRedeemed | Rejected(violation: Violation)

  method RedeemStatements(db: Database, u: Id, code: string, amount: int) returns (r: Result<int, RedeemError>)
    modifies db
    ensures Ran(Redeemed(old(db.State()), u, code, amount), old(db.State()), db.State(), r.Ok?, r.Ok?)
    ensures r.Ok? ==> u in db.users && r.value == db.users[u].credits
    ensures r == Err(AlreadyRedeemed) <==> (u, code) in old(db.redemptions)
  {
    var inserted := db.InsertRedemption(u, code);
    if inserted.Err? { return Err(Rejected(inserted.error)); }
    if !inserted.value { return Err(AlreadyRedeemed); }
    var row := db.AddCredits(u, amount);
    if row.Err? { return Err(Rejected(row.error)); }
    var entry := db.InsertLedger(u, amount, Coupon, OfCode(code));
    assert entry.Ok?;
    return Ok(row.value.value);
  }

  /** Each account redeems a code at most once. */
  method RedeemCode(db: Database, u: Id, code: string, amount: int) returns (r: Result<int, RedeemError>)
    modifies db
    ensures db.State() == After(old(db.State()), Redeemed(old(db.State()), u, code, amount))
    ensures r.Ok? <==> (u, code) !in old(db.redemptions) && Fits(old(db.State()), u, amount)
    ensures r.Ok? ==>
              && Credited(old(db.users), old(db.ledger), db.users, db.ledger, u, amount, Coupon, OfCode(code))
              && db.redemptions == old(db.redemptions) + {(u, code)}
    ensures r.Ok? ==> u in db.users && r.value == db.users[u].credits
    ensures r == Err(AlreadyRedeemed) <==> (u, code) in old(db.redemptions)
  {
    RedeemOutcome(db.State(), u, code, amount);
    var begin := db.State();
    r := RedeemStatements(db, u, code, amount);
    if r.Err? { db.Rollback(begin); }
  }

  method GrantStatements(db: Database, target: Id, delta: int, admin: Id) returns (r: Result<Option<int>, Violation>)
    modifies db
    ensures Ran(Granted(old(db.State()), target, delta, admin), old(db.State()), db.State(), r.Ok?, r.Ok?)
    ensures r.Ok? ==> target in db.users && r.value == Some(db.users[target].credits)
  {
    var row :- db.AddCredits(target, delta);
    var _ :- db.InsertLedger(target, delta, AdminGrant, OfAdmin(admin));
    return Ok(row);
  }

  /** An adjustment that would make the balance negative is refused as a whole. */
  method GrantCredits(db: Database, target: Id, delta: int, admin: Id) returns (credits: Option<int>)
    modifies db
    ensures db.State() == After(old(db.State()), Granted(old(db.State()), target, delta, admin))
    ensures credits.Some? <==> Fits(old(db.State()), target, delta)
    ensures credits.Some? ==>
              Credited(old(db.users), old(db.ledger), db.users, db.ledger, target, delta, AdminGrant, OfAdmin(admin))
    ensures credits.Some? ==> target in db.users && credits.value == db.users[target].credits
  {
    GrantOutcome(db.State(), target, delta, admin);
    var begin := db.State();
    var r := GrantStatements(db, target, delta, admin);
    if r.Err? {
      db.Rollback(begin);
      return None;
    }
    return r.value;
  }
}
