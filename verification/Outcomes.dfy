// What the transactions on money and runs come to for the caller: when they commit, and what is different then.
module Outcomes {
  import opened Prelude
  import opened Tables
  import opened Transactions

  /** The user exists and the balance can move by `delta`. */
  predicate Fits(db: DB, u: Id, delta: int) {
    u in db.users && 0 <= db.users[u].credits + delta <= 2_147_483_647
  }

  /** One balance moved by `delta`, one ledger row says so; no other account and no other column changed. */
  ghost predicate Credited(users: map<Id, User>, ledger: seq<LedgerRow>, after: map<Id, User>, rows: seq<LedgerRow>,
                           u: Id, delta: int, reason: Reason, ref: Ref)
  {
    && after.Keys == users.Keys
    && u in users && after[u].credits == users[u].credits + delta
    && (forall v | v in users :: v in after && after[v] == users[v].(credits := after[v].credits))
    && (forall v | v in users && v != u :: after[v].credits == users[v].credits)
    && |rows| == |ledger| + 1 && ledger <= rows
    && Last(rows).owner == u && Last(rows).delta == delta && Last(rows).reason == reason && Last(rows).ref == ref
  }

  /** Nothing of chats, uploads and keys changed. */
  ghost predicate ChatsKept(db: DB, d: DB) {
    && d.threads == db.threads && d.messages == db.messages && d.usage == db.usage
    && d.uploads == db.uploads && d.keys == db.keys && d.nextId == db.nextId
  }

  /** A purchase commits once per event, for an account with room. */
  lemma PurchaseOutcome(db: DB, event: string, session: string, u: Id, amount: int)
    ensures var tx := Purchased(db, event, session, u, amount);
            && (tx.Refuse? <==> event in db.stripeEvents)
            && (tx.Commit? <==> event !in db.stripeEvents && Fits(db, u, amount))
            && (tx.Commit? ==>
                  && Credited(db.users, db.ledger, tx.db.users, tx.db.ledger, u, amount, Purchase, OfSession(session))
                  && tx.db.stripeEvents == db.stripeEvents + {event} && tx.db.redemptions == db.redemptions
                  && tx.db.runs == db.runs && ChatsKept(db, tx.db))
  {
  }

  /** A redemption commits once per account and code. */
  lemma RedeemOutcome(db: DB, u: Id, code: string, amount: int)
    ensures var tx := Redeemed(db, u, code, amount);
            && !tx.Refuse?
            && (tx.Commit? <==> (u, code) !in db.redemptions && Fits(db, u, amount))
            && (tx.Commit? ==>
                  && Credited(db.users, db.ledger, tx.db.users, tx.db.ledger, u, amount, Coupon, OfCode(code))
                  && tx.db.redemptions == db.redemptions + {(u, code)} && tx.db.stripeEvents == db.stripeEvents
                  && tx.db.runs == db.runs && ChatsKept(db, tx.db))
  {
  }

  /** An adjustment commits whenever the balance stays in its range. */
  lemma GrantOutcome(db: DB, u: Id, delta: int, admin: Id)
    ensures var tx := Granted(db, u, delta, admin);
            && !tx.Refuse?
            && (tx.Commit? <==> Fits(db, u, delta))
            && (tx.Commit? ==>
                  && Credited(db.users, db.ledger, tx.db.users, tx.db.ledger, u, delta, AdminGrant, OfAdmin(admin))
                  && tx.db.redemptions == db.redemptions && tx.db.stripeEvents == db.stripeEvents
                  && tx.db.runs == db.runs && ChatsKept(db, tx.db))
  {
  }

  /** A failure refunds one credit and closes the one run, if it runs and the owner's balance has room. */
  lemma FailOutcome(db: DB, run: Id, owner: Id)
    ensures var tx := FinalizeFailed(db, run, owner);
            var running := run in db.runs && db.runs[run].status.Running?;
            && (tx.Refuse? <==> !running)
            && (tx.Commit? <==> running && Fits(db, owner, 1))
            && (tx.Commit? ==>
                  && Credited(db.users, db.ledger, tx.db.users, tx.db.ledger, owner, 1, Refund, OfRun(run))
                  && tx.db.runs == db.runs[run := db.runs[run].(status := Failed)]
                  && tx.db.redemptions == db.redemptions && tx.db.stripeEvents == db.stripeEvents
                  && ChatsKept(db, tx.db))
  {
  }

  /** An answer goes in iff its thread exists; it closes its own run if that runs, and touches no money. */
  lemma CompleteOutcome(db: DB, run: Id, thread: Id, text: string)
    ensures var tx := FinalizeDone(db, run, thread, text);
            && !tx.Refuse?
            && (tx.Commit? <==> thread in db.threads)
            && (tx.Commit? ==>
                  && |tx.db.messages| == |db.messages| + 1 && db.messages <= tx.db.messages
                  && Last(tx.db.messages).thread == thread && Last(tx.db.messages).role.FromAssistant?
                  && Last(tx.db.messages).content == text
                  && tx.db.runs.Keys == db.runs.Keys
                  && (forall r | r in db.runs ::
                        tx.db.runs[r] == if r == run && db.runs[r].status.Running? then db.runs[r].(status := Done)
                                         else db.runs[r])
                  && tx.db == db.(messages := tx.db.messages, runs := tx.db.runs))
  {
  }

  /** Metering adds one row of its run, and needs run, thread and owner to exist. */
  lemma MeterOutcome(db: DB, owner: Id, thread: Id, run: Id, cost: nat)
    ensures var tx := RecordUsage(db, owner, thread, run, cost);
            && !tx.Refuse?
            && (tx.Commit? <==> owner in db.users && thread in db.threads && run in db.runs)
            && (tx.Commit? ==>
                  && |tx.db.usage| == |db.usage| + 1 && db.usage <= tx.db.usage
                  && Last(tx.db.usage).owner == owner && Last(tx.db.usage).thread == thread
                  && Last(tx.db.usage).run == run && Last(tx.db.usage).cost == cost
                  && tx.db == db.(usage := tx.db.usage))
  {
  }

  /** Linking moves the caller's own listed uploads to the thread and nobody else's. */
  lemma AttachOutcome(db: DB, u: Id, t: Id, ids: set<Id>)
    ensures var tx := Attach(db, u, t, ids);
            tx.Commit? ==>
              && tx.db.uploads.Keys == db.uploads.Keys
              && (forall p | p in db.uploads ::
                    && tx.db.uploads[p].owner == db.uploads[p].owner
                    && (p in ids && db.uploads[p].owner == u ==> tx.db.uploads[p].thread == Some(t))
                    && (p !in ids || db.uploads[p].owner != u ==> tx.db.uploads[p] == db.uploads[p]))
              && tx.db == db.(uploads := tx.db.uploads)
  {
  }
}
