// Histories in which the service does what its own comments say it does not: one per disagreement, each a
// schedule from the empty tables.
module Counterexamples {
  import opened Prelude
  import opened Tables
  import opened Transactions
  import opened ServiceSystem
  import opened SchemaInvariant
  import opened LedgerInvariant
  import opened Healing

  // ---- A failed run with an answer ----------------------------------------------------------------------

  /** One account with one thread; everything else as given. */
  function Story(nextId: Id, credits: int, ledger: seq<LedgerRow>, messages: seq<Message>, runs: map<Id, Run>,
                 sends: set<SendReq>, workers: set<Snapshot>, created: set<Id>): (s: System)
  {
    var user := User("mail", None, None, Google, "uid", credits, Member);
    System(Empty().(users := map[0 := user], threads := if nextId >= 2 then map[1 := Thread(0)] else map[],
                    runs := runs, messages := messages, ledger := ledger, nextId := nextId),
           sends, workers, created, map[0 := 1])
  }

  lemma StoryBegins()
    ensures Apply(Init(), SignIn(Claim(Google, "uid", "mail", None, None, false))) ==
              Story(1, 0, [], [], map[], {}, {}, {})
  {
    var c := Claim(Google, "uid", "mail", None, None, false);
    assert ByIdentity(Empty(), c) == None && ByEmail(Empty(), c) == None;
    assert Login(Empty(), c).Commit?;
  }

  lemma StoryChecks(granted: LedgerRow)
    requires granted == LedgerRow(0, 1, AdminGrant, OfAdmin(0))
    ensures Apply(Story(1, 0, [], [], map[], {}, {}, {}), NewThread(0)) == Story(2, 0, [], [], map[], {}, {}, {})
    ensures Apply(Story(2, 0, [], [], map[], {}, {}, {}), Grant(0, 1, 0)) ==
              Story(2, 1, [granted], [], map[], {}, {}, {})
    ensures Enabled(Story(2, 1, [granted], [], map[], {}, {}, {}), CheckOwner(0, 1))
    ensures Apply(Story(2, 1, [granted], [], map[], {}, {}, {}), CheckOwner(0, 1)) ==
              Story(2, 1, [granted], [], map[], {SendReq(0, 1, false)}, {}, {})
    ensures Enabled(Story(2, 1, [granted], [], map[], {SendReq(0, 1, false)}, {}, {}), CheckIdle(SendReq(0, 1, false)))
    ensures Apply(Story(2, 1, [granted], [], map[], {SendReq(0, 1, false)}, {}, {}), CheckIdle(SendReq(0, 1, false))) ==
              Story(2, 1, [granted], [], map[], {SendReq(0, 1, false), SendReq(0, 1, true)}, {}, {})
  {
    assert !Busy(Story(2, 1, [granted], [], map[], {SendReq(0, 1, false)}, {}, {}).db.runs, 1);
  }

  lemma StoryCommits(granted: LedgerRow, charged: LedgerRow, run: Run, sends: set<SendReq>)
    requires charged == LedgerRow(0, -1, Charge, OfRun(2)) && run == Run(1, 0, "model", Running)
    requires SendReq(0, 1, true) in sends
    ensures Apply(Story(2, 1, [granted], [], map[], sends, {}, {}),
                  CommitSend(SendReq(0, 1, true), "question", "model")) ==
              Story(3, 0, [granted, charged], [Message(1, FromUser, "question")], map[2 := run], sends, {}, {2})
  {
    assert !Busy(Story(2, 1, [granted], [], map[], sends, {}, {}).db.runs, 1);
  }

  lemma StoryFails(ledger: seq<LedgerRow>, messages: seq<Message>, run: Run, sends: set<SendReq>, w: Snapshot)
    requires run == Run(1, 0, "model", Running) && w == Snapshot(2, 1, 0)
    ensures Enabled(Story(3, 0, ledger, messages, map[2 := run], sends, {}, {2}), LoadRun(2))
    ensures Apply(Story(3, 0, ledger, messages, map[2 := run], sends, {}, {2}), LoadRun(2)) ==
              Story(3, 0, ledger, messages, map[2 := run], sends, {w}, {2})
    ensures Apply(Story(3, 0, ledger, messages, map[2 := run], sends, {w}, {2}), Fail(w)) ==
              Story(3, 1, ledger + [LedgerRow(0, 1, Refund, OfRun(2))], messages, map[2 := run.(status := Failed)],
                    sends, {w}, {2})
  {
  }

  lemma StoryAnswers(ledger: seq<LedgerRow>, messages: seq<Message>, run: Run, sends: set<SendReq>, w: Snapshot)
    requires run == Run(1, 0, "model", Failed) && w == Snapshot(2, 1, 0)
    ensures Apply(Story(3, 1, ledger, messages, map[2 := run], sends, {w}, {2}), Complete(w, "answer")) ==
              Story(3, 1, ledger, messages + [Message(1, FromAssistant, "answer")], map[2 := run], sends, {w}, {2})
  {
  }

  /** Signed in, granted a credit, sent a question. */
  lemma StoryUntilSent() returns (acts: seq<Action>)
    ensures Exec(Init(), acts) ==
              Some(Story(3, 0, [LedgerRow(0, 1, AdminGrant, OfAdmin(0)), LedgerRow(0, -1, Charge, OfRun(2))],
                         [Message(1, FromUser, "question")], map[2 := Run(1, 0, "model", Running)],
                         {SendReq(0, 1, false), SendReq(0, 1, true)}, {}, {2}))
  {
    StoryBegins();
    StoryChecks(LedgerRow(0, 1, AdminGrant, OfAdmin(0)));
    StoryCommits(LedgerRow(0, 1, AdminGrant, OfAdmin(0)), LedgerRow(0, -1, Charge, OfRun(2)),
                 Run(1, 0, "model", Running), {SendReq(0, 1, false), SendReq(0, 1, true)});
    var s;
    acts, s := Then([], Init(), SignIn(Claim(Google, "uid", "mail", None, None, false)));
    acts, s := Then(acts, s, NewThread(0));
    acts, s := Then(acts, s, Grant(0, 1, 0));
    acts, s := Then(acts, s, CheckOwner(0, 1));
    acts, s := Then(acts, s, CheckIdle(SendReq(0, 1, false)));
    acts, s := Then(acts, s, CommitSend(SendReq(0, 1, true), "question", "model"));
  }

  /**
   * It does happen: a sweep fails and refunds a run whose worker is still alive, the worker then delivers the
   * answer, and the failed, refunded run has one.
   */
  lemma FailedRunCanHaveAnswer() returns (acts: seq<Action>, run: Id)
    ensures Exec(Init(), acts).Some?
    ensures var db := Exec(Init(), acts).value.db;
            && run in db.runs && db.runs[run].status.Failed?
            && HasRow(db.ledger, Refund, run)
            && db.messages != [] && Last(db.messages) == Message(db.runs[run].thread, FromAssistant, "answer")
  {
    var ledger := [LedgerRow(0, 1, AdminGrant, OfAdmin(0)), LedgerRow(0, -1, Charge, OfRun(2))];
    var messages := [Message(1, FromUser, "question")];
    var w := Snapshot(2, 1, 0);
    StoryFails(ledger, messages, Run(1, 0, "model", Running), {SendReq(0, 1, false), SendReq(0, 1, true)}, w);
    StoryAnswers(ledger + [LedgerRow(0, 1, Refund, OfRun(2))], messages, Run(1, 0, "model", Failed),
                 {SendReq(0, 1, false), SendReq(0, 1, true)}, w);
    acts := StoryUntilSent();
    var s := Exec(Init(), acts).value;
    acts, s := Then(acts, s, LoadRun(2));
    acts, s := Then(acts, s, Fail(w));
    acts, s := Then(acts, s, Complete(w, "answer"));
    assert RowOf(s.db.ledger, 2, Refund, 2);
    run := 2;
  }

  // ---- A run that its worker cannot fail -----------------------------------------------------------------

  /** The first sign-in of somebody new. */
  lemma NewAccount(db: DB, c: Claim)
    requires Free(db, c, None)
    ensures Login(db, c) ==
              Commit(db.(users := db.users[db.nextId := User(c.email, c.name, c.image, c.provider, c.oauthId, 0,
                                                             if c.admin then Admin else Member)],
                         nextId := db.nextId + 1))
  {
  }

  /** What folding account `l` into account `w` leaves of a running run of `l`. */
  lemma FoldedAway(db: DB, c: Claim, l: Id, w: Id, run: Id)
    requires Schema(db) && l in db.users && w in db.users && l != w
    requires HasIdentity(db.users[l], c) && db.users[w].email == c.email
    requires db.users[l].credits + db.users[w].credits <= MAX_INT4
    requires run in db.runs && db.runs[run].status.Running?
    ensures var tx := Login(db, c);
            && tx.Commit? && l !in tx.db.users
            && run in tx.db.runs && tx.db.runs[run].status.Running?
  {
    IdentityUnique(db, c);
    AccountsAre(db, c);
    LoginTotal(db, c);
    LoginLosesNothing(db, c);
  }

  lemma StoryLoads(ledger: seq<LedgerRow>, messages: seq<Message>, run: Run, sends: set<SendReq>, w: Snapshot)
    requires run == Run(1, 0, "model", Running) && w == Snapshot(2, 1, 0)
    ensures Enabled(Story(3, 0, ledger, messages, map[2 := run], sends, {}, {2}), LoadRun(2))
    ensures Apply(Story(3, 0, ledger, messages, map[2 := run], sends, {}, {2}), LoadRun(2)) ==
              Story(3, 0, ledger, messages, map[2 := run], sends, {w}, {2})
  {
  }

  /** A worker reads its run, and the owner also has an account under another email. */
  lemma StoryUntilLoaded() returns (acts: seq<Action>, s: System)
    ensures Exec(Init(), acts) == Some(s) && Snapshot(2, 1, 0) in s.workers
    ensures s.db.users.Keys == {0, 3} && s.db.users[0].credits == 0 && s.db.users[3].credits == 0
    ensures s.db.users[0].provider == Google && s.db.users[0].oauthId == "uid" && s.db.users[3].email == "real mail"
    ensures 2 in s.db.runs && s.db.runs[2].status.Running?
  {
    var c := Claim(Github, "hub", "real mail", None, None, false);
    var ledger := [LedgerRow(0, 1, AdminGrant, OfAdmin(0)), LedgerRow(0, -1, Charge, OfRun(2))];
    var messages := [Message(1, FromUser, "question")];
    var sends := {SendReq(0, 1, false), SendReq(0, 1, true)};
    StoryLoads(ledger, messages, Run(1, 0, "model", Running), sends, Snapshot(2, 1, 0));
    acts := StoryUntilSent();
    s := Exec(Init(), acts).value;
    acts, s := Then(acts, s, LoadRun(2));
    NewAccount(s.db, c);
    acts, s := Then(acts, s, SignIn(c));
  }

  /**
   * A refund that cannot be made: the owner signs in and its account is folded into another while a worker holds
   * the run. The worker's failure transaction violates a foreign key, rolls back, and leaves the run running.
   */
  lemma FailCanBeRefused() returns (acts: seq<Action>, w: Snapshot)
    ensures Exec(Init(), acts).Some?
    ensures var s := Exec(Init(), acts).value;
            && w in s.workers && w.run in s.db.runs && s.db.runs[w.run].status.Running?
            && TxOf(s.db, Fail(w)).Rollback?
  {
    var c := Claim(Google, "uid", "real mail", None, None, false);
    w := Snapshot(2, 1, 0);
    var s;
    acts, s := StoryUntilLoaded();
    FoldedAwayStory(acts, s, c);
    acts, s := Then(acts, s, SignIn(c));
    NoOwnerNoRefund(s.db, w);
  }

  lemma FoldedAwayStory(acts: seq<Action>, s: System, c: Claim)
    requires Exec(Init(), acts) == Some(s) && c == Claim(Google, "uid", "real mail", None, None, false)
    requires s.db.users.Keys == {0, 3} && s.db.users[0].credits == 0 && s.db.users[3].credits == 0
    requires s.db.users[0].provider == Google && s.db.users[0].oauthId == "uid" && s.db.users[3].email == "real mail"
    requires 2 in s.db.runs && s.db.runs[2].status.Running?
    ensures var d := Apply(s, SignIn(c)).db; 0 !in d.users && 2 in d.runs && d.runs[2].status.Running?
    ensures Apply(s, SignIn(c)).workers == s.workers
  {
    SchemaHolds(acts);
    FoldedAway(s.db, c, 0, 3, 2);
  }

  lemma NoOwnerNoRefund(db: DB, w: Snapshot)
    requires w.owner !in db.users && w.run in db.runs && db.runs[w.run].status.Running?
    ensures TxOf(db, Fail(w)).Rollback?
  {
  }

  // ---- A sign-in that cannot heal ------------------------------------------------------------------------------

  /** Two purchases of this size, one for each account, do not fit one balance. */
  const BIG_PURCHASE: int := 0x4000_0000

  lemma PurchaseIs(db: DB, event: string, session: string, u: Id, amount: int)
    requires u in db.users && event !in db.stripeEvents && CreditsOk(db.users[u].credits + amount)
    ensures TxOf(db, Webhook(event, session, u, amount)).Commit?
    ensures var d := TxOf(db, Webhook(event, session, u, amount)).db;
            && d.users == db.users[u := db.users[u].(credits := db.users[u].credits + amount)]
            && d.stripeEvents == db.stripeEvents + {event}
  {
  }

  /** The same person signs in with two providers under two emails. */
  lemma TwoAccounts() returns (acts: seq<Action>, s: System)
    ensures Exec(Init(), acts) == Some(s) && s.db.stripeEvents == {}
    ensures forall k | 0 <= k < |acts| :: acts[k].SignIn?
    ensures s.db.users == map[0 := User("mail", None, None, Google, "uid", 0, Member),
                              1 := User("real mail", None, None, Github, "hub", 0, Member)]
  {
    var a := Claim(Google, "uid", "mail", None, None, false);
    var b := Claim(Github, "hub", "real mail", None, None, false);
    NewAccount(Empty(), a);
    acts, s := Then([], Init(), SignIn(a));
    NewAccount(s.db, b);
    acts, s := Then(acts, s, SignIn(b));
  }

  lemma Buy(acts: seq<Action>, s: System, event: string, session: string, u: Id)
      returns (acts': seq<Action>, s': System)
    requires Exec(Init(), acts) == Some(s)
    requires u in s.db.users && s.db.users[u].credits == 0 && event !in s.db.stripeEvents
    ensures acts' == acts + [Webhook(event, session, u, BIG_PURCHASE)] && Exec(Init(), acts') == Some(s')
    ensures s'.db.users == s.db.users[u := s.db.users[u].(credits := BIG_PURCHASE)]
    ensures s'.db.stripeEvents == s.db.stripeEvents + {event}
  {
    PurchaseIs(s.db, event, session, u, BIG_PURCHASE);
    acts', s' := Then(acts, s, Webhook(event, session, u, BIG_PURCHASE));
  }

  lemma BothBuy(acts: seq<Action>, s: System) returns (acts': seq<Action>, s': System)
    requires Exec(Init(), acts) == Some(s) && s.db.stripeEvents == {}
    requires forall k | 0 <= k < |acts| :: acts[k].SignIn?
    requires s.db.users == map[0 := User("mail", None, None, Google, "uid", 0, Member),
                               1 := User("real mail", None, None, Github, "hub", 0, Member)]
    ensures Exec(Init(), acts') == Some(s')
    ensures forall k | 0 <= k < |acts'| :: acts'[k].SignIn? || (acts'[k].Webhook? && acts'[k].amount == BIG_PURCHASE)
    ensures s'.db.users == map[0 := User("mail", None, None, Google, "uid", BIG_PURCHASE, Member),
                               1 := User("real mail", None, None, Github, "hub", BIG_PURCHASE, Member)]
  {
    acts', s' := Buy(acts, s, "1", "session", 0);
    assert "2" != "1";
    acts', s' := Buy(acts', s', "2", "session", 1);
  }

  lemma CannotFold(db: DB, c: Claim)
    requires c == Claim(Google, "uid", "real mail", None, None, false)
    requires db.users == map[0 := User("mail", None, None, Google, "uid", BIG_PURCHASE, Member),
                             1 := User("real mail", None, None, Github, "hub", BIG_PURCHASE, Member)]
    ensures Login(db, c).Rollback?
  {
    assert HasIdentity(db.users[0], c) && !HasIdentity(db.users[1], c);
    assert db.users[1].email == c.email && db.users[0].email != c.email;
    assert ByIdentity(db, c) == Some(0) && ByEmail(db, c) == Some(1);
  }

  /**
   * With purchases of 2^30 credits each account buys once; the sign-in that should fold them together is rolled
   * back, and being a function of the tables it is rolled back every time.
   */
  lemma SignInCanFail() returns (acts: seq<Action>, c: Claim)
    ensures Exec(Init(), acts).Some? && Login(Exec(Init(), acts).value.db, c).Rollback?
    ensures forall k | 0 <= k < |acts| :: acts[k].SignIn? || (acts[k].Webhook? && acts[k].amount == BIG_PURCHASE)
  {
    c := Claim(Google, "uid", "real mail", None, None, false);
    var s;
    acts, s := TwoAccounts();
    acts, s := BothBuy(acts, s);
    CannotFold(s.db, c);
  }
}
