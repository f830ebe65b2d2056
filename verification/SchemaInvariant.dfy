// No transaction ever leaves the tables in a state the schema forbids, and every row of a thread belongs to
// the owner of the thread, although requests and workers act on rows they read long before.
module SchemaInvariant {
  import opened Prelude
  import opened Tables
  import opened Transactions
  import opened ServiceSystem

  /** What the copies held in flight are still worth. */
  ghost predicate FlightOk(s: System) {
    && (forall q | q in s.sends ::
          && q.user < s.db.nextId && q.thread < s.db.nextId
          && (q.user in s.db.users && q.thread in s.db.threads ==> s.db.threads[q.thread].owner == q.user))
    && (forall w | w in s.workers ::
          && w.owner < s.db.nextId && w.run < s.db.nextId
          && (w.run in s.db.runs ==> s.db.runs[w.run].thread == w.thread)
          && (w.run in s.db.runs && w.owner in s.db.users ==> s.db.runs[w.run].owner == w.owner))
  }

  ghost predicate Inv(s: System) {
    Schema(s.db) && FlightOk(s)
  }

  // ---- Sign-in ----------------------------------------------------------------------------------

  lemma IdentityUnique(db: DB, c: Claim)
    requires UsersOk(db.users)
    ensures ByIdentity(db, c).Some? ==>
              forall u | u in db.users && HasIdentity(db.users[u], c) :: u == ByIdentity(db, c).value
    ensures ByEmail(db, c).Some? ==>
              forall u | u in db.users && db.users[u].email == c.email :: u == ByEmail(db, c).value
  {
  }

  lemma MergedUsersOk(db: DB, l: Id, w: Id)
    requires UsersOk(db.users) && l in db.users && w in db.users && l != w
    requires CreditsOk(db.users[l].credits + db.users[w].credits)
    ensures UsersOk(Merged(db, l, w).users)
    ensures Merged(db, l, w).users.Keys == db.users.Keys - {l}
  {
  }

  /** The upsert never meets a row that already has the email or the identity. */
  lemma UpsertFree(db: DB, c: Claim)
    requires UsersOk(db.users)
    ensures var byIdentity, byEmail := ByIdentity(db, c), ByEmail(db, c);
            var target := if byEmail.Some? then byEmail else byIdentity;
            if NeedsMerge(byIdentity, byEmail)
            then Free(Merged(db, byIdentity.value, byEmail.value), c, target)
            else Free(db, c, target)
  {
    IdentityUnique(db, c);
  }

  /** Signing in succeeds always, except that a merge whose credits overflow the column is rolled back. */
  lemma LoginTotal(db: DB, c: Claim)
    requires UsersOk(db.users)
    ensures var byIdentity, byEmail := ByIdentity(db, c), ByEmail(db, c);
            Login(db, c).Commit? <==>
              !NeedsMerge(byIdentity, byEmail)
              || db.users[byIdentity.value].credits + db.users[byEmail.value].credits <= MAX_INT4
  {
    UpsertFree(db, c);
  }

  lemma RelinkUsersOk(db: DB, c: Claim, target: Id)
    requires UsersOk(db.users) && target in db.users && Free(db, c, Some(target))
    ensures UsersOk(db.users[target := Relinked(db.users[target], c)])
  {
  }

  lemma LoginUsersOk(db: DB, c: Claim)
    requires UsersOk(db.users) && IdsOk(db)
    ensures UsersOk(After(db, Login(db, c)).users)
  {
    var byIdentity, byEmail := ByIdentity(db, c), ByEmail(db, c);
    UpsertFree(db, c);
    if Login(db, c).Commit? {
      if NeedsMerge(byIdentity, byEmail) {
        MergedUsersOk(db, byIdentity.value, byEmail.value);
        RelinkUsersOk(Merged(db, byIdentity.value, byEmail.value), c, byEmail.value);
      } else if byEmail.Some? {
        RelinkUsersOk(db, c, byEmail.value);
      } else if byIdentity.Some? {
        RelinkUsersOk(db, c, byIdentity.value);
      }
    }
  }

  lemma MovedThreadsOwned(db: DB, l: Id, w: Id)
    requires OwnersOk(db) && w in db.users && l != w
    ensures var threads, users := MoveThreads(db.threads, l, w), db.users.Keys - {l};
            && ThreadsOwned(threads, users)
            && RunsOwned(MoveRuns(db.runs, l, w), threads)
            && MessagesOwned(db.messages, threads)
  {
  }

  lemma MovedUsageOwned(db: DB, l: Id, w: Id)
    requires UsageOwned(db.usage, db.threads, db.runs) && l != w
    ensures UsageOwned(MoveUsage(db.usage, l, w), MoveThreads(db.threads, l, w), MoveRuns(db.runs, l, w))
  {
    assert forall k | 0 <= k < |db.usage| :: UsageRowOk(db.threads, db.runs, db.usage[k]);
  }

  lemma MovedUploadsOwned(db: DB, l: Id, w: Id)
    requires UploadsOwned(db.uploads, db.threads, db.users.Keys) && w in db.users && l != w
    ensures UploadsOwned(MoveUploads(db.uploads, l, w), MoveThreads(db.threads, l, w), db.users.Keys - {l})
  {
    assert forall p | p in db.uploads :: UploadOk(db.threads, db.users.Keys, db.uploads[p]);
  }

  lemma MovedRestOwned(db: DB, l: Id, w: Id)
    requires OwnersOk(db) && w in db.users && l != w
    ensures var users := db.users.Keys - {l};
            && LedgerOwned(MoveRows(db.ledger, l, w), users)
            && KeysOwned(MergedKeys(db.keys, l, w), users)
            && CodesOwned(MovedRedemptions(db.redemptions, l, w), users)
  {
  }

  lemma MergedOwnersOk(db: DB, l: Id, w: Id)
    requires OwnersOk(db) && l in db.users && w in db.users && l != w
    ensures OwnersOk(Merged(db, l, w))
  {
    assert Merged(db, l, w).users.Keys == db.users.Keys - {l};
    MovedThreadsOwned(db, l, w);
    MovedUsageOwned(db, l, w);
    MovedUploadsOwned(db, l, w);
    MovedRestOwned(db, l, w);
  }

  lemma SameUsersOwnersOk(db: DB, users: map<Id, User>)
    requires OwnersOk(db) && db.users.Keys <= users.Keys
    ensures OwnersOk(db.(users := users))
  {
    assert forall p | p in db.uploads :: UploadOk(db.threads, db.users.Keys, db.uploads[p]);
  }

  lemma LoginOwnersOk(db: DB, c: Claim)
    requires OwnersOk(db)
    ensures OwnersOk(After(db, Login(db, c)))
  {
    var byIdentity, byEmail := ByIdentity(db, c), ByEmail(db, c);
    if Login(db, c).Commit? {
      var db' := After(db, Login(db, c));
      if NeedsMerge(byIdentity, byEmail) {
        MergedOwnersOk(db, byIdentity.value, byEmail.value);
        SameUsersOwnersOk(Merged(db, byIdentity.value, byEmail.value), db'.users);
      } else {
        SameUsersOwnersOk(db, db'.users);
        var d := db.(users := db'.users);
        assert OwnersOk(d);
      }
    }
  }

  // ---- Deletion ---------------------------------------------------------------------------------

  lemma RemoveOwnersOk(db: DB, gone: set<Id>)
    requires OwnersOk(db)
    ensures OwnersOk(RemoveThreads(db, gone))
  {
    var d := RemoveThreads(db, gone);
    forall k | 0 <= k < |d.messages| ensures d.messages[k].thread in d.threads {
      assert d.messages[k] in db.messages;
    }
    forall k | 0 <= k < |d.usage| ensures UsageRowOk(d.threads, d.runs, d.usage[k]) {
      var j :| 0 <= j < |db.usage| && db.usage[j] == d.usage[k];
      assert UsageRowOk(db.threads, db.runs, db.usage[j]);
    }
    assert forall p | p in db.uploads :: UploadOk(db.threads, db.users.Keys, db.uploads[p]);
  }

  // ---- Every action keeps the tables legal -----------------------------------------------------

  /** Actions that move credits. */
  predicate Posts(a: Action) {
    a.CommitSend? || a.Fail? || a.Webhook? || a.Redeem? || a.Grant?
  }

  lemma PostKeeps(db: DB, u: Id, delta: int, reason: Reason, ref: Ref)
    requires UsersOk(db.users)
    ensures var r := Post(db, u, delta, reason, ref);
            r.Some? ==> UsersOk(r.value.users) && r.value.users.Keys == db.users.Keys && u in db.users
  {
    var r := Post(db, u, delta, reason, ref);
    if r.Some? {
      var credits := db.users[u].credits + delta;
      assert r.value.users == db.users[u := db.users[u].(credits := credits)];
      CreditUsersOk(db.users, u, credits);
    }
  }

  lemma CreditUsersOk(users: map<Id, User>, u: Id, credits: int)
    requires UsersOk(users) && u in users && CreditsOk(credits)
    ensures UsersOk(users[u := users[u].(credits := credits)])
  {
  }

  lemma PostsUsersOk(db: DB, a: Action)
    requires UsersOk(db.users) && Posts(a)
    ensures UsersOk(After(db, TxOf(db, a)).users)
    ensures After(db, TxOf(db, a)).users.Keys == db.users.Keys
  {
    match a
    case CommitSend(q, _, _) => PostKeeps(db, q.user, -1, Charge, OfRun(db.nextId));
    case Fail(w) => PostKeeps(db, w.owner, 1, Refund, OfRun(w.run));
    case Webhook(event, session, u, amount) => PostKeeps(db, u, amount, Purchase, OfSession(session));
    case Redeem(u, code, amount) => PostKeeps(db, u, amount, Coupon, OfCode(code));
    case Grant(u, delta, admin) => PostKeeps(db, u, delta, AdminGrant, OfAdmin(admin));
  }

  lemma OthersKeepUsers(db: DB, a: Action)
    requires !Posts(a) && !a.SignIn?
    ensures After(db, TxOf(db, a)).users == db.users
    ensures After(db, TxOf(db, a)).ledger == db.ledger
  {
  }

  lemma UsersStep(s: System, a: Action)
    requires Inv(s) && Enabled(s, a)
    ensures UsersOk(Apply(s, a).db.users)
  {
    if a.SignIn? {
      LoginUsersOk(s.db, a.claim);
    } else if Posts(a) {
      PostsUsersOk(s.db, a);
    } else {
      OthersKeepUsers(s.db, a);
    }
  }

  lemma MoreRunsOwned(db: DB, run: Run)
    requires RunsOwned(db.runs, db.threads) && UsageOwned(db.usage, db.threads, db.runs) && db.nextId !in db.runs
    requires run.thread in db.threads && run.owner == db.threads[run.thread].owner
    ensures RunsOwned(db.runs[db.nextId := run], db.threads)
    ensures UsageOwned(db.usage, db.threads, db.runs[db.nextId := run])
  {
    assert forall k | 0 <= k < |db.usage| :: UsageRowOk(db.threads, db.runs, db.usage[k]);
  }

  /** A request that passed its check still names the owner of its thread, if both exist. */
  lemma SendOwner(s: System, q: SendReq)
    requires FlightOk(s) && q in s.sends && q.user in s.db.users && q.thread in s.db.threads
    ensures s.db.threads[q.thread].owner == q.user
  {
  }

  lemma SendOwnersOk(s: System, q: SendReq, content: string, model: string)
    requires OwnersOk(s.db) && IdsOk(s.db) && FlightOk(s) && q in s.sends
    ensures OwnersOk(After(s.db, Send(s.db, q.user, q.thread, content, model)))
  {
    if Send(s.db, q.user, q.thread, content, model).Commit? {
      var d := Send(s.db, q.user, q.thread, content, model).db;
      SendOwner(s, q);
      MoreRunsOwned(s.db, Run(q.thread, q.user, model, Running));
      assert d.users.Keys == s.db.users.Keys;
    }
  }

  lemma AttachOwnersOk(s: System, q: SendReq, ids: set<Id>)
    requires OwnersOk(s.db) && FlightOk(s) && q in s.sends
    ensures OwnersOk(After(s.db, Attach(s.db, q.user, q.thread, ids)))
  {
    var tx := Attach(s.db, q.user, q.thread, ids);
    if tx.Commit? {
      forall p | p in tx.db.uploads ensures UploadOk(s.db.threads, s.db.users.Keys, tx.db.uploads[p]) {
        assert UploadOk(s.db.threads, s.db.users.Keys, s.db.uploads[p]);
      }
    }
  }

  lemma MeterOwnersOk(s: System, w: Snapshot, cost: nat)
    requires OwnersOk(s.db) && FlightOk(s) && w in s.workers
    ensures OwnersOk(After(s.db, RecordUsage(s.db, w.owner, w.thread, w.run, cost)))
  {
    if RecordUsage(s.db, w.owner, w.thread, w.run, cost).Commit? {
      assert UsageRowOk(s.db.threads, s.db.runs, UsageEvent(w.owner, w.thread, w.run, cost));
    }
  }

  lemma ClosedRunsOwned(db: DB, run: Id, status: Status)
    requires OwnersOk(db) && run in db.runs
    ensures var runs := db.runs[run := db.runs[run].(status := status)];
            RunsOwned(runs, db.threads) && UsageOwned(db.usage, db.threads, runs)
  {
    assert forall k | 0 <= k < |db.usage| :: UsageRowOk(db.threads, db.runs, db.usage[k]);
  }

  lemma CompleteOwnersOk(db: DB, run: Id, thread: Id, text: string)
    requires OwnersOk(db)
    ensures OwnersOk(After(db, FinalizeDone(db, run, thread, text)))
  {
    if run in db.runs {
      ClosedRunsOwned(db, run, Done);
    }
  }

  lemma FailOwnersOk(db: DB, run: Id, owner: Id)
    requires OwnersOk(db)
    ensures OwnersOk(After(db, FinalizeFailed(db, run, owner)))
  {
    if FinalizeFailed(db, run, owner).Commit? {
      ClosedRunsOwned(db, run, Failed);
      assert After(db, FinalizeFailed(db, run, owner)).users.Keys == db.users.Keys;
    }
  }

  lemma GrantsOwnersOk(db: DB, a: Action)
    requires OwnersOk(db) && (a.Webhook? || a.Redeem? || a.Grant?)
    ensures OwnersOk(After(db, TxOf(db, a)))
  {
    assert After(db, TxOf(db, a)).users.Keys == db.users.Keys;
  }

  lemma NewThreadOwnersOk(db: DB, u: Id)
    requires OwnersOk(db) && IdsOk(db)
    ensures OwnersOk(After(db, CreateThread(db, u)))
  {
    assert forall k | 0 <= k < |db.usage| :: UsageRowOk(db.threads, db.runs, db.usage[k]);
    assert forall p | p in db.uploads :: UploadOk(db.threads, db.users.Keys, db.uploads[p]);
  }

  lemma PlainOwnersOk(db: DB, a: Action)
    requires OwnersOk(db) && IdsOk(db)
    requires a.NewUpload? || a.StoreKey? || a.ForgetKey? || a.CheckOwner? || a.CheckIdle? || a.LoadRun?
    ensures OwnersOk(After(db, TxOf(db, a)))
  {
    assert forall p | p in db.uploads :: UploadOk(db.threads, db.users.Keys, db.uploads[p]);
  }

  lemma OwnersStep(s: System, a: Action)
    requires Inv(s) && Enabled(s, a)
    ensures OwnersOk(Apply(s, a).db)
  {
    match a
    case SignIn(c) => LoginOwnersOk(s.db, c);
    case DropThread(t) => RemoveOwnersOk(s.db, {t});
    case CommitSend(q, content, model) => SendOwnersOk(s, q, content, model);
    case AttachUploads(q, ids) => AttachOwnersOk(s, q, ids);
    case Meter(w, cost) => MeterOwnersOk(s, w, cost);
    case Complete(w, text) => CompleteOwnersOk(s.db, w.run, w.thread, text);
    case Fail(w) => FailOwnersOk(s.db, w.run, w.owner);
    case NewThread(u) => NewThreadOwnersOk(s.db, u);
    case Webhook(_, _, _, _) => GrantsOwnersOk(s.db, a);
    case Redeem(_, _, _) => GrantsOwnersOk(s.db, a);
    case Grant(_, _, _) => GrantsOwnersOk(s.db, a);
    case _ => PlainOwnersOk(s.db, a);
  }

  // ---- Runs: which actions touch them, and how ------------------------------------------------

  /** Runs keep their thread; a final status is never left; owners change only by merging. */
  ghost predicate RunsKept(db: DB, db': DB) {
    forall r | r in db.runs && r in db'.runs ::
      && db'.runs[r].thread == db.runs[r].thread
      && (!db.runs[r].status.Running? ==> db'.runs[r].status == db.runs[r].status)
  }

  lemma NotBusy(db: DB, t: Id)
    requires !Busy(db.runs, t)
    ensures forall r | r in db.runs && db.runs[r].thread == t :: !db.runs[r].status.Running?
  {
    forall r | r in db.runs && db.runs[r].thread == t ensures !db.runs[r].status.Running? {
      assert !RunningIn(db.runs, r, t);
    }
  }

  lemma SendRunsOk(db: DB, u: Id, t: Id, content: string, model: string)
    requires OneRunning(db) && IdsOk(db)
    ensures var d := After(db, Send(db, u, t, content, model)); OneRunning(d) && RunsKept(db, d)
    ensures Send(db, u, t, content, model).Commit? ==>
              var d := After(db, Send(db, u, t, content, model));
              d.runs == db.runs[db.nextId := Run(t, u, model, Running)] && u in db.users && t in db.threads
  {
    if Send(db, u, t, content, model).Commit? {
      NotBusy(db, t);
    }
  }

  lemma FinalizeRunsOk(db: DB, run: Id, thread: Id, owner: Id, text: string)
    requires OneRunning(db)
    ensures var d := After(db, FinalizeDone(db, run, thread, text)); OneRunning(d) && RunsKept(db, d)
    ensures var d := After(db, FinalizeFailed(db, run, owner)); OneRunning(d) && RunsKept(db, d)
  {
  }

  lemma MergedRunsOk(db: DB, l: Id, w: Id)
    requires OneRunning(db) && l in db.users && w in db.users && l != w
    ensures OneRunning(Merged(db, l, w)) && RunsKept(db, Merged(db, l, w))
    ensures Merged(db, l, w).runs.Keys == db.runs.Keys
  {
    var m := Merged(db, l, w);
    forall r | r in m.runs ensures m.runs[r].thread == db.runs[r].thread && m.runs[r].status == db.runs[r].status {
    }
  }

  lemma LoginRunsOk(db: DB, c: Claim)
    requires OneRunning(db)
    ensures var d := After(db, Login(db, c)); OneRunning(d) && RunsKept(db, d) && d.runs.Keys == db.runs.Keys
  {
    var byIdentity, byEmail := ByIdentity(db, c), ByEmail(db, c);
    if Login(db, c).Commit? && NeedsMerge(byIdentity, byEmail) {
      MergedRunsOk(db, byIdentity.value, byEmail.value);
    }
  }

  lemma OthersKeepRuns(db: DB, a: Action)
    requires !a.SignIn? && !a.CommitSend? && !a.Complete? && !a.Fail? && !a.DropThread?
    ensures After(db, TxOf(db, a)).runs == db.runs
  {
  }

  lemma RunsStep(s: System, a: Action)
    requires Inv(s) && Enabled(s, a)
    ensures OneRunning(Apply(s, a).db) && RunsKept(s.db, Apply(s, a).db)
  {
    match a
    case SignIn(c) => LoginRunsOk(s.db, c);
    case CommitSend(q, content, model) => SendRunsOk(s.db, q.user, q.thread, content, model);
    case Complete(w, text) => FinalizeRunsOk(s.db, w.run, w.thread, w.owner, text);
    case Fail(w) => FinalizeRunsOk(s.db, w.run, w.thread, w.owner, "");
    case DropThread(t) =>
    case _ => OthersKeepRuns(s.db, a);
  }

  // ---- Ids ------------------------------------------------------------------------------------------

  lemma LoginIdsOk(db: DB, c: Claim)
    requires IdsOk(db)
    ensures var d := After(db, Login(db, c)); IdsOk(d) && db.nextId <= d.nextId
  {
  }

  lemma ChatIdsOk(db: DB, a: Action)
    requires IdsOk(db) && (a.CommitSend? || a.DropThread? || a.AttachUploads? || a.NewThread? || a.NewUpload?)
    ensures var d := After(db, TxOf(db, a)); IdsOk(d) && db.nextId <= d.nextId
  {
  }

  lemma OtherIdsOk(db: DB, a: Action)
    requires IdsOk(db)
    requires !a.SignIn? && !(a.CommitSend? || a.DropThread? || a.AttachUploads? || a.NewThread? || a.NewUpload?)
    ensures var d := After(db, TxOf(db, a)); IdsOk(d) && db.nextId <= d.nextId
  {
    var d := After(db, TxOf(db, a));
    assert d.users.Keys == db.users.Keys && d.runs.Keys == db.runs.Keys;
    assert d.threads == db.threads && d.uploads == db.uploads && d.nextId == db.nextId;
  }

  lemma IdsStep(s: System, a: Action)
    requires Inv(s) && Enabled(s, a)
    ensures IdsOk(Apply(s, a).db) && s.db.nextId <= Apply(s, a).db.nextId
  {
    if a.SignIn? {
      LoginIdsOk(s.db, a.claim);
    } else if a.CommitSend? || a.DropThread? || a.AttachUploads? || a.NewThread? || a.NewUpload? {
      ChatIdsOk(s.db, a);
    } else {
      OtherIdsOk(s.db, a);
    }
  }

  // ---- What is in flight ----------------------------------------------------------------------------

  /** How users, threads and run owners may change under the feet of a stale copy. */
  ghost predicate FlightKept(db: DB, db': DB) {
    && db.nextId <= db'.nextId
    && (forall u | u in db'.users && u < db.nextId :: u in db.users)
    && (forall t | t in db'.threads && t < db.nextId :: t in db.threads)
    && (forall r | r in db'.runs && r < db.nextId :: r in db.runs && db'.runs[r].thread == db.runs[r].thread)
    && (forall t | t in db'.threads && t in db.threads && db.threads[t].owner in db'.users ::
          db'.threads[t].owner == db.threads[t].owner)
    && (forall r | r in db'.runs && r in db.runs && db.runs[r].owner in db'.users ::
          db'.runs[r].owner == db.runs[r].owner)
  }

  lemma FlightSurvives(s: System, db': DB)
    requires FlightOk(s) && FlightKept(s.db, db')
    ensures FlightOk(s.(db := db'))
  {
  }

  lemma MergedFlight(db: DB, l: Id, w: Id)
    requires l in db.users && w in db.users && l != w
    ensures FlightKept(db, Merged(db, l, w))
  {
  }

  lemma UpsertFlight(db: DB, m: DB, c: Claim, target: Option<Id>)
    requires FlightKept(db, m) && m.nextId == db.nextId && (if target.Some? then target.value in m.users else m == db)
    ensures FlightKept(db, After(m, Upserted(m, c, target)))
  {
  }

  lemma LoginFlight(db: DB, c: Claim)
    ensures FlightKept(db, After(db, Login(db, c)))
  {
    var byIdentity, byEmail := ByIdentity(db, c), ByEmail(db, c);
    var target := if byEmail.Some? then byEmail else byIdentity;
    if NeedsMerge(byIdentity, byEmail) {
      MergedFlight(db, byIdentity.value, byEmail.value);
      UpsertFlight(db, Merged(db, byIdentity.value, byEmail.value), c, target);
    } else {
      UpsertFlight(db, db, c, target);
    }
  }

  lemma FinalizeFlight(db: DB, a: Action)
    requires a.Complete? || a.Fail?
    ensures FlightKept(db, After(db, TxOf(db, a)))
  {
  }

  lemma SendFlight(db: DB, u: Id, t: Id, content: string, model: string)
    requires IdsOk(db)
    ensures FlightKept(db, After(db, Send(db, u, t, content, model)))
  {
  }

  lemma ThreadFlight(db: DB, a: Action)
    requires IdsOk(db) && (a.DropThread? || a.NewThread?)
    ensures FlightKept(db, After(db, TxOf(db, a)))
  {
  }

  lemma OtherFlight(db: DB, a: Action)
    requires Schema(db)
    requires !a.SignIn? && !(a.CommitSend? || a.DropThread? || a.Complete? || a.Fail? || a.NewThread?)
    ensures FlightKept(db, After(db, TxOf(db, a)))
  {
    OthersKeepRuns(db, a);
    if Posts(a) {
      PostsUsersOk(db, a);
    }
  }

  lemma FlightStep(s: System, a: Action)
    requires Inv(s) && Enabled(s, a)
    ensures FlightKept(s.db, Apply(s, a).db) && FlightOk(Apply(s, a))
  {
    if a.SignIn? {
      LoginFlight(s.db, a.claim);
    } else if a.CommitSend? {
      SendFlight(s.db, a.req.user, a.req.thread, a.content, a.model);
    } else if a.Complete? || a.Fail? {
      FinalizeFlight(s.db, a);
    } else if a.DropThread? || a.NewThread? {
      ThreadFlight(s.db, a);
    } else {
      OtherFlight(s.db, a);
    }
    FlightSurvives(s, Apply(s, a).db);
    if a.CheckOwner? || a.CheckIdle? || a.LoadRun? {
      NewFlight(s, a);
    }
  }

  lemma NewFlight(s: System, a: Action)
    requires Inv(s) && Enabled(s, a) && (a.CheckOwner? || a.CheckIdle? || a.LoadRun?)
    ensures FlightOk(Apply(s, a))
  {
  }

  // ---- Every reachable state --------------------------------------------------------------------

  lemma Step(s: System, a: Action)
    requires Inv(s) && Enabled(s, a)
    ensures Inv(Apply(s, a))
  {
    UsersStep(s, a);
    OwnersStep(s, a);
    RunsStep(s, a);
    IdsStep(s, a);
    FlightStep(s, a);
  }

  lemma {:induction false} SchemaHolds(acts: seq<Action>)
    requires Exec(Init(), acts).Some?
    ensures Inv(Exec(Init(), acts).value)
  {
    if acts == [] {
    } else {
      SchemaHolds(Front(acts));
      Step(Exec(Init(), Front(acts)).value, Last(acts));
    }
  }
}
