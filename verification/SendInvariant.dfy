// Sends under races: whatever stale pre-checks said, one run per thread is running, and questions, runs and
// answers of a thread stay in step.
module SendInvariant {
  import opened Prelude
  import opened Tables
  import opened Transactions
  import opened ServiceSystem
  import opened SchemaInvariant
  import opened LedgerInvariant

  function RunsOf(runs: map<Id, Run>, t: Id): (rs: set<Id>) {
    set r | r in runs && runs[r].thread == t
  }

  function DoneOf(runs: map<Id, Run>, t: Id): (rs: set<Id>) {
    set r | r in runs && runs[r].thread == t && runs[r].status.Done?
  }

  /** As many questions as runs, at least as many answers as done runs. */
  ghost predicate Balanced(db: DB, t: Id) {
    && |RunsOf(db.runs, t)| == CountMessages(db.messages, t, FromUser)
    && |DoneOf(db.runs, t)| <= CountMessages(db.messages, t, FromAssistant)
  }

  ghost predicate ThreadsBalanced(db: DB) {
    forall t | t in db.threads :: Balanced(db, t)
  }

  lemma MessageSnoc(messages: seq<Message>, m: Message, t: Id, role: Role)
    ensures CountMessages(messages + [m], t, role) ==
              CountMessages(messages, t, role) + (if m.thread == t && m.role == role then 1 else 0)
  {
    assert Front(messages + [m]) == messages;
  }

  lemma {:induction false} KeptMessages(messages: seq<Message>, gone: set<Id>, t: Id, role: Role)
    requires t !in gone
    ensures CountMessages(KeepMessages(messages, gone), t, role) == CountMessages(messages, t, role)
  {
    if messages == [] {
    } else {
      KeptMessages(Front(messages), gone, t, role);
      var kept := KeepMessages(Front(messages), gone);
      if Last(messages).thread in gone {
        assert KeepMessages(messages, gone) == kept;
      } else {
        MessageSnoc(kept, Last(messages), t, role);
      }
    }
  }

  lemma {:induction false} NoMessages(messages: seq<Message>, t: Id, role: Role)
    requires forall k | 0 <= k < |messages| :: messages[k].thread != t
    ensures CountMessages(messages, t, role) == 0
  {
    if messages == [] {
    } else {
      NoMessages(Front(messages), t, role);
    }
  }

  lemma SendBalanced(db: DB, u: Id, t: Id, content: string, model: string)
    requires Schema(db) && ThreadsBalanced(db)
    ensures ThreadsBalanced(After(db, Send(db, u, t, content, model)))
  {
    SendEffect(db, u, t, content, model);
    var tx := Send(db, u, t, content, model);
    if tx.Commit? {
      assert tx.db.threads == db.threads;
      forall x | x in db.threads ensures Balanced(tx.db, x) {
        assert Balanced(db, x);
        MessageSnoc(db.messages, Message(t, FromUser, content), x, FromUser);
        MessageSnoc(db.messages, Message(t, FromUser, content), x, FromAssistant);
        NewRun(db, tx.db.runs, t, Run(t, u, model, Running), x);
      }
    }
  }

  lemma NewRun(db: DB, runs: map<Id, Run>, t: Id, run: Run, x: Id)
    requires IdsOk(db) && run.thread == t && run.status.Running? && runs == db.runs[db.nextId := run]
    ensures |RunsOf(runs, x)| == |RunsOf(db.runs, x)| + (if x == t then 1 else 0)
    ensures DoneOf(runs, x) == DoneOf(db.runs, x)
  {
    if x == t {
      assert RunsOf(runs, x) == RunsOf(db.runs, x) + {db.nextId};
    } else {
      assert RunsOf(runs, x) == RunsOf(db.runs, x);
    }
  }

  lemma CompleteBalanced(db: DB, w: Snapshot, text: string)
    requires ThreadsBalanced(db)
    requires w.run in db.runs ==> db.runs[w.run].thread == w.thread
    ensures ThreadsBalanced(After(db, FinalizeDone(db, w.run, w.thread, text)))
  {
    var tx := FinalizeDone(db, w.run, w.thread, text);
    if tx.Commit? {
      forall x | x in db.threads ensures Balanced(tx.db, x) {
        assert Balanced(db, x);
        MessageSnoc(db.messages, Message(w.thread, FromAssistant, text), x, FromUser);
        MessageSnoc(db.messages, Message(w.thread, FromAssistant, text), x, FromAssistant);
        assert RunsOf(tx.db.runs, x) == RunsOf(db.runs, x);
        assert DoneOf(tx.db.runs, x) <= DoneOf(db.runs, x) + (if x == w.thread then {w.run} else {});
        Cardinalities(DoneOf(tx.db.runs, x), DoneOf(db.runs, x), w.run, x == w.thread);
      }
    }
  }

  lemma SubsetSize(a: set<Id>, b: set<Id>)
    requires a <= b
    ensures |a| <= |b|
  {
    assert b == a + (b - a);
  }

  lemma Cardinalities(a: set<Id>, b: set<Id>, r: Id, grows: bool)
    requires a <= b + (if grows then {r} else {})
    ensures |a| <= |b| + (if grows then 1 else 0)
  {
    SubsetSize(a, b + (if grows then {r} else {}));
  }

  lemma FailBalanced(db: DB, run: Id, owner: Id)
    requires ThreadsBalanced(db)
    ensures ThreadsBalanced(After(db, FinalizeFailed(db, run, owner)))
  {
    var tx := FinalizeFailed(db, run, owner);
    if tx.Commit? {
      forall x | x in db.threads ensures Balanced(tx.db, x) {
        assert Balanced(db, x);
        assert RunsOf(tx.db.runs, x) == RunsOf(db.runs, x);
        assert DoneOf(tx.db.runs, x) == DoneOf(db.runs, x);
      }
    }
  }

  lemma DropBalanced(db: DB, t: Id)
    requires ThreadsBalanced(db)
    ensures ThreadsBalanced(RemoveThreads(db, {t}))
  {
    var d := RemoveThreads(db, {t});
    forall x | x in d.threads ensures Balanced(d, x) {
      assert Balanced(db, x);
      KeptMessages(db.messages, {t}, x, FromUser);
      KeptMessages(db.messages, {t}, x, FromAssistant);
      assert RunsOf(d.runs, x) == RunsOf(db.runs, x);
      assert DoneOf(d.runs, x) == DoneOf(db.runs, x);
    }
  }

  lemma SameRunsBalanced(db: DB, d: DB)
    requires ThreadsBalanced(db) && d.threads.Keys == db.threads.Keys && d.messages == db.messages
    requires d.runs.Keys == db.runs.Keys
    requires forall r | r in db.runs :: d.runs[r].thread == db.runs[r].thread && d.runs[r].status == db.runs[r].status
    ensures ThreadsBalanced(d)
  {
    forall x | x in d.threads ensures Balanced(d, x) {
      assert Balanced(db, x);
      assert RunsOf(d.runs, x) == RunsOf(db.runs, x);
      assert DoneOf(d.runs, x) == DoneOf(db.runs, x);
    }
  }

  lemma LoginKeepsChat(db: DB, c: Claim)
    ensures var d := After(db, Login(db, c));
            && d.threads.Keys == db.threads.Keys && d.messages == db.messages && d.runs.Keys == db.runs.Keys
            && forall r | r in db.runs :: d.runs[r].thread == db.runs[r].thread && d.runs[r].status == db.runs[r].status
  {
    var byIdentity, byEmail := ByIdentity(db, c), ByEmail(db, c);
    var target := if byEmail.Some? then byEmail else byIdentity;
    if NeedsMerge(byIdentity, byEmail) {
      UpsertKeepsChat(Merged(db, byIdentity.value, byEmail.value), c, target);
    } else {
      UpsertKeepsChat(db, c, target);
    }
  }

  lemma UpsertKeepsChat(m: DB, c: Claim, target: Option<Id>)
    requires target.Some? ==> target.value in m.users
    ensures var d := After(m, Upserted(m, c, target));
            d.threads == m.threads && d.messages == m.messages && d.runs == m.runs
  {
  }

  lemma NewThreadBalanced(db: DB, u: Id)
    requires Schema(db) && ThreadsBalanced(db)
    ensures ThreadsBalanced(After(db, CreateThread(db, u)))
  {
    var tx := CreateThread(db, u);
    if tx.Commit? {
      forall x | x in tx.db.threads ensures Balanced(tx.db, x) {
        if x == db.nextId {
          NoMessages(db.messages, x, FromUser);
          NoMessages(db.messages, x, FromAssistant);
          assert RunsOf(db.runs, x) == {};
          assert DoneOf(db.runs, x) == {};
        } else {
          assert Balanced(db, x);
        }
      }
    }
  }

  lemma OthersKeepChat(db: DB, a: Action)
    requires !a.SignIn? && !a.CommitSend? && !a.Complete? && !a.Fail? && !a.DropThread? && !a.NewThread?
    ensures var d := After(db, TxOf(db, a));
            d.threads == db.threads && d.messages == db.messages && d.runs == db.runs
  {
  }

  lemma BalancedStep(s: System, a: Action)
    requires Inv(s) && ThreadsBalanced(s.db) && Enabled(s, a)
    ensures ThreadsBalanced(Apply(s, a).db)
  {
    match a
    case SignIn(c) =>
      LoginKeepsChat(s.db, c);
      SameRunsBalanced(s.db, Apply(s, a).db);
    case CommitSend(q, content, model) => SendBalanced(s.db, q.user, q.thread, content, model);
    case Complete(w, text) => CompleteBalanced(s.db, w, text);
    case Fail(w) => FailBalanced(s.db, w.run, w.owner);
    case DropThread(t) => DropBalanced(s.db, t);
    case NewThread(u) => NewThreadBalanced(s.db, u);
    case _ =>
      OthersKeepChat(s.db, a);
      SameRunsBalanced(s.db, Apply(s, a).db);
  }

  /**
   * With any number of concurrent sends acting on stale checks: at most one run per thread is running, a thread
   * has as many user messages as runs, and no more done runs than assistant messages.
   */
  lemma {:induction false} SendsStayInStep(acts: seq<Action>)
    requires Exec(Init(), acts).Some?
    ensures OneRunning(Exec(Init(), acts).value.db) && ThreadsBalanced(Exec(Init(), acts).value.db)
  {
    SchemaHolds(acts);
    if acts == [] {
    } else {
      SendsStayInStep(Front(acts));
      SchemaHolds(Front(acts));
      BalancedStep(Exec(Init(), Front(acts)).value, Last(acts));
    }
  }

  /** A send is all or nothing: either one credit, one question, one charge row and one running run, or no change. */
  lemma SendAllOrNothing(db: DB, u: Id, t: Id, content: string, model: string)
    requires UsersOk(db.users)
    ensures var d := After(db, Send(db, u, t, content, model));
            if u in db.users && db.users[u].credits > 0 && t in db.threads && !Busy(db.runs, t)
            then
              && d.users[u].credits == db.users[u].credits - 1
              && (forall v | v in db.users && v != u :: v in d.users && d.users[v] == db.users[v])
              && d.messages == db.messages + [Message(t, FromUser, content)]
              && d.runs == db.runs[db.nextId := Run(t, u, model, Running)]
              && d.ledger == db.ledger + [LedgerRow(u, -1, Charge, OfRun(db.nextId))]
            else d == db
  {
    SendEffect(db, u, t, content, model);
  }

  // ---- Answers of runs that failed -----------------------------------------------------------------

  /**
   * The answer goes in whatever the run's status is: a completion keeps answers and done runs in step exactly when
   * the run is still running.
   */
  lemma CompletionInStep(db: DB, w: Snapshot, text: string)
    requires w.thread in db.threads
    requires w.run in db.runs ==> db.runs[w.run].thread == w.thread
    ensures var d := After(db, FinalizeDone(db, w.run, w.thread, text));
            && d.messages == db.messages + [Message(w.thread, FromAssistant, text)]
            && CountMessages(d.messages, w.thread, FromAssistant) ==
                 CountMessages(db.messages, w.thread, FromAssistant) + 1
            && (|DoneOf(d.runs, w.thread)| == |DoneOf(db.runs, w.thread)| + 1 <==>
                  w.run in db.runs && db.runs[w.run].status.Running?)
  {
    var d := After(db, FinalizeDone(db, w.run, w.thread, text));
    MessageSnoc(db.messages, Message(w.thread, FromAssistant, text), w.thread, FromAssistant);
    if w.run in db.runs && db.runs[w.run].status.Running? {
      assert w.run !in DoneOf(db.runs, w.thread);
      assert DoneOf(d.runs, w.thread) == DoneOf(db.runs, w.thread) + {w.run};
    } else {
      assert d.runs == db.runs;
    }
  }
}
