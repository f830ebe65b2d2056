// The whole service as one state machine: the tables, the requests and workers in flight with the stale
// copies they hold, and the history of what was ever created.
module ServiceSystem {
  import opened Prelude
  import opened Tables
  import opened Transactions

  /** A send: this user owned this thread when it was read, and later, if `idle`, no run of it was running. */
  datatype SendReq = SendReq(user: Id, thread: Id, idle: bool)

  /** The run row a worker or a boot sweep read; it may act on it any number of times, at any later time. */
  datatype Snapshot = Snapshot(run: Id, thread: Id, owner: Id)

  datatype System = System(
    db: DB,
    sends: set<SendReq>,
    workers: set<Snapshot>,
    created: set<Id>,          // every run ever created
    folded: map<Id, nat>)      // how many original accounts each user stands for

  function Init(): (s: System) {
    System(Empty(), {}, {}, {}, map[])
  }

  datatype Action =
    | SignIn(claim: Claim)
    | NewThread(user: Id)
    | DropThread(thread: Id)
    | CheckOwner(user: Id, thread: Id)
    | CheckIdle(req: SendReq)
    | CommitSend(req: SendReq, content: string, model: string)
    | AttachUploads(req: SendReq, ids: set<Id>)
    | LoadRun(run: Id)
    | Complete(worker: Snapshot, text: string)
    | Fail(worker: Snapshot)
    | Meter(worker: Snapshot, cost: nat)
    | Webhook(event: string, session: string, user: Id, amount: int)
    | Redeem(user: Id, code: string, amount: int)
    | Grant(user: Id, delta: int, admin: Id)
    | NewUpload(user: Id)
    | StoreKey(user: Id, provider: string, cipher: string)
    | ForgetKey(user: Id, provider: string)

  /** A request acts only on checks it made and a worker only on a row it read; everything else is open. */
  predicate Enabled(s: System, a: Action) {
    match a
    case CheckOwner(u, t) => t in s.db.threads && s.db.threads[t].owner == u
    case CheckIdle(req) => req in s.sends && !req.idle && !Busy(s.db.runs, req.thread)
    case CommitSend(req, _, _) => req in s.sends && req.idle
    case AttachUploads(req, _) => req in s.sends
    case LoadRun(r) => r in s.db.runs && s.db.runs[r].status.Running?
    case Complete(w, _) => w in s.workers
    case Fail(w) => w in s.workers
    case Meter(w, _) => w in s.workers
    case _ => true
  }

  /** The transaction an action runs. */
  ghost function TxOf(db: DB, a: Action): (tx: Tx) {
    match a
    case SignIn(c) => Login(db, c)
    case NewThread(u) => CreateThread(db, u)
    case DropThread(t) => DeleteThread(db, t)
    case CheckOwner(_, _) => Refuse
    case CheckIdle(_) => Refuse
    case CommitSend(q, content, model) => Send(db, q.user, q.thread, content, model)
    case AttachUploads(q, ids) => Attach(db, q.user, q.thread, ids)
    case LoadRun(_) => Refuse
    case Complete(w, text) => FinalizeDone(db, w.run, w.thread, text)
    case Fail(w) => FinalizeFailed(db, w.run, w.owner)
    case Meter(w, cost) => RecordUsage(db, w.owner, w.thread, w.run, cost)
    case Webhook(event, session, u, amount) => Purchased(db, event, session, u, amount)
    case Redeem(u, code, amount) => Redeemed(db, u, code, amount)
    case Grant(u, delta, admin) => Granted(db, u, delta, admin)
    case NewUpload(u) => AddUpload(db, u)
    case StoreKey(u, p, c) => SetKey(db, u, p, c)
    case ForgetKey(u, p) => DropKey(db, u, p)
  }

  /** Accounts folded together by a sign-in, or a new account standing for itself. */
  ghost function FoldedAfter(s: System, c: Claim): (f: map<Id, nat>) {
    var byIdentity, byEmail := ByIdentity(s.db, c), ByEmail(s.db, c);
    if !Login(s.db, c).Commit? then s.folded
    else if NeedsMerge(byIdentity, byEmail) then
      (s.folded - {byIdentity.value})[byEmail.value := Folded(s, byEmail.value) + Folded(s, byIdentity.value)]
    else if byIdentity.None? && byEmail.None? then s.folded[s.db.nextId := 1]
    else s.folded
  }

  function Folded(s: System, u: Id): (n: nat) {
    if u in s.folded then s.folded[u] else 0
  }

  ghost function Apply(s: System, a: Action): (s': System)
    requires Enabled(s, a)
  {
    var tx := TxOf(s.db, a);
    var s1 := s.(db := After(s.db, tx));
    match a
    case SignIn(c) => s1.(folded := FoldedAfter(s, c))
    case CheckOwner(u, t) => s1.(sends := s.sends + {SendReq(u, t, false)})
    case CheckIdle(req) => s1.(sends := s.sends + {req.(idle := true)})
    case CommitSend(_, _, _) => if tx.Commit? then s1.(created := s.created + {s.db.nextId}) else s1
    case LoadRun(r) => s1.(workers := s.workers + {Snapshot(r, s.db.runs[r].thread, s.db.runs[r].owner)})
    case _ => s1
  }

  ghost function Exec(s: System, acts: seq<Action>): (r: Option<System>) {
    if acts == [] then Some(s)
    else
      match Exec(s, Front(acts))
      case None => None
      case Some(m) => if Enabled(m, Last(acts)) then Some(Apply(m, Last(acts))) else None
  }

  /** The state after a schedule, one action later. */
  lemma ExecSnoc(s: System, acts: seq<Action>, a: Action)
    requires Exec(s, acts).Some? && Enabled(Exec(s, acts).value, a)
    ensures Exec(s, acts + [a]) == Some(Apply(Exec(s, acts).value, a))
  {
    assert Front(acts + [a]) == acts;
  }

  /** One more action on a schedule from the empty tables. */
  lemma Then(acts: seq<Action>, s: System, a: Action) returns (acts': seq<Action>, s': System)
    requires Exec(Init(), acts) == Some(s) && Enabled(s, a)
    ensures acts' == acts + [a] && s' == Apply(s, a) && Exec(Init(), acts') == Some(s')
  {
    ExecSnoc(Init(), acts, a);
    acts', s' := acts + [a], Apply(s, a);
  }
}
