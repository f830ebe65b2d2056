// The tables of the service that carry money and ownership, with the constraints of the schema.
module Tables {
  import opened Prelude

  type Id = nat

  /** Largest value of a Postgres `int` column; a larger sum makes the statement fail. */
  const MAX_INT4: int := 0x7FFF_FFFF

  datatype OAuth = Google | Github

  datatype UserRole = Member | Admin

  datatype User = User(email: string, name: Option<string>, image: Option<string>,
                       provider: OAuth, oauthId: string, credits: int, role: UserRole)

  datatype Thread = Thread(owner: Id)

  datatype Status = Running | Done | Failed

  datatype Run = Run(thread: Id, owner: Id, model: string, status: Status)

  datatype Role = FromUser | FromAssistant

  datatype Message = Message(thread: Id, role: Role, content: string)

  datatype UsageEvent = UsageEvent(owner: Id, thread: Id, run: Id, cost: nat)

  datatype Upload = Upload(owner: Id, thread: Option<Id>)

  datatype Reason = Purchase | Coupon | Charge | Refund | AdminGrant

  datatype Ref = OfRun(run: Id) | OfSession(session: string) | OfCode(code: string) | OfAdmin(admin: Id)

  datatype LedgerRow = LedgerRow(owner: Id, delta: int, reason: Reason, ref: Ref)

  /** Rows are never reused: every new id is `nextId`. */
  datatype DB = DB(
    users: map<Id, User>,
    threads: map<Id, Thread>,
    runs: map<Id, Run>,
    messages: seq<Message>,
    usage: seq<UsageEvent>,
    uploads: map<Id, Upload>,
    ledger: seq<LedgerRow>,
    keys: map<(Id, string), string>,        // UNIQUE (user_id, provider)
    redemptions: set<(Id, string)>,         // PRIMARY KEY (user_id, code)
    stripeEvents: set<string>,
    nextId: Id)

  function Empty(): (db: DB) {
    DB(map[], map[], map[], [], [], map[], [], map[], {}, {}, 0)
  }

  // ---- Constraints -----------------------------------------------------------------------------

  predicate CreditsOk(c: int) {
    0 <= c <= MAX_INT4
  }

  predicate SameIdentity(a: User, b: User) {
    a.provider == b.provider && a.oauthId == b.oauthId
  }

  /** CHECK (credits >= 0), UNIQUE (email), UNIQUE (oauth_provider, oauth_id). */
  ghost predicate UsersOk(users: map<Id, User>) {
    && (forall u | u in users :: CreditsOk(users[u].credits))
    && (forall u, v | u in users && v in users && u != v :: users[u].email != users[v].email)
    && (forall u, v | u in users && v in users && u != v :: !SameIdentity(users[u], users[v]))
  }

  // Foreign keys, and each row of a thread belongs to the owner of the thread; table by table.

  ghost predicate ThreadsOwned(threads: map<Id, Thread>, users: set<Id>) {
    forall t | t in threads :: threads[t].owner in users
  }

  ghost predicate RunsOwned(runs: map<Id, Run>, threads: map<Id, Thread>) {
    forall r | r in runs :: runs[r].thread in threads && runs[r].owner == threads[runs[r].thread].owner
  }

  ghost predicate MessagesOwned(messages: seq<Message>, threads: map<Id, Thread>) {
    forall k | 0 <= k < |messages| :: messages[k].thread in threads
  }

  predicate UsageRowOk(threads: map<Id, Thread>, runs: map<Id, Run>, e: UsageEvent) {
    && e.thread in threads && e.run in runs
    && runs[e.run].thread == e.thread && e.owner == threads[e.thread].owner
  }

  ghost predicate UsageOwned(usage: seq<UsageEvent>, threads: map<Id, Thread>, runs: map<Id, Run>) {
    forall k | 0 <= k < |usage| :: UsageRowOk(threads, runs, usage[k])
  }

  predicate UploadOk(threads: map<Id, Thread>, users: set<Id>, p: Upload) {
    && p.owner in users
    && (p.thread.Some? ==> p.thread.value in threads && threads[p.thread.value].owner == p.owner)
  }

  ghost predicate UploadsOwned(uploads: map<Id, Upload>, threads: map<Id, Thread>, users: set<Id>) {
    forall p | p in uploads :: UploadOk(threads, users, uploads[p])
  }

  ghost predicate LedgerOwned(ledger: seq<LedgerRow>, users: set<Id>) {
    forall k | 0 <= k < |ledger| :: ledger[k].owner in users
  }

  ghost predicate KeysOwned(keys: map<(Id, string), string>, users: set<Id>) {
    forall k | k in keys :: k.0 in users
  }

  ghost predicate CodesOwned(codes: set<(Id, string)>, users: set<Id>) {
    forall k | k in codes :: k.0 in users
  }

  ghost predicate OwnersOk(db: DB) {
    && ThreadsOwned(db.threads, db.users.Keys)
    && RunsOwned(db.runs, db.threads)
    && MessagesOwned(db.messages, db.threads)
    && UsageOwned(db.usage, db.threads, db.runs)
    && UploadsOwned(db.uploads, db.threads, db.users.Keys)
    && LedgerOwned(db.ledger, db.users.Keys)
    && KeysOwned(db.keys, db.users.Keys)
    && CodesOwned(db.redemptions, db.users.Keys)
  }

  predicate RunningIn(runs: map<Id, Run>, r: Id, t: Id) {
    r in runs && runs[r].thread == t && runs[r].status.Running?
  }

  /** The partial unique index runs_one_running_per_thread. */
  ghost predicate OneRunning(db: DB) {
    forall r, q | r in db.runs && q in db.runs && r != q && db.runs[r].thread == db.runs[q].thread ::
      !(db.runs[r].status.Running? && db.runs[q].status.Running?)
  }

  ghost predicate IdsOk(db: DB) {
    && (forall u | u in db.users :: u < db.nextId)
    && (forall t | t in db.threads :: t < db.nextId)
    && (forall r | r in db.runs :: r < db.nextId)
    && (forall p | p in db.uploads :: p < db.nextId)
  }

  ghost predicate Schema(db: DB) {
    UsersOk(db.users) && OwnersOk(db) && OneRunning(db) && IdsOk(db)
  }

  // ---- Sums and counts -----------------------------------------------------------------------

  /** Sum of the ledger rows of one user. */
  function Balance(ledger: seq<LedgerRow>, u: Id): (b: int) {
    if ledger == [] then 0
    else Balance(Front(ledger), u) + (if Last(ledger).owner == u then Last(ledger).delta else 0)
  }

  function CountMessages(messages: seq<Message>, t: Id, role: Role): (n: nat) {
    if messages == [] then 0
    else CountMessages(Front(messages), t, role)
         + (if Last(messages).thread == t && Last(messages).role == role then 1 else 0)
  }

  function CountReason(ledger: seq<LedgerRow>, reason: Reason): (n: nat) {
    if ledger == [] then 0
    else CountReason(Front(ledger), reason) + (if Last(ledger).reason == reason then 1 else 0)
  }

  /** Coupon rows of one user for one code. */
  function CountCoupon(ledger: seq<LedgerRow>, u: Id, code: string): (n: nat) {
    if ledger == [] then 0
    else
      var row := Last(ledger);
      CountCoupon(Front(ledger), u, code)
      + (if row.owner == u && row.reason.Coupon? && row.ref == OfCode(code) then 1 else 0)
  }
}
