// What each transaction of the service does to the tables, stated as one step: the new tables, no change
// because the code found nothing to do, or a rollback because a constraint failed.
module Transactions {
  import opened Prelude
  import opened Tables

  datatype Tx = Commit(db: DB) | Refuse | Rollback

  function After(db: DB, tx: Tx): (db': DB) {
    match tx
    case Commit(d) => d
    case Refuse => db
    case Rollback => db
  }

  /** Credits change by `delta` and the ledger says so; None when a constraint forbids it. */
  function Post(db: DB, u: Id, delta: int, reason: Reason, ref: Ref): (r: Option<DB>) {
    if u in db.users && CreditsOk(db.users[u].credits + delta)
    then Some(db.(users := db.users[u := db.users[u].(credits := db.users[u].credits + delta)],
                  ledger := db.ledger + [LedgerRow(u, delta, reason, ref)]))
    else None
  }

  // ---- Chat -----------------------------------------------------------------------------------

  function CreateThread(db: DB, u: Id): (tx: Tx) {
    if u !in db.users then Rollback
    else Commit(db.(threads := db.threads[db.nextId := Thread(u)], nextId := db.nextId + 1))
  }

  /** DELETE FROM threads with its cascades. */
  function RemoveThreads(db: DB, gone: set<Id>): (db': DB) {
    db.(threads := db.threads - gone,
        runs := map r | r in db.runs && db.runs[r].thread !in gone :: db.runs[r],
        messages := KeepMessages(db.messages, gone),
        usage := KeepUsage(db.usage, gone),
        uploads := map p | p in db.uploads && !(db.uploads[p].thread.Some? && db.uploads[p].thread.value in gone)
                     :: db.uploads[p])
  }

  function KeepMessages(messages: seq<Message>, gone: set<Id>): (r: seq<Message>)
    ensures forall k | 0 <= k < |r| :: r[k] in messages && r[k].thread !in gone
  {
    if messages == [] then []
    else KeepMessages(Front(messages), gone) + (if Last(messages).thread in gone then [] else [Last(messages)])
  }

  function KeepUsage(usage: seq<UsageEvent>, gone: set<Id>): (r: seq<UsageEvent>)
    ensures forall k | 0 <= k < |r| :: r[k] in usage && r[k].thread !in gone
  {
    if usage == [] then []
    else KeepUsage(Front(usage), gone) + (if Last(usage).thread in gone then [] else [Last(usage)])
  }

  function DeleteThread(db: DB, t: Id): (tx: Tx) {
    Commit(RemoveThreads(db, {t}))
  }

  predicate Busy(runs: map<Id, Run>, t: Id) {
    exists r | r in runs :: RunningIn(runs, r, t)
  }

  /** Charge, question and run in one transaction; without credits nothing happens. */
  function Send(db: DB, u: Id, t: Id, content: string, model: string): (tx: Tx) {
    if u !in db.users || db.users[u].credits <= 0 then Refuse
    else if t !in db.threads || Busy(db.runs, t) then Rollback
    else
      match Post(db, u, -1, Charge, OfRun(db.nextId))
      case None => Rollback
      case Some(d) =>
        Commit(d.(messages := d.messages + [Message(t, FromUser, content)],
                  runs := d.runs[db.nextId := Run(t, u, model, Running)],
                  nextId := db.nextId + 1))
  }

  // ---- Run finalization, on a run row read earlier ------------------------------------------------

  function FinalizeDone(db: DB, run: Id, thread: Id, text: string): (tx: Tx) {
    if thread !in db.threads then Rollback
    else
      Commit(db.(messages := db.messages + [Message(thread, FromAssistant, text)],
                 runs := if run in db.runs && db.runs[run].status.Running?
                         then db.runs[run := db.runs[run].(status := Done)] else db.runs))
  }

  /** Only the transition out of running refunds. */
  function FinalizeFailed(db: DB, run: Id, owner: Id): (tx: Tx) {
    if run !in db.runs || !db.runs[run].status.Running? then Refuse
    else
      match Post(db, owner, 1, Refund, OfRun(run))
      case None => Rollback
      case Some(d) => Commit(d.(runs := d.runs[run := d.runs[run].(status := Failed)]))
  }

  function RecordUsage(db: DB, owner: Id, thread: Id, run: Id, cost: nat): (tx: Tx) {
    if owner !in db.users || thread !in db.threads || run !in db.runs then Rollback
    else Commit(db.(usage := db.usage + [UsageEvent(owner, thread, run, cost)]))
  }

  // ---- Money --------------------------------------------------------------------------------------

  function Purchased(db: DB, event: string, session: string, u: Id, amount: int): (tx: Tx) {
    if event in db.stripeEvents then Refuse
    else
      match Post(db, u, amount, Purchase, OfSession(session))
      case None => Rollback
      case Some(d) => Commit(d.(stripeEvents := d.stripeEvents + {event}))
  }

  function Redeemed(db: DB, u: Id, code: string, amount: int): (tx: Tx) {
    if (u, code) in db.redemptions then Rollback
    else
      match Post(db, u, amount, Coupon, OfCode(code))
      case None => Rollback
      case Some(d) => Commit(d.(redemptions := d.redemptions + {(u, code)}))
  }

  function Granted(db: DB, u: Id, delta: int, admin: Id): (tx: Tx) {
    match Post(db, u, delta, AdminGrant, OfAdmin(admin))
    case None => Rollback
    case Some(d) => Commit(d)
  }

  // ---- Uploads and keys -----------------------------------------------------------------------------

  function AddUpload(db: DB, u: Id): (tx: Tx) {
    if u !in db.users then Rollback
    else Commit(db.(uploads := db.uploads[db.nextId := Upload(u, None)], nextId := db.nextId + 1))
  }

  /** Links the caller's own uploads among `ids`. */
  function Attach(db: DB, u: Id, t: Id, ids: set<Id>): (tx: Tx) {
    if t !in db.threads && (exists p | p in ids :: p in db.uploads && db.uploads[p].owner == u) then Rollback
    else Commit(db.(uploads := map p | p in db.uploads ::
      if p in ids && db.uploads[p].owner == u then db.uploads[p].(thread := Some(t)) else db.uploads[p]))
  }

  function SetKey(db: DB, u: Id, provider: string, cipher: string): (tx: Tx) {
    if u !in db.users then Rollback else Commit(db.(keys := db.keys[(u, provider) := cipher]))
  }

  function DropKey(db: DB, u: Id, provider: string): (tx: Tx) {
    Commit(db.(keys := db.keys - {(u, provider)}))
  }

  // ---- Sign-in: heal, then upsert ---------------------------------------------------------------------

  datatype Claim = Claim(provider: OAuth, oauthId: string, email: string,
                         name: Option<string>, image: Option<string>, admin: bool)

  predicate HasIdentity(u: User, c: Claim) {
    u.provider == c.provider && u.oauthId == c.oauthId
  }

  ghost function ByIdentity(db: DB, c: Claim): (r: Option<Id>)
    ensures r.Some? ==> r.value in db.users && HasIdentity(db.users[r.value], c)
    ensures r.None? ==> forall u | u in db.users :: !HasIdentity(db.users[u], c)
  {
    if exists u :: u in db.users && HasIdentity(db.users[u], c)
    then var u :| u in db.users && HasIdentity(db.users[u], c); Some(u) else None
  }

  ghost function ByEmail(db: DB, c: Claim): (r: Option<Id>)
    ensures r.Some? ==> r.value in db.users && db.users[r.value].email == c.email
    ensures r.None? ==> forall u | u in db.users :: db.users[u].email != c.email
  {
    if exists u :: u in db.users && db.users[u].email == c.email
    then var u :| u in db.users && db.users[u].email == c.email; Some(u) else None
  }

  function Move(owner: Id, loser: Id, winner: Id): (o: Id) {
    if owner == loser then winner else owner
  }

  /** Every row of the loser becomes the winner's; where a unique key forbids that, the winner's row stays. */
  function Merged(db: DB, loser: Id, winner: Id): (db': DB)
    requires loser in db.users && winner in db.users && loser != winner
  {
    var w := db.users[winner];
    db.(users := (db.users - {loser})[winner := w.(credits := w.credits + db.users[loser].credits)],
        threads := MoveThreads(db.threads, loser, winner),
        runs := MoveRuns(db.runs, loser, winner),
        usage := MoveUsage(db.usage, loser, winner),
        uploads := MoveUploads(db.uploads, loser, winner),
        ledger := MoveRows(db.ledger, loser, winner),
        keys := MergedKeys(db.keys, loser, winner),
        redemptions := MovedRedemptions(db.redemptions, loser, winner))
  }

  function MergedKeys(keys: map<(Id, string), string>, loser: Id, winner: Id): (r: map<(Id, string), string>) {
    (map k | k in keys && k.0 != loser :: keys[k])
    + (map k | k in MovedKeys(keys, loser, winner) :: keys[(loser, k.1)])
  }

  function MovedRedemptions(redemptions: set<(Id, string)>, loser: Id, winner: Id): (r: set<(Id, string)>)
  {
    (set k | k in redemptions && k.0 != loser) + (set k | k in redemptions && k.0 == loser :: (winner, k.1))
  }

  function MoveThreads(threads: map<Id, Thread>, loser: Id, winner: Id): (r: map<Id, Thread>) {
    map t | t in threads :: Thread(Move(threads[t].owner, loser, winner))
  }

  function MoveUsage(usage: seq<UsageEvent>, loser: Id, winner: Id): (r: seq<UsageEvent>) {
    seq(|usage|, k requires 0 <= k < |usage| => usage[k].(owner := Move(usage[k].owner, loser, winner)))
  }

  function MoveUploads(uploads: map<Id, Upload>, loser: Id, winner: Id): (r: map<Id, Upload>) {
    map p | p in uploads :: uploads[p].(owner := Move(uploads[p].owner, loser, winner))
  }

  function MoveRuns(runs: map<Id, Run>, loser: Id, winner: Id): (r: map<Id, Run>) {
    map k | k in runs :: runs[k].(owner := Move(runs[k].owner, loser, winner))
  }

  function MoveRows(ledger: seq<LedgerRow>, loser: Id, winner: Id): (r: seq<LedgerRow>)
    ensures |r| == |ledger|
    ensures forall k | 0 <= k < |r| :: r[k] == ledger[k].(owner := Move(ledger[k].owner, loser, winner))
  {
    seq(|ledger|, k requires 0 <= k < |ledger| => ledger[k].(owner := Move(ledger[k].owner, loser, winner)))
  }

  /** Keys of the loser for providers the winner has no key for, under the winner's id. */
  function MovedKeys(keys: map<(Id, string), string>, loser: Id, winner: Id): (ks: set<(Id, string)>)
    ensures forall k | k in ks :: (loser, k.1) in keys
  {
    set k | k in keys && k.0 == loser && (winner, k.1) !in keys :: (winner, k.1)
  }

  function Relinked(u: User, c: Claim): (u': User) {
    u.(email := c.email,
       name := if c.name.Some? then c.name else u.name,
       image := if c.image.Some? then c.image else u.image,
       provider := c.provider, oauthId := c.oauthId,
       role := if c.admin then Admin else u.role)
  }

  /** No row but `self` carries the email or the identity of the claim. */
  ghost predicate Free(db: DB, c: Claim, self: Option<Id>) {
    forall u | u in db.users && Some(u) != self :: db.users[u].email != c.email && !HasIdentity(db.users[u], c)
  }

  ghost function Upserted(db: DB, c: Claim, target: Option<Id>): (tx: Tx)
    requires target.Some? ==> target.value in db.users
  {
    if !Free(db, c, target) then Rollback
    else if target.Some? then Commit(db.(users := db.users[target.value := Relinked(db.users[target.value], c)]))
    else
      Commit(db.(users := db.users[db.nextId := User(c.email, c.name, c.image, c.provider, c.oauthId, 0,
                                                     if c.admin then Admin else Member)],
                 nextId := db.nextId + 1))
  }

  predicate NeedsMerge(byIdentity: Option<Id>, byEmail: Option<Id>) {
    byIdentity.Some? && byEmail.Some? && byIdentity != byEmail
  }

  ghost function Login(db: DB, c: Claim): (tx: Tx) {
    var byIdentity, byEmail := ByIdentity(db, c), ByEmail(db, c);
    var target := if byEmail.Some? then byEmail else byIdentity;
    if !NeedsMerge(byIdentity, byEmail) then Upserted(db, c, target)
    else if !CreditsOk(db.users[byIdentity.value].credits + db.users[byEmail.value].credits) then Rollback
    else Upserted(Merged(db, byIdentity.value, byEmail.value), c, target)
  }
}
