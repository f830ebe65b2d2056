// The tables as mutable state, one method per SQL statement. A statement that breaks a constraint changes
// nothing and reports the violation, which makes the caller roll its transaction back.
module Database {
  import opened Prelude
  import opened Tables
  import opened Transactions

  datatype Violation = UniqueViolation | CheckViolation | ForeignKeyViolation

  /** The tables whose rows a merge hands over without any uniqueness constraint. */
  datatype OwnedTable = ThreadsTable | RunsTable | UsageTable | UploadsTable | LedgerTable

  /** UPDATE table SET user_id = winner WHERE user_id = loser. */
  function Reassigned(db: DB, table: OwnedTable, loser: Id, winner: Id): (d: DB) {
    match table
    case ThreadsTable => db.(threads := MoveThreads(db.threads, loser, winner))
    case RunsTable => db.(runs := MoveRuns(db.runs, loser, winner))
    case UsageTable => db.(usage := MoveUsage(db.usage, loser, winner))
    case UploadsTable => db.(uploads := MoveUploads(db.uploads, loser, winner))
    case LedgerTable => db.(ledger := MoveRows(db.ledger, loser, winner))
  }

  /** The usage rows a deleted user takes along. */
  function KeepOthersUsage(usage: seq<UsageEvent>, u: Id): (r: seq<UsageEvent>) {
    if usage == [] then []
    else KeepOthersUsage(Front(usage), u) + (if Last(usage).owner == u then [] else [Last(usage)])
  }

  function KeepOthersRows(ledger: seq<LedgerRow>, u: Id): (r: seq<LedgerRow>) {
    if ledger == [] then []
    else KeepOthersRows(Front(ledger), u) + (if Last(ledger).owner == u then [] else [Last(ledger)])
  }

  function ThreadsOf(threads: map<Id, Thread>, u: Id): (ts: set<Id>) {
    set t | t in threads && threads[t].owner == u
  }

  function KeepOthersRuns(runs: map<Id, Run>, u: Id): (r: map<Id, Run>) {
    map k | k in runs && runs[k].owner != u :: runs[k]
  }

  function KeepOthersUploads(uploads: map<Id, Upload>, u: Id): (r: map<Id, Upload>) {
    map k | k in uploads && uploads[k].owner != u :: uploads[k]
  }

  function KeepOthersKeys(keys: map<(Id, string), string>, u: Id): (r: map<(Id, string), string>) {
    map k | k in keys && k.0 != u :: keys[k]
  }

  function KeepOthersCodes(codes: set<(Id, string)>, u: Id): (r: set<(Id, string)>) {
    set k | k in codes && k.0 != u
  }

  /** DELETE FROM users with every cascade: the user's threads and their rows, then all rows naming the user. */
  function UserDeleted(db: DB, u: Id): (d: DB) {
    var d := RemoveThreads(db, ThreadsOf(db.threads, u));
    d.(users := d.users - {u},
       runs := KeepOthersRuns(d.runs, u),
       usage := KeepOthersUsage(d.usage, u),
       uploads := KeepOthersUploads(d.uploads, u),
       ledger := KeepOthersRows(d.ledger, u),
       keys := KeepOthersKeys(d.keys, u),
       redemptions := KeepOthersCodes(d.redemptions, u))
  }

  // ---- Whose rows a deletion takes ---------------------------------------------------------------------

  ghost predicate ThreadsOnlyTheirs(before: map<Id, Thread>, after: map<Id, Thread>, u: Id) {
    && (forall t :: t in after <==> t in before && before[t].owner != u)
    && (forall t | t in after :: after[t] == before[t])
  }

  ghost predicate RunsOnlyTheirs(before: map<Id, Run>, after: map<Id, Run>, u: Id) {
    && (forall r :: r in after <==> r in before && before[r].owner != u)
    && (forall r | r in after :: after[r] == before[r])
  }

  ghost predicate UploadsOnlyTheirs(before: map<Id, Upload>, after: map<Id, Upload>, u: Id) {
    && (forall p :: p in after <==> p in before && before[p].owner != u)
    && (forall p | p in after :: after[p] == before[p])
  }

  ghost predicate KeysOnlyTheirs(db: DB, d: DB, u: Id) {
    && (forall k :: k in d.keys <==> k in db.keys && k.0 != u)
    && (forall k | k in d.keys :: d.keys[k] == db.keys[k])
    && (forall k :: k in d.redemptions <==> k in db.redemptions && k.0 != u)
  }

  ghost predicate MapsOnlyTheirs(db: DB, d: DB, u: Id) {
    && d.users == db.users - {u} && d.stripeEvents == db.stripeEvents
    && ThreadsOnlyTheirs(db.threads, d.threads, u)
    && RunsOnlyTheirs(db.runs, d.runs, u)
    && UploadsOnlyTheirs(db.uploads, d.uploads, u)
    && KeysOnlyTheirs(db, d, u)
  }

  ghost predicate MessagesOnlyTheirs(before: seq<Message>, after: seq<Message>, gone: set<Id>) {
    forall m :: Bag(after)[m] == if m.thread in gone then 0 else Bag(before)[m]
  }

  ghost predicate UsageOnlyTheirs(before: seq<UsageEvent>, after: seq<UsageEvent>, u: Id) {
    forall e :: Bag(after)[e] == if e.owner == u then 0 else Bag(before)[e]
  }

  ghost predicate LedgerOnlyTheirs(before: seq<LedgerRow>, after: seq<LedgerRow>, u: Id) {
    forall row :: Bag(after)[row] == if row.owner == u then 0 else Bag(before)[row]
  }

  /** `u` and every row of `u` are gone; every row of everybody else is there, as often as before. */
  ghost predicate OnlyTheirs(db: DB, d: DB, u: Id) {
    && MapsOnlyTheirs(db, d, u)
    && MessagesOnlyTheirs(db.messages, d.messages, ThreadsOf(db.threads, u))
    && UsageOnlyTheirs(db.usage, d.usage, u)
    && LedgerOnlyTheirs(db.ledger, d.ledger, u)
  }

  lemma {:induction false} KeptMessageCounts(messages: seq<Message>, gone: set<Id>, m: Message)
    ensures Bag(KeepMessages(messages, gone))[m] == if m.thread in gone then 0 else Bag(messages)[m]
  {
    if messages == [] {
    } else {
      var front, last := Front(messages), Last(messages);
      KeptMessageCounts(front, gone, m);
      if last.thread in gone {
        ConcatNothing(KeepMessages(front, gone));
      } else {
        BagSnoc(KeepMessages(front, gone), last);
      }
    }
  }

  lemma {:induction false} KeptUsageCounts(usage: seq<UsageEvent>, gone: set<Id>, e: UsageEvent)
    ensures Bag(KeepUsage(usage, gone))[e] == if e.thread in gone then 0 else Bag(usage)[e]
  {
    if usage == [] {
    } else {
      var front, last := Front(usage), Last(usage);
      KeptUsageCounts(front, gone, e);
      if last.thread in gone {
        ConcatNothing(KeepUsage(front, gone));
      } else {
        BagSnoc(KeepUsage(front, gone), last);
      }
    }
  }

  lemma {:induction false} OthersUsageCounts(usage: seq<UsageEvent>, u: Id, e: UsageEvent)
    ensures Bag(KeepOthersUsage(usage, u))[e] == if e.owner == u then 0 else Bag(usage)[e]
  {
    if usage == [] {
    } else {
      var front, last := Front(usage), Last(usage);
      OthersUsageCounts(front, u, e);
      if last.owner == u {
        ConcatNothing(KeepOthersUsage(front, u));
      } else {
        BagSnoc(KeepOthersUsage(front, u), last);
      }
    }
  }

  lemma {:induction false} OthersRowCounts(ledger: seq<LedgerRow>, u: Id, row: LedgerRow)
    ensures Bag(KeepOthersRows(ledger, u))[row] == if row.owner == u then 0 else Bag(ledger)[row]
  {
    if ledger == [] {
    } else {
      var front, last := Front(ledger), Last(ledger);
      OthersRowCounts(front, u, row);
      if last.owner == u {
        ConcatNothing(KeepOthersRows(front, u));
      } else {
        BagSnoc(KeepOthersRows(front, u), last);
      }
    }
  }

  lemma InBag<T>(xs: seq<T>)
    ensures forall x :: Bag(xs)[x] > 0 <==> x in xs
  {
    BagIsMultiset(xs);
  }

  /** The usage rows of a user are those of the user's threads. */
  lemma UsageOfDeleted(db: DB, u: Id)
    requires OwnersOk(db)
    ensures UsageOnlyTheirs(db.usage, UserDeleted(db, u).usage, u)
  {
    var gone := ThreadsOf(db.threads, u);
    InBag(db.usage);
    forall e ensures Bag(UserDeleted(db, u).usage)[e] == if e.owner == u then 0 else Bag(db.usage)[e] {
      OthersUsageCounts(KeepUsage(db.usage, gone), u, e);
      KeptUsageCounts(db.usage, gone, e);
      if e in db.usage {
        var k :| 0 <= k < |db.usage| && db.usage[k] == e;
        assert UsageRowOk(db.threads, db.runs, db.usage[k]);
      }
    }
  }

  lemma MessagesOfDeleted(db: DB, u: Id)
    ensures MessagesOnlyTheirs(db.messages, UserDeleted(db, u).messages, ThreadsOf(db.threads, u))
  {
    forall m: Message
      ensures Bag(UserDeleted(db, u).messages)[m] ==
                if m.thread in ThreadsOf(db.threads, u) then 0 else Bag(db.messages)[m]
    {
      KeptMessageCounts(db.messages, ThreadsOf(db.threads, u), m);
    }
  }

  lemma LedgerOfDeleted(db: DB, u: Id)
    ensures LedgerOnlyTheirs(db.ledger, UserDeleted(db, u).ledger, u)
  {
    forall row: LedgerRow
      ensures Bag(UserDeleted(db, u).ledger)[row] == if row.owner == u then 0 else Bag(db.ledger)[row]
    {
      OthersRowCounts(db.ledger, u, row);
    }
  }

  lemma DeletedMaps(db: DB, u: Id)
    requires OwnersOk(db)
    ensures MapsOnlyTheirs(db, UserDeleted(db, u), u)
  {
    assert forall p | p in db.uploads :: UploadOk(db.threads, db.users.Keys, db.uploads[p]);
  }

  /** Deleting a user takes exactly the user's rows: nobody else loses one. */
  lemma DeletionTakesOnlyTheirs(db: DB, u: Id)
    requires OwnersOk(db)
    ensures OnlyTheirs(db, UserDeleted(db, u), u)
  {
    DeletedMaps(db, u);
    MessagesOfDeleted(db, u);
    UsageOfDeleted(db, u);
    LedgerOfDeleted(db, u);
  }

  // ... and no reference dangles.

  lemma StillThere<T>(before: seq<T>, after: seq<T>, x: T)
    requires x in after && Bag(after)[x] <= Bag(before)[x]
    ensures x in before && Bag(after)[x] > 0
  {
    InBag(before);
    InBag(after);
  }

  lemma RestMessagesOk(before: seq<Message>, after: seq<Message>,
                       threads: map<Id, Thread>, rest: map<Id, Thread>, u: Id)
    requires MessagesOwned(before, threads) && MessagesOnlyTheirs(before, after, ThreadsOf(threads, u))
    requires forall t :: t in rest <==> t in threads && threads[t].owner != u
    ensures MessagesOwned(after, rest)
  {
    forall k | 0 <= k < |after| ensures after[k].thread in rest {
      StillThere(before, after, after[k]);
      var j :| 0 <= j < |before| && before[j] == after[k];
    }
  }

  lemma RestUsageOk(before: seq<UsageEvent>, after: seq<UsageEvent>, threads: map<Id, Thread>,
                    rest: map<Id, Thread>, runs: map<Id, Run>, left: map<Id, Run>, u: Id)
    requires UsageOwned(before, threads, runs) && RunsOwned(runs, threads) && UsageOnlyTheirs(before, after, u)
    requires ThreadsOnlyTheirs(threads, rest, u) && RunsOnlyTheirs(runs, left, u)
    ensures UsageOwned(after, rest, left)
  {
    forall k | 0 <= k < |after| ensures UsageRowOk(rest, left, after[k]) {
      StillThere(before, after, after[k]);
      var j :| 0 <= j < |before| && before[j] == after[k];
      assert UsageRowOk(threads, runs, before[j]);
    }
  }

  lemma RestLedgerOk(before: seq<LedgerRow>, after: seq<LedgerRow>, users: set<Id>, u: Id)
    requires LedgerOwned(before, users) && LedgerOnlyTheirs(before, after, u)
    ensures LedgerOwned(after, users - {u})
  {
    forall k | 0 <= k < |after| ensures after[k].owner in users - {u} {
      StillThere(before, after, after[k]);
      var j :| 0 <= j < |before| && before[j] == after[k];
    }
  }

  lemma RestMapsOk(db: DB, d: DB, u: Id)
    requires OwnersOk(db) && MapsOnlyTheirs(db, d, u)
    ensures ThreadsOwned(d.threads, d.users.Keys) && RunsOwned(d.runs, d.threads)
    ensures KeysOwned(d.keys, d.users.Keys) && CodesOwned(d.redemptions, d.users.Keys)
  {
  }

  lemma RestUploadsOk(db: DB, d: DB, u: Id)
    requires UploadsOwned(db.uploads, db.threads, db.users.Keys) && MapsOnlyTheirs(db, d, u)
    ensures UploadsOwned(d.uploads, d.threads, d.users.Keys)
  {
    forall p | p in d.uploads ensures UploadOk(d.threads, d.users.Keys, d.uploads[p]) {
      assert UploadOk(db.threads, db.users.Keys, db.uploads[p]);
    }
  }

  lemma RestOwnersOk(db: DB, d: DB, u: Id)
    requires OwnersOk(db) && OnlyTheirs(db, d, u)
    ensures OwnersOk(d)
  {
    assert d.users.Keys == db.users.Keys - {u};
    RestMapsOk(db, d, u);
    RestUploadsOk(db, d, u);
    RestMessagesOk(db.messages, d.messages, db.threads, d.threads, u);
    RestUsageOk(db.usage, d.usage, db.threads, d.threads, db.runs, d.runs, u);
    RestLedgerOk(db.ledger, d.ledger, db.users.Keys, u);
  }

  // ---- What a deleted thread takes along ----------------------------------------------------------------

  /** The messages of one thread, in order. */
  function InThread(messages: seq<Message>, t: Id): (r: seq<Message>) {
    if messages == [] then []
    else InThread(Front(messages), t) + (if Last(messages).thread == t then [Last(messages)] else [])
  }

  lemma InThreadSnoc(messages: seq<Message>, m: Message, t: Id)
    ensures InThread(messages + [m], t) == InThread(messages, t) + (if m.thread == t then [m] else [])
  {
    assert Front(messages + [m]) == messages;
  }

  lemma {:induction false} KeptInOrder(messages: seq<Message>, gone: set<Id>, t: Id)
    ensures InThread(KeepMessages(messages, gone), t) == if t in gone then [] else InThread(messages, t)
  {
    if messages == [] {
    } else {
      var kept, last := KeepMessages(Front(messages), gone), Last(messages);
      KeptInOrder(Front(messages), gone, t);
      if last.thread in gone {
        ConcatNothing(kept);
      } else {
        InThreadSnoc(kept, last, t);
      }
      ConcatNothing(InThread(Front(messages), t));
    }
  }

  /** The thread is gone with its runs, messages, usage rows and uploads; everything else is as it was. */
  ghost predicate ThreadGone(db: DB, d: DB, t: Id) {
    && d.threads == db.threads - {t}
    && (forall r :: r in d.runs <==> r in db.runs && db.runs[r].thread != t)
    && (forall r | r in d.runs :: d.runs[r] == db.runs[r])
    && (forall p :: p in d.uploads <==> p in db.uploads && db.uploads[p].thread != Some(t))
    && (forall p | p in d.uploads :: d.uploads[p] == db.uploads[p])
    && (forall x :: InThread(d.messages, x) == if x == t then [] else InThread(db.messages, x))
    && (forall e :: Bag(d.usage)[e] == if e.thread == t then 0 else Bag(db.usage)[e])
    && d.users == db.users && d.ledger == db.ledger && d.keys == db.keys
    && d.redemptions == db.redemptions && d.stripeEvents == db.stripeEvents
  }

  lemma RemovedThreadIsGone(db: DB, t: Id)
    ensures ThreadGone(db, RemoveThreads(db, {t}), t)
  {
    var d := RemoveThreads(db, {t});
    forall x ensures InThread(d.messages, x) == if x == t then [] else InThread(db.messages, x) {
      KeptInOrder(db.messages, {t}, x);
    }
    forall e ensures Bag(d.usage)[e] == if e.thread == t then 0 else Bag(db.usage)[e] {
      KeptUsageCounts(db.usage, {t}, e);
    }
  }

  /** In tables whose owners agree, a deletion takes exactly the user's rows and the owners still agree. */
  ghost predicate DeletedCleanly(db: DB, d: DB, u: Id) {
    OwnersOk(db) ==> OnlyTheirs(db, d, u) && OwnersOk(d)
  }

  lemma DeletionIsClean(db: DB, u: Id)
    ensures DeletedCleanly(db, UserDeleted(db, u), u)
  {
    if OwnersOk(db) {
      DeletionTakesOnlyTheirs(db, u);
      RestOwnersOk(db, UserDeleted(db, u), u);
    }
  }

  class Database {
    var users: map<Id, User>
    var threads: map<Id, Thread>
    var runs: map<Id, Run>
    var messages: seq<Message>
    var usage: seq<UsageEvent>
    var uploads: map<Id, Upload>
    var ledger: seq<LedgerRow>
    var keys: map<(Id, string), string>
    var redemptions: set<(Id, string)>
    var stripeEvents: set<string>
    var nextId: Id

    function State(): (db: DB)
      reads this
    {
      DB(users, threads, runs, messages, usage, uploads, ledger, keys, redemptions, stripeEvents, nextId)
    }

    constructor ()
      ensures State() == Empty()
    {
      users, threads, runs, messages, usage, uploads := map[], map[], map[], [], [], map[];
      ledger, keys, redemptions, stripeEvents, nextId := [], map[], {}, {}, 0;
    }

    method SetTables(d: DB)
      modifies this
      ensures State() == d
    {
      users, threads, runs, messages, usage := d.users, d.threads, d.runs, d.messages, d.usage;
      uploads, ledger, keys, redemptions := d.uploads, d.ledger, d.keys, d.redemptions;
      stripeEvents, nextId := d.stripeEvents, d.nextId;
    }

    /** ROLLBACK to the tables of BEGIN. */
    method Rollback(begin: DB)
      modifies this
      ensures State() == begin
    {
      SetTables(begin);
    }

    // ---- Credits ----------------------------------------------------------------------------------

    /** UPDATE users SET credits = credits + delta WHERE id = u RETURNING credits. */
    method AddCredits(u: Id, delta: int) returns (r: Result<Option<int>, Violation>)
      modifies this`users
      ensures u !in old(users) ==> r == Ok(None) && users == old(users)
      ensures u in old(users) ==>
                var sum := old(users)[u].credits + delta;
                if CreditsOk(sum) then r == Ok(Some(sum)) && users == old(users)[u := old(users)[u].(credits := sum)]
                else r == Err(CheckViolation) && users == old(users)
    {
      if u !in users { return Ok(None); }
      var sum := users[u].credits + delta;
      if !CreditsOk(sum) { return Err(CheckViolation); }
      users := users[u := users[u].(credits := sum)];
      return Ok(Some(sum));
    }

    method InsertLedger(u: Id, delta: int, reason: Reason, ref: Ref) returns (r: Result<(), Violation>)
      modifies this`ledger
      ensures if u in users then r == Ok(()) && ledger == old(ledger) + [LedgerRow(u, delta, reason, ref)]
              else r == Err(ForeignKeyViolation) && ledger == old(ledger)
    {
      if u !in users { return Err(ForeignKeyViolation); }
      ledger := ledger + [LedgerRow(u, delta, reason, ref)];
      return Ok(());
    }

    // ---- Chat ---------------------------------------------------------------------------------------

    method InsertMessage(t: Id, role: Role, content: string) returns (r: Result<(), Violation>)
      modifies this`messages
      ensures if t in threads then r == Ok(()) && messages == old(messages) + [Message(t, role, content)]
              else r == Err(ForeignKeyViolation) && messages == old(messages)
    {
      if t !in threads { return Err(ForeignKeyViolation); }
      messages := messages + [Message(t, role, content)];
      return Ok(());
    }

    /** The partial unique index is checked when the row goes in, the foreign keys after it. */
    method InsertRun(t: Id, u: Id, model: string) returns (r: Result<Id, Violation>)
      modifies this`runs, this`nextId
      ensures r.Err? ==> runs == old(runs) && nextId == old(nextId)
      ensures r.Err? && r.error.UniqueViolation? <==> Busy(old(runs), t)
      ensures r.Ok? <==> !Busy(old(runs), t) && t in threads && u in users
      ensures r.Ok? ==> r.value == old(nextId) && nextId == old(nextId) + 1
                        && runs == old(runs)[old(nextId) := Run(t, u, model, Running)]
    {
      if Busy(runs, t) { return Err(UniqueViolation); }
      if t !in threads || u !in users { return Err(ForeignKeyViolation); }
      r := Ok(nextId);
      runs := runs[nextId := Run(t, u, model, Running)];
      nextId := nextId + 1;
    }

    /** UPDATE runs SET status WHERE id = run AND status = 'running' RETURNING id. */
    method CloseRun(run: Id, status: Status) returns (closed: bool)
      modifies this`runs
      ensures closed <==> run in old(runs) && old(runs)[run].status.Running?
      ensures runs == if closed then old(runs)[run := old(runs)[run].(status := status)] else old(runs)
    {
      closed := run in runs && runs[run].status.Running?;
      if closed { runs := runs[run := runs[run].(status := status)]; }
    }

    method DeleteFromThreads(t: Id)
      modifies this
      ensures State() == RemoveThreads(old(State()), {t})
      ensures ThreadGone(old(State()), State(), t)
    {
      RemovedThreadIsGone(State(), t);
      var d := RemoveThreads(State(), {t});
      threads, runs, messages, usage, uploads := d.threads, d.runs, d.messages, d.usage, d.uploads;
    }

    // ---- Grants ---------------------------------------------------------------------------------------

    /** INSERT ... ON CONFLICT DO NOTHING RETURNING event_id. */
    method InsertStripeEvent(event: string) returns (inserted: bool)
      modifies this`stripeEvents
      ensures inserted <==> event !in old(stripeEvents)
      ensures stripeEvents == old(stripeEvents) + {event}
    {
      inserted := event !in stripeEvents;
      stripeEvents := stripeEvents + {event};
    }

    method InsertRedemption(u: Id, code: string) returns (r: Result<bool, Violation>)
      modifies this`redemptions
      ensures if (u, code) in old(redemptions) then r == Ok(false) && redemptions == old(redemptions)
              else if u !in users then r == Err(ForeignKeyViolation) && redemptions == old(redemptions)
              else r == Ok(true) && redemptions == old(redemptions) + {(u, code)}
    {
      if (u, code) in redemptions { return Ok(false); }
      if u !in users { return Err(ForeignKeyViolation); }
      redemptions := redemptions + {(u, code)};
      return Ok(true);
    }

    // ---- Accounts ---------------------------------------------------------------------------------------

    method SelectByIdentity(c: Claim) returns (r: Option<Id>)
      requires UsersOk(users)
      ensures r == ByIdentity(State(), c)
    {
      r := None;
      if exists u :: u in users && HasIdentity(users[u], c) {
        var u :| u in users && HasIdentity(users[u], c);
        r := Some(u);
      }
    }

    method SelectByEmail(c: Claim) returns (r: Option<Id>)
      requires UsersOk(users)
      ensures r == ByEmail(State(), c)
    {
      r := None;
      if exists u :: u in users && users[u].email == c.email {
        var u :| u in users && users[u].email == c.email;
        r := Some(u);
      }
    }

    method Reassign(table: OwnedTable, loser: Id, winner: Id)
      modifies this
      ensures State() == Reassigned(old(State()), table, loser, winner)
    {
      match table
      case ThreadsTable => threads := MoveThreads(threads, loser, winner);
      case RunsTable => runs := MoveRuns(runs, loser, winner);
      case UsageTable => usage := MoveUsage(usage, loser, winner);
      case UploadsTable => uploads := MoveUploads(uploads, loser, winner);
      case LedgerTable => ledger := MoveRows(ledger, loser, winner);
    }

    /** Moves the keys the winner lacks; the others stay with the loser. */
    method MoveApiKeys(loser: Id, winner: Id)
      modifies this`keys
      ensures forall k :: k in keys <==>
                (k in old(keys) && !(k.0 == loser && (winner, k.1) !in old(keys)))
                || (k.0 == winner && (loser, k.1) in old(keys) && k !in old(keys))
      ensures forall k | k in keys :: keys[k] == if k in old(keys) then old(keys)[k] else old(keys)[(loser, k.1)]
    {
      var staying := map k | k in keys && !(k.0 == loser && (winner, k.1) !in keys) :: keys[k];
      var moving := MovedKeys(keys, loser, winner);
      keys := staying + map k | k in moving :: keys[(loser, k.1)];
    }

    method MoveRedeemedCodes(loser: Id, winner: Id)
      modifies this`redemptions
      ensures forall k :: k in redemptions <==>
                (k in old(redemptions) && !(k.0 == loser && (winner, k.1) !in old(redemptions)))
                || (k.0 == winner && (loser, k.1) in old(redemptions))
    {
      var staying := set k | k in redemptions && !(k.0 == loser && (winner, k.1) !in redemptions);
      var moving := set k | k in redemptions && k.0 == loser && (winner, k.1) !in redemptions :: (winner, k.1);
      redemptions := staying + moving;
    }

    method DeleteFromUsers(u: Id)
      modifies this
      ensures State() == UserDeleted(old(State()), u)
      ensures DeletedCleanly(old(State()), State(), u)
    {
      DeletionIsClean(State(), u);
      SetTables(UserDeleted(State(), u));
    }

    /** UPDATE users SET email, name, image, identity, role WHERE id = u. */
    method Relink(u: Id, c: Claim) returns (r: Result<(), Violation>)
      requires u in users
      modifies this`users
      ensures if Free(old(State()), c, Some(u)) then r == Ok(()) && users == old(users)[u := Relinked(old(users)[u], c)]
              else r == Err(UniqueViolation) && users == old(users)
    {
      if exists v :: v in users && v != u && (users[v].email == c.email || HasIdentity(users[v], c)) {
        return Err(UniqueViolation);
      }
      users := users[u := Relinked(users[u], c)];
      return Ok(());
    }

    method InsertUser(c: Claim) returns (r: Result<Id, Violation>)
      modifies this`users, this`nextId
      ensures if Free(old(State()), c, None)
              then r == Ok(old(nextId)) && nextId == old(nextId) + 1
                   && users == old(users)[old(nextId) := User(c.email, c.name, c.image, c.provider, c.oauthId, 0,
                                                             if c.admin then Admin else Member)]
              else r == Err(UniqueViolation) && users == old(users) && nextId == old(nextId)
    {
      if exists v :: v in users && (users[v].email == c.email || HasIdentity(users[v], c)) {
        return Err(UniqueViolation);
      }
      r := Ok(nextId);
      users := users[nextId := User(c.email, c.name, c.image, c.provider, c.oauthId, 0,
                                    if c.admin then Admin else Member)];
      nextId := nextId + 1;
    }
  }
}
