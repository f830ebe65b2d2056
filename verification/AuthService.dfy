// Sign-in, statement by statement: two look-ups, the merge of a duplicate account, and the upsert.
module AuthService {
  import opened Prelude
  import opened Tables
  import opened Transactions
  import opened Database
  import opened ChatController
  import opened SchemaInvariant
  import opened Healing

  // ---- The merge ----------------------------------------------------------------------------------

  const OWNED_TABLES: seq<OwnedTable> := [ThreadsTable, RunsTable, UsageTable, UploadsTable, LedgerTable]

  function ReassignedAll(db: DB, tables: seq<OwnedTable>, l: Id, w: Id): (d: DB) {
    if tables == [] then db else Reassigned(ReassignedAll(db, Front(tables), l, w), Last(tables), l, w)
  }

  lemma ReassignedEverywhere(db: DB, l: Id, w: Id)
    ensures ReassignedAll(db, OWNED_TABLES, l, w) ==
              db.(threads := MoveThreads(db.threads, l, w), runs := MoveRuns(db.runs, l, w),
                  usage := MoveUsage(db.usage, l, w), uploads := MoveUploads(db.uploads, l, w),
                  ledger := MoveRows(db.ledger, l, w))
  {
    var ts := OWNED_TABLES;
    assert ts[..5] == ts && Front(ts[..1]) == [] == ts[..0];
    var d := db;
    for k := 0 to 5
      invariant d == ReassignedAll(db, ts[..k], l, w)
      invariant d == db.(threads := if k > 0 then MoveThreads(db.threads, l, w) else db.threads,
                         runs := if k > 1 then MoveRuns(db.runs, l, w) else db.runs,
                         usage := if k > 2 then MoveUsage(db.usage, l, w) else db.usage,
                         uploads := if k > 3 then MoveUploads(db.uploads, l, w) else db.uploads,
                         ledger := if k > 4 then MoveRows(db.ledger, l, w) else db.ledger)
    {
      assert Front(ts[..k + 1]) == ts[..k];
      d := Reassigned(d, ts[k], l, w);
    }
  }

  lemma {:induction false} AllUsageKept(usage: seq<UsageEvent>, u: Id)
    requires forall k | 0 <= k < |usage| :: usage[k].owner != u
    ensures KeepOthersUsage(usage, u) == usage
  {
    if usage == [] {
    } else {
      AllUsageKept(Front(usage), u);
      FrontAndLast(usage);
    }
  }

  lemma {:induction false} AllRowsKept(ledger: seq<LedgerRow>, u: Id)
    requires forall k | 0 <= k < |ledger| :: ledger[k].owner != u
    ensures KeepOthersRows(ledger, u) == ledger
  {
    if ledger == [] {
    } else {
      AllRowsKept(Front(ledger), u);
      FrontAndLast(ledger);
    }
  }

  lemma {:induction false} NothingRemoved(messages: seq<Message>, usage: seq<UsageEvent>)
    ensures KeepMessages(messages, {}) == messages && KeepUsage(usage, {}) == usage
    decreases |messages| + |usage|
  {
    if messages != [] {
      NothingRemoved(Front(messages), usage);
      FrontAndLast(messages);
    } else if usage != [] {
      NothingRemoved(messages, Front(usage));
      FrontAndLast(usage);
    }
  }

  lemma NoThreadRemoved(db: DB)
    ensures RemoveThreads(db, {}) == db
  {
    NothingRemoved(db.messages, db.usage);
    var d := RemoveThreads(db, {});
    assert d.threads == db.threads && d.runs == db.runs && d.uploads == db.uploads;
  }

  /** Nothing of value is left to cascade: deleting this user removes the user, its keys and its codes. */
  lemma CascadeIsEmpty(db: DB, u: Id)
    requires forall t | t in db.threads :: db.threads[t].owner != u
    requires forall r | r in db.runs :: db.runs[r].owner != u
    requires forall k | 0 <= k < |db.usage| :: db.usage[k].owner != u
    requires forall p | p in db.uploads :: db.uploads[p].owner != u
    requires forall k | 0 <= k < |db.ledger| :: db.ledger[k].owner != u
    ensures UserDeleted(db, u) ==
              db.(users := db.users - {u}, keys := KeepOthersKeys(db.keys, u),
                  redemptions := KeepOthersCodes(db.redemptions, u))
  {
    assert ThreadsOf(db.threads, u) == {};
    NoThreadRemoved(db);
    AllUsageKept(db.usage, u);
    AllRowsKept(db.ledger, u);
    assert KeepOthersRuns(db.runs, u) == db.runs;
    assert KeepOthersUploads(db.uploads, u) == db.uploads;
  }

  /** Moves what the winner lacks; the leftovers die with the loser. */
  method MoveUniqueRows(db: Database, l: Id, w: Id)
    requires l != w
    modifies db`keys, db`redemptions
    ensures KeepOthersKeys(db.keys, l) == MergedKeys(old(db.keys), l, w)
    ensures KeepOthersCodes(db.redemptions, l) == MovedRedemptions(old(db.redemptions), l, w)
  {
    ghost var keys := db.keys;
    db.MoveApiKeys(l, w);
    db.MoveRedeemedCodes(l, w);
    ghost var left, merged := KeepOthersKeys(db.keys, l), MergedKeys(keys, l, w);
    assert forall k :: k in MovedKeys(keys, l, w) <==> k.0 == w && (l, k.1) in keys && k !in keys;
    assert left.Keys == merged.Keys;
    assert forall k | k in left :: left[k] == merged[k];
  }

  method ReassignRows(db: Database, l: Id, w: Id)
    modifies db
    ensures var begin := old(db.State());
            db.State() == begin.(threads := MoveThreads(begin.threads, l, w), runs := MoveRuns(begin.runs, l, w),
                                 usage := MoveUsage(begin.usage, l, w), uploads := MoveUploads(begin.uploads, l, w),
                                 ledger := MoveRows(begin.ledger, l, w))
  {
    ghost var begin := db.State();
    for k := 0 to |OWNED_TABLES|
      invariant db.State() == ReassignedAll(begin, OWNED_TABLES[..k], l, w)
    {
      assert Front(OWNED_TABLES[..k + 1]) == OWNED_TABLES[..k];
      db.Reassign(OWNED_TABLES[k], l, w);
    }
    assert OWNED_TABLES[..|OWNED_TABLES|] == OWNED_TABLES;
    ReassignedEverywhere(begin, l, w);
  }

  /** The merge up to its last statement. */
  ghost predicate Emptied(begin: DB, db: DB, l: Id, w: Id)
    requires l in begin.users && w in begin.users && l != w
  {
    && db.users == begin.users[w := begin.users[w].(credits := begin.users[w].credits + begin.users[l].credits)]
    && db.threads == MoveThreads(begin.threads, l, w) && db.runs == MoveRuns(begin.runs, l, w)
    && db.usage == MoveUsage(begin.usage, l, w) && db.uploads == MoveUploads(begin.uploads, l, w)
    && db.ledger == MoveRows(begin.ledger, l, w)
    && db.messages == begin.messages && db.stripeEvents == begin.stripeEvents && db.nextId == begin.nextId
    && KeepOthersKeys(db.keys, l) == MergedKeys(begin.keys, l, w)
    && KeepOthersCodes(db.redemptions, l) == MovedRedemptions(begin.redemptions, l, w)
  }

  lemma NothingOwned(begin: DB, db: DB, l: Id, w: Id)
    requires l in begin.users && w in begin.users && l != w && Emptied(begin, db, l, w)
    ensures UserDeleted(db, l) ==
              db.(users := db.users - {l}, keys := KeepOthersKeys(db.keys, l),
                  redemptions := KeepOthersCodes(db.redemptions, l))
  {
    CascadeIsEmpty(db, l);
  }

  lemma EmptiedThenDeleted(begin: DB, db: DB, d: DB, l: Id, w: Id)
    requires l in begin.users && w in begin.users && l != w && Emptied(begin, db, l, w)
    requires d == db.(users := db.users - {l}, keys := KeepOthersKeys(db.keys, l),
                      redemptions := KeepOthersCodes(db.redemptions, l))
    ensures d == Merged(begin, l, w)
  {
    var credits := begin.users[w].credits + begin.users[l].credits;
    assert db.users - {l} == (begin.users - {l})[w := begin.users[w].(credits := credits)];
  }

  lemma DeletionCompletesMerge(begin: DB, db: DB, l: Id, w: Id)
    requires l in begin.users && w in begin.users && l != w && Emptied(begin, db, l, w)
    ensures UserDeleted(db, l) == Merged(begin, l, w)
  {
    NothingOwned(begin, db, l, w);
    EmptiedThenDeleted(begin, db, UserDeleted(db, l), l, w);
  }

  /** All statements of the merge but the last. */
  method MoveEverything(db: Database, l: Id, w: Id) returns (r: Result<(), Violation>)
    requires l in db.users && w in db.users && l != w
    modifies db
    ensures r.Ok? <==> CreditsOk(old(db.users)[l].credits + old(db.users)[w].credits)
    ensures r.Ok? ==> Emptied(old(db.State()), db.State(), l, w)
  {
    ReassignRows(db, l, w);
    MoveUniqueRows(db, l, w);
    var carried := db.AddCredits(w, db.users[l].credits);
    if carried.Err? { return Err(carried.error); }
    return Ok(());
  }

  /**
   * Statement after statement, the merge moves every row of the loser to the winner; the final delete takes
   * only what the winner already has.
   */
  method MergeUsers(db: Database, l: Id, w: Id) returns (r: Result<(), Violation>)
    requires l in db.users && w in db.users && l != w
    modifies db
    ensures r.Ok? <==> CreditsOk(old(db.users)[l].credits + old(db.users)[w].credits)
    ensures r.Ok? ==> db.State() == Merged(old(db.State()), l, w)
  {
    r := MoveEverything(db, l, w);
    if r.Ok? {
      DeletionCompletesMerge(old(db.State()), db.State(), l, w);
      db.DeleteFromUsers(l);
    }
  }

  // ---- Sign-in --------------------------------------------------------------------------------------

  method LoginStatements(db: Database, c: Claim) returns (r: Result<Id, Violation>)
    requires UsersOk(db.users) && IdsOk(db.State())
    modifies db
    ensures Ran(Login(old(db.State()), c), old(db.State()), db.State(), r.Ok?, r.Ok?)
    ensures r.Ok? ==> r.value in db.users && db.users[r.value].email == c.email && HasIdentity(db.users[r.value], c)
    ensures r.Ok? ==> r.value == Survivor(old(db.State()), c)
  {
    var byIdentity := db.SelectByIdentity(c);
    var byEmail := db.SelectByEmail(c);
    if byIdentity.Some? && byEmail.Some? && byIdentity != byEmail {
      var merged := MergeUsers(db, byIdentity.value, byEmail.value);
      if merged.Err? { return Err(merged.error); }
    }
    var target := if byEmail.Some? then byEmail else byIdentity;
    if target.Some? {
      var _ :- db.Relink(target.value, c);
      return Ok(target.value);
    }
    r := db.InsertUser(c);
  }

  /** Two accounts behind one claim become one, or nothing changes at all. */
  method LoginWithIdToken(db: Database, c: Claim) returns (r: Result<Id, Violation>)
    requires UsersOk(db.users) && IdsOk(db.State())
    modifies db
    ensures db.State() == After(old(db.State()), Login(old(db.State()), c))
    ensures r.Ok? <==> Login(old(db.State()), c).Commit?
    ensures r.Ok? ==> r.value in db.users && db.users[r.value].email == c.email && HasIdentity(db.users[r.value], c)
    ensures r.Ok? ==> r.value == Survivor(old(db.State()), c)
    ensures r.Ok? ==> SurvivorIs(old(db.State()), c, r.value)
                      && ProfileFollows(old(db.users), r.value, db.users[r.value], c)
    ensures UsersOk(db.users) && IdsOk(db.State())
  {
    if Login(db.State(), c).Commit? { LoginKeepsProfile(db.State(), c); }
    LoginUsersOk(db.State(), c);
    LoginIdsOk(db.State(), c);
    var begin := db.State();
    r := LoginStatements(db, c);
    if r.Err? { db.Rollback(begin); }
  }
}
