// What a sign-in does to the accounts that carry its email or its identity: they become one account, and
// nothing either of them owned is lost or ends with anybody else.
module Healing {
  import opened Prelude
  import opened Tables
  import opened Transactions
  import opened ServiceSystem
  import opened SchemaInvariant

  /** The accounts the claim is about: at most one by identity, at most one by email. */
  function Accounts(db: DB, c: Claim): (us: set<Id>) {
    set u | u in db.users && (HasIdentity(db.users[u], c) || db.users[u].email == c.email)
  }

  ghost function Survivor(db: DB, c: Claim): (u: Id) {
    var byIdentity, byEmail := ByIdentity(db, c), ByEmail(db, c);
    if byEmail.Some? then byEmail.value else if byIdentity.Some? then byIdentity.value else db.nextId
  }

  function Follow(owner: Id, accounts: set<Id>, survivor: Id): (o: Id) {
    if owner in accounts then survivor else owner
  }

  /** Rows of the accounts belong to the survivor, every other row is as it was. */
  ghost predicate RowsFollow(db: DB, d: DB, accounts: set<Id>, survivor: Id) {
    && d.threads.Keys == db.threads.Keys
    && (forall t | t in db.threads :: d.threads[t] == Thread(Follow(db.threads[t].owner, accounts, survivor)))
    && d.runs.Keys == db.runs.Keys
    && (forall r | r in db.runs :: d.runs[r] == db.runs[r].(owner := Follow(db.runs[r].owner, accounts, survivor)))
    && |d.usage| == |db.usage|
    && (forall k | 0 <= k < |d.usage| ::
          d.usage[k] == db.usage[k].(owner := Follow(db.usage[k].owner, accounts, survivor)))
    && d.uploads.Keys == db.uploads.Keys
    && (forall p | p in db.uploads ::
          d.uploads[p] == db.uploads[p].(owner := Follow(db.uploads[p].owner, accounts, survivor)))
    && |d.ledger| == |db.ledger|
    && (forall k | 0 <= k < |d.ledger| ::
          d.ledger[k] == db.ledger[k].(owner := Follow(db.ledger[k].owner, accounts, survivor)))
    && d.messages == db.messages && d.stripeEvents == db.stripeEvents
  }

  /** One key per provider: the survivor's own if it had one, else the other account's. */
  ghost predicate KeysFollow(db: DB, d: DB, accounts: set<Id>, survivor: Id) {
    && (forall u, p | u !in accounts ::
          ((u, p) in d.keys <==> (u, p) in db.keys) && ((u, p) in db.keys ==> d.keys[(u, p)] == db.keys[(u, p)]))
    && (forall u, p | u in accounts && (u, p) in db.keys :: (survivor, p) in d.keys)
    && (forall u, p | u in accounts && (u, p) in d.keys ::
          && u == survivor
          && if (survivor, p) in db.keys then d.keys[(u, p)] == db.keys[(survivor, p)]
             else exists v | v in accounts :: (v, p) in db.keys && d.keys[(u, p)] == db.keys[(v, p)])
  }

  /** A code counts as redeemed when either account redeemed it. */
  ghost predicate RedemptionsFollow(db: DB, d: DB, accounts: set<Id>, survivor: Id) {
    && (forall u, code | u !in accounts :: (u, code) in d.redemptions <==> (u, code) in db.redemptions)
    && (forall u, code | u in accounts && (u, code) in db.redemptions :: (survivor, code) in d.redemptions)
    && (forall u, code | u in accounts && (u, code) in d.redemptions ::
          u == survivor && exists v | v in accounts :: (v, code) in db.redemptions)
  }

  /** The survivor holds what the accounts held together; nobody else's row changes. */
  ghost predicate CreditsFollow(users: map<Id, User>, after: map<Id, User>, accounts: set<Id>, survivor: Id) {
    && after.Keys == users.Keys - accounts + {survivor}
    && (forall u | u in users && u !in accounts :: after[u] == users[u])
    && (accounts == {} ==> after[survivor].credits == 0)
    && (forall u | u in users && accounts == {u} :: after[survivor].credits == users[u].credits)
    && (forall u, v | u in users && v in users && u != v && accounts == {u, v} ::
          after[survivor].credits == users[u].credits + users[v].credits)
  }

  /** The claim's name and picture where it has them, else those kept; an admin stays one, and a claim can make one. */
  ghost predicate ProfileFollows(users: map<Id, User>, survivor: Id, u: User, c: Claim) {
    && (u.role.Admin? <==> c.admin || (survivor in users && users[survivor].role.Admin?))
    && (c.name.Some? ==> u.name == c.name) && (c.image.Some? ==> u.image == c.image)
    && (c.name.None? ==> u.name == if survivor in users then users[survivor].name else None)
    && (c.image.None? ==> u.image == if survivor in users then users[survivor].image else None)
  }

  /** The account with the email survives, else the one with the identity, else a new one. */
  ghost predicate SurvivorIs(db: DB, c: Claim, s: Id) {
    if exists u :: u in db.users && db.users[u].email == c.email then s in db.users && db.users[s].email == c.email
    else if exists u :: u in db.users && HasIdentity(db.users[u], c) then s in db.users && HasIdentity(db.users[s], c)
    else s == db.nextId
  }

  ghost predicate OneAccount(d: DB, c: Claim, survivor: Id) {
    && survivor in d.users && d.users[survivor].email == c.email && HasIdentity(d.users[survivor], c)
    && forall u | u in d.users && u != survivor :: d.users[u].email != c.email && !HasIdentity(d.users[u], c)
  }

  // ---- The accounts of a claim --------------------------------------------------------------------

  lemma AccountsAre(db: DB, c: Claim)
    requires UsersOk(db.users)
    ensures var byIdentity, byEmail := ByIdentity(db, c), ByEmail(db, c);
            Accounts(db, c) ==
              (if byIdentity.Some? then {byIdentity.value} else {}) + (if byEmail.Some? then {byEmail.value} else {})
  {
    IdentityUnique(db, c);
  }

  // ---- Merging ------------------------------------------------------------------------------------

  lemma MergeRows(db: DB, l: Id, w: Id)
    requires l in db.users && w in db.users && l != w
    ensures RowsFollow(db, Merged(db, l, w), {l, w}, w)
  {
  }

  lemma MergeKeys(db: DB, l: Id, w: Id)
    requires l in db.users && w in db.users && l != w
    ensures KeysFollow(db, Merged(db, l, w), {l, w}, w)
  {
    var d := Merged(db, l, w);
    forall u, p | u in {l, w} && (u, p) in db.keys ensures (w, p) in d.keys {
      if u == l && (w, p) !in db.keys {
        assert (w, p) in MovedKeys(db.keys, l, w);
      }
    }
  }

  lemma MergeRedemptions(db: DB, l: Id, w: Id)
    requires l in db.users && w in db.users && l != w
    ensures RedemptionsFollow(db, Merged(db, l, w), {l, w}, w)
  {
    var d := Merged(db, l, w);
    assert d.redemptions == MovedRedemptions(db.redemptions, l, w);
    forall u, code | u in {l, w} && (u, code) in db.redemptions ensures (w, code) in d.redemptions {
    }
    forall u, code | u in {l, w} && (u, code) in d.redemptions
      ensures u == w && exists v | v in {l, w} :: (v, code) in db.redemptions
    {
      assert (l, code) in db.redemptions || (w, code) in db.redemptions;
    }
  }

  lemma MergeCredits(db: DB, l: Id, w: Id, c: Claim)
    requires l in db.users && w in db.users && l != w
    ensures var users := Merged(db, l, w).users;
            CreditsFollow(db.users, users[w := Relinked(users[w], c)], {l, w}, w)
  {
    forall u, v | u != v && {l, w} == {u, v} ensures (u == l && v == w) || (u == w && v == l) {
      assert u in {l, w} && v in {l, w};
    }
    forall u ensures {l, w} != {u} {
      assert l in {l, w} && w in {l, w};
    }
  }

  // ---- No merge -------------------------------------------------------------------------------------

  lemma UntouchedFollows(db: DB, d: DB, accounts: set<Id>, survivor: Id)
    requires accounts <= {survivor}
    requires d == db.(users := d.users, nextId := d.nextId)
    ensures RowsFollow(db, d, accounts, survivor)
    ensures KeysFollow(db, d, accounts, survivor)
    ensures RedemptionsFollow(db, d, accounts, survivor)
  {
  }

  lemma RelinkCredits(users: map<Id, User>, c: Claim, u: Id)
    requires u in users
    ensures CreditsFollow(users, users[u := Relinked(users[u], c)], {u}, u)
  {
    forall a, b | a != b ensures {u} != {a, b} {
      assert a in {a, b} && b in {a, b};
    }
  }

  // ---- Sign-in ----------------------------------------------------------------------------------------

  lemma LoginAfterMerge(db: DB, c: Claim)
    requires UsersOk(db.users) && Login(db, c).Commit? && NeedsMerge(ByIdentity(db, c), ByEmail(db, c))
    ensures var l, w := ByIdentity(db, c).value, ByEmail(db, c).value;
            var m := Merged(db, l, w);
            Survivor(db, c) == w && Login(db, c).db == m.(users := m.users[w := Relinked(m.users[w], c)])
  {
  }

  lemma LoginWithoutMerge(db: DB, c: Claim)
    requires UsersOk(db.users) && IdsOk(db) && Login(db, c).Commit? && !NeedsMerge(ByIdentity(db, c), ByEmail(db, c))
    ensures var s := Survivor(db, c);
            var d := Login(db, c).db;
            && d == db.(users := d.users, nextId := d.nextId)
            && if s in db.users then d.users == db.users[s := Relinked(db.users[s], c)]
               else exists u: User :: u.credits == 0 && d.users == db.users[s := u]
  {
    var d := Login(db, c).db;
    if ByIdentity(db, c).None? && ByEmail(db, c).None? {
      var u := User(c.email, c.name, c.image, c.provider, c.oauthId, 0, if c.admin then Admin else Member);
      assert d.users == db.users[db.nextId := u];
    }
  }

  /**
   * Healing is lossless: every thread, run, usage row, upload, ledger row, key and redeemed code of the accounts
   * behind the claim ends with the survivor, as do their credits, and no other account changes.
   */
  lemma LoginLosesNothing(db: DB, c: Claim)
    requires UsersOk(db.users) && IdsOk(db) && Login(db, c).Commit?
    ensures var d, s, accounts := Login(db, c).db, Survivor(db, c), Accounts(db, c);
            && RowsFollow(db, d, accounts, s)
            && KeysFollow(db, d, accounts, s)
            && RedemptionsFollow(db, d, accounts, s)
            && CreditsFollow(db.users, d.users, accounts, s)
  {
    var byIdentity, byEmail := ByIdentity(db, c), ByEmail(db, c);
    AccountsAre(db, c);
    if NeedsMerge(byIdentity, byEmail) {
      LoginAfterMerge(db, c);
      MergeLosesNothing(db, Login(db, c).db, byIdentity.value, byEmail.value, c);
      assert Accounts(db, c) == {byIdentity.value, byEmail.value};
    } else {
      LoginWithoutMerge(db, c);
      UpsertLosesNothing(db, Login(db, c).db, c, Accounts(db, c), Survivor(db, c));
    }
  }

  lemma UpsertLosesNothing(db: DB, d: DB, c: Claim, accounts: set<Id>, s: Id)
    requires d == db.(users := d.users, nextId := d.nextId)
    requires accounts == if s in db.users then {s} else {}
    requires if s in db.users then d.users == db.users[s := Relinked(db.users[s], c)]
             else exists u: User :: u.credits == 0 && d.users == db.users[s := u]
    ensures RowsFollow(db, d, accounts, s)
    ensures KeysFollow(db, d, accounts, s)
    ensures RedemptionsFollow(db, d, accounts, s)
    ensures CreditsFollow(db.users, d.users, accounts, s)
  {
    UntouchedFollows(db, d, accounts, s);
    if s in db.users {
      RelinkCredits(db.users, c, s);
    }
  }

  lemma MergeLosesNothing(db: DB, d: DB, l: Id, w: Id, c: Claim)
    requires l in db.users && w in db.users && l != w
    requires var m := Merged(db, l, w); d == m.(users := m.users[w := Relinked(m.users[w], c)])
    ensures RowsFollow(db, d, {l, w}, w)
    ensures KeysFollow(db, d, {l, w}, w)
    ensures RedemptionsFollow(db, d, {l, w}, w)
    ensures CreditsFollow(db.users, d.users, {l, w}, w)
  {
    MergeRows(db, l, w);
    MergeKeys(db, l, w);
    MergeRedemptions(db, l, w);
    MergeCredits(db, l, w, c);
  }

  /** After a sign-in exactly one row has the email, and it alone has the identity. */
  lemma LoginLeavesOneAccount(db: DB, c: Claim)
    requires UsersOk(db.users) && Login(db, c).Commit?
    ensures OneAccount(Login(db, c).db, c, Survivor(db, c))
  {
    var byIdentity, byEmail := ByIdentity(db, c), ByEmail(db, c);
    var target := if byEmail.Some? then byEmail else byIdentity;
    UpsertFree(db, c);
    if NeedsMerge(byIdentity, byEmail) {
      UpsertLeavesOne(Merged(db, byIdentity.value, byEmail.value), c, target);
    } else {
      UpsertLeavesOne(db, c, target);
    }
  }

  lemma UpsertLeavesOne(m: DB, c: Claim, target: Option<Id>)
    requires Free(m, c, target) && (target.Some? ==> target.value in m.users)
    ensures Upserted(m, c, target).Commit?
    ensures OneAccount(Upserted(m, c, target).db, c, if target.Some? then target.value else m.nextId)
  {
  }

  lemma UpsertedProfile(m: DB, c: Claim, target: Option<Id>)
    requires Free(m, c, target) && (if target.Some? then target.value in m.users else m.nextId !in m.users)
    ensures var s := if target.Some? then target.value else m.nextId;
            && s in Upserted(m, c, target).db.users
            && ProfileFollows(m.users, s, Upserted(m, c, target).db.users[s], c)
  {
  }

  /** Nobody is demoted by signing in, and a claim overwrites a profile only with what it brings. */
  lemma LoginKeepsProfile(db: DB, c: Claim)
    requires UsersOk(db.users) && IdsOk(db) && Login(db, c).Commit?
    ensures var s := Survivor(db, c);
            && SurvivorIs(db, c, s) && s in Login(db, c).db.users
            && ProfileFollows(db.users, s, Login(db, c).db.users[s], c)
  {
    var byIdentity, byEmail := ByIdentity(db, c), ByEmail(db, c);
    var target := if byEmail.Some? then byEmail else byIdentity;
    UpsertFree(db, c);
    if NeedsMerge(byIdentity, byEmail) {
      UpsertedProfile(Merged(db, byIdentity.value, byEmail.value), c, target);
    } else {
      UpsertedProfile(db, c, target);
    }
  }

  /** A second sign-in with the same claim finds nothing left to do. */
  lemma LoginIsIdempotent(db: DB, c: Claim)
    requires UsersOk(db.users) && Login(db, c).Commit?
    ensures Login(Login(db, c).db, c) == Commit(Login(db, c).db)
  {
    LoginLeavesOneAccount(db, c);
    Settled(Login(db, c).db, c, Survivor(db, c)) by { RelinkedTwice(db, c); }
  }

  lemma RelinkedTwice(db: DB, c: Claim)
    requires UsersOk(db.users) && Login(db, c).Commit?
    ensures var d, s := Login(db, c).db, Survivor(db, c); s in d.users && Relinked(d.users[s], c) == d.users[s]
  {
  }

  lemma Settled(d: DB, c: Claim, s: Id)
    requires OneAccount(d, c, s) && Relinked(d.users[s], c) == d.users[s]
    ensures Login(d, c) == Commit(d)
  {
    assert ByIdentity(d, c) == Some(s) && ByEmail(d, c) == Some(s);
    assert d.users[s := d.users[s]] == d.users;
  }

  /** One account is left, the right one, with its profile and with everything the accounts owned. */
  ghost predicate Healed(db: DB, d: DB, c: Claim, accounts: set<Id>, s: Id) {
    && SurvivorIs(db, c, s) && OneAccount(d, c, s) && ProfileFollows(db.users, s, d.users[s], c)
    && RowsFollow(db, d, accounts, s) && KeysFollow(db, d, accounts, s) && RedemptionsFollow(db, d, accounts, s)
    && CreditsFollow(db.users, d.users, accounts, s)
  }

  lemma LoginHeals(db: DB, c: Claim)
    requires UsersOk(db.users) && IdsOk(db) && Login(db, c).Commit?
    ensures Healed(db, Login(db, c).db, c, Accounts(db, c), Survivor(db, c))
  {
    LoginLeavesOneAccount(db, c);
    LoginLosesNothing(db, c);
    LoginKeepsProfile(db, c);
  }

  /**
   * In every reachable state a sign-in either commits and heals, or two accounts have to be folded whose credits
   * together do not fit the column, and then nothing changes.
   */
  lemma SignInHeals(acts: seq<Action>, c: Claim)
    requires Exec(Init(), acts).Some?
    ensures var db := Exec(Init(), acts).value.db;
            var accounts, s, tx := Accounts(db, c), Survivor(db, c), Login(db, c);
            && (tx.Commit? <==>
                  forall u, v | u in accounts && v in accounts && u != v ::
                    db.users[u].credits + db.users[v].credits <= MAX_INT4)
            && (tx.Commit? ==> Healed(db, tx.db, c, accounts, s) && Login(tx.db, c) == Commit(tx.db))
            && (!tx.Commit? ==> After(db, tx) == db)
  {
    SchemaHolds(acts);
    var db := Exec(Init(), acts).value.db;
    LoginTotal(db, c);
    AccountsAre(db, c);
    if Login(db, c).Commit? {
      LoginHeals(db, c);
      LoginIsIdempotent(db, c);
    }
  }
}
