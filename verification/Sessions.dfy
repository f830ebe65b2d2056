// Refresh sessions: one row per signed-in browser, a token that changes with every refresh, and a short grace
// for the token before it. Refreshes of one session are taken one at a time.
module Sessions {
  import opened Prelude

  type Sid = string
  type Token = string
  type Hash = nat

  const LIFETIME_MS := 7 * 24 * 3_600_000
  const GRACE_MS := 30_000

  datatype Session = Session(user: nat, refreshHash: Hash, prevHash: Option<Hash>,
                             rotatedAt: Option<int>, expiresAt: int)

  datatype Outcome =
    | Rotated(user: nat)        // the answer carries a new cookie
    | Grace(user: nat)          // the browser already has the newer one
    | Unauthorized

  ghost predicate Injective(hash: Token -> Hash) {
    forall a, b | hash(a) == hash(b) :: a == b
  }

  /** A refresh with a well-formed cookie at one time; `next` is the token a rotation would issue. */
  function Refresh(hash: Token -> Hash, table: map<Sid, Session>, sid: Sid, token: Token, at: int, next: Token)
      : (r: (Outcome, map<Sid, Session>))
  {
    if sid !in table then (Unauthorized, table)
    else
      var s := table[sid];
      if s.expiresAt < at then (Unauthorized, table - {sid})
      else if hash(token) == s.refreshHash then
        (Rotated(s.user),
         table[sid := s.(prevHash := Some(s.refreshHash), rotatedAt := Some(at), refreshHash := hash(next),
                         expiresAt := at + LIFETIME_MS)])
      else if s.prevHash == Some(hash(token)) && s.rotatedAt.Some? && at - s.rotatedAt.value < GRACE_MS then
        (Grace(s.user), table)
      else (Unauthorized, table - {sid})
  }

  // ---- Histories ------------------------------------------------------------------------------------

  /** `tokens` and `since` are history: what was issued to each session, and when last. */
  datatype State = State(table: map<Sid, Session>, now: int, known: set<Sid>, issued: set<Token>,
                         tokens: map<Sid, seq<Token>>, since: map<Sid, int>)

  datatype Action =
    | SignIn(user: nat, sid: Sid, token: Token, at: int)
    | Present(sid: Sid, presented: Token, at: int, next: Token)
    | SignOut(sid: Sid, at: int)
    | DropUser(user: nat, at: int)       // the sessions of an account that was folded into another

  function Init(): (s: State) {
    State(map[], 0, {}, {}, map[], map[])
  }

  /** Time does not run backwards; random session ids and tokens are new. */
  predicate Enabled(s: State, a: Action) {
    && s.now <= a.at
    && match a
       case SignIn(_, sid, token, _) => sid !in s.known && token !in s.issued
       case Present(_, _, _, next) => next !in s.issued
       case SignOut(_, _) => true
       case DropUser(_, _) => true
  }

  function Apply(hash: Token -> Hash, s: State, a: Action): (s': State)
    requires Enabled(s, a)
  {
    match a
    case SignIn(user, sid, token, at) =>
      State(s.table[sid := Session(user, hash(token), None, None, at + LIFETIME_MS)], at, s.known + {sid},
            s.issued + {token}, s.tokens[sid := [token]], s.since[sid := at])
    case Present(sid, presented, at, next) =>
      var r := Refresh(hash, s.table, sid, presented, at, next);
      var s1 := s.(table := r.1, now := at);
      if r.0.Rotated? && sid in s.tokens
      then s1.(issued := s.issued + {next}, tokens := s.tokens[sid := s.tokens[sid] + [next]],
               since := s.since[sid := at])
      else s1
    case SignOut(sid, at) => s.(table := s.table - {sid}, now := at)
    case DropUser(user, at) =>
      s.(table := map sid | sid in s.table && s.table[sid].user != user :: s.table[sid], now := at)
  }

  function Exec(hash: Token -> Hash, s: State, acts: seq<Action>): (r: Option<State>) {
    if acts == [] then Some(s)
    else
      match Exec(hash, s, Front(acts))
      case None => None
      case Some(m) => if Enabled(m, Last(acts)) then Some(Apply(hash, m, Last(acts))) else None
  }

  function OutcomeOf(hash: Token -> Hash, s: State, sid: Sid, token: Token, at: int, next: Token): (o: Outcome) {
    Refresh(hash, s.table, sid, token, at, next).0
  }

  // ---- Invariant --------------------------------------------------------------------------------------

  function Newest(s: State, sid: Sid): (t: Option<Token>) {
    if sid in s.tokens && s.tokens[sid] != [] then Some(Last(s.tokens[sid])) else None
  }

  function Previous(s: State, sid: Sid): (t: Option<Token>) {
    if sid in s.tokens && |s.tokens[sid]| >= 2 then Some(Last(Front(s.tokens[sid]))) else None
  }

  function MapHash(hash: Token -> Hash, t: Option<Token>): (h: Option<Hash>) {
    if t.Some? then Some(hash(t.value)) else None
  }

  ghost predicate RowOk(hash: Token -> Hash, s: State, sid: Sid)
    requires sid in s.table
  {
    && sid in s.since && Newest(s, sid).Some?
    && s.table[sid].refreshHash == hash(Newest(s, sid).value)
    && s.table[sid].prevHash == MapHash(hash, Previous(s, sid))
    && s.table[sid].rotatedAt == (if Previous(s, sid).Some? then Some(s.since[sid]) else None)
    && s.table[sid].expiresAt == s.since[sid] + LIFETIME_MS
  }

  ghost predicate Inv(hash: Token -> Hash, s: State) {
    && (forall sid | sid in s.table :: sid in s.known)
    && (forall sid | sid in s.tokens :: sid in s.known)
    && (forall sid, k | sid in s.tokens && 0 <= k < |s.tokens[sid]| :: s.tokens[sid][k] in s.issued)
    && (forall sid | sid in s.tokens :: Distinct(s.tokens[sid]))
    && (forall sid | sid in s.table :: RowOk(hash, s, sid))
  }

  lemma ListSnoc(ts: seq<Token>, next: Token)
    requires Distinct(ts) && forall k | 0 <= k < |ts| :: ts[k] != next
    ensures Distinct(ts + [next]) && Last(ts + [next]) == next && Front(ts + [next]) == ts
  {
  }

  lemma RotateKeeps(hash: Token -> Hash, s: State, sid: Sid, token: Token, at: int, next: Token)
    requires Inv(hash, s) && Enabled(s, Present(sid, token, at, next))
    requires OutcomeOf(hash, s, sid, token, at, next).Rotated?
    ensures Inv(hash, Apply(hash, s, Present(sid, token, at, next)))
  {
    var s' := Apply(hash, s, Present(sid, token, at, next));
    assert RowOk(hash, s, sid);
    ListSnoc(s.tokens[sid], next);
    forall x | x in s'.table ensures RowOk(hash, s', x) {
      assert RowOk(hash, s, x);
    }
  }

  lemma OtherPresentKeeps(hash: Token -> Hash, s: State, sid: Sid, token: Token, at: int, next: Token)
    requires Inv(hash, s) && Enabled(s, Present(sid, token, at, next))
    requires !OutcomeOf(hash, s, sid, token, at, next).Rotated?
    ensures Inv(hash, Apply(hash, s, Present(sid, token, at, next)))
  {
    var s' := Apply(hash, s, Present(sid, token, at, next));
    forall x | x in s'.table ensures RowOk(hash, s', x) {
      assert RowOk(hash, s, x);
    }
  }

  lemma SignInKeeps(hash: Token -> Hash, s: State, a: Action)
    requires Inv(hash, s) && Enabled(s, a) && a.SignIn?
    ensures Inv(hash, Apply(hash, s, a))
  {
    var s' := Apply(hash, s, a);
    forall x | x in s'.table ensures RowOk(hash, s', x) {
      if x != a.sid {
        assert RowOk(hash, s, x);
      }
    }
  }

  lemma RemovalKeeps(hash: Token -> Hash, s: State, a: Action)
    requires Inv(hash, s) && Enabled(s, a) && (a.SignOut? || a.DropUser?)
    ensures Inv(hash, Apply(hash, s, a))
  {
    var s' := Apply(hash, s, a);
    forall x | x in s'.table ensures RowOk(hash, s', x) {
      assert RowOk(hash, s, x);
    }
  }

  lemma Step(hash: Token -> Hash, s: State, a: Action)
    requires Inv(hash, s) && Enabled(s, a)
    ensures Inv(hash, Apply(hash, s, a))
  {
    match a
    case SignIn(_, _, _, _) => SignInKeeps(hash, s, a);
    case Present(sid, token, at, next) =>
      if OutcomeOf(hash, s, sid, token, at, next).Rotated? {
        RotateKeeps(hash, s, sid, token, at, next);
      } else {
        OtherPresentKeeps(hash, s, sid, token, at, next);
      }
    case _ => RemovalKeeps(hash, s, a);
  }

  lemma {:induction false} Holds(hash: Token -> Hash, acts: seq<Action>)
    requires Exec(hash, Init(), acts).Some?
    ensures Inv(hash, Exec(hash, Init(), acts).value)
  {
    if acts == [] {
    } else {
      Holds(hash, Front(acts));
      Step(hash, Exec(hash, Init(), Front(acts)).value, Last(acts));
    }
  }

  // ---- What a session accepts ------------------------------------------------------------------------

  /** The newest token, or for 30 seconds the one before it, of a session used within the last 7 days. */
  ghost predicate Welcome(s: State, sid: Sid, token: Token, at: int) {
    && sid in s.table && sid in s.since && at <= s.since[sid] + 604_800_000
    && (Newest(s, sid) == Some(token) || (Previous(s, sid) == Some(token) && at - s.since[sid] < 30_000))
  }

  /** After any history: a token is accepted iff it is welcome, and any other presentation ends the session. */
  lemma AcceptsExactly(hash: Token -> Hash, acts: seq<Action>, sid: Sid, token: Token, at: int, next: Token)
    requires Injective(hash) && Exec(hash, Init(), acts).Some?
    ensures var s := Exec(hash, Init(), acts).value;
            var r := Refresh(hash, s.table, sid, token, at, next);
            && (!r.0.Unauthorized? <==> Welcome(s, sid, token, at))
            && (r.0.Rotated? <==> Welcome(s, sid, token, at) && Newest(s, sid) == Some(token))
            && (r.0.Unauthorized? <==> sid !in r.1)
            && (r.0.Grace? ==> r.1 == s.table)
            && (r.0.Rotated? ==> r.1[sid].expiresAt == at + 604_800_000 && r.1[sid].refreshHash == hash(next))
            && (forall x | x != sid :: x in s.table <==> x in r.1)
            && (forall x | x != sid && x in s.table :: r.1[x] == s.table[x])
  {
    Holds(hash, acts);
    var s := Exec(hash, Init(), acts).value;
    if sid in s.table {
      assert RowOk(hash, s, sid);
    }
  }

  /** Tokens of a session are all different, so an old token is welcome never again. */
  lemma OldTokensNeverWelcome(hash: Token -> Hash, acts: seq<Action>, sid: Sid, k: nat, at: int)
    requires Exec(hash, Init(), acts).Some?
    requires var s := Exec(hash, Init(), acts).value; sid in s.tokens && k + 2 < |s.tokens[sid]|
    ensures var s := Exec(hash, Init(), acts).value; !Welcome(s, sid, s.tokens[sid][k], at)
  {
    Holds(hash, acts);
    var ts := Exec(hash, Init(), acts).value.tokens[sid];
    assert Distinct(ts);
    assert ts[k] != ts[|ts| - 1] && ts[k] != ts[|ts| - 2];
  }

  // ---- A session that ended --------------------------------------------------------------------------

  lemma {:induction false} EndedStaysEnded(hash: Token -> Hash, s: State, more: seq<Action>, sid: Sid)
    requires sid in s.known && sid !in s.table && Exec(hash, s, more).Some?
    ensures var s' := Exec(hash, s, more).value; sid !in s'.table && sid in s'.known
  {
    if more == [] {
    } else {
      EndedStaysEnded(hash, s, Front(more), sid);
    }
  }

  /** One wrong token and no token of the session is ever accepted again. */
  lemma WrongTokenEndsSession(hash: Token -> Hash, acts: seq<Action>, sid: Sid, wrong: Token, at: int, next: Token,
                              more: seq<Action>, token: Token, later: int, next': Token)
    requires Injective(hash) && Exec(hash, Init(), acts).Some?
    requires var s := Exec(hash, Init(), acts).value;
             sid in s.known && !Welcome(s, sid, wrong, at) && Enabled(s, Present(sid, wrong, at, next))
    requires Exec(hash, Apply(hash, Exec(hash, Init(), acts).value, Present(sid, wrong, at, next)), more).Some?
    ensures var ended := Apply(hash, Exec(hash, Init(), acts).value, Present(sid, wrong, at, next));
            var s' := Exec(hash, ended, more).value;
            OutcomeOf(hash, s', sid, token, later, next').Unauthorized?
  {
    AcceptsExactly(hash, acts, sid, wrong, at, next);
    EndedStaysEnded(hash, Apply(hash, Exec(hash, Init(), acts).value, Present(sid, wrong, at, next)), more, sid);
  }

  // ---- A well-behaved client ---------------------------------------------------------------------------

  /**
   * All presentations of the session are of the newest cookie, no more than 7 days after it was issued, or of the
   * one before it by a tab that was less than 30 seconds late; nobody signs it out or drops its user.
   */
  ghost predicate Behaves(hash: Token -> Hash, s: State, acts: seq<Action>, sid: Sid, user: nat) {
    acts == [] ||
    (Behaves(hash, s, Front(acts), sid, user) &&
     match Exec(hash, s, Front(acts))
     case None => false
     case Some(m) => Harmless(m, Last(acts), sid, user))
  }

  ghost predicate Harmless(m: State, a: Action, sid: Sid, user: nat) {
    match a
    case Present(x, token, at, _) =>
      x == sid ==> sid in m.since && at <= m.since[sid] + LIFETIME_MS
                   && (Newest(m, sid) == Some(token)
                       || (Previous(m, sid) == Some(token) && at - m.since[sid] < GRACE_MS))
    case SignOut(x, _) => x != sid
    case DropUser(u, _) => u != user
    case SignIn(_, _, _, _) => true
  }

  lemma HarmlessKeeps(hash: Token -> Hash, m: State, a: Action, sid: Sid, user: nat)
    requires Inv(hash, m) && sid in m.table && m.table[sid].user == user
    requires Enabled(m, a) && Harmless(m, a, sid, user)
    ensures var m' := Apply(hash, m, a); sid in m'.table && m'.table[sid].user == user
  {
    assert RowOk(hash, m, sid);
  }

  /** Such a client is never logged out. */
  lemma {:induction false} NeverLoggedOut(hash: Token -> Hash, s: State, acts: seq<Action>, sid: Sid, user: nat)
    requires Injective(hash) && Inv(hash, s) && sid in s.table && s.table[sid].user == user
    requires Exec(hash, s, acts).Some? && Behaves(hash, s, acts, sid, user)
    ensures var s' := Exec(hash, s, acts).value; Inv(hash, s') && sid in s'.table && s'.table[sid].user == user
  {
    if acts == [] {
    } else {
      NeverLoggedOut(hash, s, Front(acts), sid, user);
      var m := Exec(hash, s, Front(acts)).value;
      Step(hash, m, Last(acts));
      HarmlessKeeps(hash, m, Last(acts), sid, user);
    }
  }

  /** Every one of its presentations is accepted, and the newest cookie gets a newer one. */
  lemma EveryRefreshSucceeds(hash: Token -> Hash, s: State, acts: seq<Action>, sid: Sid, user: nat)
    requires Injective(hash) && Inv(hash, s) && sid in s.table && s.table[sid].user == user
    requires acts != [] && Exec(hash, s, acts).Some? && Behaves(hash, s, acts, sid, user)
    requires Last(acts).Present? && Last(acts).sid == sid
    ensures var m := Exec(hash, s, Front(acts)).value;
            var a := Last(acts);
            var o := OutcomeOf(hash, m, sid, a.presented, a.at, a.next);
            o == if Newest(m, sid) == Some(a.presented) then Rotated(user) else Grace(user)
  {
    NeverLoggedOut(hash, s, Front(acts), sid, user);
    assert RowOk(hash, Exec(hash, s, Front(acts)).value, sid);
  }

  // ---- Cookies --------------------------------------------------------------------------------------------

  predicate IsUuid(s: string) {
    |s| == 36 && forall k | 0 <= k < |s| :: '0' <= s[k] <= '9' || 'a' <= s[k] <= 'f' || s[k] == '-'
  }

  /** Position of the first dot, -1 when there is none. */
  function FirstDot(s: string): (k: int)
    ensures -1 <= k < |s|
    ensures k >= 0 ==> s[k] == '.' && forall j | 0 <= j < k :: s[j] != '.'
    ensures k == -1 ==> '.' !in s
  {
    if s == "" then -1
    else if s[0] == '.' then 0
    else
      var k := FirstDot(s[1..]);
      if k == -1 then -1 else k + 1
  }

  /** What a refresh reads from a cookie; without a dot the last character is cut off, as `slice(0, -1)` does. */
  function Presented(cookie: string): (r: Option<(Sid, Token)>) {
    var dot := FirstDot(cookie);
    var sid := if dot >= 0 then cookie[..dot] else if cookie == "" then "" else Front(cookie);
    var token := cookie[dot + 1..];
    if IsUuid(sid) && token != "" then Some((sid, token)) else None
  }

  /** What a sign-out reads from a cookie: everything before the first dot. */
  function SignedOut(cookie: Option<string>): (r: Option<Sid>) {
    if cookie.None? then None
    else
      var dot := FirstDot(cookie.value);
      var sid := if dot >= 0 then cookie.value[..dot] else cookie.value;
      if IsUuid(sid) then Some(sid) else None
  }

  function CookieOf(sid: Sid, token: Token): (cookie: string) {
    sid + "." + token
  }

  /** A cookie gives back its session and token, also when the token contains dots. */
  lemma CookieRoundTrip(sid: Sid, token: Token)
    requires IsUuid(sid)
    ensures Presented(CookieOf(sid, token)) == if token == "" then None else Some((sid, token))
    ensures SignedOut(Some(CookieOf(sid, token))) == Some(sid)
    ensures SignedOut(Some(sid)) == Some(sid)
  {
    var cookie := CookieOf(sid, token);
    assert cookie[36] == '.' && forall j | 0 <= j < 36 :: cookie[j] == sid[j];
    assert FirstDot(cookie) == 36;
    assert cookie[..36] == sid && cookie[37..] == token;
  }

  lemma UuidHasNoDot(sid: string)
    requires IsUuid(sid)
    ensures |sid| == 36 && '.' !in sid
  {
  }

  lemma SplitAtDot(cookie: string, dot: nat)
    requires dot < |cookie| && cookie[dot] == '.'
    ensures cookie == cookie[..dot] + "." + cookie[dot + 1..]
  {
  }

  /** A cookie with a dot is read as what stands before its first dot and what stands after it. */
  lemma PresentedWithDot(cookie: string)
    requires '.' in cookie && Presented(cookie).Some?
    ensures var (sid, token) := Presented(cookie).value;
            |sid| == 36 && '.' !in sid && token != "" && cookie == CookieOf(sid, token)
  {
    var dot := FirstDot(cookie);
    assert dot >= 0;
    UuidHasNoDot(cookie[..dot]);
    SplitAtDot(cookie, dot);
  }

  /** A value without dots is a uuid and one more character, and is taken for the token as a whole. */
  lemma PresentedWithoutDot(cookie: string)
    requires '.' !in cookie && Presented(cookie).Some?
    ensures |cookie| == 37 && Presented(cookie).value == (Front(cookie), cookie)
  {
    assert FirstDot(cookie) == -1;
    assert cookie[0..] == cookie;
  }

  /** A sign-out names a session iff the value is its uuid, alone or followed by a dot. */
  lemma SignedOutIs(cookie: string, sid: Sid)
    ensures SignedOut(Some(cookie)) == Some(sid) <==> IsUuid(sid) && (cookie == sid || sid + "." <= cookie)
    ensures SignedOut(None) == None
  {
    var dot := FirstDot(cookie);
    if dot >= 0 {
      SplitAtDot(cookie, dot);
    }
    if IsUuid(sid) {
      UuidHasNoDot(sid);
      if sid + "." <= cookie {
        assert cookie[36] == '.' && forall j | 0 <= j < 36 :: cookie[j] == sid[j];
        assert dot == 36 && cookie[..36] == sid;
      }
    }
  }

  // ---- The service ---------------------------------------------------------------------------------------

  class SessionStore {
    const hash: Token -> Hash
    var sessions: map<Sid, Session>

    constructor (hash: Token -> Hash)
      ensures this.hash == hash && sessions == map[]
    {
      this.hash, sessions := hash, map[];
    }

    /** The database makes up the session id. */
    method CreateSession(user: nat, sid: Sid, token: Token, now: int) returns (cookie: string)
      requires IsUuid(sid) && token != ""
      modifies this
      ensures Presented(cookie) == Some((sid, token)) && SignedOut(Some(cookie)) == Some(sid)
      ensures sessions == old(sessions)[sid := Session(user, hash(token), None, None, now + LIFETIME_MS)]
    {
      CookieRoundTrip(sid, token);
      cookie := CookieOf(sid, token);
      sessions := sessions[sid := Session(user, hash(token), None, None, now + LIFETIME_MS)];
    }

    method RotateSession(cookie: string, now: int, next: Token) returns (outcome: Outcome, newCookie: Option<string>)
      modifies this`sessions
      ensures var p := Presented(cookie);
              if p.None? then outcome == Unauthorized && newCookie == None && sessions == old(sessions)
              else
                && (outcome, sessions) == Refresh(hash, old(sessions), p.value.0, p.value.1, now, next)
                && newCookie == if outcome.Rotated? then Some(CookieOf(p.value.0, next)) else None
    {
      var p := Presented(cookie);
      if p.None? { return Unauthorized, None; }
      outcome := RotateRow(p.value.0, p.value.1, now, next);
      newCookie := if outcome.Rotated? then Some(CookieOf(p.value.0, next)) else None;
    }

    /** Expiry, rotation, grace, and the end of a session under a wrong token. */
    method RotateRow(sid: Sid, token: Token, now: int, next: Token) returns (outcome: Outcome)
      modifies this`sessions
      ensures (outcome, sessions) == Refresh(hash, old(sessions), sid, token, now, next)
    {
      if sid !in sessions { return Unauthorized; }
      var s := sessions[sid];
      if s.expiresAt < now {
        sessions := sessions - {sid};
        return Unauthorized;
      }
      var presented := hash(token);
      if presented == s.refreshHash {
        sessions := sessions[sid := s.(prevHash := Some(s.refreshHash), rotatedAt := Some(now),
                                       refreshHash := hash(next), expiresAt := now + LIFETIME_MS)];
        return Rotated(s.user);
      }
      if s.prevHash == Some(presented) && s.rotatedAt.Some? && now - s.rotatedAt.value < GRACE_MS {
        return Grace(s.user);
      }
      sessions := sessions - {sid};
      return Unauthorized;
    }

    method RevokeSession(cookie: Option<string>)
      modifies this`sessions
      ensures sessions == if SignedOut(cookie).Some? then old(sessions) - {SignedOut(cookie).value} else old(sessions)
    {
      var sid := SignedOut(cookie);
      if sid.Some? { sessions := sessions - {sid.value}; }
    }
  }
}
