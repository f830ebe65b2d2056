// Long-term memory of one thread: any number of overlapping summarize jobs read the unarchived conversation,
// and later store a summary and archive the block they had read.
module Memory {
  import opened Prelude

  const TRIGGER_TOKENS := 60_000
  const BLOCK_TOKENS := 30_000
  const KEEP_RECENT := 15

  type Id = nat

  datatype Role = User | Assistant | ToolResult

  datatype Row = Row(id: Id, role: Role, content: string, createdAt: int)

  datatype Summary = Summary(first: Id, last: Id, content: string)

  /** A block as it was read; `from` is where it stood in the conversation. */
  datatype Job = Job(block: seq<Row>, from: nat)

  /** Rows by created_at, which only grows. `jobs` and `sources` are history: blocks read, and those stored. */
  datatype State = State(rows: seq<Row>, archived: set<Id>, summaries: seq<Summary>,
                         jobs: set<Job>, sources: seq<Job>)

  function Init(): (s: State) {
    State([], {}, [], {}, [])
  }

  // ---- What a job reads -------------------------------------------------------------------------

  /** A quarter of the characters, rounded up. */
  function EstimateTokens(chars: nat): (t: nat)
    ensures 4 * t >= chars && (t == 0 || 4 * (t - 1) < chars)
  {
    (chars + 3) / 4
  }

  /** The rows of user and assistant. */
  function Talk(rows: seq<Row>): (r: seq<Row>) {
    if rows == [] then []
    else Talk(Front(rows)) + (if Last(rows).role.ToolResult? then [] else [Last(rows)])
  }

  function Unarchived(rows: seq<Row>, archived: set<Id>): (r: seq<Row>)
    ensures |r| <= |rows|
  {
    if rows == [] then []
    else Unarchived(Front(rows), archived) + (if Last(rows).id in archived then [] else [Last(rows)])
  }

  function Chars(rows: seq<Row>): (n: nat) {
    if rows == [] then 0 else Chars(Front(rows)) + |Last(rows).content|
  }

  /** Estimated message by message. */
  function Tokens(rows: seq<Row>): (n: nat) {
    if rows == [] then 0 else Tokens(Front(rows)) + EstimateTokens(|Last(rows).content|)
  }

  function Candidates(msgs: seq<Row>): (r: seq<Row>) {
    msgs[..if |msgs| < KEEP_RECENT then 0 else |msgs| - KEEP_RECENT]
  }

  /** The shortest prefix that reaches the block size, or everything. */
  ghost predicate IsOldestBlock(block: seq<Row>, candidates: seq<Row>) {
    && block <= candidates
    && (|block| < |candidates| ==> Tokens(block) >= BLOCK_TOKENS)
    && (forall n | 0 <= n < |block| :: Tokens(block[..n]) < BLOCK_TOKENS)
  }

  function OldestBlock(candidates: seq<Row>): (block: seq<Row>) {
    if candidates == [] then []
    else
      var before := OldestBlock(Front(candidates));
      if |before| < |candidates| - 1 || Tokens(before) >= BLOCK_TOKENS then before else candidates
  }

  lemma {:induction false} OldestBlockIs(candidates: seq<Row>)
    ensures IsOldestBlock(OldestBlock(candidates), candidates)
  {
    if candidates == [] {
    } else {
      var before := OldestBlock(Front(candidates));
      OldestBlockIs(Front(candidates));
      if !(|before| < |candidates| - 1 || Tokens(before) >= BLOCK_TOKENS) {
        assert before == Front(candidates);
        forall n | 0 <= n < |candidates| ensures Tokens(candidates[..n]) < BLOCK_TOKENS {
          assert candidates[..n] == Front(candidates)[..n];
          assert n == |before| ==> before[..n] == before;
        }
      }
    }
  }

  /** The condition leaves no choice. */
  lemma OldestBlockUnique(a: seq<Row>, b: seq<Row>, candidates: seq<Row>)
    requires IsOldestBlock(a, candidates) && IsOldestBlock(b, candidates)
    ensures a == b
  {
    assert |a| <= |b| ==> a == b[..|a|];
    assert |b| <= |a| ==> b == a[..|b|];
  }

  /** The conversation: exactly the user and assistant rows, in their order. */
  lemma {:induction false} TalkIs(rows: seq<Row>)
    ensures forall r :: r in Talk(rows) <==> r in rows && (r.role.User? || r.role.Assistant?)
    ensures Ordered(rows) ==> Ordered(Talk(rows))
  {
    if rows == [] {
    } else {
      TalkIs(Front(rows));
      FrontAndLast(rows);
      assert forall r :: r in rows <==> r in Front(rows) || r == Last(rows);
      if Ordered(rows) {
        OrderedSnoc(Front(rows), Last(rows), Talk(Front(rows)));
      }
    }
  }

  /** The unarchived rows: exactly those whose id is not in the set, in their order. */
  lemma {:induction false} UnarchivedIs(rows: seq<Row>, archived: set<Id>)
    ensures forall r :: r in Unarchived(rows, archived) <==> r in rows && r.id !in archived
    ensures Ordered(rows) ==> Ordered(Unarchived(rows, archived))
  {
    if rows == [] {
    } else {
      UnarchivedIs(Front(rows), archived);
      FrontAndLast(rows);
      assert forall r :: r in rows <==> r in Front(rows) || r == Last(rows);
      if Ordered(rows) {
        OrderedSnoc(Front(rows), Last(rows), Unarchived(Front(rows), archived));
      }
    }
  }

  /** A row later than all of `front` may follow any of its rows. */
  lemma OrderedSnoc(front: seq<Row>, last: Row, kept: seq<Row>)
    requires Ordered(front + [last]) && (Ordered(front) ==> Ordered(kept)) && forall r | r in kept :: r in front
    ensures Ordered(front) && Ordered(kept + [last])
  {
    var all := front + [last];
    assert forall k | 0 <= k < |front| :: all[k] == front[k];
    assert all[|front|] == last;
    forall k | 0 <= k < |kept| ensures kept[k].createdAt < last.createdAt && kept[k].id != last.id {
      assert kept[k] in kept;
      var j :| 0 <= j < |front| && front[j] == kept[k];
    }
  }

  lemma SumsSnoc(rows: seq<Row>, row: Row)
    ensures Chars(rows + [row]) == Chars(rows) + |row.content|
    ensures Tokens(rows + [row]) == Tokens(rows) + EstimateTokens(|row.content|)
  {
    assert Front(rows + [row]) == rows;
  }

  /** Characters and tokens of a stretch are those of its parts. */
  lemma {:induction false} SumsConcat(a: seq<Row>, b: seq<Row>)
    ensures Chars(a + b) == Chars(a) + Chars(b) && Tokens(a + b) == Tokens(a) + Tokens(b)
    ensures forall r: Row :: Chars([r]) == |r.content| && Tokens([r]) == (|r.content| + 3) / 4
    decreases |b|
  {
    if b == [] {
      ConcatNothing(a);
    } else {
      SumsConcat(a, Front(b));
      SnocAssociates(a, Front(b), Last(b));
      FrontAndLast(b);
      SumsSnoc(a + Front(b), Last(b));
    }
    assert forall r: Row :: Front([r]) == [];
  }

  /**
   * What is proposed, read off the unarchived conversation `msgs`: its oldest messages up to the latest 15, as far
   * as it takes to reach 30,000 tokens.
   */
  ghost predicate Proposes(msgs: seq<Row>, job: Option<Job>) {
    && (job.Some? <==> Chars(msgs) >= 239_997 && |msgs| >= 17 && |msgs[0].content| <= 119_996)
    && (job.Some? ==>
          var n := |job.value.block|;
          && 2 <= n <= |msgs| - 15 && job.value.block == msgs[..n]
          && (n < |msgs| - 15 ==> Tokens(msgs[..n]) >= 30_000)
          && (forall m | 0 <= m < n :: Tokens(msgs[..m]) < 30_000))
  }

  /** A block of two: there are two candidates and the first alone does not fill the block. */
  lemma BlockOfTwo(msgs: seq<Row>)
    ensures |OldestBlock(Candidates(msgs))| >= 2 <==> |msgs| >= 17 && |msgs[0].content| <= 119_996
  {
    var candidates := Candidates(msgs);
    var block := OldestBlock(candidates);
    OldestBlockIs(candidates);
    if |msgs| > 15 {
      assert candidates != [] && candidates[0] == msgs[0] && |candidates| == |msgs| - 15;
      TwoInBlock(block, candidates);
      FirstTokens(candidates);
    }
  }

  lemma FirstTokens(rows: seq<Row>)
    requires rows != []
    ensures Tokens(rows[..1]) < 30_000 <==> |rows[0].content| <= 119_996
  {
    assert rows[..1] == [rows[0]];
    SumsConcat([], [rows[0]]);
  }

  /** An oldest block has two messages iff two can be had and one is too little. */
  lemma TwoInBlock(block: seq<Row>, candidates: seq<Row>)
    requires IsOldestBlock(block, candidates) && candidates != []
    ensures |block| >= 2 <==> |candidates| >= 2 && Tokens(candidates[..1]) < 30_000
  {
    if |block| >= 2 {
      assert block[..1] == candidates[..1];
    } else if |block| == 1 {
      assert block == candidates[..1];
    }
  }

  lemma ProposesRightly(s: State)
    ensures Proposes(Unarchived(Talk(s.rows), s.archived), Propose(s))
    ensures Propose(s).Some? ==>
              Propose(s).value.from == |Talk(s.rows)| - |Unarchived(Talk(s.rows), s.archived)|
  {
    var msgs := Unarchived(Talk(s.rows), s.archived);
    BlockOfTwo(msgs);
    if Propose(s).Some? {
      var block := Propose(s).value.block;
      OldestBlockIs(Candidates(msgs));
      assert block == msgs[..|block|];
      assert forall m | 0 <= m < |block| :: block[..m] == msgs[..m];
    }
  }

  /** What a job that reads now will want to archive. */
  function Propose(s: State): (r: Option<Job>) {
    var talk := Talk(s.rows);
    var msgs := Unarchived(talk, s.archived);
    var block := OldestBlock(Candidates(msgs));
    if EstimateTokens(Chars(msgs)) < TRIGGER_TOKENS || |block| < 2 then None
    else Some(Job(block, |talk| - |msgs|))
  }

  // ---- The state machine --------------------------------------------------------------------------

  datatype Action =
    | Insert(row: Row)
    | Read
    | Store(job: Job, content: string)

  predicate Enabled(s: State, a: Action) {
    match a
    case Insert(row) => forall k | 0 <= k < |s.rows| :: s.rows[k].createdAt < row.createdAt && s.rows[k].id != row.id
    case Read => true
    case Store(job, content) => job in s.jobs && content != ""
  }

  function Ids(rows: seq<Row>): (ids: set<Id>) {
    set k | 0 <= k < |rows| :: rows[k].id
  }

  function Stored(s: State, job: Job, content: string): (s': State)
    requires job.block != []
  {
    s.(summaries := s.summaries + [Summary(job.block[0].id, Last(job.block).id, content)],
       archived := s.archived + Ids(job.block),
       sources := s.sources + [job])
  }

  function Apply(s: State, a: Action): (s': State)
    requires Enabled(s, a)
  {
    match a
    case Insert(row) => s.(rows := s.rows + [row])
    case Read => if Propose(s).Some? then s.(jobs := s.jobs + {Propose(s).value}) else s
    case Store(job, content) => if job.block == [] then s else Stored(s, job, content)
  }

  function Exec(s: State, acts: seq<Action>): (r: Option<State>) {
    if acts == [] then Some(s)
    else
      match Exec(s, Front(acts))
      case None => None
      case Some(m) => if Enabled(m, Last(acts)) then Some(Apply(m, Last(acts))) else None
  }

  // ---- Invariant ------------------------------------------------------------------------------------

  ghost predicate Ordered(rows: seq<Row>) {
    forall i, j | 0 <= i < j < |rows| :: rows[i].createdAt < rows[j].createdAt && rows[i].id != rows[j].id
  }

  /** The job's block is a stretch of the conversation that ends before the latest 15 messages. */
  ghost predicate Stretch(talk: seq<Row>, job: Job) {
    && 2 <= |job.block| && job.from + |job.block| + KEEP_RECENT <= |talk|
    && job.block == talk[job.from..job.from + |job.block|]
  }

  function End(job: Job): (n: nat) {
    job.from + |job.block|
  }

  ghost predicate CoveredBy(sources: seq<Job>, i: int, k: nat) {
    0 <= i < |sources| && sources[i].from <= k < End(sources[i])
  }

  ghost predicate Covered(sources: seq<Job>, k: nat) {
    exists i :: CoveredBy(sources, i, k)
  }

  /** The first `n` messages of the conversation are archived. */
  ghost predicate Inv(s: State, n: nat) {
    var talk := Talk(s.rows);
    && Ordered(s.rows) && Ordered(talk)
    && (n == 0 || n + KEEP_RECENT <= |talk|)
    && s.archived == Ids(talk[..if n <= |talk| then n else 0])
    && (forall j | j in s.jobs :: Stretch(talk, j) && j.from <= n)
    && |s.sources| == |s.summaries|
    && (forall i | 0 <= i < |s.sources| ::
          && s.sources[i] in s.jobs && End(s.sources[i]) <= n
          && s.summaries[i].first == s.sources[i].block[0].id && s.summaries[i].last == Last(s.sources[i].block).id)
    && (forall k | 0 <= k < n :: Covered(s.sources, k))
  }

  lemma TalkSnoc(rows: seq<Row>, row: Row)
    ensures Talk(rows + [row]) == Talk(rows) + (if row.role.ToolResult? then [] else [row])
  {
    assert Front(rows + [row]) == rows;
  }

  lemma {:induction false} TalkFrom(rows: seq<Row>)
    ensures forall k | 0 <= k < |Talk(rows)| :: Talk(rows)[k] in rows && !Talk(rows)[k].role.ToolResult?
  {
    if rows == [] {
    } else {
      TalkFrom(Front(rows));
      assert forall r | r in Front(rows) :: r in rows;
    }
  }

  lemma InsertKeeps(s: State, n: nat, row: Row)
    requires Inv(s, n) && Enabled(s, Insert(row))
    ensures Inv(Apply(s, Insert(row)), n)
  {
    var talk := Talk(s.rows);
    TalkSnoc(s.rows, row);
    TalkFrom(s.rows);
    var more := Talk(s.rows + [row]);
    assert talk <= more;
    assert more[..if n <= |more| then n else 0] == talk[..if n <= |talk| then n else 0];
    forall j | j in s.jobs ensures Stretch(more, j) {
      assert more[j.from..End(j)] == talk[j.from..End(j)];
    }
  }

  /** With a prefix archived, what is left is the rest. */
  lemma {:induction false} UnarchivedIsSuffix(talk: seq<Row>, archived: set<Id>, n: nat)
    requires n <= |talk|
    requires forall k | 0 <= k < n :: talk[k].id in archived
    requires forall k | n <= k < |talk| :: talk[k].id !in archived
    ensures Unarchived(talk, archived) == talk[n..]
  {
    if talk == [] {
    } else {
      var front := Front(talk);
      assert forall k | 0 <= k < |front| :: front[k] == talk[k];
      UnarchivedIsSuffix(front, archived, if n == |talk| then n - 1 else n);
      SuffixSnoc(front, Last(talk), n);
      FrontAndLast(talk);
    }
  }

  lemma SuffixSnoc<T>(front: seq<T>, last: T, n: nat)
    requires n <= |front| + 1
    ensures (front + [last])[n..] == if n <= |front| then front[n..] + [last] else []
  {
  }

  lemma ArchivedPrefix(s: State, n: nat)
    requires Inv(s, n)
    ensures n <= |Talk(s.rows)|
    ensures forall k | 0 <= k < |Talk(s.rows)| :: Talk(s.rows)[k].id in s.archived <==> k < n
    ensures Unarchived(Talk(s.rows), s.archived) == Talk(s.rows)[n..]
  {
    var talk := Talk(s.rows);
    forall k | 0 <= k < |talk| ensures talk[k].id in s.archived <==> k < n {
      if k < n {
        assert talk[..n][k] == talk[k];
      }
    }
    UnarchivedIsSuffix(talk, s.archived, n);
  }

  lemma BlockIsStretch(talk: seq<Row>, n: nat, block: seq<Row>)
    requires n <= |talk| && block == OldestBlock(Candidates(talk[n..])) && 2 <= |block|
    ensures Stretch(talk, Job(block, n))
  {
    var candidates := Candidates(talk[n..]);
    OldestBlockIs(candidates);
    assert block == candidates[..|block|] == talk[n..][..|block|] == talk[n..n + |block|];
  }

  lemma ProposeIs(s: State, talk: seq<Row>, msgs: seq<Row>)
    requires Propose(s).Some? && talk == Talk(s.rows) && msgs == Unarchived(talk, s.archived)
    ensures var block := OldestBlock(Candidates(msgs));
            Propose(s).value == Job(block, |talk| - |msgs|) && 2 <= |block|
  {
  }

  lemma ProposeReads(s: State, n: nat)
    requires Inv(s, n) && Propose(s).Some?
    ensures Stretch(Talk(s.rows), Propose(s).value) && Propose(s).value.from == n
  {
    ArchivedPrefix(s, n);
    var talk := Talk(s.rows);
    ProposeIs(s, talk, talk[n..]);
    BlockIsStretch(talk, n, OldestBlock(Candidates(talk[n..])));
  }

  lemma ReadKeeps(s: State, n: nat)
    requires Inv(s, n)
    ensures Inv(Apply(s, Read), n)
  {
    if Propose(s).Some? {
      ProposeReads(s, n);
    }
  }

  /** What a late store archives: nothing new, or the stretch up to its end. */
  function Reach(n: nat, job: Job): (n': nat) {
    if End(job) <= n then n else End(job)
  }

  lemma StoreIds(talk: seq<Row>, n: nat, job: Job)
    requires n <= |talk| && Stretch(talk, job) && job.from <= n
    ensures Ids(talk[..n]) + Ids(job.block) == Ids(talk[..Reach(n, job)])
  {
    var m := Reach(n, job);
    forall id ensures id in Ids(talk[..n]) + Ids(job.block) <==> id in Ids(talk[..m]) {
      if id in Ids(talk[..n]) {
        var k :| 0 <= k < n && talk[..n][k].id == id;
        assert talk[..m][k].id == id;
      }
      if id in Ids(job.block) {
        var k :| 0 <= k < |job.block| && job.block[k].id == id;
        assert talk[..m][job.from + k].id == id;
      }
      if id in Ids(talk[..m]) {
        var k :| 0 <= k < m && talk[..m][k].id == id;
        if k < n {
          assert talk[..n][k].id == id;
        } else {
          assert job.block[k - job.from].id == id;
        }
      }
    }
  }

  lemma StoreKeeps(s: State, n: nat, job: Job, content: string)
    requires Inv(s, n) && job in s.jobs
    ensures Inv(Stored(s, job, content), Reach(n, job))
  {
    var talk, s', m := Talk(s.rows), Stored(s, job, content), Reach(n, job);
    StoreIds(talk, n, job);
    forall k | 0 <= k < m ensures Covered(s'.sources, k) {
      if k < n {
        assert Covered(s.sources, k);
        var i :| CoveredBy(s.sources, i, k);
        assert CoveredBy(s'.sources, i, k);
      } else {
        assert CoveredBy(s'.sources, |s.sources|, k);
      }
    }
  }

  /** In every reachable state, with any number of jobs overlapping, some prefix is archived. */
  lemma {:induction false} Holds(acts: seq<Action>) returns (n: nat)
    requires Exec(Init(), acts).Some?
    ensures Inv(Exec(Init(), acts).value, n)
  {
    n := 0;
    if acts == [] {
    } else {
      var s := Exec(Init(), Front(acts)).value;
      n := Holds(Front(acts));
      match Last(acts)
      case Insert(row) => InsertKeeps(s, n, row);
      case Read => ReadKeeps(s, n);
      case Store(job, content) =>
        StoreKeeps(s, n, job, content);
        n := Reach(n, job);
    }
  }

  // ---- Retrieval ------------------------------------------------------------------------------------

  function CreatedAt(rows: seq<Row>, id: Id): (t: Option<int>) {
    if rows == [] then None
    else if Last(rows).id == id then Some(Last(rows).createdAt) else CreatedAt(Front(rows), id)
  }

  function Between(rows: seq<Row>, lo: int, hi: int): (r: seq<Row>) {
    if rows == [] then []
    else Between(Front(rows), lo, hi) + (if lo <= Last(rows).createdAt <= hi then [Last(rows)] else [])
  }

  /** The messages between two message ids; comparing with the time of a missing row selects nothing. */
  function RangeQuery(rows: seq<Row>, first: Id, last: Id): (r: seq<Row>) {
    var lo, hi := CreatedAt(rows, first), CreatedAt(rows, last);
    if lo.None? || hi.None? then [] else Between(Talk(rows), lo.value, hi.value)
  }

  lemma {:induction false} CreatedAtOf(rows: seq<Row>, r: Row)
    requires Ordered(rows) && r in rows
    ensures CreatedAt(rows, r.id) == Some(r.createdAt)
  {
    var k :| 0 <= k < |rows| && rows[k] == r;
    if k < |rows| - 1 {
      assert rows[k].id != Last(rows).id;
      assert Front(rows)[k] == r;
      CreatedAtOf(Front(rows), r);
    }
  }

  lemma BetweenSnoc(front: seq<Row>, last: Row, lo: int, hi: int)
    ensures Between(front + [last], lo, hi) ==
              Between(front, lo, hi) + (if lo <= last.createdAt <= hi then [last] else [])
  {
    assert Front(front + [last]) == front;
  }

  /** Rows below `lo`, then rows in range, then rows above `hi`. */
  lemma {:induction false} BetweenIsStretch(talk: seq<Row>, a: nat, b: nat, lo: int, hi: int)
    requires a <= b <= |talk|
    requires forall k | 0 <= k < a :: talk[k].createdAt < lo
    requires forall k | a <= k < b :: lo <= talk[k].createdAt <= hi
    requires forall k | b <= k < |talk| :: hi < talk[k].createdAt
    ensures Between(talk, lo, hi) == talk[a..b]
  {
    if talk == [] {
    } else {
      var front, last := Front(talk), Last(talk);
      assert forall k | 0 <= k < |front| :: front[k] == talk[k];
      assert talk == front + [last] && talk[|talk| - 1] == last;
      BetweenSnoc(front, last, lo, hi);
      StretchSnoc(front, last, a, b);
      var b' := if b == |talk| then b - 1 else b;
      BetweenIsStretch(front, if a == |talk| then a - 1 else a, b', lo, hi);
      FrontStretch(front, a, b);
    }
  }

  /** The stretch without the last element. */
  lemma FrontStretch<T>(front: seq<T>, a: nat, b: nat)
    requires a <= b <= |front| + 1
    ensures front[if a == |front| + 1 then a - 1 else a..if b == |front| + 1 then b - 1 else b] ==
              if b <= |front| then front[a..b] else if a <= |front| then front[a..] else []
  {
  }

  lemma StretchSnoc<T>(front: seq<T>, last: T, a: nat, b: nat)
    requires a <= b <= |front| + 1
    ensures (front + [last])[a..b] ==
              if b <= |front| then front[a..b] else if a <= |front| then front[a..] + [last] else []
  {
  }

  lemma RangeFindsStretch(s: State, n: nat, i: nat)
    requires Inv(s, n) && i < |s.summaries|
    ensures RangeQuery(s.rows, s.summaries[i].first, s.summaries[i].last) == s.sources[i].block
  {
    var talk, job := Talk(s.rows), s.sources[i];
    TalkFrom(s.rows);
    assert Stretch(talk, job);
    assert job.block[0] == talk[job.from] && Last(job.block) == talk[End(job) - 1];
    CreatedAtOf(s.rows, talk[job.from]);
    CreatedAtOf(s.rows, talk[End(job) - 1]);
    BetweenIsStretch(talk, job.from, End(job), talk[job.from].createdAt, talk[End(job) - 1].createdAt);
  }

  /**
   * Whatever jobs overlap: the archived messages are exactly a prefix of the conversation that leaves out the
   * latest 15, and the agent loads exactly the rest.
   */
  lemma ArchivedIsPrefix(acts: seq<Action>) returns (n: nat)
    requires Exec(Init(), acts).Some?
    ensures var s := Exec(Init(), acts).value;
            var talk := Talk(s.rows);
            && n <= |talk| && (n == 0 || n <= |talk| - 15)
            && (forall k | 0 <= k < |talk| :: talk[k].id in s.archived <==> k < n)
            && |s.archived| == n
            && Unarchived(talk, s.archived) == talk[n..]
  {
    n := Holds(acts);
    var s := Exec(Init(), acts).value;
    ArchivedPrefix(s, n);
    IdsCount(Talk(s.rows)[..n]);
  }

  lemma {:induction false} IdsCount(rows: seq<Row>)
    requires Ordered(rows)
    ensures |Ids(rows)| == |rows|
  {
    if rows == [] {
    } else {
      IdsCount(Front(rows));
      assert Last(rows).id !in Ids(Front(rows));
      assert forall k | 0 <= k < |Front(rows)| :: Front(rows)[k] == rows[k];
      assert Ids(rows) == Ids(Front(rows)) + {Last(rows).id};
    }
  }

  /** Whatever jobs overlap: a summary's range query returns the block it was written from, whole and in order. */
  lemma RangeReturnsTheBlock(acts: seq<Action>, i: nat)
    requires Exec(Init(), acts).Some? && i < |Exec(Init(), acts).value.summaries|
    ensures var s := Exec(Init(), acts).value;
            && i < |s.sources| && s.sources[i] in s.jobs
            && RangeQuery(s.rows, s.summaries[i].first, s.summaries[i].last) == s.sources[i].block
  {
    var n := Holds(acts);
    RangeFindsStretch(Exec(Init(), acts).value, n, i);
  }

  /** No archived message is out of reach: some summary's range query returns it. */
  lemma ArchivedIsRetrievable(acts: seq<Action>, r: Row) returns (i: nat)
    requires Exec(Init(), acts).Some?
    requires var s := Exec(Init(), acts).value; r in s.rows && r.id in s.archived
    ensures var s := Exec(Init(), acts).value;
            i < |s.summaries| && r in RangeQuery(s.rows, s.summaries[i].first, s.summaries[i].last)
  {
    var n := Holds(acts);
    i := SummaryOf(Exec(Init(), acts).value, n, r);
    RangeFindsStretch(Exec(Init(), acts).value, n, i);
  }

  /** The position of an archived row in the conversation. */
  lemma PositionOf(s: State, n: nat, r: Row) returns (k: nat)
    requires Inv(s, n) && r in s.rows && r.id in s.archived
    ensures k < n <= |Talk(s.rows)| && Talk(s.rows)[k] == r
  {
    ArchivedPrefix(s, n);
    var talk := Talk(s.rows);
    k :| 0 <= k < |talk[..n]| && talk[..n][k].id == r.id;
    TalkFrom(s.rows);
    SameIdSameRow(s.rows, talk[k], r);
  }

  lemma SummaryOf(s: State, n: nat, r: Row) returns (i: nat)
    requires Inv(s, n) && r in s.rows && r.id in s.archived
    ensures i < |s.sources| && i < |s.summaries| && r in s.sources[i].block
  {
    var k := PositionOf(s, n, r);
    assert Covered(s.sources, k);
    i :| CoveredBy(s.sources, i, k);
    assert s.sources[i].block[k - s.sources[i].from] == r;
  }

  lemma SameIdSameRow(rows: seq<Row>, a: Row, b: Row)
    requires Ordered(rows) && a in rows && b in rows && a.id == b.id
    ensures a == b
  {
  }
}
