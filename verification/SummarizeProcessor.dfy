// The summarize job and the retrieval excerpt, with the loops that grow the block and the excerpt.
module SummarizeProcessor {
  import opened Prelude
  import opened Memory

  class ThreadMemory {
    var rows: seq<Row>
    var archived: set<Id>
    var summaries: seq<Summary>
    ghost var jobs: set<Job>
    ghost var sources: seq<Job>

    ghost function State(): (s: State)
      reads this
    {
      Memory.State(rows, archived, summaries, jobs, sources)
    }

    constructor ()
      ensures State() == Init()
    {
      rows, archived, summaries, jobs, sources := [], {}, [], {}, [];
    }

    method Insert(row: Row)
      requires Enabled(State(), Action.Insert(row))
      modifies this`rows
      ensures State() == Apply(old(State()), Action.Insert(row))
    {
      rows := rows + [row];
    }

    /** Grows the block until it is large enough. */
    method CollectBlock(candidates: seq<Row>) returns (block: seq<Row>)
      ensures IsOldestBlock(block, candidates) && block == OldestBlock(candidates)
    {
      block := [];
      var blockTokens := 0;
      var k := 0;
      while k < |candidates| && blockTokens < BLOCK_TOKENS
        invariant 0 <= k <= |candidates| && block == candidates[..k] && blockTokens == Tokens(block)
        invariant forall n | 0 <= n < k :: Tokens(candidates[..n]) < BLOCK_TOKENS
      {
        assert Front(candidates[..k + 1]) == candidates[..k];
        block := block + [candidates[k]];
        blockTokens := blockTokens + EstimateTokens(|candidates[k].content|);
        k := k + 1;
      }
      assert forall n | 0 <= n < |block| :: block[..n] == candidates[..n];
      OldestBlockIs(candidates);
      OldestBlockUnique(block, OldestBlock(candidates), candidates);
    }

    /** The job up to its block: nothing below the trigger, and never a block of one message. */
    method Read() returns (job: Option<Job>)
      modifies this`jobs
      ensures job == Propose(old(State()))
      ensures State() == Apply(old(State()), Action.Read)
      ensures Proposes(Unarchived(Talk(rows), archived), job)
      ensures jobs == old(jobs) + (if job.Some? then {job.value} else {})
    {
      ProposesRightly(State());
      var talk := Talk(rows);
      var msgs := Unarchived(talk, archived);
      if EstimateTokens(Chars(msgs)) < TRIGGER_TOKENS { return None; }
      var block := CollectBlock(Candidates(msgs));
      if |block| < 2 { return None; }
      job := Some(Job(block, |talk| - |msgs|));
      jobs := jobs + {job.value};
    }

    /** The last transaction of the job; a summary that came back empty stores nothing. */
    method Store(job: Job, summary: string)
      requires job in jobs && 2 <= |job.block|
      modifies this
      ensures State() == if summary == "" then old(State()) else Apply(old(State()), Action.Store(job, summary))
      ensures summary != "" ==>
                && summaries == old(summaries) + [Summary(job.block[0].id, Last(job.block).id, summary)]
                && forall id :: id in archived <==> id in old(archived) || exists r :: r in job.block && r.id == id
    {
      if summary == "" { return; }
      summaries := summaries + [Summary(job.block[0].id, job.block[|job.block| - 1].id, summary)];
      IdsAre(job.block);
      archived := archived + Ids(job.block);
      sources := sources + [job];
    }
  }

  // ---- Retrieval excerpt --------------------------------------------------------------------------

  const MAX_ORIGINAL_CHARS := 16_000
  const MAX_LINE_CHARS := 1_500

  function Name(role: Role): (s: string) {
    match role
    case User => "user"
    case Assistant => "assistant"
    case ToolResult => "tool"
  }

  function Line(m: Row): (s: string) {
    Name(m.role) + ": " + m.content[..if |m.content| < MAX_LINE_CHARS then |m.content| else MAX_LINE_CHARS] + "\n"
  }

  /** A line: the role, then at most 1,500 characters of the message. */
  lemma LineIs(m: Row)
    ensures var head := if m.role.User? then "user: " else if m.role.Assistant? then "assistant: " else "tool: ";
            var n := if |m.content| < 1_500 then |m.content| else 1_500;
            |Line(m)| == |head| + n + 1 && head <= Line(m)
            && Line(m)[|head|..|head| + n] == m.content[..n] && Last(Line(m)) == '\n'
  {
  }

  lemma IdsAre(rows: seq<Row>)
    ensures forall id :: id in Ids(rows) <==> exists r :: r in rows && r.id == id
  {
    forall id ensures id in Ids(rows) <==> exists r :: r in rows && r.id == id {
      if id in Ids(rows) {
        var k :| 0 <= k < |rows| && rows[k].id == id;
        assert rows[k] in rows;
      }
      if r :| r in rows && r.id == id {
        var k :| 0 <= k < |rows| && rows[k] == r;
      }
    }
  }

  function Lines(rows: seq<Row>): (s: string) {
    if rows == [] then "" else Lines(Front(rows)) + Line(Last(rows))
  }

  /** The excerpt shows the first `shown` messages, as many as fit. */
  method Excerpt(originals: seq<Row>) returns (excerpt: string, shown: nat)
    ensures shown <= |originals| && excerpt == Lines(originals[..shown])
    ensures |excerpt| <= 16_000
    ensures forall n | shown < n <= |originals| :: |Lines(originals[..n])| > 16_000
    ensures shown == |originals| || shown >= 10
  {
    excerpt, shown := "", 0;
    while shown < |originals|
      invariant shown <= |originals| && excerpt == Lines(originals[..shown])
      invariant |excerpt| <= MAX_ORIGINAL_CHARS
    {
      var line := Line(originals[shown]);
      assert Front(originals[..shown + 1]) == originals[..shown];
      if |excerpt| + |line| > MAX_ORIGINAL_CHARS {
        LinesGrow(originals, shown + 1);
        LinesShort(originals[..shown + 1]);
        return;
      }
      excerpt := excerpt + line;
      shown := shown + 1;
    }
  }

  lemma {:induction false} LinesGrow(rows: seq<Row>, k: nat)
    requires k <= |rows|
    ensures forall n | k <= n <= |rows| :: |Lines(rows[..k])| <= |Lines(rows[..n])|
    decreases |rows|
  {
    if k < |rows| {
      LinesGrow(Front(rows), k);
      forall n | k <= n <= |rows| ensures |Lines(rows[..k])| <= |Lines(rows[..n])| {
        assert Front(rows)[..k] == rows[..k];
        if n < |rows| {
          assert Front(rows)[..n] == rows[..n];
        } else {
          assert rows[..n] == rows && Front(rows)[..n - 1] == Front(rows);
        }
      }
    }
  }

  /** A line is a role, a separator and at most 1500 characters. */
  lemma {:induction false} LinesShort(rows: seq<Row>)
    ensures |Lines(rows)| <= 1_512 * |rows|
  {
    if rows == [] {
    } else {
      LinesShort(Front(rows));
      assert |Name(Last(rows).role)| <= 9;
    }
  }

  /**
   * The excerpt of a hit comes from exactly the messages that were summarized: all of them, or a prefix of at
   * least ten that no longer prefix would fit.
   */
  method OriginalExcerpt(memory: ThreadMemory, hit: nat, ghost acts: seq<Action>) returns (excerpt: string, shown: nat)
    requires Exec(Init(), acts) == Some(memory.State()) && hit < |memory.summaries|
    ensures hit < |memory.sources|
    ensures var block := memory.sources[hit].block;
            && shown <= |block| && excerpt == Lines(block[..shown])
            && (shown == |block| || (10 <= shown && |Lines(block[..shown + 1])| > MAX_ORIGINAL_CHARS))
            && 2 <= shown
  {
    RangeReturnsTheBlock(acts, hit);
    ghost var n := Holds(acts);
    var originals := RangeQuery(memory.rows, memory.summaries[hit].first, memory.summaries[hit].last);
    excerpt, shown := Excerpt(originals);
  }
}
