// Streaming one turn from an OpenAI-compatible API: text deltas and tool-call fragments accumulate into the
// turn a batch answer would have been.
module OpenAiCompat {
  import opened Prelude
  import opened RunSteps

  /** A missing field reads as empty. */
  datatype Fragment = Fragment(index: int, id: string, name: string, args: string)

  datatype WireUsage = WireUsage(prompt: nat, completion: nat, cached: nat)

  datatype Chunk = Chunk(content: string, fragments: seq<Fragment>, usage: Option<WireUsage>)

  // ---- What the stream says, fragment by fragment ------------------------------------------------------

  function Concat(parts: seq<string>): (s: string) {
    if parts == [] then "" else Concat(Front(parts)) + Last(parts)
  }

  function AllFragments(chunks: seq<Chunk>): (fs: seq<Fragment>) {
    if chunks == [] then [] else AllFragments(Front(chunks)) + Last(chunks).fragments
  }

  function Contents(chunks: seq<Chunk>): (s: string) {
    if chunks == [] then "" else Contents(Front(chunks)) + Last(chunks).content
  }

  function LastUsage(chunks: seq<Chunk>): (u: Option<WireUsage>) {
    if chunks == [] then None else if Last(chunks).usage.Some? then Last(chunks).usage else LastUsage(Front(chunks))
  }

  /** The fragments of one call, in order. */
  function OfIndex(fs: seq<Fragment>, i: int): (r: seq<Fragment>) {
    if fs == [] then [] else OfIndex(Front(fs), i) + (if Last(fs).index == i then [Last(fs)] else [])
  }

  function Names(fs: seq<Fragment>): (s: string) {
    if fs == [] then "" else Names(Front(fs)) + Last(fs).name
  }

  function Arguments(fs: seq<Fragment>): (s: string) {
    if fs == [] then "" else Arguments(Front(fs)) + Last(fs).args
  }

  /** The last id that is there. */
  function IdOf(fs: seq<Fragment>): (s: string) {
    if fs == [] then "" else if Last(fs).id != "" then Last(fs).id else IdOf(Front(fs))
  }

  function Joined(fs: seq<Fragment>): (c: ToolCall) {
    ToolCall(IdOf(fs), Names(fs), Arguments(fs))
  }

  /** Indices in order of first appearance. */
  function Indices(fs: seq<Fragment>): (order: seq<int>) {
    if fs == [] then []
    else
      var before := Indices(Front(fs));
      if Last(fs).index in before then before else before + [Last(fs).index]
  }

  /** Calls without an id or a name are dropped. */
  function Usable(calls: seq<ToolCall>): (r: seq<ToolCall>) {
    if calls == [] then []
    else Usable(Front(calls)) + (if Last(calls).id != "" && Last(calls).name != "" then [Last(calls)] else [])
  }

  function Calls(fs: seq<Fragment>): (calls: seq<ToolCall>) {
    Usable(JoinedCalls(fs, Indices(fs)))
  }

  function JoinedCalls(fs: seq<Fragment>, order: seq<int>): (calls: seq<ToolCall>)
    ensures |calls| == |order|
    ensures forall k | 0 <= k < |calls| :: calls[k] == Joined(OfIndex(fs, order[k]))
  {
    seq(|order|, k requires 0 <= k < |order| => Joined(OfIndex(fs, order[k])))
  }

  function Normalize(u: Option<WireUsage>): (n: Usage)
    ensures u.Some? ==>
              n.input + n.cacheRead == if u.value.prompt > u.value.cached then u.value.prompt else u.value.cached
    ensures u.Some? ==> n.output == u.value.completion && n.cacheRead == u.value.cached && n.cacheWrite == 0
    ensures u.None? ==> n == Usage(0, 0, 0, 0)
  {
    var w := if u.Some? then u.value else WireUsage(0, 0, 0);
    Usage(if w.prompt > w.cached then w.prompt - w.cached else 0, w.completion, w.cached, 0)
  }

  // ---- The loop ------------------------------------------------------------------------------------------

  /** A map that remembers the order of insertion. */
  datatype Acc = Acc(order: seq<int>, calls: map<int, ToolCall>)

  function Merge(c: ToolCall, f: Fragment): (c': ToolCall) {
    ToolCall(if f.id != "" then f.id else c.id, c.name + f.name, c.args + f.args)
  }

  function Current(acc: Acc, i: int): (c: ToolCall) {
    if i in acc.calls then acc.calls[i] else ToolCall("", "", "")
  }

  function Put(acc: Acc, f: Fragment): (acc': Acc) {
    Acc(if f.index in acc.calls then acc.order else acc.order + [f.index],
        acc.calls[f.index := Merge(Current(acc, f.index), f)])
  }

  function Fold(fs: seq<Fragment>): (acc: Acc) {
    if fs == [] then Acc([], map[]) else Put(Fold(Front(fs)), Last(fs))
  }

  ghost predicate SameKeys(acc: Acc) {
    forall i :: i in acc.calls <==> i in acc.order
  }

  lemma {:induction false} NewIndex(fs: seq<Fragment>, i: int)
    ensures i in Indices(fs) <==> OfIndex(fs, i) != []
  {
    if fs == [] {
    } else {
      NewIndex(Front(fs), i);
    }
  }

  lemma JoinedSnoc(fs: seq<Fragment>, f: Fragment)
    ensures Joined(fs + [f]) == Merge(Joined(fs), f)
  {
    assert Front(fs + [f]) == fs;
  }

  /** The map lists the calls in order of first appearance, under their indices. */
  lemma {:induction false} FoldOrder(fs: seq<Fragment>)
    ensures Fold(fs).order == Indices(fs) && SameKeys(Fold(fs))
  {
    if fs == [] {
    } else {
      FoldOrder(Front(fs));
    }
  }

  /** Each call is joined from its own fragments. */
  lemma {:induction false} FoldCall(fs: seq<Fragment>, i: int)
    requires i in Indices(fs)
    ensures Current(Fold(fs), i) == Joined(OfIndex(fs, i))
  {
    var front, f := Front(fs), Last(fs);
    FoldOrder(front);
    NewIndex(front, i);
    if i in Indices(front) {
      FoldCall(front, i);
    }
    if f.index == i {
      JoinedSnoc(OfIndex(front, i), f);
    } else {
      assert OfIndex(fs, i) == OfIndex(front, i);
    }
  }

  /** The values of the map. */
  function Values(acc: Acc): (calls: seq<ToolCall>)
    ensures |calls| == |acc.order|
  {
    seq(|acc.order|, k requires 0 <= k < |acc.order| => Current(acc, acc.order[k]))
  }

  lemma FoldValues(fs: seq<Fragment>)
    ensures Usable(Values(Fold(fs))) == Calls(fs)
  {
    FoldOrder(fs);
    var order := Indices(fs);
    var joined := JoinedCalls(fs, order);
    forall k | 0 <= k < |order| ensures Values(Fold(fs))[k] == joined[k] {
      assert order[k] in order;
      FoldCall(fs, order[k]);
    }
    assert Values(Fold(fs)) == joined;
  }

  method AddFragments(acc: Acc, fs: seq<Fragment>, ghost before: seq<Fragment>) returns (acc': Acc)
    requires acc == Fold(before)
    ensures acc' == Fold(before + fs)
  {
    acc' := acc;
    assert before + fs[..0] == before;
    for k := 0 to |fs|
      invariant acc' == Fold(before + fs[..k])
    {
      assert Front(before + fs[..k + 1]) == before + fs[..k];
      acc' := Put(acc', fs[k]);
    }
    assert fs[..|fs|] == fs;
  }

  /**
   * However the fragments interleave: the text is what was emitted, a call's name and arguments are the
   * concatenation of its own fragments, and calls come in order of first appearance.
   */
  method StreamTurn(chunks: seq<Chunk>) returns (text: string, calls: seq<ToolCall>, usage: Usage, emitted: seq<string>)
    ensures text == Concat(emitted) == Contents(chunks)
    ensures "" !in emitted
    ensures calls == Calls(AllFragments(chunks))
    ensures usage == Normalize(LastUsage(chunks))
  {
    text, emitted := "", [];
    var acc := Acc([], map[]);
    var wire: Option<WireUsage> := None;
    for k := 0 to |chunks|
      invariant text == Concat(emitted) == Contents(chunks[..k]) && "" !in emitted
      invariant acc == Fold(AllFragments(chunks[..k]))
      invariant wire == LastUsage(chunks[..k])
    {
      var chunk := chunks[k];
      assert Front(chunks[..k + 1]) == chunks[..k];
      if chunk.content != "" {
        assert Front(emitted + [chunk.content]) == emitted;
        text := text + chunk.content;
        emitted := emitted + [chunk.content];
      }
      acc := AddFragments(acc, chunk.fragments, AllFragments(chunks[..k]));
      if chunk.usage.Some? { wire := chunk.usage; }
    }
    assert chunks[..|chunks|] == chunks;
    FoldValues(AllFragments(chunks));
    calls := Usable(Values(acc));
    usage := Normalize(wire);
  }

  // ---- Streaming equals batch ---------------------------------------------------------------------------------

  lemma {:induction false} IndicesDistinct(fs: seq<Fragment>)
    ensures Distinct(Indices(fs))
  {
    if fs == [] {
    } else {
      IndicesDistinct(Front(fs));
    }
  }

  /** Position of the first fragment of an index. */
  function First(fs: seq<Fragment>, i: int): (k: nat)
    requires i in Indices(fs)
    ensures k < |fs| && fs[k].index == i && forall j | 0 <= j < k :: fs[j].index != i
  {
    if i in Indices(Front(fs)) then First(Front(fs), i)
    else
      NewIndex(Front(fs), i);
      NoneBefore(Front(fs), i);
      |fs| - 1
  }

  lemma {:induction false} NoneBefore(fs: seq<Fragment>, i: int)
    requires OfIndex(fs, i) == []
    ensures forall j | 0 <= j < |fs| :: fs[j].index != i
  {
    if fs == [] {
    } else {
      NoneBefore(Front(fs), i);
      assert forall j | 0 <= j < |Front(fs)| :: Front(fs)[j] == fs[j];
    }
  }

  /** The order of calls is that of their first fragments. */
  lemma {:induction false} OrderOfFirstAppearance(fs: seq<Fragment>, a: nat, b: nat)
    requires a < b < |Indices(fs)|
    ensures First(fs, Indices(fs)[a]) < First(fs, Indices(fs)[b])
  {
    IndicesDistinct(fs);
    if b < |Indices(Front(fs))| {
      OrderOfFirstAppearance(Front(fs), a, b);
    }
  }

  /** Only the order within each call and the order of first appearances matter. */
  lemma InterleavingIsIrrelevant(f: seq<Fragment>, g: seq<Fragment>)
    requires Indices(f) == Indices(g) && forall i | i in Indices(f) :: OfIndex(f, i) == OfIndex(g, i)
    ensures Calls(f) == Calls(g)
  {
    var order := Indices(f);
    var a, b := JoinedCalls(f, order), JoinedCalls(g, order);
    forall k | 0 <= k < |order| ensures a[k] == b[k] {
      assert order[k] in order;
    }
    assert a == b;
  }

  /** The pieces give the call: its id at least once and never another, name and arguments in parts. */
  ghost predicate Pieces(fs: seq<Fragment>, c: ToolCall) {
    && (c.id != "" ==> exists k :: 0 <= k < |fs| && fs[k].id == c.id)
    && (forall k | 0 <= k < |fs| :: fs[k].id == "" || fs[k].id == c.id)
    && Names(fs) == c.name && Arguments(fs) == c.args
  }

  lemma {:induction false} IdOfPieces(fs: seq<Fragment>, id: string)
    requires forall k | 0 <= k < |fs| :: fs[k].id == "" || fs[k].id == id
    ensures IdOf(fs) == if exists k :: 0 <= k < |fs| && fs[k].id == id then id else ""
  {
    if fs == [] {
    } else {
      var front := Front(fs);
      assert forall k | 0 <= k < |front| :: front[k] == fs[k];
      IdOfPieces(front, id);
      if id == "" {
      } else if Last(fs).id == "" {
        assert (exists k :: 0 <= k < |fs| && fs[k].id == id) <==> (exists k :: 0 <= k < |front| && front[k].id == id);
      } else {
        assert fs[|fs| - 1].id == id;
      }
    }
  }

  lemma PiecesJoin(fs: seq<Fragment>, c: ToolCall)
    requires Pieces(fs, c)
    ensures Joined(fs) == c
  {
    IdOfPieces(fs, c.id);
  }

  /**
   * Cut a batch of calls into pieces under any distinct indices and interleave the pieces in any way that starts
   * the calls in the order of the batch: its usable calls come back.
   */
  lemma StreamingEqualsBatch(batch: seq<ToolCall>, fs: seq<Fragment>)
    requires |Indices(fs)| == |batch|
    requires forall k | 0 <= k < |batch| :: Pieces(OfIndex(fs, Indices(fs)[k]), batch[k])
    ensures Calls(fs) == Usable(batch)
  {
    JoinedBatch(fs, Indices(fs), batch);
  }

  lemma JoinedBatch(fs: seq<Fragment>, order: seq<int>, batch: seq<ToolCall>)
    requires |order| == |batch| && forall k | 0 <= k < |batch| :: Pieces(OfIndex(fs, order[k]), batch[k])
    ensures JoinedCalls(fs, order) == batch
  {
    var joined := JoinedCalls(fs, order);
    forall k | 0 <= k < |batch| ensures joined[k] == batch[k] {
      PiecesJoin(OfIndex(fs, order[k]), batch[k]);
    }
  }

  /** Usable calls are the calls with an id and a name, in order. */
  lemma {:induction false} UsableIs(calls: seq<ToolCall>)
    ensures forall c :: c in Usable(calls) <==> c in calls && c.id != "" && c.name != ""
    ensures (forall c | c in calls :: c.id != "" && c.name != "") ==> Usable(calls) == calls
  {
    if calls == [] {
    } else {
      UsableIs(Front(calls));
      FrontAndLast(calls);
    }
  }

  // ---- What the sums over a stream are --------------------------------------------------------------------

  /** Text, fragments and usage of one chunk are its own. */
  lemma OneChunk(c: Chunk)
    ensures Contents([c]) == c.content && AllFragments([c]) == c.fragments && LastUsage([c]) == c.usage
  {
    assert Front([c]) == [];
  }

  lemma ChunkSnoc(chunks: seq<Chunk>, c: Chunk)
    ensures Contents(chunks + [c]) == Contents(chunks) + c.content
    ensures AllFragments(chunks + [c]) == AllFragments(chunks) + c.fragments
    ensures LastUsage(chunks + [c]) == if c.usage.Some? then c.usage else LastUsage(chunks)
  {
    assert Front(chunks + [c]) == chunks;
  }

  /** A stream in two parts: texts and fragments follow each other, and the later usage counts. */
  lemma {:induction false} StreamInTwo(a: seq<Chunk>, b: seq<Chunk>)
    ensures Contents(a + b) == Contents(a) + Contents(b)
    ensures AllFragments(a + b) == AllFragments(a) + AllFragments(b)
    ensures LastUsage(a + b) == if LastUsage(b).Some? then LastUsage(b) else LastUsage(a)
    decreases |b|
  {
    if b == [] {
      ConcatNothing(a);
      ConcatNothing(Contents(a));
      ConcatNothing(AllFragments(a));
    } else {
      var front, last := Front(b), Last(b);
      StreamInTwo(a, front);
      SnocAssociates(a, front, last);
      FrontAndLast(b);
      ChunkSnoc(a + front, last);
      ConcatAssociates(Contents(a), Contents(front), last.content);
      ConcatAssociates(AllFragments(a), AllFragments(front), last.fragments);
    }
  }

  /** Name, arguments, id and index of one fragment are its own. */
  lemma OneFragment(f: Fragment, i: int)
    ensures Names([f]) == f.name && Arguments([f]) == f.args && IdOf([f]) == f.id
    ensures OfIndex([f], i) == if f.index == i then [f] else []
  {
    assert Front([f]) == [];
  }

  lemma FragmentSnoc(fs: seq<Fragment>, f: Fragment, i: int)
    ensures Names(fs + [f]) == Names(fs) + f.name && Arguments(fs + [f]) == Arguments(fs) + f.args
    ensures IdOf(fs + [f]) == if f.id != "" then f.id else IdOf(fs)
    ensures OfIndex(fs + [f], i) == OfIndex(fs, i) + (if f.index == i then [f] else [])
  {
    assert Front(fs + [f]) == fs;
  }

  /** Fragments in two parts: names and arguments follow each other, the later id counts, the order stays. */
  lemma {:induction false} FragmentsInTwo(a: seq<Fragment>, b: seq<Fragment>, i: int)
    ensures Names(a + b) == Names(a) + Names(b) && Arguments(a + b) == Arguments(a) + Arguments(b)
    ensures IdOf(a + b) == if IdOf(b) != "" then IdOf(b) else IdOf(a)
    ensures OfIndex(a + b, i) == OfIndex(a, i) + OfIndex(b, i)
    decreases |b|
  {
    if b == [] {
      ConcatNothing(a);
      ConcatNothing(Names(a));
      ConcatNothing(Arguments(a));
      ConcatNothing(OfIndex(a, i));
    } else {
      var front, last := Front(b), Last(b);
      FragmentsInTwo(a, front, i);
      SnocAssociates(a, front, last);
      FrontAndLast(b);
      FragmentSnoc(a + front, last, i);
      ConcatAssociates(Names(a), Names(front), last.name);
      ConcatAssociates(Arguments(a), Arguments(front), last.args);
      ConcatAssociates(OfIndex(a, i), OfIndex(front, i), if last.index == i then [last] else []);
    }
  }
}
