// The request builder of the Anthropic provider: the loop that grows the message list, and the cache
// breakpoint that marks its newest message in place.
module AnthropicProvider {
  import opened Prelude
  import opened Chat
  import opened Anthropic

  function Uncached(b: Block): (b': Block) {
    b.(cached := false)
  }

  function CachedBlocks(blocks: seq<Block>): (n: nat) {
    if blocks == [] then 0 else CachedBlocks(Front(blocks)) + (if Last(blocks).cached then 1 else 0)
  }

  /** Number of cache breakpoints in a request. */
  function Breakpoints(out: seq<AMsg>): (n: nat) {
    if out == [] then 0
    else Breakpoints(Front(out)) + (if Last(out).content.Blocks? then CachedBlocks(Last(out).content.blocks) else 0)
  }

  /** The newest message with its last block marked; a string first becomes one text block. */
  function Marked(m: AMsg): (m': AMsg) {
    match m.content
    case Plain(text) => m.(content := Blocks([Text(text, true)]))
    case Blocks(blocks) =>
      if blocks == [] then m else m.(content := Blocks(Front(blocks) + [Last(blocks).(cached := true)]))
  }

  function Breakpoint(out: seq<AMsg>): (out': seq<AMsg>) {
    if out == [] then out else Front(out) + [Marked(Last(out))]
  }

  lemma {:induction false} NoBreakpoints(h: seq<ChatMsg>)
    ensures Breakpoints(Translate(h)) == 0
  {
    if h == [] {
    } else {
      NoBreakpoints(Front(h));
      var out, m := Translate(Front(h)), Last(h);
      if m.role.ToolResult? {
        var block := Result(m.toolCallId, m.content, false);
        if OpenResults(out) {
          assert Front(Last(out).content.blocks + [block]) == Last(out).content.blocks;
          assert Front(Add(out, m)) == Front(out);
        } else {
          assert CachedBlocks([block]) == CachedBlocks(Front([block])) + 0;
          assert Front([block]) == [];
          assert Front(Add(out, m)) == out;
        }
      } else {
        assert Front(Add(out, m)) == out;
        if Asks(m) {
          NoneCached((if m.content != "" then [Text(m.content, false)] else []) + Uses(m.toolCalls));
        }
      }
    }
  }

  lemma {:induction false} NoneCached(blocks: seq<Block>)
    requires forall k | 0 <= k < |blocks| :: !blocks[k].cached
    ensures CachedBlocks(blocks) == 0
  {
    if blocks == [] {
    } else {
      NoneCached(Front(blocks));
    }
  }

  lemma OneTextBlock(text: string)
    ensures var b := Text(text, true);
            && Unblocks([b]) == [UserMsg(text)] && TextOf([b]) == text && CallsOf([b]) == []
            && UseIds([b]) == multiset{} && ResultIds([b]) == multiset{}
  {
    var b := Text(text, true);
    assert Front([b]) == [];
    assert TextOf([b]) == "" + text;
  }

  lemma MarkedKeepsMeaning(m: AMsg)
    requires m.content.Blocks? && m.role.AUser? ==> ResultMsg(m)
    ensures Back(Marked(m)) == Back(m) && Owes(Marked(m)) == Owes(m) && Pays(Marked(m)) == Pays(m)
  {
    match m.content
    case Plain(text) =>
      OneTextBlock(text);
    case Blocks(blocks) =>
      if blocks != [] {
        var marked := Front(blocks) + [Last(blocks).(cached := true)];
        assert Front(marked) == Front(blocks);
        assert Unblocks(marked) == Unblocks(blocks);
      }
  }

  lemma {:induction false} MarkedOnce(m: AMsg, before: seq<AMsg>)
    requires Breakpoints(before + [m]) == 0
    requires m.content.Blocks? ==> m.content.blocks != []
    ensures Breakpoints(before + [Marked(m)]) == 1
  {
    assert Front(before + [m]) == before && Front(before + [Marked(m)]) == before;
    match m.content
    case Plain(text) =>
      assert Front([Text(text, true)]) == [];
      assert CachedBlocks([Text(text, true)]) == 1;
    case Blocks(blocks) =>
      assert Front(Front(blocks) + [Last(blocks).(cached := true)]) == Front(blocks);
  }

  lemma {:induction false} NoEmptyBlocks(h: seq<ChatMsg>)
    ensures forall j | 0 <= j < |Translate(h)| && Translate(h)[j].content.Blocks? ::
              Translate(h)[j].content.blocks != []
  {
    if h == [] {
    } else {
      NoEmptyBlocks(Front(h));
    }
  }

  /** The mark is on the last block of the newest message, and all messages before it are untouched. */
  predicate MarksNewest(out: seq<AMsg>, marked: seq<AMsg>) {
    && 0 < |out| == |marked| && Front(marked) == Front(out)
    && Last(marked).content.Blocks? && Last(marked).content.blocks != [] && Last(Last(marked).content.blocks).cached
    && (Last(out).content.Plain? ==> Last(marked).content.blocks == [Text(Last(out).content.text, true)])
    && (Last(out).content.Blocks? ==>
          && |Last(marked).content.blocks| == |Last(out).content.blocks|
          && forall k | 0 <= k < |Last(out).content.blocks| :: Uncached(Last(marked).content.blocks[k]) ==
                                                               Uncached(Last(out).content.blocks[k]))
  }

  /**
   * The breakpoint changes nothing but one flag: the request means the same history, stays as valid as it
   * was, and carries exactly one breakpoint, on its newest message.
   */
  lemma BreakpointIsHarmless(h: seq<ChatMsg>)
    ensures var out := Translate(h);
            && Untranslate(Breakpoint(out)) == Meanings(h)
            && (ValidRequest(Breakpoint(out)) <==> Settled(h))
            && Breakpoints(Breakpoint(out)) == (if h == [] then 0 else 1)
            && (h != [] ==> MarksNewest(out, Breakpoint(out)))
  {
    var out := Translate(h);
    RoundTrip(h);
    ValidIffSettled(h);
    TranslationAgrees(h);
    NoBreakpoints(h);
    if h != [] {
      NoEmptyBlocks(h);
      FrontAndLast(out);
      MarkedKeepsMeaning(Last(out));
      MarkedOnce(Last(out), Front(out));
      assert Front(Breakpoint(out)) == Front(out);
      SameLinks(Front(out), Last(out), Marked(Last(out)));
    }
  }

  lemma SameLinks(before: seq<AMsg>, m: AMsg, m': AMsg)
    requires Owes(m) == Owes(m') && Pays(m) == Pays(m')
    ensures ValidRequest(before + [m]) <==> ValidRequest(before + [m'])
  {
    LinkedSnoc(before, m);
    LinkedSnoc(before, m');
  }

  /** The message list under construction. */
  class RequestBuilder {
    var out: seq<AMsg>

    constructor ()
      ensures out == []
    {
      out := [];
    }

    /** One message: results join an open result message, everything else starts a new one. */
    method Append(m: ChatMsg, parses: string -> bool) returns (ok: bool)
      modifies this
      ensures ok == Parsable(m, parses)
      ensures out == if ok then Add(old(out), m) else old(out)
    {
      ok := true;
      if m.role.ToolResult? {
        var block := Result(m.toolCallId, m.content, false);
        if out != [] && Last(out).role.AUser? && Last(out).content.Blocks?
           && Last(out).content.blocks != [] && Last(out).content.blocks[0].Result?
        {
          var last := Last(out);
          out := out[|out| - 1 := last.(content := Blocks(last.content.blocks + [block]))];
          assert out == Front(old(out)) + [AMsg(AUser, Blocks(Last(old(out)).content.blocks + [block]))];
        } else {
          out := out + [AMsg(AUser, Blocks([block]))];
        }
      } else if m.role.Assistant? && m.toolCalls != [] {
        var content: seq<Block> := [];
        if m.content != "" { content := content + [Text(m.content, false)]; }
        ghost var prefix := content;
        assert prefix == if m.content != "" then [Text(m.content, false)] else [];
        for k := 0 to |m.toolCalls|
          invariant content == prefix + Uses(m.toolCalls)[..k]
          invariant forall j | 0 <= j < k :: parses(Input(m.toolCalls[j].args))
          invariant out == old(out)
        {
          if !parses(Input(m.toolCalls[k].args)) {
            assert m.toolCalls[k] in m.toolCalls;
            return false;
          }
          var tc := m.toolCalls[k];
          content := content + [ToolUse(tc.id, tc.name, Input(tc.args), false)];
        }
        assert content == prefix + Uses(m.toolCalls);
        out := out + [AMsg(AAssistant, Blocks(content))];
      } else {
        out := out + [AMsg(if m.role.User? then AUser else AAssistant, Plain(m.content))];
      }
    }

    /** The whole conversion; it stops at the first message whose tool arguments are not JSON. */
    method ToAnthropicMessages(h: seq<ChatMsg>, parses: string -> bool) returns (ok: bool)
      requires out == []
      modifies this
      ensures ok <==> forall j | 0 <= j < |h| :: Parsable(h[j], parses)
      ensures ok ==> out == Translate(h)
    {
      for i := 0 to |h|
        invariant out == Translate(h[..i])
        invariant forall j | 0 <= j < i :: Parsable(h[j], parses)
      {
        var fine := Append(h[i], parses);
        if !fine { return false; }
        assert Front(h[..i + 1]) == h[..i];
      }
      assert h[..|h|] == h;
      return true;
    }

    method WithCacheBreakpoint()
      modifies this
      ensures out == Breakpoint(old(out))
    {
      if out == [] { return; }
      ghost var rest := Front(out);
      var last := Last(out);
      match last.content {
        case Plain(text) =>
          out := out[|out| - 1 := last.(content := Blocks([Text(text, true)]))];
          assert out == rest + [Marked(last)];
        case Blocks(blocks) =>
          if blocks != [] {
            var n := |blocks| - 1;
            out := out[|out| - 1 := last.(content := Blocks(blocks[n := blocks[n].(cached := true)]))];
            assert blocks[n := blocks[n].(cached := true)] == Front(blocks) + [Last(blocks).(cached := true)];
          }
          assert out == rest + [Marked(last)];
      }
    }
  }

  /** All messages parse iff all arguments of all calls of assistant turns do. */
  lemma ParsableIs(h: seq<ChatMsg>, parses: string -> bool)
    ensures (forall j | 0 <= j < |h| :: Parsable(h[j], parses)) <==>
            forall m, t | m in h && m.role.Assistant? && t in m.toolCalls ::
              parses(if t.args == "" then "{}" else t.args)
  {
    if forall j | 0 <= j < |h| :: Parsable(h[j], parses) {
      forall m, t | m in h && m.role.Assistant? && t in m.toolCalls
        ensures parses(if t.args == "" then "{}" else t.args)
      {
        var j :| 0 <= j < |h| && h[j] == m;
        assert Parsable(h[j], parses);
      }
    }
  }

  /** The messages of a request: valid exactly for a settled history, and nothing of it is lost. */
  method BuildRequest(h: seq<ChatMsg>, parses: string -> bool) returns (r: Prelude.Result<seq<AMsg>, string>)
    ensures r.Ok? <==>
              forall m, t | m in h && m.role.Assistant? && t in m.toolCalls ::
                parses(if t.args == "" then "{}" else t.args)
    ensures r.Ok? ==> (ValidRequest(r.value) <==> Settled(h))
    ensures r.Ok? ==> Untranslate(r.value) == Meanings(h)
    ensures r.Ok? ==> Breakpoints(r.value) == if h == [] then 0 else 1
    ensures r.Ok? && h != [] ==>
              && r.value != [] && Last(r.value).content.Blocks? && Last(r.value).content.blocks != []
              && Last(Last(r.value).content.blocks).cached
  {
    ParsableIs(h, parses);
    var b := new RequestBuilder();
    var ok := b.ToAnthropicMessages(h, parses);
    if !ok { return Err("tool arguments are not JSON"); }
    b.WithCacheBreakpoint();
    BreakpointIsHarmless(h);
    return Ok(b.out);
  }
}
