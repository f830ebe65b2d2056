// Translation of the internal history into the message blocks of the Anthropic API.
module Anthropic {
  import opened Prelude
  import opened RunSteps
  import opened Chat

  datatype ARole = AUser | AAssistant

  datatype Block =
    | Text(text: string, cached: bool)
    | ToolUse(id: string, name: string, input: string, cached: bool)
    | Result(toolUseId: string, content: string, cached: bool)

  datatype Content = Plain(text: string) | Blocks(blocks: seq<Block>)

  datatype AMsg = AMsg(role: ARole, content: Content)

  /** Tool inputs stay the JSON text they are parsed from; an empty text means `{}`. */
  function Input(args: string): (j: string) {
    if args == "" then "{}" else args
  }

  predicate Asks(m: ChatMsg) {
    m.role.Assistant? && m.toolCalls != []
  }

  function Uses(calls: seq<ToolCall>): (b: seq<Block>)
    ensures |b| == |calls|
    ensures forall k | 0 <= k < |b| :: b[k] == ToolUse(calls[k].id, calls[k].name, Input(calls[k].args), false)
  {
    seq(|calls|, k requires 0 <= k < |calls| => ToolUse(calls[k].id, calls[k].name, Input(calls[k].args), false))
  }

  predicate OpenResults(out: seq<AMsg>) {
    out != [] && Last(out).role.AUser? && Last(out).content.Blocks?
    && Last(out).content.blocks != [] && Last(out).content.blocks[0].Result?
  }

  /** One iteration of the translation loop. */
  function Add(out: seq<AMsg>, m: ChatMsg): (r: seq<AMsg>) {
    if m.role.ToolResult? then
      var block := Result(m.toolCallId, m.content, false);
      if OpenResults(out) then Front(out) + [AMsg(AUser, Blocks(Last(out).content.blocks + [block]))]
      else out + [AMsg(AUser, Blocks([block]))]
    else if Asks(m) then
      out + [AMsg(AAssistant, Blocks((if m.content != "" then [Text(m.content, false)] else []) + Uses(m.toolCalls)))]
    else
      out + [AMsg(if m.role.User? then AUser else AAssistant, Plain(m.content))]
  }

  function Translate(h: seq<ChatMsg>): (out: seq<AMsg>) {
    if h == [] then [] else Add(Translate(Front(h)), Last(h))
  }

  /** The translation throws on tool arguments that are not JSON. */
  predicate Parsable(m: ChatMsg, parses: string -> bool) {
    Asks(m) ==> forall t | t in m.toolCalls :: parses(Input(t.args))
  }

  // ---- What a provider accepts ------------------------------------------------------------------

  function UseIds(blocks: seq<Block>): (ids: multiset<string>) {
    if blocks == [] then multiset{}
    else UseIds(Front(blocks)) + (if Last(blocks).ToolUse? then multiset{Last(blocks).id} else multiset{})
  }

  function ResultIds(blocks: seq<Block>): (ids: multiset<string>) {
    if blocks == [] then multiset{}
    else ResultIds(Front(blocks)) + (if Last(blocks).Result? then multiset{Last(blocks).toolUseId} else multiset{})
  }

  /** Ids of the tool calls a message makes. */
  function Owes(m: AMsg): (ids: multiset<string>) {
    if m.content.Blocks? then UseIds(m.content.blocks) else multiset{}
  }

  /** Ids of the tool calls a message answers. */
  function Pays(m: AMsg): (ids: multiset<string>) {
    if m.content.Blocks? then ResultIds(m.content.blocks) else multiset{}
  }

  /** Every message answers exactly the calls of the message before it, and no call is left open. */
  predicate ValidRequest(out: seq<AMsg>) {
    && (out != [] ==> Pays(out[0]) == multiset{} && Owes(Last(out)) == multiset{})
    && forall j | 0 < j < |out| :: Pays(out[j]) == Owes(out[j - 1])
  }

  // ---- The same rule on the internal history ------------------------------------------------------

  /** Reading a history: the calls of the last assistant turn and the results seen since. */
  datatype Account = Account(owed: multiset<string>, paid: multiset<string>) | Broken

  function CallIds(calls: seq<ToolCall>): (ids: multiset<string>) {
    if calls == [] then multiset{} else CallIds(Front(calls)) + multiset{Last(calls).id}
  }

  function Read(h: seq<ChatMsg>): (a: Account) {
    if h == [] then Account(multiset{}, multiset{}) else ReadOne(Read(Front(h)), Last(h))
  }

  function ReadOne(a: Account, m: ChatMsg): (a': Account) {
    if a.Broken? then Broken
    else if m.role.ToolResult? then Account(a.owed, a.paid + multiset{m.toolCallId})
    else if a.owed != a.paid then Broken
    else Account(if Asks(m) then CallIds(m.toolCalls) else multiset{}, multiset{})
  }

  /** Each assistant turn with calls is followed directly by exactly its results; no stray results. */
  predicate Settled(h: seq<ChatMsg>) {
    var a := Read(h);
    a.Account? && a.owed == a.paid
  }

  // ---- The two rules agree ----------------------------------------------------------------------

  lemma {:induction false} UsesIds(prefix: seq<Block>, calls: seq<ToolCall>)
    requires forall k | 0 <= k < |prefix| :: prefix[k].Text?
    ensures UseIds(prefix + Uses(calls)) == CallIds(calls)
    ensures ResultIds(prefix + Uses(calls)) == multiset{}
    decreases |calls|, |prefix|
  {
    var all := prefix + Uses(calls);
    if calls != [] {
      assert Front(all) == prefix + Uses(Front(calls));
      UsesIds(prefix, Front(calls));
    } else if prefix != [] {
      assert all == prefix && Front(prefix) == Front(prefix) + Uses([]);
      UsesIds(Front(prefix), []);
    }
  }

  predicate ResultMsg(m: AMsg) {
    m.role.AUser? && m.content.Blocks? && m.content.blocks != []
    && forall k | 0 <= k < |m.content.blocks| :: m.content.blocks[k].Result?
  }

  lemma {:induction false} ResultsPay(blocks: seq<Block>)
    requires forall k | 0 <= k < |blocks| :: blocks[k].Result?
    ensures UseIds(blocks) == multiset{}
    ensures blocks != [] ==> ResultIds(blocks) != multiset{}
  {
    if blocks == [] {
    } else {
      ResultsPay(Front(blocks));
      assert Last(blocks).toolUseId in ResultIds(blocks);
    }
  }

  /** The part of the output before a trailing message of results. */
  function Base(out: seq<AMsg>): (before: seq<AMsg>) {
    if out != [] && ResultMsg(Last(out)) then Front(out) else out
  }

  function Paid(out: seq<AMsg>): (ids: multiset<string>) {
    if out != [] && ResultMsg(Last(out)) then Pays(Last(out)) else multiset{}
  }

  function Owed(out: seq<AMsg>): (ids: multiset<string>) {
    if Base(out) != [] then Owes(Last(Base(out))) else multiset{}
  }

  predicate Linked(out: seq<AMsg>) {
    && (out != [] ==> Pays(out[0]) == multiset{})
    && forall j | 0 < j < |out| :: Pays(out[j]) == Owes(out[j - 1])
  }

  /** What the output says about the history read so far. */
  predicate Agrees(a: Account, out: seq<AMsg>) {
    a == if Linked(Base(out)) then Account(Owed(out), Paid(out)) else Broken
  }

  lemma AddsResult(out: seq<AMsg>, m: ChatMsg)
    requires m.role.ToolResult?
    requires out != [] && Last(out).content.Blocks? && Last(out).role.AUser? ==> ResultMsg(Last(out))
    ensures ResultMsg(Last(Add(out, m)))
    ensures Base(Add(out, m)) == Base(out)
    ensures Paid(Add(out, m)) == Paid(out) + multiset{m.toolCallId}
  {
    var block := Result(m.toolCallId, m.content, false);
    if OpenResults(out) {
      assert Front(Last(out).content.blocks + [block]) == Last(out).content.blocks;
    } else {
      assert Front([block]) == [];
      assert ResultIds([block]) == multiset{} + multiset{m.toolCallId};
      assert Front(out + [AMsg(AUser, Blocks([block]))]) == out;
      assert !(out != [] && ResultMsg(Last(out)));
    }
  }

  lemma AddsOther(out: seq<AMsg>, m: ChatMsg)
    requires !m.role.ToolResult?
    ensures |Add(out, m)| == |out| + 1 && Front(Add(out, m)) == out
    ensures !ResultMsg(Last(Add(out, m)))
    ensures Pays(Last(Add(out, m))) == multiset{}
    ensures Owes(Last(Add(out, m))) == if Asks(m) then CallIds(m.toolCalls) else multiset{}
    ensures Last(Add(out, m)).role.AUser? ==> Last(Add(out, m)).content.Plain?
  {
    if Asks(m) {
      UsesIds(if m.content != "" then [Text(m.content, false)] else [], m.toolCalls);
    }
  }

  lemma LinkedSnoc(out: seq<AMsg>, m: AMsg)
    ensures Linked(out + [m]) <==>
              Linked(out) && Pays(m) == (if out == [] then multiset{} else Owes(Last(out)))
  {
    var all := out + [m];
    if Linked(all) {
      forall j | 0 < j < |out| ensures Pays(out[j]) == Owes(out[j - 1]) {
        assert all[j] == out[j] && all[j - 1] == out[j - 1];
      }
      assert out != [] ==> all[0] == out[0];
      if out != [] {
        assert Pays(all[|out|]) == Owes(all[|out| - 1]);
      }
    }
  }

  /** Linked up to its last message: linked before the trailing results, which settle the account. */
  lemma LinkedBase(out: seq<AMsg>)
    ensures Linked(out) <==> Linked(Base(out)) && (Base(out) == out || Owed(out) == Paid(out))
    ensures Base(out) != out ==> Owes(Last(out)) == multiset{} && Paid(out) != multiset{}
  {
    if Base(out) != out {
      FrontAndLast(out);
      LinkedSnoc(Front(out), Last(out));
      ResultsPay(Last(out).content.blocks);
    }
  }

  lemma {:induction false} TranslationAgrees(h: seq<ChatMsg>)
    ensures Agrees(Read(h), Translate(h))
    ensures Translate(h) != [] && Last(Translate(h)).content.Blocks? && Last(Translate(h)).role.AUser? ==>
              ResultMsg(Last(Translate(h)))
  {
    if h == [] {
    } else {
      TranslationAgrees(Front(h));
      AddAgrees(Read(Front(h)), Translate(Front(h)), Last(h));
    }
  }

  lemma AddOtherAgrees(a: Account, out: seq<AMsg>, m: ChatMsg)
    requires Agrees(a, out) && !m.role.ToolResult?
    ensures Agrees(ReadOne(a, m), Add(out, m))
  {
    AddsOther(out, m);
    var out' := Add(out, m);
    FrontAndLast(out');
    LinkedSnoc(out, Last(out'));
    LinkedBase(out);
    assert Base(out') == out';
    // The next message may not answer anything, so the account must be settled here.
    assert Linked(out') <==> a.Account? && a.owed == a.paid;
  }

  lemma AddAgrees(a: Account, out: seq<AMsg>, m: ChatMsg)
    requires Agrees(a, out)
    requires out != [] && Last(out).content.Blocks? && Last(out).role.AUser? ==> ResultMsg(Last(out))
    ensures Agrees(ReadOne(a, m), Add(out, m))
    ensures var out' := Add(out, m);
            out' != [] && (Last(out').content.Blocks? && Last(out').role.AUser? ==> ResultMsg(Last(out')))
  {
    if m.role.ToolResult? {
      AddsResult(out, m);
    } else {
      AddsOther(out, m);
      AddOtherAgrees(a, out, m);
    }
  }

  /** The translated request is acceptable exactly when the history is settled. */
  lemma ValidIffSettled(h: seq<ChatMsg>)
    ensures ValidRequest(Translate(h)) <==> Settled(h)
  {
    TranslationAgrees(h);
    LinkedBase(Translate(h));
  }

  /** Only user messages made of results alone answer calls. */
  predicate Shaped(m: AMsg) {
    (Pays(m) != multiset{} <==> ResultMsg(m)) && (ResultMsg(m) ==> Owes(m) == multiset{})
  }

  lemma {:induction false} TranslationShaped(h: seq<ChatMsg>)
    ensures forall j | 0 <= j < |Translate(h)| :: Shaped(Translate(h)[j])
  {
    if h == [] {
    } else {
      TranslationShaped(Front(h));
      TranslationAgrees(Front(h));
      AddShaped(Translate(Front(h)), Last(h));
    }
  }

  lemma AddShaped(out: seq<AMsg>, m: ChatMsg)
    requires forall j | 0 <= j < |out| :: Shaped(out[j])
    requires out != [] && Last(out).content.Blocks? && Last(out).role.AUser? ==> ResultMsg(Last(out))
    ensures forall j | 0 <= j < |Add(out, m)| :: Shaped(Add(out, m)[j])
  {
    if m.role.ToolResult? {
      AddsResult(out, m);
    } else {
      AddsOther(out, m);
    }
    var last := Last(Add(out, m));
    if ResultMsg(last) {
      ResultsPay(last.content.blocks);
    }
  }

  /**
   * In a settled history's request, an assistant message with calls is followed immediately by one user
   * message whose results answer exactly those calls, and no two result messages are adjacent.
   */
  lemma RequestShape(h: seq<ChatMsg>)
    requires Settled(h)
    ensures var out := Translate(h);
            && (forall j | 0 <= j < |out| && Owes(out[j]) != multiset{} ::
                  j + 1 < |out| && ResultMsg(out[j + 1]) && Pays(out[j + 1]) == Owes(out[j]))
            && (forall j | 0 <= j < |out| && ResultMsg(out[j]) ::
                  j > 0 && Owes(out[j - 1]) == Pays(out[j]) && !ResultMsg(out[j - 1]))
  {
    ValidIffSettled(h);
    TranslationShaped(h);
    ShapedRequest(Translate(h));
  }

  lemma ShapedRequest(out: seq<AMsg>)
    requires ValidRequest(out) && forall j | 0 <= j < |out| :: Shaped(out[j])
    ensures forall j | 0 <= j < |out| && Owes(out[j]) != multiset{} ::
              j + 1 < |out| && ResultMsg(out[j + 1]) && Pays(out[j + 1]) == Owes(out[j])
    ensures forall j | 0 <= j < |out| && ResultMsg(out[j]) ::
              j > 0 && Owes(out[j - 1]) == Pays(out[j]) && !ResultMsg(out[j - 1])
  {
    forall j | 0 <= j < |out| && Owes(out[j]) != multiset{}
      ensures j + 1 < |out| && ResultMsg(out[j + 1]) && Pays(out[j + 1]) == Owes(out[j])
    {
      if j + 1 < |out| {
        assert Pays(out[j + 1]) == Owes(out[j + 1 - 1]);
        assert Shaped(out[j + 1]);
      } else {
        assert false;
      }
    }
    forall j | 0 <= j < |out| && ResultMsg(out[j])
      ensures j > 0 && Owes(out[j - 1]) == Pays(out[j]) && !ResultMsg(out[j - 1])
    {
      assert Shaped(out[j]);
      if j > 0 {
        assert Shaped(out[j - 1]);
      }
    }
  }

  // ---- Nothing is lost ------------------------------------------------------------------------------

  function CallsOf(blocks: seq<Block>): (calls: seq<ToolCall>) {
    if blocks == [] then []
    else
      var b := Last(blocks);
      CallsOf(Front(blocks)) + (if b.ToolUse? then [ToolCall(b.id, b.name, b.input)] else [])
  }

  function TextOf(blocks: seq<Block>): (text: string) {
    if blocks == [] then "" else TextOf(Front(blocks)) + (if Last(blocks).Text? then Last(blocks).text else "")
  }

  function Unblock(b: Block): (m: ChatMsg) {
    match b
    case Text(text, _) => UserMsg(text)
    case Result(id, content, _) => ToolMsg(id, content)
    case ToolUse(id, name, input, _) => ChatMsg(User, "", [ToolCall(id, name, input)], "")
  }

  function Unblocks(blocks: seq<Block>): (msgs: seq<ChatMsg>) {
    if blocks == [] then [] else Unblocks(Front(blocks)) + [Unblock(Last(blocks))]
  }

  /** Reading one request message back into internal messages. */
  function Back(m: AMsg): (msgs: seq<ChatMsg>) {
    match m.content
    case Plain(text) => [ChatMsg(if m.role.AUser? then User else Assistant, text, [], "")]
    case Blocks(blocks) =>
      if m.role.AUser? then Unblocks(blocks) else [AssistantMsg(TextOf(blocks), CallsOf(blocks))]
  }

  function Untranslate(out: seq<AMsg>): (h: seq<ChatMsg>) {
    if out == [] then [] else Untranslate(Front(out)) + Back(Last(out))
  }

  function WithInputs(calls: seq<ToolCall>): (r: seq<ToolCall>) {
    seq(|calls|, k requires 0 <= k < |calls| => calls[k].(args := Input(calls[k].args)))
  }

  /** The parts of a message that its role gives a meaning to. */
  function Meaning(m: ChatMsg): (m': ChatMsg) {
    if m.role.ToolResult? then ToolMsg(m.toolCallId, m.content)
    else if Asks(m) then
      AssistantMsg(m.content, WithInputs(m.toolCalls))
    else ChatMsg(m.role, m.content, [], "")
  }

  /** A meaning keeps role, text, calls and call id; only an empty argument text is read as `{}`. */
  lemma MeaningKeeps(m: ChatMsg)
    ensures Meaning(m).role == m.role && Meaning(m).content == m.content
    ensures m.role.ToolResult? ==> Meaning(m).toolCallId == m.toolCallId
    ensures m.role.Assistant? ==>
              && |Meaning(m).toolCalls| == |m.toolCalls|
              && forall k | 0 <= k < |m.toolCalls| ::
                   var t, t' := m.toolCalls[k], Meaning(m).toolCalls[k];
                   t'.id == t.id && t'.name == t.name && t'.args == if t.args == "" then "{}" else t.args
  {
  }

  function Meanings(h: seq<ChatMsg>): (r: seq<ChatMsg>) {
    if h == [] then [] else Meanings(Front(h)) + [Meaning(Last(h))]
  }

  lemma TextBack(prefix: seq<Block>)
    requires |prefix| <= 1 && forall k | 0 <= k < |prefix| :: prefix[k].Text?
    ensures CallsOf(prefix) == [] && TextOf(prefix) == if prefix == [] then "" else prefix[0].text
  {
    if prefix != [] {
      assert Front(prefix) == [];
      assert "" + prefix[0].text == prefix[0].text;
    }
  }

  lemma UseBack(blocks: seq<Block>, t: ToolCall)
    ensures var use := ToolUse(t.id, t.name, Input(t.args), false);
            && CallsOf(blocks + [use]) == CallsOf(blocks) + [t.(args := Input(t.args))]
            && TextOf(blocks + [use]) == TextOf(blocks)
  {
    var use := ToolUse(t.id, t.name, Input(t.args), false);
    assert Front(blocks + [use]) == blocks;
    ConcatNothing(TextOf(blocks));
  }

  lemma UsesSnoc(prefix: seq<Block>, calls: seq<ToolCall>)
    requires calls != []
    ensures var t := Last(calls);
            && prefix + Uses(calls) == prefix + Uses(Front(calls)) + [ToolUse(t.id, t.name, Input(t.args), false)]
            && WithInputs(calls) == WithInputs(Front(calls)) + [t.(args := Input(t.args))]
  {
  }

  lemma {:induction false} UsesBack(prefix: seq<Block>, calls: seq<ToolCall>)
    requires |prefix| <= 1 && forall k | 0 <= k < |prefix| :: prefix[k].Text?
    ensures CallsOf(prefix + Uses(calls)) == WithInputs(calls)
    ensures TextOf(prefix + Uses(calls)) == if prefix == [] then "" else prefix[0].text
    decreases |calls|
  {
    if calls == [] {
      ConcatNothing(prefix);
      TextBack(prefix);
    } else {
      UsesBack(prefix, Front(calls));
      UsesSnoc(prefix, calls);
      UseBack(prefix + Uses(Front(calls)), Last(calls));
    }
  }

  lemma UntranslateAdd(out: seq<AMsg>, m: ChatMsg)
    ensures Untranslate(Add(out, m)) == Untranslate(out) + [Meaning(m)]
  {
    var out' := Add(out, m);
    if m.role.ToolResult? {
      var block := Result(m.toolCallId, m.content, false);
      if OpenResults(out) {
        var blocks := Last(out).content.blocks;
        assert Front(blocks + [block]) == blocks;
        assert Front(out') == Front(out);
        assert Untranslate(out) == Untranslate(Front(out)) + Unblocks(blocks);
      } else {
        assert Front(out') == out && Front([block]) == [];
        assert Unblocks([block]) == [Unblock(block)];
      }
    } else {
      assert Front(out') == out;
      if Asks(m) {
        UsesBack(if m.content != "" then [Text(m.content, false)] else [], m.toolCalls);
      }
    }
  }

  /** Flattening the request gives the history back, whatever the history is. */
  lemma {:induction false} RoundTrip(h: seq<ChatMsg>)
    ensures Untranslate(Translate(h)) == Meanings(h)
  {
    if h == [] {
    } else {
      RoundTrip(Front(h));
      UntranslateAdd(Translate(Front(h)), Last(h));
    }
  }
}
