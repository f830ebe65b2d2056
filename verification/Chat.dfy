// The internal, provider-neutral conversation and how persisted steps replay into it.
module Chat {
  import opened Prelude
  import opened RunSteps

  datatype Role = User | Assistant | ToolResult

  /** An absent list of tool calls and an empty one are the same thing here; "" is an absent call id. */
  datatype ChatMsg = ChatMsg(role: Role, content: string, toolCalls: seq<ToolCall>, toolCallId: string)

  function UserMsg(content: string): (m: ChatMsg) {
    ChatMsg(User, content, [], "")
  }

  function AssistantMsg(text: string, calls: seq<ToolCall>): (m: ChatMsg) {
    ChatMsg(Assistant, text, calls, "")
  }

  function ToolMsg(callId: string, content: string): (m: ChatMsg) {
    ChatMsg(ToolResult, content, [], callId)
  }

  function MsgOf(s: Step): (m: ChatMsg) {
    match s
    case Llm(_, text, calls, _, _) => AssistantMsg(text, calls)
    case Tool(_, callId, _, _, content, _, _, _, _, _, _) => ToolMsg(callId, content)
  }

  /** The messages a resume pushes for already persisted steps. */
  function Replay(steps: seq<Step>): (msgs: seq<ChatMsg>)
    ensures |msgs| == |steps|
  {
    if steps == [] then [] else Replay(Front(steps)) + [MsgOf(Last(steps))]
  }

  /** Each replayed message says what its step says: the turn's text and calls, or the result under its call id. */
  lemma {:induction false} ReplayAt(steps: seq<Step>, k: nat)
    requires k < |steps|
    ensures var m := Replay(steps)[k];
            match steps[k]
            case Llm(_, text, calls, _, _) =>
              m.role.Assistant? && m.content == text && m.toolCalls == calls
            case Tool(_, callId, _, _, content, _, _, _, _, _, _) =>
              m.role.ToolResult? && m.toolCallId == callId && m.content == content && m.toolCalls == []
  {
    if k == |steps| - 1 {
    } else {
      ReplayAt(Front(steps), k);
    }
  }

  lemma ReplaySnoc(steps: seq<Step>, s: Step)
    ensures Replay(steps + [s]) == Replay(steps) + [MsgOf(s)]
  {
    assert Front(steps + [s]) == steps;
  }

  lemma {:induction false} ReplayConcat(a: seq<Step>, b: seq<Step>)
    ensures Replay(a + b) == Replay(a) + Replay(b)
    decreases |b|
  {
    if b == [] {
      ConcatNothing(a);
    } else {
      ReplayConcat(a, Front(b));
      SnocAssociates(a, Front(b), Last(b));
      FrontAndLast(b);
      ReplaySnoc(a + Front(b), Last(b));
      SnocAssociates(Replay(a), Replay(Front(b)), MsgOf(Last(b)));
    }
  }
}
