// One execution of the agent job as a state machine. Every await of the source is a boundary between
// two actions, so a crash is simply "no further action": each reachable state is a crash point.
module AgentLoop {
  import opened Prelude
  import opened RunSteps
  import opened Rounds
  import opened Chat
  import opened Pricing

  const MAX_ITERATIONS: nat := 12
  const TOOL_CONTENT_CAP: nat := 12_000

  /** What the model returned for one turn. */
  datatype TurnResult = TurnResult(text: string, toolCalls: seq<ToolCall>, usage: Usage)

  /** What a tool returned. Tools never throw: the registry turns errors into content. */
  datatype ToolOutput = ToolOutput(args: string, content: string, summary: string, durationMs: nat,
                                   artifactId: string, artifactType: Option<string>,
                                   artifactTitle: Option<string>, sources: seq<string>)

  /** How far one of the concurrent tool calls of a round has come. */
  datatype ToolProgress =
    | Running                  // tool started
    | Saved(step: Step)        // its step is in the database
    | Collected(step: Step)    // ... and in the in-memory step list
    | Reported(step: Step)     // ... and in the conversation

  datatype Phase =
    | Head                                            // at the loop condition
    | Asked(turn: TurnResult)                         // the model has answered
    | Recorded(turn: TurnResult, cost: nat)           // its usage row is written
    | Written(llm: Step)                              // its step is in the database
    | InTools(llm: Step, tools: seq<ToolProgress>)    // tools run concurrently
    | Finished(finalText: string, answered: bool)     // loop left, by an answer or by the bound
    | Cancelled

  /** The variables of one execution, with the columns of its run it writes. */
  datatype Exec = Exec(
    price: Price,
    log: seq<Step>,              // runs.steps, in append order
    steps: seq<Step>,            // the in-memory step list
    msgs: seq<ChatMsg>,          // the live conversation
    iteration: nat, runCost: nat,
    turns: nat,                  // model turns asked for
    usageRows: seq<Usage>,       // usage_events rows written
    phase: Phase)

  datatype Action =
    | Ask(turn: TurnResult)
    | Record
    | Write
    | Push
    | Save(k: nat, out: ToolOutput)
    | Collect(k: nat)
    | Report(k: nat)
    | EndRound
    | Exit
    | Cancel

  /** Where an execution starts: sort the persisted log, truncate it, replay it. */
  function Start(price: Price, base: seq<ChatMsg>, log: seq<Step>): (s: Exec) {
    var steps := DropIncomplete(SortByIndex(log));
    Exec(price, log, steps, base + Replay(steps), CountLlm(steps), SumCost(steps), 0, [], Head)
  }

  function Cap(content: string): (c: string) {
    if |content| <= TOOL_CONTENT_CAP then content else content[..TOOL_CONTENT_CAP]
  }

  function ToolStep(llm: Step, k: nat, out: ToolOutput): (s: Step)
    requires llm.Llm? && k < |llm.toolCalls|
  {
    var tc := llm.toolCalls[k];
    Tool(llm.i + 1 + k, tc.id, tc.name, out.args, Cap(out.content), out.summary, out.durationMs,
         out.artifactId, out.artifactType, out.artifactTitle, out.sources)
  }

  /** The step holds what the tool returned for the call; only a content over 12,000 characters is cut. */
  predicate Carries(step: Step, call: ToolCall, out: ToolOutput) {
    && step.Tool? && step.callId == call.id && step.tool == call.name
    && step.args == out.args && step.summary == out.summary && step.durationMs == out.durationMs
    && step.artifactId == out.artifactId && step.artifactType == out.artifactType
    && step.artifactTitle == out.artifactTitle && step.sources == out.sources
    && step.content <= out.content
    && |step.content| == if |out.content| < 12_000 then |out.content| else 12_000
  }

  lemma ToolStepCarries(llm: Step, k: nat, out: ToolOutput)
    requires llm.Llm? && k < |llm.toolCalls|
    ensures Carries(ToolStep(llm, k, out), llm.toolCalls[k], out)
    ensures ToolStep(llm, k, out).i == llm.i + 1 + k
  {
  }

  predicate Enabled(s: Exec, a: Action) {
    match a
    case Ask(turn) => s.phase.Head? && s.iteration < MAX_ITERATIONS
    case Record => s.phase.Asked?
    case Write => s.phase.Recorded?
    case Push => s.phase.Written? && s.phase.llm.Llm?
    case Save(k, _) => s.phase.InTools? && s.phase.llm.Llm? && k < |s.phase.tools| == |s.phase.llm.toolCalls|
                       && s.phase.tools[k].Running?
    case Collect(k) => s.phase.InTools? && k < |s.phase.tools| && s.phase.tools[k].Saved?
    case Report(k) => s.phase.InTools? && k < |s.phase.tools| && s.phase.tools[k].Collected?
                      && s.phase.tools[k].step.Tool?
    case EndRound => s.phase.InTools? && AllReported(s.phase.tools)
    case Exit => s.phase.Head? && s.iteration >= MAX_ITERATIONS
    case Cancel => s.phase.Head? && s.iteration < MAX_ITERATIONS
  }

  predicate AllReported(tools: seq<ToolProgress>) {
    forall k | 0 <= k < |tools| :: tools[k].Reported?
  }

  function Apply(s: Exec, a: Action): (s': Exec)
    requires Enabled(s, a)
  {
    match a
    case Ask(turn) => s.(turns := s.turns + 1, phase := Asked(turn))
    case Record =>
      var cost := Cost(s.price, s.phase.turn.usage);
      s.(usageRows := s.usageRows + [s.phase.turn.usage], runCost := s.runCost + cost,
         phase := Recorded(s.phase.turn, cost))
    case Write =>
      var t := s.phase.turn;
      var llm := Llm(|s.steps|, t.text, t.toolCalls, t.usage, s.phase.cost);
      s.(log := s.log + [llm], phase := Written(llm))
    case Push =>
      var llm := s.phase.llm;
      var s1 := s.(steps := s.steps + [llm], msgs := s.msgs + [MsgOf(llm)]);
      if llm.toolCalls == []
      then s1.(phase := Finished(llm.text, true))
      else s1.(phase := InTools(llm, seq(|llm.toolCalls|, _ => Running)))
    case Save(k, out) =>
      var step := ToolStep(s.phase.llm, k, out);
      s.(log := s.log + [step], phase := s.phase.(tools := s.phase.tools[k := Saved(step)]))
    case Collect(k) =>
      var step := s.phase.tools[k].step;
      s.(steps := s.steps + [step], phase := s.phase.(tools := s.phase.tools[k := Collected(step)]))
    case Report(k) =>
      var step := s.phase.tools[k].step;
      s.(msgs := s.msgs + [MsgOf(step)], phase := s.phase.(tools := s.phase.tools[k := Reported(step)]))
    case EndRound =>
      s.(iteration := s.iteration + 1, phase := Head)
    case Exit => s.(phase := Finished("", false))
    case Cancel => s.(phase := Cancelled)
  }

  /** The state after a whole schedule of actions, if every action was enabled. */
  function Run(s: Exec, acts: seq<Action>): (r: Option<Exec>) {
    if acts == [] then Some(s)
    else
      match Run(s, Front(acts))
      case None => None
      case Some(m) => if Enabled(m, Last(acts)) then Some(Apply(m, Last(acts))) else None
  }

  lemma RunSnoc(s: Exec, acts: seq<Action>, a: Action)
    requires Run(s, acts).Some? && Enabled(Run(s, acts).value, a)
    ensures Run(s, acts + [a]) == Some(Apply(Run(s, acts).value, a))
  {
    assert Front(acts + [a]) == acts;
  }

  // ---- What an execution logs -------------------------------------------------------------------------

  /** Action `j` of the schedule is the saving of `step`: it was the one to write log position `n`. */
  ghost predicate SavedBy(start: Exec, acts: seq<Action>, j: nat, step: Step, n: nat) {
    && j < |acts| && acts[j].Save?
    && var before := Run(start, acts[..j]);
       && before.Some? && before.value.phase.InTools? && before.value.phase.llm.Llm? && |before.value.log| == n
       && acts[j].k < |before.value.phase.llm.toolCalls|
       && Carries(step, before.value.phase.llm.toolCalls[acts[j].k], acts[j].out)
  }

  /** Action `j` wrote the assistant turn `step` to log position `n`: with the answer, its usage and its price. */
  ghost predicate WrittenBy(start: Exec, acts: seq<Action>, j: nat, step: Step, n: nat) {
    && j < |acts| && acts[j].Write?
    && var before := Run(start, acts[..j]);
       && before.Some? && before.value.phase.Recorded? && |before.value.log| == n
       && var turn := before.value.phase.turn;
          step == Llm(|before.value.steps|, turn.text, turn.toolCalls, turn.usage, Cost(start.price, turn.usage))
  }

  lemma LongerSchedule(start: Exec, acts: seq<Action>, step: Step, n: nat, j: nat)
    requires acts != []
    ensures SavedBy(start, Front(acts), j, step, n) ==> SavedBy(start, acts, j, step, n)
    ensures WrittenBy(start, Front(acts), j, step, n) ==> WrittenBy(start, acts, j, step, n)
  {
    if j < |Front(acts)| {
      assert Front(acts)[..j] == acts[..j] && Front(acts)[j] == acts[j];
    }
  }

  /** What a turn is recorded to cost is its price. */
  lemma {:induction false} RecordedCost(start: Exec, acts: seq<Action>)
    requires start.phase.Head? && Run(start, acts).Some?
    ensures var s := Run(start, acts).value;
            s.price == start.price && (s.phase.Recorded? ==> s.phase.cost == Cost(start.price, s.phase.turn.usage))
  {
    if acts == [] {
    } else {
      RecordedCost(start, Front(acts));
    }
  }

  lemma LogGrows(s: Exec, a: Action)
    requires Enabled(s, a)
    ensures s.log <= Apply(s, a).log
    ensures |Apply(s, a).log| == |s.log| + (if a.Save? || a.Write? then 1 else 0)
  {
  }

  /**
   * Over any schedule: each tool step an execution logs carries the output of its own saving, and each assistant
   * step the answer, usage and cost of its own turn.
   */
  lemma {:induction false} LoggedCarries(start: Exec, acts: seq<Action>, n: nat) returns (j: nat)
    requires start.phase.Head? && Run(start, acts).Some? && |start.log| <= n < |Run(start, acts).value.log|
    ensures var step := Run(start, acts).value.log[n];
            if step.Tool? then SavedBy(start, acts, j, step, n) else WrittenBy(start, acts, j, step, n)
  {
    var m, a := Run(start, Front(acts)).value, Last(acts);
    LogGrows(m, a);
    if n < |m.log| {
      j := LoggedCarries(start, Front(acts), n);
      LongerSchedule(start, acts, m.log[n], n, j);
    } else {
      j := |acts| - 1;
      assert acts[..j] == Front(acts);
      if a.Save? {
        ToolStepCarries(m.phase.llm, a.k, a.out);
      } else {
        RecordedCost(start, Front(acts));
      }
    }
  }
}
