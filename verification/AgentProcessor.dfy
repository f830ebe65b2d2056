// The agent job itself: resume from the persisted steps, then the turn loop with concurrent tools. Each
// awaited statement is a method that performs one action of the state machine.
module AgentProcessor {
  import opened Prelude
  import opened RunSteps
  import opened Rounds
  import opened Chat
  import opened Pricing
  import opened AgentLoop
  import opened Resume
  import opened EndToEnd

  /**
   * The outside world: what the model answers to a request, what a tool returns, in which order the tools of
   * a round make progress, and when the user cancels.
   */
  datatype World = World(
    turn: (nat, seq<ChatMsg>) -> TurnResult,
    tool: (nat, ToolCall) -> ToolOutput,
    schedule: nat -> seq<nat>,
    cancelled: nat -> bool)

  /** Every answer, tool result and cancellation in the trace is the one the world gives at that point. */
  ghost predicate Obeys(w: World, s: Exec, acts: seq<Action>) {
    acts == [] ||
    (Obeys(w, s, Front(acts)) && (Run(s, Front(acts)).Some? ==> Given(w, Run(s, Front(acts)).value, Last(acts))))
  }

  ghost predicate Given(w: World, s: Exec, a: Action) {
    match a
    case Ask(turn) => !w.cancelled(s.iteration) && turn == w.turn(s.iteration, Request(s))
    case Save(k, out) => s.phase.InTools? && s.phase.llm.Llm? && k < |s.phase.llm.toolCalls| ==>
                           out == w.tool(s.iteration, s.phase.llm.toolCalls[k])
    case Cancel => w.cancelled(s.iteration)
    case _ => true
  }

  class AgentRun {
    const price: Price
    const world: World
    var log: seq<Step>
    var steps: seq<Step>
    var msgs: seq<ChatMsg>
    var iteration: nat
    var runCost: nat
    var usageRows: seq<Usage>
    ghost var turns: nat
    ghost var phase: Phase
    ghost const origin: Exec
    ghost var trace: seq<Action>

    ghost function State(): Exec
      reads this
    {
      Exec(price, log, steps, msgs, iteration, runCost, turns, usageRows, phase)
    }

    /** The object is where the state machine is after `trace`. */
    ghost predicate Valid()
      reads this
    {
      Run(origin, trace) == Some(State()) && Obeys(world, origin, trace)
    }

    /** What RunSnoc says, and that the action is one the world asked for. */
    lemma Extend(a: Action)
      requires Valid() && Enabled(State(), a) && Given(world, State(), a)
      ensures Run(origin, trace + [a]) == Some(Apply(State(), a)) && Obeys(world, origin, trace + [a])
    {
      RunSnoc(origin, trace, a);
      assert Front(trace + [a]) == trace;
    }

    /** This object has made the step `a` from `before`. */
    ghost predicate Made(before: Exec, earlier: seq<Action>, a: Action)
      reads this
    {
      Enabled(before, a) && State() == Apply(before, a) && trace == earlier + [a]
    }

    lemma StartIsReached(price: Price, base: seq<ChatMsg>, persisted: seq<Step>)
      requires origin == Start(price, base, persisted) && trace == []
      requires this.price == price && log == persisted && steps == DropIncomplete(SortByIndex(persisted))
      requires msgs == base + Replay(steps) && iteration == CountLlm(steps) && runCost == SumCost(steps)
      requires turns == 0 && usageRows == [] && phase == Head
      ensures State() == Start(price, base, persisted) && Valid()
    {
    }

    /** Load, sort, truncate, replay. */
    constructor (price: Price, base: seq<ChatMsg>, persisted: seq<Step>, world: World)
      ensures this.world == world
      ensures State() == Start(price, base, persisted)
      ensures Valid() && origin == Start(price, base, persisted) && trace == []
    {
      this.price, this.world := price, world;
      log, steps, msgs := persisted, SortByIndex(persisted), base;
      iteration, runCost, usageRows := 0, 0, [];
      turns, phase, trace := 0, Head, [];
      origin := Start(price, base, persisted);
      new;
      Load();
      StartIsReached(price, base, persisted);
    }

    /** Truncates the sorted steps and replays what is left. */
    method Load()
      requires iteration == 0 && runCost == 0
      modifies this`steps, this`msgs, this`iteration, this`runCost
      ensures steps == DropIncomplete(old(steps)) && msgs == old(msgs) + Replay(steps)
      ensures iteration == CountLlm(steps) && runCost == SumCost(steps)
    {
      DropIncompleteTrailingRound();
      Overlay();
    }

    /** Truncates the step list in place from an unfinished last round onward. */
    method DropIncompleteTrailingRound()
      modifies this`steps
      ensures steps == DropIncomplete(old(steps))
    {
      var lastLlm := -1;
      var i := |steps| - 1;
      while i >= 0
        invariant -1 <= i < |steps|
        invariant lastLlm == -1 && steps == old(steps)
        invariant forall j | i < j < |steps| :: steps[j].Tool?
      {
        if steps[i].Llm? {
          lastLlm := i;
          break;
        }
        i := i - 1;
      }
      LastLlmUnique(steps, lastLlm);
      if lastLlm == -1 { return; }
      var llm := steps[lastLlm];
      if llm.toolCalls == [] { return; }
      var resolved := Resolved(steps[lastLlm + 1..]);
      var complete := true;
      for k := 0 to |llm.toolCalls|
        invariant complete <==> forall j | 0 <= j < k :: llm.toolCalls[j].id in resolved
      {
        if llm.toolCalls[k].id !in resolved { complete := false; }
      }
      if !complete { steps := steps[..lastLlm]; }
    }

    /** Replays the kept steps into the conversation and restores cost and iteration. */
    method Overlay()
      requires iteration == 0 && runCost == 0
      modifies this`msgs, this`iteration, this`runCost
      ensures msgs == old(msgs) + Replay(steps)
      ensures iteration == CountLlm(steps) && runCost == SumCost(steps)
    {
      for k := 0 to |steps|
        invariant msgs == old(msgs) + Replay(steps[..k])
        invariant iteration == CountLlm(steps[..k]) && runCost == SumCost(steps[..k])
      {
        assert Front(steps[..k + 1]) == steps[..k];
        match steps[k] {
          case Llm(_, text, calls, _, cost) =>
            msgs := msgs + [AssistantMsg(text, calls)];
            iteration, runCost := iteration + 1, runCost + cost;
          case Tool(_, callId, _, _, content, _, _, _, _, _, _) =>
            msgs := msgs + [ToolMsg(callId, content)];
        }
      }
      assert steps[..|steps|] == steps;
    }

    method Ask(result: TurnResult)
      requires Valid() && phase.Head? && iteration < MAX_ITERATIONS
      requires Given(world, State(), Action.Ask(result))
      modifies this`turns, this`phase, this`trace
      ensures Valid() && phase == Asked(result) && trace == old(trace) + [Action.Ask(result)]
    {
      Extend(Action.Ask(result));
      turns, phase, trace := turns + 1, Asked(result), trace + [Action.Ask(result)];
    }

    method RecordUsage(result: TurnResult) returns (costUsd: nat)
      requires Valid() && phase == Asked(result)
      modifies this`usageRows, this`runCost, this`phase, this`trace
      ensures Valid() && trace == old(trace) + [Action.Record]
      ensures costUsd == Cost(price, result.usage) && phase == Recorded(result, costUsd)
      ensures usageRows == old(usageRows) + [result.usage] && runCost == old(runCost) + costUsd
    {
      Extend(Action.Record);
      costUsd := Cost(price, result.usage);
      usageRows := usageRows + [result.usage];
      runCost := runCost + costUsd;
      phase, trace := Recorded(result, costUsd), trace + [Action.Record];
    }

    method PersistLlm(llmStep: Step)
      requires Valid() && phase.Recorded?
      requires llmStep == Llm(|steps|, phase.turn.text, phase.turn.toolCalls, phase.turn.usage, phase.cost)
      modifies this`log, this`phase, this`trace
      ensures Valid() && trace == old(trace) + [Action.Write]
      ensures phase == Written(llmStep) && log == old(log) + [llmStep]
    {
      Extend(Action.Write);
      log := log + [llmStep];
      phase, trace := Written(llmStep), trace + [Action.Write];
    }

    method PushLlm(llmStep: Step)
      requires Valid() && phase == Written(llmStep) && llmStep.Llm?
      modifies this`steps, this`msgs, this`phase, this`trace
      ensures Valid() && trace == old(trace) + [Action.Push]
      ensures phase == if llmStep.toolCalls == [] then Finished(llmStep.text, true)
                       else InTools(llmStep, seq(|llmStep.toolCalls|, _ => Running))
      ensures steps == old(steps) + [llmStep]
      ensures msgs == old(msgs) + [AssistantMsg(llmStep.text, llmStep.toolCalls)]
    {
      Extend(Action.Push);
      steps := steps + [llmStep];
      msgs := msgs + [AssistantMsg(llmStep.text, llmStep.toolCalls)];
      phase := if llmStep.toolCalls == [] then Finished(llmStep.text, true)
               else InTools(llmStep, seq(|llmStep.toolCalls|, _ => Running));
      trace := trace + [Action.Push];
    }

    /** A tool returns and its step is persisted. */
    method SaveStep(llm: Step, tools: seq<ToolProgress>, k: nat) returns (next: seq<ToolProgress>)
      requires Valid() && phase == InTools(llm, tools) && llm.Llm?
      requires k < |tools| == |llm.toolCalls| && tools[k].Running?
      modifies this
      ensures |next| == |tools| && next[k].Saved? && forall m | 0 <= m < |tools| && m != k :: next[m] == tools[m]
      ensures Carries(next[k].step, llm.toolCalls[k], world.tool(iteration, llm.toolCalls[k]))
      ensures next[k].step.i == llm.i + 1 + k && log == old(log) + [next[k].step]
      ensures Valid() && phase == InTools(llm, next)
      ensures iteration == old(iteration) && |trace| == |old(trace)| + 1 && turns == old(turns)
    {
      var out := world.tool(iteration, llm.toolCalls[k]);
      Extend(Action.Save(k, out));
      var toolStep := ToolStep(llm, k, out);
      ToolStepCarries(llm, k, out);
      log := log + [toolStep];
      next := tools[k := Saved(toolStep)];
      phase, trace := InTools(llm, next), trace + [Action.Save(k, out)];
    }

    method CollectStep(llm: Step, tools: seq<ToolProgress>, k: nat, step: Step) returns (next: seq<ToolProgress>)
      requires Valid() && phase == InTools(llm, tools) && k < |tools| && tools[k] == Saved(step)
      modifies this
      ensures next == tools[k := Collected(step)] && Valid() && phase == InTools(llm, next)
      ensures iteration == old(iteration) && |trace| == |old(trace)| + 1 && turns == old(turns)
    {
      Extend(Action.Collect(k));
      steps := steps + [step];
      next := tools[k := Collected(step)];
      phase, trace := InTools(llm, next), trace + [Action.Collect(k)];
    }

    method ReportStep(llm: Step, tools: seq<ToolProgress>, k: nat, step: Step) returns (next: seq<ToolProgress>)
      requires Valid() && phase == InTools(llm, tools) && k < |tools| && tools[k] == Collected(step) && step.Tool?
      modifies this
      ensures next == tools[k := Reported(step)] && Valid() && phase == InTools(llm, next)
      ensures iteration == old(iteration) && |trace| == |old(trace)| + 1 && turns == old(turns)
    {
      Extend(Action.Report(k));
      msgs := msgs + [MsgOf(step)];
      next := tools[k := Reported(step)];
      phase, trace := InTools(llm, next), trace + [Action.Report(k)];
    }

    /** One tool call moves by one await: persist, then collect, then report. */
    method AdvanceTool(llm: Step, tools: seq<ToolProgress>, k: nat) returns (next: seq<ToolProgress>)
      requires Valid() && phase == InTools(llm, tools) && llm.Llm?
      requires k < |tools| == |llm.toolCalls| && !tools[k].Reported?
      requires AllCarry(llm, tools)
      modifies this
      ensures Valid() && phase == InTools(llm, next) && Moved(tools, next, k)
      ensures AllCarry(llm, next)
      ensures iteration == old(iteration) && |trace| == |old(trace)| + 1 && turns == old(turns)
    {
      match tools[k] {
        case Running => next := SaveStep(llm, tools, k);
        case Saved(step) => next := CollectStep(llm, tools, k, step);
        case Collected(step) => next := ReportStep(llm, tools, k, step);
      }
    }

    /** Runs all tools of a round: first as the scheduler interleaves them, then until all are done. */
    method AwaitAll(llm: Step) returns (tools: seq<ToolProgress>)
      requires Valid() && llm.Llm? && phase == InTools(llm, seq(|llm.toolCalls|, _ => Running))
      modifies this
      ensures Valid() && phase == InTools(llm, tools) && AllReported(tools)
      ensures |tools| == |llm.toolCalls| && iteration == old(iteration)
      ensures forall k | 0 <= k < |tools| ::
                Carries(tools[k].step, llm.toolCalls[k], world.tool(iteration, llm.toolCalls[k]))
    {
      tools := Interleave(llm);
      for k := 0 to |tools|
        invariant Working(llm, tools)
        invariant forall m | 0 <= m < k :: tools[m].Reported?
        invariant iteration == old(iteration)
      {
        tools := AwaitTool(llm, tools, k);
      }
    }

    /** Runs one tool to its end. */
    method AwaitTool(llm: Step, tools: seq<ToolProgress>, k: nat) returns (next: seq<ToolProgress>)
      requires Working(llm, tools) && k < |tools|
      modifies this
      ensures Working(llm, next) && |next| == |tools| && next[k].Reported?
      ensures Carries(next[k].step, llm.toolCalls[k], world.tool(iteration, llm.toolCalls[k]))
      ensures forall m | 0 <= m < |tools| && m != k :: next[m] == tools[m]
      ensures iteration == old(iteration)
    {
      next := tools;
      while !next[k].Reported?
        invariant Working(llm, next) && |next| == |tools|
        invariant forall m | 0 <= m < |tools| && m != k :: next[m] == tools[m]
        invariant iteration == old(iteration)
        decreases Distance(next[k])
      {
        next := AdvanceTool(llm, next, k);
      }
    }

    ghost predicate Working(llm: Step, tools: seq<ToolProgress>)
      reads this
    {
      Valid() && llm.Llm? && phase == InTools(llm, tools) && |tools| == |llm.toolCalls| && AllCarry(llm, tools)
    }

    /** Every tool that has returned has a step with its own output. */
    ghost predicate AllCarry(llm: Step, tools: seq<ToolProgress>)
      requires llm.Llm? && |tools| == |llm.toolCalls|
      reads this
    {
      forall m | 0 <= m < |tools| && !tools[m].Running? ::
        Carries(tools[m].step, llm.toolCalls[m], world.tool(iteration, llm.toolCalls[m]))
    }

    /** The scheduler's part. */
    method Interleave(llm: Step) returns (tools: seq<ToolProgress>)
      requires Valid() && llm.Llm? && phase == InTools(llm, seq(|llm.toolCalls|, _ => Running))
      modifies this
      ensures Working(llm, tools)
      ensures iteration == old(iteration)
    {
      tools := seq(|llm.toolCalls|, _ => Running);
      var order := world.schedule(iteration);
      for j := 0 to |order|
        invariant Working(llm, tools)
        invariant iteration == old(iteration)
      {
        var k := order[j];
        if k < |tools| && !tools[k].Reported? {
          tools := AdvanceTool(llm, tools, k);
        }
      }
    }

    method FinishRound(ghost llm: Step, ghost tools: seq<ToolProgress>)
      requires Valid() && phase == InTools(llm, tools) && AllReported(tools)
      modifies this
      ensures Valid() && Made(old(State()), old(trace), Action.EndRound)
    {
      Extend(Action.EndRound);
      iteration := iteration + 1;
      phase, trace := Head, trace + [Action.EndRound];
    }

    /** Asks with the conversation so far; the twelfth request also demands the final answer. */
    method AskModel() returns (result: TurnResult)
      requires Valid() && phase.Head? && iteration < MAX_ITERATIONS && !world.cancelled(iteration)
      modifies this`turns, this`phase, this`trace
      ensures Valid() && phase == Asked(result)
      ensures result == world.turn(iteration, msgs + (if iteration == 11 then [UserMsg(FORCE_FINAL)] else []))
    {
      var request := if iteration == MAX_ITERATIONS - 1 then msgs + [UserMsg(FORCE_FINAL)] else msgs;
      assert request == msgs + (if iteration == 11 then [UserMsg(FORCE_FINAL)] else []);
      result := world.turn(iteration, request);
      Ask(result);
    }

    /** One turn: ask, record its usage, persist its step, add it to the conversation. */
    method Turn() returns (llmStep: Step)
      requires Valid() && phase.Head? && iteration < MAX_ITERATIONS && !world.cancelled(iteration)
      modifies this
      ensures Valid() && iteration == old(iteration)
      ensures llmStep.Llm?
      ensures phase == if llmStep.toolCalls == [] then Finished(llmStep.text, true)
                       else InTools(llmStep, seq(|llmStep.toolCalls|, _ => Running))
      ensures var request := old(msgs) + (if old(iteration) == 11 then [UserMsg(FORCE_FINAL)] else []);
              var asked := world.turn(old(iteration), request);
              && llmStep == Llm(|old(steps)|, asked.text, asked.toolCalls, asked.usage, Cost(price, asked.usage))
              && usageRows == old(usageRows) + [asked.usage] && runCost == old(runCost) + llmStep.cost
      ensures log == old(log) + [llmStep] && steps == old(steps) + [llmStep]
      ensures msgs == old(msgs) + [AssistantMsg(llmStep.text, llmStep.toolCalls)]
    {
      var stepIndex := |steps|;
      var result := AskModel();
      var costUsd := RecordUsage(result);
      llmStep := Llm(stepIndex, result.text, result.toolCalls, result.usage, costUsd);
      PersistLlm(llmStep);
      PushLlm(llmStep);
    }

    /** The turn loop. It ends for every world; where it ends is a state of the machine. */
    method Loop() returns (finalText: string, wasCancelled: bool)
      requires Valid() && phase.Head?
      modifies this
      ensures Valid()
      ensures wasCancelled ==> world.cancelled(iteration)
      ensures if wasCancelled then phase.Cancelled? else phase.Finished? && phase.finalText == finalText
      ensures !wasCancelled ==>
                if phase.answered
                then steps != [] && Last(steps).Llm? && Last(steps).toolCalls == [] && finalText == Last(steps).text
                else finalText == "" && iteration >= 12
    {
      finalText, wasCancelled := "", false;
      while iteration < MAX_ITERATIONS
        invariant Valid() && phase.Head? && finalText == "" && !wasCancelled
        decreases MAX_ITERATIONS - iteration
      {
        if world.cancelled(iteration) {
          Leave(Action.Cancel, Cancelled);
          return "", true;
        }
        var llmStep := Turn();
        if llmStep.toolCalls == [] {
          finalText := llmStep.text;
          return;
        }
        var tools := AwaitAll(llmStep);
        FinishRound(llmStep, tools);
      }
      Leave(Action.Exit, Finished("", false));
    }

    ghost method Leave(a: Action, p: Phase)
      requires Valid() && Enabled(State(), a) && Given(world, State(), a) && Apply(State(), a) == State().(phase := p)
      modifies this`phase, this`trace
      ensures Valid() && Made(old(State()), old(trace), a) && phase == p
    {
      Extend(a);
      phase, trace := p, trace + [a];
    }
  }

  /** Only tool k moved, and it moved one stage closer to being reported. */
  ghost predicate Moved(tools: seq<ToolProgress>, next: seq<ToolProgress>, k: nat) {
    && k < |tools| == |next|
    && Distance(next[k]) + 1 == Distance(tools[k])
    && forall j | 0 <= j < |tools| && j != k :: next[j] == tools[j]
  }

  ghost function Distance(t: ToolProgress): nat {
    match t
    case Running => 3
    case Saved(_) => 2
    case Collected(_) => 1
    case Reported(_) => 0
  }

  lemma LastLlmUnique(steps: seq<Step>, l: int)
    requires -1 <= l < |steps|
    requires l >= 0 ==> steps[l].Llm?
    requires forall j | l < j < |steps| :: steps[j].Tool?
    ensures l == LastLlm(steps)
  {
  }

  /**
   * One job attempt on whatever the database holds: it adds at most the turns that the truncated log is short
   * of 12, and a log that already has 12 turns yields the empty answer without asking again.
   */
  method Process(price: Price, base: seq<ChatMsg>, persisted: seq<Step>, w: World)
      returns (run: AgentRun, finalText: string, wasCancelled: bool)
    ensures fresh(run) && run.world == w && run.Valid() && run.origin == Start(price, base, persisted)
    ensures |run.usageRows| <= run.turns
    ensures var kept := CountLlm(DropIncomplete(SortByIndex(persisted)));
            && (kept <= 12 ==> kept + run.turns <= 12)
            && (kept >= 12 ==>
                  !wasCancelled && finalText == "" && run.turns == 0 && run.log == persisted)
  {
    run := new AgentRun(price, base, persisted, w);
    finalText, wasCancelled := run.Loop();
    ExecutionBound(price, base, persisted, run.trace);
    if CountLlm(DropIncomplete(SortByIndex(persisted))) >= MAX_ITERATIONS {
      SkippedRun(Start(price, base, persisted), run.trace);
    }
  }

  lemma LoopSkipped(s: Exec)
    requires s.phase.Head? && s.iteration >= MAX_ITERATIONS
    ensures forall a | Enabled(s, a) :: a == Action.Exit
  {
  }

  /** With the iterations used up, leaving the loop is all that can happen. */
  lemma {:induction false} SkippedRun(s: Exec, acts: seq<Action>)
    requires s.phase.Head? && s.iteration >= MAX_ITERATIONS && Run(s, acts).Some?
    ensures Run(s, acts).value == s || Run(s, acts).value == s.(phase := Finished("", false))
  {
    if acts == [] {
    } else {
      SkippedRun(s, Front(acts));
      LoopSkipped(s);
    }
  }
}
