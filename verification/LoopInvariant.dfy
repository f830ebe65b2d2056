// What every step of an execution keeps: the persisted log, the in-memory steps, the live conversation
// and the counters all describe the same list of rounds.
module LoopInvariant {
  import opened Prelude
  import opened RunSteps
  import opened Rounds
  import opened Chat
  import opened Pricing
  import opened AgentLoop

  /**
   * The story of an execution. `rounds` lists the rounds in call order; `logged`, `collected` and `told`
   * are the same rounds with their results in the order they were persisted, collected in memory and
   * reported to the conversation. The `...Open` fields are those orders for the results of the round in
   * progress.
   */
  datatype History = History(
    base: seq<ChatMsg>, prior: seq<Step>, kept: seq<Round>,
    rounds: seq<Round>, logged: seq<Round>, collected: seq<Round>, told: seq<Round>,
    loggedOpen: seq<Step>, collectedOpen: seq<Step>, toldOpen: seq<Step>)

  function StartHistory(base: seq<ChatMsg>, prior: seq<Step>, kept: seq<Round>): (h: History) {
    History(base, prior, kept, kept, [], kept, kept, [], [], [])
  }

  /** Equal up to the order of results inside a round. */
  predicate SameRounds(a: seq<Round>, b: seq<Round>) {
    |a| == |b| && forall j | 0 <= j < |a| :: SameRound(a[j], b[j])
  }

  predicate SameRound(a: Round, b: Round) {
    a.llm == b.llm && |a.results| == |b.results| && Bag(a.results) == Bag(b.results)
  }

  // ---- Views of the concurrent tool calls ----------------------------------------------------

  function PersistedOf(t: ToolProgress): (o: Option<Step>) {
    if t.Running? then None else Some(t.step)
  }

  function InMemoryOf(t: ToolProgress): (o: Option<Step>) {
    if t.Collected? || t.Reported? then Some(t.step) else None
  }

  function ReportedOf(t: ToolProgress): (o: Option<Step>) {
    if t.Reported? then Some(t.step) else None
  }

  function View(tools: seq<ToolProgress>, f: ToolProgress -> Option<Step>): (o: seq<Option<Step>>)
    ensures |o| == |tools|
    ensures forall k | 0 <= k < |tools| :: o[k] == f(tools[k])
  {
    seq(|tools|, k requires 0 <= k < |tools| => f(tools[k]))
  }

  /** `open` lists, in some order, the steps that the view `f` of the tools shows. */
  predicate Shows(open: seq<Step>, tools: seq<ToolProgress>, f: ToolProgress -> Option<Step>) {
    Bag(open) == Bag(Present(View(tools, f)))
  }

  /** Moving one tool into the view `f` appends its step. */
  lemma ShowsOneMore(open: seq<Step>, tools: seq<ToolProgress>, f: ToolProgress -> Option<Step>,
                     k: nat, t: ToolProgress)
    requires k < |tools| && Shows(open, tools, f)
    requires f(tools[k]).None? && f(t).Some?
    ensures Shows(open + [f(t).value], tools[k := t], f)
  {
    assert View(tools[k := t], f) == View(tools, f)[k := f(t)];
    PresentAdd(View(tools, f), k, f(t).value);
    BagSnoc(open, f(t).value);
  }

  lemma ShowsTheSame(open: seq<Step>, tools: seq<ToolProgress>, f: ToolProgress -> Option<Step>,
                     k: nat, t: ToolProgress)
    requires k < |tools| && Shows(open, tools, f)
    requires f(t) == f(tools[k])
    ensures View(tools[k := t], f) == View(tools, f)
    ensures Shows(open, tools[k := t], f)
  {
    assert View(tools[k := t], f) == View(tools, f);
  }

  lemma ShowsNothing(n: nat, f: ToolProgress -> Option<Step>)
    requires f(Running).None?
    ensures Shows([], seq(n, _ => Running), f)
  {
    NothingPresent(View(seq(n, _ => Running), f));
  }

  lemma {:induction false} NothingPresent(outs: seq<Option<Step>>)
    requires forall k | 0 <= k < |outs| :: outs[k].None?
    ensures Present(outs) == []
  {
    if outs == [] {
    } else {
      NothingPresent(Front(outs));
    }
  }

  function ReportedSteps(tools: seq<ToolProgress>): (s: seq<Step>)
    requires AllReported(tools)
  {
    seq(|tools|, k requires 0 <= k < |tools| => tools[k].step)
  }

  lemma AllShown(tools: seq<ToolProgress>, f: ToolProgress -> Option<Step>)
    requires AllReported(tools)
    requires forall k | 0 <= k < |tools| :: f(tools[k]) == Some(tools[k].step)
    ensures Present(View(tools, f)) == ReportedSteps(tools)
  {
    PresentAll(View(tools, f));
    assert Values(View(tools, f)) == ReportedSteps(tools);
  }

  lemma SameBagLength<T>(a: seq<T>, b: seq<T>)
    requires Bag(a) == Bag(b)
    ensures |a| == |b|
  {
    BagIsMultiset(a);
    BagIsMultiset(b);
  }

  lemma ShowsAll(open: seq<Step>, tools: seq<ToolProgress>, f: ToolProgress -> Option<Step>)
    requires AllReported(tools) && Shows(open, tools, f)
    requires forall k | 0 <= k < |tools| :: f(tools[k]) == Some(tools[k].step)
    ensures Bag(open) == Bag(ReportedSteps(tools)) && |open| == |tools|
  {
    AllShown(tools, f);
    SameBagLength(open, ReportedSteps(tools));
  }

  // ---- The invariant ---------------------------------------------------------------------------

  /** The assistant turn of the round in progress, once it is in the database ... */
  function LogHead(p: Phase): (s: seq<Step>) {
    match p
    case Written(llm) => [llm]
    case InTools(llm, _) => [llm]
    case _ => []
  }

  /** ... and once it is in memory. */
  function MemHead(p: Phase): (s: seq<Step>) {
    match p
    case InTools(llm, _) => [llm]
    case _ => []
  }

  predicate LogInv(s: Exec, h: History) {
    && s.log == h.prior + (Flatten(h.logged) + (LogHead(s.phase) + h.loggedOpen))
    && s.steps == Flatten(h.collected) + (MemHead(s.phase) + h.collectedOpen)
    && s.msgs == h.base + Replay(Flatten(h.told) + (MemHead(s.phase) + h.toldOpen))
  }

  predicate OpenInv(s: Exec, h: History) {
    match s.phase
    case InTools(llm, tools) =>
      && Shows(h.loggedOpen, tools, PersistedOf)
      && Shows(h.collectedOpen, tools, InMemoryOf)
      && Shows(h.toldOpen, tools, ReportedOf)
    case _ => h.loggedOpen == [] && h.collectedOpen == [] && h.toldOpen == []
  }

  predicate RoundInv(s: Exec, h: History) {
    && ValidRounds(h.kept) && ValidRounds(h.rounds)
    && |h.kept| <= |h.rounds| && h.rounds[..|h.kept|] == h.kept
    && SameRounds(h.logged, h.rounds[|h.kept|..])
    && SameRounds(h.collected, h.rounds)
    && SameRounds(h.told, h.rounds)
  }

  predicate PhaseInv(s: Exec, h: History) {
    match s.phase
    case Written(llm) => llm.Llm? && llm.i == |Flatten(h.rounds)|
    case InTools(llm, tools) =>
      && PartialRound(llm, View(tools, PersistedOf), |Flatten(h.rounds)|)
      && llm.toolCalls != []
    case _ => true
  }

  predicate InFlight(p: Phase) {
    p.Asked? || p.Recorded? || p.Written? || p.InTools?
  }

  function PhaseCost(p: Phase): (c: nat) {
    match p
    case Recorded(_, cost) => cost
    case Written(llm) => if llm.Llm? then llm.cost else 0
    case InTools(llm, _) => if llm.Llm? then llm.cost else 0
    case _ => 0
  }

  predicate CountInv(s: Exec, h: History) {
    && s.iteration + (if s.phase.Finished? && s.phase.answered then 1 else 0) == |h.rounds|
    && |h.kept| + s.turns == |h.rounds| + (if InFlight(s.phase) then 1 else 0)
    && |s.usageRows| + (if s.phase.Asked? then 1 else 0) == s.turns
    && s.runCost == SumCost(Flatten(h.rounds)) + PhaseCost(s.phase)
    && (InFlight(s.phase) || (s.phase.Finished? && s.phase.answered) ==> s.iteration < MAX_ITERATIONS)
    && (s.phase.Finished? && !s.phase.answered ==> s.iteration >= MAX_ITERATIONS && s.phase.finalText == "")
    && (s.turns > 0 ==> |h.kept| < MAX_ITERATIONS && |h.rounds| <= MAX_ITERATIONS)
  }

  predicate Inv(s: Exec, h: History) {
    LogInv(s, h) && OpenInv(s, h) && RoundInv(s, h) && PhaseInv(s, h) && CountInv(s, h)
  }

  // ---- It holds at the start --------------------------------------------------------------------

  lemma SameRoundsRefl(rs: seq<Round>)
    ensures SameRounds(rs, rs)
  {
  }

  lemma StartLog(base: seq<ChatMsg>, prior: seq<Step>, kept: seq<Step>)
    ensures prior == prior + (Flatten([]) + ([] + []))
    ensures kept == kept + ([] + [])
    ensures base + Replay(kept) == base + Replay(kept + ([] + []))
  {
    assert kept == kept + ([] + []);
  }

  lemma StartCounts(price: Price, base: seq<ChatMsg>, prior: seq<Step>, kept: seq<Round>)
    requires ValidRounds(kept) && DropIncomplete(SortByIndex(prior)) == Flatten(kept)
    ensures CountInv(Start(price, base, prior), StartHistory(base, prior, kept))
  {
    CountRounds(kept);
  }

  lemma StartRounds(s: Exec, base: seq<ChatMsg>, prior: seq<Step>, kept: seq<Round>)
    requires ValidRounds(kept)
    ensures RoundInv(s, StartHistory(base, prior, kept))
  {
    SameRoundsRefl(kept);
  }

  lemma StartInv(price: Price, base: seq<ChatMsg>, prior: seq<Step>, kept: seq<Round>)
    requires ValidRounds(kept) && DropIncomplete(SortByIndex(prior)) == Flatten(kept)
    ensures Inv(Start(price, base, prior), StartHistory(base, prior, kept))
  {
    StartLog(base, prior, Flatten(kept));
    StartRounds(Start(price, base, prior), base, prior, kept);
    StartCounts(price, base, prior, kept);
  }

  // ---- How the history grows ----------------------------------------------------------------------

  /** `h` after `a`: persisting, collecting and reporting each append to their own order. */
  function Tell(s: Exec, h: History, a: Action): (h': History)
    requires Enabled(s, a)
  {
    match a
    case Push =>
      if s.phase.llm.toolCalls == [] then CloseRound(h, Round(s.phase.llm, [])) else h
    case Save(k, out) => h.(loggedOpen := h.loggedOpen + [ToolStep(s.phase.llm, k, out)])
    case Collect(k) => h.(collectedOpen := h.collectedOpen + [s.phase.tools[k].step])
    case Report(k) => h.(toldOpen := h.toldOpen + [s.phase.tools[k].step])
    case EndRound => CloseRound(h, Round(s.phase.llm, ReportedSteps(s.phase.tools)))
    case _ => h
  }

  function CloseRound(h: History, r: Round): (h': History) {
    h.(rounds := h.rounds + [r],
       logged := h.logged + [r.(results := h.loggedOpen)],
       collected := h.collected + [r.(results := h.collectedOpen)],
       told := h.told + [r.(results := h.toldOpen)],
       loggedOpen := [], collectedOpen := [], toldOpen := [])
  }

  predicate OpenMatches(h: History, r: Round) {
    && SameRound(r.(results := h.loggedOpen), r)
    && SameRound(r.(results := h.collectedOpen), r)
    && SameRound(r.(results := h.toldOpen), r)
  }

  lemma SameRoundsSnoc(a: seq<Round>, b: seq<Round>, x: Round, y: Round)
    requires SameRounds(a, b) && SameRound(x, y)
    ensures SameRounds(a + [x], b + [y])
  {
  }

  lemma CloseRoundKeeps(s: Exec, h: History, r: Round)
    requires RoundInv(s, h)
    requires CompleteRound(r, |Flatten(h.rounds)|) && OpenMatches(h, r)
    ensures RoundInv(s, CloseRound(h, r))
  {
    FlattenSnoc(h.rounds, r);
    SameRoundsSnoc(h.logged, h.rounds[|h.kept|..], r.(results := h.loggedOpen), r);
    SameRoundsSnoc(h.collected, h.rounds, r.(results := h.collectedOpen), r);
    SameRoundsSnoc(h.told, h.rounds, r.(results := h.toldOpen), r);
    SlicesSnoc(h.rounds, |h.kept|, r);
  }

  lemma SlicesSnoc<T>(xs: seq<T>, n: nat, x: T)
    requires n <= |xs|
    ensures (xs + [x])[..n] == xs[..n] && (xs + [x])[n..] == xs[n..] + [x]
  {
  }

  lemma CloseFlatten(rs: seq<Round>, llm: Step, results: seq<Step>)
    ensures Flatten(rs + [Round(llm, results)]) + ([] + []) == Flatten(rs) + ([llm] + results)
  {
    FlattenSnoc(rs, Round(llm, results));
  }

  // ---- Every action keeps it -----------------------------------------------------------------

  lemma AppendMsg(base: seq<ChatMsg>, a: seq<Step>, b: seq<Step>, c: seq<Step>, s: Step)
    ensures base + Replay(a + (b + c)) + [MsgOf(s)] == base + Replay(a + (b + (c + [s])))
  {
    ReplaySnoc(a + (b + c), s);
    assert a + (b + (c + [s])) == a + (b + c) + [s];
  }

  lemma AppendStep(a: seq<Step>, b: seq<Step>, c: seq<Step>, d: seq<Step>, s: Step)
    ensures a + (b + (c + d)) + [s] == a + (b + (c + (d + [s])))
    ensures b + (c + d) + [s] == b + (c + (d + [s]))
  {
  }

  lemma EndRoundOpen(s: Exec, h: History)
    requires OpenInv(s, h) && Enabled(s, EndRound)
    ensures OpenMatches(h, Round(s.phase.llm, ReportedSteps(s.phase.tools)))
  {
    ShowsAll(h.loggedOpen, s.phase.tools, PersistedOf);
    ShowsAll(h.collectedOpen, s.phase.tools, InMemoryOf);
    ShowsAll(h.toldOpen, s.phase.tools, ReportedOf);
  }

  lemma PushKeepsLog(s: Exec, h: History)
    requires LogInv(s, h) && OpenInv(s, h) && Enabled(s, Push)
    ensures LogInv(Apply(s, Push), Tell(s, h, Push))
  {
    var llm := s.phase.llm;
    PushEffect(s, h);
    PushSeqs(h.base, Flatten(h.told), Flatten(h.collected), llm);
    if llm.toolCalls == [] {
      CloseFlatten(h.logged, llm, []);
      CloseFlatten(h.collected, llm, []);
      CloseFlatten(h.told, llm, []);
    }
  }

  lemma PushEffect(s: Exec, h: History)
    requires OpenInv(s, h) && Enabled(s, Push)
    ensures h.loggedOpen == [] && h.collectedOpen == [] && h.toldOpen == []
    ensures LogHead(s.phase) == [s.phase.llm] && MemHead(s.phase) == []
    ensures var s' := Apply(s, Push);
            && s'.log == s.log && s'.steps == s.steps + [s.phase.llm] && s'.msgs == s.msgs + [MsgOf(s.phase.llm)]
            && if s.phase.llm.toolCalls == []
               then LogHead(s'.phase) == [] && MemHead(s'.phase) == []
                    && Tell(s, h, Push) == CloseRound(h, Round(s.phase.llm, []))
               else LogHead(s'.phase) == [s.phase.llm] && MemHead(s'.phase) == [s.phase.llm]
                    && Tell(s, h, Push) == h
  {
  }

  lemma PushSeqs(base: seq<ChatMsg>, told: seq<Step>, collected: seq<Step>, llm: Step)
    ensures collected + ([] + []) + [llm] == collected + ([llm] + [])
    ensures base + Replay(told + ([] + [])) + [MsgOf(llm)] == base + Replay(told + ([llm] + []))
  {
    ConcatNothing(told);
    ConcatNothing(collected);
    ConcatNothing([llm]);
    ReplaySnoc(told, llm);
  }

  lemma SaveKeepsLog(s: Exec, h: History, k: nat, out: ToolOutput)
    requires LogInv(s, h) && OpenInv(s, h) && Enabled(s, Save(k, out))
    ensures LogInv(Apply(s, Save(k, out)), Tell(s, h, Save(k, out)))
  {
    AppendStep(h.prior, Flatten(h.logged), [s.phase.llm], h.loggedOpen, ToolStep(s.phase.llm, k, out));
  }

  lemma CollectKeepsLog(s: Exec, h: History, k: nat)
    requires LogInv(s, h) && OpenInv(s, h) && Enabled(s, Collect(k))
    ensures LogInv(Apply(s, Collect(k)), Tell(s, h, Collect(k)))
  {
    AppendStep([], Flatten(h.collected), [s.phase.llm], h.collectedOpen, s.phase.tools[k].step);
  }

  lemma ReportKeepsLog(s: Exec, h: History, k: nat)
    requires LogInv(s, h) && OpenInv(s, h) && Enabled(s, Report(k))
    ensures LogInv(Apply(s, Report(k)), Tell(s, h, Report(k)))
  {
    AppendMsg(h.base, Flatten(h.told), [s.phase.llm], h.toldOpen, s.phase.tools[k].step);
  }

  lemma EndRoundEffect(s: Exec, h: History)
    requires Enabled(s, EndRound)
    ensures var s', h' := Apply(s, EndRound), Tell(s, h, EndRound);
            && s'.log == s.log && s'.steps == s.steps && s'.msgs == s.msgs
            && LogHead(s.phase) == [s.phase.llm] && MemHead(s.phase) == [s.phase.llm]
            && LogHead(s'.phase) == [] && MemHead(s'.phase) == []
            && h'.logged == h.logged + [Round(s.phase.llm, h.loggedOpen)]
            && h'.collected == h.collected + [Round(s.phase.llm, h.collectedOpen)]
            && h'.told == h.told + [Round(s.phase.llm, h.toldOpen)]
            && h'.loggedOpen == [] && h'.collectedOpen == [] && h'.toldOpen == []
            && h'.base == h.base && h'.prior == h.prior
  {
  }

  lemma EndRoundKeepsLog(s: Exec, h: History)
    requires LogInv(s, h) && Enabled(s, EndRound)
    ensures LogInv(Apply(s, EndRound), Tell(s, h, EndRound))
  {
    EndRoundEffect(s, h);
    CloseFlatten(h.logged, s.phase.llm, h.loggedOpen);
    CloseFlatten(h.collected, s.phase.llm, h.collectedOpen);
    CloseFlatten(h.told, s.phase.llm, h.toldOpen);
  }

  lemma WriteKeepsLog(s: Exec, h: History)
    requires LogInv(s, h) && OpenInv(s, h) && Enabled(s, Write)
    ensures LogInv(Apply(s, Write), Tell(s, h, Write))
  {
    var llm := Apply(s, Write).phase.llm;
    AppendStep(h.prior, Flatten(h.logged), [], [], llm);
    ConcatNothing([llm]);
  }

  lemma KeepsLog(s: Exec, h: History, a: Action)
    requires LogInv(s, h) && OpenInv(s, h) && Enabled(s, a)
    ensures LogInv(Apply(s, a), Tell(s, h, a))
  {
    match a
    case Push => PushKeepsLog(s, h);
    case Save(k, out) => SaveKeepsLog(s, h, k, out);
    case Collect(k) => CollectKeepsLog(s, h, k);
    case Report(k) => ReportKeepsLog(s, h, k);
    case EndRound => EndRoundKeepsLog(s, h);
    case Write => WriteKeepsLog(s, h);
    case _ => QuietKeepsLog(s, h, a);
  }

  /** The actions that add no step: asking, recording usage and leaving the loop. */
  predicate Quiet(a: Action) {
    a.Ask? || a.Record? || a.Exit? || a.Cancel?
  }

  lemma QuietKeepsLog(s: Exec, h: History, a: Action)
    requires LogInv(s, h) && Quiet(a) && Enabled(s, a)
    ensures LogInv(Apply(s, a), Tell(s, h, a))
  {
  }

  lemma PushKeepsOpen(s: Exec, h: History)
    requires OpenInv(s, h) && Enabled(s, Push)
    ensures OpenInv(Apply(s, Push), Tell(s, h, Push))
  {
    ShowsNothing(|s.phase.llm.toolCalls|, PersistedOf);
    ShowsNothing(|s.phase.llm.toolCalls|, InMemoryOf);
    ShowsNothing(|s.phase.llm.toolCalls|, ReportedOf);
  }

  lemma SaveKeepsOpen(s: Exec, h: History, k: nat, out: ToolOutput)
    requires OpenInv(s, h) && Enabled(s, Save(k, out))
    ensures OpenInv(Apply(s, Save(k, out)), Tell(s, h, Save(k, out)))
  {
    var next := Saved(ToolStep(s.phase.llm, k, out));
    ShowsOneMore(h.loggedOpen, s.phase.tools, PersistedOf, k, next);
    ShowsTheSame(h.collectedOpen, s.phase.tools, InMemoryOf, k, next);
    ShowsTheSame(h.toldOpen, s.phase.tools, ReportedOf, k, next);
  }

  lemma CollectKeepsOpen(s: Exec, h: History, k: nat)
    requires OpenInv(s, h) && Enabled(s, Collect(k))
    ensures OpenInv(Apply(s, Collect(k)), Tell(s, h, Collect(k)))
  {
    var next := Collected(s.phase.tools[k].step);
    ShowsTheSame(h.loggedOpen, s.phase.tools, PersistedOf, k, next);
    ShowsOneMore(h.collectedOpen, s.phase.tools, InMemoryOf, k, next);
    ShowsTheSame(h.toldOpen, s.phase.tools, ReportedOf, k, next);
  }

  lemma ReportKeepsOpen(s: Exec, h: History, k: nat)
    requires OpenInv(s, h) && Enabled(s, Report(k))
    ensures OpenInv(Apply(s, Report(k)), Tell(s, h, Report(k)))
  {
    var next := Reported(s.phase.tools[k].step);
    ShowsTheSame(h.loggedOpen, s.phase.tools, PersistedOf, k, next);
    ShowsTheSame(h.collectedOpen, s.phase.tools, InMemoryOf, k, next);
    ShowsOneMore(h.toldOpen, s.phase.tools, ReportedOf, k, next);
  }

  lemma KeepsOpen(s: Exec, h: History, a: Action)
    requires OpenInv(s, h) && Enabled(s, a)
    ensures OpenInv(Apply(s, a), Tell(s, h, a))
  {
    match a
    case Push => PushKeepsOpen(s, h);
    case Save(k, out) => SaveKeepsOpen(s, h, k, out);
    case Collect(k) => CollectKeepsOpen(s, h, k);
    case Report(k) => ReportKeepsOpen(s, h, k);
    case _ =>
  }

  lemma EndRoundIsComplete(s: Exec, h: History)
    requires PhaseInv(s, h) && Enabled(s, EndRound)
    ensures CompleteRound(Round(s.phase.llm, ReportedSteps(s.phase.tools)), |Flatten(h.rounds)|)
  {
    var llm, tools := s.phase.llm, s.phase.tools;
    forall k | 0 <= k < |tools| ensures ResultOf(ReportedSteps(tools)[k], llm.toolCalls[k], llm.i + 1 + k) {
      assert View(tools, PersistedOf)[k] == Some(ReportedSteps(tools)[k]);
    }
  }

  lemma KeepsRounds(s: Exec, h: History, a: Action)
    requires OpenInv(s, h) && RoundInv(s, h) && PhaseInv(s, h) && Enabled(s, a)
    ensures RoundInv(Apply(s, a), Tell(s, h, a))
  {
    match a
    case Push =>
      if s.phase.llm.toolCalls == [] {
        CloseRoundKeeps(s, h, Round(s.phase.llm, []));
      }
    case EndRound =>
      EndRoundOpen(s, h);
      EndRoundIsComplete(s, h);
      CloseRoundKeeps(s, h, Round(s.phase.llm, ReportedSteps(s.phase.tools)));
    case _ =>
  }

  lemma {:induction false} SameRoundsLength(a: seq<Round>, b: seq<Round>)
    requires SameRounds(a, b)
    ensures |Flatten(a)| == |Flatten(b)|
    ensures Bag(Flatten(a)) == Bag(Flatten(b))
  {
    if a == [] {
    } else {
      SameRoundsLength(Front(a), Front(b));
      assert SameRound(Last(a), Last(b));
      BagConcat(Flatten(Front(a)), Steps(Last(a)));
      BagConcat(Flatten(Front(b)), Steps(Last(b)));
      BagConcat([Last(a).llm], Last(a).results);
      BagConcat([Last(b).llm], Last(b).results);
    }
  }

  lemma SaveKeepsPartial(llm: Step, tools: seq<ToolProgress>, at: nat, k: nat, out: ToolOutput)
    requires PartialRound(llm, View(tools, PersistedOf), at) && k < |tools|
    ensures PartialRound(llm, View(tools[k := Saved(ToolStep(llm, k, out))], PersistedOf), at)
  {
    var step := ToolStep(llm, k, out);
    var after := View(tools[k := Saved(step)], PersistedOf);
    forall j | 0 <= j < |after| && after[j].Some? ensures ResultOf(after[j].value, llm.toolCalls[j], at + 1 + j) {
      if j != k {
        assert after[j] == View(tools, PersistedOf)[j];
      }
    }
  }

  lemma NextIndex(s: Exec, h: History)
    requires LogInv(s, h) && OpenInv(s, h) && RoundInv(s, h) && MemHead(s.phase) == []
    ensures |s.steps| == |Flatten(h.rounds)|
  {
    SameRoundsLength(h.collected, h.rounds);
  }

  lemma NewToolsPartial(llm: Step)
    requires llm.Llm?
    ensures PartialRound(llm, View(seq(|llm.toolCalls|, _ => Running), PersistedOf), llm.i)
  {
  }

  lemma KeepsPhase(s: Exec, h: History, a: Action)
    requires LogInv(s, h) && OpenInv(s, h) && RoundInv(s, h) && PhaseInv(s, h) && Enabled(s, a)
    ensures PhaseInv(Apply(s, a), Tell(s, h, a))
  {
    match a
    case Write => NextIndex(s, h);
    case Save(k, out) => SaveKeepsPartial(s.phase.llm, s.phase.tools, |Flatten(h.rounds)|, k, out);
    case Collect(k) =>
      ShowsTheSame(h.loggedOpen, s.phase.tools, PersistedOf, k, Collected(s.phase.tools[k].step));
    case Report(k) =>
      ShowsTheSame(h.loggedOpen, s.phase.tools, PersistedOf, k, Reported(s.phase.tools[k].step));
    case Push => NewToolsPartial(s.phase.llm);
    case _ =>
  }

  lemma PushKeepsCounts(s: Exec, h: History)
    requires PhaseInv(s, h) && CountInv(s, h) && Enabled(s, Push)
    ensures CountInv(Apply(s, Push), Tell(s, h, Push))
  {
    if s.phase.llm.toolCalls == [] {
      CostSnoc(h.rounds, Round(s.phase.llm, []));
    }
  }

  lemma EndRoundKeepsCounts(s: Exec, h: History)
    requires PhaseInv(s, h) && CountInv(s, h) && Enabled(s, EndRound)
    ensures CountInv(Apply(s, EndRound), Tell(s, h, EndRound))
  {
    var r := Round(s.phase.llm, ReportedSteps(s.phase.tools));
    EndRoundIsComplete(s, h);
    CostSnoc(h.rounds, r);
    EndRoundCounters(s, h, r);
  }

  /** What a finished round changes of the counters. */
  lemma EndRoundCounters(s: Exec, h: History, r: Round)
    requires Enabled(s, EndRound) && r == Round(s.phase.llm, ReportedSteps(s.phase.tools)) && r.llm.Llm?
    ensures var s', h' := Apply(s, EndRound), Tell(s, h, EndRound);
            && s'.phase.Head? && s'.iteration == s.iteration + 1 && s'.turns == s.turns
            && s'.usageRows == s.usageRows && s'.runCost == s.runCost && PhaseCost(s.phase) == r.llm.cost
            && h'.rounds == h.rounds + [r] && h'.kept == h.kept
  {
  }

  lemma TurnKeepsCounts(s: Exec, h: History, a: Action)
    requires PhaseInv(s, h) && CountInv(s, h) && Enabled(s, a) && (Quiet(a) || a.Write?)
    ensures CountInv(Apply(s, a), Tell(s, h, a))
  {
  }

  lemma ToolsKeepCounts(s: Exec, h: History, a: Action)
    requires CountInv(s, h) && Enabled(s, a) && (a.Save? || a.Collect? || a.Report?)
    ensures CountInv(Apply(s, a), Tell(s, h, a))
  {
  }

  lemma KeepsCounts(s: Exec, h: History, a: Action)
    requires PhaseInv(s, h) && CountInv(s, h) && Enabled(s, a)
    ensures CountInv(Apply(s, a), Tell(s, h, a))
  {
    match a
    case Push => PushKeepsCounts(s, h);
    case EndRound => EndRoundKeepsCounts(s, h);
    case Save(_, _) => ToolsKeepCounts(s, h, a);
    case Collect(_) => ToolsKeepCounts(s, h, a);
    case Report(_) => ToolsKeepCounts(s, h, a);
    case _ => TurnKeepsCounts(s, h, a);
  }

  lemma ApplyKeeps(s: Exec, h: History, a: Action)
    requires Inv(s, h) && Enabled(s, a)
    ensures Inv(Apply(s, a), Tell(s, h, a))
  {
    KeepsLog(s, h, a);
    KeepsOpen(s, h, a);
    KeepsRounds(s, h, a);
    KeepsPhase(s, h, a);
    KeepsCounts(s, h, a);
  }

  lemma TellFixes(s: Exec, h: History, a: Action)
    requires Enabled(s, a)
    ensures Apply(s, a).price == s.price
    ensures var h' := Tell(s, h, a); h'.base == h.base && h'.prior == h.prior && h'.kept == h.kept
  {
  }

  /** Every state of every execution, over any schedule, satisfies the invariant for some history. */
  lemma {:induction false} RunKeeps(s: Exec, h: History, acts: seq<Action>) returns (h': History)
    requires Inv(s, h) && Run(s, acts).Some?
    ensures Inv(Run(s, acts).value, h')
    ensures Run(s, acts).value.price == s.price
    ensures h'.base == h.base && h'.prior == h.prior && h'.kept == h.kept
  {
    if acts == [] {
      h' := h;
    } else {
      var m := Run(s, Front(acts)).value;
      var hm := RunKeeps(s, h, Front(acts));
      h' := Tell(m, hm, Last(acts));
      ApplyKeeps(m, hm, Last(acts));
      TellFixes(m, hm, Last(acts));
    }
  }
}
