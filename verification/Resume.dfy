// Crash anywhere, resume: what the truncated log is, why the rebuilt state equals the live one, how much
// work a crash can repeat, and exactly when a second resume would still be sound.
module Resume {
  import opened Prelude
  import opened RunSteps
  import opened Rounds
  import opened Chat
  import opened Pricing
  import opened AgentLoop
  import opened LoopInvariant

  /** The log is an arrangement of complete rounds: nothing in it will be dropped. */
  predicate Whole(log: seq<Step>, kept: seq<Round>) {
    ValidRounds(kept) && Bag(log) == Bag(Flatten(kept))
  }

  lemma SortBag(log: seq<Step>, canonical: seq<Step>)
    requires StrictlySorted(canonical) && Bag(log) == Bag(canonical)
    ensures SortByIndex(log) == canonical
  {
    BagIsMultiset(log);
    BagIsMultiset(canonical);
    SortRestores(log, canonical);
  }

  lemma WholeResumes(log: seq<Step>, kept: seq<Round>)
    requires Whole(log, kept)
    ensures SortByIndex(log) == Flatten(kept)
    ensures DropIncomplete(SortByIndex(log)) == Flatten(kept)
  {
    ValidRoundsAreNumbered(kept);
    SortBag(log, Flatten(kept));
    DropCompleteRounds(kept);
  }

  // ---- The log in canonical order ------------------------------------------------------------

  /** Results already persisted for the assistant turn `llm`. */
  function Outs(p: Phase): (o: seq<Option<Step>>)
    requires p.Written? || p.InTools?
  {
    match p
    case Written(llm) => seq(if llm.Llm? then |llm.toolCalls| else 0, _ => None)
    case InTools(_, tools) => View(tools, PersistedOf)
  }

  /** Everything persisted so far, in the order of the step indices. */
  function Canonical(s: Exec, h: History): (steps: seq<Step>) {
    if s.phase.Written? || s.phase.InTools?
    then Flatten(h.rounds) + [s.phase.llm] + Present(Outs(s.phase))
    else Flatten(h.rounds)
  }

  lemma {:induction false} FlattenConcat(a: seq<Round>, b: seq<Round>)
    ensures Flatten(a + b) == Flatten(a) + Flatten(b)
    decreases |b|
  {
    if b == [] {
      ConcatNothing(a);
    } else {
      FlattenConcat(a, Front(b));
      FlattenSnoc(a + Front(b), Last(b));
      SnocAssociates(a, Front(b), Last(b));
      FrontAndLast(b);
      ConcatAssociates(Flatten(a), Flatten(Front(b)), Steps(Last(b)));
    }
  }

  lemma BagCongruence<T>(a: seq<T>, a': seq<T>, b: seq<T>, b': seq<T>)
    requires Bag(a) == Bag(a') && Bag(b) == Bag(b')
    ensures Bag(a + b) == Bag(a' + b')
  {
    BagConcat(a, b);
    BagConcat(a', b');
  }

  lemma RoundsSplit(rs: seq<Round>, n: nat)
    requires n <= |rs|
    ensures Flatten(rs) == Flatten(rs[..n]) + Flatten(rs[n..])
  {
    assert rs == rs[..n] + rs[n..];
    FlattenConcat(rs[..n], rs[n..]);
  }

  lemma ConcatBags<T>(prior: seq<T>, kept: seq<T>, logged: seq<T>, mine: seq<T>, open: seq<T>)
    requires Bag(prior) == Bag(kept) && Bag(logged) == Bag(mine)
    ensures Bag(prior + (logged + open)) == Bag((kept + mine) + open)
  {
    calc {
      Bag(prior + (logged + open));
      { BagConcat(prior, logged + open); BagConcat(logged, open); }
      Bag(prior) + (Bag(logged) + Bag(open));
      (Bag(kept) + Bag(mine)) + Bag(open);
      { BagConcat(kept, mine); BagConcat(kept + mine, open); }
      Bag((kept + mine) + open);
    }
  }

  lemma LogBag(s: Exec, h: History)
    requires LogInv(s, h) && RoundInv(s, h)
    requires Bag(h.prior) == Bag(Flatten(h.kept))
    ensures Bag(s.log) == Bag(Flatten(h.rounds) + (LogHead(s.phase) + h.loggedOpen))
  {
    var mine := h.rounds[|h.kept|..];
    SameRoundsLength(h.logged, mine);
    RoundsSplit(h.rounds, |h.kept|);
    ConcatBags(h.prior, Flatten(h.kept), Flatten(h.logged), Flatten(mine), LogHead(s.phase) + h.loggedOpen);
  }

  lemma OpenBag(s: Exec, h: History)
    requires OpenInv(s, h)
    ensures s.phase.Written? || s.phase.InTools? ==>
              Bag(LogHead(s.phase) + h.loggedOpen) == Bag([s.phase.llm] + Present(Outs(s.phase)))
    ensures !s.phase.Written? && !s.phase.InTools? ==> LogHead(s.phase) + h.loggedOpen == []
  {
    if s.phase.Written? {
      NothingPresent(Outs(s.phase));
    } else if s.phase.InTools? {
      BagCongruence([s.phase.llm], [s.phase.llm], h.loggedOpen, Present(Outs(s.phase)));
    }
  }

  lemma TailBag<T>(log: seq<T>, head: seq<T>, open: seq<T>, x: T, rest: seq<T>)
    requires Bag(log) == Bag(head + open) && Bag(open) == Bag([x] + rest)
    ensures Bag(log) == Bag(head + [x] + rest)
  {
    calc {
      Bag(head + open);
      { BagConcat(head, open); BagConcat([x], rest); }
      Bag(head) + (Bag([x]) + Bag(rest));
      (Bag(head) + Bag([x])) + Bag(rest);
      { BagConcat(head, [x]); BagConcat(head + [x], rest); }
      Bag(head + [x] + rest);
    }
  }

  lemma CanonicalBag(s: Exec, h: History)
    requires LogInv(s, h) && OpenInv(s, h) && RoundInv(s, h)
    requires Bag(h.prior) == Bag(Flatten(h.kept))
    ensures Bag(s.log) == Bag(Canonical(s, h))
  {
    LogBag(s, h);
    OpenBag(s, h);
    var open := LogHead(s.phase) + h.loggedOpen;
    if s.phase.Written? || s.phase.InTools? {
      TailBag(s.log, Flatten(h.rounds), open, s.phase.llm, Present(Outs(s.phase)));
    } else {
      assert Flatten(h.rounds) + [] == Flatten(h.rounds);
    }
  }

  lemma OutsPartial(s: Exec, h: History)
    requires PhaseInv(s, h) && (s.phase.Written? || s.phase.InTools?)
    ensures PartialRound(s.phase.llm, Outs(s.phase), |Flatten(h.rounds)|)
  {
  }

  lemma CanonicalSorted(s: Exec, h: History)
    requires RoundInv(s, h) && PhaseInv(s, h)
    ensures StrictlySorted(Canonical(s, h))
  {
    if s.phase.Written? || s.phase.InTools? {
      OutsPartial(s, h);
      PartialSorted(h.rounds, s.phase.llm, Outs(s.phase));
    } else {
      ValidRoundsAreNumbered(h.rounds);
    }
  }

  lemma SortedLog(s: Exec, h: History)
    requires LogInv(s, h) && OpenInv(s, h) && RoundInv(s, h) && PhaseInv(s, h)
    requires Bag(h.prior) == Bag(Flatten(h.kept))
    ensures SortByIndex(s.log) == Canonical(s, h) && StrictlySorted(Canonical(s, h))
  {
    CanonicalBag(s, h);
    CanonicalSorted(s, h);
    SortBag(s.log, Canonical(s, h));
  }

  // ---- What a resume keeps --------------------------------------------------------------------

  predicate OpenIsComplete(p: Phase) {
    (p.Written? || p.InTools?) && AllPresent(Outs(p))
  }

  /** The rounds a resume finds complete. */
  function Completed(s: Exec, h: History): (rs: seq<Round>) {
    if OpenIsComplete(s.phase) then h.rounds + [Round(s.phase.llm, Values(Outs(s.phase)))] else h.rounds
  }

  /** A crash now leaves a round in which a repeated call id covers a missing result. */
  predicate Misled(p: Phase) {
    && (p.Written? || p.InTools?) && p.llm.Llm? && |Outs(p)| == |p.llm.toolCalls|
    && HidesMissing(p.llm.toolCalls, Outs(p))
  }

  lemma DistinctIdsNeverMislead(p: Phase)
    requires (p.Written? || p.InTools?) && p.llm.Llm? && DistinctIds(p.llm.toolCalls)
    ensures !Misled(p)
  {
    if |Outs(p)| == |p.llm.toolCalls| {
      DistinctIdsHideNothing(p.llm.toolCalls, Outs(p));
    }
  }

  lemma DropCanonical(s: Exec, h: History)
    requires RoundInv(s, h) && PhaseInv(s, h)
    ensures ValidRounds(Completed(s, h))
    ensures DropIncomplete(Canonical(s, h)) == if Misled(s.phase) then Canonical(s, h) else Flatten(Completed(s, h))
  {
    if s.phase.Written? || s.phase.InTools? {
      OutsPartial(s, h);
      DropOpenRound(h.rounds, s.phase.llm, Outs(s.phase));
    } else {
      DropCompleteRounds(h.rounds);
    }
  }

  /** After a misled truncation no way of cutting the log gives complete rounds. */
  lemma MisledIsIncomplete(s: Exec, h: History, xs: seq<Round>)
    requires RoundInv(s, h) && PhaseInv(s, h) && Misled(s.phase) && ValidRounds(xs)
    ensures Flatten(xs) != Canonical(s, h)
  {
    OutsPartial(s, h);
    OpenRoundIsIncomplete(h.rounds, s.phase.llm, Outs(s.phase), xs);
  }

  /** The llm steps a resume counts. */
  lemma CanonicalCount(s: Exec, h: History)
    requires RoundInv(s, h) && PhaseInv(s, h) && Misled(s.phase)
    ensures CountLlm(Canonical(s, h)) == |h.rounds| + 1
  {
    OutsPartial(s, h);
    PartialSorted(h.rounds, s.phase.llm, Outs(s.phase));
    CountOneLlm(Flatten(h.rounds), s.phase.llm, Present(Outs(s.phase)));
    CountRounds(h.rounds);
  }

  /** What is dropped is one assistant turn and some of its results. */
  predicate OneOpenRound(steps: seq<Step>) {
    steps != [] ==> steps[0].Llm? && AllTools(steps[1..])
  }

  lemma OpenTail(before: seq<Step>, llm: Step, tools: seq<Step>)
    requires llm.Llm? && AllTools(tools)
    ensures before <= before + [llm] + tools
    ensures (before + [llm] + tools)[|before|..] == [llm] + tools
    ensures OneOpenRound((before + [llm] + tools)[|before|..])
  {
    assert (before + [llm] + tools)[|before|..] == [llm] + tools;
    assert ([llm] + tools)[1..] == tools;
  }

  lemma NothingDropped(s: Exec, h: History)
    requires RoundInv(s, h) && PhaseInv(s, h)
    ensures !(s.phase.Written? || s.phase.InTools?) || OpenIsComplete(s.phase) ==>
              Canonical(s, h) == Flatten(Completed(s, h))
  {
    if OpenIsComplete(s.phase) {
      OutsPartial(s, h);
      DropOpenRound(h.rounds, s.phase.llm, Outs(s.phase));
    }
  }

  lemma DroppedPart(s: Exec, h: History)
    requires RoundInv(s, h) && PhaseInv(s, h)
    ensures Flatten(Completed(s, h)) <= Canonical(s, h)
    ensures OneOpenRound(Canonical(s, h)[|Flatten(Completed(s, h))|..])
    ensures Canonical(s, h) != Flatten(Completed(s, h)) ==>
              && InFlight(s.phase) && Completed(s, h) == h.rounds
              && Canonical(s, h)[|Flatten(h.rounds)|].i == |Flatten(h.rounds)|
  {
    NothingDropped(s, h);
    if (s.phase.Written? || s.phase.InTools?) && !OpenIsComplete(s.phase) {
      OutsPartial(s, h);
      PartialSorted(h.rounds, s.phase.llm, Outs(s.phase));
      OpenTail(Flatten(h.rounds), s.phase.llm, Present(Outs(s.phase)));
    }
  }

  /**
   * Crash-anywhere resume. Start from a log of complete rounds (the empty log included), run any schedule,
   * stop anywhere. Sorting and truncating the log leaves complete rounds if and only if the crash is not misled
   * by a repeated call id; and then they are numbered 0..n-1 and a prefix of everything persisted, short of it by
   * at most one open round. Either way the resume counts all turns asked for but at most one.
   */
  lemma CrashAnywhere(price: Price, base: seq<ChatMsg>, prior: seq<Step>, kept: seq<Round>, acts: seq<Action>)
      returns (rounds: seq<Round>)
    requires Whole(prior, kept)
    requires Run(Start(price, base, prior), acts).Some?
    ensures ValidRounds(rounds)
    ensures var s := Run(Start(price, base, prior), acts).value;
            var after := DropIncomplete(SortByIndex(s.log));
            && ((exists rs :: ValidRounds(rs) && Flatten(rs) == after) <==> !Misled(s.phase))
            && (!Misled(s.phase) ==> after == Flatten(rounds) && forall j | 0 <= j < |after| :: after[j].i == j)
            && after <= SortByIndex(s.log)
            && OneOpenRound(SortByIndex(s.log)[|after|..])
    ensures var s := Run(Start(price, base, prior), acts).value;
            var counted := CountLlm(DropIncomplete(SortByIndex(s.log)));
            counted <= |kept| + s.turns <= counted + 1
  {
    var s := Run(Start(price, base, prior), acts).value;
    WholeResumes(prior, kept);
    StartInv(price, base, prior, kept);
    var h := RunKeeps(Start(price, base, prior), StartHistory(base, prior, kept), acts);
    SortedLog(s, h);
    rounds := Completed(s, h);
    CrashedAt(s, h);
    CrashedCount(s, h);
  }

  lemma CrashedAt(s: Exec, h: History)
    requires RoundInv(s, h) && PhaseInv(s, h) && SortByIndex(s.log) == Canonical(s, h)
    ensures var after := DropIncomplete(SortByIndex(s.log));
            var rounds := Completed(s, h);
            && ValidRounds(rounds)
            && ((exists rs :: ValidRounds(rs) && Flatten(rs) == after) <==> !Misled(s.phase))
            && (!Misled(s.phase) ==> after == Flatten(rounds) && forall j | 0 <= j < |after| :: after[j].i == j)
            && after <= SortByIndex(s.log)
            && OneOpenRound(SortByIndex(s.log)[|after|..])
  {
    DropCanonical(s, h);
    if Misled(s.phase) {
      forall rs | ValidRounds(rs) ensures Flatten(rs) != Canonical(s, h) {
        MisledIsIncomplete(s, h, rs);
      }
      NothingAfter(Canonical(s, h));
    } else {
      DroppedPart(s, h);
      ValidRoundsAreNumbered(Completed(s, h));
    }
  }

  lemma NothingAfter(steps: seq<Step>)
    ensures steps <= steps && OneOpenRound(steps[|steps|..])
  {
  }

  /** It takes one repeated id and a crash between two results. */
  lemma CrashCanMislead(price: Price, base: seq<ChatMsg>) returns (acts: seq<Action>)
    ensures Run(Start(price, base, []), acts).Some? && Misled(Run(Start(price, base, []), acts).value.phase)
  {
    var call := ToolCall("id", "web_search", "");
    var turn := TurnResult("", [call, call], Usage(0, 0, 0, 0));
    var out := ToolOutput("", "", "", 0, "", None, None, []);
    var start := Start(price, base, []);
    assert SortByIndex([]) == [] && DropIncomplete([]) == [];
    acts := [];
    for k := 0 to 5
      invariant Run(start, acts).Some?
      invariant var p := Run(start, acts).value.phase;
                match k
                case 0 => p.Head? && Run(start, acts).value.iteration == 0
                case 1 => p == Asked(turn)
                case 2 => p.Recorded? && p.turn == turn
                case 3 => p.Written? && p.llm.Llm? && p.llm.toolCalls == [call, call]
                case 4 => p.InTools? && p.llm.Llm? && p.llm.toolCalls == [call, call] && p.tools == [Running, Running]
                case _ => p.InTools? && p.llm.Llm? && p.llm.toolCalls == [call, call]
                          && p.tools == [Saved(ToolStep(p.llm, 0, out)), Running]
    {
      var next := if k == 0 then Ask(turn) else if k == 1 then Record else if k == 2 then Write
                  else if k == 3 then Push else Save(0, out);
      RunSnoc(start, acts, next);
      acts := acts + [next];
    }
    var p := Run(start, acts).value.phase;
    assert Outs(p)[0].Some? && Outs(p)[1].None?;
    assert LooksAnswered([call, call], Outs(p), 0) && LooksAnswered([call, call], Outs(p), 1);
  }

  lemma CrashedCount(s: Exec, h: History)
    requires RoundInv(s, h) && PhaseInv(s, h) && CountInv(s, h) && SortByIndex(s.log) == Canonical(s, h)
    ensures var counted := CountLlm(DropIncomplete(SortByIndex(s.log)));
            counted <= |h.kept| + s.turns <= counted + 1
  {
    DropCanonical(s, h);
    if Misled(s.phase) {
      CanonicalCount(s, h);
    } else {
      CountRounds(Completed(s, h));
    }
  }

  /** At a loop head nothing is open: the log is the rounds so far, and so is the conversation. */
  lemma HeadSteps(live: Exec, h: History)
    requires LogInv(live, h) && OpenInv(live, h) && RoundInv(live, h) && PhaseInv(live, h) && live.phase.Head?
    requires Bag(h.prior) == Bag(Flatten(h.kept))
    ensures DropIncomplete(SortByIndex(live.log)) == Flatten(h.rounds)
    ensures live.msgs == h.base + Replay(Flatten(h.told))
    ensures |live.steps| == |Flatten(h.rounds)|
  {
    SortedLog(live, h);
    DropCanonical(live, h);
    NextIndex(live, h);
    ConcatNothing(Flatten(h.told));
  }

  lemma HeadCounts(live: Exec, h: History)
    requires CountInv(live, h) && RoundInv(live, h) && live.phase.Head?
    ensures live.iteration == CountLlm(Flatten(h.rounds)) && live.runCost == SumCost(Flatten(h.rounds))
  {
    CountRounds(h.rounds);
  }

  // ---- Replay equals live -----------------------------------------------------------------------

  /**
   * At every loop head the state a resume would rebuild from the database is the live one: same cost, same
   * iteration, and the same conversation up to the order of results inside one round.
   */
  lemma ReplayEqualsLive(price: Price, base: seq<ChatMsg>, prior: seq<Step>, kept: seq<Round>, acts: seq<Action>)
      returns (rounds: seq<Round>, told: seq<Round>)
    requires Whole(prior, kept)
    requires Run(Start(price, base, prior), acts).Some?
    requires Run(Start(price, base, prior), acts).value.phase.Head?
    ensures ValidRounds(rounds) && SameRounds(told, rounds)
    ensures var live := Run(Start(price, base, prior), acts).value;
            var rebuilt := Start(price, base, live.log);
            && live.msgs == base + Replay(Flatten(told))
            && rebuilt.msgs == base + Replay(Flatten(rounds))
            && |rebuilt.steps| == |live.steps|
            && rebuilt.runCost == live.runCost
            && rebuilt.iteration == live.iteration
  {
    var live := Run(Start(price, base, prior), acts).value;
    WholeResumes(prior, kept);
    StartInv(price, base, prior, kept);
    var h := RunKeeps(Start(price, base, prior), StartHistory(base, prior, kept), acts);
    rounds, told := h.rounds, h.told;
    HeadSteps(live, h);
    HeadCounts(live, h);
  }

  // ---- Bounded work ------------------------------------------------------------------------------

  /** How the counters of an execution that began at iteration `first` hang together. */
  predicate TurnInv(s: Exec, first: nat) {
    && first + s.turns ==
         s.iteration + (if InFlight(s.phase) || (s.phase.Finished? && s.phase.answered) then 1 else 0)
    && |s.usageRows| + (if s.phase.Asked? then 1 else 0) == s.turns
    && (InFlight(s.phase) || (s.phase.Finished? && s.phase.answered) ==> s.iteration < MAX_ITERATIONS)
    && (s.turns > 0 ==> first < MAX_ITERATIONS && s.iteration <= MAX_ITERATIONS)
  }

  lemma TurnStep(s: Exec, first: nat, a: Action)
    requires TurnInv(s, first) && Enabled(s, a)
    ensures TurnInv(Apply(s, a), first)
  {
  }

  lemma {:induction false} TurnsHold(s: Exec, acts: seq<Action>)
    requires s.phase.Head? && s.turns == 0 && s.usageRows == [] && Run(s, acts).Some?
    ensures TurnInv(Run(s, acts).value, s.iteration)
  {
    if acts == [] {
    } else {
      TurnsHold(s, Front(acts));
      TurnStep(Run(s, Front(acts)).value, s.iteration, Last(acts));
    }
  }

  /** Whatever the log is, an execution asks for no more turns than the truncated log is short of 12. */
  lemma ExecutionBound(price: Price, base: seq<ChatMsg>, prior: seq<Step>, acts: seq<Action>)
    requires Run(Start(price, base, prior), acts).Some?
    ensures var s := Run(Start(price, base, prior), acts).value;
            var kept := CountLlm(DropIncomplete(SortByIndex(prior)));
            && (kept <= 12 ==> kept + s.turns <= 12)
            && (12 <= kept ==> s.turns == 0)
            && |s.usageRows| <= s.turns
  {
    TurnsHold(Start(price, base, prior), acts);
  }

  /**
   * A job that crashes once and is retried once asks the model for at most 13 turns and writes at most 13
   * usage rows, wherever the crash falls and whatever ids the calls carry: the retry repeats at most one turn.
   */
  lemma OneRetryCostsOneTurn(price: Price, base: seq<ChatMsg>, first: seq<Action>,
                             base': seq<ChatMsg>, second: seq<Action>)
    requires Run(Start(price, base, []), first).Some?
    requires Run(Start(price, base', Run(Start(price, base, []), first).value.log), second).Some?
    ensures var s := Run(Start(price, base, []), first).value;
            var r := Run(Start(price, base', s.log), second).value;
            && s.turns + r.turns <= 13
            && |s.usageRows| + |r.usageRows| <= 13
  {
    var s := Run(Start(price, base, []), first).value;
    WholeResumes([], []);
    ExecutionBound(price, base, [], first);
    var rounds := CrashAnywhere(price, base, [], [], first);
    ExecutionBound(price, base', s.log, second);
  }

  // ---- When a second resume would still be sound ------------------------------------------------

  lemma PermutedDistinct(log: seq<Step>, canonical: seq<Step>)
    requires StrictlySorted(canonical) && Bag(log) == Bag(canonical)
    ensures DistinctIndices(log)
  {
    BagIsMultiset(log);
    BagIsMultiset(canonical);
    forall a, b | 0 <= a < b < |log| ensures log[a].i != log[b].i {
      DistinctUnderPermutation(canonical, log, a, b);
    }
  }

  lemma FirstOfTail<T>(prior: seq<T>, a: seq<T>, b: seq<T>)
    ensures a != [] ==> (prior + (a + b))[|prior|] == a[0]
    ensures a == [] && b != [] ==> (prior + (a + b))[|prior|] == b[0]
  {
  }

  /** No round finished yet: the first step written is the open assistant turn. */
  lemma FirstOpen(s: Exec, h: History)
    requires LogInv(s, h) && OpenInv(s, h) && PhaseInv(s, h)
    requires |s.log| > |h.prior| && h.logged == []
    ensures s.log[|h.prior|].i == |Flatten(h.rounds)|
  {
    var tail := LogHead(s.phase) + h.loggedOpen;
    FirstOfTail(h.prior, Flatten(h.logged), tail);
  }

  lemma FirstClosed(h: History, log: seq<Step>, tail: seq<Step>)
    requires log == h.prior + (Flatten(h.logged) + tail)
    requires ValidRounds(h.rounds) && |h.kept| < |h.rounds| && h.rounds[..|h.kept|] == h.kept
    requires SameRounds(h.logged, h.rounds[|h.kept|..])
    ensures |h.prior| < |log| && log[|h.prior|].i == |Flatten(h.kept)|
  {
    var mine := h.rounds[|h.kept|..];
    assert SameRound(h.logged[0], mine[0]);
    FlattenStarts(h.logged);
    FirstOfTail(h.prior, Flatten(h.logged), tail);
    RoundAt(h.rounds, |h.kept|);
  }

  /** The first step an execution writes carries the first index it did not keep. */
  lemma FirstWritten(s: Exec, h: History)
    requires LogInv(s, h) && OpenInv(s, h) && RoundInv(s, h) && PhaseInv(s, h)
    requires |s.log| > |h.prior|
    ensures s.log[|h.prior|].i == |Flatten(h.kept)|
  {
    if |h.kept| == |h.rounds| {
      TakeAll(h.rounds);
      FirstOpen(s, h);
    } else {
      FirstClosed(h, s.log, LogHead(s.phase) + h.loggedOpen);
    }
  }

  lemma {:induction false} FlattenStarts(rs: seq<Round>)
    requires rs != []
    ensures Flatten(rs) != [] && Flatten(rs)[0] == rs[0].llm
  {
    if |rs| > 1 {
      FlattenStarts(Front(rs));
    } else {
      assert Flatten(Front(rs)) == [];
    }
  }

  lemma {:induction false} RoundAt(rs: seq<Round>, j: nat)
    requires ValidRounds(rs) && j < |rs|
    ensures CompleteRound(rs[j], |Flatten(rs[..j])|)
  {
    if j < |rs| - 1 {
      RoundAt(Front(rs), j);
      assert Front(rs)[..j] == rs[..j];
    } else {
      assert rs[..j] == Front(rs);
    }
  }

  /**
   * Truncation shortens only the in-memory list, not runs.steps. So after crash, resume and further work the
   * indices in the log are still distinct exactly when the resume dropped nothing or has written nothing.
   */
  lemma IndicesAfterResume(price: Price, base: seq<ChatMsg>, first: seq<Action>,
                           base': seq<ChatMsg>, second: seq<Action>)
    requires Run(Start(price, base, []), first).Some?
    requires !Misled(Run(Start(price, base, []), first).value.phase)
    requires Run(Start(price, base', Run(Start(price, base, []), first).value.log), second).Some?
    ensures var s := Run(Start(price, base, []), first).value;
            var r := Run(Start(price, base', s.log), second).value;
            DistinctIndices(r.log) <==>
              DropIncomplete(SortByIndex(s.log)) == SortByIndex(s.log) || r.log == s.log
  {
    var s := Run(Start(price, base, []), first).value;
    var r := Run(Start(price, base', s.log), second).value;
    WholeResumes([], []);
    StartInv(price, base, [], []);
    var h := RunKeeps(Start(price, base, []), StartHistory(base, [], []), first);
    var kept := Completed(s, h);
    SortedLog(s, h);
    DropCanonical(s, h);
    StartInv(price, base', s.log, kept);
    var hr := RunKeeps(Start(price, base', s.log), StartHistory(base', s.log, kept), second);
    IndicesOf(s, h, r, hr);
  }

  lemma IndicesOf(s: Exec, h: History, r: Exec, hr: History)
    requires Inv(s, h) && Bag(h.prior) == Bag(Flatten(h.kept))
    requires Inv(r, hr) && hr.prior == s.log && hr.kept == Completed(s, h)
    ensures DistinctIndices(r.log) <==> Canonical(s, h) == Flatten(Completed(s, h)) || r.log == s.log
  {
    CanonicalBag(s, h);
    CanonicalSorted(s, h);
    PermutedDistinct(s.log, Canonical(s, h));
    if Canonical(s, h) == Flatten(Completed(s, h)) {
      CanonicalBag(r, hr);
      CanonicalSorted(r, hr);
      PermutedDistinct(r.log, Canonical(r, hr));
    } else if r.log != s.log {
      DroppedPart(s, h);
      var at := |Flatten(h.rounds)|;
      InLog(s.log, Canonical(s, h), at);
      var j :| 0 <= j < |s.log| && s.log[j].i == at;
      assert s.log <= r.log;
      FirstWritten(r, hr);
      assert r.log[j].i == r.log[|s.log|].i;
    }
  }

  lemma InLog(log: seq<Step>, canonical: seq<Step>, k: nat)
    requires Bag(log) == Bag(canonical) && k < |canonical|
    ensures exists j :: 0 <= j < |log| && log[j].i == canonical[k].i
  {
    BagIsMultiset(log);
    BagIsMultiset(canonical);
    assert canonical[k] in multiset(log);
    assert canonical[k] in log;
  }
}
