// From a crash to the wire: every request an execution sends, live or resumed, is one a provider accepts.
module EndToEnd {
  import opened Prelude
  import opened RunSteps
  import opened Rounds
  import opened Chat
  import opened Pricing
  import opened AgentLoop
  import opened LoopInvariant
  import opened Resume
  import opened Anthropic

  const FORCE_FINAL := "[system] Tool budget exhausted — write your final answer now with what you have."

  /** What the loop sends at its head: on the last iteration it asks for an answer without tools. */
  function Request(s: Exec): (h: seq<ChatMsg>) {
    if s.iteration == MAX_ITERATIONS - 1 then s.msgs + [UserMsg(FORCE_FINAL)] else s.msgs
  }

  /** Rows of the messages table: user questions and final answers, never tool traffic. */
  predicate PlainHistory(h: seq<ChatMsg>) {
    forall j | 0 <= j < |h| :: !h[j].role.ToolResult? && !Asks(h[j])
  }

  lemma {:induction false} PlainReads(h: seq<ChatMsg>)
    requires PlainHistory(h)
    ensures Read(h) == Account(multiset{}, multiset{})
  {
    if h == [] {
    } else {
      PlainReads(Front(h));
    }
  }

  lemma PlainIsSettled(h: seq<ChatMsg>)
    requires PlainHistory(h)
    ensures Settled(h)
  {
    PlainReads(h);
  }

  function ToolIds(steps: seq<Step>): (ids: multiset<string>) {
    if steps == [] then multiset{}
    else ToolIds(Front(steps)) + (if Last(steps).Tool? then multiset{Last(steps).callId} else multiset{})
  }

  function IdOf(s: Step): (ids: multiset<string>) {
    if s.Tool? then multiset{s.callId} else multiset{}
  }

  lemma ToolIdsSnoc(a: seq<Step>, s: Step)
    ensures ToolIds(a + [s]) == ToolIds(a) + IdOf(s)
  {
    assert Front(a + [s]) == a;
  }

  function Without(a: seq<Step>, j: nat): (r: seq<Step>)
    requires j < |a|
  {
    a[..j] + a[j + 1..]
  }

  lemma WithoutLast(a: seq<Step>)
    requires a != []
    ensures Without(a, |a| - 1) == Front(a)
  {
  }

  lemma WithoutEarlier(a: seq<Step>, j: nat)
    requires j < |a| - 1
    ensures Without(a, j) == Without(Front(a), j) + [Last(a)]
  {
  }

  lemma Swap<T>(m: multiset<T>, x: multiset<T>, y: multiset<T>)
    ensures (m + x) + y == (m + y) + x
  {
  }

  lemma {:induction false} RemoveFromBag(a: seq<Step>, j: nat)
    requires j < |a|
    ensures Bag(a) == Bag(Without(a, j)) + multiset{a[j]}
  {
    if j == |a| - 1 {
      WithoutLast(a);
    } else {
      var rest := Without(Front(a), j);
      RemoveFromBag(Front(a), j);
      WithoutEarlier(a, j);
      BagSnoc(rest, Last(a));
      Swap(Bag(rest), multiset{a[j]}, multiset{Last(a)});
    }
  }

  lemma {:induction false} RemoveFromIds(a: seq<Step>, j: nat)
    requires j < |a|
    ensures ToolIds(a) == ToolIds(Without(a, j)) + IdOf(a[j])
  {
    if j == |a| - 1 {
      WithoutLast(a);
    } else {
      var rest := Without(Front(a), j);
      RemoveFromIds(Front(a), j);
      WithoutEarlier(a, j);
      ToolIdsSnoc(rest, Last(a));
      Swap(ToolIds(rest), IdOf(a[j]), IdOf(Last(a)));
    }
  }

  /** The ids of the results do not depend on the order they arrive in. */
  lemma {:induction false} SameToolIds(a: seq<Step>, b: seq<Step>)
    requires Bag(a) == Bag(b)
    ensures ToolIds(a) == ToolIds(b)
    decreases |a|
  {
    SameBagLength(a, b);
    if a == [] {
    } else {
      var x := Last(a);
      BagIsMultiset(b);
      assert x in Bag(a);
      var j :| 0 <= j < |b| && b[j] == x;
      RemoveFromBag(b, j);
      RemoveFromIds(b, j);
      RemoveOne(Bag(Front(a)), Bag(Without(b, j)), x);
      SameToolIds(Front(a), Without(b, j));
    }
  }

  lemma {:induction false} ResultsAnswerCalls(results: seq<Step>, calls: seq<ToolCall>, at: nat)
    requires |results| == |calls|
    requires forall k | 0 <= k < |results| :: ResultOf(results[k], calls[k], at + k)
    ensures ToolIds(results) == CallIds(calls)
  {
    if results == [] {
    } else {
      ResultsAnswerCalls(Front(results), Front(calls), at);
      assert ResultOf(Last(results), Last(calls), at + |results| - 1);
    }
  }

  lemma ReadSnoc(h: seq<ChatMsg>, m: ChatMsg)
    ensures Read(h + [m]) == ReadOne(Read(h), m)
  {
    assert Front(h + [m]) == h;
  }

  lemma ReadToolSnoc(h: seq<ChatMsg>, replayed: seq<ChatMsg>, s: Step, owed: multiset<string>, paid: multiset<string>,
                     ids: multiset<string>)
    requires s.Tool? && Read(h + replayed) == Account(owed, paid + ids)
    ensures Read(h + (replayed + [MsgOf(s)])) == Account(owed, paid + (ids + multiset{s.callId}))
  {
    ReadSnoc(h + replayed, MsgOf(s));
    assert h + (replayed + [MsgOf(s)]) == (h + replayed) + [MsgOf(s)];
    assert paid + (ids + multiset{s.callId}) == (paid + ids) + multiset{s.callId};
  }

  lemma {:induction false} ReadResults(h: seq<ChatMsg>, results: seq<Step>)
    requires AllTools(results) && Read(h).Account?
    ensures Read(h + Replay(results)) == Account(Read(h).owed, Read(h).paid + ToolIds(results))
  {
    if results == [] {
      assert h + [] == h;
      assert Read(h).paid + multiset{} == Read(h).paid;
    } else {
      ReadResults(h, Front(results));
      ReadToolSnoc(h, Replay(Front(results)), Last(results), Read(h).owed, Read(h).paid, ToolIds(Front(results)));
    }
  }

  lemma ReadRound(h: seq<ChatMsg>, llm: Step, results: seq<Step>)
    requires Settled(h) && llm.Llm? && AllTools(results)
    requires ToolIds(results) == CallIds(llm.toolCalls)
    ensures Settled(h + [MsgOf(llm)] + Replay(results))
  {
    var h1 := h + [MsgOf(llm)];
    assert Front(h1) == h;
    assert Read(h1) == Account(CallIds(llm.toolCalls), multiset{});
    ReadResults(h1, results);
  }

  lemma AllToolsBag(a: seq<Step>, b: seq<Step>)
    requires Bag(a) == Bag(b) && AllTools(b)
    ensures AllTools(a)
  {
    BagIsMultiset(a);
    BagIsMultiset(b);
    forall j | 0 <= j < |a| ensures a[j].Tool? {
      assert a[j] in multiset(b);
    }
  }

  /** Complete rounds keep a conversation settled, in whatever order their results were reported. */
  lemma {:induction false} RoundsStaySettled(base: seq<ChatMsg>, told: seq<Round>, rounds: seq<Round>)
    requires Settled(base) && ValidRounds(rounds) && SameRounds(told, rounds)
    ensures Settled(base + Replay(Flatten(told)))
  {
    if told == [] {
      assert base + [] == base;
    } else {
      var t, r := Last(told), Last(rounds);
      RoundsStaySettled(base, Front(told), Front(rounds));
      assert SameRound(t, r);
      RoundTools(r, |Flatten(Front(rounds))|);
      AllToolsBag(t.results, r.results);
      SameToolIds(t.results, r.results);
      ResultsAnswerCalls(r.results, r.llm.toolCalls, |Flatten(Front(rounds))| + 1);
      ReadRound(base + Replay(Flatten(Front(told))), t.llm, t.results);
      ReplayRound(base, Flatten(Front(told)), t.llm, t.results);
    }
  }

  lemma ReplayRound(base: seq<ChatMsg>, before: seq<Step>, llm: Step, results: seq<Step>)
    ensures base + Replay(before + ([llm] + results)) == base + Replay(before) + [MsgOf(llm)] + Replay(results)
  {
    ReplayConcat(before, [llm] + results);
    ReplayConcat([llm], results);
    assert Replay([llm]) == [MsgOf(llm)] by {
      assert Front([llm]) == [];
    }
  }

  lemma AddUser(h: seq<ChatMsg>, text: string)
    requires Settled(h)
    ensures Settled(h + [UserMsg(text)])
  {
    assert Front(h + [UserMsg(text)]) == h;
  }

  /**
   * Whatever log an execution resumed from, and whatever schedule brought it to the loop head, the request it
   * sends next translates to a valid one, and the translation loses nothing.
   */
  lemma EveryRequestIsValid(price: Price, base: seq<ChatMsg>, prior: seq<Step>, kept: seq<Round>, acts: seq<Action>)
    requires Settled(base)
    requires ValidRounds(kept) && DropIncomplete(SortByIndex(prior)) == Flatten(kept)
    requires Run(Start(price, base, prior), acts).Some?
    requires Run(Start(price, base, prior), acts).value.phase.Head?
    ensures var h := Request(Run(Start(price, base, prior), acts).value);
            Settled(h) && ValidRequest(Translate(h)) && Untranslate(Translate(h)) == Meanings(h)
  {
    var s := Run(Start(price, base, prior), acts).value;
    StartInv(price, base, prior, kept);
    var h := RunKeeps(Start(price, base, prior), StartHistory(base, prior, kept), acts);
    assert Flatten(h.told) + ([] + []) == Flatten(h.told);
    RoundsStaySettled(base, h.told, h.rounds);
    AddUser(s.msgs, FORCE_FINAL);
    ValidIffSettled(Request(s));
    RoundTrip(Request(s));
  }

  /**
   * End to end: a first execution crashes anywhere it is not misled, a second one resumes from the database and
   * runs to any loop head. The request it sends there is valid, although tools raced and a round may have been cut off.
   */
  lemma ValidAfterAnyCrash(price: Price, base: seq<ChatMsg>, first: seq<Action>,
                           base': seq<ChatMsg>, second: seq<Action>)
    requires PlainHistory(base')
    requires Run(Start(price, base, []), first).Some? && !Misled(Run(Start(price, base, []), first).value.phase)
    requires Run(Start(price, base', Run(Start(price, base, []), first).value.log), second).Some?
    requires Run(Start(price, base', Run(Start(price, base, []), first).value.log), second).value.phase.Head?
    ensures var crashed := Run(Start(price, base, []), first).value;
            var h := Request(Run(Start(price, base', crashed.log), second).value);
            ValidRequest(Translate(h)) && Untranslate(Translate(h)) == Meanings(h)
  {
    WholeResumes([], []);
    var rounds := CrashAnywhere(price, base, [], [], first);
    PlainIsSettled(base');
    EveryRequestIsValid(price, base', Run(Start(price, base, []), first).value.log, rounds, second);
  }

  // ---- The first request after a crash ----------------------------------------------------------------

  lemma {:induction false} IdCounts(steps: seq<Step>, calls: seq<ToolCall>)
    requires AllTools(steps)
    ensures |ToolIds(steps)| == |steps| && |CallIds(calls)| == |calls|
    decreases |steps| + |calls|
  {
    if steps != [] {
      IdCounts(Front(steps), calls);
    } else if calls != [] {
      IdCounts(steps, Front(calls));
    }
  }

  /** An assistant turn with too few results leaves the history owing, also under a further user message. */
  lemma OpenRoundOwes(h: seq<ChatMsg>, llm: Step, results: seq<Step>, more: seq<ChatMsg>)
    requires Settled(h) && llm.Llm? && AllTools(results) && |results| < |llm.toolCalls|
    requires more == [] || more == [UserMsg(FORCE_FINAL)]
    ensures !Settled(h + [MsgOf(llm)] + Replay(results) + more)
  {
    ReadSnoc(h, MsgOf(llm));
    ReadResults(h + [MsgOf(llm)], results);
    IdCounts(results, llm.toolCalls);
    var open := h + [MsgOf(llm)] + Replay(results);
    assert Read(open) == Account(CallIds(llm.toolCalls), multiset{} + ToolIds(results));
    if more == [] {
      ConcatNothing(open);
    } else {
      ReadSnoc(open, UserMsg(FORCE_FINAL));
    }
  }

  lemma MisledOwes(s: Exec, h: History, base: seq<ChatMsg>, more: seq<ChatMsg>)
    requires RoundInv(s, h) && PhaseInv(s, h) && Misled(s.phase) && Settled(base)
    requires more == [] || more == [UserMsg(FORCE_FINAL)]
    ensures !Settled(base + Replay(Canonical(s, h)) + more)
  {
    var outs := Outs(s.phase);
    OutsPartial(s, h);
    PartialSorted(h.rounds, s.phase.llm, outs);
    PresentShorter(outs);
    SameRoundsRefl(h.rounds);
    RoundsStaySettled(base, h.rounds, h.rounds);
    OpenRoundOwes(base + Replay(Flatten(h.rounds)), s.phase.llm, Present(outs), more);
    ReplayRound(base, Flatten(h.rounds), s.phase.llm, Present(outs));
    ConcatAssociates(Flatten(h.rounds), [s.phase.llm], Present(outs));
  }

  lemma MisledRequest(price: Price, crashed: Exec, h: History, base: seq<ChatMsg>)
    requires LogInv(crashed, h) && OpenInv(crashed, h) && RoundInv(crashed, h) && PhaseInv(crashed, h)
    requires Bag(h.prior) == Bag(Flatten(h.kept)) && Misled(crashed.phase) && PlainHistory(base)
    ensures !ValidRequest(Translate(Request(Start(price, base, crashed.log))))
  {
    var resumed := Start(price, base, crashed.log);
    SortedLog(crashed, h);
    DropCanonical(crashed, h);
    PlainIsSettled(base);
    var more := if resumed.iteration == MAX_ITERATIONS - 1 then [UserMsg(FORCE_FINAL)] else [];
    MisledOwes(crashed, h, base, more);
    ConcatNothing(resumed.msgs);
    ValidIffSettled(Request(resumed));
  }

  /**
   * A resume sends a request the provider accepts if and only if the crash was not misled by a repeated call id.
   */
  lemma FirstRequestValidIff(price: Price, base: seq<ChatMsg>, first: seq<Action>, base': seq<ChatMsg>)
    requires PlainHistory(base')
    requires Run(Start(price, base, []), first).Some?
    ensures var crashed := Run(Start(price, base, []), first).value;
            ValidRequest(Translate(Request(Start(price, base', crashed.log)))) <==> !Misled(crashed.phase)
  {
    var crashed := Run(Start(price, base, []), first).value;
    var resumed := Start(price, base', crashed.log);
    if Misled(crashed.phase) {
      WholeResumes([], []);
      StartInv(price, base, [], []);
      var h := RunKeeps(Start(price, base, []), StartHistory(base, [], []), first);
      MisledRequest(price, crashed, h, base');
    } else {
      assert Run(resumed, []) == Some(resumed);
      ValidAfterAnyCrash(price, base, first, base', []);
    }
  }
}
