// Rounds: one assistant turn followed by one result per requested tool call, and the
// truncation a resume applies when the last round of a log is incomplete.
module Rounds {
  import opened Prelude
  import opened RunSteps

  datatype Round = Round(llm: Step, results: seq<Step>)

  predicate DistinctIds(calls: seq<ToolCall>) {
    forall a, b | 0 <= a < b < |calls| :: calls[a].id != calls[b].id
  }

  /** `s` is the persisted result of `call`, at step index `i`. */
  predicate ResultOf(s: Step, call: ToolCall, i: nat) {
    s.Tool? && s.i == i && s.callId == call.id && s.tool == call.name
  }

  predicate CompleteRound(r: Round, at: nat) {
    && r.llm.Llm? && r.llm.i == at
    && |r.results| == |r.llm.toolCalls|
    && forall k | 0 <= k < |r.results| :: ResultOf(r.results[k], r.llm.toolCalls[k], at + 1 + k)
  }

  function Steps(r: Round): (s: seq<Step>) {
    [r.llm] + r.results
  }

  function Flatten(rs: seq<Round>): (s: seq<Step>) {
    if rs == [] then [] else Flatten(Front(rs)) + Steps(Last(rs))
  }

  /** Complete rounds, numbered consecutively from 0. */
  predicate ValidRounds(rs: seq<Round>) {
    rs == [] || (ValidRounds(Front(rs)) && CompleteRound(Last(rs), |Flatten(Front(rs))|))
  }

  lemma FlattenSnoc(rs: seq<Round>, r: Round)
    ensures Flatten(rs + [r]) == Flatten(rs) + Steps(r)
    ensures ValidRounds(rs + [r]) <==> ValidRounds(rs) && CompleteRound(r, |Flatten(rs)|)
  {
    assert Front(rs + [r]) == rs;
  }

  predicate Numbered(steps: seq<Step>) {
    forall j | 0 <= j < |steps| :: steps[j].i == j
  }

  lemma RoundNumbered(before: seq<Step>, r: Round)
    requires Numbered(before) && CompleteRound(r, |before|)
    ensures Numbered(before + Steps(r))
  {
    var all := before + Steps(r);
    forall j | 0 <= j < |all| ensures all[j].i == j {
      if j > |before| {
        var k := j - |before| - 1;
        assert all[j] == r.results[k];
        assert ResultOf(r.results[k], r.llm.toolCalls[k], |before| + 1 + k);
      }
    }
  }

  lemma {:induction false} RoundsNumbered(rs: seq<Round>)
    requires ValidRounds(rs)
    ensures Numbered(Flatten(rs))
  {
    if rs == [] {
    } else {
      RoundsNumbered(Front(rs));
      RoundNumbered(Flatten(Front(rs)), Last(rs));
    }
  }

  lemma ValidRoundsAreNumbered(rs: seq<Round>)
    requires ValidRounds(rs)
    ensures forall j | 0 <= j < |Flatten(rs)| :: Flatten(rs)[j].i == j
    ensures StrictlySorted(Flatten(rs))
  {
    RoundsNumbered(rs);
  }

  // ---- Counting turns and cost, as the resume does ------------------------------------------

  /** `steps.filter(s => s.kind === 'llm').length` */
  function CountLlm(steps: seq<Step>): (n: nat) {
    if steps == [] then 0 else CountLlm(Front(steps)) + (if Last(steps).Llm? then 1 else 0)
  }

  /** `steps.filter(s => s.kind === 'llm').reduce((a, s) => a + s.costUsd, 0)` */
  function SumCost(steps: seq<Step>): (n: nat) {
    if steps == [] then 0 else SumCost(Front(steps)) + (if Last(steps).Llm? then Last(steps).cost else 0)
  }

  predicate AllTools(steps: seq<Step>) {
    forall j | 0 <= j < |steps| :: steps[j].Tool?
  }

  lemma {:induction false} CountOneLlm(before: seq<Step>, llm: Step, tools: seq<Step>)
    requires llm.Llm? && AllTools(tools)
    ensures CountLlm(before + [llm] + tools) == CountLlm(before) + 1
    ensures SumCost(before + [llm] + tools) == SumCost(before) + llm.cost
    decreases |tools|
  {
    var all := before + [llm] + tools;
    if tools == [] {
      assert Front(all) == before;
    } else {
      assert Front(all) == before + [llm] + Front(tools);
      CountOneLlm(before, llm, Front(tools));
    }
  }

  lemma {:induction false} CountRounds(rs: seq<Round>)
    requires ValidRounds(rs)
    ensures CountLlm(Flatten(rs)) == |rs|
  {
    if rs == [] {
    } else {
      CountRounds(Front(rs));
      RoundTools(Last(rs), |Flatten(Front(rs))|);
      CountOneLlm(Flatten(Front(rs)), Last(rs).llm, Last(rs).results);
      assert Flatten(rs) == Flatten(Front(rs)) + [Last(rs).llm] + Last(rs).results;
    }
  }

  lemma CostSnoc(rs: seq<Round>, r: Round)
    requires CompleteRound(r, |Flatten(rs)|)
    ensures SumCost(Flatten(rs + [r])) == SumCost(Flatten(rs)) + r.llm.cost
  {
    FlattenSnoc(rs, r);
    RoundTools(r, |Flatten(rs)|);
    CountOneLlm(Flatten(rs), r.llm, r.results);
    assert Flatten(rs + [r]) == Flatten(rs) + [r.llm] + r.results;
  }

  lemma RoundTools(r: Round, at: nat)
    requires CompleteRound(r, at)
    ensures AllTools(r.results)
  {
    forall j | 0 <= j < |r.results| ensures r.results[j].Tool? {
      assert ResultOf(r.results[j], r.llm.toolCalls[j], at + 1 + j);
    }
  }

  // ---- dropIncompleteTrailingRound ---------------------------------------------------------

  /** Position of the last llm step, -1 when there is none. */
  function LastLlm(steps: seq<Step>): (l: int)
    ensures -1 <= l < |steps|
    ensures l >= 0 ==> steps[l].Llm?
    ensures forall j | l < j < |steps| :: steps[j].Tool?
  {
    if steps == [] then -1
    else if Last(steps).Llm? then |steps| - 1
    else LastLlm(Front(steps))
  }

  function Resolved(steps: seq<Step>): (ids: set<string>) {
    set s | s in steps && s.Tool? :: s.callId
  }

  function DropIncomplete(steps: seq<Step>): (kept: seq<Step>) {
    var l := LastLlm(steps);
    if l == -1 then steps
    else if forall c | c in steps[l].toolCalls :: c.id in Resolved(steps[l + 1..]) then steps
    else steps[..l]
  }

  // ---- A round in progress --------------------------------------------------------------------

  /** The results that are present, in call order. */
  function Present(outs: seq<Option<Step>>): (s: seq<Step>) {
    if outs == [] then []
    else Present(Front(outs)) + (if Last(outs).Some? then [Last(outs).value] else [])
  }

  predicate PartialRound(llm: Step, outs: seq<Option<Step>>, at: nat) {
    && llm.Llm? && llm.i == at
    && |outs| == |llm.toolCalls|
    && forall k | 0 <= k < |outs| && outs[k].Some? :: ResultOf(outs[k].value, llm.toolCalls[k], at + 1 + k)
  }

  predicate AllPresent(outs: seq<Option<Step>>) {
    forall k | 0 <= k < |outs| :: outs[k].Some?
  }

  function Values(outs: seq<Option<Step>>): (s: seq<Step>)
    requires AllPresent(outs)
  {
    seq(|outs|, k requires 0 <= k < |outs| => outs[k].value)
  }

  lemma {:induction false} PresentMembers(outs: seq<Option<Step>>, s: Step)
    ensures s in Present(outs) <==> exists k :: 0 <= k < |outs| && outs[k] == Some(s)
  {
    if outs == [] {
    } else {
      PresentMembers(Front(outs), s);
      if exists k :: 0 <= k < |outs| && outs[k] == Some(s) {
        var k :| 0 <= k < |outs| && outs[k] == Some(s);
        assert k < |outs| - 1 ==> Front(outs)[k] == Some(s);
      }
      if s in Present(Front(outs)) {
        var k :| 0 <= k < |Front(outs)| && Front(outs)[k] == Some(s);
        assert outs[k] == Some(s);
      }
    }
  }

  lemma {:induction false} PresentAll(outs: seq<Option<Step>>)
    requires AllPresent(outs)
    ensures Present(outs) == Values(outs)
  {
    if outs == [] {
    } else {
      PresentAll(Front(outs));
      assert Values(outs) == Values(Front(outs)) + [Last(outs).value];
    }
  }

  lemma BagPresent(outs: seq<Option<Step>>)
    requires outs != []
    ensures Bag(Present(outs)) ==
              Bag(Present(Front(outs))) + (if Last(outs).Some? then multiset{Last(outs).value} else multiset{})
  {
    if Last(outs).Some? {
      BagSnoc(Present(Front(outs)), Last(outs).value);
    } else {
      assert Present(outs) == Present(Front(outs));
    }
  }

  lemma PresentAddLast(outs: seq<Option<Step>>, s: Step)
    requires outs != [] && Last(outs).None?
    ensures Bag(Present(outs[|outs| - 1 := Some(s)])) == Bag(Present(outs)) + multiset{s}
  {
    var after := outs[|outs| - 1 := Some(s)];
    BagPresent(outs);
    BagPresent(after);
    assert Front(after) == Front(outs);
  }

  lemma PresentAddBefore(outs: seq<Option<Step>>, k: nat, s: Step)
    requires k < |outs| - 1
    requires Bag(Present(Front(outs)[k := Some(s)])) == Bag(Present(Front(outs))) + multiset{s}
    ensures Bag(Present(outs[k := Some(s)])) == Bag(Present(outs)) + multiset{s}
  {
    var after := outs[k := Some(s)];
    BagPresent(outs);
    BagPresent(after);
    FrontUpdate(outs, k, Some(s));
  }

  lemma FrontUpdate<T>(xs: seq<T>, k: nat, x: T)
    requires k < |xs| - 1
    ensures Front(xs[k := x]) == Front(xs)[k := x]
  {
  }

  /** A new result lands at its own place; as a multiset it is just one more step. */
  lemma {:induction false} PresentAdd(outs: seq<Option<Step>>, k: nat, s: Step)
    requires k < |outs| && outs[k].None?
    ensures Bag(Present(outs[k := Some(s)])) == Bag(Present(outs)) + multiset{s}
  {
    if k == |outs| - 1 {
      PresentAddLast(outs, s);
    } else {
      PresentAdd(Front(outs), k, s);
      PresentAddBefore(outs, k, s);
    }
  }

  lemma {:induction false} PresentSorted(llm: Step, outs: seq<Option<Step>>, at: nat, n: nat)
    requires PartialRound(llm, outs, at)
    requires n <= |outs|
    ensures StrictlySorted(Present(outs[..n])) && AllTools(Present(outs[..n]))
    ensures forall s | s in Present(outs[..n]) :: at < s.i <= at + n
  {
    if n == 0 {
    } else {
      PresentSorted(llm, outs, at, n - 1);
      assert Front(outs[..n]) == outs[..n - 1];
      if outs[n - 1].Some? {
        assert ResultOf(outs[n - 1].value, llm.toolCalls[n - 1], at + n);
      }
    }
  }

  lemma PartialSorted(rs: seq<Round>, llm: Step, outs: seq<Option<Step>>)
    requires ValidRounds(rs)
    requires PartialRound(llm, outs, |Flatten(rs)|)
    ensures StrictlySorted(Flatten(rs) + [llm] + Present(outs))
    ensures AllTools(Present(outs))
  {
    ValidRoundsAreNumbered(rs);
    PresentSorted(llm, outs, |Flatten(rs)|, |outs|);
    assert outs[..|outs|] == outs;
    var head := Flatten(rs) + [llm];
    var all := head + Present(outs);
    forall a, b | 0 <= a < b < |all| ensures all[a].i < all[b].i {
      if b >= |head| {
        assert all[b] in Present(outs);
      }
    }
  }

  lemma {:induction false} LastLlmOf(before: seq<Step>, llm: Step, tools: seq<Step>)
    requires llm.Llm? && AllTools(tools)
    ensures LastLlm(before + [llm] + tools) == |before|
    decreases |tools|
  {
    var all := before + [llm] + tools;
    if tools == [] {
    } else {
      assert Front(all) == before + [llm] + Front(tools);
      LastLlmOf(before, llm, Front(tools));
    }
  }

  /** Call k is answered, as far as a set of ids can tell. */
  predicate LooksAnswered(calls: seq<ToolCall>, outs: seq<Option<Step>>, k: nat)
    requires |calls| == |outs| && k < |calls|
  {
    exists m :: 0 <= m < |outs| && outs[m].Some? && calls[m].id == calls[k].id
  }

  /** The truncation, in terms of the last llm step and what follows it. */
  lemma DropSplit(before: seq<Step>, llm: Step, tools: seq<Step>)
    requires llm.Llm? && AllTools(tools)
    ensures DropIncomplete(before + [llm] + tools) ==
              if forall c | c in llm.toolCalls :: c.id in Resolved(tools) then before + [llm] + tools else before
  {
    var all := before + [llm] + tools;
    LastLlmOf(before, llm, tools);
    assert all[|before|] == llm;
    assert all[|before| + 1..] == tools;
    assert all[..|before|] == before;
  }

  lemma AnsweredMeansResolved(llm: Step, outs: seq<Option<Step>>, at: nat, k: nat)
    requires PartialRound(llm, outs, at)
    requires k < |outs|
    ensures llm.toolCalls[k].id in Resolved(Present(outs)) <==> LooksAnswered(llm.toolCalls, outs, k)
  {
    var calls := llm.toolCalls;
    if calls[k].id in Resolved(Present(outs)) {
      var s :| s in Present(outs) && s.Tool? && s.callId == calls[k].id;
      PresentMembers(outs, s);
      var m :| 0 <= m < |outs| && outs[m] == Some(s);
      assert ResultOf(outs[m].value, calls[m], at + 1 + m);
    }
    if LooksAnswered(calls, outs, k) {
      var m :| 0 <= m < |outs| && outs[m].Some? && calls[m].id == calls[k].id;
      PresentMembers(outs, outs[m].value);
      assert ResultOf(outs[m].value, calls[m], at + 1 + m);
      assert outs[m].value in Present(outs);
    }
  }

  lemma AllAnswered(llm: Step, outs: seq<Option<Step>>, at: nat)
    requires PartialRound(llm, outs, at)
    ensures (forall c | c in llm.toolCalls :: c.id in Resolved(Present(outs))) <==>
            (forall k | 0 <= k < |outs| :: LooksAnswered(llm.toolCalls, outs, k))
  {
    forall k | 0 <= k < |outs|
      ensures llm.toolCalls[k].id in Resolved(Present(outs)) <==> LooksAnswered(llm.toolCalls, outs, k)
    {
      AnsweredMeansResolved(llm, outs, at, k);
    }
    if forall k | 0 <= k < |outs| :: LooksAnswered(llm.toolCalls, outs, k) {
      forall c | c in llm.toolCalls ensures c.id in Resolved(Present(outs)) {
        var k :| 0 <= k < |llm.toolCalls| && llm.toolCalls[k] == c;
        assert LooksAnswered(llm.toolCalls, outs, k);
      }
    }
  }

  /** Exactly when the truncation keeps a round in progress, whatever the ids are. */
  lemma DropDecision(rs: seq<Round>, llm: Step, outs: seq<Option<Step>>)
    requires ValidRounds(rs)
    requires PartialRound(llm, outs, |Flatten(rs)|)
    ensures DropIncomplete(Flatten(rs) + [llm] + Present(outs)) ==
              if forall k | 0 <= k < |outs| :: LooksAnswered(llm.toolCalls, outs, k)
              then Flatten(rs) + [llm] + Present(outs) else Flatten(rs)
  {
    PartialSorted(rs, llm, outs);
    DropSplit(Flatten(rs), llm, Present(outs));
    AllAnswered(llm, outs, |Flatten(rs)|);
  }

  /** Every call looks answered although a result is missing. */
  predicate HidesMissing(calls: seq<ToolCall>, outs: seq<Option<Step>>)
    requires |calls| == |outs|
  {
    !AllPresent(outs) && forall k | 0 <= k < |outs| :: LooksAnswered(calls, outs, k)
  }

  lemma DistinctIdsHideNothing(calls: seq<ToolCall>, outs: seq<Option<Step>>)
    requires DistinctIds(calls) && |calls| == |outs|
    ensures !HidesMissing(calls, outs)
  {
    if !AllPresent(outs) {
      var k :| 0 <= k < |outs| && outs[k].None?;
      assert !LooksAnswered(calls, outs, k);
    }
  }

  /** What the truncation makes of a round in progress: it closes a full one, drops an open one, or is misled. */
  lemma DropOpenRound(rs: seq<Round>, llm: Step, outs: seq<Option<Step>>)
    requires ValidRounds(rs)
    requires PartialRound(llm, outs, |Flatten(rs)|)
    ensures var all := Flatten(rs) + [llm] + Present(outs);
            if AllPresent(outs) then
              && ValidRounds(rs + [Round(llm, Values(outs))])
              && all == Flatten(rs + [Round(llm, Values(outs))]) && DropIncomplete(all) == all
            else if HidesMissing(llm.toolCalls, outs) then DropIncomplete(all) == all
            else DropIncomplete(all) == Flatten(rs)
  {
    DropDecision(rs, llm, outs);
    if AllPresent(outs) {
      forall k | 0 <= k < |outs| ensures LooksAnswered(llm.toolCalls, outs, k) {
        assert outs[k].Some?;
      }
      RoundFromResults(rs, llm, outs);
    }
  }

  /** With distinct call ids the truncation keeps a round iff every result is there. */
  lemma DropPartialRound(rs: seq<Round>, llm: Step, outs: seq<Option<Step>>)
    requires ValidRounds(rs)
    requires PartialRound(llm, outs, |Flatten(rs)|)
    requires DistinctIds(llm.toolCalls)
    ensures !AllPresent(outs) ==> DropIncomplete(Flatten(rs) + [llm] + Present(outs)) == Flatten(rs)
    ensures AllPresent(outs) ==>
              && ValidRounds(rs + [Round(llm, Values(outs))])
              && Flatten(rs) + [llm] + Present(outs) == Flatten(rs + [Round(llm, Values(outs))])
              && DropIncomplete(Flatten(rs) + [llm] + Present(outs)) == Flatten(rs + [Round(llm, Values(outs))])
  {
    DropOpenRound(rs, llm, outs);
    DistinctIdsHideNothing(llm.toolCalls, outs);
  }

  lemma {:induction false} PresentShorter(outs: seq<Option<Step>>)
    ensures |Present(outs)| <= |outs|
    ensures |Present(outs)| == |outs| ==> AllPresent(outs)
  {
    if outs == [] {
    } else {
      PresentShorter(Front(outs));
      if |Present(outs)| == |outs| {
        assert forall k | 0 <= k < |Front(outs)| :: Front(outs)[k] == outs[k];
      }
    }
  }

  lemma LastRound(xs: seq<Round>)
    requires ValidRounds(xs) && xs != []
    ensures var before := Flatten(Front(xs));
            && Flatten(xs) == before + [Last(xs).llm] + Last(xs).results
            && LastLlm(Flatten(xs)) == |before|
            && |Last(xs).results| == |Last(xs).llm.toolCalls|
  {
    var before, r := Flatten(Front(xs)), Last(xs);
    RoundTools(r, |before|);
    LastLlmOf(before, r.llm, r.results);
    ConcatAssociates(before, [r.llm], r.results);
  }

  /** A round with a missing result is not made of complete rounds, whichever way one cuts it. */
  lemma OpenRoundIsIncomplete(rs: seq<Round>, llm: Step, outs: seq<Option<Step>>, xs: seq<Round>)
    requires ValidRounds(rs) && ValidRounds(xs)
    requires PartialRound(llm, outs, |Flatten(rs)|) && !AllPresent(outs)
    ensures Flatten(xs) != Flatten(rs) + [llm] + Present(outs)
  {
    var all := Flatten(rs) + [llm] + Present(outs);
    assert all[|Flatten(rs)|] == llm;
    PartialSorted(rs, llm, outs);
    LastLlmOf(Flatten(rs), llm, Present(outs));
    PresentShorter(outs);
    if xs != [] {
      LastRound(xs);
    }
  }

  lemma RoundFromResults(rs: seq<Round>, llm: Step, outs: seq<Option<Step>>)
    requires ValidRounds(rs)
    requires PartialRound(llm, outs, |Flatten(rs)|) && AllPresent(outs)
    ensures ValidRounds(rs + [Round(llm, Values(outs))])
    ensures Flatten(rs) + [llm] + Present(outs) == Flatten(rs + [Round(llm, Values(outs))])
  {
    PresentAll(outs);
    FlattenSnoc(rs, Round(llm, Values(outs)));
    assert Flatten(rs) + [llm] + Present(outs) == Flatten(rs) + Steps(Round(llm, Values(outs)));
  }

  /** A log that ends in a complete round is kept whole. */
  lemma DropCompleteRounds(rs: seq<Round>)
    requires ValidRounds(rs)
    ensures DropIncomplete(Flatten(rs)) == Flatten(rs)
  {
    if rs != [] {
      var r := Last(rs);
      var before := Flatten(Front(rs));
      RoundTools(r, |before|);
      DropSplit(before, r.llm, r.results);
      ConcatAssociates(before, [r.llm], r.results);
      forall c | c in r.llm.toolCalls ensures c.id in Resolved(r.results) {
        var k :| 0 <= k < |r.llm.toolCalls| && r.llm.toolCalls[k] == c;
        assert ResultOf(r.results[k], c, |before| + 1 + k);
        assert r.results[k] in r.results;
      }
    }
  }

  function Twice(): (llm: Step) {
    var call := ToolCall("id", "web_search", "");
    Llm(0, "", [call, call], Usage(0, 0, 0, 0), 0)
  }

  /** The first result is there, the second is not. */
  function FirstOnly(): (outs: seq<Option<Step>>) {
    [Some(Tool(1, "id", "web_search", "", "", "", 0, "", None, None, [])), None]
  }

  lemma FirstOnlyHidesSecond()
    ensures PartialRound(Twice(), FirstOnly(), 0) && HidesMissing(Twice().toolCalls, FirstOnly())
  {
    var calls, outs := Twice().toolCalls, FirstOnly();
    assert ResultOf(outs[0].value, calls[0], 1) && outs[1].None?;
    assert outs[0].Some? && calls[0].id == calls[1].id;
    assert LooksAnswered(calls, outs, 0) && LooksAnswered(calls, outs, 1);
  }

  /** With a repeated id a missing result goes unnoticed. */
  lemma RepeatedIdHidesMissingResult()
    ensures exists llm: Step, outs: seq<Option<Step>> ::
              PartialRound(llm, outs, 0) && !AllPresent(outs)
              && DropIncomplete([llm] + Present(outs)) == [llm] + Present(outs)
  {
    FirstOnlyHidesSecond();
    DropOpenRound([], Twice(), FirstOnly());
    assert Flatten([]) + [Twice()] == [Twice()];
  }
}
