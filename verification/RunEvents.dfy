// Run events and their replay from persisted steps.
module RunEvents {
  import opened Prelude
  import opened RunSteps

  datatype RunEvent =
    | RunStarted(runId: string, threadId: string, modelId: string)
    | TextDelta(stepIndex: nat, delta: string)
    | ToolStarted(stepIndex: nat, tool: string, args: string)
    | ToolFinished(stepIndex: nat, tool: string, summary: string, durationMs: nat, sources: seq<string>)
    | TokenUsage(stepIndex: nat, usage: Usage)
    | CostUpdated(runCost: nat, threadCost: nat)
    | ArtifactCreated(artifactId: string, kind: string, title: string)
    | RunCompleted(costUsd: nat, credits: nat)
    | RunFailed(error: string, creditRefunded: bool)
  {
    predicate Terminal() { RunCompleted? || RunFailed? }
  }

  function OrElse(o: Option<string>, default: string): (s: string) {
    if o.Some? then o.value else default
  }

  /** The events one persisted step replays to. */
  function EventsOf(s: Step): (events: seq<RunEvent>)
    ensures forall e | e in events :: !e.Terminal()
  {
    match s
    case Llm(i, text, _, usage, _) =>
      (if text != "" then [TextDelta(i, text)] else []) + [TokenUsage(i, usage)]
    case Tool(i, _, tool, args, _, summary, durationMs, artifactId, kind, title, sources) =>
      [ToolStarted(i, tool, args), ToolFinished(i, tool, summary, durationMs, sources)]
      + (if artifactId != "" then [ArtifactCreated(artifactId, OrElse(kind, "md"), OrElse(title, summary))] else [])
  }

  function EventsInOrder(steps: seq<Step>): (events: seq<RunEvent>) {
    if steps == [] then [] else EventsInOrder(Front(steps)) + EventsOf(Last(steps))
  }

  function StepsToEvents(log: seq<Step>): (events: seq<RunEvent>) {
    EventsInOrder(SortByIndex(log))
  }

  method MapStepsToEvents(steps: seq<Step>) returns (events: seq<RunEvent>)
    ensures events == StepsToEvents(steps) && |events| == Size(steps)
    ensures DistinctIndices(steps) ==> AllPlaced(events, steps)
  {
    ReplaySize(steps);
    ReplayPlacesAll(steps);
    events := [];
    var sorted := SortByIndex(steps);
    for k := 0 to |sorted|
      invariant events == EventsInOrder(sorted[..k])
    {
      assert Front(sorted[..k + 1]) == sorted[..k];
      events := PushEvents(events, sorted[k]);
    }
    TakeAll(sorted);
  }

  /** Pushes the events of one step. */
  method PushEvents(before: seq<RunEvent>, step: Step) returns (events: seq<RunEvent>)
    ensures events == before + EventsOf(step)
    ensures StepAt(events[|before|..], 0, step) && |events| == |before| + SizeOf(step)
  {
    OwnPlace(step);
    events := before;
    match step {
      case Llm(i, text, _, usage, _) =>
        if text != "" { events := events + [TextDelta(i, text)]; }
        events := events + [TokenUsage(i, usage)];
      case Tool(i, _, tool, args, _, summary, durationMs, artifactId, kind, title, sources) =>
        events := events + [ToolStarted(i, tool, args)];
        events := events + [ToolFinished(i, tool, summary, durationMs, sources)];
        if artifactId != "" {
          events := events + [ArtifactCreated(artifactId, OrElse(kind, "md"), OrElse(title, summary))];
        }
    }
  }

  // ---- Where the events of a step stand ----------------------------------------------------------

  /** Events that carry the index of their step; an artifact event does not. */
  predicate About(e: RunEvent, i: nat) {
    (e.TextDelta? || e.TokenUsage? || e.ToolStarted? || e.ToolFinished?) && e.stepIndex == i
  }

  /**
   * From position `p` on: for a turn its text, if it has any, and its usage; for a tool its start, its end, and
   * its artifact iff it made one. No other event carries the step's index.
   */
  predicate StepAt(events: seq<RunEvent>, p: int, s: Step) {
    0 <= p &&
    match s
    case Llm(i, text, _, usage, _) =>
      var n := if text == "" then 1 else 2;
      && p + n <= |events| && events[p + n - 1] == TokenUsage(i, usage)
      && (text != "" ==> events[p] == TextDelta(i, text))
      && forall k | 0 <= k < |events| :: About(events[k], i) <==> p <= k < p + n
    case Tool(i, _, tool, args, _, summary, durationMs, artifactId, kind, title, sources) =>
      && p + 2 <= |events|
      && events[p] == ToolStarted(i, tool, args)
      && events[p + 1] == ToolFinished(i, tool, summary, durationMs, sources)
      && (artifactId != "" <==> p + 2 < |events| && events[p + 2].ArtifactCreated?)
      && (artifactId != "" ==>
            && events[p + 2].artifactId == artifactId
            && events[p + 2].kind == (if kind.Some? then kind.value else "md")
            && events[p + 2].title == (if title.Some? then title.value else summary))
      && forall k | 0 <= k < |events| :: About(events[k], i) <==> p <= k < p + 2
  }

  function SizeOf(s: Step): (n: nat) {
    if s.Llm? then (if s.text == "" then 1 else 2) else if s.artifactId == "" then 2 else 3
  }

  function Size(steps: seq<Step>): (n: nat) {
    if steps == [] then 0 else Size(Front(steps)) + SizeOf(Last(steps))
  }

  lemma OwnPlace(s: Step)
    ensures StepAt(EventsOf(s), 0, s) && |EventsOf(s)| == SizeOf(s)
    ensures forall k | 0 <= k < |EventsOf(s)| :: About(EventsOf(s)[k], s.i) || EventsOf(s)[k].ArtifactCreated?
    ensures !EventsOf(s)[0].ArtifactCreated?
  {
  }

  /** Events of other steps behind those of `s` do not disturb them. */
  lemma PlaceStays(before: seq<RunEvent>, p: int, s: Step, next: Step)
    requires StepAt(before, p, s) && next.i != s.i
    ensures StepAt(before + EventsOf(next), p, s)
  {
    OwnPlace(next);
  }

  lemma PlaceAtEnd(before: seq<RunEvent>, s: Step)
    requires forall k | 0 <= k < |before| :: !About(before[k], s.i)
    ensures StepAt(before + EventsOf(s), |before|, s)
  {
    OwnPlace(s);
  }

  lemma {:induction false} NothingAbout(steps: seq<Step>, i: nat)
    requires forall k | 0 <= k < |steps| :: steps[k].i != i
    ensures forall k | 0 <= k < |EventsInOrder(steps)| :: !About(EventsInOrder(steps)[k], i)
  {
    if steps == [] {
    } else {
      NothingAbout(Front(steps), i);
      OwnPlace(Last(steps));
    }
  }

  lemma {:induction false} PlaceInOrder(steps: seq<Step>, s: Step) returns (p: int)
    requires StrictlySorted(steps) && s in steps
    ensures StepAt(EventsInOrder(steps), p, s)
  {
    var front, last := Front(steps), Last(steps);
    if s == last {
      p := |EventsInOrder(front)|;
      NothingAbout(front, last.i);
      PlaceAtEnd(EventsInOrder(front), last);
    } else {
      assert s in front;
      p := PlaceInOrder(front, s);
      PlaceStays(EventsInOrder(front), p, s, last);
    }
  }

  /** In the replay of a log with distinct indices every step has its place. */
  lemma ReplayPlaces(log: seq<Step>, s: Step) returns (p: int)
    requires DistinctIndices(log) && s in log
    ensures StepAt(StepsToEvents(log), p, s)
  {
    SortIsCanonical(log, log);
    SortProperties(log);
    assert s in multiset(SortByIndex(log));
    p := PlaceInOrder(SortByIndex(log), s);
  }

  /** Every step has its place among the events. */
  ghost predicate AllPlaced(events: seq<RunEvent>, steps: seq<Step>) {
    forall s | s in steps :: exists p :: StepAt(events, p, s)
  }

  lemma ReplayPlacesAll(log: seq<Step>)
    ensures DistinctIndices(log) ==> AllPlaced(StepsToEvents(log), log)
  {
    if DistinctIndices(log) {
      forall s | s in log ensures exists p :: StepAt(StepsToEvents(log), p, s) {
        var p := ReplayPlaces(log, s);
      }
    }
  }

  lemma {:induction false} InsertSize(xs: seq<Step>, x: Step)
    ensures Size(Insert(xs, x)) == Size(xs) + SizeOf(x)
  {
    if xs == [] || Last(xs).i <= x.i {
      assert Front(xs + [x]) == xs;
    } else {
      InsertSize(Front(xs), x);
      assert Front(Insert(Front(xs), x) + [Last(xs)]) == Insert(Front(xs), x);
    }
  }

  lemma {:induction false} SortSize(log: seq<Step>)
    ensures Size(SortByIndex(log)) == Size(log)
  {
    if log == [] {
    } else {
      SortSize(Front(log));
      InsertSize(SortByIndex(Front(log)), Last(log));
    }
  }

  lemma {:induction false} SizeInOrder(steps: seq<Step>)
    ensures |EventsInOrder(steps)| == Size(steps)
  {
    if steps == [] {
    } else {
      SizeInOrder(Front(steps));
      OwnPlace(Last(steps));
    }
  }

  /** There is nothing else in the replay. */
  lemma ReplaySize(log: seq<Step>)
    ensures |StepsToEvents(log)| == Size(log)
  {
    SizeInOrder(SortByIndex(log));
    SortSize(log);
  }

  /** Replay does not depend on the order in which concurrent tools persisted their steps. */
  lemma ReplayIsCanonical(log: seq<Step>, other: seq<Step>)
    requires DistinctIndices(log) && multiset(log) == multiset(other)
    ensures StepsToEvents(log) == StepsToEvents(other)
  {
    SortIsCanonical(log, other);
  }

  // ---- Replay in groups, one per step, in increasing order -------------------------------------

  datatype Tagged = Tagged(step: nat, event: RunEvent)

  function Tag(i: nat, events: seq<RunEvent>): (t: seq<Tagged>)
    ensures |t| == |events| && forall k | 0 <= k < |t| :: t[k] == Tagged(i, events[k])
  {
    seq(|events|, k requires 0 <= k < |events| => Tagged(i, events[k]))
  }

  /** The replay with each event labelled by the step it comes from. */
  function Labelled(steps: seq<Step>): (t: seq<Tagged>) {
    if steps == [] then [] else Labelled(Front(steps)) + Tag(Last(steps).i, EventsOf(Last(steps)))
  }

  /** The events of one label, in order. */
  function Group(t: seq<Tagged>, i: nat): (events: seq<RunEvent>) {
    if t == [] then [] else Group(Front(t), i) + (if Last(t).step == i then [Last(t).event] else [])
  }

  lemma {:induction false} GroupConcat(a: seq<Tagged>, i: nat, j: nat, events: seq<RunEvent>)
    ensures Group(a + Tag(j, events), i) == Group(a, i) + (if i == j then events else [])
    decreases |events|
  {
    if events == [] {
      assert a + Tag(j, events) == a;
    } else {
      assert Tag(j, events) == Tag(j, Front(events)) + [Tagged(j, Last(events))];
      assert Front(a + Tag(j, events)) == a + Tag(j, Front(events));
      GroupConcat(a, i, j, Front(events));
      FrontAndLast(events);
    }
  }

  lemma {:induction false} LabelsAddNothing(steps: seq<Step>)
    ensures |Labelled(steps)| == |EventsInOrder(steps)|
    ensures forall k | 0 <= k < |Labelled(steps)| :: Labelled(steps)[k].event == EventsInOrder(steps)[k]
  {
    if steps == [] {
    } else {
      LabelsAddNothing(Front(steps));
    }
  }

  lemma {:induction false} LabelsRise(steps: seq<Step>)
    requires StrictlySorted(steps)
    ensures steps == [] ==> Labelled(steps) == []
    ensures steps != [] ==> forall k | 0 <= k < |Labelled(steps)| :: Labelled(steps)[k].step <= Last(steps).i
    ensures forall a, b | 0 <= a < b < |Labelled(steps)| :: Labelled(steps)[a].step <= Labelled(steps)[b].step
  {
    if steps == [] {
    } else {
      LabelsRise(Front(steps));
      assert Front(steps) != [] ==> Last(Front(steps)).i < Last(steps).i;
      var before, last := Labelled(Front(steps)), Tag(Last(steps).i, EventsOf(Last(steps)));
      var all: seq<Tagged> := before + last;
      forall k | 0 <= k < |all| ensures all[k].step <= Last(steps).i {
        if k < |before| {
          assert all[k] == before[k];
        } else {
          assert all[k] == last[k - |before|];
        }
      }
      assert Labelled(steps) == all;
    }
  }

  lemma {:induction false} LabelsGroup(steps: seq<Step>, x: Step)
    requires StrictlySorted(steps) && x in steps
    ensures Group(Labelled(steps), x.i) == EventsOf(x)
  {
    var before, s := Front(steps), Last(steps);
    GroupConcat(Labelled(before), x.i, s.i, EventsOf(s));
    if x == s {
      LabelsRise(before);
      assert before != [] ==> Last(before).i < s.i;
      NoGroup(Labelled(before), s.i);
      assert [] + EventsOf(s) == EventsOf(s);
    } else {
      assert x in before;
      LabelsGroup(before, x);
      assert x.i != s.i;
    }
  }

  lemma {:induction false} NoGroup(t: seq<Tagged>, i: nat)
    requires forall k | 0 <= k < |t| :: t[k].step != i
    ensures Group(t, i) == []
  {
    if t == [] {
    } else {
      NoGroup(Front(t), i);
    }
  }

  /**
   * The replay of a log with distinct indices falls into groups, one per step, in increasing step order; the
   * group of a step is exactly its events (so a tool's start precedes its end and the artifact comes last).
   */
  lemma ReplayInGroups(log: seq<Step>)
    requires DistinctIndices(log)
    ensures var t := Labelled(SortByIndex(log));
            && |t| == |StepsToEvents(log)|
            && (forall k | 0 <= k < |t| :: t[k].event == StepsToEvents(log)[k])
            && (forall a, b | 0 <= a < b < |t| :: t[a].step <= t[b].step)
            && (forall s | s in log :: Group(t, s.i) == EventsOf(s))
  {
    SortIsCanonical(log, log);
    SortProperties(log);
    LabelsAddNothing(SortByIndex(log));
    LabelsRise(SortByIndex(log));
    forall s | s in log ensures Group(Labelled(SortByIndex(log)), s.i) == EventsOf(s) {
      assert s in multiset(SortByIndex(log));
      LabelsGroup(SortByIndex(log), s);
    }
  }

  /** Every event of every logged step is in the replay. */
  lemma {:induction false} EventsContain(steps: seq<Step>, s: Step, e: RunEvent)
    requires s in steps && e in EventsOf(s)
    ensures e in EventsInOrder(steps)
  {
    if s != Last(steps) {
      assert s in Front(steps);
      EventsContain(Front(steps), s, e);
    }
  }

  lemma {:induction false} ReplayNotTerminal(steps: seq<Step>)
    ensures forall e | e in EventsInOrder(steps) :: !e.Terminal()
  {
    if steps == [] {
    } else {
      ReplayNotTerminal(Front(steps));
    }
  }
}
