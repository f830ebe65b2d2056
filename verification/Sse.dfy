// The event stream of one run: a worker that persists and publishes, and a handler that subscribes, replays
// and forwards. The two interleave freely; the handler's own awaits are separate steps.
module Sse {
  import opened Prelude
  import opened RunSteps
  import opened RunEvents

  datatype Status = Running | Done | Failed

  /** Where the handler is. `snapshot` is what it read from runs.steps. */
  datatype HandlerAt =
    | Opening
    | Subscribed                                          // the channel, not yet the callback
    | Listening                                           // callback attached
    | Greeted                                             // run_started sent
    | GotSteps(snapshot: seq<Step>)
    | Replayed(snapshot: seq<Step>, whileOpen: bool)      // replay sent; was the stream still open?
    | GotStatus(snapshot: seq<Step>, whileOpen: bool, status: Status)
    | Streaming(snapshot: seq<Step>, whileOpen: bool)     // only the callback is left

  /** The database columns, the channel and the response of one stream. */
  datatype Stream = Stream(
    persisted: seq<Step>,        // runs.steps
    announced: set<Step>,        // steps whose event after persisting has been published
    heard: set<Step>,            // those announced while this stream's callback was attached
    status: Status,
    owed: nat,                   // terminal events still to be published
    at: HandlerAt,
    queue: seq<RunEvent>,        // messages on their way to this subscriber, in order
    output: seq<RunEvent>,       // what was written to the response
    closed: bool)
  {
    predicate Hears() { !at.Opening? && !at.Subscribed? }
  }

  function Init(): (s: Stream) {
    Stream([], {}, {}, Running, 0, Opening, [], [], false)
  }

  datatype Action =
    // the processes that work on the run
    | PublishLive(event: RunEvent)             // deltas, tool_started, costs, artifacts
    | Persist(step: Step)
    | Announce(step: Step)                     // token_usage or tool_finished
    | CommitStatus(final: Status)
    | SeeFinal                                 // a finalizer that finds the run already final
    | PublishTerminal(event: RunEvent)
    // the handler
    | Subscribe
    | Attach
    | Greet(runId: string, threadId: string, modelId: string)
    | ReadSteps
    | SendReplay
    | ReadStatus
    | SendFinal(event: RunEvent)
    | KeepOpen
    | Deliver
    | ClientGone

  /** The event that follows the persisting of a step. */
  function Announcement(s: Step): (e: RunEvent) {
    match s
    case Llm(i, _, _, usage, _) => TokenUsage(i, usage)
    case Tool(i, _, tool, _, _, summary, durationMs, _, _, _, sources) =>
      ToolFinished(i, tool, summary, durationMs, sources)
  }

  /** Only the announcing of a persisted step publishes one of these. */
  predicate Announces(e: RunEvent) {
    e.TokenUsage? || e.ToolFinished?
  }

  predicate Enabled(s: Stream, a: Action) {
    match a
    case PublishLive(e) => !e.Terminal() && !Announces(e)
    case Persist(step) => step !in s.persisted
    case Announce(step) => step in s.persisted && step !in s.announced
    case CommitStatus(final) => s.status.Running? && !final.Running?
    case SeeFinal => !s.status.Running?
    case PublishTerminal(e) => s.owed > 0 && e.Terminal()
    case Subscribe => s.at.Opening?
    case Attach => s.at.Subscribed?
    case Greet(_, _, _) => s.at.Listening?
    case ReadSteps => s.at.Greeted?
    case SendReplay => s.at.GotSteps?
    case ReadStatus => s.at.Replayed?
    case SendFinal(e) => s.at.GotStatus? && !s.at.status.Running? && e.Terminal()
    case KeepOpen => s.at.GotStatus? && s.at.status.Running?
    case Deliver => s.Hears() && s.queue != []
    case ClientGone => true
  }

  /** A publish reaches this stream only once its callback is attached. */
  function Publish(s: Stream, e: RunEvent): (s': Stream) {
    if s.Hears() then s.(queue := s.queue + [e]) else s
  }

  /** `send`: nothing is written to a closed response. */
  function Send(s: Stream, events: seq<RunEvent>): (s': Stream) {
    if s.closed then s else s.(output := s.output + events)
  }

  function Apply(s: Stream, a: Action): (s': Stream)
    requires Enabled(s, a)
  {
    match a
    case PublishLive(e) => Publish(s, e)
    case Persist(step) => s.(persisted := s.persisted + [step])
    case Announce(step) =>
      Publish(s.(announced := s.announced + {step}, heard := if s.Hears() then s.heard + {step} else s.heard),
              Announcement(step))
    case CommitStatus(final) => s.(status := final, owed := s.owed + 1)
    case SeeFinal => s.(owed := s.owed + 1)
    case PublishTerminal(e) => Publish(s.(owed := s.owed - 1), e)
    case Subscribe => s.(at := Subscribed)
    case Attach => s.(at := Listening)
    case Greet(r, t, m) => Send(s.(at := Greeted), [RunStarted(r, t, m)])
    case ReadSteps => s.(at := GotSteps(s.persisted))
    case SendReplay => Send(s.(at := Replayed(s.at.snapshot, !s.closed)), StepsToEvents(s.at.snapshot))
    case ReadStatus => s.(at := GotStatus(s.at.snapshot, s.at.whileOpen, s.status))
    case SendFinal(e) => Send(s.(at := Streaming(s.at.snapshot, s.at.whileOpen)), [e]).(closed := true)
    case KeepOpen => s.(at := Streaming(s.at.snapshot, s.at.whileOpen))
    case Deliver =>
      var s1 := Send(s.(queue := s.queue[1..]), [s.queue[0]]);
      if s.queue[0].Terminal() then s1.(closed := true) else s1
    case ClientGone => s.(closed := true)
  }

  function Run(s: Stream, acts: seq<Action>): (r: Option<Stream>) {
    if acts == [] then Some(s)
    else
      match Run(s, Front(acts))
      case None => None
      case Some(m) => if Enabled(m, Last(acts)) then Some(Apply(m, Last(acts))) else None
  }

  // ---- Nothing slips through the gap ---------------------------------------------------------------

  /** The step reached this client, is on its way, or is not published yet. */
  predicate Accounted(s: Stream, step: Step) {
    || Announcement(step) in s.output
    || Announcement(step) in s.queue
    || step !in s.announced
  }

  predicate ReadAlready(at: HandlerAt) {
    at.GotSteps? || at.Replayed? || at.GotStatus? || at.Streaming?
  }

  predicate ReplaySent(at: HandlerAt) {
    at.Replayed? || at.GotStatus? || at.Streaming?
  }

  /** Steps persisted after the handler's read are accounted for by the subscription. */
  predicate GapInv(s: Stream) {
    && (ReadAlready(s.at) && !s.closed ==>
         forall step | step in s.persisted && step !in s.at.snapshot :: Accounted(s, step))
    && (ReplaySent(s.at) && s.at.whileOpen ==>
         forall step | step in s.at.snapshot :: Announcement(step) in s.output)
    && (ReplaySent(s.at) && !s.closed ==> s.at.whileOpen)
    && s.announced <= (set step | step in s.persisted)
  }

  lemma SendsAnnouncement(snapshot: seq<Step>, step: Step)
    requires step in snapshot
    ensures Announcement(step) in StepsToEvents(snapshot)
  {
    SortProperties(snapshot);
    assert step in multiset(SortByIndex(snapshot));
    assert Announcement(step) in EventsOf(step);
    EventsContain(SortByIndex(snapshot), step, Announcement(step));
  }

  lemma StaysAccounted(s: Stream, a: Action, step: Step)
    requires Enabled(s, a) && Accounted(s, step) && ReadAlready(s.at)
    requires !Apply(s, a).closed && step in s.persisted
    ensures Accounted(Apply(s, a), step)
  {
    match a
    case Deliver =>
      var e := Announcement(step);
      if e in s.queue && e !in s.queue[1..] {
        assert e == s.queue[0];
      }
    case _ =>
  }

  lemma GapStep(s: Stream, a: Action)
    requires GapInv(s) && Enabled(s, a)
    ensures GapInv(Apply(s, a))
  {
    var s' := Apply(s, a);
    if ReadAlready(s'.at) && !s'.closed {
      forall step | step in s'.persisted && step !in s'.at.snapshot ensures Accounted(s', step) {
        if step in s.persisted && ReadAlready(s.at) {
          StaysAccounted(s, a, step);
        }
      }
    }
    if a.SendReplay? && !s.closed {
      forall step | step in s.at.snapshot ensures Announcement(step) in s'.output {
        SendsAnnouncement(s.at.snapshot, step);
      }
    }
  }

  lemma {:induction false} GapHolds(acts: seq<Action>)
    requires Run(Init(), acts).Some?
    ensures GapInv(Run(Init(), acts).value)
  {
    if acts == [] {
    } else {
      GapHolds(Front(acts));
      GapStep(Run(Init(), Front(acts)).value, Last(acts));
    }
  }

  /**
   * Lossless reconnect: for every interleaving, once the replay is out on a stream that is still open, every
   * persisted step has been sent, is queued for this subscriber, or is not published yet.
   */
  lemma NoGap(acts: seq<Action>, step: Step)
    requires Run(Init(), acts).Some?
    requires var s := Run(Init(), acts).value; ReplaySent(s.at) && !s.closed && step in s.persisted
    ensures Accounted(Run(Init(), acts).value, step)
  {
    GapHolds(acts);
  }

  // ---- Terminal events -------------------------------------------------------------------------------

  predicate HasTerminal(events: seq<RunEvent>) {
    exists k :: 0 <= k < |events| && events[k].Terminal()
  }

  predicate TerminalInv(s: Stream) {
    && (forall k | 0 <= k < |s.output| && s.output[k].Terminal() :: k == |s.output| - 1 && s.closed)
    && ((s.at.GotStatus? && s.at.status.Running?) || s.at.Streaming? ==>
          s.closed || s.status.Running? || s.owed > 0 || HasTerminal(s.queue))
    && (s.at.GotStatus? && !s.at.status.Running? ==> !s.status.Running?)
  }

  lemma ReplayTerminal(s: Stream)
    requires TerminalInv(s) && Enabled(s, SendReplay)
    ensures TerminalInv(Apply(s, SendReplay))
  {
    var events := StepsToEvents(s.at.snapshot);
    ReplayNotTerminal(SortByIndex(s.at.snapshot));
    assert forall k | 0 <= k < |events| :: events[k] in events && !events[k].Terminal();
  }

  lemma PublishTerminalStep(s: Stream, a: Action, e: RunEvent)
    requires TerminalInv(s) && Enabled(s, a)
    requires a == PublishTerminal(e) || a == PublishLive(e) || (a.Announce? && e == Announcement(a.step))
    ensures TerminalInv(Apply(s, a))
  {
    QueueGrows(s, e);
    if a.PublishTerminal? && s.Hears() {
      assert Apply(s, a).queue[|s.queue|].Terminal();
    }
  }

  lemma DeliverTerminal(s: Stream)
    requires TerminalInv(s) && Enabled(s, Deliver)
    ensures TerminalInv(Apply(s, Deliver))
  {
    if HasTerminal(s.queue) && !s.queue[0].Terminal() {
      var k :| 0 <= k < |s.queue| && s.queue[k].Terminal();
      assert Apply(s, Deliver).queue[k - 1].Terminal();
    }
  }

  lemma OtherTerminal(s: Stream, a: Action)
    requires TerminalInv(s) && Enabled(s, a)
    requires !a.SendReplay? && !a.Announce? && !a.PublishLive? && !a.PublishTerminal? && !a.Deliver?
    ensures TerminalInv(Apply(s, a))
  {
  }

  lemma TerminalStep(s: Stream, a: Action)
    requires TerminalInv(s) && Enabled(s, a)
    ensures TerminalInv(Apply(s, a))
  {
    match a
    case SendReplay => ReplayTerminal(s);
    case Announce(step) => PublishTerminalStep(s, a, Announcement(step));
    case PublishLive(e) => PublishTerminalStep(s, a, e);
    case PublishTerminal(e) => PublishTerminalStep(s, a, e);
    case Deliver => DeliverTerminal(s);
    case _ => OtherTerminal(s, a);
  }

  lemma QueueGrows(s: Stream, e: RunEvent)
    ensures HasTerminal(s.queue) ==> HasTerminal(s.queue + [e])
  {
    if HasTerminal(s.queue) {
      var k :| 0 <= k < |s.queue| && s.queue[k].Terminal();
      assert (s.queue + [e])[k].Terminal();
    }
  }

  /**
   * For every interleaving: at most one terminal event is written and nothing follows it; and a stream that is
   * still open after its status read has its terminal event ahead of it or queued.
   */
  lemma {:induction false} OneTerminal(acts: seq<Action>)
    requires Run(Init(), acts).Some?
    ensures TerminalInv(Run(Init(), acts).value)
  {
    if acts == [] {
    } else {
      OneTerminal(Front(acts));
      TerminalStep(Run(Init(), Front(acts)).value, Last(acts));
    }
  }

  // ---- What a finished stream has delivered -----------------------------------------------------------

  /**
   * A single worker: it numbers its steps apart, announces what it persisted before it commits the final status,
   * and then stops.
   */
  predicate Orderly(s: Stream, a: Action) {
    match a
    case Persist(step) => s.status.Running? && step.i !in Numbers(s.persisted)
    case Announce(_) => s.status.Running?
    case CommitStatus(_) => forall step | step in s.persisted :: step in s.announced
    case _ => true
  }

  predicate OrderlyRun(s: Stream, acts: seq<Action>) {
    acts == [] ||
    (OrderlyRun(s, Front(acts)) && (Run(s, Front(acts)).Some? ==> Orderly(Run(s, Front(acts)).value, Last(acts))))
  }

  function Numbers(steps: seq<Step>): (ns: set<nat>) {
    set step | step in steps :: step.i
  }

  // Where an announcement can be: queued only if it was heard, and written only from the queue or by the replay.

  predicate StepsInv(s: Stream) {
    && (forall a, b | a in s.persisted && b in s.persisted && a != b :: a.i != b.i)
    && (forall step | step in s.announced :: step in s.persisted)
    && s.heard <= s.announced
    && (!s.Hears() ==> s.heard == {} && s.queue == [])
    && (ReadAlready(s.at) ==> forall step | step in s.at.snapshot :: step in s.persisted)
    && (ReadAlready(s.at) ==> forall step | step in s.announced && step !in s.at.snapshot :: step in s.heard)
  }

  predicate StatusInv(s: Stream) {
    && (!s.status.Running? ==> forall step | step in s.persisted :: step in s.announced)
    && (s.owed > 0 || HasTerminal(s.queue) ==> !s.status.Running?)
  }

  /** Announcements on the way or written carry the number of a persisted step; the queue repeats none. */
  predicate EventsInv(s: Stream) {
    && (forall e | e in s.queue && Announces(e) :: e.stepIndex in Numbers(s.persisted))
    && (forall e | e in s.output && Announces(e) :: e.stepIndex in Numbers(s.persisted))
    && (forall j, k | 0 <= j < k < |s.queue| && Announces(s.queue[j]) :: s.queue[j] != s.queue[k])
  }

  predicate Replays(s: Stream, step: Step) {
    ReplaySent(s.at) && step in s.at.snapshot
  }

  predicate PlaceInv(s: Stream) {
    && (forall step | step in s.persisted && Announcement(step) in s.queue :: step in s.heard)
    && (forall step | step in s.persisted && Announcement(step) in s.output :: step in s.heard || Replays(s, step))
    && (forall step | step in s.persisted && Announcement(step) in s.queue && Announcement(step) in s.output ::
          Replays(s, step))
  }

  /** Nothing heard is lost, and nothing overtakes: it is ahead of every queued terminal event. */
  predicate HeardInv(s: Stream) {
    s.Hears() && !s.closed ==>
      && (forall step | step in s.heard :: Announcement(step) in s.output || Announcement(step) in s.queue)
      && (forall k, step | 0 <= k < |s.queue| && s.queue[k].Terminal() && step in s.heard ::
            Announcement(step) in s.output || Announcement(step) in s.queue[..k])
  }

  predicate DeliveryInv(s: Stream) {
    StepsInv(s) && StatusInv(s) && EventsInv(s) && PlaceInv(s) && HeardInv(s)
  }

  // ---- ... and every action keeps it there --------------------------------------------------------------

  lemma SameAnnouncement(a: Step, b: Step)
    requires Announcement(a) == Announcement(b)
    ensures a.i == b.i && Announces(Announcement(a)) && !Announcement(a).Terminal()
  {
  }

  lemma {:induction false} ReplayAnnounces(steps: seq<Step>, e: RunEvent)
    requires e in EventsInOrder(steps) && Announces(e)
    ensures exists x :: x in steps && e == Announcement(x)
  {
    var last := Last(steps);
    if e in EventsOf(last) {
      assert last in steps && e == Announcement(last);
    } else {
      ReplayAnnounces(Front(steps), e);
      var x :| x in Front(steps) && e == Announcement(x);
      assert x in steps;
    }
  }

  /** The announcements in a replay are those of the steps replayed. */
  lemma SnapshotAnnounces(snapshot: seq<Step>, e: RunEvent)
    requires e in StepsToEvents(snapshot) && Announces(e)
    ensures exists x :: x in snapshot && e == Announcement(x)
  {
    SortProperties(snapshot);
    ReplayAnnounces(SortByIndex(snapshot), e);
    var x :| x in SortByIndex(snapshot) && e == Announcement(x);
    assert x in multiset(snapshot);
  }

  lemma PersistSteps(s: Stream, step: Step)
    requires StepsInv(s) && Enabled(s, Persist(step)) && Orderly(s, Persist(step))
    ensures StepsInv(Apply(s, Persist(step)))
  {
    assert forall x | x in s.persisted :: x.i in Numbers(s.persisted);
  }

  lemma AnnounceSteps(s: Stream, step: Step)
    requires StepsInv(s) && Enabled(s, Announce(step))
    ensures StepsInv(Apply(s, Announce(step)))
  {
  }

  /** The handler's first actions, up to the read of the steps. */
  lemma ConnectSteps(s: Stream, a: Action)
    requires StepsInv(s) && Enabled(s, a) && (a.Subscribe? || a.Attach? || a.Greet? || a.ReadSteps?)
    ensures StepsInv(Apply(s, a))
  {
  }

  lemma OtherSteps(s: Stream, a: Action)
    requires StepsInv(s) && Enabled(s, a) && !a.Persist? && !a.Announce?
    requires !(a.Subscribe? || a.Attach? || a.Greet? || a.ReadSteps?)
    ensures StepsInv(Apply(s, a))
  {
    var s' := Apply(s, a);
    assert s'.persisted == s.persisted && s'.announced == s.announced && s'.heard == s.heard;
    assert s'.Hears() == s.Hears() && ReadAlready(s'.at) == ReadAlready(s.at);
    assert ReadAlready(s.at) ==> s'.at.snapshot == s.at.snapshot;
  }

  lemma StepsStep(s: Stream, a: Action)
    requires StepsInv(s) && Enabled(s, a) && Orderly(s, a)
    ensures StepsInv(Apply(s, a))
  {
    if a.Persist? {
      PersistSteps(s, a.step);
    } else if a.Announce? {
      AnnounceSteps(s, a.step);
    } else if a.Subscribe? || a.Attach? || a.Greet? || a.ReadSteps? {
      ConnectSteps(s, a);
    } else {
      OtherSteps(s, a);
    }
  }

  lemma StatusStep(s: Stream, a: Action)
    requires StatusInv(s) && Enabled(s, a) && Orderly(s, a)
    ensures StatusInv(Apply(s, a))
  {
    var s' := Apply(s, a);
    if HasTerminal(s'.queue) {
      var k :| 0 <= k < |s'.queue| && s'.queue[k].Terminal();
      if a.Deliver? {
        assert s.queue[k + 1].Terminal();
      } else if k < |s.queue| {
        assert s.queue[k].Terminal();
      }
    }
  }

  /** An announcement is made once, and nothing queued has its number yet. */
  lemma NotYetQueued(s: Stream, step: Step)
    requires StepsInv(s) && PlaceInv(s) && Enabled(s, Announce(step))
    ensures Announcement(step) !in s.queue
    ensures Announcement(step) in s.output ==> Replays(s, step)
  {
  }

  lemma AnnounceEvents(s: Stream, step: Step)
    requires StepsInv(s) && EventsInv(s) && PlaceInv(s) && Enabled(s, Announce(step))
    ensures EventsInv(Apply(s, Announce(step)))
  {
    NotYetQueued(s, step);
  }

  lemma ReplayEvents(s: Stream)
    requires StepsInv(s) && EventsInv(s) && Enabled(s, SendReplay)
    ensures EventsInv(Apply(s, SendReplay))
  {
    var s' := Apply(s, SendReplay);
    forall e | e in s'.output && Announces(e) ensures e.stepIndex in Numbers(s.persisted) {
      if e !in s.output {
        SnapshotAnnounces(s.at.snapshot, e);
        var x :| x in s.at.snapshot && e == Announcement(x);
        assert x in s.persisted;
      }
    }
  }

  lemma EventsStep(s: Stream, a: Action)
    requires StepsInv(s) && EventsInv(s) && PlaceInv(s) && Enabled(s, a)
    ensures EventsInv(Apply(s, a))
  {
    match a
    case Announce(step) => AnnounceEvents(s, step);
    case SendReplay => ReplayEvents(s);
    case Persist(step) => MoreNumbers(s.persisted, step);
    case Deliver => DeliverEvents(s);
    case _ => OtherEvents(s, a);
  }

  lemma DeliverEvents(s: Stream)
    requires EventsInv(s) && Enabled(s, Deliver)
    ensures EventsInv(Apply(s, Deliver))
  {
    assert forall e | e in s.queue[1..] :: e in s.queue;
  }

  lemma OtherEvents(s: Stream, a: Action)
    requires EventsInv(s) && Enabled(s, a)
    requires !a.Announce? && !a.SendReplay? && !a.Persist? && !a.Deliver?
    ensures EventsInv(Apply(s, a))
  {
  }

  lemma MoreNumbers(steps: seq<Step>, step: Step)
    ensures Numbers(steps) <= Numbers(steps + [step])
  {
  }

  lemma AnnouncePlace(s: Stream, step: Step)
    requires StepsInv(s) && PlaceInv(s) && Enabled(s, Announce(step))
    ensures PlaceInv(Apply(s, Announce(step)))
  {
    var s' := Apply(s, Announce(step));
    NotYetQueued(s, step);
    forall x | x in s'.persisted && Announcement(x) in s'.queue
      ensures x in s'.heard && (Announcement(x) in s'.output ==> Replays(s', x))
    {
      if Announcement(x) !in s.queue {
        SameAnnouncement(x, step);
      }
    }
  }

  lemma PersistPlace(s: Stream, step: Step)
    requires EventsInv(s) && PlaceInv(s) && Enabled(s, Persist(step)) && Orderly(s, Persist(step))
    ensures PlaceInv(Apply(s, Persist(step)))
  {
    assert Announces(Announcement(step)) && Announcement(step).stepIndex == step.i;
  }

  lemma ReplayPlace(s: Stream)
    requires StepsInv(s) && PlaceInv(s) && Enabled(s, SendReplay)
    ensures PlaceInv(Apply(s, SendReplay))
  {
    var s' := Apply(s, SendReplay);
    forall step | step in s.persisted && Announcement(step) in s'.output && Announcement(step) !in s.output
      ensures step in s.at.snapshot
    {
      SameAnnouncement(step, step);
      SnapshotAnnounces(s.at.snapshot, Announcement(step));
      var x :| x in s.at.snapshot && Announcement(step) == Announcement(x);
      SameAnnouncement(step, x);
    }
  }

  lemma DeliverPlace(s: Stream)
    requires EventsInv(s) && PlaceInv(s) && Enabled(s, Deliver)
    ensures PlaceInv(Apply(s, Deliver))
  {
    var rest := s.queue[1..];
    assert forall e | e in rest :: e in s.queue;
    assert Announces(s.queue[0]) ==> s.queue[0] !in rest by {
      assert forall k | 0 <= k < |rest| :: rest[k] == s.queue[k + 1];
    }
    assert forall step :: Announces(Announcement(step));
  }

  lemma PlaceStep(s: Stream, a: Action)
    requires StepsInv(s) && EventsInv(s) && PlaceInv(s) && Enabled(s, a) && Orderly(s, a)
    ensures PlaceInv(Apply(s, a))
  {
    match a
    case Announce(step) => AnnouncePlace(s, step);
    case Persist(step) => PersistPlace(s, step);
    case SendReplay => ReplayPlace(s);
    case Deliver => DeliverPlace(s);
    case PublishLive(e) => PublishPlace(s, a, e);
    case PublishTerminal(e) => PublishPlace(s, a, e);
    case Greet(_, _, _) => WritePlace(s, a);
    case SendFinal(_) => WritePlace(s, a);
    case _ => QuietPlace(s, a);
  }

  lemma PublishPlace(s: Stream, a: Action, e: RunEvent)
    requires PlaceInv(s) && Enabled(s, a) && (a == PublishLive(e) || a == PublishTerminal(e))
    ensures PlaceInv(Apply(s, a))
  {
    assert forall step :: Announcement(step) != e;
  }

  lemma WritePlace(s: Stream, a: Action)
    requires PlaceInv(s) && Enabled(s, a) && (a.Greet? || a.SendFinal?)
    ensures PlaceInv(Apply(s, a))
  {
    var e := if a.Greet? then RunStarted(a.runId, a.threadId, a.modelId) else a.event;
    assert forall step :: Announcement(step) != e;
  }

  lemma QuietPlace(s: Stream, a: Action)
    requires PlaceInv(s) && Enabled(s, a)
    requires !a.Announce? && !a.Persist? && !a.SendReplay? && !a.Deliver? && !a.PublishLive? && !a.PublishTerminal?
    requires !a.Greet? && !a.SendFinal?
    ensures PlaceInv(Apply(s, a))
  {
  }

  /** What was heard is in the output or ahead of queue position `k`. */
  predicate Ahead(s: Stream, step: Step, k: nat)
    requires k <= |s.queue|
  {
    Announcement(step) in s.output || Announcement(step) in s.queue[..k]
  }

  lemma AheadStays(s: Stream, a: Action, k: nat, step: Step)
    requires StatusInv(s) && HeardInv(s) && StepsInv(s) && Enabled(s, a) && Orderly(s, a)
    requires var s' := Apply(s, a);
             s'.Hears() && !s'.closed && k < |s'.queue| && s'.queue[k].Terminal() && step in s'.heard
    ensures Ahead(Apply(s, a), step, k)
  {
    var s' := Apply(s, a);
    if s.Hears() && !s.closed && !a.Announce? {
      TerminalAhead(s, a, k, step);
    }
  }

  lemma TerminalAhead(s: Stream, a: Action, k: nat, step: Step)
    requires StatusInv(s) && HeardInv(s) && Enabled(s, a) && !a.Announce? && s.Hears() && !s.closed
    requires var s' := Apply(s, a);
             !s'.closed && k < |s'.queue| && s'.queue[k].Terminal() && step in s'.heard
    ensures Ahead(Apply(s, a), step, k)
  {
    var s' := Apply(s, a);
    match a
    case Deliver =>
      assert s.queue[k + 1].Terminal();
      assert s.queue[..k + 1] == [s.queue[0]] + s'.queue[..k];
    case PublishLive(_) => assert s'.queue[..k] == s.queue[..k];
    case PublishTerminal(_) =>
      if k < |s.queue| {
        assert s'.queue[..k] == s.queue[..k];
      } else {
        assert s'.queue[..k] == s.queue;
      }
    case _ =>
  }

  lemma HeardStep(s: Stream, a: Action)
    requires StepsInv(s) && StatusInv(s) && HeardInv(s) && Enabled(s, a) && Orderly(s, a)
    ensures HeardInv(Apply(s, a))
  {
    var s' := Apply(s, a);
    if s'.Hears() && !s'.closed {
      forall k, step | 0 <= k < |s'.queue| && s'.queue[k].Terminal() && step in s'.heard
        ensures Announcement(step) in s'.output || Announcement(step) in s'.queue[..k]
      {
        AheadStays(s, a, k, step);
        assert Ahead(s', step, k);
      }
      HeardReaches(s, a);
    }
  }

  lemma HeardReaches(s: Stream, a: Action)
    requires StepsInv(s) && HeardInv(s) && Enabled(s, a)
    ensures var s' := Apply(s, a);
            s'.Hears() && !s'.closed ==>
              forall step | step in s'.heard :: Announcement(step) in s'.output || Announcement(step) in s'.queue
  {
    var s' := Apply(s, a);
    if s'.Hears() && !s'.closed {
      forall step | step in s'.heard ensures Announcement(step) in s'.output || Announcement(step) in s'.queue {
        if a.Deliver? && Announcement(step) in s.queue && Announcement(step) !in s.queue[1..] {
          assert Announcement(step) == s.queue[0];
        }
      }
    }
  }

  lemma {:induction false} DeliveryHolds(acts: seq<Action>)
    requires Run(Init(), acts).Some? && OrderlyRun(Init(), acts)
    ensures DeliveryInv(Run(Init(), acts).value)
  {
    if acts == [] {
    } else {
      DeliveryHolds(Front(acts));
      var s := Run(Init(), Front(acts)).value;
      StepsStep(s, Last(acts));
      StatusStep(s, Last(acts));
      EventsStep(s, Last(acts));
      PlaceStep(s, Last(acts));
      HeardStep(s, Last(acts));
    }
  }

  // ---- The two ways a stream ends -------------------------------------------------------------------------

  /** The replay went out in time, or the step was announced while the callback was attached. */
  predicate InTime(s: Stream, step: Step) {
    ReplaySent(s.at) || step in s.heard
  }

  lemma LiveEnd(s: Stream, step: Step)
    requires GapInv(s) && DeliveryInv(s) && s.Hears() && !s.closed
    requires s.queue != [] && s.queue[0].Terminal() && step in s.persisted
    ensures Announcement(step) in Apply(s, Deliver).output <==> InTime(s, step)
  {
    SameAnnouncement(step, step);
    assert s.queue[..0] == [];
    assert HasTerminal(s.queue);
  }

  /**
   * With a single worker, a stream that a published terminal event ends has delivered a persisted step if and
   * only if its replay was sent before, or the step was announced after its callback was attached.
   */
  lemma LiveEndIsComplete(acts: seq<Action>, step: Step)
    requires Run(Init(), acts + [Deliver]).Some? && OrderlyRun(Init(), acts)
    requires var s := Run(Init(), acts).value; !s.closed && s.queue[0].Terminal() && step in s.persisted
    ensures var s, s' := Run(Init(), acts).value, Run(Init(), acts + [Deliver]).value;
            s'.closed && (Announcement(step) in s'.output <==> InTime(s, step))
  {
    assert Front(acts + [Deliver]) == acts;
    GapHolds(acts);
    DeliveryHolds(acts);
    LiveEnd(Run(Init(), acts).value, step);
  }

  lemma StatusEnd(s: Stream, event: RunEvent, step: Step)
    requires GapInv(s) && DeliveryInv(s) && TerminalInv(s) && Enabled(s, SendFinal(event)) && !s.closed
    requires step in s.persisted
    ensures Announcement(step) !in Apply(s, SendFinal(event)).output <==>
              step !in s.at.snapshot && Announcement(step) in s.queue
  {
    SameAnnouncement(step, step);
    assert step in s.announced;
    if step in s.at.snapshot {
      assert Announcement(step) in s.output;
    } else {
      assert step in s.heard;
    }
  }

  /**
   * With a single worker, a stream that the handler's own status read ends has missed a persisted step if and
   * only if the step was not in the replay and its announcement is still queued.
   */
  lemma StatusEndMisses(acts: seq<Action>, event: RunEvent, step: Step)
    requires Run(Init(), acts + [SendFinal(event)]).Some? && OrderlyRun(Init(), acts)
    requires var s := Run(Init(), acts).value; !s.closed && step in s.persisted
    ensures var s, s' := Run(Init(), acts).value, Run(Init(), acts + [SendFinal(event)]).value;
            s'.closed
            && (Announcement(step) !in s'.output <==> step !in s.at.snapshot && Announcement(step) in s.queue)
  {
    assert Front(acts + [SendFinal(event)]) == acts;
    GapHolds(acts);
    DeliveryHolds(acts);
    OneTerminal(acts);
    StatusEnd(Run(Init(), acts).value, event, step);
  }

  // ---- Schedules that lose a step ----------------------------------------------------------------------------

  lemma RunSnoc(s: Stream, acts: seq<Action>, a: Action)
    requires Run(s, acts).Some? && Enabled(Run(s, acts).value, a)
    ensures Run(s, acts + [a]) == Some(Apply(Run(s, acts).value, a))
  {
    assert Front(acts + [a]) == acts;
  }

  /** One more orderly action on a schedule. */
  lemma Then(acts: seq<Action>, s: Stream, a: Action) returns (acts': seq<Action>, s': Stream)
    requires Run(Init(), acts) == Some(s) && OrderlyRun(Init(), acts) && Enabled(s, a) && Orderly(s, a)
    ensures acts' == acts + [a] && s' == Apply(s, a)
    ensures Run(Init(), acts') == Some(s') && OrderlyRun(Init(), acts')
  {
    RunSnoc(Init(), acts, a);
    assert Front(acts + [a]) == acts;
    acts', s' := acts + [a], Apply(s, a);
  }

  function FirstStep(): (step: Step) {
    Llm(0, "", [], Usage(1, 1, 0, 0), 0)
  }

  function Greeting(): (e: RunEvent) {
    RunStarted("run", "thread", "model")
  }

  /** A client that connects before anything has happened. */
  lemma Connected() returns (acts: seq<Action>, s: Stream)
    ensures Run(Init(), acts) == Some(s) && OrderlyRun(Init(), acts)
    ensures s == Stream([], {}, {}, Running, 0, Listening, [], [], false)
  {
    acts, s := Then([], Init(), Subscribe);
    acts, s := Then(acts, s, Attach);
  }

  /** The worker writes its only step and finishes. */
  lemma Worked(acts: seq<Action>, s: Stream) returns (acts': seq<Action>, s': Stream)
    requires Run(Init(), acts) == Some(s) && OrderlyRun(Init(), acts)
    requires s.persisted == [] && s.announced == {} && s.status.Running? && s.Hears()
    ensures Run(Init(), acts') == Some(s') && OrderlyRun(Init(), acts')
    ensures var step := FirstStep();
            s' == s.(persisted := [step], announced := {step}, heard := s.heard + {step}, status := Done,
                     owed := s.owed + 1, queue := s.queue + [Announcement(step)])
  {
    acts', s' := Then(acts, s, Persist(FirstStep()));
    acts', s' := Then(acts', s', Announce(FirstStep()));
    acts', s' := Then(acts', s', CommitStatus(Done));
  }

  /** The handler sends its replay and reads the status. */
  lemma ReplayedAndRead(acts: seq<Action>, s: Stream) returns (acts': seq<Action>, s': Stream)
    requires Run(Init(), acts) == Some(s) && OrderlyRun(Init(), acts)
    requires s.at.GotSteps? && !s.closed
    ensures Run(Init(), acts') == Some(s') && OrderlyRun(Init(), acts')
    ensures s' == s.(at := GotStatus(s.at.snapshot, true, s.status), output := s.output + StepsToEvents(s.at.snapshot))
  {
    acts', s' := Then(acts, s, SendReplay);
    acts', s' := Then(acts', s', ReadStatus);
  }

  /** Published between the step read and the status read, the step is lost to a stream its status read ends. */
  lemma StatusEndCanMissAStep() returns (acts: seq<Action>)
    ensures Run(Init(), acts).Some? && OrderlyRun(Init(), acts)
    ensures var s := Run(Init(), acts).value;
            FirstStep() in s.persisted && s.closed && HasTerminal(s.output) && Announcement(FirstStep()) !in s.output
  {
    var s;
    acts, s := Connected();
    acts, s := Then(acts, s, Greet("run", "thread", "model"));
    acts, s := Then(acts, s, ReadSteps);
    acts, s := Worked(acts, s);
    acts, s := ReplayedAndRead(acts, s);
    assert StepsToEvents([]) == [];
    acts, s := Then(acts, s, SendFinal(RunCompleted(0, 0)));
    assert s.output == [Greeting(), RunCompleted(0, 0)];
    assert s.output[1].Terminal();
  }

  /** Announced before the callback, the step is lost to a stream that the terminal event ends before its replay. */
  lemma LiveEndCanMissAStep() returns (acts: seq<Action>)
    ensures Run(Init(), acts).Some? && OrderlyRun(Init(), acts)
    ensures var s := Run(Init(), acts).value;
            FirstStep() in s.persisted && s.closed && s.output == [RunCompleted(0, 0)]
  {
    var step := FirstStep();
    var s;
    acts, s := Then([], Init(), Persist(step));
    acts, s := Then(acts, s, Announce(step));
    assert s == Stream([step], {step}, {}, Running, 0, Opening, [], [], false);
    acts, s := Then(acts, s, Subscribe);
    acts, s := Then(acts, s, Attach);
    acts, s := EndedLive(acts, s);
  }

  lemma EndedLive(acts: seq<Action>, s: Stream) returns (acts': seq<Action>, s': Stream)
    requires Run(Init(), acts) == Some(s) && OrderlyRun(Init(), acts)
    requires s == Stream([FirstStep()], {FirstStep()}, {}, Running, 0, Listening, [], [], false)
    ensures Run(Init(), acts') == Some(s') && OrderlyRun(Init(), acts')
    ensures s'.persisted == s.persisted && s'.closed && s'.output == [RunCompleted(0, 0)]
  {
    acts', s' := Then(acts, s, CommitStatus(Done));
    acts', s' := Then(acts', s', PublishTerminal(RunCompleted(0, 0)));
    acts', s' := Then(acts', s', Deliver);
  }

  /** Read by the handler and still queued, the step is not missed: the replay has written it. */
  lemma QueuedButReplayed() returns (acts: seq<Action>)
    ensures Run(Init(), acts).Some? && OrderlyRun(Init(), acts)
    ensures var s := Run(Init(), acts).value;
            && s.at.GotStatus? && !s.closed
            && Announcement(FirstStep()) in s.queue && Announcement(FirstStep()) in s.output
  {
    var s;
    acts, s := Connected();
    acts, s := Worked(acts, s);
    acts, s := Then(acts, s, Greet("run", "thread", "model"));
    acts, s := Then(acts, s, ReadSteps);
    SendsAnnouncement([FirstStep()], FirstStep());
    acts, s := ReplayedAndRead(acts, s);
  }
}
