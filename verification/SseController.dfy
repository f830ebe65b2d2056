// The handler's side of one stream: the response, its `closed` flag and the callbacks that write to it.
module SseController {
  import opened Prelude
  import opened RunSteps
  import opened RunEvents
  import opened Sse

  lemma ReplayEffect(s: Stream)
    requires s.at.GotSteps?
    ensures var s' := Apply(s, SendReplay);
            && s'.closed == s.closed
            && s'.output == if s.closed then s.output else s.output + StepsToEvents(s.at.snapshot)
  {
  }

  class EventStream {
    var output: seq<RunEvent>
    var closed: bool

    constructor ()
      ensures output == [] && !closed
    {
      output, closed := [], false;
    }

    /** This response is the response of the stream state `s`. */
    ghost predicate Shows(s: Stream)
      reads this
    {
      output == s.output && closed == s.closed
    }

    method Write(e: RunEvent)
      modifies this`output
      ensures output == if closed then old(output) else old(output) + [e]
    {
      if closed { return; }
      output := output + [e];
    }

    method Cleanup()
      modifies this`closed
      ensures closed
    {
      if closed { return; }
      closed := true;
    }

    method Greeting(ghost s: Stream, runId: string, threadId: string, modelId: string)
      requires Shows(s) && s.at.Listening?
      modifies this
      ensures Shows(Apply(s, Greet(runId, threadId, modelId)))
      ensures closed == old(closed)
      ensures output == old(output) + (if old(closed) then [] else [RunStarted(runId, threadId, modelId)])
    {
      Write(RunStarted(runId, threadId, modelId));
    }

    /** The subscription callback. */
    method OnMessage(ghost s: Stream, e: RunEvent)
      requires Shows(s) && s.Hears() && s.queue != [] && e == s.queue[0]
      modifies this
      ensures Shows(Apply(s, Deliver))
      ensures closed == (old(closed) || e.RunCompleted? || e.RunFailed?)
      ensures output == old(output) + (if old(closed) then [] else [e])
    {
      if closed { return; }
      Write(e);
      if e.Terminal() { Cleanup(); }
    }

    /** Sends the persisted steps, event by event; a stream closed meanwhile stays as it is. */
    method Replay(ghost s: Stream, steps: seq<Step>)
      requires Shows(s) && s.at == GotSteps(steps)
      modifies this
      ensures Shows(Apply(s, SendReplay))
      ensures closed == old(closed) && old(output) <= output
      ensures !closed && DistinctIndices(steps) ==> AllPlaced(output[|old(output)|..], steps)
      ensures |output| == |old(output)| + (if closed then 0 else Size(steps))
    {
      ReplayEffect(s);
      var events := MapStepsToEvents(steps);
      for k := 0 to |events|
        invariant closed == old(closed)
        invariant output == if closed then old(output) else old(output) + events[..k]
      {
        TakeOneMore(events, k);
        SnocAssociates(old(output), events[..k], events[k]);
        Write(events[k]);
      }
      TakeAll(events);
      assert !closed ==> output[|old(output)|..] == events;
    }

    /** After the status read: a final run gets its terminal event and the stream ends here. */
    method Finish(ghost s: Stream, status: Status, cost: nat, credits: nat, error: string, refunded: bool)
      requires Shows(s) && s.at.GotStatus? && s.at.status == status
      modifies this
      ensures match status
              case Running => Shows(Apply(s, KeepOpen))
              case Done => Shows(Apply(s, SendFinal(RunCompleted(cost, credits))))
              case Failed => Shows(Apply(s, SendFinal(RunFailed(error, refunded))))
      ensures closed == (old(closed) || !status.Running?)
      ensures old(closed) || status.Running? ==> output == old(output)
      ensures !old(closed) && status.Done? ==> output == old(output) + [RunCompleted(cost, credits)]
      ensures !old(closed) && status.Failed? ==> output == old(output) + [RunFailed(error, refunded)]
    {
      match status {
        case Running =>
        case Done =>
          Write(RunCompleted(cost, credits));
          Cleanup();
        case Failed =>
          Write(RunFailed(error, refunded));
          Cleanup();
      }
    }
  }
}
