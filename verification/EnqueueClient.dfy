/**
 * The Console's socket client. Timers, response chunks and socket errors race; whichever comes first
 * settles the call, every later one is ignored, and the in-flight count follows.
 */
module EnqueueClient {
  import opened Wrappers

  const MAX_IN_FLIGHT := 8
  const MAX_RESPONSE_BYTES := 1024

  datatype Outcome = Enqueued | Unconfirmed | NotEnqueued

  /** The parsed acknowledgement body: the job it names and its outcome. */
  datatype Ack = Ack(job: nat, outcome: Outcome)

  datatype Call = Call(job: nat, length: nat, reading: bool, settled: Option<Outcome>)

  datatype Event =
    | Deadline
    | SocketError
    | Response(acceptable: bool)
    | Chunk(bytes: nat)
    | End(ack: Option<Ack>)

  /** Calls not settled yet. */
  function Open(calls: map<nat, Call>): set<nat> {
    set c | c in calls && calls[c].settled.None?
  }

  /** What an event would settle a call with, if it were the first to do so. */
  function Verdict(call: Call, event: Event): Option<Outcome> {
    match event
    case Deadline => Some(Unconfirmed)
    case SocketError => Some(Unconfirmed)
    case Response(acceptable) => if acceptable then None else Some(Unconfirmed)
    case Chunk(bytes) => if call.reading && call.length + bytes > MAX_RESPONSE_BYTES then Some(Unconfirmed) else None
    case End(ack) =>
      if !call.reading then None
      else if ack.Some? && ack.value.job == call.job then Some(ack.value.outcome) else Some(Unconfirmed)
  }

  /** The length is counted before it is compared with the limit. */
  function Progress(call: Call, event: Event): Call {
    if event.Response? && event.acceptable then call.(reading := true)
    else if event.Chunk? && call.reading then call.(length := call.length + event.bytes)
    else call
  }

  /** The specification of one call: the first verdict of its event sequence decides. */
  function Settle(call: Call, events: seq<Event>): Call
    decreases |events|
  {
    if events == [] || call.settled.Some? then call
    else
      var verdict := Verdict(call, events[0]);
      Settle(Progress(call, events[0]).(settled := verdict), events[1..])
  }

  function Opened(job: nat): Call { Call(job, 0, false, None) }

  class Client {
    var inFlight: nat
    var calls: map<nat, Call>
    ghost var seen: map<nat, seq<Event>>

    /** The counter is the number of unsettled calls, and every call is what its own events made of it. */
    ghost predicate Valid()
      reads this
    {
      && inFlight == |Open(calls)| <= MAX_IN_FLIGHT
      && seen.Keys == calls.Keys
      && forall id | id in calls :: calls[id] == Settle(Opened(calls[id].job), seen[id])
    }

    constructor ()
      ensures Valid() && calls == map[]
    {
      inFlight, calls, seen := 0, map[], map[];
      new;
      assert Open(calls) == {};
    }

    /** A ninth call is declined before the socket is opened. */
    method Begin(id: nat, job: nat) returns (declined: bool)
      requires Valid() && id !in calls
      modifies this
      ensures Valid()
      ensures declined <==> |Open(old(calls))| == MAX_IN_FLIGHT
      ensures calls == if declined then old(calls) else old(calls)[id := Opened(job)]
    {
      if inFlight >= MAX_IN_FLIGHT { return true; }
      inFlight := inFlight + 1;
      calls := calls[id := Opened(job)];
      seen := seen[id := []];
      assert Open(calls) == Open(old(calls)) + {id};
      declined := false;
    }

    /** Settles at most once: a settled call and the counter are left alone. */
    method Finish(id: nat, outcome: Outcome)
      requires id in calls && inFlight == |Open(calls)|
      modifies this`calls, this`inFlight
      ensures inFlight == |Open(calls)| <= old(inFlight)
      ensures calls == if old(calls)[id].settled.Some? then old(calls)
                       else old(calls)[id := old(calls)[id].(settled := Some(outcome))]
    {
      if calls[id].settled.Some? { return; }
      calls := calls[id := calls[id].(settled := Some(outcome))];
      assert Open(old(calls)) == Open(calls) + {id} && id !in Open(calls);
      inFlight := inFlight - 1;
    }

    /** One event of the socket, the response or the deadline. */
    method Handle(id: nat, event: Event)
      requires id in calls && inFlight == |Open(calls)| <= MAX_IN_FLIGHT
      modifies this`calls, this`inFlight
      ensures inFlight == |Open(calls)| <= MAX_IN_FLIGHT
      ensures calls == old(calls)[id := Settle(old(calls)[id], [event])]
    {
      var call := calls[id];
      if call.settled.Some? {
      } else if event.Deadline? || event.SocketError? {
        Finish(id, Unconfirmed);
      } else if event.Response? {
        if event.acceptable { Update(id, call.(reading := true)); } else { Finish(id, Unconfirmed); }
      } else if call.reading && event.Chunk? {
        Update(id, call.(length := call.length + event.bytes));
        if call.length + event.bytes > MAX_RESPONSE_BYTES { Finish(id, Unconfirmed); }
      } else if call.reading && event.End? {
        Finish(id, if event.ack.Some? && event.ack.value.job == call.job then event.ack.value.outcome else Unconfirmed);
      }
    }

    method Deliver(id: nat, event: Event)
      requires Valid() && id in calls
      modifies this
      ensures Valid() && calls.Keys == old(calls).Keys && calls[id].job == old(calls)[id].job
      ensures calls == old(calls)[id := Settle(old(calls)[id], [event])]
      ensures seen == old(seen)[id := old(seen)[id] + [event]]
    {
      SettleSplits(Opened(calls[id].job), seen[id], [event]);
      Handle(id, event);
      seen := seen[id := seen[id] + [event]];
    }

    method Update(id: nat, call: Call)
      requires id in calls && calls[id].settled.None? && call.settled.None?
      modifies this`calls
      ensures calls == old(calls)[id := call] && Open(calls) == Open(old(calls))
    {
      calls := calls[id := call];
      assert Open(calls) == Open(old(calls));
    }
  }

  lemma {:induction false} SettleSplits(call: Call, front: seq<Event>, back: seq<Event>)
    ensures Settle(call, front + back) == Settle(Settle(call, front), back)
    decreases |front|
  {
    if front == [] {
      assert front + back == back;
    } else if call.settled.None? {
      assert (front + back)[1..] == front[1..] + back;
      SettleSplits(Progress(call, front[0]).(settled := Verdict(call, front[0])), front[1..], back);
    }
  }

  /** Once settled, no later event changes the outcome. */
  lemma FirstOutcomeStands(call: Call, front: seq<Event>, back: seq<Event>)
    requires Settle(call, front).settled.Some?
    ensures Settle(call, front + back) == Settle(call, front)
  {
    SettleSplits(call, front, back);
  }

  /**
   * An outcome other than `Unconfirmed` was read from a matching acknowledgement, after an acceptable
   * response, before any deadline or error, and within the response limit.
   */
  lemma {:induction false} OutcomesComeFromMatchingAcks(call: Call, events: seq<Event>)
    requires call.settled.None? && Settle(call, events).settled.Some?
    requires !Settle(call, events).settled.value.Unconfirmed?
    ensures exists i ::
              && 0 <= i < |events| && events[i] == End(Some(Ack(call.job, Settle(call, events).settled.value)))
              && (call.reading || exists k :: 0 <= k < i && events[k] == Response(true))
              && (forall k | 0 <= k < i :: !events[k].Deadline? && !events[k].SocketError? && events[k] != Response(false))
              && Settle(call, events).length <= if call.length <= MAX_RESPONSE_BYTES then MAX_RESPONSE_BYTES else call.length
    decreases |events|
  {
    if Verdict(call, events[0]).Some? {
      assert events[0] == End(Some(Ack(call.job, Settle(call, events).settled.value)));
    } else {
      var next := Progress(call, events[0]);
      OutcomesComeFromMatchingAcks(next, events[1..]);
      var i :| 0 <= i < |events[1..]|
               && events[1..][i] == End(Some(Ack(next.job, Settle(next, events[1..]).settled.value)))
               && (next.reading || exists k :: 0 <= k < i && events[1..][k] == Response(true))
               && (forall k | 0 <= k < i :: !events[1..][k].Deadline? && !events[1..][k].SocketError? && events[1..][k] != Response(false));
      assert events[i + 1] == events[1..][i];
      if !call.reading {
        if events[0] == Response(true) {
          assert events[0] == Response(true);
        } else {
          var k :| 0 <= k < i && events[1..][k] == Response(true);
          assert events[k + 1] == Response(true);
        }
      }
      forall k | 0 <= k < i + 1
        ensures !events[k].Deadline? && !events[k].SocketError? && events[k] != Response(false)
      {
        if k > 0 { assert events[k] == events[1..][k - 1]; }
      }
    }
  }

  function Bytes(chunks: seq<Event>): nat {
    if chunks == [] then 0 else (if chunks[0].Chunk? then chunks[0].bytes else 0) + Bytes(chunks[1..])
  }

  lemma {:induction false} ChunksThenAck(call: Call, chunks: seq<Event>, outcome: Outcome)
    requires call.settled.None? && call.reading && call.length <= MAX_RESPONSE_BYTES
    requires forall i :: 0 <= i < |chunks| ==> chunks[i].Chunk?
    ensures Settle(call, chunks + [End(Some(Ack(call.job, outcome)))]).settled ==
            Some(if call.length + Bytes(chunks) <= MAX_RESPONSE_BYTES then outcome else Unconfirmed)
    decreases |chunks|
  {
    var end := End(Some(Ack(call.job, outcome)));
    if chunks == [] {
      assert chunks + [end] == [end];
    } else {
      assert (chunks + [end])[1..] == chunks[1..] + [end];
      if call.length + chunks[0].bytes <= MAX_RESPONSE_BYTES {
        ChunksThenAck(Progress(call, chunks[0]), chunks[1..], outcome);
      }
    }
  }

  /** A matching acknowledgement in an acceptable response decides exactly if the response is within its limit. */
  lemma MatchingAcksDecide(job: nat, chunks: seq<Event>, outcome: Outcome, later: seq<Event>)
    requires forall i :: 0 <= i < |chunks| ==> chunks[i].Chunk?
    ensures Settle(Opened(job), [Response(true)] + chunks + [End(Some(Ack(job, outcome)))] + later).settled ==
            Some(if Bytes(chunks) <= MAX_RESPONSE_BYTES then outcome else Unconfirmed)
  {
    var events := [Response(true)] + chunks + [End(Some(Ack(job, outcome)))];
    ChunksThenAck(Opened(job).(reading := true), chunks, outcome);
    assert events[1..] == chunks + [End(Some(Ack(job, outcome)))];
    FirstOutcomeStands(Opened(job), events, later);
  }
}
