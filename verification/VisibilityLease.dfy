/**
 * The visibility lease of one delivery. Time is an integer number of milliseconds on the runner's
 * monotonic clock. The queue server's clock differs by an unknown constant `skew`; `visibleUntil` is
 * the moment, on the runner's clock, at which the server really shows the message to others again.
 *
 * `select` picks any ready case, so a run is any sequence of events that could have been ready.
 */
module VisibilityLease {
  import opened Wrappers

  const VISIBILITY := 180_000
  const MARGIN := 30_000
  const PUBLISH_DEADLINE := 2_000
  const HEARTBEAT := 30_000

  datatype Cause = LeaseFinished | LeaseLost | ParentStopped

  /** What the watcher saw when it relied on the lease: the time, and the limit it compared it with. */
  datatype Observation =
    | RenewalStarted(at: int, limit: int)
    | RenewalAdopted(at: int, limit: int, next: int)
    | WorkFinished(at: int, limit: int)

  datatype Lease = Lease(clock: int, until: int, expires: int, pending: Option<int>, cause: Option<Cause>,
                         running: bool, visibleUntil: int, skew: int, seen: seq<Observation>)

  datatype Event =
    | ParentCancels(now: int)
    | ServerRenews(now: int)
    | SeeDone(now: int)
    | SeeFinished(now: int)
    | SeeTimer(now: int)
    | SeeTimeout(now: int)
    | SeeTicker(now: int)
    | SeeRenewal(now: int, processed: int, failed: bool)

  function Min(a: int, b: int): int { if a <= b then a else b }

  function SafeVisibility(now: int, started: int, visible: int, expires: int): int {
    var remaining := Min(Min(visible - now, expires - now), started + VISIBILITY - now) - MARGIN;
    now + remaining
  }

  /** A context keeps its first cause. */
  function Cancel(s: Lease, cause: Cause): Lease {
    if s.cause.Some? then s else s.(cause := Some(cause))
  }

  function Stop(s: Lease, cause: Cause): Lease {
    Cancel(s, cause).(running := false)
  }

  /** The renewal call's context is over: its parent was cancelled, or its deadline was reached. */
  predicate RpcOver(s: Lease, now: int) {
    s.cause.Some? || (s.pending.Some? && now >= s.pending.value + PUBLISH_DEADLINE)
  }

  /** Which events can be next. A renewal the server answered was processed after it was started. */
  predicate CanHappen(s: Lease, e: Event) {
    && s.running && s.clock <= e.now
    && match e
       case ParentCancels(_) => true
       case ServerRenews(now) => s.pending.Some?
       case SeeDone(_) => s.cause.Some?
       case SeeFinished(_) => true
       // Even a tick from before a reset only ends the lease.
       case SeeTimer(_) => true
       case SeeTimeout(now) => s.pending.Some? && RpcOver(s, now)
       case SeeTicker(_) => true
       case SeeRenewal(now, processed, failed) =>
         s.pending.Some? &&
         (!failed ==> s.pending.value <= processed <= now && processed + VISIBILITY <= s.visibleUntil)
  }

  function Next(s0: Lease, e: Event): Lease {
    var s := s0.(clock := e.now);
    match e
    case ParentCancels(_) => Cancel(s, ParentStopped)
    case ServerRenews(now) => s.(visibleUntil := now + VISIBILITY)
    case SeeDone(_) => s.(running := false)
    case SeeFinished(now) =>
      if now < s.until && !(s.pending.Some? && RpcOver(s, now))
      then Stop(s, LeaseFinished).(seen := if s.cause.None? then s.seen + [WorkFinished(now, s.until)] else s.seen)
      else Stop(s, LeaseLost)
    case SeeTimer(_) => Stop(s, LeaseLost)
    case SeeTimeout(_) => Stop(s, LeaseLost)
    case SeeTicker(now) =>
      if s.pending.Some? then s
      else if now >= s.until then Stop(s, LeaseLost)
      else s.(pending := Some(now), seen := s.seen + [RenewalStarted(now, s.until)])
    case SeeRenewal(now, processed, failed) =>
      if s.pending.None? then s
      else
        var next := SafeVisibility(now, s.pending.value, processed + VISIBILITY + s.skew, s.expires);
        if failed || RpcOver(s, now) || now - s.pending.value >= PUBLISH_DEADLINE || now >= s.until || next <= now
        then Stop(s.(pending := None), LeaseLost)
        else s.(pending := None, until := next, seen := s.seen + [RenewalAdopted(now, s.until, next)])
  }

  function Run(s: Lease, events: seq<Event>): Lease
    decreases |events|
  {
    if events == [] then s else Run(Next(s, events[0]), events[1..])
  }

  predicate Possible(s: Lease, events: seq<Event>)
    decreases |events|
  {
    events == [] || (CanHappen(s, events[0]) && Possible(Next(s, events[0]), events[1..]))
  }

  /** A delivery read by a poll that the server processed at `processed`. */
  datatype Delivery = Delivery(readStarted: int, processed: int, visibleAfter: int, expireAfter: int)

  /** The server reports its own clock; the poll was processed while it was under way. */
  predicate FromServer(d: Delivery, skew: int, now: int) {
    && d.readStarted <= d.processed <= now
    && d.visibleAfter == d.processed + VISIBILITY + skew
  }

  function Begin(d: Delivery, skew: int, now: int): Lease {
    Lease(now, SafeVisibility(now, d.readStarted, d.visibleAfter, d.expireAfter), d.expireAfter, None, None, true,
          d.processed + VISIBILITY, skew, [])
  }

  // ---------------------------------------------------------------- safety

  predicate Sound(o: Observation, visibleUntil: int) {
    o.at < o.limit && o.limit + MARGIN <= visibleUntil
    && (o.RenewalAdopted? ==> o.at < o.next && o.next + MARGIN <= visibleUntil)
  }

  predicate Safe(s: Lease) {
    && s.until + MARGIN <= s.visibleUntil && s.until + MARGIN <= s.expires
    && (s.pending.Some? ==> s.pending.value <= s.clock)
    && s.visibleUntil <= s.clock + VISIBILITY
    && (forall i :: 0 <= i < |s.seen| ==> Sound(s.seen[i], s.visibleUntil))
    && (s.cause == Some(LeaseFinished) ==> !s.running && s.seen != [] && s.seen[|s.seen| - 1] == WorkFinished(s.clock, s.until))
  }

  lemma StepIsSafe(s: Lease, e: Event)
    requires Safe(s) && CanHappen(s, e)
    ensures Safe(Next(s, e)) && s.visibleUntil <= Next(s, e).visibleUntil
  {
  }

  lemma {:induction false} RunIsSafe(s: Lease, events: seq<Event>)
    requires Safe(s) && Possible(s, events)
    ensures Safe(Run(s, events)) && s.visibleUntil <= Run(s, events).visibleUntil
    decreases |events|
  {
    if events == [] {
    } else {
      StepIsSafe(s, events[0]);
      RunIsSafe(Next(s, events[0]), events[1..]);
    }
  }

  /**
   * For every interleaving and every clock offset: each renewal was started and adopted strictly
   * before the limit in force, the limit stays a full margin short of the true visibility end, and a
   * lease that ended as finished was seen to finish while the message was still hidden.
   */
  lemma LeaseIsSafe(d: Delivery, skew: int, now: int, events: seq<Event>)
    requires FromServer(d, skew, now) && Possible(Begin(d, skew, now), events)
    ensures var s := Run(Begin(d, skew, now), events);
            && s.until + MARGIN <= s.visibleUntil && s.until + MARGIN <= d.expireAfter
            && (forall i :: 0 <= i < |s.seen| ==> Sound(s.seen[i], s.visibleUntil))
            && (s.cause == Some(LeaseFinished) ==>
                  !s.running && s.clock < s.until && s.clock + MARGIN < s.visibleUntil && s.clock + MARGIN < d.expireAfter)
  {
    RunIsSafe(Begin(d, skew, now), events);
    ExpiryIsFixed(Begin(d, skew, now), events);
    var s := Run(Begin(d, skew, now), events);
    if s.cause == Some(LeaseFinished) { assert Sound(s.seen[|s.seen| - 1], s.visibleUntil); }
  }

  lemma {:induction false} ExpiryIsFixed(s: Lease, events: seq<Event>)
    ensures Run(s, events).expires == s.expires
    decreases |events|
  {
    if events != [] { ExpiryIsFixed(Next(s, events[0]), events[1..]); }
  }

  // ---------------------------------------------------------------- progress

  /** The limit in force comes from a read or renewal started at `a` and processed at `p`. */
  predicate DatedBy(s: Lease, a: int, p: int) {
    && a <= p <= s.clock && (s.pending.Some? ==> p <= s.pending.value <= s.clock)
    && s.until == Min(Min(p + VISIBILITY + s.skew, s.expires), a + VISIBILITY) - MARGIN
  }

  ghost predicate Dated(s: Lease) {
    exists a, p :: DatedBy(s, a, p)
  }

  /** A renewal that was adopted moved the limit on, or left it where it was. */
  predicate MovesOn(o: Observation) { o.RenewalAdopted? ==> o.limit <= o.next }

  lemma StepMovesOn(s: Lease, e: Event)
    requires Dated(s) && CanHappen(s, e)
    ensures Dated(Next(s, e)) && s.until <= Next(s, e).until
    ensures Next(s, e).seen == s.seen || (exists o :: MovesOn(o) && Next(s, e).seen == s.seen + [o])
  {
    var a, p :| DatedBy(s, a, p);
    var t := Next(s, e);
    if e.SeeRenewal? && t.until != s.until {
      assert DatedBy(t, s.pending.value, e.processed);
    } else {
      assert DatedBy(t, a, p);
    }
    if t.seen != s.seen {
      assert t.seen == s.seen + [t.seen[|s.seen|]] && MovesOn(t.seen[|s.seen|]);
    }
  }

  /** Whatever the clocks of the two sides, a renewal never shortens a lease. */
  lemma {:induction false} RenewalsNeverShorten(s: Lease, events: seq<Event>)
    requires Dated(s) && Possible(s, events) && forall i :: 0 <= i < |s.seen| ==> MovesOn(s.seen[i])
    ensures Dated(Run(s, events)) && s.until <= Run(s, events).until
    ensures forall i :: 0 <= i < |Run(s, events).seen| ==> MovesOn(Run(s, events).seen[i])
    decreases |events|
  {
    if events != [] {
      StepMovesOn(s, events[0]);
      RenewalsNeverShorten(Next(s, events[0]), events[1..]);
    }
  }

  lemma LeasesBeginDated(d: Delivery, skew: int, now: int)
    requires FromServer(d, skew, now)
    ensures Dated(Begin(d, skew, now))
  {
    assert DatedBy(Begin(d, skew, now), d.readStarted, d.processed);
  }

  /** One renewal: when it was started, processed by the server, and answered. */
  datatype Beat = Beat(started: int, processed: int, answered: int)

  /** Each renewal starts within two heartbeats of the one before, is answered in time, and well before the expiry. */
  predicate Healthy(start: int, clock: int, expires: int, beats: seq<Beat>)
    decreases |beats|
  {
    beats == [] ||
    var b := beats[0];
    && clock <= b.started <= b.processed <= b.answered
    && b.started <= start + 2 * HEARTBEAT && b.answered < b.started + PUBLISH_DEADLINE && b.answered < expires - MARGIN
    && Healthy(b.started, b.answered, expires, beats[1..])
  }

  function EventsOf(beats: seq<Beat>): seq<Event>
    decreases |beats|
  {
    if beats == [] then []
    else [SeeTicker(beats[0].started), ServerRenews(beats[0].processed), SeeRenewal(beats[0].answered, beats[0].processed, false)]
         + EventsOf(beats[1..])
  }

  function LastStart(start: int, beats: seq<Beat>): int {
    if beats == [] then start else beats[|beats| - 1].started
  }

  /** The limit reaches far enough past the last read or renewal, or to the expiry. */
  predicate Fresh(s: Lease, start: int) {
    && s.running && s.cause.None? && s.pending.None? && s.visibleUntil <= s.clock + VISIBILITY
    && s.until >= Min(start + 70_000, s.expires - MARGIN)
  }

  /** One healthy renewal is adopted, and the lease is fresh from its start on. */
  lemma BeatRenews(s: Lease, start: int, b: Beat, tail: seq<Event>)
    requires Fresh(s, start) && s.skew >= -80_000 && Healthy(start, s.clock, s.expires, [b])
    ensures var events := [SeeTicker(b.started), ServerRenews(b.processed), SeeRenewal(b.answered, b.processed, false)];
            var t := Next(Next(Next(s, events[0]), events[1]), events[2]);
            && Fresh(t, b.started) && t.clock == b.answered && t.skew == s.skew && t.expires == s.expires
            && Run(s, events + tail) == Run(t, tail) && (Possible(t, tail) ==> Possible(s, events + tail))
  {
    var events := [SeeTicker(b.started), ServerRenews(b.processed), SeeRenewal(b.answered, b.processed, false)];
    var s1 := Next(s, events[0]);
    var s2 := Next(s1, events[1]);
    assert CanHappen(s, events[0]) && CanHappen(s1, events[1]) && CanHappen(s2, events[2]);
    assert (events + tail)[1..] == events[1..] + tail && (events[1..] + tail)[1..] == events[2..] + tail;
    assert (events[2..] + tail)[1..] == tail;
    assert Run(s, events + tail) == Run(s1, events[1..] + tail) == Run(s2, events[2..] + tail);
  }

  lemma {:induction false} BeatsKeepTheLease(s: Lease, start: int, beats: seq<Beat>, end: int)
    requires Fresh(s, start) && s.skew >= -80_000 && Healthy(start, s.clock, s.expires, beats)
    requires (if beats == [] then s.clock else beats[|beats| - 1].answered) <= end
    requires end <= LastStart(start, beats) + 2 * HEARTBEAT && end < s.expires - MARGIN
    ensures Possible(s, EventsOf(beats) + [SeeFinished(end)])
    ensures Run(s, EventsOf(beats) + [SeeFinished(end)]).cause == Some(LeaseFinished)
    decreases |beats|
  {
    if beats == [] {
      assert EventsOf(beats) + [SeeFinished(end)] == [SeeFinished(end)];
    } else {
      var b, tail := beats[0], EventsOf(beats[1..]) + [SeeFinished(end)];
      BeatRenews(s, start, b, tail);
      var events := [SeeTicker(b.started), ServerRenews(b.processed), SeeRenewal(b.answered, b.processed, false)];
      assert EventsOf(beats) + [SeeFinished(end)] == events + tail;
      BeatsKeepTheLease(Next(Next(Next(s, events[0]), events[1]), events[2]), b.started, beats[1..], end);
    }
  }

  /**
   * A lease that is renewed at its heartbeats, with one beat in two lost and the server's clock up to 80 s behind, lasts
   * as long as the work does, up to the margin before the message expires; then it ends as finished.
   */
  lemma HealthyLeasesFinish(d: Delivery, skew: int, now: int, beats: seq<Beat>, end: int)
    requires FromServer(d, skew, now) && skew >= -80_000 && Healthy(d.readStarted, now, d.expireAfter, beats)
    requires (if beats == [] then now else beats[|beats| - 1].answered) <= end
    requires end <= LastStart(d.readStarted, beats) + 2 * HEARTBEAT && end < d.expireAfter - MARGIN
    ensures Possible(Begin(d, skew, now), EventsOf(beats) + [SeeFinished(end)])
    ensures Run(Begin(d, skew, now), EventsOf(beats) + [SeeFinished(end)]).cause == Some(LeaseFinished)
  {
    BeatsKeepTheLease(Begin(d, skew, now), d.readStarted, beats, end);
  }

  // ---------------------------------------------------------------- the event loop

  class Watcher {
    var until: int
    var expires: int
    var pending: Option<int>
    var cause: Option<Cause>
    var running: bool
    ghost var clock: int
    ghost var visibleUntil: int
    ghost var seen: seq<Observation>
    const skew: int

    ghost function State(): Lease
      reads this
    {
      Lease(clock, until, expires, pending, cause, running, visibleUntil, skew, seen)
    }

    constructor (d: Delivery, skew: int, now: int)
      ensures State() == Begin(d, skew, now)
    {
      this.skew := skew;
      until, expires := SafeVisibility(now, d.readStarted, d.visibleAfter, d.expireAfter), d.expireAfter;
      pending, cause, running := None, None, true;
      clock, visibleUntil, seen := now, d.processed + VISIBILITY, [];
    }

    method CancelWith(c: Cause)
      modifies this`cause
      ensures State() == Cancel(old(State()), c)
    {
      if cause.None? { cause := Some(c); }
    }

    /** One pass of the select. */
    method Select(e: Event)
      requires CanHappen(State(), e)
      modifies this
      ensures State() == Next(old(State()), e)
    {
      clock := e.now;
      match e
      case ParentCancels(_) => CancelWith(ParentStopped);
      case ServerRenews(now) => visibleUntil := now + VISIBILITY;
      case SeeDone(_) => running := false;
      case SeeFinished(now) =>
        var renewalExpired := false;
        if pending.Some? { renewalExpired := cause.Some? || now >= pending.value + PUBLISH_DEADLINE; }
        if now < until && !renewalExpired {
          if cause.None? { seen := seen + [WorkFinished(now, until)]; }
          CancelWith(LeaseFinished);
        } else {
          CancelWith(LeaseLost);
        }
        running := false;
      case SeeTimer(_) =>
        CancelWith(LeaseLost);
        running := false;
      case SeeTimeout(_) =>
        CancelWith(LeaseLost);
        running := false;
      case SeeTicker(now) =>
        if pending.None? {
          if !(now < until) {
            CancelWith(LeaseLost);
            running := false;
          } else {
            pending := Some(now);
            seen := seen + [RenewalStarted(now, until)];
          }
        }
      case SeeRenewal(now, processed, failed) =>
        var started := pending.value;
        var next := SafeVisibility(now, started, processed + VISIBILITY + skew, expires);
        var lost := failed || cause.Some? || now - started >= PUBLISH_DEADLINE || !(now < until) || !(next > now);
        pending := None;
        if lost {
          CancelWith(LeaseLost);
          running := false;
        } else {
          seen := seen + [RenewalAdopted(now, until, next)];
          until := next;
        }
    }

    /**
     * The watch loop, then the drain: an unanswered renewal that outlives the drain timer leaves the
     * slot unusable. `settled` says that the loop was left, rather than waiting for its next event.
     */
    method Watch(events: seq<Event>, drained: bool) returns (settled: bool, stalled: bool)
      requires Possible(State(), events)
      modifies this
      ensures State() == Run(old(State()), events)
      ensures settled <==> !State().running
      ensures stalled <==> settled && State().pending.Some? && !drained
    {
      var i := 0;
      while i < |events|
        invariant 0 <= i <= |events|
        invariant Possible(State(), events[i..])
        invariant Run(State(), events[i..]) == Run(old(State()), events)
      {
        Select(events[i]);
        assert events[i..][1..] == events[i + 1..];
        i := i + 1;
      }
      settled := !running;
      stalled := settled && pending.Some? && !drained;
    }
  }

  lemma {:induction false} StoppedHasCause(s: Lease, events: seq<Event>)
    requires Possible(s, events) && (!s.running ==> s.cause.Some?)
    ensures !Run(s, events).running ==> Run(s, events).cause.Some?
    decreases |events|
  {
    if events != [] { StoppedHasCause(Next(s, events[0]), events[1..]); }
  }

  // ---------------------------------------------------------------- one slot, many callers

  datatype Activity = Idle | Polling | Working | Quarantine

  /** The consumer's slot under concurrent callers: compare-and-swap to enter, one store to leave. */
  datatype Slot = Slot(activity: Activity, holders: map<nat, Activity>, claimed: set<nat>, leased: seq<nat>)

  datatype SlotStep =
    | TryPoll(caller: nat)
    | EndPoll(caller: nat)
    | TryLease(caller: nat, delivery: nat)
    | EndLease(caller: nat, quarantine: bool)

  const FREE_SLOT := Slot(Idle, map[], {}, [])

  /** A caller enters while it holds nothing, and leaves only what it entered. */
  predicate MayStep(s: Slot, e: SlotStep) {
    match e
    case TryPoll(c) => c !in s.holders
    case TryLease(c, _) => c !in s.holders
    case EndPoll(c) => c in s.holders && s.holders[c] == Polling
    case EndLease(c, _) => c in s.holders && s.holders[c] == Working
  }

  function SlotNext(s: Slot, e: SlotStep): Slot {
    match e
    case TryPoll(c) =>
      if s.activity == Idle then s.(activity := Polling, holders := s.holders[c := Polling]) else s
    case EndPoll(c) => s.(activity := Idle, holders := s.holders - {c})
    case TryLease(c, d) =>
      if s.activity != Idle then s
      else if d in s.claimed then s.(activity := Working, holders := s.holders[c := Working])
      else s.(activity := Working, holders := s.holders[c := Working], claimed := s.claimed + {d}, leased := s.leased + [d])
    case EndLease(c, quarantine) =>
      s.(activity := if quarantine then Quarantine else Idle, holders := s.holders - {c})
  }

  function SlotRun(s: Slot, steps: seq<SlotStep>): Slot
    decreases |steps|
  {
    if steps == [] then s else SlotRun(SlotNext(s, steps[0]), steps[1..])
  }

  predicate SlotPossible(s: Slot, steps: seq<SlotStep>)
    decreases |steps|
  {
    steps == [] || (MayStep(s, steps[0]) && SlotPossible(SlotNext(s, steps[0]), steps[1..]))
  }

  ghost predicate SlotOk(s: Slot) {
    && (forall c, d | c in s.holders && d in s.holders :: c == d)
    && (forall c | c in s.holders :: s.holders[c] == s.activity && (s.activity == Polling || s.activity == Working))
    && (s.activity == Polling || s.activity == Working ==> s.holders != map[])
    && (forall i :: 0 <= i < |s.leased| ==> s.leased[i] in s.claimed)
    && (forall i, k :: 0 <= i < k < |s.leased| ==> s.leased[i] != s.leased[k])
  }

  lemma SlotStepIsOk(s: Slot, e: SlotStep)
    requires SlotOk(s) && MayStep(s, e)
    ensures SlotOk(SlotNext(s, e))
  {
  }

  /** At most one caller polls or works, no delivery is worked twice, and a quarantined slot is closed for good. */
  lemma {:induction false} SlotIsExclusive(s: Slot, steps: seq<SlotStep>)
    requires SlotOk(s) && SlotPossible(s, steps)
    ensures SlotOk(SlotRun(s, steps))
    ensures s.activity == Quarantine ==> SlotRun(s, steps) == s
    decreases |steps|
  {
    if steps == [] {
    } else {
      SlotStepIsOk(s, steps[0]);
      SlotIsExclusive(SlotNext(s, steps[0]), steps[1..]);
    }
  }

  /** So it is of the slot a consumer starts with, after anything its callers do. */
  lemma SlotsStartExclusive(steps: seq<SlotStep>)
    requires SlotPossible(FREE_SLOT, steps)
    ensures forall c, d | c in SlotRun(FREE_SLOT, steps).holders && d in SlotRun(FREE_SLOT, steps).holders :: c == d
    ensures forall i, k :: 0 <= i < k < |SlotRun(FREE_SLOT, steps).leased| ==>
              SlotRun(FREE_SLOT, steps).leased[i] != SlotRun(FREE_SLOT, steps).leased[k]
  {
    SlotIsExclusive(FREE_SLOT, steps);
  }

  /** While a caller holds the slot, nothing the others do changes it. */
  lemma HeldSlotsAreStill(s: Slot, caller: nat, e: SlotStep)
    requires SlotOk(s) && caller in s.holders && MayStep(s, e) && e.caller != caller
    ensures SlotNext(s, e) == s
  {
  }

  // ---------------------------------------------------------------- the consumer

  /** How a lease call ends: with the work's own result, with the lease's cause, or quarantined. */
  datatype WorkResult = WorkOk | WorkFailed(code: nat) | WorkStalled
  datatype LeaseResult = Own(result: WorkResult) | Ended(cause: Cause) | Quarantined | Refused | Waiting

  /** What a poll reads: nothing usable, no message, or one. */
  datatype PollResult = SlotTaken | PollFailed | NoMessage | Received(delivery: Delivery)

  class Consumer {
    var slot: Slot

    constructor ()
      ensures slot == FREE_SLOT && SlotOk(slot)
    {
      slot := FREE_SLOT;
    }

    /** Other callers try their luck while we hold the slot. */
    method Others(caller: nat, steps: seq<SlotStep>)
      requires SlotOk(slot) && caller in slot.holders
      modifies this
      ensures slot == old(slot)
    {
      for i := 0 to |steps|
        invariant slot == old(slot)
      {
        if MayStep(slot, steps[i]) && steps[i].caller != caller {
          HeldSlotsAreStill(slot, caller, steps[i]);
          slot := SlotNext(slot, steps[i]);
        }
      }
    }

    /** One atomic step of ours. */
    method Act(e: SlotStep)
      requires SlotOk(slot) && MayStep(slot, e)
      modifies this
      ensures slot == SlotNext(old(slot), e) && SlotOk(slot)
    {
      SlotStepIsOk(slot, e);
      slot := SlotNext(slot, e);
    }

    /** Reads at most one message, in a slot nobody else holds, and stamps it with the time the read began. */
    method Poll(caller: nat, started: int, response: Option<seq<Delivery>>, others: seq<SlotStep>) returns (result: PollResult)
      requires SlotOk(slot) && caller !in slot.holders
      modifies this
      ensures SlotOk(slot) && slot == old(slot)
      ensures result.SlotTaken? <==> slot.activity != Idle
      ensures result.Received? <==> slot.activity == Idle && response.Some? && |response.value| == 1
      ensures result.Received? ==> result.delivery == response.value[0].(readStarted := started)
    {
      if slot.activity != Idle { return SlotTaken; }
      Act(TryPoll(caller));
      Others(caller, others);
      if response.None? || |response.value| > 1 {
        result := PollFailed;
      } else if response.value == [] {
        result := NoMessage;
      } else {
        result := Received(response.value[0].(readStarted := started));
      }
      Act(EndPoll(caller));
      assert slot.holders == old(slot).holders;
    }

    /** The lease begins only for a fresh delivery that is still safely hidden. */
    predicate Begins(id: nat, d: Delivery, skew: int, now: int, parentDone: bool)
      reads this
    {
      slot.activity == Idle && id !in slot.claimed && !parentDone && d.readStarted <= now && Begin(d, skew, now).until > now
    }

    /**
     * The lease as a whole. The caller gets the work's own result only if the lease was finished in
     * time; a stalled worker or an undrained renewal quarantines the slot instead.
     */
    method WithLease(caller: nat, id: nat, d: Delivery, skew: int, now: int, parentDone: bool, work: WorkResult,
                     events: seq<Event>, drained: bool, others: seq<SlotStep>)
      returns (result: LeaseResult)
      requires FromServer(d, skew, now) && Possible(Begin(d, skew, now), events)
      requires SlotOk(slot) && caller !in slot.holders
      modifies this
      ensures SlotOk(slot)
      // What it does to the slot: nothing, or an entry and the matching exit of the slot machine.
      ensures var entered := SlotNext(old(slot), TryLease(caller, id));
              slot == if old(slot).activity != Idle || result.Waiting? then entered
                      else SlotNext(entered, EndLease(caller, result.Quarantined?))
      ensures old(slot).activity != Idle || id in old(slot).claimed ==> result.Refused?
      ensures result.Own? ==>
                var s := Run(Begin(d, skew, now), events);
                result.result == work && work != WorkStalled && s.cause == Some(LeaseFinished)
                && s.clock + MARGIN < s.visibleUntil && s.clock + MARGIN < d.expireAfter
      // And it is the caller's result whenever the lease finished in time and nothing stalled.
      ensures result.Own? <==>
                old(Begins(id, d, skew, now, parentDone)) && Run(Begin(d, skew, now), events).cause == Some(LeaseFinished)
                && !result.Quarantined?
      ensures result.Ended? && old(Begins(id, d, skew, now, parentDone)) ==> Run(Begin(d, skew, now), events).cause == Some(result.cause)
      // A lease that began and ended quarantines its slot exactly if the worker stalled or a renewal is still out.
      ensures result.Quarantined? <==>
                old(Begins(id, d, skew, now, parentDone)) && !result.Waiting?
                && (work.WorkStalled? || (Run(Begin(d, skew, now), events).pending.Some? && !drained))
    {
      if slot.activity != Idle { return Refused; }
      var unclaimed := id !in slot.claimed;
      Act(TryLease(caller, id));
      Others(caller, others);
      if !unclaimed {
        Act(EndLease(caller, false));
        return Refused;
      }
      if parentDone {
        Act(EndLease(caller, false));
        return Ended(ParentStopped);
      }
      var watcher := new Watcher(d, skew, now);
      if d.readStarted > now || !(watcher.until > now) {
        Act(EndLease(caller, false));
        return Ended(LeaseLost);
      }
      LeaseIsSafe(d, skew, now, events);
      var settled, stalled := watcher.Watch(events, drained);
      if !settled { return Waiting; }
      Others(caller, others);
      if stalled || work.WorkStalled? {
        Act(EndLease(caller, true));
        return Quarantined;
      }
      Act(EndLease(caller, false));
      StoppedHasCause(Begin(d, skew, now), events);
      if watcher.cause.value != LeaseFinished { return Ended(watcher.cause.value); }
      result := Own(work);
    }
  }
}
