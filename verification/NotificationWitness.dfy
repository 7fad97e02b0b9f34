/**
 * The runs that send the most: a device that never answers, claimed again the moment it is due. Each claim is
 * given back after a failed send with the least jitter or, once the backoff exceeds the lease, abandoned.
 */
module NotificationWitness {
  import opened Wrappers
  import opened NotificationDelivery
  import opened NotificationBounds

  const UNREACHABLE := Failed(Network, 0.0)

  predicate GivesBack(k: nat, released: bool) { released || k < 5 }

  /** The k-th claim and its send. */
  function Attempt(k: nat): seq<Event>
    requires 1 <= k
  {
    [Claim(0, k - 1), Look(0, k - 1, true), Send(0, k - 1, UNREACHABLE)]
  }

  /** From the k-th send until the row is due again. */
  function Wait(k: nat, released: bool): seq<Event>
    requires 1 <= k
  {
    if GivesBack(k, released) then [Report(0, k - 1, 0.0), Finish(0, k - 1), Tick(BackoffFloor(k))] else [Tick(LEASE)]
  }

  function Witness(k: nat, released: bool): seq<Event>
    requires 1 <= k
  {
    (if k == 1 then [Insert(0, DAY)] else Witness(k - 1, released) + Wait(k - 1, released)) + Attempt(k)
  }

  /** The row is due for its k-th claim, as early as it can be. */
  predicate DueFor(s: Sys, k: nat, released: bool)
    requires 1 <= k
  {
    && s.now == Earliest(k, released) && s.nextToken == k - 1 && 0 in s.rows
    && var r := s.rows[0];
       && Due(r.d, s.now) && r.d.expiresAt == DAY && r.d.attempts == k - 1 && |r.sends| == k - 1
       && (released ==> r.d.until.None? && r.reclaims == 0)
  }

  /** The k-th claim was sent under, and nothing is written yet. */
  predicate SentOnce(s: Sys, k: nat, released: bool)
    requires 1 <= k
  {
    && s.now == Earliest(k, released) && s.nextToken == k && 0 in s.rows
    && var r := s.rows[0];
       && r.d == Delivery(Pending, k, r.d.nextAt, DAY, Some(k - 1), Some(s.now + LEASE)) && r.d.nextAt <= s.now
       && k - 1 in r.workers && r.workers[k - 1] == Worker(k, DAY, Answered(UNREACHABLE))
       && |r.sends| == k && (released ==> r.reclaims == 0)
  }

  lemma Extend(run: seq<Event>, e: Event)
    requires ValidRun(run) && Enabled(Reached(run), e)
    ensures ValidRun(run + [e]) && Reached(run + [e]) == Next(Reached(run), e)
  {
    assert (run + [e])[..|run|] == run;
  }

  lemma ExtendThrice(run: seq<Event>, a: Event, b: Event, c: Event)
    requires ValidRun(run) && Enabled(Reached(run), a) && Enabled(Next(Reached(run), a), b)
    requires Enabled(Next(Next(Reached(run), a), b), c)
    ensures ValidRun(run + [a, b, c]) && Reached(run + [a, b, c]) == Next(Next(Next(Reached(run), a), b), c)
  {
    Extend(run, a);
    Extend(run + [a], b);
    Extend(run + [a] + [b], c);
    assert run + [a] + [b] + [c] == run + [a, b, c];
  }

  lemma AttemptSends(run: seq<Event>, k: nat, released: bool)
    requires 1 <= k && ValidRun(run) && DueFor(Reached(run), k, released) && Earliest(k, released) < DAY
    ensures ValidRun(run + Attempt(k)) && SentOnce(Reached(run + Attempt(k)), k, released)
  {
    ExtendThrice(run, Claim(0, k - 1), Look(0, k - 1, true), Send(0, k - 1, UNREACHABLE));
  }

  /** The least jitter without a hint delays by the floor itself. */
  lemma LeastDelay(k: nat, now: int)
    requires 1 <= k && now + BackoffFloor(k) < DAY
    ensures After(UNREACHABLE, k, DAY, now, 0.0) == Update(Pending, Some(now + BackoffFloor(k)))
  {
    var base := (10_000 * Pow2(Min(k - 1, 9))) as real;
    assert base * (0.75 + 0.0 * 0.5) == (7_500 * Pow2(Min(k - 1, 9))) as real;
    assert PushRetryDelay(k, 0.0, 0.0) == BackoffFloor(k) as real;
  }

  lemma WaitMakesDue(run: seq<Event>, k: nat, released: bool)
    requires 1 <= k && ValidRun(run) && SentOnce(Reached(run), k, released) && Earliest(k + 1, released) < DAY
    ensures ValidRun(run + Wait(k, released)) && DueFor(Reached(run + Wait(k, released)), k + 1, released)
  {
    if GivesBack(k, released) {
      if !released { FloorBelowTheLease(k); }
      LeastDelay(k, Reached(run).now);
      ExtendThrice(run, Report(0, k - 1, 0.0), Finish(0, k - 1), Tick(BackoffFloor(k)));
    } else {
      FloorPassesTheLease(k);
      Extend(run, Tick(LEASE));
    }
  }

  lemma FloorBelowTheLease(k: nat)
    requires 1 <= k < 5
    ensures 0 < BackoffFloor(k) < LEASE
  {
    Doublings();
  }

  lemma {:induction false} WitnessSends(k: nat, released: bool)
    requires 1 <= k && Earliest(k, released) < DAY
    ensures ValidRun(Witness(k, released)) && SentOnce(Reached(Witness(k, released)), k, released)
  {
    if k == 1 {
      Extend([], Insert(0, DAY));
      assert [] + [Insert(0, DAY)] == [Insert(0, DAY)];
      AttemptSends([Insert(0, DAY)], 1, released);
    } else {
      assert Gap(k - 1, released) >= 0;
      WitnessSends(k - 1, released);
      WaitMakesDue(Witness(k - 1, released), k - 1, released);
      AttemptSends(Witness(k - 1, released) + Wait(k - 1, released), k, released);
    }
  }

  /** Some run sends 32 times with every claim given back, and some run sends 724 times. */
  lemma TheBoundIsReached(released: bool)
    ensures var run := Witness(MostSends(released), released);
            && ValidRun(run) && 0 in Reached(run).rows
            && |Reached(run).rows[0].sends| == MostSends(released)
            && (Reached(run).rows[0].reclaims == 0 <==> released)
  {
    TheBoundIsTight(released);
    WitnessSends(MostSends(released), released);
    SendsAreBounded(Witness(MostSends(released), released), 0);
  }
}
