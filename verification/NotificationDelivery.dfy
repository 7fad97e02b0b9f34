/**
 * Delivering one notification to one device. Dispatchers claim a due row under a two-minute lease, send
 * outside the database, and write the outcome back only while the row still carries their token. Any of
 * them may stop at any point; the lease then runs out and another dispatcher claims the row.
 *
 * Times are milliseconds of one clock.
 */
module NotificationDelivery {
  import opened Wrappers

  type Id = nat
  type Token = nat

  const LEASE := 120_000
  const CAP := 3_600_000
  const DAY := 86_400_000
  const BATCH := 20

  // ---------------------------------------------------------------- backoff

  function Pow2(n: nat): (p: nat)
    ensures p > 0
  {
    if n == 0 then 1 else 2 * Pow2(n - 1)
  }

  function Min(a: int, b: int): int { if a < b then a else b }

  /** `random` is drawn from [0, 1). */
  function PushRetryDelay(attempt: nat, retryAfter: real, random: real): real
    requires 1 <= attempt
  {
    var jittered := (10_000 * Pow2(Min(attempt - 1, 9))) as real * (0.75 + random * 0.5);
    var capped := if jittered < 3_600_000.0 then jittered else 3_600_000.0;
    if retryAfter > capped then retryAfter else capped
  }

  /** The least delay after the given attempt, whatever the jitter and the provider's hint. */
  function BackoffFloor(attempt: nat): int
    requires 1 <= attempt
  {
    Min(CAP, 7_500 * Pow2(Min(attempt - 1, 9)))
  }

  lemma DelayIsAtLeastTheFloor(attempt: nat, retryAfter: real, random: real, now: int)
    requires 1 <= attempt && 0.0 <= random < 1.0
    ensures (now as real + PushRetryDelay(attempt, retryAfter, random)).Floor >= now + BackoffFloor(attempt)
    ensures retryAfter <= 3_600_000.0 ==> PushRetryDelay(attempt, retryAfter, random) <= 3_600_000.0
  {
    var base := (10_000 * Pow2(Min(attempt - 1, 9))) as real;
    assert base * (0.75 + random * 0.5) >= base * 0.75 by {
      assert base * (0.75 + random * 0.5) == base * 0.75 + base * (random * 0.5);
      assert base * (random * 0.5) >= 0.0;
    }
    assert base * 0.75 == (7_500 * Pow2(Min(attempt - 1, 9))) as real;
    assert PushRetryDelay(attempt, retryAfter, random) >= BackoffFloor(attempt) as real;
  }

  /** The jitter adds at most a quarter. */
  lemma JitterAddsAQuarter(base: real, random: real)
    requires base >= 0.0 && 0.0 <= random < 1.0
    ensures 0.0 <= base * (0.75 + random * 0.5) <= base * 1.25
  {
    assert base * (0.75 + random * 0.5) == base * 0.75 + base * (random * 0.5);
    assert 0.0 <= base * (random * 0.5) <= base * 0.5;
  }

  /** A longer hint is kept, and without one the delay is at most the jittered doubling. */
  lemma HintsAreKept(attempt: nat, retryAfter: real, random: real, jittered: real)
    requires 1 <= attempt && 0.0 <= random < 1.0
    requires jittered == (10_000 * Pow2(Min(attempt - 1, 9))) as real * (0.75 + random * 0.5)
    ensures PushRetryDelay(attempt, retryAfter, random) >= retryAfter
    ensures retryAfter >= 3_600_000.0 ==> PushRetryDelay(attempt, retryAfter, random) == retryAfter
    ensures retryAfter <= jittered ==> PushRetryDelay(attempt, retryAfter, random) <= jittered
  {
  }

  // ---------------------------------------------------------------- the row and its updates

  datatype Status = Pending | Accepted | Discarded

  datatype Delivery = Delivery(status: Status, attempts: nat, nextAt: int, expiresAt: int, token: Option<Token>, until: Option<int>)

  datatype Update = Update(status: Status, nextAt: Option<int>)

  predicate Due(d: Delivery, now: int) {
    d.status.Pending? && d.nextAt <= now && (d.until.None? || d.until.value <= now)
  }

  function Claimed(d: Delivery, token: Token, now: int): Delivery {
    d.(token := Some(token), until := Some(now + LEASE), attempts := d.attempts + 1)
  }

  /** `eligible` stands for the joined conditions on the device, the account and its second factor. */
  predicate HasTarget(d: Delivery, token: Token, now: int, eligible: bool) {
    d.token == Some(token) && d.status.Pending? && d.expiresAt > now && eligible
  }

  /** Written only under the writer's own token, and only over a pending row. */
  function Finished(d: Delivery, token: Token, update: Update): Delivery {
    if d.token == Some(token) && d.status.Pending?
    then d.(status := update.status, nextAt := if update.nextAt.Some? then update.nextAt.value else d.nextAt,
            token := None, until := None)
    else d
  }

  datatype Code = Unregistered | Authentication | InvalidMessage | Quota | Network | Expired

  datatype Result = Sent | Failed(code: Code, retryAfter: real)

  function After(result: Result, attempt: nat, expiresAt: int, now: int, random: real): Update
    requires 1 <= attempt
  {
    match result
    case Sent => Update(Accepted, None)
    case Failed(code, retryAfter) =>
      var next := now as real + PushRetryDelay(attempt, retryAfter, random);
      var permanent := code.Unregistered? || code.InvalidMessage? || code.Expired? || next >= expiresAt as real;
      Update(if permanent then Discarded else Pending, Some(next.Floor))
  }

  // ---------------------------------------------------------------- the transition system

  /** What a dispatcher knows about the claim it made: `attempt` is the count it read back. */
  datatype Phase = Claiming | Ready | Answered(result: Result) | Reporting(update: Update) | Over

  datatype Worker = Worker(attempt: nat, expiresAt: int, phase: Phase)

  /** A row, its claims in order with their times, the attempts that were sent, and the claims of an unreleased lease. */
  datatype Row = Row(d: Delivery, workers: map<Token, Worker>, claims: seq<int>, sends: seq<nat>, reclaims: nat)

  datatype Sys = Sys(now: int, rows: map<Id, Row>, nextToken: Token)

  datatype Event =
    | Tick(elapsed: nat)
    | Insert(id: Id, expiresAt: int)
    | Claim(id: Id, token: Token)
    | Look(id: Id, token: Token, eligible: bool)
    | Send(id: Id, token: Token, result: Result)
    | Report(id: Id, token: Token, random: real)
    | Finish(id: Id, token: Token)
    | Recover(id: Id, token: Token)    // the outcome's write threw, whether or not it took effect

  predicate InPhase(s: Sys, id: Id, token: Token, phase: Phase) {
    id in s.rows && token in s.rows[id].workers && s.rows[id].workers[token].phase == phase
  }

  predicate Holds(s: Sys, id: Id, token: Token) {
    id in s.rows && token in s.rows[id].workers
  }

  predicate Enabled(s: Sys, e: Event) {
    match e
    case Tick(_) => true
    // The notification was created in the same transaction; its time, cut to milliseconds, is at most now.
    case Insert(id, expiresAt) => id !in s.rows && expiresAt <= s.now + DAY
    case Claim(id, token) => id in s.rows && Due(s.rows[id].d, s.now) && token == s.nextToken
    case Look(id, token, _) => InPhase(s, id, token, Claiming)
    case Send(id, token, _) => InPhase(s, id, token, Ready)
    case Report(id, token, random) =>
      Holds(s, id, token) && s.rows[id].workers[token].phase.Answered? && 0.0 <= random < 1.0
      && 1 <= s.rows[id].workers[token].attempt
    case Finish(id, token) => Holds(s, id, token) && s.rows[id].workers[token].phase.Reporting?
    case Recover(id, token) =>
      Holds(s, id, token) && (s.rows[id].workers[token].phase.Reporting? || s.rows[id].workers[token].phase.Over?)
  }

  function WithPhase(r: Row, token: Token, phase: Phase): Row
    requires token in r.workers
  {
    r.(workers := r.workers[token := r.workers[token].(phase := phase)])
  }

  function NextRow(r: Row, e: Event, now: int): Row
    requires (e.Look? || e.Send? || e.Report? || e.Finish? || e.Recover?) ==> e.token in r.workers
    requires e.Report? ==> r.workers[e.token].phase.Answered? && 1 <= r.workers[e.token].attempt
    requires e.Finish? ==> r.workers[e.token].phase.Reporting?
  {
    match e
    case Claim(_, token) =>
      var d := Claimed(r.d, token, now);
      Row(d, r.workers[token := Worker(d.attempts, d.expiresAt, Claiming)], r.claims + [now], r.sends,
          r.reclaims + if r.d.until.Some? then 1 else 0)
    case Look(_, token, eligible) =>
      WithPhase(r, token, if HasTarget(r.d, token, now, eligible) then Ready else Reporting(Update(Discarded, None)))
    case Send(_, token, result) =>
      WithPhase(r, token, Answered(result)).(sends := r.sends + [r.workers[token].attempt])
    case Report(_, token, random) =>
      var w := r.workers[token];
      WithPhase(r, token, Reporting(After(w.phase.result, w.attempt, w.expiresAt, now, random)))
    case Finish(_, token) =>
      WithPhase(r, token, Over).(d := Finished(r.d, token, r.workers[token].phase.update))
    // An error that is not the push service's counts as a network failure.
    case Recover(_, token) => WithPhase(r, token, Answered(Failed(Network, 0.0)))
    case _ => r
  }

  function Next(s: Sys, e: Event): Sys {
    if !Enabled(s, e) then s
    else match e
    case Tick(elapsed) => s.(now := s.now + elapsed)
    case Insert(id, expiresAt) =>
      s.(rows := s.rows[id := Row(Delivery(Pending, 0, s.now, expiresAt, None, None), map[], [], [], 0)])
    case Claim(id, token) => s.(rows := s.rows[id := NextRow(s.rows[id], e, s.now)], nextToken := s.nextToken + 1)
    case _ => s.(rows := s.rows[e.id := NextRow(s.rows[e.id], e, s.now)])
  }

  const START := Sys(0, map[], 0)

  function Reached(run: seq<Event>): Sys {
    if run == [] then START else Next(Reached(run[..|run| - 1]), run[|run| - 1])
  }

  predicate ValidRun(run: seq<Event>) {
    run == [] || (ValidRun(run[..|run| - 1]) && Enabled(Reached(run[..|run| - 1]), run[|run| - 1]))
  }
}
