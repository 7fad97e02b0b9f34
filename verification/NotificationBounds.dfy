/**
 * How often a delivery can be sent. Whatever the interleaving of dispatchers, crashes and lost leases, a
 * claim is followed by the next one only after the backoff or the lease, and only a claim made before the
 * delivery expires can send, once.
 */
module NotificationBounds {
  import opened Wrappers
  import opened NotificationDelivery

  /** The least time from the k-th claim to the next; `released` when every claim so far was given back. */
  function Gap(k: nat, released: bool): int
    requires 1 <= k
  {
    if released then BackoffFloor(k) else Min(LEASE, BackoffFloor(k))
  }

  predicate ClaimsOk(r: Row, now: int) {
    && (forall k :: 0 <= k < |r.claims| ==> r.claims[k] <= now)
    && (|r.claims| > 0 ==> r.claims[0] >= r.d.expiresAt - DAY)
    && (forall k :: 1 <= k < |r.claims| ==> r.claims[k] >= r.claims[k - 1] + Gap(k, r.reclaims == 0))
  }

  predicate RowLeaseOk(r: Row) {
    && r.d.attempts == |r.claims|
    && (r.d.token.None? <==> r.d.until.None?)
    && (r.d.token.Some? ==>
          |r.claims| > 0 && r.d.token.value in r.workers && r.workers[r.d.token.value].attempt == |r.claims|
          && r.d.until == Some(r.claims[|r.claims| - 1] + LEASE))
    && (r.d.token.None? && r.d.status.Pending? ==>
          r.d.nextAt >= if |r.claims| == 0 then r.d.expiresAt - DAY else r.claims[|r.claims| - 1] + BackoffFloor(|r.claims|))
  }

  predicate WorkerOk(r: Row, token: Token)
    requires token in r.workers
  {
    var w := r.workers[token];
    && 1 <= w.attempt <= |r.claims| && w.expiresAt == r.d.expiresAt
    && (w.phase.Ready? ==> r.claims[w.attempt - 1] < r.d.expiresAt)
    && (w.phase.Claiming? || w.phase.Ready? ==> w.attempt !in r.sends)
    && (w.phase.Reporting? && w.phase.update.status.Pending? ==>
          w.phase.update.nextAt.Some? && w.phase.update.nextAt.value >= r.claims[w.attempt - 1] + BackoffFloor(w.attempt))
  }

  ghost predicate WorkersOk(r: Row) {
    && (forall token | token in r.workers :: WorkerOk(r, token))
    && (forall t, u | t in r.workers && u in r.workers && r.workers[t].attempt == r.workers[u].attempt :: t == u)
  }

  predicate SendsOk(r: Row) {
    && (forall i :: 0 <= i < |r.sends| ==> 1 <= r.sends[i] <= |r.claims| && r.claims[r.sends[i] - 1] < r.d.expiresAt)
    && (forall i, j :: 0 <= i < j < |r.sends| ==> r.sends[i] != r.sends[j])
  }

  ghost predicate RowOk(r: Row, now: int) {
    ClaimsOk(r, now) && RowLeaseOk(r) && WorkersOk(r) && SendsOk(r)
  }

  predicate TokensOk(r: Row, next: Token) {
    forall token | token in r.workers :: token < next
  }

  ghost predicate Sound(s: Sys, id: Id)
    requires id in s.rows
  {
    RowOk(s.rows[id], s.now) && TokensOk(s.rows[id], s.nextToken)
  }

  ghost predicate Inv(s: Sys) {
    forall id | id in s.rows :: Sound(s, id)
  }

  // ---------------------------------------------------------------- one step

  lemma ClaimKeepsWorkers(r: Row, id: Id, token: Token, now: int, t: Row)
    requires WorkersOk(r) && SendsOk(r) && r.d.attempts == |r.claims|
    requires token !in r.workers && t == NextRow(r, Claim(id, token), now)
    ensures WorkersOk(t)
  {
  }

  /** The lease or the backoff stands between this claim and the one before. */
  lemma ClaimKeepsSpacing(r: Row, id: Id, token: Token, now: int, t: Row)
    requires ClaimsOk(r, now) && RowLeaseOk(r) && Due(r.d, now) && t == NextRow(r, Claim(id, token), now)
    ensures ClaimsOk(t, now)
  {
    var n := |r.claims|;
    assert n > 0 ==> now >= r.claims[n - 1] + Gap(n, t.reclaims == 0);
    assert n == 0 ==> now >= r.d.expiresAt - DAY;
  }

  lemma ClaimKeepsRow(r: Row, id: Id, token: Token, now: int, t: Row)
    requires RowOk(r, now) && Due(r.d, now) && token !in r.workers && t == NextRow(r, Claim(id, token), now)
    ensures RowOk(t, now)
  {
    ClaimKeepsSpacing(r, id, token, now, t);
    ClaimKeepsWorkers(r, id, token, now, t);
  }

  /** A worker that moved on without touching the row. */
  lemma PhaseKeepsRow(r: Row, token: Token, now: int, phase: Phase, t: Row)
    requires RowOk(r, now) && token in r.workers && t == WithPhase(r, token, phase)
    requires phase.Ready? ==> r.workers[token].phase.Claiming? && now < r.d.expiresAt
    requires !phase.Claiming?
    requires phase.Reporting? && phase.update.status.Pending? ==>
               phase.update.nextAt.Some? && 1 <= r.workers[token].attempt
               && phase.update.nextAt.value >= now + BackoffFloor(r.workers[token].attempt)
    ensures RowOk(t, now)
  {
  }

  lemma SendKeepsWorkers(r: Row, token: Token, result: Result, t: Row)
    requires WorkersOk(r) && token in r.workers && r.workers[token].phase.Ready?
    requires t == WithPhase(r, token, Answered(result)).(sends := r.sends + [r.workers[token].attempt])
    ensures WorkersOk(t)
  {
    forall u | u in t.workers
      ensures WorkerOk(t, u)
    {
      assert WorkerOk(r, u);
    }
  }

  lemma SendKeepsSends(r: Row, token: Token, t: Row)
    requires SendsOk(r) && token in r.workers && WorkerOk(r, token) && r.workers[token].phase.Ready?
    requires t.sends == r.sends + [r.workers[token].attempt] && t.claims == r.claims && t.d == r.d
    ensures SendsOk(t)
  {
  }

  lemma SendKeepsRow(r: Row, id: Id, token: Token, result: Result, now: int, t: Row)
    requires RowOk(r, now) && token in r.workers && r.workers[token].phase.Ready?
    requires t == NextRow(r, Send(id, token, result), now)
    ensures RowOk(t, now)
  {
    assert WorkerOk(r, token);
    SendKeepsWorkers(r, token, result, t);
    SendKeepsSends(r, token, t);
  }

  lemma ReportKeepsRow(r: Row, id: Id, token: Token, random: real, now: int, t: Row)
    requires RowOk(r, now) && token in r.workers && r.workers[token].phase.Answered? && 0.0 <= random < 1.0
    requires 1 <= r.workers[token].attempt && t == NextRow(r, Report(id, token, random), now)
    ensures RowOk(t, now)
  {
    var w := r.workers[token];
    if w.phase.result.Failed? {
      DelayIsAtLeastTheFloor(w.attempt, w.phase.result.retryAfter, random, now);
    }
    PhaseKeepsRow(r, token, now, t.workers[token].phase, t);
  }

  lemma FinishKeepsRow(r: Row, id: Id, token: Token, now: int, t: Row)
    requires RowOk(r, now) && token in r.workers && r.workers[token].phase.Reporting?
    requires t == NextRow(r, Finish(id, token), now)
    ensures RowOk(t, now)
  {
    assert WorkerOk(r, token);
    FinishKeepsWorkers(r, id, token, now, t);
  }

  lemma FinishKeepsWorkers(r: Row, id: Id, token: Token, now: int, t: Row)
    requires WorkersOk(r) && token in r.workers && r.workers[token].phase.Reporting?
    requires t == NextRow(r, Finish(id, token), now)
    ensures WorkersOk(t)
  {
    forall u | u in t.workers
      ensures WorkerOk(t, u)
    {
      assert WorkerOk(r, u);
    }
  }

  lemma NextRowKeepsOk(s: Sys, e: Event)
    requires Inv(s) && Enabled(s, e) && !e.Tick? && !e.Insert?
    ensures RowOk(NextRow(s.rows[e.id], e, s.now), s.now)
  {
    assert Sound(s, e.id);
    var r := s.rows[e.id];
    var t := NextRow(r, e, s.now);
    match e
    case Claim(id, token) => ClaimKeepsRow(r, id, token, s.now, t);
    case Look(id, token, eligible) => PhaseKeepsRow(r, token, s.now, t.workers[token].phase, t);
    case Send(id, token, result) => SendKeepsRow(r, id, token, result, s.now, t);
    case Report(id, token, random) => ReportKeepsRow(r, id, token, random, s.now, t);
    case Finish(id, token) => FinishKeepsRow(r, id, token, s.now, t);
    case Recover(id, token) => PhaseKeepsRow(r, token, s.now, t.workers[token].phase, t);
  }

  lemma TickKeepsInv(s: Sys, elapsed: nat, t: Sys)
    requires Inv(s) && t == Next(s, Tick(elapsed))
    ensures Inv(t)
  {
  }

  /** The row the step touches. */
  lemma ActedRowIsSound(s: Sys, e: Event, t: Sys)
    requires Inv(s) && Enabled(s, e) && !e.Tick? && !e.Insert? && t == Next(s, e)
    ensures e.id in t.rows && Sound(t, e.id)
  {
    NextRowKeepsOk(s, e);
    assert TokensOk(s.rows[e.id], s.nextToken);
  }

  lemma OtherRowsStaySound(s: Sys, e: Event, t: Sys)
    requires Inv(s) && Enabled(s, e) && !e.Tick? && !e.Insert? && t == Next(s, e)
    ensures t.rows.Keys == s.rows.Keys && forall id | id in t.rows && id != e.id :: Sound(t, id)
  {
    assert t.now == s.now && t.nextToken >= s.nextToken;
    forall id | id in t.rows && id != e.id
      ensures Sound(t, id)
    {
      assert Sound(s, id) && t.rows[id] == s.rows[id];
    }
  }

  lemma StepKeepsInv(s: Sys, e: Event, t: Sys)
    requires Inv(s) && Enabled(s, e) && t == Next(s, e)
    ensures Inv(t)
  {
    match e
    case Tick(elapsed) => TickKeepsInv(s, elapsed, t);
    case Insert(_, _) =>
    case _ =>
      ActedRowIsSound(s, e, t);
      OtherRowsStaySound(s, e, t);
  }

  lemma {:induction false} RunKeepsInv(run: seq<Event>)
    requires ValidRun(run)
    ensures Inv(Reached(run))
  {
    if run != [] {
      RunKeepsInv(run[..|run| - 1]);
      StepKeepsInv(Reached(run[..|run| - 1]), run[|run| - 1], Reached(run));
    }
  }

  // ---------------------------------------------------------------- the bound

  /** The least time from the notification to its k-th claim. */
  function Earliest(k: nat, released: bool): int
    requires 1 <= k
  {
    if k == 1 then 0 else Earliest(k - 1, released) + Gap(k - 1, released)
  }

  lemma {:induction false} ClaimsAreLate(r: Row, now: int, k: nat)
    requires ClaimsOk(r, now) && 1 <= k <= |r.claims|
    ensures r.claims[k - 1] >= r.d.expiresAt - DAY + Earliest(k, r.reclaims == 0)
  {
    if k > 1 {
      ClaimsAreLate(r, now, k - 1);
      assert r.claims[k - 1] >= r.claims[k - 2] + Gap(k - 1, r.reclaims == 0);
    }
  }

  lemma Doublings()
    ensures Pow2(0) == 1 && Pow2(1) == 2 && Pow2(2) == 4 && Pow2(3) == 8 && Pow2(4) == 16
    ensures Pow2(5) == 32 && Pow2(6) == 64 && Pow2(7) == 128 && Pow2(8) == 256 && Pow2(9) == 512
  {
    assert Pow2(3) == 8;
    assert Pow2(6) == 64;
  }

  /** Without crashes: 7.5 s doubling nine times, then an hour. */
  lemma {:induction false} EarliestReleased(k: nat)
    requires 10 <= k
    ensures Earliest(k, true) == 3_832_500 + CAP * (k - 10)
  {
    Doublings();
    if k == 10 {
      assert Earliest(4, true) == 52_500;
      assert Earliest(7, true) == 472_500;
    } else {
      EarliestReleased(k - 1);
    }
  }

  /** With crashes anywhere: the backoff until it exceeds the lease, then the lease. */
  lemma {:induction false} EarliestReclaimed(k: nat)
    requires 5 <= k
    ensures Earliest(k, false) == 112_500 + LEASE * (k - 5)
  {
    Doublings();
    if k == 5 {
      assert Earliest(3, false) == 22_500;
    } else {
      EarliestReclaimed(k - 1);
      FloorPassesTheLease(k - 1);
    }
  }

  lemma FloorPassesTheLease(k: nat)
    requires 5 <= k
    ensures BackoffFloor(k) >= LEASE
  {
    Doublings();
    assert Min(k - 1, 9) in {4, 5, 6, 7, 8, 9};
  }

  function MostSends(released: bool): nat { if released then 32 else 724 }

  lemma OnlyTheFirstClaimsAreInTime(k: nat, released: bool)
    requires 1 <= k && Earliest(k, released) < DAY
    ensures k <= MostSends(released)
  {
    if released && k >= 10 {
      EarliestReleased(k);
    } else if !released && k >= 5 {
      EarliestReclaimed(k);
    }
  }

  /** The bounds are met by the spacing itself: the last allowed claim still precedes the expiry. */
  lemma TheBoundIsTight(released: bool)
    ensures Earliest(MostSends(released), released) < DAY <= Earliest(MostSends(released) + 1, released)
  {
    EarliestReleased(32);
    EarliestReleased(33);
    EarliestReclaimed(724);
    EarliestReclaimed(725);
  }

  lemma {:induction false} DistinctCount(s: seq<nat>, n: nat)
    requires forall i :: 0 <= i < |s| ==> 1 <= s[i] <= n
    requires forall i, j :: 0 <= i < j < |s| ==> s[i] != s[j]
    ensures |s| <= n
    decreases n
  {
    if s != [] {
      assert 1 <= s[0] <= n;
      if i :| 0 <= i < |s| && s[i] == n {
        DistinctCount(s[..i] + s[i + 1..], n - 1);
      } else {
        DistinctCount(s, n - 1);
      }
    }
  }

  /** At most 32 sends of a delivery if every claim was given back before the next, and 724 in any case. */
  lemma SendsAreBounded(run: seq<Event>, id: Id)
    requires ValidRun(run) && id in Reached(run).rows
    ensures |Reached(run).rows[id].sends| <= MostSends(Reached(run).rows[id].reclaims == 0)
  {
    RunKeepsInv(run);
    var r, now := Reached(run).rows[id], Reached(run).now;
    assert Sound(Reached(run), id);
    forall i | 0 <= i < |r.sends|
      ensures 1 <= r.sends[i] <= MostSends(r.reclaims == 0)
    {
      ClaimsAreLate(r, now, r.sends[i]);
      OnlyTheFirstClaimsAreInTime(r.sends[i], r.reclaims == 0);
    }
    DistinctCount(r.sends, MostSends(r.reclaims == 0));
  }

  // ---------------------------------------------------------------- fencing and the end

  predicate IsPermanent(code: Code) {
    code.Unregistered? || code.InvalidMessage? || code.Expired?
  }

  /** What the holder of a claim writes: accepted, given up, or due again after the backoff and before the expiry. */
  lemma OutcomesAreWritten(d: Delivery, token: Token, result: Result, attempt: nat, now: int, random: real)
    requires 1 <= attempt && 0.0 <= random < 1.0 && d.token == Some(token) && d.status.Pending?
    ensures var t := Finished(d, token, After(result, attempt, d.expiresAt, now, random));
            && t.token.None? && t.until.None? && t.attempts == d.attempts
            && (t.status.Accepted? <==> result.Sent?)
            && (result.Failed? && IsPermanent(result.code) ==> t.status.Discarded?)
            && (result.Failed? && !IsPermanent(result.code) ==> (t.status.Pending? <==> t.nextAt < d.expiresAt))
            && (t.status.Pending? ==> now + BackoffFloor(attempt) <= t.nextAt < d.expiresAt)
  {
    if result.Failed? {
      DelayIsAtLeastTheFloor(attempt, result.retryAfter, random, now);
    }
  }

  /** A claim looked up, sent under if there is a target, and written, with nobody in between. */
  function Carried(s: Sys, id: Id, token: Token, eligible: bool, result: Result, random: real): Sys {
    var looked := Next(s, Look(id, token, eligible));
    if InPhase(looked, id, token, Ready) then Written(Next(looked, Send(id, token, result)), id, token, random)
    else Next(looked, Finish(id, token))
  }

  function Written(s: Sys, id: Id, token: Token, random: real): Sys {
    Next(Next(s, Report(id, token, random)), Finish(id, token))
  }

  /** After a write that threw: the result is taken for a network failure, and that is written. */
  function WrittenAgain(s: Sys, id: Id, token: Token, random: real): Sys {
    Written(Next(s, Recover(id, token)), id, token, random)
  }

  /** The row's current claim, nobody having touched it since. */
  predicate Current(s: Sys, id: Id, token: Token) {
    && InPhase(s, id, token, Claiming) && s.rows[id].d.token == Some(token) && s.rows[id].d.status.Pending?
    && s.rows[id].workers[token].attempt == s.rows[id].d.attempts >= 1
  }

  lemma NewClaimsAreCurrent(s: Sys, id: Id)
    requires id in s.rows && Due(s.rows[id].d, s.now)
    ensures Current(Next(s, Claim(id, s.nextToken)), id, s.nextToken)
    ensures Next(s, Claim(id, s.nextToken)).rows[id].d.attempts == s.rows[id].d.attempts + 1
  {
  }

  lemma WrittenOutcomes(s: Sys, id: Id, token: Token, result: Result, random: real)
    requires InPhase(s, id, token, Answered(result)) && 0.0 <= random < 1.0
    requires s.rows[id].d.token == Some(token) && s.rows[id].d.status.Pending?
    requires s.rows[id].workers[token].attempt >= 1 && s.rows[id].workers[token].expiresAt == s.rows[id].d.expiresAt
    ensures var r, t := s.rows[id], Written(s, id, token, random);
            && id in t.rows && t.rows[id].sends == r.sends
            && t.rows[id].d == Finished(r.d, token, After(result, r.workers[token].attempt, r.d.expiresAt, s.now, random))
  {
  }

  /**
   * An acceptance whose write threw: if it was not written the row is due again as after a network failure, and if
   * it was, it stays accepted. Either way nothing more is sent.
   */
  lemma LostWritesAreMadeGood(s: Sys, id: Id, token: Token, random: real)
    requires InPhase(s, id, token, Answered(Sent)) && 0.0 <= random < 1.0
    requires s.rows[id].d.token == Some(token) && s.rows[id].d.status.Pending?
    requires s.rows[id].workers[token].attempt >= 1 && s.rows[id].workers[token].expiresAt == s.rows[id].d.expiresAt
    ensures var r, t := s.rows[id], WrittenAgain(Next(s, Report(id, token, random)), id, token, random);
            && id in t.rows && t.rows[id].sends == r.sends
            && t.rows[id].d == Finished(r.d, token, After(Failed(Network, 0.0), r.workers[token].attempt, r.d.expiresAt, s.now, random))
    ensures var u := WrittenAgain(Written(s, id, token, random), id, token, random);
            id in u.rows && u.rows[id].sends == s.rows[id].sends && u.rows[id].d.status.Accepted? && u.rows[id].d.token.None?
  {
    var again := Next(Next(s, Report(id, token, random)), Recover(id, token));
    assert again.rows[id].d == s.rows[id].d && again.rows[id].sends == s.rows[id].sends;
    WrittenOutcomes(again, id, token, Failed(Network, 0.0), random);
    WrittenOutcomes(s, id, token, Sent, random);
    AcceptedStays(Written(s, id, token, random), id, token, random);
  }

  lemma AcceptedStays(s: Sys, id: Id, token: Token, random: real)
    requires id in s.rows && !s.rows[id].d.status.Pending?
    ensures var t := WrittenAgain(s, id, token, random);
            id in t.rows && t.rows[id].d == s.rows[id].d && t.rows[id].sends == s.rows[id].sends
  {
  }

  /** What the row of a claim says once it was carried out. */
  predicate WellCarried(s: Sys, t: Sys, id: Id, sends: bool, result: Result)
    requires id in s.rows
  {
    && id in t.rows && t.rows[id].d.token.None? && t.rows[id].d.until.None? && t.rows[id].claims == s.rows[id].claims
    && t.rows[id].sends == s.rows[id].sends + (if sends then [s.rows[id].d.attempts] else [])
    && (t.rows[id].d.status.Accepted? <==> sends && result.Sent?)
    && (t.rows[id].d.status.Discarded? <==>
          !sends || (result.Failed? && (IsPermanent(result.code) || t.rows[id].d.nextAt >= s.rows[id].d.expiresAt)))
    && (t.rows[id].d.status.Pending? ==>
          s.rows[id].d.attempts >= 1
          && s.now + BackoffFloor(s.rows[id].d.attempts) <= t.rows[id].d.nextAt < s.rows[id].d.expiresAt)
  }

  lemma AnsweredClaims(s: Sys, id: Id, token: Token, result: Result)
    requires Current(s, id, token) && s.now < s.rows[id].d.expiresAt
    ensures var looked := Next(s, Look(id, token, true)); var t := Next(looked, Send(id, token, result));
            && InPhase(looked, id, token, Ready) && InPhase(t, id, token, Answered(result)) && t.now == s.now
            && t.rows[id] == s.rows[id].(workers := t.rows[id].workers, sends := s.rows[id].sends + [s.rows[id].d.attempts])
            && t.rows[id].workers[token] == s.rows[id].workers[token].(phase := Answered(result))
  {
  }

  lemma TargetedClaims(s: Sys, id: Id, token: Token, result: Result, random: real)
    requires Current(s, id, token) && 0.0 <= random < 1.0 && s.rows[id].workers[token].expiresAt == s.rows[id].d.expiresAt
    requires s.now < s.rows[id].d.expiresAt
    ensures WellCarried(s, Carried(s, id, token, true, result, random), id, true, result)
  {
    AnsweredClaims(s, id, token, result);
    var t := Next(Next(s, Look(id, token, true)), Send(id, token, result));
    WrittenOutcomes(t, id, token, result, random);
    OutcomesAreWritten(t.rows[id].d, token, result, s.rows[id].d.attempts, s.now, random);
    FinishKeepsClaims(t, id, token, random);
  }

  lemma FinishKeepsClaims(s: Sys, id: Id, token: Token, random: real)
    requires id in s.rows
    ensures id in Written(s, id, token, random).rows && Written(s, id, token, random).rows[id].claims == s.rows[id].claims
  {
  }

  lemma UntargetedClaims(s: Sys, id: Id, token: Token, eligible: bool, result: Result, random: real)
    requires Current(s, id, token) && !(eligible && s.now < s.rows[id].d.expiresAt)
    ensures WellCarried(s, Carried(s, id, token, eligible, result, random), id, false, result)
  {
  }

  /**
   * In every run, a claim that is left alone sends exactly if its device is eligible and the notification has not expired;
   * what was sent is accepted, what failed for good or for too long is discarded, and the rest is due again in time.
   */
  lemma ClaimsAreCarriedOut(run: seq<Event>, id: Id, token: Token, eligible: bool, result: Result, random: real)
    requires ValidRun(run) && Current(Reached(run), id, token) && 0.0 <= random < 1.0
    ensures WellCarried(Reached(run), Carried(Reached(run), id, token, eligible, result, random), id,
                        eligible && Reached(run).now < Reached(run).rows[id].d.expiresAt, result)
  {
    RunKeepsInv(run);
    assert Sound(Reached(run), id) && WorkerOk(Reached(run).rows[id], token);
    if eligible && Reached(run).now < Reached(run).rows[id].d.expiresAt {
      TargetedClaims(Reached(run), id, token, result, random);
    } else {
      UntargetedClaims(Reached(run), id, token, eligible, result, random);
    }
  }

  /** A dispatcher whose claim was taken over finds no target and writes nothing, in every run. */
  lemma SupersededClaimsAreFenced(run: seq<Event>, id: Id, token: Token, eligible: bool)
    requires ValidRun(run) && Holds(Reached(run), id, token)
    requires Reached(run).rows[id].workers[token].attempt < Reached(run).rows[id].d.attempts
    ensures id in Next(Reached(run), Finish(id, token)).rows
    ensures Next(Reached(run), Finish(id, token)).rows[id].d == Reached(run).rows[id].d
    ensures !HasTarget(Reached(run).rows[id].d, token, Reached(run).now, eligible)
  {
    RunKeepsInv(run);
    assert Sound(Reached(run), id);
  }

  /** Accepted and discarded rows keep every column, to the end of the run. */
  lemma {:induction false} TerminalIsAbsorbing(run: seq<Event>, i: nat, id: Id)
    requires ValidRun(run) && i <= |run| && id in Reached(run[..i]).rows && !Reached(run[..i]).rows[id].d.status.Pending?
    ensures id in Reached(run).rows && Reached(run).rows[id].d == Reached(run[..i]).rows[id].d
    ensures Reached(run).rows[id].claims == Reached(run[..i]).rows[id].claims
  {
    if i == |run| {
      assert run[..i] == run;
    } else {
      assert run[..|run| - 1][..i] == run[..i];
      TerminalIsAbsorbing(run[..|run| - 1], i, id);
    }
  }

  /** The columns' checks hold in every state. */
  lemma {:induction false} RowsMeetTheirConstraints(run: seq<Event>, id: Id)
    requires ValidRun(run) && id in Reached(run).rows
    ensures var d := Reached(run).rows[id].d;
            && (d.token.None? <==> d.until.None?)
            && d.attempts == |Reached(run).rows[id].claims|
  {
    RunKeepsInv(run);
    assert Sound(Reached(run), id);
  }
}
