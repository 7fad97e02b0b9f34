/**
 * The dispatch loop. Between any two of its database calls the other dispatchers, the clock and the
 * notification writers take steps of their own; what is kept is a run of NotificationDelivery.
 */
module NotificationDispatch {
  import opened Wrappers
  import opened NotificationDelivery
  import B = NotificationBounds

  /** A database call that throws may have taken effect or not. */
  datatype Fault = Fine | ThrowsBefore | ThrowsAfter

  /** What one round meets outside the database. */
  datatype Round = Round(eligible: bool, result: Result, random: real)

  predicate SameWorker(s: Sys, t: Sys, id: Id, token: Token) {
    Holds(s, id, token) ==> Holds(t, id, token) && t.rows[id].workers[token] == s.rows[id].workers[token]
  }

  /** Every claim in `mine` but the current one was finished. */
  predicate Settled(s: Sys, mine: map<Token, Id>, current: Option<Token>) {
    forall token | token in mine && current != Some(token) :: InPhase(s, mine[token], token, Over)
  }

  /** A step of somebody else: it never acts under a token of ours. */
  predicate Foreign(e: Event, mine: map<Token, Id>) {
    match e
    case Claim(_, token) => token !in mine
    case Look(_, token, _) => token !in mine
    case Send(_, token, _) => token !in mine
    case Report(_, token, _) => token !in mine
    case Finish(_, token) => token !in mine
    case Recover(_, token) => token !in mine
    case _ => true
  }

  predicate OthersKept(s: Sys, t: Sys, mine: map<Token, Id>, current: Token) {
    forall token | token in mine && token != current :: SameWorker(s, t, mine[token], token)
  }

  predicate Ours(e: Event, id: Id, token: Token) {
    (e.Look? || e.Send? || e.Report? || e.Finish? || e.Recover?) && e.id == id && e.token == token
  }

  /** How far one of our steps takes its claim. */
  predicate Advances(e: Event, before: Worker, after: Worker) {
    && after.attempt == before.attempt
    && (e.Look? ==> after.phase.Ready? || after.phase.Reporting?)
    && (e.Send? ==> after.phase.Answered?)
    && (e.Report? ==> after.phase.Reporting?)
    && (e.Finish? ==> after.phase.Over?)
    && (e.Recover? ==> after.phase.Answered?)
  }

  lemma ForeignStepsKeepOurWorkers(s: Sys, e: Event, mine: map<Token, Id>, token: Token)
    requires Foreign(e, mine) && token in mine
    ensures SameWorker(s, Next(s, e), mine[token], token)
  {
  }

  lemma OurStepAdvances(s: Sys, e: Event, mine: map<Token, Id>, id: Id, token: Token)
    requires Ours(e, id, token) && Enabled(s, e)
    ensures Holds(s, id, token) && Holds(Next(s, e), id, token)
    ensures Advances(e, s.rows[id].workers[token], Next(s, e).rows[id].workers[token])
    ensures OthersKept(s, Next(s, e), mine, token)
  {
  }

  lemma SettledStays(s: Sys, t: Sys, before: map<Token, Id>, mine: map<Token, Id>, current: Token)
    requires Settled(s, before, Some(current)) && (forall token | token in mine && token != current :: token in before && before[token] == mine[token])
    requires forall token | token in before && token != current :: SameWorker(s, t, before[token], token)
    ensures Settled(t, mine, Some(current))
  {
    forall token | token in mine && token != current
      ensures InPhase(t, mine[token], token, Over)
    {
      assert InPhase(s, before[token], token, Over) && SameWorker(s, t, before[token], token);
    }
  }

  lemma EverybodyStaysSettled(s: Sys, t: Sys, mine: map<Token, Id>)
    requires Settled(s, mine, None) && forall token | token in mine :: SameWorker(s, t, mine[token], token)
    ensures Settled(t, mine, None)
  {
    forall token | token in mine
      ensures InPhase(t, mine[token], token, Over)
    {
      assert InPhase(s, mine[token], token, Over) && SameWorker(s, t, mine[token], token);
    }
  }

  /** Sends under claims of ours, and under none of them twice. */
  predicate OncePerClaim(sent: seq<Token>, mine: map<Token, Id>) {
    && (forall i :: 0 <= i < |sent| ==> sent[i] in mine)
    && (forall i, j :: 0 <= i < j < |sent| ==> sent[i] != sent[j])
  }

  lemma OneMoreClaim(before: map<Token, Id>, mine: map<Token, Id>, id: Id, token: Token, sent: seq<Token>, after: seq<Token>)
    requires token !in before && mine == before[token := id] && OncePerClaim(sent, before)
    requires after == sent || after == sent + [token]
    ensures OncePerClaim(after, mine) && |mine| == |before| + 1
  {
  }

  class Dispatcher {
    var now: int
    var rows: map<Id, Row>
    var nextToken: Token
    const rounds: nat -> Round
    const elsewhere: nat -> seq<Event>
    const faults: nat -> Fault
    var calls: nat
    var mine: map<Token, Id>
    ghost var trace: seq<Event>
    /** The claims this dispatcher has sent under, one entry a send. */
    ghost var sent: seq<Token>

    function State(): Sys
      reads this
    {
      Sys(now, rows, nextToken)
    }

    ghost predicate Valid()
      reads this
    {
      && ValidRun(trace) && Reached(trace) == State()
      && (forall n :: 0.0 <= rounds(n).random < 1.0)
      && (forall token | token in mine :: token < nextToken)
    }

    constructor (rounds: nat -> Round, elsewhere: nat -> seq<Event>, faults: nat -> Fault)
      requires forall n :: 0.0 <= rounds(n).random < 1.0
      ensures Valid() && trace == [] && mine == map[] && sent == []
    {
      this.rounds, this.elsewhere, this.faults, calls := rounds, elsewhere, faults, 0;
      now, rows, nextToken := 0, map[], 0;
      trace, mine, sent := [], map[], [];
    }

    /** Nobody else acts, and no database call throws. */
    ghost predicate Calm() {
      forall n :: elsewhere(n) == [] && faults(n).Fine?
    }

    ghost predicate Alone() {
      forall n :: elsewhere(n) == []
    }

    ghost predicate CarriedWith(s: Sys, t: Sys, id: Id, token: Token) {
      exists n :: t == B.Carried(s, id, token, rounds(n).eligible, rounds(n).result, rounds(n).random)
    }

    ghost predicate CarriesADueRow(s: Sys, t: Sys, token: Token) {
      exists id :: id in s.rows && Due(s.rows[id].d, s.now) && CarriedWith(Next(s, Claim(id, token)), t, id, token)
    }

    method Apply(e: Event)
      requires Valid() && Enabled(State(), e)
      modifies this`now, this`rows, this`nextToken, this`trace
      ensures Valid() && State() == Next(old(State()), e) && trace == old(trace) + [e]
    {
      var t := Next(State(), e);
      now, rows, nextToken := t.now, t.rows, t.nextToken;
      trace := trace + [e];
      assert trace[..|trace| - 1] == old(trace);
    }

    /** The rest of the world runs until our next database call. */
    method Elsewhere()
      requires Valid()
      modifies this`now, this`rows, this`nextToken, this`trace, this`calls
      ensures Valid() && old(trace) <= trace
      ensures forall token | token in mine :: SameWorker(old(State()), State(), mine[token], token)
      ensures calls == old(calls) + 1 && (Alone() ==> State() == old(State()))
    {
      var events := elsewhere(calls);
      calls := calls + 1;
      for i := 0 to |events|
        invariant Valid() && old(trace) <= trace
        invariant forall token | token in mine :: SameWorker(old(State()), State(), mine[token], token)
        invariant calls == old(calls) + 1 && (i == 0 ==> State() == old(State()))
      {
        ghost var before := State();
        if Enabled(State(), events[i]) && Foreign(events[i], mine) {
          Apply(events[i]);
          forall token | token in mine
            ensures SameWorker(old(State()), State(), mine[token], token)
          {
            ForeignStepsKeepOurWorkers(before, events[i], mine, token);
          }
        }
      }
    }
  
    /** Takes some due row, whichever the locks leave; none only if none is due. */
    method ClaimNotificationDelivery() returns (claimed: Option<(Id, Token)>)
      requires Valid()
      modifies this`now, this`rows, this`nextToken, this`trace, this`mine
      ensures Valid() && old(trace) <= trace
      ensures claimed.None? ==> State() == old(State()) && mine == old(mine) && forall id | id in rows :: !Due(rows[id].d, now)
      ensures claimed.Some? ==>
                var (id, token) := claimed.value;
                && token !in old(mine) && mine == old(mine)[token := id]
                && InPhase(State(), id, token, Claiming) && State().rows[id].workers[token].attempt >= 1
                && id in old(rows) && Due(old(rows)[id].d, now) && State() == Next(old(State()), Claim(id, token))
                && (forall other | other in old(mine) :: SameWorker(old(State()), State(), old(mine)[other], other))
    {
      if id :| id in rows && Due(rows[id].d, now) {
        var token := nextToken;
        Apply(Claim(id, token));
        mine := mine[token := id];
        return Some((id, token));
      }
      return None;
    }
  
    /** One step of our own under the claim of `token`, after whatever happened elsewhere since the last one. */
    method Act(e: Event, id: Id, token: Token)
      requires Valid() && token in mine && mine[token] == id
      requires Ours(e, id, token) && Enabled(State(), e)
      modifies this`now, this`rows, this`nextToken, this`trace, this`calls, this`sent
      ensures Valid() && old(trace) <= trace && Holds(State(), id, token)
      ensures Advances(e, old(State().rows[id].workers[token]), State().rows[id].workers[token])
      ensures OthersKept(old(State()), State(), mine, token)
      ensures sent == if e.Send? then old(sent) + [token] else old(sent)
      ensures calls == old(calls) + 1 && (Alone() ==> State() == Next(old(State()), e))
    {
      Elsewhere();
      assert SameWorker(old(State()), State(), mine[token], token);
      OurStepAdvances(State(), e, mine, id, token);
      Apply(e);
      if e.Send? {
        sent := sent + [token];
      }
    }

    /** The same as a database call, which may throw; then it is not known whether the step was taken. */
    method Try(e: Event, id: Id, token: Token) returns (ok: bool)
      requires Valid() && token in mine && mine[token] == id && (e.Look? || e.Finish?)
      requires Ours(e, id, token) && Enabled(State(), e)
      modifies this`now, this`rows, this`nextToken, this`trace, this`calls, this`sent
      ensures Valid() && old(trace) <= trace && Holds(State(), id, token) && sent == old(sent)
      ensures var before, after := old(State().rows[id].workers[token]), State().rows[id].workers[token];
              Advances(e, before, after) || (!ok && after == before)
      ensures OthersKept(old(State()), State(), mine, token)
      ensures ok <==> faults(old(calls)).Fine?
      ensures calls == if faults(old(calls)).ThrowsBefore? then old(calls) else old(calls) + 1
      ensures Alone() ==> State() == if faults(old(calls)).ThrowsBefore? then old(State()) else Next(old(State()), e)
    {
      var fault := faults(calls);
      ok := fault.Fine?;
      if !fault.ThrowsBefore? {
        Act(e, id, token);
      }
    }

    /** The failure path: discard the device if the service does not know it, then write the outcome. */
    method WriteFailure(id: Id, token: Token, round: Round) returns (ok: bool)
      requires Valid() && token in mine && mine[token] == id && Holds(State(), id, token)
      requires State().rows[id].workers[token].phase.Answered? && State().rows[id].workers[token].attempt >= 1
      requires 0.0 <= round.random < 1.0
      modifies this`now, this`rows, this`nextToken, this`trace, this`calls, this`sent
      ensures Valid() && old(trace) <= trace && Holds(State(), id, token) && sent == old(sent)
      ensures ok ==> InPhase(State(), id, token, Over)
      ensures OthersKept(old(State()), State(), mine, token)
      ensures Calm() ==> ok && State() == B.Written(old(State()), id, token, round.random)
      ensures Alone() && faults(old(calls) + 1).Fine? && old(rows[id].workers[token].phase.result) == Failed(Network, 0.0) ==>
                ok && State() == B.Written(old(State()), id, token, round.random)
    {
      var result := rows[id].workers[token].phase.result;
      if result.Failed? && result.code.Unregistered? && !faults(calls).Fine? {
        return false;
      }
      Act(Report(id, token, round.random), id, token);
      ok := Try(Finish(id, token), id, token);
    }

    /** The answered send is written; an acceptance that could not be written is treated as a network failure. */
    method WriteOutcome(id: Id, token: Token, round: Round) returns (ok: bool)
      requires Valid() && token in mine && mine[token] == id && Holds(State(), id, token)
      requires State().rows[id].workers[token].phase.Answered? && State().rows[id].workers[token].attempt >= 1
      requires 0.0 <= round.random < 1.0
      modifies this`now, this`rows, this`nextToken, this`trace, this`calls, this`sent
      ensures Valid() && old(trace) <= trace && Holds(State(), id, token) && sent == old(sent)
      ensures ok ==> InPhase(State(), id, token, Over)
      ensures OthersKept(old(State()), State(), mine, token)
      ensures Calm() ==> ok && State() == B.Written(old(State()), id, token, round.random)
      // An acceptance whose write throws is written again as a network failure.
      ensures Alone() && old(rows[id].workers[token].phase.result.Sent?) ==>
                && (faults(old(calls) + 1).ThrowsBefore? && faults(old(calls) + 3).Fine? ==>
                      ok && State() == B.WrittenAgain(Next(old(State()), Report(id, token, round.random)), id, token, round.random))
                && (faults(old(calls) + 1).ThrowsAfter? && faults(old(calls) + 4).Fine? ==>
                      ok && State() == B.WrittenAgain(B.Written(old(State()), id, token, round.random), id, token, round.random))
    {
      if rows[id].workers[token].phase.result.Sent? {
        ok := WriteAcceptance(id, token, round);
        if !ok { ok := WriteAgain(id, token, round); }
        return;
      }
      ok := WriteFailure(id, token, round);
    }

    method WriteAcceptance(id: Id, token: Token, round: Round) returns (ok: bool)
      requires Valid() && token in mine && mine[token] == id && Holds(State(), id, token)
      requires State().rows[id].workers[token].phase.Answered? && State().rows[id].workers[token].attempt >= 1
      requires 0.0 <= round.random < 1.0
      modifies this`now, this`rows, this`nextToken, this`trace, this`calls, this`sent
      ensures Valid() && old(trace) <= trace && Holds(State(), id, token) && sent == old(sent)
      ensures if ok then InPhase(State(), id, token, Over)
              else State().rows[id].workers[token].phase.Reporting? || State().rows[id].workers[token].phase.Over?
      ensures State().rows[id].workers[token].attempt == old(State().rows[id].workers[token].attempt)
      ensures OthersKept(old(State()), State(), mine, token)
      ensures ok <==> faults(old(calls) + 1).Fine?
      ensures calls == old(calls) + if faults(old(calls) + 1).ThrowsBefore? then 1 else 2
      ensures Alone() ==>
                State() == if faults(old(calls) + 1).ThrowsBefore? then Next(old(State()), Report(id, token, round.random))
                           else B.Written(old(State()), id, token, round.random)
    {
      Act(Report(id, token, round.random), id, token);
      ok := Try(Finish(id, token), id, token);
    }

    /** The write threw: the result counts as a network failure from here on. */
    method WriteAgain(id: Id, token: Token, round: Round) returns (ok: bool)
      requires Valid() && token in mine && mine[token] == id && Holds(State(), id, token)
      requires State().rows[id].workers[token].phase.Reporting? || State().rows[id].workers[token].phase.Over?
      requires State().rows[id].workers[token].attempt >= 1 && 0.0 <= round.random < 1.0
      modifies this`now, this`rows, this`nextToken, this`trace, this`calls, this`sent
      ensures Valid() && old(trace) <= trace && Holds(State(), id, token) && sent == old(sent)
      ensures ok ==> InPhase(State(), id, token, Over)
      ensures OthersKept(old(State()), State(), mine, token)
      ensures Alone() && faults(old(calls) + 2).Fine? ==> ok && State() == B.WrittenAgain(old(State()), id, token, round.random)
    {
      Act(Recover(id, token), id, token);
      ok := WriteFailure(id, token, round);
    }

    /**
     * One claim: look up the target, send once at most, write the outcome under the claim's own token. An
     * exception leaves the claim to its lease.
     */
    method Deliver(id: Id, token: Token, round: Round) returns (ok: bool)
      requires Valid() && token in mine && mine[token] == id && InPhase(State(), id, token, Claiming)
      requires 0.0 <= round.random < 1.0 && State().rows[id].workers[token].attempt >= 1
      modifies this`now, this`rows, this`nextToken, this`trace, this`calls, this`sent
      ensures Valid() && old(trace) <= trace
      ensures ok ==> InPhase(State(), id, token, Over)
      ensures sent == old(sent) || sent == old(sent) + [token]
      ensures OthersKept(old(State()), State(), mine, token)
      // Left alone, it carries the claim out.
      ensures Calm() ==>
                && ok && State() == B.Carried(old(State()), id, token, round.eligible, round.result, round.random)
                && (sent == old(sent) + [token] <==> InPhase(Next(old(State()), Look(id, token, round.eligible)), id, token, Ready))
    {
      ok := Try(Look(id, token, round.eligible), id, token);
      if !ok { return; }
      if rows[id].workers[token].phase.Ready? {
        Act(Send(id, token, round.result), id, token);
        ok := WriteOutcome(id, token, round);
      } else {
        ok := Try(Finish(id, token), id, token);
      }
    }

    /** The next claim, with all earlier ones settled. */
    method NextClaim() returns (claimed: Option<(Id, Token)>)
      requires Valid() && Settled(State(), mine, None)
      modifies this`now, this`rows, this`nextToken, this`trace, this`mine
      ensures Valid() && old(trace) <= trace
      ensures claimed.None? ==> Settled(State(), mine, None) && mine == old(mine) && forall id | id in rows :: !Due(rows[id].d, now)
      ensures claimed.Some? ==>
                var (id, token) := claimed.value;
                && token !in old(mine) && mine == old(mine)[token := id] && Settled(State(), mine, Some(token))
                && InPhase(State(), id, token, Claiming) && State().rows[id].workers[token].attempt >= 1
      ensures claimed.Some? ==>
                claimed.value.0 in old(rows) && Due(old(rows)[claimed.value.0].d, now)
                && State() == Next(old(State()), Claim(claimed.value.0, claimed.value.1))
    {
      claimed := ClaimNotificationDelivery();
      if claimed.Some? {
        SettledStays(old(State()), State(), old(mine), mine, claimed.value.1);
      }
    }

    /**
     * One round: a claim carried to its end, a claim left open because a call threw in it, or none, because
     * nothing was due or the claim itself threw.
     */
    method DispatchOne() returns (claimed: Option<Token>, ok: bool)
      requires Valid() && Settled(State(), mine, None) && OncePerClaim(sent, mine)
      modifies this`now, this`rows, this`nextToken, this`trace, this`calls, this`mine, this`sent
      ensures Valid() && old(trace) <= trace && OncePerClaim(sent, mine)
      ensures Settled(State(), mine, if ok then None else claimed)
      ensures claimed.None? ==>
                ok && mine == old(mine) && sent == old(sent)
                && (faults(calls).ThrowsBefore? || forall id | id in rows :: !Due(rows[id].d, now))
      ensures claimed.Some? ==> |mine| == |old(mine)| + 1 && |old(sent)| <= |sent| <= |old(sent)| + 1
      // Left alone, it takes a due row and carries it out.
      ensures Calm() && claimed.None? ==> forall id | id in rows :: !Due(rows[id].d, now)
      ensures Calm() && claimed.Some? ==> ok && CarriesADueRow(old(State()), State(), claimed.value)
    {
      Elsewhere();
      EverybodyStaysSettled(old(State()), State(), mine);
      claimed, ok := ClaimAndCarryOut();
    }

    method ClaimAndCarryOut() returns (claimed: Option<Token>, ok: bool)
      requires Valid() && Settled(State(), mine, None) && OncePerClaim(sent, mine)
      modifies this`now, this`rows, this`nextToken, this`trace, this`calls, this`mine, this`sent
      ensures Valid() && old(trace) <= trace && OncePerClaim(sent, mine)
      ensures Settled(State(), mine, if ok then None else claimed)
      ensures claimed.None? ==>
                ok && mine == old(mine) && sent == old(sent)
                && (faults(calls).ThrowsBefore? || forall id | id in rows :: !Due(rows[id].d, now))
      ensures claimed.Some? ==> |mine| == |old(mine)| + 1 && |old(sent)| <= |sent| <= |old(sent)| + 1
      ensures Calm() && claimed.Some? ==> ok && CarriesADueRow(old(State()), State(), claimed.value)
    {
      // A claim that throws ends the call; one that took effect all the same is left to its lease.
      var fault := faults(calls);
      if fault.ThrowsBefore? { return None, true; }
      var row := NextClaim();
      if row.None? { return None, true; }
      claimed := Some(row.value.1);
      ok := CarryOut(row.value.0, row.value.1, fault.ThrowsAfter?, old(mine));
      if Calm() { ClaimsAreDue(old(State()), State(), row.value.0, row.value.1); }
    }

    lemma ClaimsAreDue(s: Sys, t: Sys, id: Id, token: Token)
      requires id in s.rows && Due(s.rows[id].d, s.now) && CarriedWith(Next(s, Claim(id, token)), t, id, token)
      ensures CarriesADueRow(s, t, token)
    {
    }

    /** A claim whose own call threw after it took effect is never worked on. */
    method CarryOut(id: Id, token: Token, lost: bool, ghost before: map<Token, Id>) returns (ok: bool)
      requires Valid() && token !in before && mine == before[token := id] && OncePerClaim(sent, before)
      requires Settled(State(), mine, Some(token)) && InPhase(State(), id, token, Claiming)
      requires State().rows[id].workers[token].attempt >= 1
      modifies this`now, this`rows, this`nextToken, this`trace, this`calls, this`sent
      ensures Valid() && old(trace) <= trace && Settled(State(), mine, if ok then None else Some(token))
      ensures OncePerClaim(sent, mine) && |mine| == |before| + 1 && |old(sent)| <= |sent| <= |old(sent)| + 1
      ensures Calm() && !lost ==> ok && CarriedWith(old(State()), State(), id, token)
    {
      ok := false;
      if !lost {
        ok := Deliver(id, token, rounds(calls));
        SettledStays(old(State()), State(), mine, mine, token);
      }
      OneMoreClaim(before, mine, id, token, old(sent), sent);
    }

    /**
     * At most twenty claims. Each is carried to its end, except the last if a database call threw in it; and
     * there are fewer only then, or when nothing was due. No claim is sent under twice.
     */
    method DispatchNotifications() returns (processed: nat, threw: Option<Token>)
      requires Valid() && Settled(State(), mine, None) && OncePerClaim(sent, mine)
      modifies this`now, this`rows, this`nextToken, this`trace, this`calls, this`mine, this`sent
      ensures Valid() && old(trace) <= trace && Settled(State(), mine, threw) && OncePerClaim(sent, mine)
      ensures processed <= BATCH && |mine| == |old(mine)| + processed + if threw.Some? then 1 else 0
      ensures |sent| <= |old(sent)| + processed + if threw.Some? then 1 else 0
      ensures processed < BATCH && threw.None? ==>
                faults(calls).ThrowsBefore? || forall id | id in rows :: !Due(rows[id].d, now)
      ensures Calm() ==> threw.None? && (processed < BATCH ==> forall id | id in rows :: !Due(rows[id].d, now))
    {
      processed, threw := 0, None;
      while processed < BATCH
        invariant processed <= BATCH && threw.None?
        invariant Valid() && old(trace) <= trace && Settled(State(), mine, None)
        invariant OncePerClaim(sent, mine) && |sent| <= |old(sent)| + processed && |mine| == |old(mine)| + processed
      {
        var claimed, ok := DispatchOne();
        if claimed.None? { return; }
        if !ok { return processed, claimed; }
        processed := processed + 1;
      }
    }
  }
}
