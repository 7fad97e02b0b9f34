/**
 * The second factor of the console. A login reads the account's factor outside any transaction, verifies
 * the one-time password against that snapshot, and then commits by compare-and-set under the account's
 * locks. Setup, resets, access changes and other logins interleave freely between these calls.
 */
module ConsoleMfa {
  import opened Wrappers

  type Account = nat
  type Secret = nat      // the stored, encrypted secret
  type Otp = nat
  type AttemptId = nat

  /** The six digits of a secret at a time step. */
  type Totp = (Secret, nat) -> Otp

  /** The row of one account. The source keeps the same four columns. */
  datatype Mfa = Mfa(secret: Option<Secret>, enabledAt: Option<int>, lastUsedStep: Option<nat>, version: nat)

  /** `credential` stands for the columns of the account and its password that a login compares. */
  datatype Access = Access(admin: bool, active: bool, credential: nat)

  datatype Attempt =
    | Checked(account: Account, credential: nat)
    | Verified(account: Account, credential: nat, otp: Otp, expected: Mfa, step: nat)

  /** An accepted one-time password, with the number of resets the account had seen. */
  datatype Accept = Accept(account: Account, era: nat, version: nat, secret: Secret, step: nat, otp: Otp)

  datatype State = State(
    accounts: map<Account, Access>,
    rows: map<Account, Mfa>,
    attempts: map<AttemptId, Attempt>,
    eras: map<Account, nat>,
    accepted: seq<Accept>)

  const START := State(map[], map[], map[], map[], [])

  const PERIOD := 30

  // ---------------------------------------------------------------- the repository

  /** The first secret wins while the factor is pending; an enabled factor is left alone. */
  function Pending(m: Option<Mfa>, candidate: Secret): Option<Mfa> {
    match m
    case None => Some(Mfa(Some(candidate), None, None, 1))
    case Some(row) =>
      if row.enabledAt.Some? then None
      else Some(row.(secret := if row.secret.Some? then row.secret else Some(candidate)))
  }

  function Reset(m: Mfa): Mfa { Mfa(None, None, None, m.version + 1) }

  function Bumped(m: Option<Mfa>): Mfa {
    match m
    case None => Mfa(None, None, None, 1)
    case Some(row) => row.(version := row.version + 1)
  }

  /** The update's where clause. */
  predicate Consumable(m: Mfa, expected: Mfa, step: nat) {
    && m.version == expected.version && m.secret == expected.secret && m.secret.Some? && m.enabledAt == expected.enabledAt
    && (m.lastUsedStep.None? || m.lastUsedStep.value < step)
  }

  function Consumed(m: Mfa, expected: Mfa, step: nat, now: int): Mfa {
    m.(lastUsedStep := Some(step), enabledAt := if expected.enabledAt.Some? then expected.enabledAt else Some(now))
  }

  /** One step of tolerance around the clock, and later than the last one the reader saw. */
  predicate Verifies(totp: Totp, secret: Secret, otp: Otp, epoch: nat, last: Option<nat>, step: nat) {
    && totp(secret, step) == otp
    && (epoch - 30) / PERIOD <= step <= (epoch + 30) / PERIOD
    && (last.Some? ==> step > last.value)
  }

  function RowOf(s: State, account: Account): Option<Mfa> {
    if account in s.rows then Some(s.rows[account]) else None
  }

  function VersionOf(s: State, account: Account): Option<nat> {
    if account in s.rows then Some(s.rows[account].version) else None
  }

  function EraOf(s: State, account: Account): nat {
    if account in s.eras then s.eras[account] else 0
  }

  predicate CurrentCredential(s: State, account: Account, credential: nat) {
    account in s.accounts && s.accounts[account] == Access(true, true, credential)
  }

  /** What a session's proof is checked against on every request. */
  predicate Authorizes(s: State, account: Account, version: nat) {
    && account in s.accounts && s.accounts[account].admin && s.accounts[account].active
    && account in s.rows && s.rows[account].enabledAt.Some? && s.rows[account].version == version
  }

  // ---------------------------------------------------------------- the transition system

  datatype Event =
    | ChangeAccount(account: Account, access: Access)        // sign-up and password changes
    | CheckPassword(id: AttemptId, account: Account)
    | Setup(id: AttemptId, candidate: Secret)
    | ReadFactor(id: AttemptId, confirming: Option<nat>, otp: Otp, epoch: nat, step: nat)
    | Commit(id: AttemptId, now: int)
    | ResetFactor(account: Account, version: Option<nat>)
    | ChangeAccess(account: Account, admin: bool, active: bool, version: Option<nat>, nextAdmin: bool, nextActive: bool)

  /** The snapshot a reader may go on with: pending under the version it names, or enabled when it names none. */
  predicate Readable(m: Mfa, confirming: Option<nat>) {
    && m.secret.Some?
    && (if confirming.Some? then m.enabledAt.None? && m.version == confirming.value else m.enabledAt.Some?)
  }

  predicate Reads(totp: Totp, s: State, e: Event)
    requires e.ReadFactor?
  {
    && e.id in s.attempts && s.attempts[e.id].Checked? && s.attempts[e.id].account in s.rows
    && var m := s.rows[s.attempts[e.id].account];
       Readable(m, e.confirming) && Verifies(totp, m.secret.value, e.otp, e.epoch, m.lastUsedStep, e.step)
  }

  predicate Accepts(s: State, id: AttemptId) {
    && id in s.attempts && s.attempts[id].Verified?
    && var a := s.attempts[id];
       CurrentCredential(s, a.account, a.credential) && a.account in s.rows && Consumable(s.rows[a.account], a.expected, a.step)
  }

  function Accepted(s: State, id: AttemptId, now: int): State
    requires Accepts(s, id)
  {
    var a := s.attempts[id];
    var m := s.rows[a.account];
    s.(rows := s.rows[a.account := Consumed(m, a.expected, a.step, now)], attempts := s.attempts - {id},
       accepted := s.accepted + [Accept(a.account, EraOf(s, a.account), m.version, m.secret.value, a.step, a.otp)])
  }

  function Next(totp: Totp, s: State, e: Event): State {
    match e
    case ChangeAccount(account, access) => s.(accounts := s.accounts[account := access])
    case CheckPassword(id, account) =>
      if account in s.accounts && s.accounts[account].admin && s.accounts[account].active
      then s.(attempts := s.attempts[id := Checked(account, s.accounts[account].credential)]) else s
    case Setup(id, candidate) =>
      if id in s.attempts && s.attempts[id].Checked? && CurrentCredential(s, s.attempts[id].account, s.attempts[id].credential)
      then
        var account := s.attempts[id].account;
        var row := Pending(RowOf(s, account), candidate);
        if row.Some? then s.(rows := s.rows[account := row.value]) else s
      else s
    case ReadFactor(id, _, otp, _, step) =>
      if Reads(totp, s, e)
      then
        var a := s.attempts[id];
        s.(attempts := s.attempts[id := Verified(a.account, a.credential, otp, s.rows[a.account], step)])
      else s
    case Commit(id, now) => if Accepts(s, id) then Accepted(s, id, now) else s.(attempts := s.attempts - {id})
    case ResetFactor(account, version) =>
      if account in s.accounts && VersionOf(s, account) == version
      then s.(rows := s.rows[account := if account in s.rows then Reset(s.rows[account]) else Bumped(None)],
              eras := s.eras[account := EraOf(s, account) + 1])
      else s
    case ChangeAccess(account, admin, active, version, nextAdmin, nextActive) =>
      if account in s.accounts && s.accounts[account].admin == admin && s.accounts[account].active == active
         && VersionOf(s, account) == version
      then s.(accounts := s.accounts[account := s.accounts[account].(admin := nextAdmin, active := nextActive)],
              rows := s.rows[account := Bumped(RowOf(s, account))])
      else s
  }

  function Reached(totp: Totp, run: seq<Event>): State {
    if run == [] then START else Next(totp, Reached(totp, run[..|run| - 1]), run[|run| - 1])
  }

  // ---------------------------------------------------------------- the invariant

  /** The table's check constraint. */
  predicate RowOk(m: Mfa) {
    && m.version > 0
    && if m.enabledAt.None? then m.lastUsedStep.None? else m.secret.Some? && m.lastUsedStep.Some?
  }

  /** An earlier acceptance, seen from the current row. */
  predicate Past(s: State, a: Accept) {
    && a.account in s.rows && a.version <= s.rows[a.account].version && a.era <= EraOf(s, a.account)
    && (a.version == s.rows[a.account].version ==> a.era == EraOf(s, a.account))
    && (a.era == EraOf(s, a.account) ==>
          s.rows[a.account].lastUsedStep.Some? && a.step <= s.rows[a.account].lastUsedStep.value)
  }

  /** Two acceptances of one account, in order. */
  predicate InOrder(a: Accept, b: Accept) {
    a.account == b.account ==>
      && a.version <= b.version && a.era <= b.era && (a.version == b.version ==> a.era == b.era)
      && (a.era == b.era ==> a.step < b.step)
  }

  ghost predicate AttemptOk(totp: Totp, a: Attempt) {
    a.Verified? ==> a.expected.secret.Some? && totp(a.expected.secret.value, a.step) == a.otp
  }

  ghost predicate Inv(totp: Totp, s: State) {
    && (forall account | account in s.rows :: RowOk(s.rows[account]))
    && (forall id | id in s.attempts :: AttemptOk(totp, s.attempts[id]))
    && (forall i :: 0 <= i < |s.accepted| ==> Past(s, s.accepted[i]))
    && (forall i :: 0 <= i < |s.accepted| ==> totp(s.accepted[i].secret, s.accepted[i].step) == s.accepted[i].otp)
    && (forall i, j :: 0 <= i < j < |s.accepted| ==> InOrder(s.accepted[i], s.accepted[j]))
  }

  lemma AcceptKeepsInv(totp: Totp, s: State, id: AttemptId, now: int)
    requires Inv(totp, s) && Accepts(s, id)
    ensures Inv(totp, Accepted(s, id, now))
  {
  }

  lemma StepKeepsInv(totp: Totp, s: State, e: Event)
    requires Inv(totp, s)
    ensures Inv(totp, Next(totp, s, e))
  {
    if e.Commit? && Accepts(s, e.id) {
      AcceptKeepsInv(totp, s, e.id, e.now);
    } else {
      var t := Next(totp, s, e);
      assert t.accepted == s.accepted;
      forall i | 0 <= i < |s.accepted|
        ensures Past(t, s.accepted[i])
      {
        assert Past(s, s.accepted[i]);
        if s.accepted[i].account in s.rows { assert RowOk(s.rows[s.accepted[i].account]); }
      }
    }
  }

  lemma {:induction false} RunKeepsInv(totp: Totp, run: seq<Event>)
    ensures Inv(totp, Reached(totp, run))
  {
    if run != [] {
      RunKeepsInv(totp, run[..|run| - 1]);
      StepKeepsInv(totp, Reached(totp, run[..|run| - 1]), run[|run| - 1]);
    }
  }

  // ---------------------------------------------------------------- single use

  /**
   * Accepted steps of an account increase strictly within a version, and across access changes as long as
   * the factor was not reset; so no one-time password is accepted twice.
   */
  lemma StepsAreUsedOnce(totp: Totp, run: seq<Event>, i: nat, j: nat)
    requires i < j < |Reached(totp, run).accepted|
    ensures InOrder(Reached(totp, run).accepted[i], Reached(totp, run).accepted[j])
    ensures var a, b := Reached(totp, run).accepted[i], Reached(totp, run).accepted[j];
            a.account == b.account && a.version == b.version ==> a.step < b.step
  {
    RunKeepsInv(totp, run);
  }

  /** What was accepted matched the secret that was stored when it was accepted, and enabled the factor. */
  lemma AcceptedAgainstTheCurrentSecret(totp: Totp, run: seq<Event>, id: AttemptId, now: int)
    requires Accepts(Reached(totp, run), id)
    ensures var s, a := Reached(totp, run), Reached(totp, run).attempts[id];
            var t := Next(totp, s, Commit(id, now));
            && s.rows[a.account].secret.Some? && totp(s.rows[a.account].secret.value, a.step) == a.otp
            && a.account in s.accounts && s.accounts[a.account] == Access(true, true, a.credential)
            && Authorizes(t, a.account, s.rows[a.account].version)
            && t.rows[a.account].lastUsedStep == Some(a.step)
            && !Accepts(t, id)
  {
    RunKeepsInv(totp, run);
    assert AttemptOk(totp, Reached(totp, run).attempts[id]);
  }

  /** Of the attempts that verified the same step of one version, only the first to commit is accepted. */
  lemma RivalsLose(totp: Totp, s: State, id: AttemptId, rival: AttemptId, now: int)
    requires Accepts(s, id) && rival in s.attempts && s.attempts[rival].Verified? && rival != id
    requires s.attempts[rival].account == s.attempts[id].account && s.attempts[rival].step <= s.attempts[id].step
    ensures !Accepts(Next(totp, s, Commit(id, now)), rival)
  {
  }

  /** The window is the step of the clock and its two neighbours, those after the last used one. */
  lemma TheWindowIsThreeSteps(totp: Totp, secret: Secret, otp: Otp, epoch: nat, last: Option<nat>, step: nat)
    ensures Verifies(totp, secret, otp, epoch, last, step) <==>
              totp(secret, step) == otp && -1 <= step - epoch / PERIOD <= 1 && (last.None? || last.value < step)
  {
  }

  // ---------------------------------------------------------------- secrets

  /** The same secret, as long as the factor was not reset. */
  predicate SecretKept(s: State, t: State, account: Account) {
    account in s.rows && s.rows[account].secret.Some? && EraOf(t, account) == EraOf(s, account) ==>
      account in t.rows && t.rows[account].secret == s.rows[account].secret
  }

  lemma StepKeepsSecret(totp: Totp, s: State, e: Event, account: Account)
    ensures SecretKept(s, Next(totp, s, e), account) && EraOf(s, account) <= EraOf(Next(totp, s, e), account)
  {
  }

  /** A stored secret changes only by a reset: repeated setups all return the first one. */
  lemma {:induction false} SecretsChangeOnlyByReset(totp: Totp, run: seq<Event>, i: nat, account: Account)
    requires i <= |run|
    ensures SecretKept(Reached(totp, run[..i]), Reached(totp, run), account)
    ensures EraOf(Reached(totp, run[..i]), account) <= EraOf(Reached(totp, run), account)
  {
    if i == |run| {
      assert run[..i] == run;
    } else {
      assert run[..|run| - 1][..i] == run[..i];
      SecretsChangeOnlyByReset(totp, run[..|run| - 1], i, account);
      StepKeepsSecret(totp, Reached(totp, run[..|run| - 1]), run[|run| - 1], account);
    }
  }

  // ---------------------------------------------------------------- versions

  lemma StepGrows(totp: Totp, s: State, e: Event, account: Account)
    requires account in s.rows
    ensures account in Next(totp, s, e).rows && s.rows[account].version <= Next(totp, s, e).rows[account].version
  {
  }

  lemma {:induction false} VersionsOnlyGrow(totp: Totp, run: seq<Event>, i: nat, account: Account)
    requires i <= |run| && account in Reached(totp, run[..i]).rows
    ensures account in Reached(totp, run).rows
    ensures Reached(totp, run[..i]).rows[account].version <= Reached(totp, run).rows[account].version
  {
    if i == |run| {
      assert run[..i] == run;
    } else {
      assert run[..|run| - 1][..i] == run[..i];
      VersionsOnlyGrow(totp, run[..|run| - 1], i, account);
      StepGrows(totp, Reached(totp, run[..|run| - 1]), run[|run| - 1], account);
    }
  }

  /** A proof that stopped matching the account's version never authorizes again. */
  lemma RevokedProofsStayRevoked(totp: Totp, run: seq<Event>, i: nat, account: Account, version: nat)
    requires i <= |run| && account in Reached(totp, run[..i]).rows
    requires version < Reached(totp, run[..i]).rows[account].version
    ensures !Authorizes(Reached(totp, run), account, version)
  {
    VersionsOnlyGrow(totp, run, i, account);
  }

  /** A reset or an access change that goes through ends every proof issued before it. */
  lemma RevocationTakesEffect(totp: Totp, run: seq<Event>, i: nat, account: Account, version: nat)
    requires i < |run| && account in Reached(totp, run[..i]).rows && version <= Reached(totp, run[..i]).rows[account].version
    requires (run[i].ResetFactor? || run[i].ChangeAccess?) && run[i].account == account
    requires Next(totp, Reached(totp, run[..i]), run[i]) != Reached(totp, run[..i])
    ensures !Authorizes(Reached(totp, run), account, version)
  {
    assert run[..i + 1][..i] == run[..i];
    RevokedProofsStayRevoked(totp, run, i + 1, account, version);
  }

  /** A proof needs an active administrator with an enabled factor, and at any moment only one version is good. */
  lemma OneProofIsGood(s: State, account: Account, version: nat, other: nat)
    requires Authorizes(s, account, version)
    ensures s.accounts[account].admin && s.accounts[account].active && s.rows[account].enabledAt.Some?
    ensures Authorizes(s, account, other) <==> other == version
  {
  }

  lemma {:induction false} RowsMeetTheirConstraints(totp: Totp, run: seq<Event>, account: Account)
    requires account in Reached(totp, run).rows
    ensures RowOk(Reached(totp, run).rows[account])
  {
    RunKeepsInv(totp, run);
  }
}
