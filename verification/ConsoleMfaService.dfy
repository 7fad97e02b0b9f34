/**
 * The services over the factor's row. Between their database calls anything else may happen; what they do
 * is a run of ConsoleMfa, and a login they let in is an acceptance of that run.
 */
module ConsoleMfaService {
  import opened Wrappers
  import opened ConsoleMfa

  /** A step of somebody else never acts for our attempt. */
  predicate Foreign(e: Event, id: AttemptId) {
    (e.CheckPassword? || e.Setup? || e.ReadFactor? || e.Commit?) ==> e.id != id
  }

  predicate SameAttempt(s: State, t: State, id: AttemptId) {
    id in s.attempts ==> id in t.attempts && t.attempts[id] == s.attempts[id]
  }

  lemma ForeignStepsKeepOurAttempt(totp: Totp, s: State, e: Event, id: AttemptId)
    requires Foreign(e, id)
    ensures SameAttempt(s, Next(totp, s, e), id)
  {
  }

  /** Up to three steps can match; the earliest that does is taken. */
  method VerifyAdminMfaTotp(totp: Totp, secret: Secret, otp: Otp, epoch: nat, last: Option<nat>) returns (step: Option<nat>)
    ensures step.Some? ==> Verifies(totp, secret, otp, epoch, last, step.value)
    ensures step.None? ==> forall n: nat :: !Verifies(totp, secret, otp, epoch, last, n)
  {
    var first := if epoch < 30 then 0 else (epoch - 30) / PERIOD;
    for n := first to (epoch + 30) / PERIOD + 1
      invariant first <= n
      invariant forall m: nat :: first <= m < n ==> !Verifies(totp, secret, otp, epoch, last, m)
    {
      if totp(secret, n) == otp && (last.None? || n > last.value) {
        return Some(n);
      }
    }
    return None;
  }

  class Console {
    var accounts: map<Account, Access>
    var rows: map<Account, Mfa>
    var attempts: map<AttemptId, Attempt>
    var eras: map<Account, nat>
    var accepted: seq<Accept>
    const totp: Totp
    const elsewhere: nat -> seq<Event>
    var calls: nat
    ghost var trace: seq<Event>

    function Current(): State
      reads this
    {
      State(accounts, rows, attempts, eras, accepted)
    }

    ghost predicate Valid()
      reads this
    {
      Reached(totp, trace) == Current()
    }

    constructor (totp: Totp, elsewhere: nat -> seq<Event>)
      ensures Valid() && trace == []
    {
      this.totp, this.elsewhere, calls := totp, elsewhere, 0;
      accounts, rows, attempts, eras, accepted, trace := map[], map[], map[], map[], [], [];
    }

    method Apply(e: Event)
      requires Valid()
      modifies this`accounts, this`rows, this`attempts, this`eras, this`accepted, this`trace
      ensures Valid() && Current() == Next(totp, old(Current()), e) && trace == old(trace) + [e]
    {
      var t := Next(totp, Current(), e);
      accounts, rows, attempts, eras, accepted := t.accounts, t.rows, t.attempts, t.eras, t.accepted;
      trace := trace + [e];
      assert trace[..|trace| - 1] == old(trace);
    }

    /** Everybody else, until our next database call. */
    method Elsewhere(id: AttemptId)
      requires Valid()
      modifies this`accounts, this`rows, this`attempts, this`eras, this`accepted, this`trace, this`calls
      ensures Valid() && old(trace) <= trace && SameAttempt(old(Current()), Current(), id) && calls == old(calls) + 1
      ensures elsewhere(old(calls)) == [] ==> Current() == old(Current())
    {
      var events := elsewhere(calls);
      calls := calls + 1;
      for i := 0 to |events|
        invariant Valid() && old(trace) <= trace && SameAttempt(old(Current()), Current(), id)
        invariant calls == old(calls) + 1 && (i == 0 ==> Current() == old(Current()))
      {
        if Foreign(events[i], id) {
          ForeignStepsKeepOurAttempt(totp, Current(), events[i], id);
          Apply(events[i]);
        }
      }
    }

    method EnsurePendingAdminMfa(account: Account, candidate: Secret) returns (pending: Option<Mfa>)
      modifies this`rows
      ensures pending == Pending(RowOf(old(Current()), account), candidate)
      ensures rows == if pending.Some? then old(rows)[account := pending.value] else old(rows)
    {
      if account !in rows {
        rows := rows[account := Mfa(Some(candidate), None, None, 1)];
        return Some(rows[account]);
      }
      if rows[account].enabledAt.Some? {
        return None;
      }
      if rows[account].secret.None? {
        rows := rows[account := rows[account].(secret := Some(candidate))];
      } else {
        rows := rows[account := rows[account]];
      }
      return Some(rows[account]);
    }

    method ResetAdminMfa(account: Account, expected: nat) returns (version: Option<nat>)
      modifies this`rows
      ensures if account in old(rows) && old(rows)[account].version == expected
              then version == Some(expected + 1) && rows == old(rows)[account := Reset(old(rows)[account])]
              else version.None? && rows == old(rows)
    {
      if account !in rows || rows[account].version != expected {
        return None;
      }
      rows := rows[account := Mfa(None, None, None, expected + 1)];
      return Some(expected + 1);
    }

    method IncrementAdminMfaVersion(account: Account) returns (version: nat)
      modifies this`rows
      ensures rows == old(rows)[account := Bumped(RowOf(old(Current()), account))] && version == rows[account].version
    {
      version := 1;
      var row := Mfa(None, None, None, 1);
      if account in rows {
        version := rows[account].version + 1;
        row := rows[account].(version := version);
      }
      rows := rows[account := row];
    }

    /** The compare-and-set that spends a step. */
    method ConsumeAdminMfaStep(account: Account, expected: Mfa, step: nat, now: int) returns (version: Option<nat>)
      requires expected.secret.Some?
      modifies this`rows
      ensures if account in old(rows) && Consumable(old(rows)[account], expected, step)
              then version == Some(expected.version) && rows == old(rows)[account := Consumed(old(rows)[account], expected, step, now)]
              else version.None? && rows == old(rows)
    {
      if account !in rows {
        return None;
      }
      var row := rows[account];
      if row.version != expected.version || row.secret != expected.secret || row.enabledAt != expected.enabledAt
         || (row.lastUsedStep.Some? && row.lastUsedStep.value >= step) {
        return None;
      }
      rows := rows[account := Mfa(row.secret, if expected.enabledAt.Some? then expected.enabledAt else Some(now), Some(step), row.version)];
      return Some(row.version);
    }

    /** The transaction that ends a login or a confirmation. */
    method CommitOtp(id: AttemptId, account: Account, credential: nat, otp: Otp, expected: Mfa, step: nat, now: int) returns (version: Option<nat>)
      requires Valid() && expected.secret.Some? && id in attempts && attempts[id] == Verified(account, credential, otp, expected, step)
      modifies this`rows, this`attempts, this`accepted, this`trace
      ensures Valid() && trace == old(trace) + [Commit(id, now)]
      ensures version.Some? <==> Accepts(old(Current()), id)
      ensures version.Some? ==> Current() == Accepted(old(Current()), id, now) && version == Some(expected.version)
    {
      trace := trace + [Commit(id, now)];
      assert trace[..|trace| - 1] == old(trace);
      version := None;
      if CurrentCredential(Current(), account, credential) {
        version := ConsumeAdminMfaStep(account, expected, step, now);
      }
      if version.Some? {
        accepted := accepted + [Accept(account, EraOf(Current(), account), version.value, expected.secret.value, step, otp)];
      }
      attempts := attempts - {id};
    }

    /** Some step of the window after the last used one gives this password. */
    ghost predicate Matches(m: Mfa, otp: Otp, epoch: nat)
    {
      m.secret.Some? && exists n: nat :: Verifies(totp, m.secret.value, otp, epoch, m.lastUsedStep, n)
    }

    /** Who is let in when nobody else acts: an enabled factor to log in, a pending one to confirm under its version. */
    ghost predicate MayPass(account: Account, confirming: Option<nat>, otp: Otp, epoch: nat)
      reads this
    {
      && account in accounts && accounts[account].admin && accounts[account].active
      && account in rows && Matches(rows[account], otp, epoch)
      && (match confirming
          case None => rows[account].enabledAt.Some?
          case Some(version) => rows[account].enabledAt.None? && rows[account].version == version)
    }

    /**
     * The account is let in by the run's newest acceptance: its password, the stored secret and step. As the row
     * stood before this commit, a login found the factor enabled and a confirmation found it pending.
     */
    ghost predicate LetIn(account: Account, version: nat, confirming: Option<nat>, otp: Otp, id: AttemptId, now: int)
      reads this
    {
      && Authorizes(Current(), account, version) && accepted != []
      && (var last := accepted[|accepted| - 1];
          last.account == account && last.version == version && last.otp == otp
          && Some(last.step) == rows[account].lastUsedStep && Some(last.secret) == rows[account].secret)
      && trace != [] && trace[|trace| - 1] == Commit(id, now)
      && var before := Reached(totp, trace[..|trace| - 1]);
         && account in before.rows && before.rows[account].version == version
         && (match confirming
             case None => before.rows[account].enabledAt.Some? && rows[account].enabledAt == before.rows[account].enabledAt
             case Some(named) => before.rows[account].enabledAt.None? && rows[account].enabledAt == Some(now) && named == version)
    }

    /** The snapshot outside the transaction, and the step the password matches under it. */
    method ReadAndVerify(id: AttemptId, account: Account, credential: nat, confirming: Option<nat>, otp: Otp, epoch: nat)
      returns (read: Option<(Mfa, nat)>)
      requires Valid() && id in attempts && attempts[id] == Checked(account, credential)
      modifies this`accounts, this`rows, this`attempts, this`eras, this`accepted, this`trace
      ensures Valid() && old(trace) <= trace
      ensures read.Some? ==>
                && id in attempts && attempts[id] == Verified(account, credential, otp, read.value.0, read.value.1)
                && account in old(rows) && read.value.0 == old(rows)[account] && Readable(read.value.0, confirming)
                && Verifies(totp, read.value.0.secret.value, otp, epoch, read.value.0.lastUsedStep, read.value.1)
                && Current() == old(Current()).(attempts := attempts)
      ensures read.Some? <==> account in old(rows) && Readable(old(rows)[account], confirming) && Matches(old(rows)[account], otp, epoch)
      ensures read.None? ==> Current() == old(Current())
    {
      if account !in rows || !Readable(rows[account], confirming) {
        return None;
      }
      var snapshot := rows[account];
      var step := VerifyAdminMfaTotp(totp, snapshot.secret.value, otp, epoch, snapshot.lastUsedStep);
      if step.None? {
        return None;
      }
      Apply(ReadFactor(id, confirming, otp, epoch, step.value));
      return Some((snapshot, step.value));
    }

    /** `confirming` is the version a confirmation names; a login names none. The result is the proof's version. */
    method ConsumeOtp(id: AttemptId, account: Account, passwordMatches: bool, confirming: Option<nat>, otp: Otp, epoch: nat, now: int)
      returns (proof: Option<nat>)
      requires Valid()
      modifies this`accounts, this`rows, this`attempts, this`eras, this`accepted, this`trace, this`calls
      ensures Valid() && old(trace) <= trace
      ensures proof.Some? ==> LetIn(account, proof.value, confirming, otp, id, now)
      ensures elsewhere(old(calls)) == [] && elsewhere(old(calls) + 1) == [] ==>
                && (proof.Some? <==> passwordMatches && old(MayPass(account, confirming, otp, epoch)))
                && (proof.Some? ==> proof == old(VersionOf(Current(), account)))
    {
      if !passwordMatches || account !in accounts || !accounts[account].admin || !accounts[account].active {
        return None;
      }
      var credential := accounts[account].credential;
      Apply(CheckPassword(id, account));
      Elsewhere(id);
      proof := VerifyAndCommit(id, account, credential, confirming, otp, epoch, now);
    }

    /** The snapshot, whatever happens in between, and the commit. */
    method VerifyAndCommit(id: AttemptId, account: Account, credential: nat, confirming: Option<nat>, otp: Otp, epoch: nat, now: int)
      returns (proof: Option<nat>)
      requires Valid() && id in attempts && attempts[id] == Checked(account, credential)
      modifies this`accounts, this`rows, this`attempts, this`eras, this`accepted, this`trace, this`calls
      ensures Valid() && old(trace) <= trace
      ensures proof.Some? ==> LetIn(account, proof.value, confirming, otp, id, now)
      ensures elsewhere(old(calls)) == [] ==>
                && (proof.Some? <==>
                      CurrentCredential(old(Current()), account, credential) && account in old(rows)
                      && Readable(old(rows)[account], confirming) && Matches(old(rows)[account], otp, epoch))
                && (proof.Some? ==> proof == old(VersionOf(Current(), account)))
    {
      var read := ReadAndVerify(id, account, credential, confirming, otp, epoch);
      if read.None? {
        return None;
      }
      var (snapshot, step) := read.value;
      Elsewhere(id);
      ghost var before := trace;
      proof := CommitOtp(id, account, credential, otp, snapshot, step, now);
      assert trace[..|trace| - 1] == before;
    }

    /** The secret the caller enrols is the one stored: the first of the pending ones. */
    method SetupConsoleMfa(id: AttemptId, account: Account, passwordMatches: bool, candidate: Secret) returns (pending: Option<Mfa>)
      requires Valid()
      modifies this`accounts, this`rows, this`attempts, this`eras, this`accepted, this`trace, this`calls
      ensures Valid() && old(trace) <= trace
      ensures pending.Some? ==> account in rows && rows[account] == pending.value && pending.value.secret.Some? && pending.value.enabledAt.None?
      ensures elsewhere(old(calls)) == [] ==>
                && (pending.Some? <==>
                      passwordMatches && account in old(accounts) && old(accounts)[account].admin && old(accounts)[account].active
                      && !(account in old(rows) && old(rows)[account].enabledAt.Some?))
                && (pending.Some? && account in old(rows) && old(rows)[account].secret.Some? ==> pending == Some(old(rows)[account]))
                && (pending.Some? && !(account in old(rows) && old(rows)[account].secret.Some?) ==> pending.value.secret == Some(candidate))
    {
      if !passwordMatches || account !in accounts || !accounts[account].admin || !accounts[account].active {
        return None;
      }
      var credential := accounts[account].credential;
      Apply(CheckPassword(id, account));
      Elsewhere(id);
      if !CurrentCredential(Current(), account, credential) {
        return None;
      }
      label Before:
      pending := EnsurePendingAdminMfa(account, candidate);
      trace := trace + [Setup(id, candidate)];
      assert trace[..|trace| - 1] == old@Before(trace);
    }

    method ResetConsoleMfa(account: Account, expected: Option<nat>) returns (version: Option<nat>)
      requires Valid()
      modifies this`rows, this`eras, this`trace
      ensures Valid() && trace == old(trace) + [ResetFactor(account, expected)]
      ensures version.Some? <==> account in accounts && VersionOf(old(Current()), account) == expected
      ensures version.Some? ==> VersionOf(Current(), account) == version && rows[account] == Mfa(None, None, None, version.value)
      ensures version.None? ==> rows == old(rows)
    {
      trace := trace + [ResetFactor(account, expected)];
      assert trace[..|trace| - 1] == old(trace);
      if account !in accounts || VersionOf(Current(), account) != expected {
        return None;
      }
      eras := eras[account := EraOf(Current(), account) + 1];
      if account in rows {
        version := ResetAdminMfa(account, rows[account].version);
      } else {
        var first := IncrementAdminMfaVersion(account);
        version := Some(first);
      }
    }

    method ChangeConsoleAccountAccess(account: Account, admin: bool, active: bool, expected: Option<nat>, nextAdmin: bool, nextActive: bool)
      returns (version: Option<nat>)
      requires Valid()
      modifies this`accounts, this`rows, this`trace
      ensures Valid() && trace == old(trace) + [ChangeAccess(account, admin, active, expected, nextAdmin, nextActive)]
      ensures version.Some? <==>
                account in old(accounts) && old(accounts)[account].admin == admin && old(accounts)[account].active == active
                && old(VersionOf(Current(), account)) == expected
      ensures version.Some? ==> VersionOf(Current(), account) == version && account in accounts
                                && accounts[account].admin == nextAdmin && accounts[account].active == nextActive
      ensures version.None? ==> rows == old(rows) && accounts == old(accounts)
    {
      trace := trace + [ChangeAccess(account, admin, active, expected, nextAdmin, nextActive)];
      assert trace[..|trace| - 1] == old(trace);
      if account !in accounts || accounts[account].admin != admin || accounts[account].active != active
         || VersionOf(Current(), account) != expected {
        return None;
      }
      accounts := accounts[account := accounts[account].(admin := nextAdmin, active := nextActive)];
      var next := IncrementAdminMfaVersion(account);
      return Some(next);
    }
  }
}
