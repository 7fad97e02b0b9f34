/**
 * The grant services. Each is a few statements with other callers in between; together they are a run of
 * OperatorGrants, and what a caller is told is true of the table.
 */
module OperatorAuthService {
  import opened Wrappers
  import opened OperatorGrants

  datatype Outcome<T> = Ok(value: T) | PendingApproval | Unauthenticated | Forbidden | Failed

  /** The MFA version each active administrator with an enabled factor has at the moment. */
  type Facts = map<Account, nat>

  /** The approver's factor is still the one the grant was approved under. */
  predicate CurrentIn(facts: Facts, g: Grant) {
    g.account.Some? && g.mfaVersion.Some? && g.account.value in facts && facts[g.account.value] == g.mfaVersion.value
  }

  /** The token handed out is the one stored, for an approved, unexpired, unrevoked grant. */
  predicate HandsOut(g: Grant, handed: (Token, int), token: Token, now: int) {
    && g.token == Some(token) == Some(handed.0) && g.exchangedAt == Some(now)
    && g.tokenExpiresAt == Some(handed.1) && handed.1 == now + SESSION
    && g.account.Some? && g.mfaVersion.Some? && g.revokedAt.None? && now < g.expiresAt
  }

  function SessionOf(g: Grant): Session { Session(g.account, g.mfaVersion, g.tokenExpiresAt) }

  /** A token finds its one live grant. */
  lemma TokensFindTheirGrant(run: seq<Op>, s: State, token: Token, now: int)
    requires s == Reached(run)
    ensures var found := Answer(s, ReadToken(token, now)).found;
            && (found == {} <==> forall d | d in s.rows :: !LiveToken(s.rows[d], token, now))
            && (forall d, row | d in s.rows && LiveToken(s.rows[d], token, now) && row in found ::
                  row == SessionOf(s.rows[d]) && row.account.Some? && row.mfaVersion.Some? && row.expiresAt.Some?)
  {
    RunKeepsInv(run);
    var found := Answer(s, ReadToken(token, now)).found;
    forall d | d in s.rows && LiveToken(s.rows[d], token, now)
      ensures SessionOf(s.rows[d]) in found && s.rows[d].account.Some? && s.rows[d].mfaVersion.Some?
    {
      assert RowOk(s.rows[d]);
    }
  }

  /** A live token of a clock that is not behind its exchange is revoked. */
  lemma RevocationGoesThrough(s: State, token: Token, now: int)
    requires Inv(s)
    requires forall d | d in s.rows && Revocable(s.rows[d], token) :: s.rows[d].exchangedAt.Some? && s.rows[d].exchangedAt.value <= now
    ensures Answer(s, Revoke(token, now)).Acknowledged?
  {
    RevokeFailsOnSkew(s, Revoke(token, now));
  }

  lemma ApprovalIsDecided(s: State, code: Code, account: Account, mfaVersion: nat, now: int)
    requires Inv(s)
    ensures Answer(s, Approve(code, account, mfaVersion, now)).Matched? <==>
              mfaVersion > 0 && exists d | d in s.rows :: Approvable(s.rows[d], code, now) && s.rows[d].createdAt <= now
  {
    ApproveFailsOnSkew(s, Approve(code, account, mfaVersion, now));
    if d :| d in s.rows && Approvable(s.rows[d], code, now) && s.rows[d].createdAt <= now {
      assert forall e | e in s.rows && Approvable(s.rows[e], code, now) :: e == d;
    }
  }

  lemma ExchangeIsDecided(s: State, device: Device, token: Token, now: int)
    requires Inv(s)
    ensures ReadReply(s, device, now).Pending? <==>
              device in s.rows && now < s.rows[device].expiresAt && s.rows[device].approvedAt.None?
    ensures ReadReply(s, device, now).Approved? <==> device in s.rows && Exchangeable(s.rows[device], now)
    ensures Answer(s, Exchange(device, token, now)).Matched? <==>
              device in s.rows && Exchangeable(s.rows[device], now) && s.rows[device].approvedAt.value <= now && !TokenTaken(s, token)
  {
    if device in s.rows { assert RowOk(s.rows[device]); }
    if !TokenTaken(s, token) { ExchangeFailsOnSkew(s, Exchange(device, token, now)); }
  }

  class Operators {
    var rows: map<Device, Grant>
    var nextId: nat
    const elsewhere: nat -> seq<Op>
    const facts: nat -> Facts
    var calls: nat
    ghost var trace: seq<Op>

    function Table(): State
      reads this
    {
      State(rows, nextId)
    }

    ghost predicate Valid()
      reads this
    {
      Reached(trace) == Table()
    }

    constructor (elsewhere: nat -> seq<Op>, facts: nat -> Facts)
      ensures Valid() && trace == []
    {
      this.elsewhere, this.facts, calls := elsewhere, facts, 0;
      rows, nextId, trace := map[], 0, [];
    }

    method Execute(op: Op) returns (reply: Reply)
      requires Valid()
      modifies this`rows, this`nextId, this`trace
      ensures Valid() && (Table(), reply) == Next(old(Table()), op) && trace == old(trace) + [op]
    {
      var (next, answer) := Next(Table(), op);
      rows, nextId, reply := next.rows, next.nextId, answer;
      trace := trace + [op];
      assert trace[..|trace| - 1] == old(trace);
    }

    /** Other callers, until our next statement. */
    method Elsewhere()
      requires Valid()
      modifies this`rows, this`nextId, this`trace, this`calls
      ensures Valid() && old(trace) <= trace && calls == old(calls) + 1
      ensures elsewhere(old(calls)) == [] ==> Table() == old(Table())
    {
      var ops := elsewhere(calls);
      calls := calls + 1;
      for i := 0 to |ops|
        invariant Valid() && old(trace) <= trace && calls == old(calls) + 1 && (i == 0 ==> Table() == old(Table()))
      {
        var _ := Execute(ops[i]);
      }
    }

    method CurrentAccount(account: Account, mfaVersion: nat) returns (current: bool)
      ensures current <==> account in facts(calls) && facts(calls)[account] == mfaVersion
    {
      current := account in facts(calls) && facts(calls)[account] == mfaVersion;
    }

    /** At most three tries, each with new codes; what is returned is a new grant nobody has approved. */
    method CreateOperatorGrant(codes: seq<(Device, Code)>, now: int) returns (result: Outcome<(Device, Code, int)>)
      requires Valid() && |codes| == 3
      modifies this`rows, this`nextId, this`trace, this`calls
      ensures Valid() && old(trace) <= trace
      ensures result.Ok? ==>
                var (device, code, expiresAt) := result.value;
                && (device, code) in codes && device in rows && expiresAt == now + GRANT && nextId > 0
                && rows[device] == Grant(nextId - 1, code, now, expiresAt, None, None, None, None, None, None, None)
      ensures result.Ok? || result.Failed?
      // Left alone, it takes the first codes if they are new.
      ensures elsewhere(old(calls)) == [] && codes[0].0 !in old(rows) && !CodeTaken(old(Table()), codes[0].1) ==>
                result == Ok((codes[0].0, codes[0].1, now + GRANT))
    {
      var _ := Execute(Purge(now));
      for attempt := 0 to 3
        invariant Valid() && old(trace) <= trace
        invariant attempt == 0 ==> calls == old(calls) && Table() == Then(old(Table()), Purge(now))
        invariant attempt > 0 ==>
                    !(elsewhere(old(calls)) == [] && codes[0].0 !in old(rows) && !CodeTaken(old(Table()), codes[0].1))
      {
        Elsewhere();
        var (device, code) := codes[attempt];
        var reply := Execute(Insert(device, code, now));
        if reply.Inserted? {
          return Ok((device, code, now + GRANT));
        }
      }
      return Failed;
    }

    /** `user` is the signed-in account, with whether it may manage everything. */
    method ApproveOperatorGrant(user: Option<(Account, bool)>, mfaVersion: nat, code: Code, now: int) returns (result: Outcome<()>)
      requires Valid()
      modifies this`rows, this`nextId, this`trace, this`calls
      ensures Valid() && old(trace) <= trace
      ensures result.Ok? ==>
                && user.Some? && user.value.1
                && exists d | d in rows :: ApprovedBy(rows[d], code, user.value.0, mfaVersion, now)
      ensures user.None? ==> result.Unauthenticated?
      ensures user.Some? && !user.value.1 ==> result.Forbidden?
      // Left alone, a current administrator approves every open grant that is not ahead of the clock.
      ensures elsewhere(old(calls)) == [] && user.Some? && user.value.1 ==>
                (result.Ok? <==>
                   && user.value.0 in facts(old(calls)) && facts(old(calls))[user.value.0] == mfaVersion && mfaVersion > 0
                   && exists d | d in old(rows) :: Approvable(old(rows)[d], code, now) && old(rows)[d].createdAt <= now)
    {
      if user.None? {
        return Unauthenticated;
      }
      var (account, admin) := user.value;
      if !admin {
        return Forbidden;
      }
      var current := CurrentAccount(account, mfaVersion);
      if !current {
        return Unauthenticated;
      }
      Elsewhere();
      ghost var before := Table();
      RunKeepsInv(trace);
      ApprovalIsDecided(before, code, account, mfaVersion, now);
      var reply := Execute(Approve(code, account, mfaVersion, now));
      if reply.Matched? {
        ApprovalIsRecorded(before, code, account, mfaVersion, now);
        return Ok(());
      }
      return if reply.CheckViolation? then Failed else Unauthenticated;
    }

    /** The token is handed out only by the statement that stored it, for the account that approved the grant. */
    method ExchangeOperatorGrant(device: Device, token: Token, now: int) returns (result: Outcome<(Token, int)>)
      requires Valid()
      modifies this`rows, this`nextId, this`trace, this`calls
      ensures Valid() && old(trace) <= trace
      ensures result.Ok? ==> device in rows && HandsOut(rows[device], result.value, token, now)
      // Still to be approved: told so until it expires.
      ensures result.PendingApproval? <==>
                device in old(rows) && now < old(rows)[device].expiresAt && old(rows)[device].approvedAt.None?
      // Left alone, the exchange goes through for an approved grant whose approver is still current.
      ensures elsewhere(old(calls)) == [] && elsewhere(old(calls) + 1) == [] ==>
                (result.Ok? <==>
                   && device in old(rows) && Exchangeable(old(rows)[device], now) && old(rows)[device].approvedAt.value <= now
                   && CurrentIn(facts(old(calls) + 1), old(rows)[device]) && !TokenTaken(old(Table()), token))
    {
      RunKeepsInv(trace);
      ExchangeIsDecided(Table(), device, token, now);
      var read := Execute(ReadGrant(device, now));
      if read.Invalid? {
        return Unauthenticated;
      }
      if read.Pending? {
        return PendingApproval;
      }
      result := ExchangeApproved(device, token, read.account, read.mfaVersion, now);
    }

    /** The approver's factor is looked up, and then the statement decides. */
    method ExchangeApproved(device: Device, token: Token, account: Account, mfaVersion: nat, now: int) returns (result: Outcome<(Token, int)>)
      requires Valid()
      modifies this`rows, this`nextId, this`trace, this`calls
      ensures Valid() && old(trace) <= trace && !result.PendingApproval?
      ensures result.Ok? ==> device in rows && HandsOut(rows[device], result.value, token, now)
      ensures elsewhere(old(calls)) == [] && elsewhere(old(calls) + 1) == [] ==>
                (result.Ok? <==>
                   && account in facts(old(calls) + 1) && facts(old(calls) + 1)[account] == mfaVersion
                   && device in old(rows) && Exchangeable(old(rows)[device], now) && old(rows)[device].approvedAt.value <= now
                   && !TokenTaken(old(Table()), token))
    {
      Elsewhere();
      var current := CurrentAccount(account, mfaVersion);
      if !current {
        return Unauthenticated;
      }
      Elsewhere();
      RunKeepsInv(trace);
      ExchangeIsDecided(Table(), device, token, now);
      var reply := Execute(Exchange(device, token, now));
      match reply
      case Matched => return Ok((token, now + SESSION));
      case CheckViolation => return Failed;
      case Conflict => return Failed;
      case _ => return Unauthenticated;
    }

    /** Whoever the token lets in is the approver of the grant it was issued for, still under the same factor. */
    method AuthorizeOperatorToken(token: Token, now: int) returns (result: Outcome<(Account, int)>)
      requires Valid()
      modifies this`rows, this`nextId, this`trace, this`calls
      ensures Valid() && old(trace) <= trace
      ensures result.Ok? ==>
                && result.value.0 in facts(calls)
                && exists d | d in old(rows) ::
                     && LiveToken(old(rows)[d], token, now) && old(rows)[d].account == Some(result.value.0)
                     && old(rows)[d].mfaVersion == Some(facts(calls)[result.value.0])
                     && old(rows)[d].tokenExpiresAt == Some(result.value.1)
      ensures !result.PendingApproval? && !result.Failed?
      // Left alone, it lets in the approver of a live token exactly while that factor is current.
      ensures elsewhere(old(calls)) == [] ==>
                (result.Ok? <==>
                   exists d | d in old(rows) :: LiveToken(old(rows)[d], token, now) && CurrentIn(facts(old(calls) + 1), old(rows)[d]))
      ensures elsewhere(old(calls)) == [] ==> Table() == old(Table())
      ensures result.Ok? ==> calls == old(calls) + 1
    {
      TokensFindTheirGrant(trace, Table(), token, now);
      var reply := Execute(ReadToken(token, now));
      if reply.found == {} {
        return Unauthenticated;
      }
      var row :| row in reply.found;
      if row.account.None? || row.mfaVersion.None? || row.expiresAt.None? {
        return Unauthenticated;
      }
      Elsewhere();
      var current := CurrentAccount(row.account.value, row.mfaVersion.value);
      if !current {
        return Unauthenticated;
      }
      return Ok((row.account.value, row.expiresAt.value));
    }

    /** After it, no clock makes the token valid. */
    method RevokeOperatorToken(token: Token, now: int) returns (result: Outcome<()>)
      requires Valid()
      modifies this`rows, this`nextId, this`trace, this`calls
      ensures Valid() && old(trace) <= trace
      ensures result.Ok? ==> forall d, later: int | d in rows :: !LiveToken(rows[d], token, later)
      // Left alone, whoever the token still lets in can end it.
      ensures elsewhere(old(calls)) == [] && elsewhere(old(calls) + 1) == []
              && (exists d | d in old(rows) :: LiveToken(old(rows)[d], token, now) && CurrentIn(facts(old(calls) + 1), old(rows)[d])
                                               && old(rows)[d].exchangedAt.Some? && old(rows)[d].exchangedAt.value <= now) ==>
                result.Ok?
    {
      RunKeepsInv(trace);
      var authorized := AuthorizeOperatorToken(token, now);
      if !authorized.Ok? {
        return Unauthenticated;
      }
      Elsewhere();
      if forall d | d in rows && Revocable(rows[d], token) :: rows[d].exchangedAt.Some? && rows[d].exchangedAt.value <= now {
        RunKeepsInv(trace);
        RevocationGoesThrough(Table(), token, now);
      }
      var reply := Execute(Revoke(token, now));
      if reply.CheckViolation? {
        return Failed;
      }
      return Ok(());
    }
  }
}
