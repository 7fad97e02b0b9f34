/**
 * Device grants of the operator command line: a grant is created with a device code and a user code,
 * approved once in the browser, exchanged once for a token, and revoked. Each operation below is one SQL
 * statement; the services are sequences of them that interleave freely, each call with its own clock reading.
 */
module OperatorGrants {
  import opened Wrappers

  type Device = nat      // hashes of the codes and of the token
  type Code = nat
  type Token = nat
  type Account = nat

  const DAY := 86_400_000
  const GRANT := 600_000
  const SESSION := 28_800_000

  datatype Grant = Grant(
    id: nat, code: Code, createdAt: int, expiresAt: int,
    account: Option<Account>, mfaVersion: Option<nat>, approvedAt: Option<int>,
    exchangedAt: Option<int>, token: Option<Token>, tokenExpiresAt: Option<int>,
    revokedAt: Option<int>)

  datatype State = State(rows: map<Device, Grant>, nextId: nat)

  const START := State(map[], 0)

  // ---------------------------------------------------------------- the table's checks

  predicate ApprovalOk(g: Grant) {
    || (g.approvedAt.None? && g.account.None? && g.mfaVersion.None?)
    || (g.approvedAt.Some? && g.account.Some? && g.mfaVersion.Some? && g.mfaVersion.value > 0
        && g.createdAt <= g.approvedAt.value < g.expiresAt)
  }

  predicate ExchangeOk(g: Grant) {
    || (g.exchangedAt.None? && g.token.None? && g.tokenExpiresAt.None?)
    || (g.exchangedAt.Some? && g.approvedAt.Some? && g.token.Some? && g.tokenExpiresAt.Some?
        && g.approvedAt.value <= g.exchangedAt.value < g.expiresAt && g.tokenExpiresAt.value > g.exchangedAt.value)
  }

  predicate RevocationOk(g: Grant) {
    g.revokedAt.None? || (g.exchangedAt.Some? && g.revokedAt.value >= g.exchangedAt.value)
  }

  predicate RowOk(g: Grant) {
    g.expiresAt > g.createdAt && ApprovalOk(g) && ExchangeOk(g) && RevocationOk(g)
  }

  // ---------------------------------------------------------------- the statements

  datatype Op =
    | Purge(now: int)
    | Insert(device: Device, code: Code, now: int)
    | Approve(code: Code, account: Account, mfaVersion: nat, now: int)
    | ReadGrant(device: Device, now: int)
    | Exchange(device: Device, token: Token, now: int)
    | ReadToken(token: Token, now: int)
    | Revoke(token: Token, now: int)

  datatype Session = Session(account: Option<Account>, mfaVersion: Option<nat>, expiresAt: Option<int>)

  /** What the service can tell from a statement's outcome. */
  datatype Reply =
    | Acknowledged                  // a statement whose row count nobody looks at
    | Inserted | Conflict
    | Matched | NotMatched
    | CheckViolation
    | Invalid | Pending | Approved(account: Account, mfaVersion: nat)
    | Sessions(found: set<Session>)

  /** Expired, and its token too if it was ever exchanged. */
  predicate Dead(g: Grant, before: int) {
    g.expiresAt < before && (g.tokenExpiresAt.None? || g.tokenExpiresAt.value < before)
  }

  predicate Approvable(g: Grant, code: Code, now: int) {
    g.code == code && g.approvedAt.None? && g.expiresAt > now
  }

  predicate Exchangeable(g: Grant, now: int) {
    g.approvedAt.Some? && g.exchangedAt.None? && g.revokedAt.None? && g.expiresAt > now
  }

  predicate LiveToken(g: Grant, token: Token, now: int) {
    g.token == Some(token) && g.revokedAt.None? && g.tokenExpiresAt.Some? && g.tokenExpiresAt.value > now
  }

  predicate Revocable(g: Grant, token: Token) {
    g.token == Some(token) && g.revokedAt.None?
  }

  function ApprovedGrant(g: Grant, account: Account, mfaVersion: nat, now: int): Grant {
    g.(account := Some(account), mfaVersion := Some(mfaVersion), approvedAt := Some(now))
  }

  function ExchangedGrant(g: Grant, token: Token, now: int): Grant {
    g.(token := Some(token), tokenExpiresAt := Some(now + SESSION), exchangedAt := Some(now))
  }

  /** What the exchange makes of the row it read first. */
  function ReadReply(s: State, device: Device, now: int): Reply {
    if device !in s.rows then Invalid
    else
      var g := s.rows[device];
      if g.expiresAt <= now || g.exchangedAt.Some? || g.revokedAt.Some? then Invalid
      else if g.account.None? || g.mfaVersion.None? || g.mfaVersion.value == 0 then Pending
      else Approved(g.account.value, g.mfaVersion.value)
  }

  predicate TokenTaken(s: State, token: Token) {
    exists device | device in s.rows :: s.rows[device].token == Some(token)
  }

  predicate CodeTaken(s: State, code: Code) {
    exists device | device in s.rows :: s.rows[device].code == code
  }

  function ApprovedRows(s: State, code: Code, account: Account, mfaVersion: nat, now: int): map<Device, Grant> {
    map device | device in s.rows ::
      if Approvable(s.rows[device], code, now) then ApprovedGrant(s.rows[device], account, mfaVersion, now) else s.rows[device]
  }

  function RevokedRows(s: State, token: Token, now: int): map<Device, Grant> {
    map device | device in s.rows ::
      if Revocable(s.rows[device], token) then s.rows[device].(revokedAt := Some(now)) else s.rows[device]
  }

  function LiveRows(s: State, before: int): map<Device, Grant> {
    map device | device in s.rows && !Dead(s.rows[device], before) :: s.rows[device]
  }

  predicate RowsOk(rows: map<Device, Grant>) {
    forall device | device in rows :: RowOk(rows[device])
  }

  /** A statement that would break a check is rolled back. */
  function Checked(s: State, rows: map<Device, Grant>, reply: Reply): (State, Reply) {
    if RowsOk(rows) then (s.(rows := rows), reply) else (s, CheckViolation)
  }

  function Next(s: State, op: Op): (State, Reply) {
    match op
    case Purge(now) => (s.(rows := LiveRows(s, now - DAY)), Acknowledged)
    case Insert(device, code, now) =>
      if device in s.rows || CodeTaken(s, code) then (s, Conflict)
      else (State(s.rows[device := Grant(s.nextId, code, now, now + GRANT, None, None, None, None, None, None, None)],
                  s.nextId + 1), Inserted)
    case Approve(code, account, mfaVersion, now) =>
      if exists device | device in s.rows :: Approvable(s.rows[device], code, now)
      then Checked(s, ApprovedRows(s, code, account, mfaVersion, now), Matched) else (s, NotMatched)
    case ReadGrant(device, now) => (s, ReadReply(s, device, now))
    case Exchange(device, token, now) =>
      if device !in s.rows || !Exchangeable(s.rows[device], now) then (s, NotMatched)
      else if TokenTaken(s, token) then (s, Conflict)
      else Checked(s, s.rows[device := ExchangedGrant(s.rows[device], token, now)], Matched)
    case ReadToken(token, now) =>
      (s, Sessions(set device | device in s.rows && LiveToken(s.rows[device], token, now) ::
                     Session(s.rows[device].account, s.rows[device].mfaVersion, s.rows[device].tokenExpiresAt)))
    case Revoke(token, now) => Checked(s, RevokedRows(s, token, now), Acknowledged)
  }

  function Reached(run: seq<Op>): State {
    if run == [] then START else Next(Reached(run[..|run| - 1]), run[|run| - 1]).0
  }

  // ---------------------------------------------------------------- one approver, one token

  ghost predicate Unique(s: State) {
    && (forall d, e | d in s.rows && e in s.rows && s.rows[d].code == s.rows[e].code :: d == e)
    && (forall d, e | d in s.rows && e in s.rows && s.rows[d].token.Some? && s.rows[d].token == s.rows[e].token :: d == e)
  }

  ghost predicate Inv(s: State) {
    RowsOk(s.rows) && Unique(s) && forall d | d in s.rows :: s.rows[d].id < s.nextId
  }

  lemma InsertKeepsInv(s: State, op: Op, t: State)
    requires Inv(s) && op.Insert? && t == Next(s, op).0
    ensures Inv(t)
  {
  }

  lemma ExchangeKeepsInv(s: State, op: Op, t: State)
    requires Inv(s) && op.Exchange? && t == Next(s, op).0
    ensures Inv(t)
  {
  }

  lemma StepKeepsInv(s: State, op: Op, t: State)
    requires Inv(s) && t == Next(s, op).0
    ensures Inv(t)
  {
    match op
    case Insert(_, _, _) => InsertKeepsInv(s, op, t);
    case Exchange(_, _, _) => ExchangeKeepsInv(s, op, t);
    case _ =>
      assert t.nextId == s.nextId;
      assert forall d | d in t.rows :: d in s.rows && t.rows[d].id == s.rows[d].id
                                       && t.rows[d].code == s.rows[d].code && t.rows[d].token == s.rows[d].token;
  }

  lemma {:induction false} RunKeepsInv(run: seq<Op>)
    ensures Inv(Reached(run))
  {
    if run != [] {
      RunKeepsInv(run[..|run| - 1]);
      StepKeepsInv(Reached(run[..|run| - 1]), run[|run| - 1], Reached(run));
    }
  }

  /** Whatever was recorded about a grant stays: its approver, its token, its end. */
  predicate Kept(g: Grant, h: Grant) {
    && h.id == g.id && h.code == g.code && h.createdAt == g.createdAt && h.expiresAt == g.expiresAt
    && (g.approvedAt.Some? ==> h.approvedAt == g.approvedAt && h.account == g.account && h.mfaVersion == g.mfaVersion)
    && (g.exchangedAt.Some? ==> h.exchangedAt == g.exchangedAt && h.token == g.token && h.tokenExpiresAt == g.tokenExpiresAt)
    && (g.revokedAt.Some? ==> h.revokedAt == g.revokedAt)
  }

  /** The same grant, not another one that later took the same device code. */
  predicate SameGrant(s: State, t: State, device: Device)
    requires device in s.rows
  {
    device in t.rows && t.rows[device].id == s.rows[device].id
  }

  lemma StepKeepsGrant(g: Grant, device: Device, t: State, op: Op, u: State)
    requires RowsOk(t.rows) && u == Next(t, op).0 && g.id < t.nextId
    requires RowOk(g) && (device in t.rows && t.rows[device].id == g.id ==> Kept(g, t.rows[device]))
    ensures device in u.rows && u.rows[device].id == g.id ==> Kept(g, u.rows[device])
  {
  }

  lemma {:induction false} NextIdGrows(run: seq<Op>, i: nat)
    requires i <= |run|
    ensures Reached(run[..i]).nextId <= Reached(run).nextId
  {
    if i == |run| {
      assert run[..i] == run;
    } else {
      assert run[..|run| - 1][..i] == run[..i];
      NextIdGrows(run[..|run| - 1], i);
    }
  }

  /** Over a whole run a grant has at most one approver and one token, and a revocation is never undone. */
  lemma {:induction false} GrantsKeepTheirPast(run: seq<Op>, i: nat, device: Device)
    requires i <= |run| && device in Reached(run[..i]).rows && SameGrant(Reached(run[..i]), Reached(run), device)
    ensures Kept(Reached(run[..i]).rows[device], Reached(run).rows[device])
  {
    KeptOrGone(run, i, device);
  }

  lemma {:induction false} KeptOrGone(run: seq<Op>, i: nat, device: Device)
    requires i <= |run| && device in Reached(run[..i]).rows
    ensures SameGrant(Reached(run[..i]), Reached(run), device) ==> Kept(Reached(run[..i]).rows[device], Reached(run).rows[device])
  {
    if i == |run| {
      assert run[..i] == run;
    } else {
      var before := run[..|run| - 1];
      assert before[..i] == run[..i];
      KeptOrGone(before, i, device);
      RunKeepsInv(before);
      RunKeepsInv(run[..i]);
      NextIdGrows(before, i);
      StepKeepsGrant(Reached(run[..i]).rows[device], device, Reached(before), run[|run| - 1], Reached(run));
    }
  }

  /** Two approvals or two exchanges that both went through were of different grants. */
  lemma ApprovedAndExchangedOnce(run: seq<Op>, i: nat, j: nat, device: Device)
    requires i < j < |run|
    requires device in Reached(run[..i]).rows && device in Reached(run[..j]).rows
    requires Takes(Reached(run[..i]), run[i], device) && Takes(Reached(run[..j]), run[j], device)
    requires run[i].Exchange? <==> run[j].Exchange?
    ensures Reached(run[..i]).rows[device].id != Reached(run[..j]).rows[device].id
  {
    assert run[..i + 1][..i] == run[..i] && run[..j][..i + 1] == run[..i + 1];
    if Reached(run[..i]).rows[device].id == Reached(run[..j]).rows[device].id {
      GrantsKeepTheirPast(run[..j], i + 1, device);
      assert false;
    }
  }

  /** The statement approves or exchanges the grant of this device. */
  predicate Takes(s: State, op: Op, device: Device)
    requires device in s.rows
  {
    && (op.Approve? || op.Exchange?) && Next(s, op).1.Matched?
    && (op.Approve? ==> Approvable(s.rows[device], op.code, op.now))
    && (op.Exchange? ==> op.device == device)
  }

  /** The caller's clock is behind the row's own times, or its proof names no version. */
  predicate Behind(g: Grant, op: Op) {
    match op
    case Approve(code, _, mfaVersion, now) => Approvable(g, code, now) && (mfaVersion == 0 || now < g.createdAt)
    case Exchange(_, _, now) => Exchangeable(g, now) && now < g.approvedAt.value
    case Revoke(token, now) => Revocable(g, token) && g.exchangedAt.Some? && now < g.exchangedAt.value
    case _ => false
  }

  lemma ApproveFailsOnSkew(s: State, op: Op)
    requires RowsOk(s.rows) && op.Approve?
    ensures Next(s, op).1.CheckViolation? <==> exists d | d in s.rows :: Behind(s.rows[d], op)
  {
    var rows := ApprovedRows(s, op.code, op.account, op.mfaVersion, op.now);
    assert forall d | d in s.rows :: RowOk(rows[d]) <==> !Behind(s.rows[d], op);
  }

  lemma RevokeFailsOnSkew(s: State, op: Op)
    requires RowsOk(s.rows) && op.Revoke?
    ensures Next(s, op).1.CheckViolation? <==> exists d | d in s.rows :: Behind(s.rows[d], op)
  {
    var rows := RevokedRows(s, op.token, op.now);
    assert forall d | d in s.rows :: RowOk(rows[d]) <==> !Behind(s.rows[d], op);
  }

  lemma ExchangeFailsOnSkew(s: State, op: Op)
    requires RowsOk(s.rows) && op.Exchange? && !TokenTaken(s, op.token)
    ensures Next(s, op).1.CheckViolation? <==> op.device in s.rows && Behind(s.rows[op.device], op)
  {
    if op.device in s.rows && Exchangeable(s.rows[op.device], op.now) {
      OneRowDecides(s.rows, op.device, ExchangedGrant(s.rows[op.device], op.token, op.now));
      assert RowOk(s.rows[op.device]);
    }
  }

  /** A statement runs into the table's checks exactly when a row it would change is ahead of its caller. */
  lemma ChecksFailExactlyOnSkew(run: seq<Op>, op: Op)
    requires op.Exchange? ==> !TokenTaken(Reached(run), op.token)
    ensures Next(Reached(run), op).1.CheckViolation? <==>
              exists d | d in Reached(run).rows && (op.Exchange? ==> d == op.device) :: Behind(Reached(run).rows[d], op)
  {
    RunKeepsInv(run);
    match op
    case Approve(_, _, _, _) => ApproveFailsOnSkew(Reached(run), op);
    case Exchange(_, _, _) => ExchangeFailsOnSkew(Reached(run), op);
    case Revoke(_, _) => RevokeFailsOnSkew(Reached(run), op);
    case _ =>
  }

  /** The times of a row are in order, in every state: created, approved, exchanged before the expiry, revoked after. */
  lemma {:induction false} RowsMeetTheirConstraints(run: seq<Op>, device: Device)
    requires device in Reached(run).rows
    ensures RowOk(Reached(run).rows[device])
  {
    RunKeepsInv(run);
  }

  /** A token opens at most one session, and it is the session of the grant's approver. */
  lemma {:induction false} TokensHaveOneOwner(run: seq<Op>, token: Token, now: int, d: Device, e: Device)
    requires d in Reached(run).rows && LiveToken(Reached(run).rows[d], token, now)
    requires e in Reached(run).rows && LiveToken(Reached(run).rows[e], token, now)
    ensures d == e && Reached(run).rows[d].account.Some? && Reached(run).rows[d].exchangedAt.Some?
  {
    RunKeepsInv(run);
  }

  predicate ApprovedBy(g: Grant, code: Code, account: Account, mfaVersion: nat, now: int) {
    && g.code == code && g.account == Some(account) && g.mfaVersion == Some(mfaVersion) && g.approvedAt == Some(now)
    && g.exchangedAt.None? && now < g.expiresAt
  }

  lemma ApprovalIsRecorded(s: State, code: Code, account: Account, mfaVersion: nat, now: int)
    requires RowsOk(s.rows) && Next(s, Approve(code, account, mfaVersion, now)).1.Matched?
    ensures exists d | d in Next(s, Approve(code, account, mfaVersion, now)).0.rows ::
              ApprovedBy(Next(s, Approve(code, account, mfaVersion, now)).0.rows[d], code, account, mfaVersion, now)
  {
    var d :| d in s.rows && Approvable(s.rows[d], code, now);
    assert RowOk(s.rows[d]);
    var rows := Next(s, Approve(code, account, mfaVersion, now)).0.rows;
    assert d in rows && rows[d] == ApprovedGrant(s.rows[d], account, mfaVersion, now);
  }

  // ---------------------------------------------------------------- a grant's life

  /** What one statement answers. */
  function Answer(s: State, op: Op): Reply { Next(s, op).1 }

  function Then(s: State, op: Op): State { Next(s, op).0 }

  predicate Fresh(s: State, device: Device, code: Code, token: Token) {
    device !in s.rows && !CodeTaken(s, code) && !TokenTaken(s, token)
  }

  /** A new grant is pending until it expires, and cannot be exchanged before it is approved. */
  lemma NewGrantsArePending(s: State, device: Device, code: Code, token: Token, t0: int, t: int)
    requires Fresh(s, device, code, token) && t < t0 + GRANT
    ensures Answer(s, Insert(device, code, t0)).Inserted?
    ensures var s1 := Then(s, Insert(device, code, t0));
            && Answer(s1, ReadGrant(device, t)).Pending? && Answer(s1, Exchange(device, token, t)).NotMatched?
            && Answer(s1, ReadGrant(device, t0 + GRANT)).Invalid?
            && Approvable(s1.rows[device], code, t) && forall d | d in s.rows :: s1.rows[d] == s.rows[d] && d != device
  {
  }

  /** Approved in time, it is the approver's, and nobody else's. */
  lemma ApprovedGrantsAreTheApprovers(s: State, device: Device, code: Code, account: Account, version: nat, t1: int)
    requires Inv(s) && device in s.rows && Approvable(s.rows[device], code, t1) && version > 0 && s.rows[device].createdAt <= t1
    ensures Answer(s, Approve(code, account, version, t1)).Matched?
    ensures var s2 := Then(s, Approve(code, account, version, t1));
            && s2.rows == s.rows[device := ApprovedGrant(s.rows[device], account, version, t1)]
            && (s.rows[device].revokedAt.None? && s.rows[device].exchangedAt.None? ==>
                  Answer(s2, ReadGrant(device, t1)) == Approved(account, version))
            && Answer(s2, Approve(code, account, version, t1)).NotMatched?
  {
    var rows := ApprovedRows(s, code, account, version, t1);
    var approved := ApprovedGrant(s.rows[device], account, version, t1);
    assert RowOk(s.rows[device]);
    assert rows == s.rows[device := approved] by {
      assert forall d | d in s.rows && d != device :: s.rows[d].code != code;
    }
    OneRowDecides(s.rows, device, approved);
  }

  /** Exchanged, it opens one session, of its approver, for eight hours or until it is revoked. */
  lemma ExchangedGrantsOpenASession(s: State, device: Device, token: Token, t2: int, t3: int)
    requires Inv(s) && device in s.rows && Exchangeable(s.rows[device], t2) && !TokenTaken(s, token)
    requires s.rows[device].approvedAt.value <= t2 <= t3 < t2 + SESSION
    ensures Answer(s, Exchange(device, token, t2)).Matched?
    ensures var s3, g := Then(s, Exchange(device, token, t2)), s.rows[device];
            && g.account.Some? && g.mfaVersion.Some? && Answer(s3, ReadGrant(device, t2)).Invalid?
            && Answer(s3, ReadToken(token, t3)) == Sessions({Session(g.account, g.mfaVersion, Some(t2 + SESSION))})
            && Answer(s3, ReadToken(token, t2 + SESSION)) == Sessions({})
            && Answer(s3, Revoke(token, t3)).Acknowledged?
            && forall t :: Answer(Then(s3, Revoke(token, t3)), ReadToken(token, t)) == Sessions({})
  {
    var exchanged := ExchangedGrant(s.rows[device], token, t2);
    assert RowOk(s.rows[device]);
    OneRowDecides(s.rows, device, exchanged);
    var s3 := Then(s, Exchange(device, token, t2));
    assert s3.rows == s.rows[device := exchanged] && RowsOk(s3.rows);
    assert forall d | d in s3.rows && d != device :: s3.rows[d].token != Some(token);
    assert LiveToken(s3.rows[device], token, t3);
    RevokedTokensAreDead(s3, device, token, t3);
  }

  lemma RevokedTokensAreDead(s: State, device: Device, token: Token, t3: int)
    requires RowsOk(s.rows) && device in s.rows && Revocable(s.rows[device], token)
    requires s.rows[device].exchangedAt.Some? && s.rows[device].exchangedAt.value <= t3
    requires forall d | d in s.rows && d != device :: s.rows[d].token != Some(token)
    ensures Answer(s, Revoke(token, t3)).Acknowledged?
    ensures forall t :: Answer(Then(s, Revoke(token, t3)), ReadToken(token, t)) == Sessions({})
  {
    var rows := s.rows[device := s.rows[device].(revokedAt := Some(t3))];
    assert RevokedRows(s, token, t3) == rows;
    assert RowOk(s.rows[device]);
    OneRowDecides(s.rows, device, rows[device]);
    assert forall t: int, d | d in rows :: !LiveToken(rows[d], token, t);
  }

  // ---------------------------------------------------------------- purging

  /** The latest time before which rows were purged. */
  function Horizon(run: seq<Op>): Option<int> {
    if run == [] then None
    else
      var rest, op := Horizon(run[..|run| - 1]), run[|run| - 1];
      if op.Purge? && (rest.None? || op.now - DAY > rest.value) then Some(op.now - DAY) else rest
  }

  /** The same calls against a table nobody purges. */
  function Unpurged(run: seq<Op>): State {
    if run == [] then START
    else if run[|run| - 1].Purge? then Unpurged(run[..|run| - 1])
    else Next(Unpurged(run[..|run| - 1]), run[|run| - 1]).0
  }

  /** The caller's clock is less than a day behind every purge so far. */
  predicate InTime(horizon: Option<int>, op: Op) {
    horizon.Some? && !op.Purge? ==> op.now >= horizon.value
  }

  /** No random code or token repeats one that only purged rows ever had. */
  predicate NoReuse(p: State, u: State, op: Op) {
    && (op.Insert? ==> (op.device in u.rows ==> op.device in p.rows) && (CodeTaken(u, op.code) ==> CodeTaken(p, op.code)))
    && (op.Exchange? ==> (TokenTaken(u, op.token) ==> TokenTaken(p, op.token)))
  }

  predicate Fits(run: seq<Op>) {
    run == [] || (Fits(run[..|run| - 1]) && Comes(run[..|run| - 1], run[|run| - 1]))
  }

  predicate Comes(run: seq<Op>, op: Op) {
    InTime(Horizon(run), op) && NoReuse(Reached(run), Unpurged(run), op)
  }

  /** The purged table is the other one without some rows that are dead for every caller still in time. */
  ghost predicate Simulates(p: State, u: State, horizon: Option<int>) {
    && p.nextId == u.nextId
    && (forall d | d in p.rows :: d in u.rows && u.rows[d] == p.rows[d])
    && (forall d | d in u.rows && d !in p.rows :: horizon.Some? && Dead(u.rows[d], horizon.value))
  }

  lemma PurgeKeepsSimulation(p: State, u: State, horizon: Option<int>, now: int, later: Option<int>)
    requires Simulates(p, u, horizon)
    requires later == if horizon.None? || now - DAY > horizon.value then Some(now - DAY) else horizon
    ensures Simulates(Next(p, Purge(now)).0, u, later)
  {
  }

  lemma ApprovedRowsAgree(p: State, u: State, horizon: Option<int>, op: Op)
    requires Simulates(p, u, horizon) && RowsOk(u.rows) && RowsOk(p.rows) && InTime(horizon, op) && op.Approve?
    ensures var pr := ApprovedRows(p, op.code, op.account, op.mfaVersion, op.now);
            var ur := ApprovedRows(u, op.code, op.account, op.mfaVersion, op.now);
            && (forall d | d in p.rows :: d in ur && ur[d] == pr[d])
            && (forall d | d in u.rows && d !in p.rows :: ur[d] == u.rows[d])
            && (RowsOk(pr) <==> RowsOk(ur))
  {
    var pr := ApprovedRows(p, op.code, op.account, op.mfaVersion, op.now);
    var ur := ApprovedRows(u, op.code, op.account, op.mfaVersion, op.now);
    assert forall d | d in u.rows && d !in p.rows :: ur[d] == u.rows[d] && RowOk(ur[d]);
    assert forall d | d in p.rows :: ur[d] == pr[d];
  }

  /** A dead row is never the one that matches. */
  lemma ApprovableRowsAgree(p: State, u: State, horizon: Option<int>, op: Op)
    requires Simulates(p, u, horizon) && InTime(horizon, op) && op.Approve?
    ensures (exists d | d in p.rows :: Approvable(p.rows[d], op.code, op.now)) <==>
            (exists d | d in u.rows :: Approvable(u.rows[d], op.code, op.now))
  {
    if d :| d in u.rows && Approvable(u.rows[d], op.code, op.now) {
      assert d in p.rows && Approvable(p.rows[d], op.code, op.now);
    }
    if d :| d in p.rows && Approvable(p.rows[d], op.code, op.now) {
      assert Approvable(u.rows[d], op.code, op.now);
    }
  }

  lemma ApproveKeepsSimulation(p: State, u: State, horizon: Option<int>, op: Op)
    requires Simulates(p, u, horizon) && RowsOk(u.rows) && RowsOk(p.rows) && InTime(horizon, op) && op.Approve?
    ensures Next(p, op).1 == Next(u, op).1 && Simulates(Next(p, op).0, Next(u, op).0, horizon)
  {
    ApprovableRowsAgree(p, u, horizon, op);
    ApprovedRowsAgree(p, u, horizon, op);
  }

  lemma RevokeKeepsSimulation(p: State, u: State, horizon: Option<int>, op: Op)
    requires Simulates(p, u, horizon) && RowsOk(u.rows) && RowsOk(p.rows) && InTime(horizon, op) && op.Revoke?
    ensures Next(p, op).1 == Next(u, op).1 && Simulates(Next(p, op).0, Next(u, op).0, horizon)
  {
    var pr := RevokedRows(p, op.token, op.now);
    var ur := RevokedRows(u, op.token, op.now);
    assert forall d | d in u.rows && d !in p.rows :: RowOk(u.rows[d]) && Dead(ur[d], horizon.value) && RowOk(ur[d]);
    assert forall d | d in p.rows :: ur[d] == pr[d];
    assert RowsOk(pr) <==> RowsOk(ur);
  }

  lemma InsertKeepsSimulation(p: State, u: State, horizon: Option<int>, op: Op)
    requires Simulates(p, u, horizon) && InTime(horizon, op) && NoReuse(p, u, op) && op.Insert?
    ensures Next(p, op).1 == Next(u, op).1 && Simulates(Next(p, op).0, Next(u, op).0, horizon)
  {
  }

  lemma OneRowDecides(rows: map<Device, Grant>, device: Device, g: Grant)
    requires RowsOk(rows)
    ensures RowsOk(rows[device := g]) <==> RowOk(g)
  {
    assert rows[device := g][device] == g;
  }

  lemma ExchangeKeepsSimulation(p: State, u: State, horizon: Option<int>, op: Op)
    requires Simulates(p, u, horizon) && RowsOk(u.rows) && RowsOk(p.rows)
    requires InTime(horizon, op) && NoReuse(p, u, op) && op.Exchange?
    ensures Next(p, op).1 == Next(u, op).1 && Simulates(Next(p, op).0, Next(u, op).0, horizon)
  {
    assert TokenTaken(p, op.token) ==> TokenTaken(u, op.token);
    if op.device in p.rows {
      var g := ExchangedGrant(p.rows[op.device], op.token, op.now);
      OneRowDecides(p.rows, op.device, g);
      OneRowDecides(u.rows, op.device, g);
    }
  }

  lemma ReadsKeepSimulation(p: State, u: State, horizon: Option<int>, op: Op)
    requires Simulates(p, u, horizon) && InTime(horizon, op) && (op.ReadGrant? || op.ReadToken?)
    ensures Next(p, op).1 == Next(u, op).1 && Simulates(Next(p, op).0, Next(u, op).0, horizon)
  {
  }

  lemma StepKeepsSimulation(p: State, u: State, horizon: Option<int>, op: Op)
    requires Simulates(p, u, horizon) && RowsOk(u.rows) && RowsOk(p.rows)
    requires InTime(horizon, op) && NoReuse(p, u, op) && !op.Purge?
    ensures Next(p, op).1 == Next(u, op).1 && Simulates(Next(p, op).0, Next(u, op).0, horizon)
  {
    match op
    case Approve(_, _, _, _) => ApproveKeepsSimulation(p, u, horizon, op);
    case Revoke(_, _) => RevokeKeepsSimulation(p, u, horizon, op);
    case Insert(_, _, _) => InsertKeepsSimulation(p, u, horizon, op);
    case Exchange(_, _, _) => ExchangeKeepsSimulation(p, u, horizon, op);
    case ReadGrant(_, _) => ReadsKeepSimulation(p, u, horizon, op);
    case ReadToken(_, _) => ReadsKeepSimulation(p, u, horizon, op);
  }

  lemma {:induction false} UnpurgedKeepsInv(run: seq<Op>)
    ensures Inv(Unpurged(run))
  {
    if run != [] {
      UnpurgedKeepsInv(run[..|run| - 1]);
      if !run[|run| - 1].Purge? {
        StepKeepsInv(Unpurged(run[..|run| - 1]), run[|run| - 1], Unpurged(run));
      }
    }
  }

  lemma {:induction false} RunSimulates(run: seq<Op>)
    requires Fits(run)
    ensures Simulates(Reached(run), Unpurged(run), Horizon(run))
  {
    if run != [] {
      var before, op := run[..|run| - 1], run[|run| - 1];
      RunSimulates(before);
      if op.Purge? {
        PurgeKeepsSimulation(Reached(before), Unpurged(before), Horizon(before), op.now, Horizon(run));
      } else {
        RunKeepsInv(before);
        UnpurgedKeepsInv(before);
        StepKeepsSimulation(Reached(before), Unpurged(before), Horizon(before), op);
      }
    }
  }

  /** A purge forgets a row exactly when the grant, and the token if it has one, ran out more than a day ago. */
  lemma PurgesForgetOldRows(s: State, now: int, device: Device)
    requires device in s.rows
    ensures device in Then(s, Purge(now)).rows <==>
              s.rows[device].expiresAt + DAY >= now
              || (s.rows[device].tokenExpiresAt.Some? && s.rows[device].tokenExpiresAt.value + DAY >= now)
    ensures Then(s, Purge(now)).rows.Keys <= s.rows.Keys
  {
  }

  /** No caller whose clock is less than a day behind can tell that any row was ever purged. */
  lemma PurgeIsUnobservable(run: seq<Op>, op: Op)
    requires Fits(run) && Comes(run, op) && !op.Purge?
    ensures Next(Reached(run), op).1 == Next(Unpurged(run), op).1
  {
    RunSimulates(run);
    RunKeepsInv(run);
    UnpurgedKeepsInv(run);
    StepKeepsSimulation(Reached(run), Unpurged(run), Horizon(run), op);
  }
}
