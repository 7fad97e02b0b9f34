/**
 * The whole waveform protocol as one transition system: the job store, an at-least-once queue with
 * visibility timeouts and a dead-letter queue, and the requests that Console and any number of
 * runners have on the wire. A request that was sent may take effect at any later moment, more than
 * once or never, and its answer may be lost: nothing below depends on answers arriving.
 *
 * What keeps the system safe is when a request may be sent (`Allowed`). WaveformRunner proves that
 * the runner's code sends nothing else.
 */
module WaveformProtocol {
  import opened Wrappers
  import opened WaveformModel
  import H = WaveformHistory
  import E = WaveformEffects

  type MsgId = nat

  datatype Place = Place(deadLetter: bool, visible: bool)

  datatype Request =
    | Publish(payload: Payload)
    | Record(payload: Payload, at: Time)
    | Start(payload: Payload, expected: Option<AttemptId>)
    | Complete(terminal: Terminal)
    | Delete(msg: MsgId)

  /** The one enqueue call of a created job: still undecided, handed to the queue, or declined for good. */
  datatype Phase = Undecided | Handed | Declined
  datatype Call = Call(payload: Payload, phase: Phase)

  /** `messages` remembers every message ever put, `dead` every message that was ever dead-lettered. */
  datatype Sys = Sys(db: Db, messages: map<MsgId, Payload>, live: map<MsgId, Place>, dead: set<MsgId>,
                     nextMsg: MsgId, calls: map<JobId, Call>, sent: set<Request>)

  datatype Step =
    | Store(op: DbOp)
    | Decline(job: JobId)
    | Send(request: Request)
    | Commit(request: Request, now: Time)
    | Hide(msg: MsgId)
    | Reappear(msg: MsgId)
    | MoveToDeadLetter(msg: MsgId)

  const START := Sys(EMPTY_DB, map[], map[], {}, 0, map[], {})

  // ---------------------------------------------------------------- steps

  predicate DeadLetteredJob(s: Sys, j: JobId) {
    exists m | m in s.dead :: m in s.messages && s.messages[m].job == j
  }

  predicate WasPut(s: Sys, p: Payload) {
    exists m | m in s.messages :: s.messages[m] == p
  }

  predicate IsCall(s: Sys, p: Payload, phase: Phase) {
    p.job in s.calls && s.calls[p.job] == Call(p, phase)
  }

  predicate IsDeclined(s: Sys, j: JobId) {
    j in s.calls && s.calls[j].phase.Declined?
  }

  /** When a request may be sent. */
  predicate Allowed(s: Sys, r: Request) {
    match r
    case Publish(p) => IsCall(s, p, Undecided)
    case Record(p, _) => WasPut(s, p)
    case Start(p, _) => WasPut(s, p)
    case Complete(Success(j, attempt, _)) => Started(j, attempt) in s.db.log
    case Complete(Failure(j, expected, code)) =>
      (code.EnqueueFailed? && expected.None? && IsDeclined(s, j)) || (code.DeadLettered? && DeadLetteredJob(s, j))
    case Delete(m) => m in s.messages && H.Done(s.db, s.messages[m].job)
  }

  predicate Enabled(s: Sys, step: Step) {
    match step
    case Store(op) => op.OpRequest? || op.OpImport? || op.OpCreateSong? || op.OpEditSong? || op.OpDeleteSong?
    case Decline(j) => j in s.calls && s.calls[j].phase.Undecided?
    case Send(r) => Allowed(s, r)
    case Commit(r, _) => r in s.sent
    case Hide(m) => m in s.live && s.live[m].visible
    case Reappear(m) => m in s.live && !s.live[m].visible
    case MoveToDeadLetter(m) => m in s.live && !s.live[m].deadLetter
  }

  /** The store transaction a step runs, if it runs one. */
  function OpOf(step: Step): Option<DbOp> {
    match step
    case Store(op) => Some(op)
    case Commit(Record(p, at), _) => Some(OpRecord(p, at))
    case Commit(Start(p, expected), now) => Some(OpStart(p, expected, now))
    case Commit(Complete(t), now) => Some(OpComplete(t, now))
    case _ => None
  }

  function Created(db: Db, op: DbOp): Option<JobId> {
    if !op.OpRequest? then None
    else
      var reply := RequestJob(db, op.ctx, op.song, op.approved).1;
      if reply.Accepted? && reply.created then Some(reply.id) else None
  }

  function PayloadOf(db: Db, j: JobId): Payload
    requires j in db.jobs
  {
    Payload(j, db.jobs[j].songId, db.jobs[j].videoId)
  }

  function Next(s: Sys, step: Step): Sys {
    var db := if OpOf(step).Some? then Apply(s.db, OpOf(step).value) else s.db;
    match step
    case Store(op) =>
      var j := Created(s.db, op);
      if j.Some? && j.value in db.jobs
      then s.(db := db, calls := s.calls[j.value := Call(PayloadOf(db, j.value), Undecided)])
      else s.(db := db)
    case Decline(j) =>
      if j in s.calls then s.(calls := s.calls[j := s.calls[j].(phase := Declined)]) else s
    case Send(r) =>
      var calls := if r.Publish? then s.calls[r.payload.job := Call(r.payload, Handed)] else s.calls;
      s.(sent := s.sent + {r}, calls := calls)
    case Commit(Publish(p), _) =>
      s.(messages := s.messages[s.nextMsg := p], live := s.live[s.nextMsg := Place(false, true)],
         nextMsg := s.nextMsg + 1)
    case Commit(Delete(m), _) => s.(live := s.live - {m})
    case Commit(_, _) => s.(db := db)
    case Hide(m) => if m in s.live then s.(live := s.live[m := s.live[m].(visible := false)]) else s
    case Reappear(m) => if m in s.live then s.(live := s.live[m := s.live[m].(visible := true)]) else s
    case MoveToDeadLetter(m) => s.(live := s.live[m := Place(true, true)], dead := s.dead + {m})
  }

  function Reached(steps: seq<Step>): Sys {
    if steps == [] then START else Next(Reached(steps[..|steps| - 1]), steps[|steps| - 1])
  }

  predicate ValidRun(steps: seq<Step>) {
    steps == []
    || (ValidRun(steps[..|steps| - 1]) && Enabled(Reached(steps[..|steps| - 1]), steps[|steps| - 1]))
  }

  // ---------------------------------------------------------------- what only grows

  /** Deleted jobs never come back, and an enqueue time is never unset. */
  predicate RowStays(db: Db, after: Db, j: JobId) {
    j in after.jobs ==> j in db.jobs && (db.jobs[j].enqueuedAt.Some? ==> after.jobs[j].enqueuedAt.Some?)
  }

  ghost predicate StoreExtends(db: Db, after: Db) {
    && db.nextId <= after.nextId && db.log <= after.log
    && (forall j | H.Done(db, j) :: H.Done(after, j))
    && (forall j: nat | j < db.nextId :: RowStays(db, after, j))
  }

  ghost predicate QueueExtends(s: Sys, t: Sys) {
    && (forall m | m in s.messages :: m in t.messages && t.messages[m] == s.messages[m])
    && (forall m | m in s.messages && m !in s.live :: m !in t.live)
    && s.dead <= t.dead && s.sent <= t.sent
    && (forall j | j in s.calls :: j in t.calls && t.calls[j].payload == s.calls[j].payload
                                   && (!s.calls[j].phase.Undecided? ==> t.calls[j] == s.calls[j]))
  }

  /** Facts an actor may rely on while others act. */
  ghost predicate Extends(s: Sys, t: Sys) {
    StoreExtends(s.db, t.db) && QueueExtends(s, t)
  }

  lemma ApplyExtends(db: Db, op: DbOp)
    ensures StoreExtends(db, Apply(db, op))
  {
    ApplyGrows(db, op);
    forall j | H.Done(db, j) ensures H.Done(Apply(db, op), j) { H.StepFreezes(db, op, j); }
    forall j: nat | j < db.nextId ensures RowStays(db, Apply(db, op), j) { RowPersists(db, op, j); }
  }

  lemma ApplyGrows(db: Db, op: DbOp)
    ensures db.nextId <= Apply(db, op).nextId && db.log <= Apply(db, op).log
  {
  }

  lemma RowPersists(db: Db, op: DbOp, j: JobId)
    requires j < db.nextId
    ensures RowStays(db, Apply(db, op), j)
  {
  }

  lemma StepExtendsQueue(s: Sys, step: Step)
    requires Enabled(s, step) && (forall m | m in s.messages :: m < s.nextMsg)
    requires forall j | j in s.calls :: j < s.db.nextId && s.calls[j].payload.job == j
    ensures QueueExtends(s, Next(s, step))
  {
  }

  lemma StepExtends(s: Sys, step: Step)
    requires Enabled(s, step) && CallsOk(s) && (forall m | m in s.messages :: m < s.nextMsg)
    ensures Extends(s, Next(s, step))
  {
    StepExtendsQueue(s, step);
    if OpOf(step).Some? { ApplyExtends(s.db, OpOf(step).value); }
  }

  lemma ExtendsIsTransitive(s: Sys, t: Sys, u: Sys)
    requires Extends(s, t) && Extends(t, u)
    ensures Extends(s, u)
  {
    forall j: nat | j < s.db.nextId ensures RowStays(s.db, u.db, j) {
      assert RowStays(s.db, t.db, j) && RowStays(t.db, u.db, j);
    }
  }

  // ---------------------------------------------------------------- the invariant

  ghost predicate CallsOk(s: Sys) {
    forall j | j in s.calls ::
      && j < s.db.nextId && s.calls[j].payload.job == j
      && (j in s.db.jobs ==> PayloadOf(s.db, j) == s.calls[j].payload)
  }

  /** Every message was handed over by its job's own call, and stays until its job is done. */
  predicate MessageOk(s: Sys, m: MsgId)
    requires m in s.messages
  {
    && m < s.nextMsg && IsCall(s, s.messages[m], Handed)
    && (m in s.live || H.Done(s.db, s.messages[m].job))
  }

  ghost predicate QueueOk(s: Sys) {
    && (forall m | m in s.messages :: MessageOk(s, m))
    && s.live.Keys <= s.messages.Keys && s.dead <= s.messages.Keys
  }

  /** What stays true of a request once it was allowed. */
  predicate Backed(s: Sys, r: Request) {
    if r.Publish? then IsCall(s, r.payload, Handed) else Allowed(s, r)
  }

  predicate NeverStarted(log: seq<Event>, j: JobId) {
    forall e | e in log && e.Started? :: e.job != j
  }

  /** What a row's error says about the queue's history. */
  predicate ErrorTruthful(s: Sys, j: JobId)
    requires j in s.db.jobs
  {
    && (s.db.jobs[j].error == Some(EnqueueFailed) ==> IsDeclined(s, j) && NeverStarted(s.db.log, j))
    && (s.db.jobs[j].error == Some(DeadLettered) ==> DeadLetteredJob(s, j))
    && s.db.jobs[j].error != Some(ProcessingFailed) && s.db.jobs[j].error != Some(DeliveryExpired)
  }

  /** What a row claims about the queue is true of the queue. */
  predicate RowTruthful(s: Sys, j: JobId)
    requires j in s.db.jobs
  {
    (s.db.jobs[j].enqueuedAt.Some? ==> WasPut(s, PayloadOf(s.db, j))) && ErrorTruthful(s, j)
  }

  ghost predicate SysInv(s: Sys) {
    && H.Inv(s.db) && CallsOk(s) && QueueOk(s)
    && (forall r | r in s.sent :: Backed(s, r))
    && (forall j | j in s.db.jobs :: RowTruthful(s, j))
  }

  // ---------------------------------------------------------------- each step keeps it

  lemma BackedIsStable(s: Sys, t: Sys, r: Request)
    requires Extends(s, t) && Backed(s, r)
    ensures Backed(t, r)
  {
  }

  /** Rows keep their identity; a new row is a fresh queued or imported job. */
  lemma RowsKeepIdentity(db: Db, op: DbOp, j: JobId)
    requires j in Apply(db, op).jobs && forall k | k in db.jobs :: k < db.nextId
    ensures if j in db.jobs then PayloadOf(Apply(db, op), j) == PayloadOf(db, j)
            else j == db.nextId && Apply(db, op).jobs[j].enqueuedAt.None? && Apply(db, op).jobs[j].error.None?
  {
  }

  lemma EnqueueTimesComeFromRecords(db: Db, op: DbOp, j: JobId)
    requires j in db.jobs && j in Apply(db, op).jobs && j < db.nextId
    ensures Apply(db, op).jobs[j].enqueuedAt == db.jobs[j].enqueuedAt
            || (op.OpRecord? && op.payload == PayloadOf(db, j))
  {
  }

  lemma ErrorsComeFromCompletions(db: Db, op: DbOp, j: JobId)
    requires j in db.jobs && j in Apply(db, op).jobs && j < db.nextId
    ensures var e := Apply(db, op).jobs[j].error;
            e.None? || e == db.jobs[j].error
            || (op.OpComplete? && op.terminal.job == j && !db.jobs[j].Terminal()
                && (e == Some(SourceChanged)
                    || (op.terminal.Failure? && e == Some(op.terminal.code) && db.jobs[j].attempt == op.terminal.expected)))
  {
  }

  lemma {:induction false} NoAttemptMeansNeverStarted(log: seq<Event>, j: JobId)
    requires H.LatestAttempt(log, j).None?
    ensures NeverStarted(log, j)
  {
    if log == [] {
    } else {
      NoAttemptMeansNeverStarted(log[..|log| - 1], j);
      assert log == log[..|log| - 1] + [log[|log| - 1]];
    }
  }

  lemma CallsStayOk(s: Sys, step: Step, t: Sys)
    requires CallsOk(s) && Enabled(s, step) && t == Next(s, step)
    requires forall j | j in s.db.jobs :: j < s.db.nextId
    requires forall r | r in s.sent :: Backed(s, r)
    ensures CallsOk(t)
  {
    if step.Store? {
      StoredCallsStayOk(s, step, t);
    } else if OpOf(step).Some? {
      CommittedCallsStayOk(s, step, t);
    }
  }

  /** A request may create a call, for the job it created. */
  lemma StoredCallsStayOk(s: Sys, step: Step, t: Sys)
    requires CallsOk(s) && step.Store? && t == Next(s, step)
    requires forall j | j in s.db.jobs :: j < s.db.nextId
    ensures CallsOk(t)
  {
    ApplyGrows(s.db, step.op);
    forall j | j in t.calls
      ensures j < t.db.nextId && t.calls[j].payload.job == j
      ensures j in t.db.jobs ==> PayloadOf(t.db, j) == t.calls[j].payload
    {
      if j in t.db.jobs { RowsKeepIdentity(s.db, step.op, j); }
    }
  }

  lemma CommittedCallsStayOk(s: Sys, step: Step, t: Sys)
    requires CallsOk(s) && OpOf(step).Some? && t.calls == s.calls && t.db == Apply(s.db, OpOf(step).value)
    requires forall j | j in s.db.jobs :: j < s.db.nextId
    ensures CallsOk(t)
  {
    ApplyGrows(s.db, OpOf(step).value);
    forall j | j in t.calls && j in t.db.jobs
      ensures PayloadOf(t.db, j) == t.calls[j].payload
    {
      RowsKeepIdentity(s.db, OpOf(step).value, j);
    }
  }

  lemma MessageStaysOk(s: Sys, step: Step, t: Sys, m: MsgId)
    requires m in s.messages && MessageOk(s, m) && Enabled(s, step) && t == Next(s, step) && Extends(s, t)
    requires forall r | r in s.sent :: Backed(s, r)
    ensures MessageOk(t, m)
  {
  }

  lemma QueueStaysOk(s: Sys, step: Step, t: Sys)
    requires CallsOk(s) && QueueOk(s) && Enabled(s, step) && t == Next(s, step) && Extends(s, t)
    requires forall r | r in s.sent :: Backed(s, r)
    ensures QueueOk(t)
  {
    forall m | m in t.messages ensures MessageOk(t, m) {
      if m in s.messages { MessageStaysOk(s, step, t, m); }
    }
  }

  /** The enqueue time of a row, new or old, speaks of a message that was put. */
  lemma EnqueuedStaysTruthful(s: Sys, step: Step, t: Sys, j: JobId)
    requires Enabled(s, step) && t == Next(s, step) && Extends(s, t)
    requires forall r | r in s.sent :: Backed(s, r)
    requires j in s.db.jobs && j in t.db.jobs && forall k | k in s.db.jobs :: k < s.db.nextId
    requires s.db.jobs[j].enqueuedAt.Some? ==> WasPut(s, PayloadOf(s.db, j))
    ensures t.db.jobs[j].enqueuedAt.Some? ==> WasPut(t, PayloadOf(t.db, j))
  {
    WasPutIsStable(s, t, PayloadOf(s.db, j));
    if OpOf(step).Some? {
      RowsKeepIdentity(s.db, OpOf(step).value, j);
      EnqueueTimesComeFromRecords(s.db, OpOf(step).value, j);
    }
  }

  lemma StartsStayAbsent(db: Db, op: DbOp, j: JobId)
    requires NeverStarted(db.log, j) && (j in db.jobs ==> db.jobs[j].Terminal())
    ensures NeverStarted(Apply(db, op).log, j)
  {
  }

  /** A new error is the code its completion carried, and the completion was backed by the queue's history. */
  lemma NewErrorsAreTruthful(s: Sys, step: Step, t: Sys, j: JobId)
    requires Enabled(s, step) && t == Next(s, step) && Extends(s, t)
    requires step.Commit? && step.request.Complete? && Backed(s, step.request)
    requires j in s.db.jobs && j in t.db.jobs && H.JobOk(s.db, j)
    requires !s.db.jobs[j].Terminal() && t.db.jobs[j].error.Some?
    ensures ErrorTruthful(t, j)
  {
    ErrorsComeFromCompletions(s.db, OpOf(step).value, j);
    DeadLetterIsStable(s, t, j);
    if t.db.jobs[j].error == Some(EnqueueFailed) {
      NoAttemptMeansNeverStarted(s.db.log, j);
    }
  }

  /** A finished row keeps its error, and nothing starts it any more. */
  lemma OldErrorsStayTruthful(s: Sys, step: Step, t: Sys, j: JobId)
    requires OpOf(step).Some? && t.db == Apply(s.db, OpOf(step).value) && Extends(s, t)
    requires j in s.db.jobs && j in t.db.jobs && s.db.jobs[j].Terminal() && ErrorTruthful(s, j)
    requires t.db.jobs[j].error == s.db.jobs[j].error
    ensures ErrorTruthful(t, j)
  {
    DeadLetterIsStable(s, t, j);
    if NeverStarted(s.db.log, j) { StartsStayAbsent(s.db, OpOf(step).value, j); }
  }

  /** Only a store step changes a row's error, the log or what it speaks of. */
  lemma QuietStepsKeepErrors(s: Sys, step: Step, t: Sys, j: JobId)
    requires OpOf(step).None? && t.db == s.db && Extends(s, t)
    requires j in s.db.jobs && ErrorTruthful(s, j)
    ensures ErrorTruthful(t, j)
  {
    DeadLetterIsStable(s, t, j);
  }

  lemma ErrorsStayTruthful(s: Sys, step: Step, t: Sys, j: JobId)
    requires Enabled(s, step) && t == Next(s, step) && Extends(s, t)
    requires forall r | r in s.sent :: Backed(s, r)
    requires j in s.db.jobs && j in t.db.jobs && H.JobOk(s.db, j) && ErrorTruthful(s, j)
    ensures ErrorTruthful(t, j)
  {
    StepRunsTheStore(s, step);
    if OpOf(step).None? {
      QuietStepsKeepErrors(s, step, t, j);
    } else if t.db.jobs[j].error.Some? {
      ErrorsComeFromCompletions(s.db, OpOf(step).value, j);
      if s.db.jobs[j].Terminal() {
        OldErrorsStayTruthful(s, step, t, j);
      } else {
        NewErrorsAreTruthful(s, step, t, j);
      }
    }
  }

  lemma RowsStayTruthful(s: Sys, step: Step, t: Sys, j: JobId)
    requires H.Inv(s.db) && Enabled(s, step) && t == Next(s, step) && Extends(s, t)
    requires forall r | r in s.sent :: Backed(s, r)
    requires j in t.db.jobs && (j in s.db.jobs ==> RowTruthful(s, j))
    ensures RowTruthful(t, j)
  {
    forall k | k in s.db.jobs ensures k < s.db.nextId { assert H.JobOk(s.db, k); }
    if j in s.db.jobs {
      EnqueuedStaysTruthful(s, step, t, j);
      ErrorsStayTruthful(s, step, t, j);
    } else {
      RowsKeepIdentity(s.db, OpOf(step).value, j);
    }
  }

  lemma WasPutIsStable(s: Sys, t: Sys, p: Payload)
    requires Extends(s, t)
    ensures WasPut(s, p) ==> WasPut(t, p)
  {
  }

  lemma DeadLetterIsStable(s: Sys, t: Sys, j: JobId)
    requires Extends(s, t)
    ensures DeadLetteredJob(s, j) ==> DeadLetteredJob(t, j)
  {
  }

  lemma SentStaysBacked(s: Sys, step: Step, t: Sys)
    requires CallsOk(s) && Enabled(s, step) && t == Next(s, step) && Extends(s, t)
    requires forall r | r in s.sent :: Backed(s, r)
    ensures forall r | r in t.sent :: Backed(t, r)
  {
    forall r | r in t.sent ensures Backed(t, r) {
      if r in s.sent {
        BackedIsStable(s, t, r);
      } else if !r.Publish? {
        assert step == Send(r);
        BackedIsStable(s, t, r);
      }
    }
  }

  lemma StepKeepsQueue(s: Sys, step: Step, t: Sys)
    requires SysInv(s) && Enabled(s, step) && t == Next(s, step)
    ensures CallsOk(t) && QueueOk(t) && Extends(s, t) && forall r | r in t.sent :: Backed(t, r)
  {
    StepExtends(s, step);
    forall k | k in s.db.jobs ensures k < s.db.nextId { assert H.JobOk(s.db, k); }
    CallsStayOk(s, step, t);
    QueueStaysOk(s, step, t);
    SentStaysBacked(s, step, t);
  }

  lemma StepKeepsRows(s: Sys, step: Step, t: Sys)
    requires SysInv(s) && Enabled(s, step) && t == Next(s, step) && Extends(s, t)
    ensures forall j | j in t.db.jobs :: RowTruthful(t, j)
  {
    forall j | j in t.db.jobs ensures RowTruthful(t, j) { RowsStayTruthful(s, step, t, j); }
  }

  lemma StepKeepsInv(s: Sys, step: Step, t: Sys)
    requires SysInv(s) && Enabled(s, step) && t == Next(s, step)
    ensures SysInv(t) && Extends(s, t)
  {
    StepKeepsQueue(s, step, t);
    StepKeepsRows(s, step, t);
    StepRunsTheStore(s, step);
    if OpOf(step).Some? { H.ApplyKeepsInv(s.db, OpOf(step).value); }
  }

  lemma {:induction false} RunKeepsInv(steps: seq<Step>)
    requires ValidRun(steps)
    ensures SysInv(Reached(steps))
  {
    if steps == [] {
    } else {
      var front := steps[..|steps| - 1];
      RunKeepsInv(front);
      StepKeepsInv(Reached(front), steps[|steps| - 1], Reached(steps));
    }
  }

  lemma {:induction false} RunExtends(steps: seq<Step>, n: nat)
    requires ValidRun(steps) && n <= |steps|
    ensures ValidRun(steps[..n]) && Extends(Reached(steps[..n]), Reached(steps))
    decreases |steps|
  {
    if n == |steps| {
      assert steps[..n] == steps;
    } else {
      var front := steps[..|steps| - 1];
      assert front[..n] == steps[..n];
      RunExtends(front, n);
      RunKeepsInv(front);
      StepKeepsInv(Reached(front), steps[|steps| - 1], Reached(steps));
      ExtendsIsTransitive(Reached(steps[..n]), Reached(front), Reached(steps));
    }
  }

  lemma PrefixExtends(before: seq<Step>, steps: seq<Step>)
    requires ValidRun(steps) && before <= steps
    ensures Extends(Reached(before), Reached(steps))
  {
    RunExtends(steps, |before|);
    assert steps[..|before|] == before;
  }

  // ---------------------------------------------------------------- what holds of every run

  predicate HasMessage(s: Sys, p: Payload) {
    exists m | m in s.live :: m in s.messages && s.messages[m] == p
  }

  /** No lost job: an enqueued job that is still active has a message in the queue or the dead-letter queue. */
  lemma NoEnqueuedJobIsLost(steps: seq<Step>, j: JobId)
    requires ValidRun(steps)
    requires j in Reached(steps).db.jobs
    requires Reached(steps).db.jobs[j].enqueuedAt.Some? && !Reached(steps).db.jobs[j].Terminal()
    ensures HasMessage(Reached(steps), PayloadOf(Reached(steps).db, j))
  {
    var s := Reached(steps);
    RunKeepsInv(steps);
    assert RowTruthful(s, j);
    var m :| m in s.messages && s.messages[m] == PayloadOf(s.db, j);
    assert MessageOk(s, m);
  }

  /** A message that is gone belongs to a job that is over, in this state and in every later one. */
  lemma DeletedMessagesAreOver(steps: seq<Step>, n: nat, m: MsgId)
    requires ValidRun(steps) && n <= |steps|
    requires m in Reached(steps[..n]).messages && m !in Reached(steps[..n]).live
    ensures H.Done(Reached(steps).db, Reached(steps[..n]).messages[m].job)
  {
    RunExtends(steps, n);
    RunKeepsInv(steps[..n]);
    assert MessageOk(Reached(steps[..n]), m);
  }

  /** A declined call put nothing; a job failed as undelivered was never started and has no message. */
  lemma UndeliveredIsTruthful(steps: seq<Step>, j: JobId)
    requires ValidRun(steps)
    ensures var s := Reached(steps);
            && (IsDeclined(s, j) ==> forall m | m in s.messages :: s.messages[m].job != j)
            && (j in s.db.jobs && s.db.jobs[j].error == Some(EnqueueFailed) ==>
                  IsDeclined(s, j) && NeverStarted(s.db.log, j) && s.db.jobs[j].enqueuedAt.None?)
  {
    var s := Reached(steps);
    RunKeepsInv(steps);
    forall m | m in s.messages && IsDeclined(s, j) ensures s.messages[m].job != j { assert MessageOk(s, m); }
    if j in s.db.jobs { assert RowTruthful(s, j); }
  }

  /** A result of the current attempt, about to be committed for a song or a video that is no longer the job's. */
  predicate SourceDiffers(s: Sys, r: Request, j: JobId) {
    && r.Complete? && r.terminal.Success? && r.terminal.job == j && j in s.db.jobs
    && !s.db.jobs[j].Terminal() && s.db.jobs[j].attempt == Some(r.terminal.attempt)
    && !(E.VideoHolds(s.db, s.db.jobs[j]) && r.terminal.result.source == s.db.jobs[j].videoId)
  }

  predicate SourceDifferedAt(steps: seq<Step>, n: nat, j: JobId)
    requires n < |steps|
  {
    steps[n].Commit? && SourceDiffers(Reached(steps[..n]), steps[n].request, j)
  }

  ghost predicate SourceDiffered(steps: seq<Step>, j: JobId) {
    exists n: nat :: n < |steps| && SourceDifferedAt(steps, n, j)
  }

  lemma SourceChangesAreSeen(s: Sys, step: Step, t: Sys, j: JobId)
    requires SysInv(s) && Enabled(s, step) && t == Next(s, step)
    requires j in t.db.jobs && t.db.jobs[j].error == Some(SourceChanged)
    requires j in s.db.jobs ==> s.db.jobs[j].error != Some(SourceChanged)
    ensures step.Commit? && SourceDiffers(s, step.request, j)
  {
    StepRunsTheStore(s, step);
    assert OpOf(step).Some?;
    forall k | k in s.db.jobs ensures k < s.db.nextId { assert H.JobOk(s.db, k); }
    RowsKeepIdentity(s.db, OpOf(step).value, j);
    ErrorsComeFromCompletions(s.db, OpOf(step).value, j);
    OnlyResultsFindAChange(s, step.request.terminal, step.now, j);
  }

  lemma OnlyResultsFindAChange(s: Sys, t: Terminal, now: Time, j: JobId)
    requires H.Inv(s.db) && Backed(s, Complete(t)) && t.job == j
    requires j in s.db.jobs && j in CompleteJob(s.db, t, now).0.jobs
    requires s.db.jobs[j].error != Some(SourceChanged) && CompleteJob(s.db, t, now).0.jobs[j].error == Some(SourceChanged)
    ensures SourceDiffers(s, Complete(t), j)
  {
    E.CompletionsAreFenced(s.db, t, now);
    if t.Success? {
      E.ResultsAreStored(s.db, t, now);
    }
  }

  lemma {:induction false} SourceChangesHappened(steps: seq<Step>, j: JobId)
    requires ValidRun(steps) && j in Reached(steps).db.jobs && Reached(steps).db.jobs[j].error == Some(SourceChanged)
    ensures SourceDiffered(steps, j)
  {
    if steps != [] {
      var front, last := steps[..|steps| - 1], steps[|steps| - 1];
      RunKeepsInv(front);
      if j in Reached(front).db.jobs && Reached(front).db.jobs[j].error == Some(SourceChanged) {
        SourceChangesHappened(front, j);
        var n: nat :| n < |front| && SourceDifferedAt(front, n, j);
        assert front[..n] == steps[..n];
        assert SourceDifferedAt(steps, n, j);
      } else {
        SourceChangesAreSeen(Reached(front), last, Reached(steps), j);
        assert SourceDifferedAt(steps, |steps| - 1, j);
      }
    }
  }

  ghost predicate FailureHappened(steps: seq<Step>, j: JobId, error: Option<ErrorCode>) {
    match error
    case Some(EnqueueFailed) => IsDeclined(Reached(steps), j)
    case Some(DeadLettered) => DeadLetteredJob(Reached(steps), j)
    case Some(SourceChanged) => SourceDiffered(steps, j)
    case _ => false
  }

  lemma FailureHasCode(s: Sys, j: JobId)
    requires SysInv(s) && j in s.db.jobs && s.db.jobs[j].status.Failed?
    ensures var e := s.db.jobs[j].error;
            (e == Some(EnqueueFailed) || e == Some(DeadLettered) || e == Some(SourceChanged)) && ErrorTruthful(s, j)
  {
    assert RowTruthful(s, j) && H.JobOk(s.db, j);
    match s.db.jobs[j].error
    case Some(SourceChanged) =>
    case _ =>
  }

  /**
   * The failure a job reports is one that happened: a declined call, a dead-lettered message, or a result that
   * came in when the song had another video or the result another source.
   */
  lemma FailuresAreTruthful(steps: seq<Step>, j: JobId)
    requires ValidRun(steps) && j in Reached(steps).db.jobs && Reached(steps).db.jobs[j].status.Failed?
    ensures FailureHappened(steps, j, Reached(steps).db.jobs[j].error)
  {
    RunKeepsInv(steps);
    FailureHasCode(Reached(steps), j);
    if Reached(steps).db.jobs[j].error == Some(SourceChanged) {
      SourceChangesHappened(steps, j);
    }
  }

  /** The store transactions of a run, so that what WaveformHistory proves of the store holds of the protocol. */
  function OpsOf(steps: seq<Step>): seq<DbOp> {
    if steps == [] then []
    else
      var last := OpOf(steps[|steps| - 1]);
      OpsOf(steps[..|steps| - 1]) + if last.Some? then [last.value] else []
  }

  lemma StepRunsTheStore(s: Sys, step: Step)
    ensures Next(s, step).db == if OpOf(step).Some? then Apply(s.db, OpOf(step).value) else s.db
  {
  }

  lemma {:induction false} ProtocolRunsTheStore(steps: seq<Step>)
    ensures Reached(steps).db == Run(OpsOf(steps))
  {
    if steps == [] {
    } else {
      var front, last := steps[..|steps| - 1], steps[|steps| - 1];
      ProtocolRunsTheStore(front);
      StepRunsTheStore(Reached(front), last);
      var ops := OpsOf(steps);
      if OpOf(last).Some? {
        assert ops == OpsOf(front) + [OpOf(last).value];
        assert ops[..|ops| - 1] == OpsOf(front);
      } else {
        assert ops == OpsOf(front);
      }
    }
  }
}
