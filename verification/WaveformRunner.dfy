/**
 * The code that drives the protocol: the runner's Process and ProcessDeadLetter, the enqueue
 * handler, and the Console route that owns a new job's only enqueue call.
 *
 * The rest of the world acts between any two statements. What it does, which requests take effect,
 * which answers arrive and when the lease is cancelled is read from `script`, which is arbitrary;
 * when it ends, nothing more takes effect. `trace` records every step, so `Valid()` says that what
 * happened is a run of WaveformProtocol, where every request was allowed when it was sent.
 */
module WaveformRunner {
  import opened Wrappers
  import opened WaveformModel
  import opened WaveformProtocol
  import D = EnqueueSlots
  import C = EnqueueClient
  import E = WaveformEffects
  import H = WaveformHistory

  datatype Delivery = Delivery(msg: MsgId, payload: Payload, deadLetter: bool)

  datatype WorkerResult = WorkerStalled | WorkerFailed | WorkerDone(body: nat)

  datatype Moment = Moment(before: seq<Step>, executes: bool, now: Time, after: seq<Step>, delivered: bool,
                           cancelled: bool, cleaned: bool, worker: WorkerResult)

  const SILENCE := Moment([], false, 0, [], false, true, false, WorkerFailed)

  /** Nobody else acts, the request is served and answered, and the worker makes a result. */
  predicate Calm(m: Moment) {
    m.before == [] && m.after == [] && m.executes && m.delivered && !m.cancelled && m.cleaned && m.worker.WorkerDone?
  }

  predicate CalmFor(script: seq<Moment>, n: nat) {
    n <= |script| && forall i :: 0 <= i < n ==> Calm(script[i])
  }

  /** What a caller learns of a call. `Lost` covers every error that leaves the effect unknown. */
  datatype Answer = Lost | Confirmed | Answered(reply: Reply)

  datatype Outcome =
    | Handled | Misconfigured | Stalled | Cancelled | NotFound | ApiUnconfirmed
    | PayloadInvalid | WorkUnconfirmed | ConsumeUnconfirmed

  datatype EnqueueOutcome = Enqueued | Unconfirmed | NotEnqueued | Busy

  datatype RouteReply = Rejected(fault: Fault) | Accepted202(job: JobId) | EnqueueRefused(job: JobId) | Failed500

  function AnswerTo(db: Db, r: Request, now: Time): Answer {
    match r
    case Publish(_) => Confirmed
    case Delete(_) => Confirmed
    case Record(p, at) => Answered(RecordEnqueued(db, p, at).1)
    case Start(p, expected) => Answered(StartJob(db, p, expected, now).1)
    case Complete(t) => Answered(CompleteJob(db, t, now).1)
  }

  /** The request sent and at once carried out. */
  function Served(s: Sys, r: Request, now: Time): Sys { Next(Next(s, Send(r)), Commit(r, now)) }

  /** An active job of the payload's song and video, which the song still shows. */
  predicate Workable(db: Db, p: Payload) {
    p.job in db.jobs && E.MayStart(db, p, db.jobs[p.job].attempt)
  }

  /** Finished with this result, which is what the song's readers see. */
  predicate FinishedWith(db: Db, p: Payload, result: WaveformData) {
    p.job in db.jobs && db.jobs[p.job].status.Succeeded? && db.jobs[p.job].error.None? && ReadWaveform(db, p.song) == Some(result)
  }

  /** A queued job of the payload that nobody recorded or started. */
  predicate Unsent(db: Db, p: Payload) {
    && p.job in db.jobs && db.jobs[p.job].songId == p.song && db.jobs[p.job].videoId == p.video
    && db.jobs[p.job].status.Queued? && db.jobs[p.job].attempt.None? && db.jobs[p.job].enqueuedAt.None?
  }

  /** The job's own call put its message. */
  predicate NewJobQueued(s: Sys, j: JobId, at: Time) {
    j in s.calls && s.calls[j].payload.job == j && InQueue(s, s.calls[j].payload, at)
  }

  predicate HasFailed(db: Db, j: JobId, code: ErrorCode) {
    j in db.jobs && db.jobs[j].status.Failed? && db.jobs[j].error == Some(code)
  }

  predicate Recorded(db: Db, p: Payload) {
    && p.job in db.jobs && db.jobs[p.job].songId == p.song && db.jobs[p.job].videoId == p.video
    && db.jobs[p.job].enqueuedAt.Some?
  }

  /** The job's message is in the queue and the job says since when. */
  predicate InQueue(s: Sys, p: Payload, at: Time) {
    HasMessage(s, p) && p.job in s.db.jobs && s.db.jobs[p.job].enqueuedAt == Some(at)
  }

  /** A job the runner may start: active, of the payload's song and video, and of an approved video. */
  predicate Approachable(db: Db, p: Payload, approved: set<string>) {
    && p.job in db.jobs && db.jobs[p.job].songId == p.song && db.jobs[p.job].videoId == p.video
    && !db.jobs[p.job].Terminal() && p.video in approved
  }

  /** Finished, or gone with its song. */
  predicate IsOver(db: Db, p: Payload) {
    p.job in db.jobs ==> db.jobs[p.job].songId == p.song && db.jobs[p.job].videoId == p.video && db.jobs[p.job].Terminal()
  }

  predicate IsTerminal(status: Status) { status.Succeeded? || status.Failed? }

  predicate EnqueuedOrGone(db: Db, j: JobId) {
    j in db.jobs ==> db.jobs[j].enqueuedAt.Some?
  }

  // ---------------------------------------------------------------- knowledge that lasts

  /** What an answer proves, then and ever after. `log` is the history before the call. */
  ghost predicate Learned(log: seq<Event>, s: Sys, r: Request, a: Answer) {
    match a
    case Lost => true
    case Confirmed => (r.Publish? ==> WasPut(s, r.payload)) && (r.Delete? ==> r.msg !in s.live)
    case Answered(reply) =>
      match r
      case Start(p, _) =>
        reply.StartAck? && reply.started ==>
          reply.row.attempt.Some? && Started(p.job, reply.row.attempt.value) in s.db.log
          && Started(p.job, reply.row.attempt.value) !in log
      case Complete(t) =>
        (reply.TerminalAck? && (reply.applied || IsTerminal(reply.status))) || reply == Thrown(JobNotFound) ==> H.Done(s.db, t.job)
      case Record(p, _) => reply.Row? ==> EnqueuedOrGone(s.db, p.job)
      case _ => true
  }

  /** Requests only ever speak of jobs that were issued and messages that were put. */
  ghost predicate Issued(s: Sys, r: Request) {
    match r
    case Publish(p) => p.job < s.db.nextId
    case Record(p, _) => p.job < s.db.nextId
    case Start(p, _) => p.job < s.db.nextId
    case Complete(t) => t.job < s.db.nextId
    case Delete(m) => m in s.messages
  }

  lemma PutJobsAreIssued(s: Sys, p: Payload)
    requires SysInv(s) && WasPut(s, p)
    ensures p.job in s.calls && s.calls[p.job].payload == p && p.job < s.db.nextId
  {
  }

  lemma BackedIsIssued(s: Sys, r: Request)
    requires SysInv(s) && Backed(s, r)
    ensures Issued(s, r)
  {
  }

  lemma NewAttemptIsNew(s: Sys, j: JobId)
    requires H.IdsOk(s.db)
    ensures Started(j, s.db.nextId) !in s.db.log
  {
  }

  lemma CommitTeaches(log: seq<Event>, s: Sys, r: Request, now: Time)
    requires Issued(s, r) && H.IdsOk(s.db) && log <= s.db.log
    ensures Learned(log, Next(s, Commit(r, now)), r, AnswerTo(s.db, r, now))
  {
    match r
    case Publish(p) => assert Next(s, Commit(r, now)).messages[s.nextMsg] == p;
    case Start(p, expected) => NewAttemptIsNew(s, p.job);
    case _ =>
  }

  lemma AnswersTeach(before: seq<Step>, steps: seq<Step>, r: Request, now: Time)
    requires ValidRun(steps) && before <= steps && r in Reached(steps).sent
    ensures Learned(Reached(before).db.log, Next(Reached(steps), Commit(r, now)), r, AnswerTo(Reached(steps).db, r, now))
    ensures Issued(Reached(steps), r)
  {
    RunKeepsInv(steps);
    PrefixExtends(before, steps);
    BackedIsIssued(Reached(steps), r);
    CommitTeaches(Reached(before).db.log, Reached(steps), r, now);
  }

  lemma LearnedIsStable(log: seq<Event>, s: Sys, t: Sys, r: Request, a: Answer)
    requires Learned(log, s, r, a) && Extends(s, t) && Issued(s, r)
    ensures Learned(log, t, r, a)
  {
    if r.Publish? { WasPutIsStable(s, t, r.payload); }
    if r.Record? { assert RowStays(s.db, t.db, r.payload.job); }
  }

  lemma LearnedLasts(log: seq<Event>, before: seq<Step>, steps: seq<Step>, r: Request, a: Answer)
    requires ValidRun(steps) && before <= steps
    requires Learned(log, Reached(before), r, a) && Issued(Reached(before), r)
    ensures Learned(log, Reached(steps), r, a)
  {
    PrefixExtends(before, steps);
    LearnedIsStable(log, Reached(before), Reached(steps), r, a);
  }

  ghost predicate RowSeen(s: Sys, j: JobId, row: Job) {
    && (row.Terminal() ==> H.Done(s.db, j))
    && (row.enqueuedAt.Some? ==> EnqueuedOrGone(s.db, j) && WasPut(s, Payload(j, row.songId, row.videoId)))
  }

  lemma RowsAreSeen(steps: seq<Step>, j: JobId)
    requires ValidRun(steps) && j in Reached(steps).db.jobs
    ensures RowSeen(Reached(steps), j, Reached(steps).db.jobs[j])
  {
    RunKeepsInv(steps);
    assert H.JobOk(Reached(steps).db, j) && RowTruthful(Reached(steps), j);
  }

  lemma RowSeenLasts(before: seq<Step>, steps: seq<Step>, j: JobId, row: Job)
    requires ValidRun(steps) && before <= steps
    requires RowSeen(Reached(before), j, row) && j < Reached(before).db.nextId
    ensures RowSeen(Reached(steps), j, row)
  {
    PrefixExtends(before, steps);
    assert RowStays(Reached(before).db, Reached(steps).db, j);
    WasPutIsStable(Reached(before), Reached(steps), Payload(j, row.songId, row.videoId));
  }

  lemma DoneLasts(before: seq<Step>, steps: seq<Step>, j: JobId)
    requires ValidRun(steps) && before <= steps && H.Done(Reached(before).db, j)
    ensures H.Done(Reached(steps).db, j)
  {
    PrefixExtends(before, steps);
  }

  ghost predicate HeldIn(s: Sys, d: Delivery) {
    && d.msg in s.messages && s.messages[d.msg] == d.payload
    && (d.deadLetter ==> d.msg in s.dead)
  }

  /** A delivery stays what it is, and speaks of an issued job. */
  lemma HeldLasts(before: seq<Step>, steps: seq<Step>, d: Delivery)
    requires ValidRun(steps) && before <= steps && HeldIn(Reached(before), d)
    ensures HeldIn(Reached(steps), d) && d.payload.job < Reached(steps).db.nextId
  {
    PrefixExtends(before, steps);
    RunKeepsInv(steps);
    assert MessageOk(Reached(steps), d.msg);
  }

  lemma PutLasts(before: seq<Step>, steps: seq<Step>, p: Payload)
    requires ValidRun(steps) && before <= steps && WasPut(Reached(before), p)
    ensures WasPut(Reached(steps), p) && p.job < Reached(steps).db.nextId
  {
    PrefixExtends(before, steps);
    WasPutIsStable(Reached(before), Reached(steps), p);
    RunKeepsInv(steps);
    PutJobsAreIssued(Reached(steps), p);
  }

  lemma LogGrows(before: seq<Step>, steps: seq<Step>)
    requires ValidRun(steps) && before <= steps
    ensures Reached(before).db.log <= Reached(steps).db.log
  {
    PrefixExtends(before, steps);
  }

  lemma CallIsIssued(steps: seq<Step>, p: Payload, phase: Phase)
    requires ValidRun(steps) && IsCall(Reached(steps), p, phase)
    ensures p.job < Reached(steps).db.nextId
  {
    RunKeepsInv(steps);
  }

  lemma SentLasts(before: seq<Step>, steps: seq<Step>, r: Request)
    requires ValidRun(steps) && before <= steps && r in Reached(before).sent
    ensures r in Reached(steps).sent
  {
    PrefixExtends(before, steps);
  }

  lemma IssuedRequestLasts(before: seq<Step>, steps: seq<Step>, r: Request)
    requires ValidRun(steps) && before <= steps && Issued(Reached(before), r)
    ensures Issued(Reached(steps), r)
  {
    PrefixExtends(before, steps);
  }

  lemma DeclinedLasts(before: seq<Step>, steps: seq<Step>, j: JobId)
    requires ValidRun(steps) && before <= steps && IsDeclined(Reached(before), j)
    ensures IsDeclined(Reached(steps), j)
  {
    PrefixExtends(before, steps);
  }

  /** The request that creates a job also creates its one enqueue call. */
  lemma CreatedCallIsUndecided(s: Sys, op: DbOp, t: Sys)
    requires op.OpRequest? && t == Next(s, Store(op))
    requires RequestJob(s.db, op.ctx, op.song, op.approved).1.Accepted?
    requires RequestJob(s.db, op.ctx, op.song, op.approved).1.created
    ensures var j := RequestJob(s.db, op.ctx, op.song, op.approved).1.id;
            && j in t.calls && t.calls[j].phase.Undecided? && t.calls[j].payload.job == j
            && Unsent(t.db, t.calls[j].payload) && t.calls[j].payload.video in op.approved
  {
  }

  lemma PayloadLasts(before: seq<Step>, steps: seq<Step>, j: JobId)
    requires ValidRun(steps) && before <= steps && j in Reached(before).calls
    ensures j in Reached(steps).calls && Reached(steps).calls[j].payload == Reached(before).calls[j].payload
  {
    PrefixExtends(before, steps);
  }

  lemma IssuedLasts(before: seq<Step>, steps: seq<Step>, j: JobId)
    requires ValidRun(steps) && before <= steps && j < Reached(before).db.nextId
    ensures j < Reached(steps).db.nextId
  {
    PrefixExtends(before, steps);
  }

  lemma OthersLeaveCallsAlone(steps: seq<Step>, step: Step, j: JobId)
    requires ValidRun(steps) && Enabled(Reached(steps), step) && j in Reached(steps).calls
    requires step != Decline(j) && !(step.Send? && step.request.Publish? && step.request.payload.job == j)
    ensures j in Next(Reached(steps), step).calls && Next(Reached(steps), step).calls[j] == Reached(steps).calls[j]
  {
    RunKeepsInv(steps);
    if step.Store? && Created(Reached(steps).db, step.op).Some? {
      assert Created(Reached(steps).db, step.op).value == Reached(steps).db.nextId;
    }
  }

  /** The acks the client believes: an applied one must name the same attempt and a fitting status. */
  predicate AckAccepted(t: Terminal, a: Answer) {
    && a.Answered? && a.reply.TerminalAck?
    && (a.reply.applied ==>
          && a.reply.attempt == TerminalAttempt(t) && IsTerminal(a.reply.status)
          && (t.Failure? ==> a.reply.status.Failed?))
  }

  lemma StoreKeepsInv(steps: seq<Step>)
    requires ValidRun(steps)
    ensures H.Inv(Reached(steps).db)
  {
    RunKeepsInv(steps);
  }

  lemma ServedCompletions(s: Sys, t: Terminal, now: Time)
    ensures Served(s, Complete(t), now).db == CompleteJob(s.db, t, now).0
    ensures AnswerTo(s.db, Complete(t), now) == Answered(CompleteJob(s.db, t, now).1)
  {
  }

  lemma AppliedAcksAreAccepted(t: Terminal, reply: Reply)
    requires reply.TerminalAck? && reply.applied && reply.attempt == TerminalAttempt(t)
    requires reply.status.Failed? || (t.Success? && reply.status.Succeeded?)
    ensures AckAccepted(t, Answered(reply)) && IsTerminal(reply.status)
  {
  }

  /** A completion that may finish the job is acknowledged as applied. */
  lemma FinishingIsAcknowledged(steps: seq<Step>, t: Terminal, now: Time)
    requires ValidRun(steps) && E.MayFinish(Reached(steps).db, t)
    ensures var a := AnswerTo(Reached(steps).db, Complete(t), now);
            AckAccepted(t, a) && a.reply.applied && IsTerminal(a.reply.status)
    ensures Served(Reached(steps), Complete(t), now).db == CompleteJob(Reached(steps).db, t, now).0
  {
    StoreKeepsInv(steps);
    ServedCompletions(Reached(steps), t, now);
    FinishIsAcknowledgedIn(Reached(steps).db, t, now);
  }

  lemma FinishIsAcknowledgedIn(db: Db, t: Terminal, now: Time)
    requires H.Inv(db) && E.MayFinish(db, t)
    ensures var reply := CompleteJob(db, t, now).1;
            AckAccepted(t, Answered(reply)) && reply.applied && IsTerminal(reply.status)
  {
    E.FinishesAreAcknowledged(db, t, now);
    AppliedAcksAreAccepted(t, CompleteJob(db, t, now).1);
  }

  lemma DeadLettersMayBeFailed(s: Sys, d: Delivery, attempt: Option<AttemptId>)
    requires HeldIn(s, d) && d.deadLetter
    ensures Allowed(s, Complete(Failure(d.payload.job, attempt, DeadLettered)))
  {
    assert s.messages[d.msg].job == d.payload.job;
  }

  lemma FailuresHaveTheirCode(steps: seq<Step>, t: Terminal, now: Time)
    requires ValidRun(steps) && t.Failure? && E.MayFinish(Reached(steps).db, t)
    ensures HasFailed(CompleteJob(Reached(steps).db, t, now).0, t.job, t.code)
  {
    StoreKeepsInv(steps);
    E.FailuresAreRecorded(Reached(steps).db, t, now);
  }

  /** The result of a running attempt, for a song that still shows the video. */
  lemma RunningResultsAreStored(steps: seq<Step>, p: Payload, attempt: AttemptId, body: nat, now: Time)
    requires ValidRun(steps) && E.MayStart(Reached(steps).db, p, Some(attempt))
    ensures var t := Success(p.job, attempt, WaveformData(p.video, body));
            E.MayFinish(Reached(steps).db, t) && FinishedWith(CompleteJob(Reached(steps).db, t, now).0, p, t.result)
  {
    StoreKeepsInv(steps);
    E.ResultsAreStored(Reached(steps).db, Success(p.job, attempt, WaveformData(p.video, body)), now);
  }

  /** An acknowledged start of the attempt after the expected one. */
  lemma StartingIsAcknowledged(steps: seq<Step>, p: Payload, expected: Option<AttemptId>, now: Time)
    requires ValidRun(steps) && E.MayStart(Reached(steps).db, p, expected)
    ensures var a := AnswerTo(Reached(steps).db, Start(p, expected), now);
            && a.Answered? && a.reply.StartAck? && a.reply.started && a.reply.row.status.Running?
            && a.reply.row.attempt.Some? && a.reply.row.attempt != expected
            && E.MayStart(Served(Reached(steps), Start(p, expected), now).db, p, a.reply.row.attempt)
  {
    StoreKeepsInv(steps);
    E.StartsBeginAnAttempt(Reached(steps).db, p, expected, now);
  }

  /** A message put and its time recorded, one after the other. */
  function Queued(s: Sys, p: Payload, put: Time, at: Time, recorded: Time): Sys {
    Served(Served(s, Publish(p), put), Record(p, at), recorded)
  }

  lemma PublishingQueues(s: Sys, p: Payload, put: Time, at: Time, recorded: Time)
    requires Unsent(s.db, p)
    ensures InQueue(Queued(s, p, put, at, recorded), p, at)
    ensures RecordEnqueued(Served(s, Publish(p), put).db, p, at).1 == Row(s.db.jobs[p.job].(enqueuedAt := Some(at)))
  {
    var t := Served(s, Publish(p), put);
    assert t.db == s.db && s.nextMsg in t.live && t.messages[s.nextMsg] == p;
    var u := Served(t, Record(p, at), recorded);
    assert u.live == t.live && u.messages == t.messages;
    assert s.nextMsg in u.live && u.messages[s.nextMsg] == p;
  }

  /** A successful completion under the given attempt, and perhaps the deletion after it. */
  predicate SubmitShape(rest: seq<Request>, d: Delivery, attempt: AttemptId) {
    && 1 <= |rest| <= 2
    && rest[0].Complete? && rest[0].terminal.Success? && rest[0].terminal.job == d.payload.job
    && rest[0].terminal.attempt == attempt && rest[0].terminal.result.source == d.payload.video
    && (|rest| == 2 ==> rest[1] == Delete(d.msg))
  }

  /** The requests one Process call sends: a deletion alone, or start, completion and deletion in order. */
  predicate MainShape(own: seq<Request>, d: Delivery) {
    || own == []
    || own == [Delete(d.msg)]
    || (own[0].Start? && own[0].payload == d.payload
        && (|own| == 1 || (own[1].Complete? && own[1].terminal.Success?
                           && SubmitShape(own[1..], d, own[1].terminal.attempt))))
  }

  /** A dead letter is never started: it is failed as dead-lettered, or just deleted. */
  predicate DeadLetterShape(own: seq<Request>, d: Delivery) {
    || own == []
    || own == [Delete(d.msg)]
    || (|own| >= 1 && own[0].Complete? && own[0].terminal.Failure? && own[0].terminal.job == d.payload.job
        && own[0].terminal.code.DeadLettered?
        && (|own| == 1 || own == [own[0], Delete(d.msg)]))
  }

  /** What one enqueue call puts on the wire: at most one message, and then its record. */
  predicate PublishShape(own: seq<Request>, p: Payload) {
    || own == []
    || own == [Publish(p)]
    || (|own| == 2 && own[0] == Publish(p) && own[1].Record? && own[1].payload == p)
  }

  lemma PutThenRecord(sent: seq<Request>, own: seq<Request>, p: Payload, record: Request)
    requires own == sent + [Publish(p)] + [record] && record.Record? && record.payload == p
    ensures own == sent + [Publish(p), record] && PublishShape([Publish(p), record], p)
  {
  }

  lemma StartThenSubmit(sent: seq<Request>, own: seq<Request>, d: Delivery, start: Request, rest: seq<Request>, attempt: AttemptId)
    requires own == sent + [start] + rest && start.Start? && start.payload == d.payload
    requires rest == [] || SubmitShape(rest, d, attempt)
    ensures own == sent + ([start] + rest) && MainShape([start] + rest, d)
    ensures rest != [] ==> ([start] + rest)[1] == rest[0] && rest[0].Complete? && rest[0].terminal.Success? && rest[0].terminal.attempt == attempt
    ensures rest == [] ==> |[start] + rest| == 1
  {
    if rest != [] {
      assert ([start] + rest)[1..] == rest;
    }
  }

  class Host {
    var sys: Sys
    var script: seq<Moment>
    var claim: Option<JobId>
    var door: D.Door
    ghost var trace: seq<Step>
    /** The requests this host itself has sent, in order. */
    ghost var mine: seq<Request>

    ghost predicate Valid()
      reads this
    {
      ValidRun(trace) && sys == Reached(trace)
    }

    ghost predicate Holds(d: Delivery)
      reads this
    {
      HeldIn(sys, d)
    }

    constructor (script: seq<Moment>)
      ensures Valid() && sys == START && door == D.OPEN_DOOR && mine == []
    {
      sys, this.script, claim, door, trace, mine := START, script, None, D.OPEN_DOOR, [], [];
    }

    /** A step of somebody else. */
    method Happen(step: Step)
      requires Valid() && Enabled(sys, step)
      modifies this`sys, this`trace
      ensures Valid() && trace == old(trace) + [step] && sys == Next(old(sys), step)
    {
      trace := trace + [step];
      sys := Next(sys, step);
      assert trace[..|trace| - 1] == old(trace);
    }

    /** A step of our own; what it sends is recorded. */
    method Take(step: Step)
      requires Valid() && Enabled(sys, step)
      modifies this`sys, this`trace, this`mine
      ensures Valid() && trace == old(trace) + [step] && sys == Next(old(sys), step)
      ensures mine == if step.Send? then old(mine) + [step.request] else old(mine)
    {
      Happen(step);
      if step.Send? {
        mine := mine + [step.request];
      }
    }

    /** The single enqueue call of a claimed job belongs to its owner. */
    predicate TouchesClaim(step: Step)
      reads this`claim
    {
      claim.Some? && (step == Decline(claim.value)
                      || (step.Send? && step.request.Publish? && step.request.payload.job == claim.value))
    }

    ghost predicate SameClaim(s: Sys)
      reads this`claim, this`sys
    {
      claim.Some? && claim.value in s.calls ==>
        claim.value in sys.calls && sys.calls[claim.value] == s.calls[claim.value]
    }

    method Interfere(env: seq<Step>)
      requires Valid()
      modifies this`sys, this`trace
      ensures Valid() && old(trace) <= trace && SameClaim(old(sys))
      ensures env == [] ==> sys == old(sys)
    {
      for i := 0 to |env|
        invariant Valid() && old(trace) <= trace && SameClaim(old(sys)) && (i == 0 ==> sys == old(sys))
      {
        if Enabled(sys, env[i]) && !TouchesClaim(env[i]) {
          if claim.Some? && claim.value in sys.calls { OthersLeaveCallsAlone(trace, env[i], claim.value); }
          Happen(env[i]);
        }
      }
    }

    method NextMoment() returns (m: Moment)
      modifies this`script
      ensures old(script) != [] ==> m == old(script)[0] && script == old(script)[1..]
    {
      if script == [] {
        m := SILENCE;
      } else {
        m := script[0];
        script := script[1..];
      }
    }

    /** Send a request once. Its effect may come now, later or never; its answer may be lost. */
    method Exchange(r: Request) returns (a: Answer)
      requires Valid() && Allowed(sys, r)
      modifies this`sys, this`trace, this`script, this`mine
      ensures Valid() && old(trace) <= trace && mine == old(mine) + [r]
      ensures Learned(old(sys).db.log, sys, r, a)
      ensures if r.Publish? || r.Delete? then !a.Answered? else !a.Confirmed?
      ensures CalmFor(old(script), 1) ==>
                script == old(script)[1..] && sys == Served(old(sys), r, old(script)[0].now)
                && a == AnswerTo(old(sys).db, r, old(script)[0].now)
    {
      var m := NextMoment();
      Take(Send(r));
      ghost var sent := trace;
      assert r in sys.sent;
      Interfere(m.before);
      if !m.executes { return Lost; }
      SentLasts(sent, trace, r);
      a := Serve(r, m, old(trace));
    }

    /** A request that was sent takes effect, and is answered if the moment delivers. */
    method Serve(r: Request, m: Moment, ghost before: seq<Step>) returns (a: Answer)
      requires Valid() && before <= trace && r in sys.sent
      modifies this`sys, this`trace
      ensures Valid() && old(trace) <= trace
      ensures Learned(Reached(before).db.log, sys, r, a)
      ensures if r.Publish? || r.Delete? then !a.Answered? else !a.Confirmed?
      ensures m.after == [] && m.delivered ==> sys == Next(old(sys), Commit(r, m.now)) && a == AnswerTo(old(sys).db, r, m.now)
    {
      AnswersTeach(before, trace, r, m.now);
      var answer := AnswerTo(sys.db, r, m.now);
      Happen(Commit(r, m.now));
      ghost var done := trace;
      IssuedRequestLasts(done[..|done| - 1], done, r);
      assert done[..|done| - 1] == old(trace);
      Interfere(m.after);
      LearnedLasts(Reached(before).db.log, done, trace, r, answer);
      a := if m.delivered then answer else Lost;
    }

    /** `read` is the run up to the moment the row was read. */
    method Get(j: JobId) returns (a: Answer, ghost read: seq<Step>)
      requires Valid() && j < sys.db.nextId
      modifies this`sys, this`trace, this`script
      ensures Valid() && old(trace) <= trace && !a.Confirmed? && SameClaim(old(sys))
      ensures a.Answered? ==> a.reply.Row? || a.reply == Thrown(JobNotFound)
      ensures old(trace) <= read <= trace
      ensures a.Answered? && a.reply.Row? ==>
                RowSeen(sys, j, a.reply.row) && j in Reached(read).db.jobs && a.reply.row == Reached(read).db.jobs[j]
      ensures CalmFor(old(script), 1) ==>
                script == old(script)[1..] && sys == old(sys)
                && a == Answered(if j in sys.db.jobs then Row(sys.db.jobs[j]) else Thrown(JobNotFound))
      ensures a.Answered? && a.reply == Thrown(JobNotFound) ==> H.Done(sys.db, j)
    {
      var m := NextMoment();
      Interfere(m.before);
      read := trace;
      IssuedLasts(old(trace), read, j);
      var answer := if j in sys.db.jobs then Answered(Row(sys.db.jobs[j])) else Answered(Thrown(JobNotFound));
      ghost var row := if j in sys.db.jobs then Some(sys.db.jobs[j]) else None;
      Interfere(m.after);
      if row.Some? { RowsAreSeen(read, j); RowSeenLasts(read, trace, j, row.value); } else { DoneLasts(read, trace, j); }
      a := if m.executes && m.delivered then answer else Lost;
    }

    method DeleteDelivery(d: Delivery) returns (outcome: Outcome, ghost own: seq<Request>)
      requires Valid() && Holds(d) && H.Done(sys.db, d.payload.job)
      modifies this`sys, this`trace, this`script, this`mine
      ensures Valid() && old(trace) <= trace && mine == old(mine) + own
      ensures own == [Delete(d.msg)]
      ensures outcome.Handled? ==> d.msg !in sys.live && H.Done(sys.db, d.payload.job)
      ensures CalmFor(old(script), 1) ==> outcome.Handled? && sys.db == old(sys).db
    {
      own := [Delete(d.msg)];
      var a := Exchange(Delete(d.msg));
      DoneLasts(old(trace), trace, d.payload.job);
      outcome := if a.Confirmed? then Handled else ConsumeUnconfirmed;
    }

    /** After a completion: delete only once the job is known to be over, else look once more. */
    method ConfirmTerminal(d: Delivery, t: Terminal, a: Answer) returns (outcome: Outcome, ghost own: seq<Request>)
      requires Valid() && Holds(d) && t.job == d.payload.job && t.job < sys.db.nextId && !a.Confirmed?
      requires Learned(sys.db.log, sys, Complete(t), a)
      modifies this`sys, this`trace, this`script, this`mine
      ensures Valid() && old(trace) <= trace && mine == old(mine) + own
      ensures CalmFor(old(script), 1) && AckAccepted(t, a) && a.reply.applied ==> outcome.Handled? && sys.db == old(sys).db
      // An answer that was lost is made up for by the lookup.
      ensures CalmFor(old(script), 2) && a.Lost? && IsOver(old(sys).db, d.payload) ==> outcome.Handled?
      ensures own == [] || own == [Delete(d.msg)]
      ensures outcome.Handled? ==> own != [] && d.msg !in sys.live && H.Done(sys.db, d.payload.job)
    {
      own := [];
      if AckAccepted(t, a) && IsTerminal(a.reply.status) {
        outcome, own := DeleteDelivery(d);
        return;
      }
      if a == Answered(Thrown(JobNotFound)) {
        outcome, own := DeleteDelivery(d);
        return;
      }
      outcome, own := DeleteIfOver(d);
    }

    method DeleteIfOver(d: Delivery) returns (outcome: Outcome, ghost own: seq<Request>)
      requires Valid() && Holds(d) && d.payload.job < sys.db.nextId
      modifies this`sys, this`trace, this`script, this`mine
      ensures Valid() && old(trace) <= trace && mine == old(mine) + own
      ensures own == [] || own == [Delete(d.msg)]
      ensures outcome.Handled? ==> own != [] && d.msg !in sys.live && H.Done(sys.db, d.payload.job)
      ensures CalmFor(old(script), 2) && IsOver(old(sys).db, d.payload) ==> outcome.Handled?
    {
      own := [];
      var current, _ := Get(d.payload.job);
      HeldLasts(old(trace), trace, d);
      if current == Answered(Thrown(JobNotFound)) {
        outcome, own := DeleteDelivery(d);
        return;
      }
      if current.Lost? { return ApiUnconfirmed, own; }
      var row := current.reply.row;
      if row.songId != d.payload.song || row.videoId != d.payload.video { return PayloadInvalid, own; }
      if row.Terminal() {
        outcome, own := DeleteDelivery(d);
        return;
      }
      outcome := WorkUnconfirmed;
    }

    /**
     * `read` is the run up to its lookup. Left alone, it carries any active job of an approved video to its end,
     * whatever attempt an earlier runner left in the row, and removes the message of a job that is over.
     */
    method Process(d: Delivery, approved: set<string>) returns (outcome: Outcome, ghost own: seq<Request>, ghost read: seq<Step>)
      requires Valid() && Holds(d)
      modifies this`sys, this`trace, this`script, this`mine
      ensures Valid() && old(trace) <= read <= trace && mine == old(mine) + own
      ensures MainShape(own, d)
      // It asks for the attempt after the one it was shown.
      ensures own != [] && own[0].Start? ==>
                Approachable(Reached(read).db, d.payload, approved) && own[0].expected == Reached(read).db.jobs[d.payload.job].attempt
      ensures |own| >= 2 ==> Started(d.payload.job, own[1].terminal.attempt) !in old(sys).db.log
      ensures outcome.Handled? ==> own != [] && d.msg !in sys.live && H.Done(sys.db, d.payload.job)
      ensures CalmFor(old(script), 7) && !d.deadLetter && Workable(old(sys).db, d.payload) && d.payload.video in approved ==>
                outcome.Handled? && FinishedWith(sys.db, d.payload, WaveformData(d.payload.video, old(script)[3].worker.body))
      ensures CalmFor(old(script), 3) && !d.deadLetter && IsOver(old(sys).db, d.payload) ==> outcome.Handled?
    {
      own, read := [], trace;
      if d.deadLetter { return Misconfigured, own, read; }
      var cleaning := NextMoment();
      Interfere(cleaning.before);
      read := trace;
      if !cleaning.cleaned { return Stalled, own, read; }
      HeldLasts(old(trace), trace, d);
      LogGrows(old(trace), trace);
      outcome, own, read := LookAndAnalyze(d, approved);
    }

    /** After the cleanup: what the row says decides. */
    method LookAndAnalyze(d: Delivery, approved: set<string>) returns (outcome: Outcome, ghost own: seq<Request>, ghost read: seq<Step>)
      requires Valid() && Holds(d)
      modifies this`sys, this`trace, this`script, this`mine
      ensures Valid() && old(trace) <= read <= trace && mine == old(mine) + own
      ensures MainShape(own, d)
      ensures own != [] && own[0].Start? ==>
                Approachable(Reached(read).db, d.payload, approved) && own[0].expected == Reached(read).db.jobs[d.payload.job].attempt
      ensures |own| >= 2 ==> Started(d.payload.job, own[1].terminal.attempt) !in old(sys).db.log
      ensures outcome.Handled? ==> own != [] && d.msg !in sys.live && H.Done(sys.db, d.payload.job)
      ensures CalmFor(old(script), 6) && Workable(old(sys).db, d.payload) && d.payload.video in approved ==>
                outcome.Handled? && FinishedWith(sys.db, d.payload, WaveformData(d.payload.video, old(script)[2].worker.body))
      ensures CalmFor(old(script), 2) && IsOver(old(sys).db, d.payload) ==> outcome.Handled?
    {
      own := [];
      HeldLasts(trace, trace, d);
      var found;
      found, read := Get(d.payload.job);
      HeldLasts(old(trace), trace, d);
      if found == Answered(Thrown(JobNotFound)) {
        outcome, own := DeleteDelivery(d);
        return;
      }
      if found.Lost? { return ApiUnconfirmed, own, read; }
      var job := found.reply.row;
      if job.songId != d.payload.song || job.videoId != d.payload.video { return PayloadInvalid, own, read; }
      if job.Terminal() {
        outcome, own := DeleteDelivery(d);
        return;
      }
      if d.payload.video !in approved { return PayloadInvalid, own, read; }
      LogGrows(old(trace), trace);
      outcome, own := Analyze(d, job.attempt);
    }

    /** Ask for a new attempt, and believe only an acknowledgement that gives one. */
    method StartAttempt(d: Delivery, expected: Option<AttemptId>) returns (outcome: Outcome, attempt: Option<AttemptId>)
      requires Valid() && Holds(d)
      modifies this`sys, this`trace, this`script, this`mine
      ensures Valid() && old(trace) <= trace && mine == old(mine) + [Start(d.payload, expected)]
      ensures !outcome.Handled?
      ensures attempt.Some? ==>
                Started(d.payload.job, attempt.value) in sys.db.log && Started(d.payload.job, attempt.value) !in old(sys).db.log
      ensures CalmFor(old(script), 1) && E.MayStart(old(sys).db, d.payload, expected) ==>
                script == old(script)[1..] && attempt.Some? && E.MayStart(sys.db, d.payload, attempt)
    {
      assert WasPut(sys, d.payload);
      if script != [] && E.MayStart(sys.db, d.payload, expected) {
        StartingIsAcknowledged(trace, d.payload, expected, script[0].now);
      }
      var start := Exchange(Start(d.payload, expected));
      if start.Lost? { return ApiUnconfirmed, None; }
      if start.reply == Thrown(JobNotFound) { return NotFound, None; }
      if !start.reply.StartAck? { return ApiUnconfirmed, None; }
      var row := start.reply.row;
      if start.reply.started && (!row.status.Running? || row.attempt.None? || (expected.Some? && row.attempt == expected)) {
        return ApiUnconfirmed, None;
      }
      return WorkUnconfirmed, if start.reply.started then row.attempt else None;
    }

    /** The part of Process after its checks: start an attempt, run the worker, submit what it made. */
    method Analyze(d: Delivery, expected: Option<AttemptId>) returns (outcome: Outcome, ghost own: seq<Request>)
      requires Valid() && Holds(d)
      modifies this`sys, this`trace, this`script, this`mine
      ensures Valid() && old(trace) <= trace && mine == old(mine) + own
      ensures MainShape(own, d) && own != []
      ensures own[0] == Start(d.payload, expected)
      ensures |own| >= 2 ==> Started(d.payload.job, own[1].terminal.attempt) !in old(sys).db.log
      ensures outcome.Handled? ==> d.msg !in sys.live && H.Done(sys.db, d.payload.job)
      ensures CalmFor(old(script), 5) && E.MayStart(old(sys).db, d.payload, expected) ==>
                outcome.Handled? && FinishedWith(sys.db, d.payload, WaveformData(d.payload.video, old(script)[1].worker.body))
    {
      own := [Start(d.payload, expected)];
      var attempt;
      outcome, attempt := StartAttempt(d, expected);
      if attempt.None? { return; }
      HeldLasts(old(trace), trace, d);
      ghost var rest;
      outcome, rest := RunAndSubmit(d, attempt.value);
      StartThenSubmit(old(mine), mine, d, Start(d.payload, expected), rest, attempt.value);
      own := [Start(d.payload, expected)] + rest;
    }

    method RunAndSubmit(d: Delivery, attempt: AttemptId) returns (outcome: Outcome, ghost rest: seq<Request>)
      requires Valid() && Holds(d) && Started(d.payload.job, attempt) in sys.db.log
      modifies this`sys, this`trace, this`script, this`mine
      ensures Valid() && old(trace) <= trace && mine == old(mine) + rest
      ensures rest == [] || SubmitShape(rest, d, attempt)
      ensures outcome.Handled? ==> rest != [] && d.msg !in sys.live && H.Done(sys.db, d.payload.job)
      ensures CalmFor(old(script), 4) && E.MayStart(old(sys).db, d.payload, Some(attempt)) ==>
                outcome.Handled? && FinishedWith(sys.db, d.payload, WaveformData(d.payload.video, old(script)[0].worker.body))
    {
      rest := [];
      var running := NextMoment();
      if running.cancelled { return Cancelled, rest; }
      Interfere(running.before);
      if running.worker.WorkerStalled? { return Stalled, rest; }
      var after := NextMoment();
      if after.cancelled { return Cancelled, rest; }
      if running.worker.WorkerFailed? { return WorkUnconfirmed, rest; }
      LogGrows(old(trace), trace);
      HeldLasts(old(trace), trace, d);
      outcome, rest := SubmitResult(d, attempt, running.worker.body);
    }

    method SubmitResult(d: Delivery, attempt: AttemptId, body: nat) returns (outcome: Outcome, ghost rest: seq<Request>)
      requires Valid() && Holds(d) && Started(d.payload.job, attempt) in sys.db.log
      modifies this`sys, this`trace, this`script, this`mine
      ensures Valid() && old(trace) <= trace && mine == old(mine) + rest
      ensures SubmitShape(rest, d, attempt)
      ensures outcome.Handled? ==> d.msg !in sys.live && H.Done(sys.db, d.payload.job)
      ensures CalmFor(old(script), 2) && E.MayStart(old(sys).db, d.payload, Some(attempt)) ==>
                outcome.Handled? && FinishedWith(sys.db, d.payload, WaveformData(d.payload.video, body))
    {
      var t := Success(d.payload.job, attempt, WaveformData(d.payload.video, body));
      if script != [] && E.MayStart(sys.db, d.payload, Some(attempt)) {
        RunningResultsAreStored(trace, d.payload, attempt, body, script[0].now);
      }
      outcome, rest := Submit(d, t);
      rest := [Complete(t)] + rest;
    }

    method Submit(d: Delivery, t: Terminal) returns (outcome: Outcome, ghost rest: seq<Request>)
      requires Valid() && Holds(d) && t.job == d.payload.job && Allowed(sys, Complete(t))
      modifies this`sys, this`trace, this`script, this`mine
      ensures Valid() && old(trace) <= trace && mine == old(mine) + [Complete(t)] + rest
      ensures rest == [] || rest == [Delete(d.msg)]
      ensures outcome.Handled? ==> rest != [] && d.msg !in sys.live && H.Done(sys.db, d.payload.job)
      ensures CalmFor(old(script), 2) && E.MayFinish(old(sys).db, t) ==>
                outcome.Handled? && sys.db == CompleteJob(old(sys).db, t, old(script)[0].now).0
    {
      if script != [] && E.MayFinish(sys.db, t) {
        FinishingIsAcknowledged(trace, t, script[0].now);
      }
      var ack := Exchange(Complete(t));
      HeldLasts(old(trace), trace, d);
      outcome, rest := ConfirmTerminal(d, t, ack);
    }

    method ProcessDeadLetter(d: Delivery) returns (outcome: Outcome, ghost own: seq<Request>)
      requires Valid() && Holds(d)
      modifies this`sys, this`trace, this`script, this`mine
      ensures Valid() && old(trace) <= trace && mine == old(mine) + own
      ensures DeadLetterShape(own, d)
      ensures outcome.Handled? ==> own != [] && d.msg !in sys.live && H.Done(sys.db, d.payload.job)
      ensures CalmFor(old(script), 5) && d.deadLetter && Approachable(old(sys).db, d.payload, {d.payload.video}) ==>
                outcome.Handled? && HasFailed(sys.db, d.payload.job, DeadLettered)
      ensures CalmFor(old(script), 3) && d.deadLetter && IsOver(old(sys).db, d.payload) ==> outcome.Handled?
    {
      own := [];
      if !d.deadLetter { return Misconfigured, own; }
      var cleaning := NextMoment();
      Interfere(cleaning.before);
      if !cleaning.cleaned { return Stalled, own; }
      HeldLasts(old(trace), trace, d);
      var found, _ := Get(d.payload.job);
      HeldLasts(old(trace), trace, d);
      if found == Answered(Thrown(JobNotFound)) {
        outcome, own := DeleteDelivery(d);
        return;
      }
      if found.Lost? { return ApiUnconfirmed, own; }
      var job := found.reply.row;
      if job.songId != d.payload.song || job.videoId != d.payload.video { return PayloadInvalid, own; }
      if job.Terminal() {
        outcome, own := DeleteDelivery(d);
        return;
      }
      outcome, own := FailDeadLetter(d, job.attempt);
    }

    /** The part after its checks: fail the attempt the row was left with. */
    method FailDeadLetter(d: Delivery, attempt: Option<AttemptId>) returns (outcome: Outcome, ghost own: seq<Request>)
      requires Valid() && Holds(d) && d.deadLetter
      modifies this`sys, this`trace, this`script, this`mine
      ensures Valid() && old(trace) <= trace && mine == old(mine) + own
      ensures DeadLetterShape(own, d)
      ensures outcome.Handled? ==> own != [] && d.msg !in sys.live && H.Done(sys.db, d.payload.job)
      ensures CalmFor(old(script), 3) && E.MayFinish(old(sys).db, Failure(d.payload.job, attempt, DeadLettered)) ==>
                outcome.Handled? && HasFailed(sys.db, d.payload.job, DeadLettered)
    {
      own := [];
      var checking := NextMoment();
      if checking.cancelled { return Cancelled, own; }
      var t := Failure(d.payload.job, attempt, DeadLettered);
      DeadLettersMayBeFailed(sys, d, attempt);
      if script != [] && E.MayFinish(sys.db, t) {
        FailuresHaveTheirCode(trace, t, script[0].now);
      }
      ghost var rest;
      outcome, rest := Submit(d, t);
      own := [Complete(t)] + rest;
    }

    // ---------------------------------------------------------------- enqueueing

    /** Other callers come and go. */
    method OthersAtTheDoor(caller: D.Caller, others: seq<D.DoorStep>)
      requires D.DoorOk(door)
      modifies this`door
      ensures D.DoorOk(door)
      ensures caller in old(door).inside <==> caller in door.inside
      ensures caller in door.inside ==> door.inside[caller] == old(door).inside[caller]
    {
      for i := 0 to |others|
        invariant D.DoorOk(door) && (caller in old(door).inside <==> caller in door.inside)
        invariant caller in door.inside ==> door.inside[caller] == old(door).inside[caller]
      {
        if D.MayHappen(door, others[i]) && others[i].caller != caller {
          if others[i].Enter? {
            D.EnterKeepsOk(door, others[i].caller, others[i].job, D.Next(door, others[i]));
          } else {
            D.LeaveKeepsOk(door, others[i].caller, D.Next(door, others[i]));
          }
          door := D.Next(door, others[i]);
        }
      }
    }

    /** A slot is free and nobody else enqueues the job. */
    predicate HasRoom(j: JobId)
      reads this`door
    {
      door.slots < D.MAX_SLOTS && j !in door.busy
    }

    /** The runner's socket handler: eight slots, and one call per job at a time. */
    method HandleEnqueue(caller: D.Caller, others: seq<D.DoorStep>, p: Payload, approved: set<string>)
      returns (outcome: EnqueueOutcome, ghost own: seq<Request>)
      requires Valid() && IsCall(sys, p, Undecided) && claim == Some(p.job) && D.DoorOk(door) && caller !in door.inside
      modifies this`sys, this`trace, this`script, this`door, this`mine
      ensures Valid() && old(trace) <= trace && mine == old(mine) + own && PublishShape(own, p)
      ensures D.DoorOk(door) && caller !in door.inside
      ensures outcome.Busy? <==> old(door).slots == D.MAX_SLOTS
      ensures outcome.Busy? ==> door == old(door)
      ensures outcome.Busy? || p.job in old(door).busy ==> own == []
      ensures outcome.Enqueued? ==> WasPut(sys, p) && EnqueuedOrGone(sys.db, p.job)
      ensures outcome.NotEnqueued? ==> IsDeclined(sys, p.job) && own == []
      ensures CalmFor(old(script), 4) && old(HasRoom(p.job)) && p.video in approved && Unsent(old(sys).db, p) ==>
                outcome.Enqueued? && InQueue(sys, p, old(script)[2].now)
    {
      own := [];
      if door.slots >= D.MAX_SLOTS { return Busy, own; }
      var duplicate := p.job in door.busy;
      D.EnterKeepsOk(door, caller, p.job, D.Next(door, D.Enter(caller, p.job)));
      door := door.(slots := door.slots + 1, busy := door.busy + {p.job},
                    inside := door.inside[caller := if duplicate then None else Some(p.job)]);
      assert duplicate ==> door.busy == old(door).busy;
      assert door == D.Next(old(door), D.Enter(caller, p.job));
      OthersAtTheDoor(caller, others);
      outcome := Unconfirmed;
      if !duplicate {
        outcome, own := Enqueue(p, p.video in approved);
      }
      D.LeaveKeepsOk(door, caller, D.Next(door, D.Leave(caller)));
      door := D.Next(door, D.Leave(caller));
    }

    method Enqueue(p: Payload, allowed: bool) returns (outcome: EnqueueOutcome, ghost own: seq<Request>)
      requires Valid() && IsCall(sys, p, Undecided) && claim == Some(p.job)
      modifies this`sys, this`trace, this`script, this`mine
      ensures Valid() && old(trace) <= trace && mine == old(mine) + own && PublishShape(own, p) && !outcome.Busy?
      ensures outcome.Enqueued? ==> WasPut(sys, p) && EnqueuedOrGone(sys.db, p.job)
      ensures outcome.NotEnqueued? ==> IsDeclined(sys, p.job) && own == []
      ensures !allowed ==> outcome.NotEnqueued?
      // Left alone, it publishes a queued job that nobody sent, and sends nothing for one that was recorded.
      ensures CalmFor(old(script), 4) && allowed && Unsent(old(sys).db, p) ==>
                outcome.Enqueued? && InQueue(sys, p, old(script)[2].now)
      ensures CalmFor(old(script), 1) && allowed && Recorded(old(sys).db, p) ==> outcome.Enqueued? && own == []
    {
      own := [];
      if !allowed {
        Take(Decline(p.job));
        return NotEnqueued, own;
      }
      CallIsIssued(trace, p, Undecided);
      var found, _ := Get(p.job);
      if !found.Answered? || found.reply.Thrown? { return Unconfirmed, own; }
      var job := found.reply.row;
      if job.songId != p.song || job.videoId != p.video {
        Take(Decline(p.job));
        return NotEnqueued, own;
      }
      if job.enqueuedAt.Some? { return Enqueued, own; }
      if !job.status.Queued? || job.attempt.Some? { return Unconfirmed, own; }
      outcome, own := PutAndConfirm(p);
    }

    method Put(p: Payload) returns (put: bool)
      requires Valid() && IsCall(sys, p, Undecided)
      modifies this`sys, this`trace, this`script, this`mine
      ensures Valid() && old(trace) <= trace && mine == old(mine) + [Publish(p)]
      ensures put ==> WasPut(sys, p)
      ensures CalmFor(old(script), 1) ==>
                put && script == old(script)[1..] && sys == Served(old(sys), Publish(p), old(script)[0].now)
    {
      var answer := Exchange(Publish(p));
      put := answer.Confirmed?;
    }

    method PutAndConfirm(p: Payload) returns (outcome: EnqueueOutcome, ghost own: seq<Request>)
      requires Valid() && IsCall(sys, p, Undecided)
      modifies this`sys, this`trace, this`script, this`mine
      ensures Valid() && old(trace) <= trace && mine == old(mine) + own && PublishShape(own, p)
      ensures outcome.Enqueued? || outcome.Unconfirmed?
      ensures outcome.Enqueued? ==> WasPut(sys, p) && EnqueuedOrGone(sys.db, p.job)
      ensures CalmFor(old(script), 3) && Unsent(old(sys).db, p) ==> outcome.Enqueued? && InQueue(sys, p, old(script)[1].now)
    {
      if |script| > 2 && Unsent(sys.db, p) {
        PublishingQueues(sys, p, script[0].now, script[1].now, script[2].now);
      }
      own := [Publish(p)];
      var put := Put(p);
      if !put { return Unconfirmed, own; }
      ghost var rest;
      outcome, rest := Confirm(p);
      assert rest == [rest[0]];
      PutThenRecord(old(mine), mine, p, rest[0]);
      own := [Publish(p), rest[0]];
    }

    method Confirm(p: Payload) returns (outcome: EnqueueOutcome, ghost own: seq<Request>)
      requires Valid() && WasPut(sys, p)
      modifies this`sys, this`trace, this`script, this`mine
      ensures Valid() && old(trace) <= trace && mine == old(mine) + own
      ensures |own| == 1 && own[0].Record? && own[0].payload == p
      ensures outcome.Enqueued? || outcome.Unconfirmed?
      ensures outcome.Enqueued? ==> WasPut(sys, p) && EnqueuedOrGone(sys.db, p.job)
      ensures CalmFor(old(script), 2) ==>
                var record := Record(p, old(script)[0].now);
                && own == [record] && sys == Served(old(sys), record, old(script)[1].now)
                && (RecordEnqueued(old(sys).db, p, record.at).1.Row? ==> outcome.Enqueued?)
    {
      var clock := NextMoment();
      own := [Record(p, clock.now)];
      var recorded := Exchange(Record(p, clock.now));
      PutLasts(old(trace), trace, p);
      if recorded.Lost? || !recorded.reply.Row? { return Unconfirmed, own; }
      var row := recorded.reply.row;
      if row.songId != p.song || row.videoId != p.video || row.enqueuedAt.None? { return Unconfirmed, own; }
      outcome := Enqueued;
    }

    /** The request's own transaction. */
    method Ask(ctx: Context, song: SongId, approved: set<string>) returns (asked: Reply)
      requires Valid()
      modifies this`sys, this`trace, this`mine
      ensures Valid() && old(trace) <= trace && mine == old(mine)
      ensures asked == RequestJob(old(sys).db, ctx, song, approved).1 && (asked.Accepted? || asked.Thrown?)
      ensures asked.Accepted? && asked.created ==>
                asked.id in sys.calls && IsCall(sys, sys.calls[asked.id].payload, Undecided) && sys.calls[asked.id].payload.job == asked.id
                && Unsent(sys.db, sys.calls[asked.id].payload) && sys.calls[asked.id].payload.video in approved
    {
      var op := OpRequest(ctx, song, approved);
      asked := RequestJob(sys.db, ctx, song, approved).1;
      Take(Store(op));
      if asked.Accepted? && asked.created { CreatedCallIsUndecided(old(sys), op, sys); }
    }

    /**
     * The Console route. Only the request that created the job calls the runner, and only a declined
     * call fails the job as undelivered. `inFlight` is the client's count of unsettled calls.
     */
    method RequestRoute(ctx: Context, song: SongId, generation: bool, approved: set<string>, inFlight: nat,
                        caller: D.Caller, others: seq<D.DoorStep>)
      returns (reply: RouteReply, ghost own: seq<Request>, ghost asked: Reply)
      requires Valid() && claim.None? && D.DoorOk(door) && caller !in door.inside
      modifies this
      ensures Valid() && old(trace) <= trace && claim.None? && D.DoorOk(door) && caller !in door.inside
      ensures mine == old(mine) + own
      ensures asked == if generation then RequestJob(old(sys).db, ctx, song, approved).1 else Thrown(Forbidden)
      ensures own != [] ==>
                && asked.Accepted? && asked.created && asked.id in sys.calls && sys.calls[asked.id].payload.job == asked.id
                && (PublishShape(own, sys.calls[asked.id].payload) || own == [Complete(Failure(asked.id, None, EnqueueFailed))])
      ensures reply.EnqueueRefused? ==>
                own == [Complete(Failure(reply.job, None, EnqueueFailed))] && IsDeclined(sys, reply.job) && H.Done(sys.db, reply.job)
      ensures reply.Rejected? <==> asked.Thrown?
      ensures asked.Accepted? && !asked.created ==> reply == Accepted202(asked.id)
      // Left alone, a new job ends up in the queue, or failed if the client is full.
      ensures asked.Accepted? && asked.created ==>
                && (CalmFor(old(script), 5) && inFlight < C.MAX_IN_FLIGHT && old(HasRoom(asked.id)) ==>
                      reply == Accepted202(asked.id) && NewJobQueued(sys, asked.id, old(script)[3].now))
                && (CalmFor(old(script), 2) && inFlight >= C.MAX_IN_FLIGHT ==>
                      reply == EnqueueRefused(asked.id) && HasFailed(sys.db, asked.id, EnqueueFailed))
    {
      own, asked := [], Thrown(Forbidden);
      if !generation { return Rejected(Forbidden), own, asked; }
      var result := Ask(ctx, song, approved);
      asked := result;
      reply, own := AnswerAsked(result, approved, inFlight, caller, others);
    }

    method AnswerAsked(asked: Reply, approved: set<string>, inFlight: nat, caller: D.Caller, others: seq<D.DoorStep>)
      returns (reply: RouteReply, ghost own: seq<Request>)
      requires Valid() && claim.None? && D.DoorOk(door) && caller !in door.inside && (asked.Accepted? || asked.Thrown?)
      requires asked.Accepted? && asked.created ==>
                 && asked.id in sys.calls && IsCall(sys, sys.calls[asked.id].payload, Undecided)
                 && sys.calls[asked.id].payload.job == asked.id && Unsent(sys.db, sys.calls[asked.id].payload)
                 && sys.calls[asked.id].payload.video in approved
      modifies this
      ensures Valid() && old(trace) <= trace && claim.None? && D.DoorOk(door) && caller !in door.inside
      ensures mine == old(mine) + own
      ensures own != [] ==>
                && asked.Accepted? && asked.created && asked.id in sys.calls && sys.calls[asked.id].payload.job == asked.id
                && (PublishShape(own, sys.calls[asked.id].payload) || own == [Complete(Failure(asked.id, None, EnqueueFailed))])
      ensures reply.EnqueueRefused? ==>
                own == [Complete(Failure(reply.job, None, EnqueueFailed))] && IsDeclined(sys, reply.job) && H.Done(sys.db, reply.job)
      ensures reply.Rejected? <==> asked.Thrown?
      ensures asked.Accepted? && !asked.created ==> reply == Accepted202(asked.id)
      ensures asked.Accepted? && asked.created ==>
                && (CalmFor(old(script), 5) && inFlight < C.MAX_IN_FLIGHT && old(HasRoom(asked.id)) ==>
                      reply == Accepted202(asked.id) && NewJobQueued(sys, asked.id, old(script)[3].now))
                && (CalmFor(old(script), 2) && inFlight >= C.MAX_IN_FLIGHT ==>
                      reply == EnqueueRefused(asked.id) && HasFailed(sys.db, asked.id, EnqueueFailed))
    {
      own := [];
      if asked.Thrown? { return Rejected(asked.fault), own; }
      if !asked.created { return Accepted202(asked.id), own; }
      ghost var created := trace;
      reply, own := DeliverCreated(sys.calls[asked.id].payload, approved, inFlight, caller, others);
      PayloadLasts(created, trace, asked.id);
    }

    /** What the owner of a new job does: one call, and a failure only for a declined one. */
    method DeliverCreated(p: Payload, approved: set<string>, inFlight: nat, caller: D.Caller, others: seq<D.DoorStep>)
      returns (reply: RouteReply, ghost own: seq<Request>)
      requires Valid() && IsCall(sys, p, Undecided) && claim.None? && D.DoorOk(door) && caller !in door.inside
      modifies this
      ensures Valid() && old(trace) <= trace && claim.None? && D.DoorOk(door) && caller !in door.inside
      ensures !reply.Rejected?
      ensures mine == old(mine) + own
      ensures PublishShape(own, p) || own == [Complete(Failure(p.job, None, EnqueueFailed))]
      ensures reply.EnqueueRefused? ==>
                own == [Complete(Failure(reply.job, None, EnqueueFailed))] && IsDeclined(sys, reply.job) && H.Done(sys.db, reply.job)
      ensures CalmFor(old(script), 5) && inFlight < C.MAX_IN_FLIGHT && old(HasRoom(p.job)) && p.video in approved
              && Unsent(old(sys).db, p) ==>
                reply == Accepted202(p.job) && InQueue(sys, p, old(script)[3].now)
      ensures CalmFor(old(script), 2) && inFlight >= C.MAX_IN_FLIGHT && Unsent(old(sys).db, p) ==>
                reply == EnqueueRefused(p.job) && HasFailed(sys.db, p.job, EnqueueFailed)
    {
      var outcome;
      outcome, own := CallRunner(p, approved, inFlight, caller, others);
      if !outcome.NotEnqueued? { return Accepted202(p.job), own; }
      reply, own := FailUndelivered(p.job);
    }

    /** One call over the socket. A full client declines before dialing; a missing answer decides nothing. */
    method CallRunner(p: Payload, approved: set<string>, inFlight: nat, caller: D.Caller, others: seq<D.DoorStep>)
      returns (outcome: EnqueueOutcome, ghost own: seq<Request>)
      requires Valid() && IsCall(sys, p, Undecided) && claim.None? && D.DoorOk(door) && caller !in door.inside
      modifies this
      ensures Valid() && old(trace) <= trace && claim.None? && D.DoorOk(door) && caller !in door.inside
      ensures mine == old(mine) + own && PublishShape(own, p)
      ensures outcome.Enqueued? ==> WasPut(sys, p) && EnqueuedOrGone(sys.db, p.job)
      ensures outcome.NotEnqueued? ==> IsDeclined(sys, p.job) && own == []
      ensures inFlight >= C.MAX_IN_FLIGHT ==> outcome.NotEnqueued?
      ensures CalmFor(old(script), 1) && inFlight >= C.MAX_IN_FLIGHT ==> script == old(script)[1..] && sys.db == old(sys).db
      ensures CalmFor(old(script), 5) && inFlight < C.MAX_IN_FLIGHT && old(HasRoom(p.job)) && p.video in approved
              && Unsent(old(sys).db, p) ==>
                outcome.Enqueued? && InQueue(sys, p, old(script)[3].now)
    {
      own := [];
      claim := Some(p.job);
      var dialing := NextMoment();
      Interfere(dialing.before);
      outcome, own := Dial(p, approved, inFlight, dialing, caller, others);
      claim := None;
    }

    method Dial(p: Payload, approved: set<string>, inFlight: nat, dialing: Moment, caller: D.Caller, others: seq<D.DoorStep>)
      returns (outcome: EnqueueOutcome, ghost own: seq<Request>)
      requires Valid() && IsCall(sys, p, Undecided) && claim == Some(p.job) && D.DoorOk(door) && caller !in door.inside
      modifies this`sys, this`trace, this`script, this`door, this`mine
      ensures Valid() && old(trace) <= trace && D.DoorOk(door) && caller !in door.inside
      ensures mine == old(mine) + own && PublishShape(own, p)
      ensures outcome.Enqueued? ==> WasPut(sys, p) && EnqueuedOrGone(sys.db, p.job)
      ensures outcome.NotEnqueued? ==> IsDeclined(sys, p.job) && own == []
      ensures inFlight >= C.MAX_IN_FLIGHT ==> outcome.NotEnqueued? && script == old(script) && sys.db == old(sys).db
      ensures CalmFor(old(script), 4) && dialing.executes && dialing.delivered && inFlight < C.MAX_IN_FLIGHT
              && old(HasRoom(p.job)) && p.video in approved && Unsent(old(sys).db, p) ==>
                outcome.Enqueued? && InQueue(sys, p, old(script)[2].now)
    {
      own := [];
      if inFlight >= C.MAX_IN_FLIGHT {
        Take(Decline(p.job));
        return NotEnqueued, own;
      }
      outcome := Unconfirmed;
      if dialing.executes {
        var answer;
        answer, own := HandleEnqueue(caller, others, p, approved);
        outcome := if dialing.delivered && !answer.Busy? then answer else Unconfirmed;
      }
    }

    method FailUndelivered(j: JobId) returns (reply: RouteReply, ghost own: seq<Request>)
      requires Valid() && IsDeclined(sys, j)
      modifies this`sys, this`trace, this`script, this`mine
      ensures Valid() && old(trace) <= trace && !reply.Rejected?
      ensures mine == old(mine) + own && own == [Complete(Failure(j, None, EnqueueFailed))]
      ensures reply.EnqueueRefused? ==> reply.job == j && IsDeclined(sys, j) && H.Done(sys.db, j)
      ensures CalmFor(old(script), 1) && E.MayFinish(old(sys).db, Failure(j, None, EnqueueFailed)) ==>
                reply == EnqueueRefused(j) && HasFailed(sys.db, j, EnqueueFailed)
    {
      var t := Failure(j, None, EnqueueFailed);
      if script != [] && E.MayFinish(sys.db, t) {
        FinishingIsAcknowledged(trace, t, script[0].now);
        FailuresHaveTheirCode(trace, t, script[0].now);
      }
      own := [Complete(t)];
      var ack := Exchange(Complete(t));
      DeclinedLasts(old(trace), trace, j);
      if ack.Lost? || ack.reply.Thrown? { return Failed500, own; }
      reply := if ack.reply.TerminalAck? && ack.reply.applied then EnqueueRefused(j) else Accepted202(j);
    }
  }
}
