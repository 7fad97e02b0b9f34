/**
 * What each transaction of the job store does when it goes through, and exactly when that is: the other half
 * of WaveformHistory, which says what no transaction can do.
 */
module WaveformEffects {
  import opened Wrappers
  import opened WaveformModel
  import opened WaveformHistory

  /** The song still shows the video the job was made for. */
  predicate VideoHolds(db: Db, job: Job) {
    job.songId in db.songs && db.songs[job.songId] == Some(job.videoId)
  }

  predicate OtherJobsKept(db: Db, t: Db, j: JobId) {
    t.jobs.Keys <= db.jobs.Keys + {j} && forall k | k in db.jobs && k != j :: k in t.jobs && t.jobs[k] == db.jobs[k]
  }

  lemma NextIdIsFree(db: Db)
    requires Inv(db)
    ensures forall j | j in db.jobs :: j < db.nextId && (db.jobs[j].attempt.Some? ==> db.jobs[j].attempt.value < db.nextId)
  {
    forall j | j in db.jobs
      ensures j < db.nextId && (db.jobs[j].attempt.Some? ==> db.jobs[j].attempt.value < db.nextId)
    {
      assert JobOk(db, j);
    }
  }

  // ---------------------------------------------------------------- completions

  /** Who may finish the job: the current attempt, and for a job that never left the queue the one that gave up. */
  predicate MayFinish(db: Db, t: Terminal) {
    && t.job in db.jobs && !db.jobs[t.job].Terminal()
    && db.jobs[t.job].attempt == (match t case Success(_, attempt, _) => Some(attempt) case Failure(_, expected, _) => expected)
    && (t.Failure? && t.code.EnqueueFailed? ==> db.jobs[t.job].status.Queued? && db.jobs[t.job].enqueuedAt.None?)
  }

  /** A completion finishes its job exactly for those; any other changes nothing. */
  lemma CompletionsAreFenced(db: Db, t: Terminal, now: Time)
    requires Inv(db)
    ensures var r := CompleteJob(db, t, now);
            && (r.1.TerminalAck? && r.1.applied <==> MayFinish(db, t)) && (!MayFinish(db, t) ==> r.0 == db)
            && (r.1.TerminalAck? && !r.1.applied ==> r.1.status == db.jobs[t.job].status && r.1.attempt == db.jobs[t.job].attempt)
            && (r.1.TerminalAck? <==> t.job in db.jobs)
  {
    if t.job in db.jobs { assert JobOk(db, t.job); }
  }

  /** A result is stored iff the song's video and the result's source are both the job's; otherwise the job fails for that. */
  lemma ResultsAreStored(db: Db, t: Terminal, now: Time)
    requires Inv(db) && t.Success? && MayFinish(db, t)
    ensures var r, job := CompleteJob(db, t, now), db.jobs[t.job];
            var row := r.0.jobs[t.job];
            && r.1 == TerminalAck(row.status, job.attempt, true) && OtherJobsKept(db, r.0, t.job)
            && row.finishedAt == Some(now) && row.attempt == job.attempt && row.startedAt == job.startedAt
            && (row.status.Succeeded? <==> VideoHolds(db, job) && t.result.source == job.videoId)
            && (row.status.Succeeded? ==>
                  row.error.None? && r.0.waveforms == db.waveforms[job.songId := Waveform(job.videoId, t.result)]
                  && ReadWaveform(r.0, job.songId) == Some(t.result))
            && (!row.status.Succeeded? ==>
                  row.status.Failed? && row.error == Some(SourceChanged) && r.0.waveforms == db.waveforms)
  {
    assert JobOk(db, t.job);
  }

  /** A failure is recorded under its own code, and no result changes. */
  lemma FailuresAreRecorded(db: Db, t: Terminal, now: Time)
    requires Inv(db) && t.Failure? && MayFinish(db, t)
    ensures var r, job := CompleteJob(db, t, now), db.jobs[t.job];
            var row := r.0.jobs[t.job];
            && r.1 == TerminalAck(Failed, job.attempt, true) && OtherJobsKept(db, r.0, t.job)
            && row.status.Failed? && row.error == Some(t.code) && row.finishedAt == Some(now) && row.attempt == job.attempt
            && r.0.waveforms == db.waveforms && forall song :: ReadWaveform(r.0, song) == ReadWaveform(db, song)
  {
  }

  /** What a completion that goes through is told. */
  lemma FinishesAreAcknowledged(db: Db, t: Terminal, now: Time)
    requires Inv(db) && MayFinish(db, t)
    ensures var a := CompleteJob(db, t, now).1;
            a.TerminalAck? && a.applied && a.attempt == TerminalAttempt(t) && (a.status.Failed? || (t.Success? && a.status.Succeeded?))
  {
    if t.Success? {
      ResultsAreStored(db, t, now);
    } else {
      FailuresAreRecorded(db, t, now);
    }
  }

  // ---------------------------------------------------------------- requests

  predicate MayRequest(db: Db, ctx: Context, song: SongId, approved: set<string>) {
    && ctx.User? && ctx.admin && song in db.songs && db.songs[song].Some?
    && ValidVideo(db.songs[song].value) && db.songs[song].value in approved
  }

  /**
   * An accepted request leaves its caller among the requesters of the job it is answered with, next to all that
   * were there and nobody else; the job is the song's one active job, new exactly if there was none.
   */
  lemma RequestsAreRegistered(db: Db, ctx: Context, song: SongId, approved: set<string>)
    requires Inv(db)
    ensures var r := RequestJob(db, ctx, song, approved);
            && (r.1.Accepted? <==> MayRequest(db, ctx, song, approved)) && (!r.1.Accepted? ==> r.0 == db)
            && (r.1.Accepted? ==>
                  && IsActiveFor(r.0, r.1.id, song, db.songs[song].value)
                  && Requesters(r.0, r.1.id) == Requesters(db, r.1.id) + {ctx.account}
                  && (forall j | j != r.1.id :: Requesters(r.0, j) == Requesters(db, j))
                  && (r.1.created <==> forall j :: !IsActiveFor(db, j, song, db.songs[song].value))
                  && (r.1.created <==> r.1.id !in db.jobs) && OtherJobsKept(db, r.0, r.1.id)
                  && (r.1.created ==> r.0.jobs[r.1.id] == Job(song, db.songs[song].value, Queued, None, None, None, None, None))
                  && (!r.1.created ==> r.0.jobs == db.jobs))
  {
    var r := RequestJob(db, ctx, song, approved);
    if r.1.Accepted? {
      ActiveIsComplete(db, song, db.songs[song].value);
      NextIdIsFree(db);
    }
  }

  lemma RequestKeepsRequesters(db: Db, op: DbOp, j: JobId, a: AccountId)
    requires op.OpRequest? && a in Requesters(db, j)
    ensures a in Requesters(Apply(db, op), j)
  {
  }

  lemma ImportKeepsRequesters(db: Db, op: DbOp, j: JobId, a: AccountId)
    requires op.OpImport? && a in Requesters(db, j)
    ensures a in Requesters(Apply(db, op), j)
  {
  }

  lemma CompletionKeepsRequesters(db: Db, op: DbOp, j: JobId, a: AccountId)
    requires op.OpComplete? && a in Requesters(db, j)
    ensures a in Requesters(Apply(db, op), j)
  {
  }

  lemma StepKeepsRequesters(db: Db, op: DbOp, j: JobId, a: AccountId)
    requires a in Requesters(db, j) && j in Apply(db, op).jobs
    ensures a in Requesters(Apply(db, op), j)
  {
    match op
    case OpRequest(_, _, _) => RequestKeepsRequesters(db, op, j, a);
    case OpImport(_, _, _, _, _) => ImportKeepsRequesters(db, op, j, a);
    case OpComplete(_, _) => CompletionKeepsRequesters(db, op, j, a);
    case _ =>
  }

  lemma {:induction false} IdsOnlyGrow(ops: seq<DbOp>, i: nat)
    requires i <= |ops|
    ensures Run(ops[..i]).nextId <= Run(ops).nextId
  {
    if i == |ops| {
      assert ops[..i] == ops;
    } else {
      assert ops[..|ops| - 1][..i] == ops[..i];
      IdsOnlyGrow(ops[..|ops| - 1], i);
    }
  }

  /** Once a requester, always one, as long as the job is there. */
  lemma {:induction false} RequestersStay(ops: seq<DbOp>, i: nat, j: JobId, a: AccountId)
    requires i <= |ops| && a in Requesters(Run(ops[..i]), j) && j < Run(ops[..i]).nextId && j in Run(ops).jobs
    ensures a in Requesters(Run(ops), j)
  {
    if i == |ops| {
      assert ops[..i] == ops;
    } else {
      var front := ops[..|ops| - 1];
      assert front[..i] == ops[..i];
      IdsOnlyGrow(front, i);
      JobsAreNotRevived(Run(front), ops[|ops| - 1], j);
      RequestersStay(front, i, j, a);
      StepKeepsRequesters(Run(front), ops[|ops| - 1], j, a);
    }
  }

  lemma JobsAreNotRevived(db: Db, op: DbOp, j: JobId)
    requires j < db.nextId && j in Apply(db, op).jobs
    ensures j in db.jobs
  {
  }

  /** Whoever's request was accepted holds exactly one notice about the job once that is over, however long after. */
  lemma RequestsAreAnswered(ops: seq<DbOp>, i: nat, kind: NotificationKind)
    requires i < |ops| && ops[i].OpRequest? && RequestJob(Run(ops[..i]), ops[i].ctx, ops[i].song, ops[i].approved).1.Accepted?
    requires var j := RequestJob(Run(ops[..i]), ops[i].ctx, ops[i].song, ops[i].approved).1.id;
             j in Run(ops).jobs && Run(ops).jobs[j].Terminal()
    ensures var j := RequestJob(Run(ops[..i]), ops[i].ctx, ops[i].song, ops[i].approved).1.id;
            Notification(ops[i].ctx.account, kind, j) in Run(ops).notifications <==> kind == KindOf(Run(ops).jobs[j].status)
  {
    var r := RequestJob(Run(ops[..i]), ops[i].ctx, ops[i].song, ops[i].approved);
    WaveformHistory.RunKeepsInv(ops[..i]);
    RequestsAreRegistered(Run(ops[..i]), ops[i].ctx, ops[i].song, ops[i].approved);
    assert ops[..i + 1][..i] == ops[..i];
    assert Run(ops[..i + 1]) == r.0;
    WaveformHistory.RunKeepsInv(ops[..i + 1]);
    assert JobOk(r.0, r.1.id);
    RequestersStay(ops, i + 1, r.1.id, ops[i].ctx.account);
    RequestersAreToldOnce(ops, r.1.id, ops[i].ctx.account, kind);
  }

  // ---------------------------------------------------------------- starts and records

  predicate MayStart(db: Db, p: Payload, expected: Option<AttemptId>) {
    && p.job in db.jobs && db.jobs[p.job].songId == p.song && db.jobs[p.job].videoId == p.video
    && !db.jobs[p.job].Terminal() && db.jobs[p.job].attempt == expected && VideoHolds(db, db.jobs[p.job])
  }

  /** A start goes through iff the job is active, its stored attempt is the expected one and its video is current. */
  lemma StartsBeginAnAttempt(db: Db, p: Payload, expected: Option<AttemptId>, now: Time)
    requires Inv(db)
    ensures var r := StartJob(db, p, expected, now);
            && (r.1.StartAck? && r.1.started <==> MayStart(db, p, expected)) && (!MayStart(db, p, expected) ==> r.0 == db)
            && (MayStart(db, p, expected) ==>
                  && OtherJobsKept(db, r.0, p.job) && r.1.row == r.0.jobs[p.job]
                  && r.1.row == db.jobs[p.job].(status := Running, attempt := r.1.row.attempt, startedAt := Some(now))
                  && r.1.row.attempt.Some? && r.1.row.attempt != expected
                  && (forall j | j in db.jobs :: db.jobs[j].attempt != r.1.row.attempt)
                  && MayFinish(r.0, Failure(p.job, r.1.row.attempt, DeadLettered)))
            // The runner acts on the row it is shown: a refusal shows the current one.
            && (r.1.StartAck? && !r.1.started ==> p.job in db.jobs && r.1.row == db.jobs[p.job])
  {
    NextIdIsFree(db);
  }

  /** The first record of a payload stands, and nothing else of the job changes. */
  lemma RecordsKeepTheFirstTime(db: Db, p: Payload, at: Time)
    ensures var r := RecordEnqueued(db, p, at);
            && (r.1.Row? <==> p.job in db.jobs && db.jobs[p.job].songId == p.song && db.jobs[p.job].videoId == p.video)
            && (!r.1.Row? ==> r.0 == db)
            && (r.1.Row? ==>
                  && r.0.jobs[p.job] == r.1.row && OtherJobsKept(db, r.0, p.job) && SameRow(r.1.row, db.jobs[p.job])
                  && r.1.row.enqueuedAt == if db.jobs[p.job].enqueuedAt.Some? then db.jobs[p.job].enqueuedAt else Some(at))
  {
  }

  // ---------------------------------------------------------------- imports

  /** An import is answered with a job exactly for an administrator, the song's own video, and no protected result. */
  lemma ImportsAreDecided(db: Db, ctx: Context, song: SongId, result: WaveformData, replace: bool, now: Time)
    ensures var r := ImportWaveform(db, ctx, song, result, replace, now);
            && (r.1.Imported? <==>
                  && ctx.User? && ctx.admin && song in db.songs && db.songs[song] == Some(result.source)
                  && (replace || ReadWaveform(db, song).None?))
            && (!r.1.Imported? ==> r.0 == db)
  {
  }

  lemma TakeOversTell(db: Db, j: JobId, account: AccountId, result: WaveformData, now: Time)
    requires j in db.jobs
    ensures var t := TakeOver(db, j, account, result, now);
            && j in t.jobs && OtherJobsKept(db, t, j) && t.jobs[j].status.Succeeded? && t.jobs[j].finishedAt == Some(now)
            && t.jobs[j].startedAt == (if db.jobs[j].startedAt.Some? then db.jobs[j].startedAt else Some(now))
            && t.jobs[j].attempt.Some? && db.nextId <= t.jobs[j].attempt.value < t.nextId
            && Requesters(t, j) == Requesters(db, j) + {account}
            && forall a | a in Requesters(t, j) :: Notification(a, WaveformSucceeded, j) in t.notifications
  {
  }

  /** One that finished a job, its own or the one people waited for, told the importer and every requester. */
  lemma ImportsTellTheirRequesters(db: Db, ctx: Context, song: SongId, result: WaveformData, replace: bool, now: Time)
    requires Inv(db) && ImportWaveform(db, ctx, song, result, replace, now).0 != db
    ensures var r := ImportWaveform(db, ctx, song, result, replace, now);
            && r.1.Imported? && r.1.id in r.0.jobs && OtherJobsKept(db, r.0, r.1.id)
            && r.0.jobs[r.1.id].status.Succeeded? && r.0.jobs[r.1.id].finishedAt == Some(now)
            && (r.1.id in db.jobs ==>
                  && IsActiveFor(db, r.1.id, song, result.source)
                  && (db.jobs[r.1.id].startedAt.Some? ==> r.0.jobs[r.1.id].startedAt == db.jobs[r.1.id].startedAt))
            // No runner's attempt can be mistaken for it.
            && (forall k | k in db.jobs :: db.jobs[k].attempt != r.0.jobs[r.1.id].attempt)
            && Requesters(r.0, r.1.id) == Requesters(db, r.1.id) + {ctx.account}
            && forall a | a in Requesters(r.0, r.1.id) :: Notification(a, WaveformSucceeded, r.1.id) in r.0.notifications
  {
    NextIdIsFree(db);
    var active := Active(db, song, result.source);
    if active.Some? {
      TakeOversTell(db, active.value, ctx.account, result, now);
    } else {
      TakeOversTell(InsertJob(db, song, result.source), db.nextId, ctx.account, result, now);
    }
  }
}
