/**
 * What every run of the waveform store keeps: the table constraints, terminal jobs frozen, attempts
 * fenced, one notification per requester, and a stored waveform that is always the latest success.
 */
module WaveformHistory {
  import opened Wrappers
  import opened WaveformModel

  // ---------------------------------------------------------------- reading the history

  /** The attempt issued by the last start of the job. */
  function LatestAttempt(log: seq<Event>, j: JobId): Option<AttemptId> {
    if log == [] then None
    else
      var e := log[|log| - 1];
      if e.Started? && e.job == j then Some(e.attempt) else LatestAttempt(log[..|log| - 1], j)
  }

  function FinishOf(log: seq<Event>, j: JobId): (r: Option<Event>)
    ensures r.Some? ==> r.value.Finished? && r.value.job == j
  {
    if log == [] then None
    else
      var e := log[|log| - 1];
      if e.Finished? && e.job == j then Some(e) else FinishOf(log[..|log| - 1], j)
  }

  /** The result of the song's most recently succeeded job. */
  function LatestResult(log: seq<Event>, song: SongId): Option<WaveformData> {
    if log == [] then None
    else
      var e := log[|log| - 1];
      if e.Finished? && e.song == song && e.data.Some? then e.data
      else LatestResult(log[..|log| - 1], song)
  }

  /** Nothing happens to a finished job, and a completion carries the attempt of the last start. */
  ghost predicate Fenced(log: seq<Event>) {
    log == [] ||
    var front, e := log[..|log| - 1], log[|log| - 1];
    && Fenced(front)
    && FinishOf(front, e.job).None?
    && (e.Finished? && !e.imported ==> e.fence == LatestAttempt(front, e.job))
    && (e.Finished? ==> (e.status.Succeeded? <==> e.data.Some?) && (e.status.Succeeded? || e.status.Failed?))
  }

  // ---------------------------------------------------------------- the invariant

  /** The CHECK constraints of the job table. */
  predicate RowOk(job: Job) {
    && (job.Terminal() <==> job.finishedAt.Some?)
    && (job.status.Running? || job.status.Succeeded? ==> job.attempt.Some? && job.startedAt.Some?)
    && (job.status.Failed? <==> job.error.Some?)
  }

  predicate JobOk(db: Db, j: JobId)
    requires j in db.jobs
  {
    var job := db.jobs[j];
    && j < db.nextId && job.songId in db.songs && RowOk(job)
    && (job.attempt.Some? ==> job.attempt.value < db.nextId)
    && (job.status.Queued? ==> job.attempt.None?)
    && if job.Terminal()
       then FinishOf(db.log, j).Some? && FinishOf(db.log, j).value.status == job.status
            && FinishOf(db.log, j).value.fence == job.attempt
       else FinishOf(db.log, j).None? && LatestAttempt(db.log, j) == job.attempt
  }

  predicate Rivals(db: Db, j: JobId, k: JobId) {
    && j in db.jobs && k in db.jobs && !db.jobs[j].Terminal() && !db.jobs[k].Terminal()
    && db.jobs[j].songId == db.jobs[k].songId && db.jobs[j].videoId == db.jobs[k].videoId
  }

  /** The partial unique index: at most one active job per song and video. */
  ghost predicate OneActivePerVideo(db: Db) {
    forall j, k | Rivals(db, j, k) :: j == k
  }

  function StoredResult(db: Db, song: SongId): Option<WaveformData> {
    if song in db.waveforms then Some(db.waveforms[song].data) else None
  }

  predicate StoredOk(db: Db, song: SongId) {
    StoredResult(db, song) == LatestResult(db.log, song)
  }

  ghost predicate WaveformsOk(db: Db) {
    && db.waveforms.Keys <= db.songs.Keys
    && (forall s | s in db.waveforms :: db.waveforms[s].videoId == db.waveforms[s].data.source)
    && (forall s | s in db.songs :: StoredOk(db, s))
  }

  /** A notification is the echo of one finish, and only of it. */
  predicate NoticeOk(db: Db, n: Notification) {
    var finish := FinishOf(db.log, n.job);
    finish.Some? && n.kind == KindOf(finish.value.status)
  }

  /** The recipients of a terminal job are exactly its requesters. */
  ghost predicate NotifiedOk(db: Db, j: JobId)
    requires j in db.jobs
  {
    db.jobs[j].Terminal() ==>
      forall a :: a in Requesters(db, j) <==> Notification(a, KindOf(db.jobs[j].status), j) in db.notifications
  }

  ghost predicate NotificationsOk(db: Db) {
    && (forall n | n in db.notifications :: NoticeOk(db, n))
    && (forall j | j in db.jobs :: NotifiedOk(db, j))
  }

  ghost predicate IdsOk(db: Db) {
    && (forall s | s in db.songs :: s < db.nextId)
    && (forall e | e in db.log :: e.job < db.nextId && (e.Finished? ==> e.song < db.nextId)
                                  && (e.Started? ==> e.attempt < db.nextId))
    && db.requesters.Keys <= db.jobs.Keys
  }

  ghost predicate Inv(db: Db) {
    && IdsOk(db) && (forall j | j in db.jobs :: JobOk(db, j)) && OneActivePerVideo(db)
    && WaveformsOk(db) && NotificationsOk(db) && Fenced(db.log)
  }

  // ---------------------------------------------------------------- each transaction keeps it

  lemma FrontOfAppend(log: seq<Event>, e: Event)
    ensures (log + [e])[..|log + [e]| - 1] == log
  {
  }

  /** One more event changes only what it is about. */
  lemma AppendEvent(log: seq<Event>, e: Event)
    ensures forall j :: LatestAttempt(log + [e], j) == if e.Started? && e.job == j then Some(e.attempt) else LatestAttempt(log, j)
    ensures forall j :: FinishOf(log + [e], j) == if e.Finished? && e.job == j then Some(e) else FinishOf(log, j)
    ensures forall s :: LatestResult(log + [e], s)
                     == if e.Finished? && e.song == s && e.data.Some? then e.data else LatestResult(log, s)
  {
  }

  lemma {:induction false} UnmentionedIdHasNoHistory(log: seq<Event>, id: nat)
    requires forall e | e in log :: e.job != id && (e.Finished? ==> e.song != id)
    ensures FinishOf(log, id).None? && LatestAttempt(log, id).None? && LatestResult(log, id).None?
  {
    if log == [] {
    } else {
      assert log[|log| - 1] in log;
      UnmentionedIdHasNoHistory(log[..|log| - 1], id);
    }
  }

  lemma FreshIdHasNoHistory(db: Db)
    requires IdsOk(db)
    ensures FinishOf(db.log, db.nextId).None? && LatestAttempt(db.log, db.nextId).None?
    ensures LatestResult(db.log, db.nextId).None?
  {
    UnmentionedIdHasNoHistory(db.log, db.nextId);
  }

  lemma InsertKeepsInv(db: Db, song: SongId, video: VideoId)
    requires Inv(db) && song in db.songs
    requires forall j | j in db.jobs :: !IsActiveFor(db, j, song, video)
    ensures Inv(InsertJob(db, song, video))
  {
    FreshIdHasNoHistory(db);
    var db1 := InsertJob(db, song, video);
    forall j | j in db1.jobs ensures JobOk(db1, j) && NotifiedOk(db1, j) {
      if j != db.nextId { assert JobOk(db, j) && NotifiedOk(db, j); }
    }
    forall s | s in db1.songs ensures StoredOk(db1, s) { assert StoredOk(db, s); }
    forall n | n in db1.notifications ensures NoticeOk(db1, n) { assert NoticeOk(db, n); }
    forall j, k | Rivals(db1, j, k) ensures j == k {
      if j != db.nextId && k != db.nextId { assert Rivals(db, j, k); }
      assert !IsActiveFor(db, j, song, video) && !IsActiveFor(db, k, song, video);
    }
  }

  lemma ActiveIsComplete(db: Db, song: SongId, video: string)
    requires Inv(db)
    ensures Active(db, song, video).None? ==> forall j | j in db.jobs :: !IsActiveFor(db, j, song, video)
  {
  }

  lemma AddRequesterKeepsInv(db: Db, j: JobId, account: AccountId)
    requires Inv(db) && j in db.jobs && !db.jobs[j].Terminal()
    ensures Inv(AddRequester(db, j, account))
  {
    var db1 := AddRequester(db, j, account);
    forall k | k in db1.jobs ensures JobOk(db1, k) && NotifiedOk(db1, k) {
      assert JobOk(db, k) && NotifiedOk(db, k);
      if k != j { assert Requesters(db1, k) == Requesters(db, k); }
    }
    forall s | s in db1.songs ensures StoredOk(db1, s) { assert StoredOk(db, s); }
    forall n | n in db1.notifications ensures NoticeOk(db1, n) { assert NoticeOk(db, n); }
    forall k, l | Rivals(db1, k, l) ensures k == l { assert Rivals(db, k, l); }
  }

  lemma RequestKeepsInv(db: Db, ctx: Context, song: SongId, approved: set<string>)
    requires Inv(db)
    ensures Inv(RequestJob(db, ctx, song, approved).0)
  {
    var r := RequestJob(db, ctx, song, approved);
    if r.1.Accepted? {
      var video: VideoId := db.songs[song].value;
      ActiveIsComplete(db, song, video);
      if r.1.created {
        InsertKeepsInv(db, song, video);
        AddRequesterKeepsInv(InsertJob(db, song, video), r.1.id, ctx.account);
      } else {
        AddRequesterKeepsInv(db, r.1.id, ctx.account);
      }
    }
  }

  /** The columns the history speaks of. */
  predicate SameRow(a: Job, b: Job) {
    a == b.(enqueuedAt := a.enqueuedAt)
  }

  /** A change that leaves the history alone: rows may be deleted, songs edited, enqueue times set. */
  lemma QuietChangeKeepsInv(db: Db, db1: Db)
    requires Inv(db) && db1.log == db.log && db1.notifications == db.notifications && db.nextId <= db1.nextId
    requires db1.jobs.Keys <= db.jobs.Keys && forall j | j in db1.jobs :: SameRow(db1.jobs[j], db.jobs[j])
    requires db1.requesters.Keys <= db1.jobs.Keys && forall j | j in db1.jobs :: Requesters(db1, j) == Requesters(db, j)
    requires forall j | j in db1.jobs :: db1.jobs[j].songId in db1.songs
    requires db1.waveforms.Keys <= db1.songs.Keys && db1.waveforms.Keys <= db.waveforms.Keys
    requires forall s | s in db1.waveforms :: db1.waveforms[s] == db.waveforms[s]
    requires forall s | s in db1.songs ::
               s < db1.nextId && (if s in db.songs then StoredResult(db1, s) == StoredResult(db, s) else s == db.nextId)
    ensures Inv(db1)
  {
    FreshIdHasNoHistory(db);
    forall j | j in db1.jobs ensures JobOk(db1, j) && NotifiedOk(db1, j) { assert JobOk(db, j) && NotifiedOk(db, j); }
    forall s | s in db1.songs ensures StoredOk(db1, s) { if s in db.songs { assert StoredOk(db, s); } }
    forall n | n in db1.notifications ensures NoticeOk(db1, n) { assert NoticeOk(db, n); }
    forall j, k | Rivals(db1, j, k) ensures j == k { assert Rivals(db, j, k); }
  }

  lemma StartKeepsInv(db: Db, p: Payload, expected: Option<AttemptId>, now: Time)
    requires Inv(db)
    ensures Inv(StartJob(db, p, expected, now).0)
  {
    var db1 := StartJob(db, p, expected, now).0;
    if db1 != db {
      var e := Started(p.job, db.nextId);
      AppendEvent(db.log, e);
      FrontOfAppend(db.log, e);
      assert JobOk(db, p.job);
      forall j | j in db1.jobs ensures JobOk(db1, j) && NotifiedOk(db1, j) { assert JobOk(db, j) && NotifiedOk(db, j); }
      forall s | s in db1.songs ensures StoredOk(db1, s) { assert StoredOk(db, s); }
      forall n | n in db1.notifications ensures NoticeOk(db1, n) { assert NoticeOk(db, n); }
      forall k, l | Rivals(db1, k, l) ensures k == l { assert Rivals(db, k, l); }
    }
  }

  /** A terminal row that an active job may receive, with the attempt its writer was entitled to. */
  predicate MaySettle(db: Db, j: JobId, row: Job, fence: Option<AttemptId>, data: Option<WaveformData>, imported: bool) {
    && j in db.jobs && !db.jobs[j].Terminal()
    && RowOk(row) && row.Terminal() && row.songId == db.jobs[j].songId && row.videoId == db.jobs[j].videoId
    && row.attempt == fence && (fence.Some? ==> fence.value < db.nextId)
    && (!imported ==> fence == db.jobs[j].attempt)
    && (data.Some? <==> row.status.Succeeded?)
    && (data.Some? ==> data.value.source == row.videoId)
  }

  /** Before the finish nobody was told, so after it exactly the requesters are. */
  lemma SettleNotifies(db: Db, j: JobId, row: Job, fence: Option<AttemptId>, data: Option<WaveformData>, imported: bool)
    requires Inv(db) && MaySettle(db, j, row, fence, data, imported)
    ensures NotificationsOk(Settle(db, j, row, fence, data, imported))
  {
    var db1 := Settle(db, j, row, fence, data, imported);
    AppendEvent(db.log, Finished(j, row.songId, row.status, fence, data, imported));
    assert JobOk(db, j);
    forall n | n in db1.notifications ensures NoticeOk(db1, n) {
      if n in db.notifications { assert NoticeOk(db, n); }
    }
    forall k | k in db1.jobs ensures NotifiedOk(db1, k) {
      assert NotifiedOk(db, k) && Requesters(db1, k) == Requesters(db, k);
      assert forall n | n in db.notifications :: NoticeOk(db, n) && n.job != j;
    }
  }

  lemma SettleStores(db: Db, j: JobId, row: Job, fence: Option<AttemptId>, data: Option<WaveformData>, imported: bool)
    requires Inv(db) && MaySettle(db, j, row, fence, data, imported)
    ensures WaveformsOk(Settle(db, j, row, fence, data, imported))
  {
    var db1 := Settle(db, j, row, fence, data, imported);
    AppendEvent(db.log, Finished(j, row.songId, row.status, fence, data, imported));
    assert JobOk(db, j);
    forall s | s in db1.songs ensures StoredOk(db1, s) { assert StoredOk(db, s); }
  }

  lemma SettleKeepsJobs(db: Db, j: JobId, row: Job, fence: Option<AttemptId>, data: Option<WaveformData>, imported: bool)
    requires Inv(db) && MaySettle(db, j, row, fence, data, imported)
    ensures var db1 := Settle(db, j, row, fence, data, imported);
            && (forall k | k in db1.jobs :: JobOk(db1, k)) && OneActivePerVideo(db1) && IdsOk(db1)
  {
    var db1 := Settle(db, j, row, fence, data, imported);
    assert JobOk(db, j);
    AppendEvent(db.log, Finished(j, row.songId, row.status, fence, data, imported));
    forall k | k in db1.jobs ensures JobOk(db1, k) { assert JobOk(db, k); }
    forall k, l | Rivals(db1, k, l) ensures k == l { assert Rivals(db, k, l); }
  }

  lemma SettleKeepsInv(db: Db, j: JobId, row: Job, fence: Option<AttemptId>, data: Option<WaveformData>, imported: bool)
    requires Inv(db) && MaySettle(db, j, row, fence, data, imported)
    ensures Inv(Settle(db, j, row, fence, data, imported))
  {
    SettleNotifies(db, j, row, fence, data, imported);
    SettleStores(db, j, row, fence, data, imported);
    SettleKeepsJobs(db, j, row, fence, data, imported);
    assert JobOk(db, j);
    FrontOfAppend(db.log, Finished(j, row.songId, row.status, fence, data, imported));
  }

  lemma CompleteKeepsInv(db: Db, t: Terminal, now: Time)
    requires Inv(db)
    ensures Inv(CompleteJob(db, t, now).0)
  {
    var r := CompleteJob(db, t, now);
    if r.1.TerminalAck? && r.1.applied {
      var job := db.jobs[t.job];
      assert JobOk(db, t.job);
      var changed := t.Success? && (db.songs[job.songId] != Some(job.videoId) || t.result.source != job.videoId);
      var status := if t.Success? && !changed then Succeeded else Failed;
      var error := if t.Failure? then Some(t.code) else if changed then Some(SourceChanged) else None;
      var data := if t.Success? && !changed then Some(t.result) else None;
      var row := job.(status := status, error := error, finishedAt := Some(now));
      SettleKeepsInv(db, t.job, row, TerminalAttempt(t), data, false);
    }
  }

  lemma NewImportKeepsInv(db: Db, song: SongId, account: AccountId, result: WaveformData, now: Time)
    requires Inv(db) && song in db.songs && Active(db, song, result.source).None?
    ensures Inv(TakeOver(InsertJob(db, song, result.source), db.nextId, account, result, now))
  {
    ActiveIsComplete(db, song, result.source);
    InsertKeepsInv(db, song, result.source);
    TakeOverKeepsInv(InsertJob(db, song, result.source), db.nextId, account, result, now);
  }

  lemma ImportKeepsInv(db: Db, ctx: Context, song: SongId, result: WaveformData, replace: bool, now: Time)
    requires Inv(db)
    ensures Inv(ImportWaveform(db, ctx, song, result, replace, now).0)
  {
    var r := ImportWaveform(db, ctx, song, result, replace, now);
    if r.0 != db {
      var active := Active(db, song, result.source);
      if active.Some? {
        TakeOverKeepsInv(db, active.value, ctx.account, result, now);
      } else {
        NewImportKeepsInv(db, song, ctx.account, result, now);
      }
    }
  }

  lemma TakeOverKeepsInv(db: Db, j: JobId, account: AccountId, result: WaveformData, now: Time)
    requires Inv(db) && j in db.jobs && !db.jobs[j].Terminal() && db.jobs[j].videoId == result.source
    ensures Inv(TakeOver(db, j, account, result, now))
  {
    JoinKeepsInv(db, j, account);
    ImportSettles(AddRequester(db, j, account).(nextId := db.nextId + 1), j, db.nextId, result, now,
                  TakeOver(db, j, account, result, now));
  }

  lemma JoinKeepsInv(db: Db, j: JobId, account: AccountId)
    requires Inv(db) && j in db.jobs && !db.jobs[j].Terminal()
    ensures Inv(AddRequester(db, j, account).(nextId := db.nextId + 1))
  {
    AddRequesterKeepsInv(db, j, account);
    BumpKeepsInv(AddRequester(db, j, account));
  }

  lemma ImportSettles(db: Db, j: JobId, attempt: AttemptId, result: WaveformData, now: Time, settled: Db)
    requires Inv(db) && j in db.jobs && !db.jobs[j].Terminal() && db.jobs[j].videoId == result.source
    requires attempt < db.nextId
    requires settled == Settle(db, j, ImportedRow(db.jobs[j], attempt, now), Some(attempt), Some(result), true)
    ensures Inv(settled)
  {
    assert JobOk(db, j);
    SettleKeepsInv(db, j, ImportedRow(db.jobs[j], attempt, now), Some(attempt), Some(result), true);
  }

  lemma BumpKeepsInv(db: Db)
    requires Inv(db)
    ensures Inv(db.(nextId := db.nextId + 1))
  {
    forall j | j in db.jobs ensures db.jobs[j].songId in db.songs { assert JobOk(db, j); }
    QuietChangeKeepsInv(db, db.(nextId := db.nextId + 1));
  }

  lemma EnqueuedKeepsInv(db: Db, j: JobId, at: Option<Time>)
    requires Inv(db) && j in db.jobs
    ensures Inv(db.(jobs := db.jobs[j := db.jobs[j].(enqueuedAt := at)]))
  {
    var jobs := db.jobs[j := db.jobs[j].(enqueuedAt := at)];
    forall k | k in jobs ensures jobs[k].songId in db.songs { assert JobOk(db, k); }
    QuietChangeKeepsInv(db, db.(jobs := jobs));
  }

  lemma RecordKeepsInv(db: Db, p: Payload, at: Time)
    requires Inv(db)
    ensures Inv(RecordEnqueued(db, p, at).0)
  {
    if p.job in db.jobs { EnqueuedKeepsInv(db, p.job, Some(at)); }
  }

  lemma SongChangeKeepsInv(db: Db, song: SongId, video: Option<string>, next: nat)
    requires Inv(db)
    requires if song in db.songs then next == db.nextId else song == db.nextId && next == db.nextId + 1
    ensures Inv(db.(songs := db.songs[song := video], nextId := next))
  {
    forall j | j in db.jobs ensures db.jobs[j].songId in db.songs { assert JobOk(db, j); }
    QuietChangeKeepsInv(db, db.(songs := db.songs[song := video], nextId := next));
  }

  lemma DeleteKeepsInv(db: Db, song: SongId)
    requires Inv(db)
    ensures Inv(DeleteSong(db, song))
  {
    var db1 := DeleteSong(db, song);
    forall j | j in db1.jobs ensures db1.jobs[j].songId in db1.songs { assert JobOk(db, j); }
    QuietChangeKeepsInv(db, db1);
  }

  lemma ApplyKeepsInv(db: Db, op: DbOp)
    requires Inv(db)
    ensures Inv(Apply(db, op))
  {
    match op
    case OpRequest(ctx, song, approved) => RequestKeepsInv(db, ctx, song, approved);
    case OpStart(p, expected, now) => StartKeepsInv(db, p, expected, now);
    case OpComplete(t, now) => CompleteKeepsInv(db, t, now);
    case OpImport(ctx, song, result, replace, now) => ImportKeepsInv(db, ctx, song, result, replace, now);
    case OpRecord(p, at) => RecordKeepsInv(db, p, at);
    case OpDeleteSong(song) => DeleteKeepsInv(db, song);
    case OpCreateSong(v) => SongChangeKeepsInv(db, db.nextId, v, db.nextId + 1);
    case OpEditSong(song, v) =>
      if song in db.songs { SongChangeKeepsInv(db, song, v, db.nextId); }
  }

  /** The invariant holds after every sequence of transactions. */
  lemma {:induction false} RunKeepsInv(ops: seq<DbOp>)
    ensures Inv(Run(ops))
  {
    if ops == [] {
    } else {
      RunKeepsInv(ops[..|ops| - 1]);
      ApplyKeepsInv(Run(ops[..|ops| - 1]), ops[|ops| - 1]);
    }
  }

  // ---------------------------------------------------------------- what holds of every run

  /** A job that can never become active again. */
  predicate Done(db: Db, j: JobId) {
    j < db.nextId && (j !in db.jobs || db.jobs[j].Terminal())
  }

  /** Terminal rows and their requesters are frozen (only `enqueuedAt` may still arrive), and ids are not reused. */
  predicate Frozen(before: Db, after: Db, j: JobId) {
    && Done(after, j)
    && (j in after.jobs ==>
          j in before.jobs && SameRow(after.jobs[j], before.jobs[j]) && Requesters(after, j) == Requesters(before, j))
  }

  lemma CompletionFreezes(db: Db, op: DbOp, j: JobId)
    requires Done(db, j) && op.OpComplete?
    ensures Frozen(db, Apply(db, op), j)
  {
  }

  lemma ImportFreezes(db: Db, op: DbOp, j: JobId)
    requires Done(db, j) && op.OpImport?
    ensures Frozen(db, Apply(db, op), j)
  {
  }

  lemma RequestFreezes(db: Db, op: DbOp, j: JobId)
    requires Done(db, j) && op.OpRequest?
    ensures Frozen(db, Apply(db, op), j)
  {
  }

  lemma StepFreezes(db: Db, op: DbOp, j: JobId)
    requires Done(db, j)
    ensures Frozen(db, Apply(db, op), j)
  {
    match op
    case OpComplete(_, _) => CompletionFreezes(db, op, j);
    case OpImport(_, _, _, _, _) => ImportFreezes(db, op, j);
    case OpRequest(_, _, _) => RequestFreezes(db, op, j);
    case _ =>
  }

  /** Run prefix order: every later state keeps a finished job as it was. */
  lemma {:induction false} TerminalIsAbsorbing(ops: seq<DbOp>, n: nat, j: JobId)
    requires n <= |ops| && Done(Run(ops[..n]), j)
    ensures Frozen(Run(ops[..n]), Run(ops), j)
    decreases |ops|
  {
    if n == |ops| {
      assert ops[..n] == ops;
    } else {
      var front := ops[..|ops| - 1];
      assert front[..n] == ops[..n];
      TerminalIsAbsorbing(front, n, j);
      StepFreezes(Run(front), ops[|ops| - 1], j);
    }
  }

  lemma {:induction false} FencedPrefix(log: seq<Event>, i: nat)
    requires Fenced(log) && i <= |log|
    ensures Fenced(log[..i])
    decreases |log|
  {
    if i == |log| {
      assert log[..i] == log;
    } else {
      assert log[..|log| - 1][..i] == log[..i];
      FencedPrefix(log[..|log| - 1], i);
    }
  }

  lemma {:induction false} FinishSeenBefore(log: seq<Event>, i: nat)
    requires i < |log| && log[i].Finished?
    ensures FinishOf(log, log[i].job).Some?
  {
    if i < |log| - 1 { FinishSeenBefore(log[..|log| - 1], i); }
  }

  /** A finish is the last event of its job, so at most one finish per job is ever applied. */
  lemma NothingFollowsAFinish(ops: seq<DbOp>, i: nat, k: nat)
    requires i < k < |Run(ops).log| && Run(ops).log[i].Finished?
    ensures Run(ops).log[k].job != Run(ops).log[i].job
  {
    var log := Run(ops).log;
    RunKeepsInv(ops);
    FencedPrefix(log, k + 1);
    assert log[..k + 1][..k] == log[..k];
    FinishSeenBefore(log[..k], i);
  }

  /** A completion that was applied carries the attempt of the last start before it, never an older one. */
  lemma SupersededAttemptsNeverApply(ops: seq<DbOp>, i: nat)
    requires i < |Run(ops).log|
    requires Run(ops).log[i].Finished? && !Run(ops).log[i].imported
    ensures Run(ops).log[i].fence == LatestAttempt(Run(ops).log[..i], Run(ops).log[i].job)
  {
    var log := Run(ops).log;
    RunKeepsInv(ops);
    FencedPrefix(log, i + 1);
    assert log[..i + 1][..i] == log[..i];
  }

  /** Exactly the requesters of a finished job are told, once each and with the kind of its status. */
  lemma RequestersAreToldOnce(ops: seq<DbOp>, j: JobId, a: AccountId, kind: NotificationKind)
    requires j in Run(ops).jobs
    ensures var db := Run(ops);
            Notification(a, kind, j) in db.notifications
            <==> db.jobs[j].Terminal() && a in Requesters(db, j) && kind == KindOf(db.jobs[j].status)
  {
    var db := Run(ops);
    RunKeepsInv(ops);
    assert JobOk(db, j) && NotifiedOk(db, j);
    if Notification(a, kind, j) in db.notifications { assert NoticeOk(db, Notification(a, kind, j)); }
  }

  /** Even after a job is deleted, nobody holds two notifications about it. */
  lemma OneNotificationPerJobAndAccount(ops: seq<DbOp>, m: Notification, n: Notification)
    requires m in Run(ops).notifications && n in Run(ops).notifications
    requires m.job == n.job && m.recipient == n.recipient
    ensures m == n
  {
    RunKeepsInv(ops);
    assert NoticeOk(Run(ops), m) && NoticeOk(Run(ops), n);
  }

  /** A song shows the result of its most recently succeeded job, and only while that is its video. */
  lemma ReadsAreTheLatestSuccess(ops: seq<DbOp>, song: SongId)
    requires song in Run(ops).songs
    ensures var db := Run(ops);
            var latest := LatestResult(db.log, song);
            ReadWaveform(db, song)
            == if latest.Some? && db.songs[song] == Some(latest.value.source) then latest else None
  {
    RunKeepsInv(ops);
    assert StoredOk(Run(ops), song);
  }

  lemma {:induction false} RowsMeetTheirConstraints(ops: seq<DbOp>, j: JobId, k: JobId)
    requires j in Run(ops).jobs && k in Run(ops).jobs
    ensures RowOk(Run(ops).jobs[j])
    ensures Rivals(Run(ops), j, k) ==> j == k
  {
    RunKeepsInv(ops);
    assert JobOk(Run(ops), j);
  }

  /** The job an import of `result` is answered with beats every other: it finished last, a later id breaking ties. */
  predicate FinishedLast(db: Db, j: JobId, song: SongId, result: WaveformData) {
    forall k: JobId | k < db.nextId && k != j && IsMatching(db, k, song, result) ::
      FinishTime(db, k) < FinishTime(db, j) || (FinishTime(db, k) == FinishTime(db, j) && k < j)
  }

  lemma {:induction false} MatchingBreaksTies(db: Db, song: SongId, result: WaveformData, n: nat)
    ensures var r := MatchingBelow(db, song, result, n);
            r.Some? ==> forall k: JobId | k < n && k != r.value && IsMatching(db, k, song, result) ::
              FinishTime(db, k) < FinishTime(db, r.value) || (FinishTime(db, k) == FinishTime(db, r.value) && k < r.value)
  {
    if n > 0 { MatchingBreaksTies(db, song, result, n - 1); }
  }

  lemma MatchingIsLast(db: Db, j: JobId, song: SongId, result: WaveformData)
    requires j < db.nextId && IsMatching(db, j, song, result)
    ensures Matching(db, song, result).Some?
    ensures Matching(db, song, result) == Some(j) <==> FinishedLast(db, j, song, result)
  {
    MatchingBreaksTies(db, song, result, db.nextId);
  }

  /**
   * Repeating an import that was answered changes nothing. It is refused when existing results are
   * protected, and otherwise answered with a succeeded job whose result is the stored one: the same job
   * exactly if no other one with that result finished later.
   */
  lemma ImportIsIdempotent(ops: seq<DbOp>, ctx: Context, song: SongId, result: WaveformData, replace: bool, now: Time,
                           again: Context, protect: bool, later: Time)
    requires ImportWaveform(Run(ops), ctx, song, result, replace, now).1.Imported?
    requires again.User? && again.admin
    ensures var first := ImportWaveform(Run(ops), ctx, song, result, replace, now);
            var r := ImportWaveform(first.0, again, song, result, !protect, later);
            && r.0 == first.0
            && if protect then r.1 == Thrown(AlreadyExists)
               else r.1.Imported? && IsMatching(first.0, r.1.id, song, result)
                    && (r.1.id == first.1.id <==> FinishedLast(first.0, first.1.id, song, result))
  {
    RunKeepsInv(ops);
    ImportLeavesNoActiveJob(Run(ops), ctx, song, result, replace, now);
    ImportLeavesAMatch(Run(ops), ctx, song, result, replace, now);
    var first := ImportWaveform(Run(ops), ctx, song, result, replace, now);
    MatchingIsLast(first.0, first.1.id, song, result);
  }

  /** No job of the same song and video is younger. */
  predicate Newest(db: Db, j: JobId)
    requires j in db.jobs
  {
    forall k: JobId | k in db.jobs && k != j && db.jobs[k].songId == db.jobs[j].songId && db.jobs[k].videoId == db.jobs[j].videoId ::
      k < j
  }

  ghost predicate ActivesAreNewest(db: Db) {
    forall j | j in db.jobs && !db.jobs[j].Terminal() :: Newest(db, j)
  }

  /** No new rows; each keeps its song and video, and a finished one stays finished. */
  predicate RowsContinue(db: Db, t: Db) {
    forall j | j in t.jobs ::
      j in db.jobs && t.jobs[j].songId == db.jobs[j].songId && t.jobs[j].videoId == db.jobs[j].videoId
      && (db.jobs[j].Terminal() ==> t.jobs[j].Terminal())
  }

  lemma CompleteContinuesRows(db: Db, t: Terminal, now: Time)
    ensures RowsContinue(db, CompleteJob(db, t, now).0)
  {
  }

  lemma StartContinuesRows(db: Db, p: Payload, expected: Option<AttemptId>, now: Time)
    ensures RowsContinue(db, StartJob(db, p, expected, now).0)
  {
  }

  lemma OtherOpsContinueRows(db: Db, op: DbOp)
    requires !op.OpRequest? && !op.OpImport?
    ensures RowsContinue(db, Apply(db, op))
  {
    match op
    case OpComplete(t, now) => CompleteContinuesRows(db, t, now);
    case OpStart(p, expected, now) => StartContinuesRows(db, p, expected, now);
    case _ =>
  }

  lemma RowsKeepNewest(db: Db, t: Db)
    requires ActivesAreNewest(db) && RowsContinue(db, t)
    ensures ActivesAreNewest(t)
  {
    forall j | j in t.jobs && !t.jobs[j].Terminal()
      ensures Newest(t, j)
    {
      assert Newest(db, j);
    }
  }

  lemma InsertKeepsNewest(db: Db, song: SongId, video: VideoId)
    requires Inv(db) && ActivesAreNewest(db) && Active(db, song, video).None?
    ensures ActivesAreNewest(InsertJob(db, song, video))
  {
    ActiveIsComplete(db, song, video);
    var t := InsertJob(db, song, video);
    forall j | j in t.jobs && !t.jobs[j].Terminal()
      ensures Newest(t, j)
    {
      forall k | k in db.jobs ensures k < db.nextId { assert JobOk(db, k); }
      if j != db.nextId {
        assert Newest(db, j);
        assert !IsActiveFor(db, j, song, video);
      }
    }
  }

  lemma RequestKeepsNewest(db: Db, ctx: Context, song: SongId, approved: set<string>)
    requires Inv(db) && ActivesAreNewest(db)
    ensures ActivesAreNewest(RequestJob(db, ctx, song, approved).0)
  {
    var t := RequestJob(db, ctx, song, approved).0;
    if t.jobs != db.jobs {
      InsertKeepsNewest(db, song, db.songs[song].value);
      RowsKeepNewest(InsertJob(db, song, db.songs[song].value), t);
    } else {
      RowsKeepNewest(db, t);
    }
  }

  lemma TakeOverKeepsNewest(db: Db, j: JobId, account: AccountId, result: WaveformData, now: Time)
    requires ActivesAreNewest(db) && j in db.jobs
    ensures ActivesAreNewest(TakeOver(db, j, account, result, now))
  {
    RowsKeepNewest(db, TakeOver(db, j, account, result, now));
  }

  lemma ImportKeepsNewest(db: Db, ctx: Context, song: SongId, result: WaveformData, replace: bool, now: Time)
    requires Inv(db) && ActivesAreNewest(db)
    ensures ActivesAreNewest(ImportWaveform(db, ctx, song, result, replace, now).0)
  {
    var active := Active(db, song, result.source);
    if active.Some? {
      TakeOverKeepsNewest(db, active.value, if ctx.User? then ctx.account else 0, result, now);
    } else {
      InsertKeepsNewest(db, song, result.source);
      TakeOverKeepsNewest(InsertJob(db, song, result.source), db.nextId, if ctx.User? then ctx.account else 0, result, now);
    }
  }

  lemma OtherOpsKeepNewest(db: Db, op: DbOp)
    requires ActivesAreNewest(db) && !op.OpRequest? && !op.OpImport?
    ensures ActivesAreNewest(Apply(db, op))
  {
    OtherOpsContinueRows(db, op);
    RowsKeepNewest(db, Apply(db, op));
  }

  lemma ApplyKeepsNewest(db: Db, op: DbOp)
    requires Inv(db) && ActivesAreNewest(db)
    ensures ActivesAreNewest(Apply(db, op))
  {
    match op
    case OpRequest(ctx, song, approved) => RequestKeepsNewest(db, ctx, song, approved);
    case OpImport(ctx, song, result, replace, now) => ImportKeepsNewest(db, ctx, song, result, replace, now);
    case _ => OtherOpsKeepNewest(db, op);
  }

  lemma {:induction false} ActivesStayNewest(ops: seq<DbOp>)
    ensures ActivesAreNewest(Run(ops))
  {
    if ops != [] {
      ActivesStayNewest(ops[..|ops| - 1]);
      RunKeepsInv(ops[..|ops| - 1]);
      ApplyKeepsNewest(Run(ops[..|ops| - 1]), ops[|ops| - 1]);
    }
  }

  /** Under a clock that never runs back, a repeated import is always answered with the first one's job. */
  lemma RepeatedImportsNameOneJob(ops: seq<DbOp>, ctx: Context, song: SongId, result: WaveformData, replace: bool, now: Time,
                                  again: Context, later: Time)
    requires ImportWaveform(Run(ops), ctx, song, result, replace, now).1.Imported? && again.User? && again.admin
    requires forall j | j in Run(ops).jobs :: FinishTime(Run(ops), j) <= now
    ensures var first := ImportWaveform(Run(ops), ctx, song, result, replace, now);
            ImportWaveform(first.0, again, song, result, true, later) == first
  {
    RunKeepsInv(ops);
    ActivesStayNewest(ops);
    ImportIsIdempotent(ops, ctx, song, result, replace, now, again, false, later);
    ImportFinishesLast(Run(ops), ctx, song, result, replace, now);
  }

  lemma ImportFinishesLast(db: Db, ctx: Context, song: SongId, result: WaveformData, replace: bool, now: Time)
    requires Inv(db) && ActivesAreNewest(db) && ImportWaveform(db, ctx, song, result, replace, now).1.Imported?
    requires forall j | j in db.jobs :: FinishTime(db, j) <= now
    ensures var r := ImportWaveform(db, ctx, song, result, replace, now);
            FinishedLast(r.0, r.1.id, song, result)
  {
    var r := ImportWaveform(db, ctx, song, result, replace, now);
    var active := Active(db, song, result.source);
    if active.None? && Matching(db, song, result).Some? {
      MatchingBreaksTies(db, song, result, db.nextId);
    } else {
      if active.Some? {
        assert Newest(db, active.value);
      }
      forall k: JobId | k < r.0.nextId && k != r.1.id && IsMatching(r.0, k, song, result)
        ensures FinishTime(r.0, k) <= FinishTime(r.0, r.1.id) && k < r.1.id
      {
        assert k in db.jobs && r.0.jobs[k] == db.jobs[k] && JobOk(db, k);
      }
    }
  }

  lemma ImportLeavesAMatch(db: Db, ctx: Context, song: SongId, result: WaveformData, replace: bool, now: Time)
    requires Inv(db) && ImportWaveform(db, ctx, song, result, replace, now).1.Imported?
    ensures var db1 := ImportWaveform(db, ctx, song, result, replace, now).0;
            && song in db1.songs && db1.songs[song] == Some(result.source)
            && ReadWaveform(db1, song) == Some(result) && Matching(db1, song, result).Some?
            && IsMatching(db1, ImportWaveform(db, ctx, song, result, replace, now).1.id, song, result)
            && ImportWaveform(db, ctx, song, result, replace, now).1.id < db1.nextId
  {
    var r := ImportWaveform(db, ctx, song, result, replace, now);
    ActiveIsComplete(db, song, result.source);
    assert IsMatching(r.0, r.1.id, song, result);
    assert r.1.id < r.0.nextId;
    if r.0 == db { assert db.waveforms[song].videoId == db.waveforms[song].data.source; }
  }

  lemma ImportLeavesNoActiveJob(db: Db, ctx: Context, song: SongId, result: WaveformData, replace: bool, now: Time)
    requires Inv(db) && ImportWaveform(db, ctx, song, result, replace, now).1.Imported?
    ensures Active(ImportWaveform(db, ctx, song, result, replace, now).0, song, result.source).None?
  {
    var r := ImportWaveform(db, ctx, song, result, replace, now);
    ActiveIsComplete(db, song, result.source);
    var left := Active(r.0, song, result.source);
    if left.Some? && r.0 != db {
      var k := left.value;
      assert IsActiveFor(r.0, k, song, result.source) && k != r.1.id;
      assert IsActiveFor(db, k, song, result.source);
      assert JobOk(db, k);
      assert Rivals(db, k, r.1.id);
      assert false;
    }
  }
}
