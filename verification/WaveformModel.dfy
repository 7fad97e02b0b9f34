/**
 * The waveform job store. Every function here is one committed transaction: the source takes the
 * Song row lock first, so the transactions of one song never interleave, and a thrown error rolls
 * the whole transaction back.
 *
 * Ids come from one counter, so an id is never issued twice. `log` is a history variable: the
 * transactions append to it and never read it, so that properties can speak of whole runs.
 */
module WaveformModel {
  import opened Wrappers

  type SongId = nat
  type JobId = nat
  type AttemptId = nat
  type AccountId = nat
  type Time = nat

  predicate VideoChar(c: char) {
    'A' <= c <= 'Z' || 'a' <= c <= 'z' || '0' <= c <= '9' || c == '_' || c == '-'
  }

  predicate ValidVideo(v: string) {
    |v| == 11 && forall i :: 0 <= i < |v| ==> VideoChar(v[i])
  }

  type VideoId = v: string | ValidVideo(v) witness "aaaaaaaaaaa"

  datatype Status = Queued | Running | Succeeded | Failed

  datatype ErrorCode = EnqueueFailed | ProcessingFailed | DeadLettered | DeliveryExpired | SourceChanged

  datatype Job = Job(songId: SongId, videoId: VideoId, status: Status, attempt: Option<AttemptId>,
                     error: Option<ErrorCode>, enqueuedAt: Option<Time>, startedAt: Option<Time>,
                     finishedAt: Option<Time>)
  {
    predicate Terminal() { status.Succeeded? || status.Failed? }
  }

  /** A validated result: the video it was computed from, and the rest of the document. */
  datatype WaveformData = WaveformData(source: VideoId, body: nat)

  datatype Waveform = Waveform(videoId: VideoId, data: WaveformData)

  datatype NotificationKind = WaveformSucceeded | WaveformFailed

  datatype Notification = Notification(recipient: AccountId, kind: NotificationKind, job: JobId)

  datatype Event =
    | Started(job: JobId, attempt: AttemptId)
    | Finished(job: JobId, song: SongId, status: Status, fence: Option<AttemptId>,
               data: Option<WaveformData>, imported: bool)

  datatype Db = Db(songs: map<SongId, Option<string>>, jobs: map<JobId, Job>,
                   requesters: map<JobId, set<AccountId>>, waveforms: map<SongId, Waveform>,
                   notifications: set<Notification>, nextId: nat, log: seq<Event>)

  datatype Context = Anonymous | User(account: AccountId, admin: bool)

  datatype Payload = Payload(job: JobId, song: SongId, video: VideoId)

  datatype Terminal =
    | Success(job: JobId, attempt: AttemptId, result: WaveformData)
    | Failure(job: JobId, expected: Option<AttemptId>, code: ErrorCode)

  datatype Fault = Unauthenticated | Forbidden | SongNotFound | JobNotFound | SourceInvalid | AlreadyExists

  datatype Reply =
    | Accepted(id: JobId, created: bool)
    | Imported(id: JobId)
    | Row(row: Job)
    | StartAck(row: Job, started: bool)
    | TerminalAck(status: Status, attempt: Option<AttemptId>, applied: bool)
    | Thrown(fault: Fault)

  const EMPTY_DB := Db(map[], map[], map[], map[], {}, 0, [])

  // ---------------------------------------------------------------- queries

  predicate IsActiveFor(db: Db, j: JobId, song: SongId, video: string) {
    j in db.jobs && db.jobs[j].songId == song && db.jobs[j].videoId == video && !db.jobs[j].Terminal()
  }

  function ActiveBelow(db: Db, song: SongId, video: string, n: nat): (r: Option<JobId>)
    ensures r.Some? ==> r.value < n && IsActiveFor(db, r.value, song, video)
    ensures r.None? ==> forall j | 0 <= j < n :: !IsActiveFor(db, j, song, video)
  {
    if n == 0 then None
    else if IsActiveFor(db, n - 1, song, video) then Some(n - 1)
    else ActiveBelow(db, song, video, n - 1)
  }

  function Active(db: Db, song: SongId, video: string): Option<JobId> {
    ActiveBelow(db, song, video, db.nextId)
  }

  /** A succeeded job of the song whose result equals the stored waveform. */
  predicate IsMatching(db: Db, j: JobId, song: SongId, data: WaveformData) {
    && j in db.jobs && db.jobs[j].songId == song && db.jobs[j].videoId == data.source
    && db.jobs[j].status.Succeeded?
    && song in db.waveforms && db.waveforms[song].data == data
  }

  function FinishTime(db: Db, j: JobId): Time {
    if j in db.jobs && db.jobs[j].finishedAt.Some? then db.jobs[j].finishedAt.value else 0
  }

  /** The matching job that finished last. */
  function MatchingBelow(db: Db, song: SongId, data: WaveformData, n: nat): (r: Option<JobId>)
    ensures r.Some? ==> r.value < n && IsMatching(db, r.value, song, data)
    ensures r.Some? ==> forall j | 0 <= j < n && IsMatching(db, j, song, data) ::
                          FinishTime(db, j) <= FinishTime(db, r.value)
    ensures r.None? ==> forall j | 0 <= j < n :: !IsMatching(db, j, song, data)
  {
    if n == 0 then None
    else
      var r := MatchingBelow(db, song, data, n - 1);
      if IsMatching(db, n - 1, song, data)
         && (r.None? || FinishTime(db, r.value) <= FinishTime(db, n - 1))
      then Some(n - 1) else r
  }

  function Matching(db: Db, song: SongId, data: WaveformData): Option<JobId> {
    MatchingBelow(db, song, data, db.nextId)
  }

  function Requesters(db: Db, j: JobId): set<AccountId> {
    if j in db.requesters then db.requesters[j] else {}
  }

  /** What the Console shows for a song: only a result of the song's current video. */
  function ReadWaveform(db: Db, song: SongId): Option<WaveformData> {
    if song in db.songs && song in db.waveforms
       && db.songs[song] == Some(db.waveforms[song].videoId)
       && db.songs[song] == Some(db.waveforms[song].data.source)
    then Some(db.waveforms[song].data) else None
  }

  // ---------------------------------------------------------------- transactions

  function InsertJob(db: Db, song: SongId, video: VideoId): Db {
    db.(jobs := db.jobs[db.nextId := Job(song, video, Queued, None, None, None, None, None)],
        nextId := db.nextId + 1)
  }

  function AddRequester(db: Db, j: JobId, account: AccountId): Db {
    db.(requesters := db.requesters[j := Requesters(db, j) + {account}])
  }

  function KindOf(status: Status): NotificationKind {
    if status.Succeeded? then WaveformSucceeded else WaveformFailed
  }

  function Notices(accounts: set<AccountId>, kind: NotificationKind, j: JobId): set<Notification> {
    set a | a in accounts :: Notification(a, kind, j)
  }

  /** Store the result, write the terminal row and notify every requester, in one commit. */
  function Settle(db: Db, j: JobId, row: Job, fence: Option<AttemptId>, data: Option<WaveformData>,
                  imported: bool): Db
  {
    db.(jobs := db.jobs[j := row],
        waveforms := if data.Some? then db.waveforms[row.songId := Waveform(row.videoId, data.value)]
                     else db.waveforms,
        notifications := db.notifications + Notices(Requesters(db, j), KindOf(row.status), j),
        log := db.log + [Finished(j, row.songId, row.status, fence, data, imported)])
  }

  function RequestJob(db: Db, ctx: Context, song: SongId, approved: set<string>): (Db, Reply) {
    if ctx.Anonymous? then (db, Thrown(Unauthenticated))
    else if !ctx.admin then (db, Thrown(Forbidden))
    else if song !in db.songs then (db, Thrown(SongNotFound))
    else if db.songs[song].None? || !ValidVideo(db.songs[song].value) then (db, Thrown(SourceInvalid))
    else if db.songs[song].value !in approved then (db, Thrown(Forbidden))
    else
      var video: VideoId := db.songs[song].value;
      var active := Active(db, song, video);
      var j := if active.Some? then active.value else db.nextId;
      var db1 := if active.Some? then db else InsertJob(db, song, video);
      (AddRequester(db1, j, ctx.account), Accepted(j, active.None?))
  }

  function RecordEnqueued(db: Db, p: Payload, at: Time): (Db, Reply) {
    if p.job !in db.jobs then (db, Thrown(JobNotFound))
    else
      var job := db.jobs[p.job];
      if job.songId != p.song || job.videoId != p.video then (db, Thrown(SourceInvalid))
      else if job.enqueuedAt.Some? then (db, Row(job))
      else
        var row := job.(enqueuedAt := Some(at));
        (db.(jobs := db.jobs[p.job := row]), Row(row))
  }

  function StartJob(db: Db, p: Payload, expected: Option<AttemptId>, now: Time): (Db, Reply) {
    if p.job !in db.jobs then (db, Thrown(JobNotFound))
    else
      var job := db.jobs[p.job];
      if job.songId != p.song || job.videoId != p.video then (db, Thrown(SourceInvalid))
      else if job.Terminal() || job.attempt != expected then (db, StartAck(job, false))
      else if job.songId !in db.songs || db.songs[job.songId] != Some(job.videoId) then
        (db, Thrown(SourceInvalid))
      else
        var row := job.(status := Running, attempt := Some(db.nextId), startedAt := Some(now));
        (db.(jobs := db.jobs[p.job := row], nextId := db.nextId + 1,
             log := db.log + [Started(p.job, db.nextId)]),
         StartAck(row, true))
  }

  function TerminalAttempt(t: Terminal): Option<AttemptId> {
    if t.Success? then Some(t.attempt) else t.expected
  }

  function CompleteJob(db: Db, t: Terminal, now: Time): (Db, Reply) {
    if t.job !in db.jobs then (db, Thrown(JobNotFound))
    else
      var job := db.jobs[t.job];
      var stale := TerminalAck(job.status, job.attempt, false);
      if job.Terminal() || job.attempt != TerminalAttempt(t) then (db, stale)
      // Only a job that never left the queue may be failed as undelivered.
      else if t.Failure? && t.code.EnqueueFailed?
              && (!job.status.Queued? || job.attempt.Some? || job.enqueuedAt.Some?) then (db, stale)
      else
        var changed := t.Success? && (job.songId !in db.songs || db.songs[job.songId] != Some(job.videoId)
                                      || t.result.source != job.videoId);
        var status := if t.Success? && !changed then Succeeded else Failed;
        var error := if t.Failure? then Some(t.code) else if changed then Some(SourceChanged) else None;
        var data := if t.Success? && !changed then Some(t.result) else None;
        var row := job.(status := status, error := error, finishedAt := Some(now));
        (Settle(db, t.job, row, TerminalAttempt(t), data, false), TerminalAck(status, job.attempt, true))
  }

  /** The row an import writes: a fresh attempt id, so no runner's attempt can be mistaken for it. */
  function ImportedRow(job: Job, attempt: AttemptId, now: Time): Job {
    job.(status := Succeeded, attempt := Some(attempt),
         startedAt := if job.startedAt.Some? then job.startedAt else Some(now),
         error := None, finishedAt := Some(now))
  }

  function TakeOver(db: Db, j: JobId, account: AccountId, result: WaveformData, now: Time): Db
    requires j in db.jobs
  {
    var db1 := AddRequester(db, j, account).(nextId := db.nextId + 1);
    Settle(db1, j, ImportedRow(db1.jobs[j], db.nextId, now), Some(db.nextId), Some(result), true)
  }

  /** An operator registers a locally computed result. It takes over the active job, if there is one. */
  function ImportWaveform(db: Db, ctx: Context, song: SongId, result: WaveformData,
                          replaceExisting: bool, now: Time): (Db, Reply)
  {
    if ctx.Anonymous? then (db, Thrown(Unauthenticated))
    else if !ctx.admin then (db, Thrown(Forbidden))
    else if song !in db.songs then (db, Thrown(SongNotFound))
    else if db.songs[song] != Some(result.source) then (db, Thrown(SourceInvalid))
    else if !replaceExisting && ReadWaveform(db, song).Some? then (db, Thrown(AlreadyExists))
    else
      var active := Active(db, song, result.source);
      var matching := Matching(db, song, result);
      if active.None? && matching.Some? then (db, Imported(matching.value))
      else
        var j := if active.Some? then active.value else db.nextId;
        var db1 := if active.Some? then db else InsertJob(db, song, result.source);
        (TakeOver(db1, j, ctx.account, result, now), Imported(j))
  }

  function CreateSong(db: Db, youtubeId: Option<string>): Db {
    db.(songs := db.songs[db.nextId := youtubeId], nextId := db.nextId + 1)
  }

  function EditSong(db: Db, song: SongId, youtubeId: Option<string>): Db {
    if song in db.songs then db.(songs := db.songs[song := youtubeId]) else db
  }

  /** Deleting a song cascades to its jobs, requesters and waveform, but not to notifications. */
  function DeleteSong(db: Db, song: SongId): Db {
    var jobs := map j | j in db.jobs && db.jobs[j].songId != song :: db.jobs[j];
    db.(songs := db.songs - {song}, jobs := jobs,
        requesters := map j | j in db.requesters && j in jobs :: db.requesters[j],
        waveforms := db.waveforms - {song})
  }

  datatype DbOp =
    | OpRequest(ctx: Context, song: SongId, approved: set<string>)
    | OpRecord(payload: Payload, at: Time)
    | OpStart(payload: Payload, expected: Option<AttemptId>, now: Time)
    | OpComplete(terminal: Terminal, now: Time)
    | OpImport(ctx: Context, song: SongId, result: WaveformData, replaceExisting: bool, now: Time)
    | OpCreateSong(youtubeId: Option<string>)
    | OpEditSong(song: SongId, youtubeId: Option<string>)
    | OpDeleteSong(song: SongId)

  function Apply(db: Db, op: DbOp): Db {
    match op
    case OpRequest(ctx, song, approved) => RequestJob(db, ctx, song, approved).0
    case OpRecord(p, at) => RecordEnqueued(db, p, at).0
    case OpStart(p, expected, now) => StartJob(db, p, expected, now).0
    case OpComplete(t, now) => CompleteJob(db, t, now).0
    case OpImport(ctx, song, result, replace, now) => ImportWaveform(db, ctx, song, result, replace, now).0
    case OpCreateSong(v) => CreateSong(db, v)
    case OpEditSong(song, v) => EditSong(db, song, v)
    case OpDeleteSong(song) => DeleteSong(db, song)
  }

  function Run(ops: seq<DbOp>): Db {
    if ops == [] then EMPTY_DB else Apply(Run(ops[..|ops| - 1]), ops[|ops| - 1])
  }
}
