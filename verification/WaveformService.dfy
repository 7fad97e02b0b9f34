/**
 * The waveform service as the source writes it: row updates in order inside one transaction, with
 * the requesters notified one by one. Each method commits exactly what WaveformModel says.
 */
module WaveformService {
  import opened Wrappers
  import opened WaveformModel

  class Store {
    var songs: map<SongId, Option<string>>
    var jobs: map<JobId, Job>
    var requesters: map<JobId, set<AccountId>>
    var waveforms: map<SongId, Waveform>
    var notifications: set<Notification>
    var nextId: nat
    var log: seq<Event>

    function State(): Db
      reads this
    {
      Db(songs, jobs, requesters, waveforms, notifications, nextId, log)
    }

    constructor ()
      ensures State() == EMPTY_DB
    {
      songs, jobs, requesters, waveforms, notifications, nextId, log := map[], map[], map[], map[], {}, 0, [];
    }

    method CreateEntityId() returns (id: nat)
      modifies this`nextId
      ensures id == old(nextId) && nextId == old(nextId) + 1
    {
      id := nextId;
      nextId := nextId + 1;
    }

    method InsertWaveformJob(song: SongId, video: VideoId) returns (id: JobId)
      modifies this`jobs, this`nextId
      ensures State() == InsertJob(old(State()), song, video) && id == old(nextId)
    {
      id := CreateEntityId();
      jobs := jobs[id := Job(song, video, Queued, None, None, None, None, None)];
    }

    method InsertWaveformRequester(j: JobId, account: AccountId)
      modifies this`requesters
      ensures State() == AddRequester(old(State()), j, account)
    {
      var current := if j in requesters then requesters[j] else {};
      requesters := requesters[j := current + {account}];
    }

    /** One insert per requester; the unique key turns a repeat into no row. */
    method NotifyWaveformRequesters(j: JobId, status: Status)
      modifies this`notifications
      ensures notifications == old(notifications) + Notices(Requesters(State(), j), KindOf(status), j)
    {
      var todo := Requesters(State(), j);
      ghost var told: set<AccountId> := {};
      while todo != {}
        invariant told + todo == Requesters(State(), j)
        invariant notifications == old(notifications) + Notices(told, KindOf(status), j)
        decreases |todo|
      {
        var account :| account in todo;
        notifications := notifications + {Notification(account, KindOf(status), j)};
        told := told + {account};
        todo := todo - {account};
      }
    }

    method RequestWaveformJob(ctx: Context, song: SongId, approved: set<string>) returns (reply: Reply)
      modifies this
      ensures (State(), reply) == RequestJob(old(State()), ctx, song, approved)
    {
      if ctx.Anonymous? { return Thrown(Unauthenticated); }
      if !ctx.admin { return Thrown(Forbidden); }
      if song !in songs { return Thrown(SongNotFound); }
      if songs[song].None? || !ValidVideo(songs[song].value) { return Thrown(SourceInvalid); }
      var video: VideoId := songs[song].value;
      if video !in approved { return Thrown(Forbidden); }
      var existing := Active(State(), song, video);
      var id: JobId;
      if existing.Some? {
        id := existing.value;
      } else {
        id := InsertWaveformJob(song, video);
      }
      InsertWaveformRequester(id, ctx.account);
      reply := Accepted(id, existing.None?);
    }

    method RecordWaveformEnqueued(p: Payload, at: Time) returns (reply: Reply)
      modifies this`jobs
      ensures (State(), reply) == RecordEnqueued(old(State()), p, at)
    {
      if p.job !in jobs { return Thrown(JobNotFound); }
      var job := jobs[p.job];
      if job.songId != p.song || job.videoId != p.video { return Thrown(SourceInvalid); }
      if job.enqueuedAt.None? {
        job := job.(enqueuedAt := Some(at));
        jobs := jobs[p.job := job];
      }
      reply := Row(job);
    }

    method StartWaveformJob(p: Payload, expected: Option<AttemptId>, now: Time) returns (reply: Reply)
      modifies this
      ensures (State(), reply) == StartJob(old(State()), p, expected, now)
    {
      if p.job !in jobs { return Thrown(JobNotFound); }
      var job := jobs[p.job];
      if job.songId != p.song || job.videoId != p.video { return Thrown(SourceInvalid); }
      if job.status.Succeeded? || job.status.Failed? || job.attempt != expected {
        return StartAck(job, false);
      }
      if job.songId !in songs || songs[job.songId] != Some(job.videoId) { return Thrown(SourceInvalid); }
      var attempt := CreateEntityId();
      job := job.(status := Running, attempt := Some(attempt), startedAt := Some(now));
      jobs := jobs[p.job := job];
      log := log + [Started(p.job, attempt)];
      reply := StartAck(job, true);
    }

    method CompleteWaveformJob(t: Terminal, now: Time) returns (reply: Reply)
      modifies this
      ensures (State(), reply) == CompleteJob(old(State()), t, now)
    {
      if t.job !in jobs { return Thrown(JobNotFound); }
      var job := jobs[t.job];
      var fence := TerminalAttempt(t);
      if job.status.Succeeded? || job.status.Failed? || job.attempt != fence {
        return TerminalAck(job.status, job.attempt, false);
      }
      if t.Failure? && t.code.EnqueueFailed?
         && (job.status != Queued || job.attempt.Some? || job.enqueuedAt.Some?) {
        return TerminalAck(job.status, job.attempt, false);
      }
      var status := if t.Success? then Succeeded else Failed;
      var error := if t.Failure? then Some(t.code) else None;
      var stored: Option<WaveformData> := None;
      if t.Success? {
        if job.songId !in songs || songs[job.songId] != Some(job.videoId) || t.result.source != job.videoId {
          status, error := Failed, Some(SourceChanged);
        } else {
          waveforms := waveforms[job.songId := Waveform(job.videoId, t.result)];
          stored := Some(t.result);
        }
      }
      jobs := jobs[t.job := job.(status := status, error := error, finishedAt := Some(now))];
      NotifyWaveformRequesters(t.job, status);
      log := log + [Finished(t.job, job.songId, status, fence, stored, false)];
      reply := TerminalAck(status, job.attempt, true);
    }

    /** The import's writes once it owns a job: the requester, the result, the terminal row, the notices. */
    method FinishImport(id: JobId, song: SongId, account: AccountId, result: WaveformData, now: Time)
      requires id in jobs && jobs[id].songId == song && jobs[id].videoId == result.source
      modifies this
      ensures State() == TakeOver(old(State()), id, account, result, now)
    {
      InsertWaveformRequester(id, account);
      waveforms := waveforms[song := Waveform(result.source, result)];
      var job := jobs[id];
      var attempt := CreateEntityId();
      jobs := jobs[id := job.(status := Succeeded, attempt := Some(attempt),
                              startedAt := if job.startedAt.Some? then job.startedAt else Some(now),
                              error := None, finishedAt := Some(now))];
      NotifyWaveformRequesters(id, Succeeded);
      log := log + [Finished(id, song, Succeeded, Some(attempt), Some(result), true)];
    }

    method ImportSongWaveform(ctx: Context, song: SongId, result: WaveformData, replaceExisting: bool, now: Time)
      returns (reply: Reply)
      modifies this
      ensures (State(), reply) == ImportWaveform(old(State()), ctx, song, result, replaceExisting, now)
    {
      if ctx.Anonymous? { return Thrown(Unauthenticated); }
      if !ctx.admin { return Thrown(Forbidden); }
      if song !in songs { return Thrown(SongNotFound); }
      if songs[song] != Some(result.source) { return Thrown(SourceInvalid); }
      if !replaceExisting && ReadWaveform(State(), song).Some? { return Thrown(AlreadyExists); }
      var active := Active(State(), song, result.source);
      if active.None? {
        var matching := Matching(State(), song, result);
        if matching.Some? { return Imported(matching.value); }
      }
      var id: JobId;
      if active.Some? {
        id := active.value;
      } else {
        id := InsertWaveformJob(song, result.source);
      }
      FinishImport(id, song, ctx.account, result, now);
      reply := Imported(id);
    }
  }
}
