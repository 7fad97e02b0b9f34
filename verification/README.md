# Verified models of the oioi-bwg services

A Dafny 4.11 model of the stateful parts of the repository: the waveform job protocol across the TypeScript
store, the Go runner and the queue; the cheer-guide history; notification delivery; the console's second
factor and operator grants; the paired release; the PCM projection; and the identity cutover map.
`dafny verify dfyconfig.toml` checks everything.

## How the models are built

Every part that concurrent actors share is a **transition system**: a state, the steps that may happen in it,
and the state each step leaves. A run is any sequence of steps that may happen, in any interleaving, and the
main results hold of every run (`Reached(run)`, `Run(ops)`). History that the code does not keep, such as the log of
starts and finishes, accepted one-time passwords and claim times, is recorded in the state so that a result
can speak about a whole run.

The imperative code is modelled as **classes** with the source's fields and steps. A service method is proved
to leave exactly the state its transaction function gives. Code that talks to the outside carries the run it
takes part in as a ghost `trace`; between any two of its calls the rest of the world takes arbitrary steps (`script`,
`elsewhere`), calls may fail, take effect without an answer, or take effect later, and the method is proved to
send only what the transition system allows.

Both sides of each operation are stated: what no run can do, and what the operation does when it goes through, exactly
when that is. For a service that shares its world the second half is about a run in which it is left alone: nobody else
acts, calls are answered and do not throw (`CalmFor`, `Calm`, `CooperatesFor`, an empty `elsewhere`).

| file | system |
|---|---|
| `WaveformModel`, `WaveformHistory`, `WaveformEffects`, `WaveformService` | the job store: its transactions, what holds of every history, what each transaction does, and the service that runs them |
| `WaveformProtocol`, `WaveformRunner` | store, queue and requests on the wire as one system; the runner's and the Console's code inside it |
| `EnqueueClient`, `EnqueueSlots` | the Console's bounded enqueue call; the runner's eight slots under concurrent callers |
| `VisibilityLease`, `DockerWorker` | the renewal loop against the queue's clock, the slot, and the worker container |
| `PairedRelease`, `PairedReleaseHost` | what a deployment leaves behind, as a function of its calls; the deployment itself, one system call at a time |
| `CheerGuide`, `CheerGuideHistory`, `CheerGuideEffects`, `CheerGuideService` | songs, guides, snapshots and publications: their history, and what each write leaves |
| `NotificationDelivery`, `NotificationBounds`, `NotificationWitness`, `NotificationDispatch` | delivery leases and backoff, the bound on sends and the runs that reach it, the dispatch loop |
| `PushBinding` | devices, binding versions and the deliveries made for them |
| `ConsoleMfa`, `ConsoleMfaService` | the TOTP row, its compare-and-set, resets and access changes |
| `OperatorGrants`, `OperatorAuthService` | device grants, their checks, and purging |
| `PcmProjection`, `PcmRelay` | peaks and durations against the contract; the copying loops |
| `UuidCutover` | reading, validating and creating the identity map |

The one-time password rule is section 5.2 of RFC 6238; the device grant follows sections 3.2 to 3.5 of
RFC 8628.

## Where the code does less than its description

- **Output that is lost during a deployment.** A line printed to a dead stream stays in its buffer, and the interpreter
  turns the exit code of a process with something left in a buffer into 120 (`PairedRelease.OnlyALostLineIs120`). The
  prints are also inside the blocks whose failure means rollback (`ops/oci/paired-release.py:272-281`).
  `PromisesHoldExactly` and `ConsistentExactly` say for every run and every pair of streams when an exit code tells the
  truth and when the settings match the current link. Code 120 promises one of three: nothing happened, the release is in
  place, or the marker stands with the run's snapshot.
  - Standard output is block-buffered under the launcher (`ops/oci/deploy-release.sh:51`) unless it is a terminal. A dead
    one shows only at exit, and with a working standard error its 120 means that the release is in place
    (`LostOutputMeansReleased`).
  - A terminal that died raises at the write. Then a finished commit is taken back under the new link, and the exit
    code is 120 (`DeadTerminalUndoesACommit`, `DeadTerminalCompletesARollback`).
  - Standard error is line-buffered, so a dead one raises, and every exit but a clean release is 120
    (`DeadErrorLeavesTwoCodes`): whether nothing happened, the new settings and the marker stay after a failure, or
    the release is in place (`DeadErrorHidesTheEnd`).
  - With a working standard error the call that tidies up after the marker's write may raise: exit code 1 with the marker
    in place (`MarkerOutlivesItsWrite`).
  - The interpreter runs without `-u` and ignores its environment (`-I`), so no stream is unbuffered.
- **A first pair leaves its settings.** Rolling back to the single application from before the pairs writes no settings
  file back (`ops/oci/paired-release.py:292-295`). Exit code 20 then means the old settings iff no settings write took
  effect or it wrote the same (`FirstPairSettingsExactly`, with a run in `FirstPairKeepsNewSettings`).
- **The official flag.** An import takes the source type from its manifest and never compares it with the song's own
  flag, so the public page can change its answer (`CheerGuideHistory.ImportMayFlipTheOfficialFlag`). The two
  agree afterwards iff they agreed at the import, and nothing later repairs or breaks it.
- **A terminal waveform job is not entirely frozen.** `enqueuedAt` may still be recorded on it
  (`packages/server/src/services/waveform-service.ts:133-145`); every other column is fixed.
- **Row checks.** A grant statement whose caller's clock is behind the row's own times is refused by the table's
  checks and not by the code (`OperatorGrants.ChecksFailExactlyOnSkew`).

## Model

| member | source | states |
|---|---|---|
| WaveformService.Store.RequestWaveformJob | packages/server/src/services/waveform-service.ts:146-165 | commits exactly the request transaction: joins the active job or creates one, after the same refusals in order |
| WaveformService.Store.RecordWaveformEnqueued | packages/server/src/services/waveform-service.ts:133-145 | records the first enqueue time of a matching payload, once |
| WaveformService.Store.StartWaveformJob | packages/server/src/services/waveform-service.ts:167-184 | starts only an unfinished job whose stored attempt is the expected one, under a fresh attempt |
| WaveformService.Store.CompleteWaveformJob | packages/server/src/services/waveform-service.ts:186-225 | applies a completion only to the current attempt, turns a changed source into a failure, notifies every requester in the same commit |
| WaveformService.Store.ImportSongWaveform | packages/server/src/services/waveform-service.ts:60-93 | takes over the active job, returns the matching one, or creates a finished one, with its notices |
| WaveformService.Store.FinishImport | packages/server/src/services/waveform-service.ts:78-92 | the import's writes amount to one take-over of the job |
| WaveformService.Store.NotifyWaveformRequesters | packages/server/src/services/waveform-service.ts:94-105 | adds exactly one notice per requester, with the type its status calls for |
| WaveformHistory.RunKeepsInv | packages/server/src/repositories/waveform-repository.ts:6-93 | after every sequence of transactions, in any order, the store's invariant holds: among others at most one active job per song and video |
| WaveformHistory.TerminalIsAbsorbing | packages/server/src/services/waveform-service.ts:167-225 | a finished job's status, attempt, error, start and finish times and requesters stay as they were to the end of any run |
| WaveformHistory.NothingFollowsAFinish | packages/server/src/services/waveform-service.ts:186-215 | no start and no second completion of a job follows its completion in any history |
| WaveformHistory.SupersededAttemptsNeverApply | packages/server/src/services/waveform-service.ts:186-200 | an applied completion carries the last attempt that was started, so a superseded attempt's result is never stored |
| WaveformHistory.RequestersAreToldOnce | packages/server/src/services/waveform-service.ts:94-105 | a job without a terminal status has no notices; a finished one has exactly its requesters', of the type of its status |
| WaveformHistory.OneNotificationPerJobAndAccount | packages/server/src/services/notification-service.ts:84-96 | an account never has two notices about one job |
| WaveformHistory.ReadsAreTheLatestSuccess | packages/server/src/services/waveform-service.ts:53-59 | what a song's reader sees is the result of the song's most recently succeeded job, for its current video |
| WaveformHistory.RowsMeetTheirConstraints | packages/server/src/db/schema.ts:692-714 | job rows satisfy the table's relations between status, attempt, times and error in every run |
| WaveformHistory.ImportIsIdempotent | packages/server/src/services/waveform-service.ts:60-93 | repeating an import changes nothing and is answered with a succeeded job of that result: the same job iff no other one finished later |
| WaveformHistory.RepeatedImportsNameOneJob | packages/server/src/repositories/waveform-repository.ts:36-53 | under a clock that never runs back, the repeat is answered with the very same job |
| WaveformHistory.ActivesStayNewest | packages/server/src/repositories/waveform-repository.ts:23-58 | in every run an active job is the youngest of its song and video |
| WaveformHistory.ImportLeavesNoActiveJob | packages/server/src/services/waveform-service.ts:74-90 | after an import no job of the song and video is active |
| WaveformHistory.ImportLeavesAMatch | packages/server/src/repositories/waveform-repository.ts:37-53 | after an import there is a succeeded job whose result is the stored one |
| WaveformEffects.RequestsAreRegistered | packages/server/src/services/waveform-service.ts:146-165 | a request is accepted iff it comes from an administrator for a song with an approved video; it leaves its caller, next to all earlier requesters and nobody else, among the requesters of the song's active job, new iff there was none |
| WaveformEffects.RequestsAreAnswered | packages/server/src/services/waveform-service.ts:94-105 | over any run, whoever's request was accepted holds exactly one notice about that job once it is over, of the kind of its status |
| WaveformEffects.StartsBeginAnAttempt | packages/server/src/services/waveform-service.ts:167-184 | a start goes through iff the job is active, its stored attempt is the expected one and its video is current; then it runs under an attempt no row has |
| WaveformEffects.CompletionsAreFenced | packages/server/src/services/waveform-service.ts:186-200 | a completion finishes its job iff that is active and carries the completion's attempt, and for an undelivered one never left the queue; any other changes nothing and is shown the row |
| WaveformEffects.ResultsAreStored | packages/server/src/services/waveform-service.ts:201-215 | a result is stored and read back iff the song's video and the result's source are both the job's; otherwise the job fails as SourceChanged and nothing is stored |
| WaveformEffects.FailuresAreRecorded | packages/server/src/services/waveform-service.ts:201-225 | a failure is recorded under its own code and changes no result |
| WaveformEffects.RecordsKeepTheFirstTime | packages/server/src/services/waveform-service.ts:133-145 | the first enqueue time of a matching payload stands and nothing else of the job changes |
| WaveformEffects.ImportsAreDecided | packages/server/src/services/waveform-service.ts:60-73 | an import is answered with a job iff it comes from an administrator for the song's own video and no protected result is in the way |
| WaveformEffects.ImportsTellTheirRequesters | packages/server/src/services/waveform-service.ts:74-105 | an import that finished a job did so under an attempt no row has, keeps its start time, and told the importer and everyone who waited |
| WaveformProtocol.RunKeepsInv | ops/waveform-runner/process.go:35-112 | store, queue, wire and enqueue calls keep their joint invariant under every interleaving, lost answers and late effects included |
| WaveformProtocol.NoEnqueuedJobIsLost | ops/waveform-runner/process.go:35-112 | in every run an active job whose enqueue was recorded has a message in the queue or the dead-letter queue |
| WaveformProtocol.DeletedMessagesAreOver | ops/waveform-runner/dead_letter.go:19-45 | a message that was deleted belongs to a job that is finished or gone, then and ever after |
| WaveformProtocol.UndeliveredIsTruthful | packages/server/src/services/waveform-service.ts:201-207 | a declined call never has a message; a job failed as not enqueued was declined, never started, never recorded as enqueued |
| WaveformProtocol.FailuresAreTruthful | packages/server/src/services/waveform-service.ts:186-225 | every failed job's error names something that happened: a decline, a dead-lettered message, or a result committed at a moment of the run at which the song's video or the result's source was not the job's |
| WaveformProtocol.PrefixExtends | packages/server/src/services/waveform-service.ts:133-225 | between two points of a run the log, the messages and finished jobs only grow |
| WaveformProtocol.ProtocolRunsTheStore | packages/server/src/services/waveform-service.ts:60-225 | the store in a protocol run is the store of its transactions, so every result about the store holds there |
| WaveformRunner.Host.Process | ops/waveform-runner/process.go:35-81 | for any interleaving, what it sends, as recorded where requests leave, is nothing, a deletion, or start, completion and deletion in order; it asks for the attempt after the one its lookup showed and completes the one it started; a handled delivery is deleted and its job over; left alone, it stores the worker's result for any active job of an approved current video, whatever attempt the row was left with, and deletes the message of a job that is over |
| WaveformRunner.Host.ConfirmTerminal | ops/waveform-runner/process.go:87-112 | deletes the message only after an answer or a lookup proves the job over |
| WaveformRunner.Host.DeleteIfOver | ops/waveform-runner/process.go:94-112 | the lookup that decides when the completion's answer was lost; left alone it deletes the message of a job that is over |
| WaveformRunner.Host.ProcessDeadLetter | ops/waveform-runner/dead_letter.go:19-45 | what it sends is at most one completion, as dead-lettered, and then at most one deletion, of a job that is over; left alone, it fails any active job so and removes its message |
| WaveformRunner.Host.Exchange | ops/waveform-runner/job_client.go:85-130 | the only way a request leaves, recorded once; its effect may happen without an answer, and what an answer says was true when it was made and stays true as far as it can |
| WaveformRunner.Host.Get | ops/waveform-runner/job_client.go:59-66 | a not-found answer means the job is gone for good; anything else unclear is no answer |
| WaveformRunner.Host.DeleteDelivery | ops/waveform-runner/consumer.go:144-160 | deletes the held message, only of a job that is over |
| WaveformRunner.Host.Submit | ops/waveform-runner/job_terminal.go:31-90 | sends the completion once and believes only an answer that shows the job over |
| WaveformRunner.Host.HandleEnqueue | ops/waveform-runner/enqueue.go:48-78 | among any other callers at the door, a ninth is turned away, a duplicate sends nothing, the slot and the job are given back, at most one message and its record are sent, and the outcome is truthful; left alone with room, an approved new job is in the queue and recorded |
| EnqueueSlots.EightAtMostOneEach | ops/waveform-runner/enqueue.go:32-81 | however callers come and go, at most eight are inside and no job is enqueued by two of them at a time |
| EnqueueSlots.CallersAreLetIn | ops/waveform-runner/enqueue.go:48-81 | a caller is let in iff fewer than eight are inside, owns its job iff nobody else does, and leaves no trace |
| WaveformRunner.Host.Enqueue | ops/waveform-runner/enqueue.go:89-113 | ENQUEUED means a message was put and the time is recorded or the job is gone; NOT_ENQUEUED means no message was or will be put; left alone, an approved queued job is published and recorded, and a recorded one is confirmed without sending |
| WaveformRunner.Host.RequestRoute | apps/console/src/app/api/admin/waveform-jobs/route.ts:20-54 | it sends anything only for the job it created itself: one message and its record, or the failure of a declined call; a refusal is reported only for a declined job that is over; left alone, a new job ends up in the queue, or failed if eight calls are out |
| WaveformRunner.Host.FailUndelivered | apps/console/src/app/api/admin/waveform-jobs/route.ts:37-45 | a declined job is failed without an attempt, and reported only if that applied, which it does when left alone |
| WaveformRunner.CommitTeaches | packages/server/src/services/waveform-service.ts:112-131 | what the reply of each committed request tells about the store |
| WaveformRunner.LearnedLasts | ops/waveform-runner/job_terminal.go:31-90 | what an answer taught stays true over every later step, so acting on it late is safe |
| WaveformRunner.DoneLasts | ops/waveform-runner/process.go:84-112 | a job seen over stays over |
| WaveformRunner.HeldLasts | ops/waveform-runner/consumer.go:86-121 | the message a delivery stands for stays what it was |
| EnqueueClient.Client.Begin | apps/console/src/server/waveform/enqueue.ts:17-27 | a call is declined iff eight are unsettled; otherwise the counter goes up by one |
| EnqueueClient.Client.Finish | apps/console/src/server/waveform/enqueue.ts:28-36 | settles a call once and counts it once |
| EnqueueClient.Client.Deliver | apps/console/src/server/waveform/enqueue.ts:38-96 | the counter is the number of unsettled calls after every event, and each call is what its own events made of it |
| EnqueueClient.FirstOutcomeStands | apps/console/src/server/waveform/enqueue.ts:28-30 | no event after the first outcome changes it |
| EnqueueClient.OutcomesComeFromMatchingAcks | apps/console/src/server/waveform/enqueue.ts:54-87 | an outcome other than UNCONFIRMED came from a complete matching acknowledgement within the size limit, before any error or deadline |
| EnqueueClient.MatchingAcksDecide | apps/console/src/server/waveform/enqueue.ts:54-87 | a matching acknowledgement in an acceptable response decides iff the response is within its limit, whatever comes later |
| VisibilityLease.LeaseIsSafe | ops/waveform-runner/lease.go:67-150 | for every order of events and every constant clock offset, each renewal started or adopted and each lease that ends as finished was observed strictly before `until`, and the margin past `until` never exceeds the server's own visibility end nor the message's expiry |
| VisibilityLease.RunIsSafe | ops/waveform-runner/lease.go:67-145 | the bound on `until` is kept over any sequence of events, and the server's visibility never shrinks |
| VisibilityLease.RenewalsNeverShorten | ops/waveform-runner/lease.go:115-150 | in every run and for every clock offset the limit never moves back, and no adopted renewal moves it back |
| VisibilityLease.HealthyLeasesFinish | ops/waveform-runner/lease.go:67-145 | renewed at its heartbeats, one beat in two lost and the server's clock up to 80 s behind, a lease lasts as long as the work, up to the margin before the expiry, and ends as finished |
| VisibilityLease.StoppedHasCause | ops/waveform-runner/lease.go:67-145 | a loop that stopped recorded why |
| VisibilityLease.Watcher.Select | ops/waveform-runner/lease.go:76-143 | each branch of the select does the step of the lease machine |
| VisibilityLease.Watcher.Watch | ops/waveform-runner/lease.go:67-145 | the loop runs the machine over its events and reports a stall exactly when it ends with a renewal still out |
| VisibilityLease.Consumer.WithLease | ops/waveform-runner/lease.go:25-65 | among any other callers it does to the slot exactly an entry and its exit of the slot machine, or nothing; the work's own result is returned iff the lease began, finished in time and nothing stalled; it quarantines iff the worker stalled or a renewal is still out |
| VisibilityLease.Consumer.Poll | ops/waveform-runner/consumer.go:86-121 | reads at most one message, only in a free slot, which it gives back, stamped with the time the read began |
| VisibilityLease.HeldSlotsAreStill | ops/waveform-runner/lease.go:29-33 | while a caller holds the slot nothing the others do changes it |
| VisibilityLease.SlotIsExclusive | ops/waveform-runner/lease.go:25-60 | over any steps at most one lease or poll owns the slot, no delivery is worked twice, and quarantine is for ever |
| VisibilityLease.SlotsStartExclusive | ops/waveform-runner/consumer.go:86-121 | from a new consumer on, at most one caller ever holds the slot and no delivery is leased twice |
| DockerWorker.Worker.Cleanup | ops/waveform-runner/docker_worker.go:53-89 | ends with the container confirmed absent or stalled, removes only the worker's own, and does not stall on a daemon that cooperates |
| DockerWorker.Worker.Run | ops/waveform-runner/docker_worker.go:96-134 | a container is started only after confirmed absence of the one before; every exit but a stall confirms absence again; a daemon that cooperates runs every valid job to its result |
| DockerWorker.Worker.Serve | ops/waveform-runner/service.go:40-96 | over all jobs, starts and confirmed absences alternate; it ends early iff there was a stall, and nothing is started after the first one; a daemon that cooperates gets through all jobs, whatever of the worker was left over |
| DockerWorker.SequencesEndSoonAfterTheirContext | ops/waveform-runner/docker_worker.go:152-166 | any sequence of commands under one context ends at most the wait delay after it |
| DockerWorker.CleanupFitsTheMargin | ops/waveform-runner/docker_worker.go:96-134 | a cancelled run is cleaned up or quarantined before the server may deliver the message again |
| DockerWorker.TheMarginAbsorbsNoMore | ops/waveform-runner/docker_worker.go:53-60 | and 16 seconds of the margin are all that is left in the worst case |
| PairedReleaseHost.Host.Launch | ops/oci/paired-release.py:317-325 | for every script of calls and every pair of streams the process ends as `Outcome` computes, exit code included; without a marker before it the settings afterwards match the current pair iff the run does not mismatch; a refusal changes nothing; a well-formed candidate for the running pair is released when every call succeeds |
| PairedReleaseHost.Host.Deploy | ops/oci/paired-release.py:177-314 | the deployment itself: what it leaves, the code it asks for, and which buffers it leaves lines in |
| PairedReleaseHost.Host.DeployAll | ops/oci/paired-release.py:204-217 | over any sequence of deployments, each ending or dying anywhere, no marker means the settings of the current snapshot, no snapshot's files change, and once there is a marker nothing does, unless a terminal died |
| PairedReleaseHost.Host.SetupIsReady | ops/oci/paired-release.py:200-217 | what the results about a run assume of the host is what its refusals check |
| PairedReleaseHost.Host.Activate | ops/oci/paired-release.py:256-278 | what shows after any number of calls, and which failures count as committed |
| PairedReleaseHost.Host.RollBack | ops/oci/paired-release.py:279-309 | what is restored after any number of calls; a rollback that ends well has the settings, compose files and previous link of the old pair back and the marker gone |
| PairedReleaseHost.Host.Prepare | ops/oci/paired-release.py:224-255 | the marker appears only after the snapshot is complete |
| PairedReleaseHost.Host.LinkCurrent | ops/oci/paired-release.py:85-90 | the link changes at one call or not at all |
| PairedRelease.PromisesHoldExactly | ops/oci/paired-release.py:177-314 | for every run, candidate and pair of streams, the exit code tells the truth unless the run breaks in one of the named ways, and then it does not |
| PairedRelease.ConsistentExactly | ops/oci/paired-release.py:256-314 | at every exit and crash point, no marker means matching settings, iff the success line did not raise after the current link and start a rollback that changed them |
| PairedRelease.CleanRunsRelease | ops/oci/paired-release.py:218-278 | when every call succeeds the release is in place without a marker, exit code 0 |
| PairedRelease.CleanRollbacksRestore | ops/oci/paired-release.py:279-306 | a candidate that fails after the marker, over a pair, with a rollback that does not: everything as before, exit code 20 |
| PairedRelease.CleanRefusalsLeaveNothing | ops/oci/paired-release.py:310-325 | a preflight that fails leaves nothing of its snapshot, exit code 1 |
| PairedRelease.OnlyALostLineIs120 | ops/oci/paired-release.py:271-309 | code 120 is seen iff the process ended by itself with a line left in a buffer |
| PairedRelease.WithoutATerminal | ops/oci/deploy-release.sh:51-51 | unless standard output is a terminal that died, every exit and crash is consistent, and but for a rollback to the single application a code is untruthful iff standard error works and the run got to the marker's last call and that raised |
| PairedRelease.LostOutputMeansReleased | ops/oci/paired-release.py:270-278 | with a working standard error, code 120 means that the release is in place and its snapshot kept |
| PairedRelease.DeadErrorLeavesTwoCodes | ops/oci/paired-release.py:274-281 | with a dead standard error the codes are 0 and 120, both truthful, and 0 leaves no marker |
| PairedRelease.BeforeTheLinkNothingIsLost | ops/oci/paired-release.py:256-309 | whatever the output does, a run that does not reach the current link keeps it and stays consistent; but for a rollback to the single application its code is untruthful iff standard error works and the run got to the marker's last call and that raised |
| PairedRelease.LinksAreKept | ops/oci/paired-release.py:269-314 | after every run both links point at snapshots that are there |
| PairedRelease.DeadTerminalUndoesACommit | ops/oci/paired-release.py:272-309 | a run in which every call succeeds and ends with exit code 120, the old settings and the new link, without a marker |
| PairedRelease.DeadTerminalCompletesARollback | ops/oci/paired-release.py:272-309 | a run whose rollback succeeds under the new link, seen as exit code 120 |
| PairedRelease.DeadErrorHidesTheEnd | ops/oci/paired-release.py:273-325 | three runs that end with exit code 120: nothing happened, a failed probe left the new settings and the marker, the release is in place |
| PairedRelease.MarkerOutlivesItsWrite | ops/oci/paired-release.py:73-82 | a preflight failure that leaves the marker |
| PairedRelease.FirstPairSettingsExactly | ops/oci/paired-release.py:282-306 | exit code 20 of a first pair means the old view, but for settings that differ iff their write took effect with something else |
| PairedRelease.FirstPairKeepsNewSettings | ops/oci/paired-release.py:292-306 | a first pair reported as rolled back with the candidate's settings on disk |
| CheerGuideService.Store.WriteLegacyGuide | packages/server/src/services/cheer-guide-write-service.ts:18-78 | all refusals precede the first write; a write adds one snapshot and publishes it under the next version |
| CheerGuideService.Store.EditSong | packages/server/src/services/song-service.ts:294-318 | guide and song change together; a refused slug takes the guide's write back |
| CheerGuideService.Store.SaveSongLyrics | packages/server/src/services/song-service.ts:320-331 | guide and song get the same lyrics or neither changes |
| CheerGuideService.Store.ImportLegacyGuide | packages/server/src/services/cheer-guide-import-service.ts:130-209 | imports under the song's lock, accepts a repeat only of exactly its own entry |
| CheerGuideService.Store.CreateAdminCheerGuide | packages/server/src/services/cheer-guide-service.ts:21-47 | creates an unpublished guide with one snapshot of the song |
| CheerGuideService.Store.SaveAdminCheerGuideDraft | packages/server/src/services/cheer-guide-draft-service.ts:39-65 | one snapshot on top of the editor's record, published state untouched |
| CheerGuideService.Store.DeleteEmptyCheerGuide | packages/server/src/services/cheer-guide-service.ts:79-91 | deletes only a guide without history and tells the two refusals apart |
| CheerGuideService.Store.ClaimGuideVersion | packages/server/src/repositories/cheer-guide-repository.ts:83-93 | moves the version on iff it is the expected one |
| CheerGuideHistory.RunKeepsInv | packages/server/src/services/cheer-guide-write-service.ts:18-78 | dense histories, one published guide and equal lyrics are kept by every operation, in any order |
| CheerGuideHistory.PublicLyricsAreTheSongs | packages/server/src/services/song-service.ts:76-103 | in every run the public page shows the song's own lyrics whichever copy it reads, at most one guide is shown, and the stored-guide error cannot occur |
| CheerGuideHistory.AtMostOneIsShown | packages/server/src/services/cheer-guide-read.ts:11-27 | for the song's video exactly one guide is shown iff the song has a publication |
| CheerGuideHistory.HistoryIsDense | packages/server/src/repositories/cheer-guide-repository.ts:95-123 | the version, the number of snapshots and the highest version number are equal; publications are numbered 1 to n |
| CheerGuideHistory.HistoryOnlyGrows | packages/server/src/repositories/cheer-guide-repository.ts:95-191 | between any two points of a run a guide with history stays, with every row it had |
| CheerGuideHistory.OneWriterPerVersion | packages/server/src/services/cheer-guide-draft-service.ts:47-64 | of all writers that read one version of a guide, drafts and edits alike, at most one is accepted |
| CheerGuideHistory.TheCurrentVersionIsAccepted | packages/server/src/services/cheer-guide-draft-service.ts:47-64 | a draft is accepted iff it names the current version |
| CheerGuideHistory.TheCurrentEditIsAccepted | packages/server/src/services/cheer-guide-write-service.ts:39-57 | a lyric save is accepted iff it names the current version, when no draft is pending and the text is not blank |
| CheerGuideEffects.EditsOfGuidesAreDecided | packages/server/src/services/cheer-guide-write-service.ts:18-78 | an edit of a song with an import target is saved iff the slug policy allows it, video and flag are the song's, and a text has content, no pending draft and the current version; else nothing changes |
| CheerGuideEffects.PlainEditsAreAccepted | packages/server/src/services/song-service.ts:294-318 | an edit of any other song is saved iff it names no version and the slug policy allows it |
| CheerGuideEffects.TextsAreWritten | packages/server/src/services/cheer-guide-write-service.ts:57-78 | an accepted text is the guide's newest snapshot, by its author, under the answered version and the old origin, and what is published; without a guide none changes |
| CheerGuideEffects.EditsReachTheSong | packages/server/src/services/song-service.ts:294-318 | the song has the submitted columns and the old ones where nothing was submitted |
| CheerGuideEffects.EditsArePublished | packages/server/src/services/song-service.ts:76-103 | after an accepted text the public page shows exactly that text |
| CheerGuideEffects.SavedLyricsArePublished | packages/server/src/services/song-service.ts:320-331 | the same for the lyrics editor, which changes nothing else of the song |
| CheerGuideEffects.DraftsAreStored | packages/server/src/services/cheer-guide-draft-service.ts:39-65 | a saved draft is the newest snapshot and the working copy, with the submitted text on the editor's record, under the answered version |
| CheerGuideEffects.TheEditorOpensTheNewest | packages/server/src/services/cheer-guide-draft-service.ts:19-38 | in every run the editor opens the newest snapshot |
| CheerGuideEffects.CreatedGuidesHoldTheSong | packages/server/src/services/cheer-guide-service.ts:21-47 | a guide is created iff the song has readable lyrics, a video and no guide of that mode; it holds the song's text and is not published |
| CheerGuideEffects.FreshEntriesAreImported | packages/server/src/services/cheer-guide-import-service.ts:130-209 | an import is applied iff its entry describes the song as it is, for a free mode, a song without import target and a free identity |
| CheerGuideEffects.ImportsArePublished | packages/server/src/services/cheer-guide-import-service.ts:182-209 | after it the public page shows the song's text under the entry's origin |
| CheerGuideEffects.EmptyGuidesAreDeleted | packages/server/src/services/cheer-guide-service.ts:79-91 | a guide is deleted iff it has no snapshot |
| CheerGuideHistory.DraftsArePrivate | packages/server/src/services/cheer-guide-draft-service.ts:39-65 | drafts, new guides and deletions never change any song's public page |
| CheerGuideHistory.ImportIsIdempotent | packages/server/src/services/cheer-guide-import-service.ts:150-182 | a trial run is ready and changes nothing; a repeat is unchanged and changes nothing |
| CheerGuideHistory.ImportNeverUndoesAnEdit | packages/server/src/services/cheer-guide-import-service.ts:150-182 | once anything was written to the guide, its entry is refused |
| CheerGuideHistory.FlagIsDecidedAtImport | packages/server/src/services/cheer-guide-write-service.ts:31-38 | whether page flag and song flag agree never changes after the import |
| CheerGuideHistory.ImportDecidesTheFlag | packages/server/src/services/cheer-guide-import-service.ts:130-209 | they agree after an import iff its source type matched the song's flag |
| CheerGuideHistory.PublicFlag | packages/server/src/services/cheer-guide-read.ts:28-36 | the page's flag is the song's iff the two agree |
| CheerGuideHistory.ImportMayFlipTheOfficialFlag | packages/server/src/services/cheer-guide-import-service.ts:130-209 | an import after which the page's flag is the opposite of before |
| NotificationDispatch.Dispatcher.DispatchNotifications | packages/server/src/services/notification-delivery-service.ts:33-75 | at most twenty claims, none sent under twice, each carried to its end whatever others do, except the last one if a database call threw; fewer only then or when nothing is due, and left alone only when nothing is due |
| NotificationDispatch.Dispatcher.Deliver | packages/server/src/services/notification-delivery-service.ts:42-73 | one claim: at most one send, recorded under its own token, and its outcome written under it unless a database call throws; left alone it carries the claim out |
| NotificationDispatch.Dispatcher.WriteOutcome | packages/server/src/services/notification-delivery-service.ts:50-72 | an acceptance whose write throws, before or after taking effect, is written again as a network failure, without another send |
| NotificationDispatch.Dispatcher.ClaimNotificationDelivery | packages/server/src/repositories/notification-delivery-repository.ts:12-25 | claims some due row under a fresh token, none only if none is due |
| NotificationDelivery.DelayIsAtLeastTheFloor | packages/server/src/services/notification-delivery-service.ts:26-31 | whatever the jitter and the hint, the delay is at least the lower end of the backoff, and at most an hour unless the hint is longer |
| NotificationDelivery.HintsAreKept | packages/server/src/services/notification-delivery-service.ts:26-31 | the delay is never below the hint, is the hint from an hour on, and otherwise at most the jittered doubling |
| NotificationBounds.RunKeepsInv | packages/server/src/repositories/notification-delivery-repository.ts:12-82 | spacing of claims, leases and each worker's knowledge are kept under every interleaving and crash |
| NotificationBounds.SendsAreBounded | packages/server/src/services/notification-delivery-service.ts:26-75 | in every run at most 32 sends of a delivery if every claim was given back, 724 in any case |
| NotificationBounds.TheBoundIsTight | packages/server/src/services/notification-delivery-service.ts:26-31 | the last counted claim still fits before the expiry and the next does not |
| NotificationWitness.TheBoundIsReached | packages/server/src/services/notification-delivery-service.ts:26-75 | some run sends 32 times with every claim given back, and some run sends 724 times |
| NotificationBounds.SupersededClaimsAreFenced | packages/server/src/repositories/notification-delivery-repository.ts:26-82 | a dispatcher whose claim was taken over finds no target and writes nothing |
| NotificationBounds.OutcomesAreWritten | packages/server/src/services/notification-delivery-service.ts:53-72 | the holder's outcome is accepted iff sent, given up iff permanent or too late, else due again after the backoff and before the expiry |
| NotificationBounds.ClaimsAreCarriedOut | packages/server/src/services/notification-delivery-service.ts:42-73 | in every run, a claim left alone sends iff its device is eligible and the notification has not expired; sent is accepted, failed for good or too long is discarded, the rest is due again in time |
| NotificationBounds.LostWritesAreMadeGood | packages/server/src/services/notification-delivery-service.ts:50-72 | an acceptance whose write threw is due again if it was not written and stays accepted if it was, without another send |
| NotificationBounds.TerminalIsAbsorbing | packages/server/src/repositories/notification-delivery-repository.ts:12-82 | accepted and discarded rows keep every column and are never claimed again |
| NotificationBounds.RowsMeetTheirConstraints | packages/server/src/db/schema.ts:250-254 | token and lease end are set together, and the attempt count is the number of claims |
| PushBinding.VersionDeterminesTheOwner | packages/server/src/repositories/push-installation-repository.ts:6-42 | over all runs a device and a binding version determine the account and its factor |
| PushBinding.SentToTheBindingItWasCreatedFor | packages/server/src/repositories/notification-delivery-repository.ts:26-63 | a delivery that finds a target reaches the binding it was created for, enabled and unexpired at every moment between, owned by the recipient |
| PushBinding.BrokenBindingsStayBroken | packages/server/src/repositories/notification-delivery-repository.ts:83-88 | once its binding was broken, expired or replaced, a delivery never finds a target again |
| PushBinding.TargetsLastUntilBroken | packages/server/src/repositories/notification-delivery-repository.ts:26-63 | in every run a delivery finds its target iff nothing since its creation broke the binding: the expiry, another binding, the owner or the push service |
| PushBinding.BindingsTakeOver | packages/server/src/repositories/push-installation-repository.ts:6-26 | a binding gives the device to its account, touches no other, and cuts off what was made for a different one |
| PushBinding.OnlyOwnersDisable | packages/server/src/repositories/push-installation-repository.ts:27-42 | a device is turned off iff its owner asks while it is on |
| PushBinding.AliveBefore | packages/server/src/repositories/push-installation-repository.ts:11-24 | a binding alive now under a version was alive whenever the device carried it |
| PushBinding.Installations.BindPushInstallation | packages/server/src/repositories/push-installation-repository.ts:6-26 | the upsert and its version rule |
| PushBinding.Installations.DisablePushInstallation | packages/server/src/repositories/push-installation-repository.ts:27-42 | disables only the owner's enabled device, under a new version |
| PushBinding.Installations.DiscardPushRegistration | packages/server/src/repositories/notification-delivery-repository.ts:83-88 | discards only the binding version that was used |
| PushBinding.Installations.InsertNotificationDeliveries | packages/server/src/repositories/notification-repository.ts:93-119 | one delivery per device the recipient has bound now, under its version |
| ConsoleMfaService.Console.ConsumeOtp | packages/server/src/services/console-mfa-service.ts:76-118 | a login let in is the run's newest acceptance: its password, its version, the stored secret and step; before its own commit a login found the factor enabled and a confirmation found it pending under the named version; left alone it is let in iff the password, the account and the factor fit and a step of the window gives the one-time password |
| ConsoleMfaService.Console.CommitOtp | packages/server/src/services/console-mfa-service.ts:103-117 | succeeds iff credential and row are still the ones that were read and the step is new |
| ConsoleMfaService.Console.ConsumeAdminMfaStep | packages/server/src/repositories/admin-mfa-repository.ts:94-120 | the compare-and-set, with the whole row it leaves |
| ConsoleMfaService.Console.SetupConsoleMfa | packages/server/src/services/console-mfa-service.ts:57-74 | the secret shown is the one stored and pending; left alone, an active administrator without an enabled factor gets the first pending secret |
| ConsoleMfaService.Console.ResetConsoleMfa | packages/server/src/services/console-mfa-revocation-service.ts:14-31 | resets iff the version is the expected one, and leaves the factor disabled |
| ConsoleMfaService.Console.ChangeConsoleAccountAccess | packages/server/src/services/console-mfa-revocation-service.ts:33-62 | changes access and version together, iff access and version are the expected ones |
| ConsoleMfaService.VerifyAdminMfaTotp | packages/server/src/auth/admin-mfa-totp.ts:21-44 | finds a matching step in the window after the last used one iff there is one |
| ConsoleMfa.StepsAreUsedOnce | packages/server/src/services/console-mfa-service.ts:76-118 | in every run accepted steps of an account increase strictly within a version, and across versions until a reset |
| ConsoleMfa.AcceptedAgainstTheCurrentSecret | packages/server/src/services/console-mfa-service.ts:76-118 | what is accepted matched the secret stored at the commit, of an active administrator whose password is still the one that was checked |
| ConsoleMfa.SecretsChangeOnlyByReset | packages/server/src/repositories/admin-mfa-repository.ts:31-61 | in every run a stored secret stays until a reset, so repeated setups return the first one |
| ConsoleMfa.RivalsLose | packages/server/src/repositories/admin-mfa-repository.ts:94-120 | of attempts with the same step only the first to commit is accepted |
| ConsoleMfa.RevokedProofsStayRevoked | packages/server/src/repositories/admin-mfa-repository.ts:15-29 | a proof below the account's version never authorizes again |
| ConsoleMfa.RevocationTakesEffect | packages/server/src/services/console-mfa-revocation-service.ts:14-62 | a reset or access change that goes through ends every earlier proof |
| ConsoleMfa.TheWindowIsThreeSteps | packages/server/src/auth/admin-mfa-totp.ts:21-44 | a password is accepted for the clock's step and its two neighbours, those after the last used one |
| ConsoleMfa.OneProofIsGood | packages/server/src/repositories/admin-mfa-repository.ts:15-29 | only an active administrator with an enabled factor is authorized, under one version at a time |
| ConsoleMfa.RowsMeetTheirConstraints | packages/server/src/db/schema.ts:128-145 | the row's check constraint holds in every run |
| OperatorAuthService.Operators.CreateOperatorGrant | packages/server/src/services/operator-auth-service.ts:42-63 | in at most three tries, a new unapproved grant with the codes it returns; left alone, new codes are taken at once |
| OperatorAuthService.Operators.ApproveOperatorGrant | packages/server/src/services/operator-auth-service.ts:66-86 | success means the grant of that code now carries this account, its version and this time; left alone, a current administrator approves exactly the open grants not ahead of the clock |
| OperatorAuthService.Operators.ExchangeOperatorGrant | packages/server/src/services/operator-auth-service.ts:88-111 | the token handed out is the one stored, for an approved, unexpired, unrevoked grant; pending is answered iff the grant is unexpired and unapproved; left alone it goes through iff the grant is approved, unexchanged and unexpired and its approver current |
| OperatorAuthService.Operators.AuthorizeOperatorToken | packages/server/src/services/operator-auth-service.ts:114-124 | whoever is let in approved the grant of a live token, still under the same factor version; left alone, every such approver is let in |
| OperatorAuthService.Operators.RevokeOperatorToken | packages/server/src/services/operator-auth-service.ts:126-130 | after it no clock makes the token live; left alone, whoever the token lets in can end it |
| OperatorGrants.GrantsKeepTheirPast | packages/server/src/repositories/operator-session-repository.ts:39-104 | over a whole run a grant's approver, token and revocation never change once set |
| OperatorGrants.ApprovedAndExchangedOnce | packages/server/src/repositories/operator-session-repository.ts:39-78 | two approvals, or two exchanges, that went through were of different grants |
| OperatorGrants.TokensHaveOneOwner | packages/server/src/repositories/operator-session-repository.ts:80-95 | a live token belongs to one grant, which has an approver |
| OperatorGrants.NewGrantsArePending | packages/server/src/repositories/operator-session-repository.ts:16-64 | a new grant is pending for ten minutes and cannot be exchanged before it is approved |
| OperatorGrants.ApprovedGrantsAreTheApprovers | packages/server/src/repositories/operator-session-repository.ts:39-64 | approved in time, it is that approver's, once, and no other grant changes |
| OperatorGrants.ExchangedGrantsOpenASession | packages/server/src/repositories/operator-session-repository.ts:64-104 | exchanged, it opens one session, the approver's, for eight hours or until it is revoked |
| OperatorGrants.PurgesForgetOldRows | packages/server/src/repositories/operator-session-repository.ts:106-115 | a purge forgets a row iff the grant, and its token if it has one, ran out more than a day ago |
| OperatorGrants.RowsMeetTheirConstraints | packages/server/src/db/schema.ts:770-790 | the approval, exchange and revocation times are in order in every run |
| OperatorGrants.ChecksFailExactlyOnSkew | packages/server/src/db/schema.ts:777-789 | a statement runs into the checks iff a row it would change is ahead of its caller's clock, or the proof names version 0 |
| OperatorGrants.PurgeIsUnobservable | packages/server/src/repositories/operator-session-repository.ts:106-115 | every later statement of a caller less than a day behind answers as if no row had ever been purged |
| OperatorGrants.RunSimulates | packages/server/src/services/operator-auth-service.ts:42-45 | the purged table is the unpurged one without rows that are dead for every caller in time |
| PcmProjection.AcceptedResultsMeetTheContract | packages/contracts/src/waveform.ts:12-46 | whatever the worker accepts passes the runner and every clause of the contract, for every count and peaks |
| PcmProjection.AcceptedExactly | ops/waveform/src/main.rs:185-218 | the accepted inputs, exactly; the worker's last size check refuses nothing |
| PcmProjection.RoundsToTheNearest | ops/waveform/src/main.rs:186-186 | the duration is the nearest millisecond, the even one on a tie |
| PcmProjection.DurationFitsTheBuckets | packages/contracts/src/waveform.ts:29-38 | a count's duration lies within its buckets |
| PcmProjection.TextsAreShort | ops/waveform-runner/docker_worker.go:168-194 | the printed result and the runner's are far below 4 MiB |
| PcmRelay.Relay | ops/waveform/src/main.rs:220-241 | on success the whole input was copied and counted within the limit, whatever the sizes of reads and writes; never is more than the limit copied; with calls that move something and time for them, the limit alone decides |
| PcmRelay.Fill | ops/waveform/src/main.rs:74-90 | fills the buffer with the next bytes, short only at the end |
| PcmRelay.WriteAll | ops/waveform/src/main.rs:58-73 | writes all bytes in order, or a prefix and fails |
| UuidCutover.AcceptedMapsAreExact | tools/repository/src/operators/uuid-cutover-map.ts:64-99 | a map is accepted iff it is a bijection from the source's identities to identities used once that commutes with song to album, keeps account facts and resets distinct active admins |
| UuidCutover.Coverage | tools/repository/src/operators/uuid-cutover-map.ts:73-80 | equal sizes and inclusion one way amount to a bijection |
| UuidCutover.CreatedMapsAreValid | tools/repository/src/operators/uuid-cutover-map.ts:101-121 | with fresh identities creation succeeds iff the source reads and the resets name distinct active admins, and its map validates |
| UuidCutover.FingerprintIsOfTheRows | tools/repository/src/operators/uuid-cutover-map.ts:44-59 | two sources read alike iff they have the same rows in some order |
| UuidCutover.ValidityIsOfTheRows | tools/repository/src/operators/uuid-cutover-map.ts:62-99 | a valid map is valid for a permuted source and for no other |
| UuidCutover.SortIsCanonical | tools/repository/src/operators/uuid-cutover-map.ts:46-48 | sorting rows with distinct identities forgets their order and nothing else |

## Left out

- WaveformProtocol.NoEnqueuedJobIsLost: does not cover the queue's retention expiry, which drops a message after its retention period whatever the store says.
- WaveformRunner.Host.Process: that a job comes to its end is stated for a call that is left alone; no fairness of the other actors is assumed, so nothing is said of how many redeliveries that takes.
- WaveformHistory.ReadsAreTheLatestSuccess: waveform data is one value; its peaks are the subject of PcmProjection.
- PairedReleaseHost.Host.Deploy: commands such as pulls, compose and smoke probes are calls that may fail, without a model of the containers; steps that only some runs have are calls in every run; a snapshot directory is removed in one call. A KeyboardInterrupt, which no except clause catches, ends a run like a death, except that the cleanup of a snapshot without commit and marker still happens.
- PairedReleaseHost.Host.RollBack: the file contents compared by the container probe are not modelled.
- WaveformHistory.ImportIsIdempotent: the query leaves ties of the finish time open; here the larger identity wins.
- NotificationBounds.SendsAreBounded: one clock stands for the database's and the dispatcher's; a difference between them moves each gap by as much.
- NotificationDispatch.Dispatcher.ClaimNotificationDelivery: takes any due row, because skipped locks may pass over earlier ones.
- ConsoleMfa.StepsAreUsedOnce: password hashing, encryption and the TOTP digits are a function of secret and step, with nothing assumed about it.
- OperatorGrants.PurgeIsUnobservable: holds when no random code or token repeats one that only purged rows had; deleting an account, which deletes its grants, is not modelled.
- PcmProjection.AcceptedResultsMeetTheContract: the worker's floating point quotient is the exact one; counts up to 172,800,000 keep its error far below half a millisecond's distance to a tie.
- PcmRelay.Relay: polls are counted instead of timed; a deadline is the end of the polls.
- UuidCutover.FingerprintIsOfTheRows: the SHA-256 of the sorted rows is modelled as the rows, that is, as injective; sorting in place is a function on values.
- CheerGuideService.Store.ImportLegacyGuide: the manifest's snapshot and publication identities are the rows' positions; the check that the actor is an active administrator is left out, as it is in the other guide services.
- CheerGuideService.Store.EditSong: the slug policy is its verdict; a slug taken by another song takes the same way out.
- ConsoleMfaService.VerifyAdminMfaTotp: which of several matching steps the library reports is not known; the earliest is taken here.
- CheerGuide: the import fingerprint is likewise its columns; unknown fields and default flags inside lyrics documents are not modelled, only text and times.
- Fresh identities are a counter; random collisions of identities are not modelled.
- HTTP, TLS, sockets, file ownership, the Docker and OCI command lines and JSON syntax are steps that may fail; payloads are already typed.
- The error codes DELIVERY_EXPIRED and PROCESSING_FAILED exist in the contract and are sent by nothing modelled here.
- Listing, searching, albums, policies, publications, sign-up mail, rate limits, sanitizers and all of the user interface.
