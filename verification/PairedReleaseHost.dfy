/**
 * The deployment as it runs: files, symlinks and markers changed one system call at a time, with the
 * exceptions and the cleanup of the original. Its outcome is the one PairedRelease computes from the script.
 */
module PairedReleaseHost {
  import opened Wrappers
  import opened PairedRelease

  class Host {
    var current: Option<SnapId>
    var previous: Option<SnapId>
    var pending: bool
    var web: Content
    var console: Content
    var compose: Content
    var waveform: Content
    var snapshots: map<SnapId, Files>
    var nextSnap: SnapId
    /** A single application from before the pairs. */
    var legacy: bool
    var script: seq<Fate>
    var streams: Streams
    /** Bytes that a stream did not take are still in its buffer. */
    var outLeft: bool
    var errLeft: bool

    /** The host as seen by a run that makes `snapshot`. */
    function Look(snapshot: SnapId): View
      reads this
    {
      View(current, previous, pending, web, console, snapshot in snapshots)
    }

    ghost predicate Valid()
      reads this
    {
      && (forall s | s in snapshots :: s < nextSnap)
      && (current.Some? ==> current.value in snapshots)
      && (previous.Some? ==> previous.value in snapshots)
    }

    /** Without a marker the settings are those of the current pair. */
    predicate Matches()
      reads this
    {
      !pending && current.Some? && current.value in snapshots ==>
        web == snapshots[current.value].web && console == snapshots[current.value].console
    }

    /** The refusals that come before anything is written. */
    predicate Refused(c: Candidate)
      reads this
      requires current.Some? ==> current.value in snapshots
    {
      || !c.wellFormed || pending
      || (if current.None? then c.baseline.Some?
          else c.baseline != Some(snapshots[current.value].release)
               || web != snapshots[current.value].web || console != snapshots[current.value].console)
    }

    /** A well-formed candidate for the pair that runs, on a host that is as that pair left it. */
    predicate MayReplace(c: Candidate)
      reads this
    {
      && c.wellFormed && !pending && (current.None? ==> c.baseline.None?)
      && (current.Some? ==>
            && current.value in snapshots && c.baseline == Some(snapshots[current.value].release)
            && web == snapshots[current.value].web && console == snapshots[current.value].console)
    }

    function Current(): Option<Files>
      reads this
    {
      if current.Some? && current.value in snapshots then Some(snapshots[current.value]) else None
    }

    function SetupFor(c: Candidate): Setup
      reads this
      requires current.Some? ==> current.value in snapshots
    {
      Setup(Look(nextSnap), Current(), current.None? && legacy, Refused(c), streams, c, nextSnap)
    }

    /** A host before its first pair, with whatever runs on it. */
    constructor (legacy: bool, web: Content, console: Content, compose: Content, waveform: Content)
      ensures Valid() && Matches() && current.None? && previous.None? && !pending && snapshots == map[]
      ensures this.legacy == legacy && this.web == web && this.console == console
    {
      current, previous, pending, snapshots, nextSnap := None, None, false, map[], 0;
      this.legacy, this.web, this.console, this.compose, this.waveform := legacy, web, console, compose, waveform;
      script, streams, outLeft, errLeft := [], Streams(Works, false), false, false;
    }

    // -------------------------------------------------------------- calls

    /** One system call or one command. */
    method Op() returns (f: Fate)
      modifies this`script
      ensures Took(old(script), f, script, 1) && f == At(old(script), 0) && script == After(old(script), 1)
    {
      if script == [] { return Died; }
      f := script[0];
      script := script[1..];
    }

    method Ops(n: nat) returns (f: Fate)
      modifies this`script
      ensures Took(old(script), f, script, n)
    {
      for i := 0 to n
        invariant Took(old(script), Done, script, i)
      {
        label Before:
        f := Op();
        TookBoth(old(script), old@Before(script), f, script, i, 1);
        if f != Done { return; }
      }
      f := Done;
    }

    /** A line to standard output: a dead stream keeps it, and raises at once only if it is line-buffered. */
    method PrintOut() returns (f: Fate)
      modifies this`outLeft
      ensures f == if streams.stdout.LineDead? then Raised else Done
      ensures outLeft == (old(outLeft) || streams.stdout != Works)
    {
      outLeft := outLeft || streams.stdout != Works;
      f := if streams.stdout.LineDead? then Raised else Done;
    }

    method PrintError() returns (f: Fate)
      modifies this`errLeft
      ensures f == if streams.stderrDead then Raised else Done
      ensures errLeft == (old(errLeft) || streams.stderrDead)
    {
      errLeft := errLeft || streams.stderrDead;
      f := if streams.stderrDead then Raised else Done;
    }

    // -------------------------------------------------------------- files

    /** Write a temporary file and rename it over the target; the temporary name is then cleared. */
    method AtomicEnv(isWeb: bool, content: Content) returns (f: Fate)
      modifies this`script, this`web, this`console
      ensures Took(old(script), f, script, 3)
      ensures web == if isWeb && FirstFailure(old(script)) >= 2 then content else old(web)
      ensures console == if !isWeb && FirstFailure(old(script)) >= 2 then content else old(console)
    {
      f := Ops(2);
      if f != Done { return; }
      if isWeb { web := content; } else { console := content; }
      label Renamed:
      f := Op();
      TookBoth(old(script), old@Renamed(script), f, script, 2, 1);
    }

    method AtomicPending() returns (f: Fate)
      modifies this`script, this`pending
      ensures Took(old(script), f, script, 3)
      ensures pending == (old(pending) || FirstFailure(old(script)) >= 2)
    {
      f := Ops(2);
      if f != Done { return; }
      pending := true;
      label Renamed:
      f := Op();
      TookBoth(old(script), old@Renamed(script), f, script, 2, 1);
    }

    method AtomicCompose(content: Content, isWaveform: bool) returns (f: Fate)
      modifies this`script, this`compose, this`waveform
      ensures Took(old(script), f, script, 3)
      ensures compose == if !isWaveform && FirstFailure(old(script)) >= 2 then content else old(compose)
      ensures waveform == if isWaveform && FirstFailure(old(script)) >= 2 then content else old(waveform)
    {
      f := Ops(2);
      if f != Done { return; }
      if isWaveform { waveform := content; } else { compose := content; }
      label Renamed:
      f := Op();
      TookBoth(old(script), old@Renamed(script), f, script, 2, 1);
    }

    /** Clear the temporary link, make it, and rename it over the old one: the rename is the last call. */
    method LinkPrevious(target: SnapId) returns (f: Fate)
      modifies this`script, this`previous
      ensures Took(old(script), f, script, 3)
      ensures previous == if FirstFailure(old(script)) >= 3 then Some(target) else old(previous)
    {
      f := Ops(3);
      if f != Done { return; }
      previous := Some(target);
    }

    method LinkCurrent(target: SnapId) returns (f: Fate)
      modifies this`script, this`current
      ensures Took(old(script), f, script, 3)
      ensures current == if FirstFailure(old(script)) >= 3 then Some(target) else old(current)
    {
      f := Ops(3);
      if f != Done { return; }
      current := Some(target);
    }

    /** Removing a marker that is already gone raises. */
    method UnlinkPending() returns (f: Fate)
      modifies this`script, this`pending
      ensures script == After(old(script), 1)
      ensures f == if At(old(script), 0) == Done && !old(pending) then Raised else At(old(script), 0)
      ensures pending == (old(pending) && At(old(script), 0) != Done)
    {
      f := Op();
      if f != Done { return; }
      if !pending { return Raised; }
      pending := false;
    }
  
    // -------------------------------------------------------------- deployment

    /** Everything up to the pending marker: settings, images, and the snapshot's files. */
    method Prepare(c: Candidate, snapshot: SnapId) returns (f: Fate)
      modifies this`script, this`snapshots, this`pending
      ensures Took(old(script), f, script, PREPARE)
      ensures snapshots.Keys == old(snapshots).Keys + {snapshot}
      ensures forall s | s in old(snapshots) && s != snapshot :: snapshots[s] == old(snapshots)[s]
      ensures pending == (old(pending) || FirstFailure(old(script)) >= PREPARE - 1)
      ensures FirstFailure(old(script)) >= PREPARE - 1 ==>
                snapshots[snapshot] == Files(c.release, c.web, c.console, compose, if c.socket then Some(waveform) else None)
    {
      snapshots := snapshots[snapshot := Files(c.release, 0, 0, 0, None)];
      // materialize web and console
      f := Ops(2);
      if f != Done { return; }
      snapshots := snapshots[snapshot := Files(c.release, c.web, c.console, 0, None)];
      label Materialized:
      // cross-checks, pulls and image inspections, compose config, candidate.json, config.json, compose copies
      f := Ops(9);
      TookBoth(old(script), old@Materialized(script), f, script, 2, 9);
      if f != Done { return; }
      snapshots := snapshots[snapshot := Files(c.release, c.web, c.console, compose, if c.socket then Some(waveform) else None)];
      label Copied:
      f := AtomicPending();
      TookBoth(old(script), old@Copied(script), f, script, 11, 3);
    }

    /** The settings of the candidate, its containers, and the checks on them. */
    method Apply(c: Candidate) returns (f: Fate)
      modifies this`script, this`web, this`console
      ensures Took(old(script), f, script, 11)
      ensures web == if FirstFailure(old(script)) >= 2 then c.web else old(web)
      ensures console == if FirstFailure(old(script)) >= 5 then c.console else old(console)
    {
      f := AtomicEnv(true, c.web);
      if f != Done { return; }
      label Web:
      f := AtomicEnv(false, c.console);
      TookBoth(old(script), old@Web(script), f, script, 3, 3);
      if f != Done { return; }
      label Settings:
      // stop the legacy app, compose up, smoke, record containers, remove the legacy app
      f := Ops(5);
      TookBoth(old(script), old@Settings(script), f, script, 6, 5);
    }

    /** The candidate is applied, probed and linked. */
    method ApplyAndLink(c: Candidate, snapshot: SnapId, replaced: Option<SnapId>) returns (f: Fate)
      modifies this`script, this`web, this`console, this`current, this`previous
      ensures Took(old(script), f, script, if replaced.Some? then 17 else 14)
      ensures web == if FirstFailure(old(script)) >= 2 then c.web else old(web)
      ensures console == if FirstFailure(old(script)) >= 5 then c.console else old(console)
      ensures previous == if replaced.Some? && FirstFailure(old(script)) >= 14 then replaced else old(previous)
      ensures current == if FirstFailure(old(script)) >= (if replaced.Some? then 17 else 14) then Some(snapshot) else old(current)
    {
      f := Apply(c);
      if f != Done { return; }
      ghost var linked := 11;
      if replaced.Some? {
        label Applied:
        f := LinkPrevious(replaced.value);
        TookBoth(old(script), old@Applied(script), f, script, 11, 3);
        if f != Done { return; }
        linked := 14;
      }
      label Ready:
      f := LinkCurrent(snapshot);
      TookBoth(old(script), old@Ready(script), f, script, linked, 3);
    }

    /** The same, as it shows. */
    method ApplyShown(c: Candidate, snapshot: SnapId, ghost h: Setup) returns (f: Fate)
      requires Look(snapshot) == h.view.(pending := true, kept := true) && h.c == c && h.snapshot == snapshot
      modifies this`script, this`web, this`console, this`current, this`previous
      ensures Took(old(script), f, script, Commit(h.view))
      ensures var k, n := FirstFailure(old(script)), Commit(h.view); Look(snapshot) == Activated(h, if k < n then k else n)
    {
      f := ApplyAndLink(c, snapshot, current);
    }

    /** `committed` is set with the current link; what follows only removes the marker and reports. */
    method Activate(c: Candidate, snapshot: SnapId, ghost h: Setup) returns (f: Fate, committed: bool)
      requires Look(snapshot) == h.view.(pending := true, kept := true)
      requires h.streams == streams && h.c == c && h.snapshot == snapshot
      modifies this`script, this`web, this`console, this`current, this`previous, this`pending, this`outLeft, this`errLeft
      ensures Look(snapshot) == Activated(h, FirstFailure(old(script)))
      ensures var k, n := FirstFailure(old(script)), Commit(h.view);
              && committed == (k >= n) && script == After(old(script), if k < n then k + 1 else n + 1)
              && f == if k <= n && At(old(script), k) != Raised then Died
                      else if k < n || (k == n && streams.stderrDead) || streams.stdout.LineDead? then Raised
                      else Done
      ensures outLeft == (old(outLeft) || (streams.stdout != Works && ActivationReports(h, old(script))))
      ensures !streams.stderrDead || f == Done ==> errLeft == old(errLeft)
    {
      committed := false;
      f := ApplyShown(c, snapshot, h);
      if f != Done { return; }
      committed := true;
      AfterBoth(old(script), Commit(h.view), 0);
      AfterBoth(old(script), Commit(h.view), 1);
      if FirstFailure(old(script)) > Commit(h.view) { SucceedsBefore(old(script), Commit(h.view)); }
      f := Conclude();
    }

    /** After the commit: the marker goes, or is complained about, and success is reported. */
    method Conclude() returns (f: Fate)
      requires pending
      modifies this`script, this`pending, this`outLeft, this`errLeft
      ensures script == After(old(script), 1) && pending == (At(old(script), 0) != Done)
      ensures var u := At(old(script), 0);
              && f == (if u.Died? then Died else if (u.Raised? && streams.stderrDead) || streams.stdout.LineDead? then Raised else Done)
              && outLeft == (old(outLeft) || (streams.stdout != Works && (u.Done? || (u.Raised? && !streams.stderrDead))))
              && errLeft == (old(errLeft) || (u.Raised? && streams.stderrDead))
    {
      f := UnlinkPending();
      if f.Died? { return; }
      if f.Raised? {
        f := PrintError();
        if f != Done { return; }
      }
      f := PrintOut();
    }

    method RestorePrevious(before: Option<SnapId>) returns (f: Fate)
      modifies this`script, this`previous
      ensures Took(old(script), f, script, PreviousCalls(before))
      ensures previous == if FirstFailure(old(script)) >= PreviousCalls(before) then before else old(previous)
    {
      if before.Some? {
        f := LinkPrevious(before.value);
        return;
      }
      f := Op();
      if f == Done { previous := None; }
    }

    method RestoreFiles(files: Files) returns (f: Fate)
      modifies this`script, this`web, this`console, this`compose, this`waveform
      ensures Took(old(script), f, script, 9 + WaveformCalls(files))
      ensures web == if FirstFailure(old(script)) >= 2 then files.web else old(web)
      ensures console == if FirstFailure(old(script)) >= 5 then files.console else old(console)
      ensures compose == if FirstFailure(old(script)) >= 8 then files.compose else old(compose)
      ensures waveform == if files.waveform.Some? && FirstFailure(old(script)) >= 11 then files.waveform.value else old(waveform)
    {
      f := AtomicEnv(true, files.web);
      if f != Done { return; }
      label Web:
      f := AtomicEnv(false, files.console);
      TookBoth(old(script), old@Web(script), f, script, 3, 3);
      if f != Done { return; }
      label Settings:
      f := AtomicCompose(files.compose, false);
      TookBoth(old(script), old@Settings(script), f, script, 6, 3);
      if f != Done || files.waveform.None? { return; }
      label Compose:
      f := AtomicCompose(files.waveform.value, true);
      TookBoth(old(script), old@Compose(script), f, script, 9, 3);
    }

    /** The files, and the containers running on them. */
    method RestoreRunning(files: Files) returns (f: Fate)
      modifies this`script, this`web, this`console, this`compose, this`waveform
      ensures Took(old(script), f, script, 12 + WaveformCalls(files))
      ensures web == if FirstFailure(old(script)) >= 2 then files.web else old(web)
      ensures console == if FirstFailure(old(script)) >= 5 then files.console else old(console)
      ensures f == Done ==> compose == files.compose && (files.waveform.Some? ==> waveform == files.waveform.value)
    {
      f := RestoreFiles(files);
      if f != Done { return; }
      label Files:
      // compose up, smoke, compare the containers
      f := Ops(3);
      TookBoth(old(script), old@Files(script), f, script, 9 + WaveformCalls(files), 3);
    }

    /** The old pair: its files, its containers, the link it had. */
    method RestorePair(files: Files, before: Option<SnapId>) returns (f: Fate)
      modifies this`script, this`web, this`console, this`compose, this`waveform, this`previous
      ensures Took(old(script), f, script, 12 + WaveformCalls(files) + PreviousCalls(before))
      ensures web == if FirstFailure(old(script)) >= 2 then files.web else old(web)
      ensures console == if FirstFailure(old(script)) >= 5 then files.console else old(console)
      ensures f == Done ==> compose == files.compose && (files.waveform.Some? ==> waveform == files.waveform.value)
      ensures previous == if FirstFailure(old(script)) >= 12 + WaveformCalls(files) + PreviousCalls(before) then before else old(previous)
    {
      f := RestoreRunning(files);
      if f != Done { return; }
      label Running:
      f := RestorePrevious(before);
      TookBoth(old(script), old@Running(script), f, script, 12 + WaveformCalls(files), PreviousCalls(before));
    }

    /** What can be restored, before the marker goes: a pair, the application from before the pairs, or nothing. */
    method Restore(replaced: Option<SnapId>, before: Option<SnapId>, wasLegacy: bool, snapshot: SnapId, ghost h: Setup) returns (f: Fate)
      requires replaced == h.view.current && before == h.view.previous && wasLegacy == h.legacy
      requires replaced.Some? ==> replaced.value in snapshots && h.files == Some(snapshots[replaced.value])
      modifies this`script, this`web, this`console, this`compose, this`waveform, this`previous
      ensures CanRollBack(h) ==> Took(old(script), f, script, RollbackCalls(h) - 1)
      ensures !CanRollBack(h) ==> script == After(old(script), 1) && f == if At(old(script), 0) == Done then Raised else At(old(script), 0)
      ensures Look(snapshot) == RolledBack(h, old(Look(snapshot)), FirstFailure(old(script))).(pending := pending)
      // What the promises do not see: the compose files of the old pair are back as well.
      ensures f == Done && replaced.Some? ==>
                compose == h.files.value.compose && (h.files.value.waveform.Some? ==> waveform == h.files.value.waveform.value)
    {
      if replaced.Some? {
        f := RestorePair(snapshots[replaced.value], before);
      } else if wasLegacy {
        // stop the pair, start the legacy app, smoke it
        f := Ops(3);
      } else {
        f := Op();
        if f == Done { f := Raised; }
      }
    }

    /** Restore, drop the marker, report. */
    method RollBack(replaced: Option<SnapId>, before: Option<SnapId>, wasLegacy: bool, snapshot: SnapId, ghost h: Setup) returns (f: Fate)
      requires replaced == h.view.current && before == h.view.previous && wasLegacy == h.legacy && !streams.stderrDead
      requires replaced.Some? ==> replaced.value in snapshots && h.files == Some(snapshots[replaced.value])
      modifies this`script, this`web, this`console, this`compose, this`waveform, this`previous, this`pending, this`errLeft
      ensures errLeft == old(errLeft)
      ensures Look(snapshot) == RolledBack(h, old(Look(snapshot)), FirstFailure(old(script)))
      ensures f == RollbackFate(h, old(pending), old(script))
      ensures script == After(old(script), if FirstFailure(old(script)) < RollbackCalls(h) then FirstFailure(old(script)) + 1 else RollbackCalls(h))
      ensures f == Done && replaced.Some? ==>
                compose == h.files.value.compose && (h.files.value.waveform.Some? ==> waveform == h.files.value.waveform.value)
    {
      f := Restore(replaced, before, wasLegacy, snapshot, h);
      if f != Done { return; }
      RollbackEnds(h, pending, old(script), script);
      f := UnlinkPending();
      if f != Done { return; }
      f := PrintError();
    }

    // -------------------------------------------------------------- the whole run

    /** The snapshot of a run that neither committed nor left its marker is removed. */
    method Finalize(snapshot: SnapId, committed: bool, exit0: Exit) returns (exit: Exit)
      requires snapshot in snapshots
      modifies this`script, this`snapshots
      ensures (Look(snapshot), exit) == Finalized(old(Look(snapshot)), committed, exit0, old(script))
      ensures snapshots == old(snapshots) || (!committed && snapshots == old(snapshots) - {snapshot})
    {
      exit := exit0;
      if committed || pending { return; }
      var f := Op();
      if f.Died? { return Crashed; }
      if f.Raised? { return Code(1); }
      snapshots := snapshots - {snapshot};
    }

    /** An exception during the activation, `k` calls into it: say so, go back, clean up. */
    method GoBack(replaced: Option<SnapId>, before: Option<SnapId>, wasLegacy: bool, snapshot: SnapId, committed: bool,
                  ghost h: Setup, ghost k: nat) returns (exit: Exit)
      requires Look(snapshot) == Activated(h, k) && committed == (k >= Commit(h.view)) && h.streams == streams
      requires replaced == h.view.current && before == h.view.previous && wasLegacy == h.legacy && snapshot in snapshots
      requires replaced.Some? ==> replaced.value in snapshots && h.files == Some(snapshots[replaced.value])
      modifies this`script, this`web, this`console, this`compose, this`waveform, this`previous, this`pending, this`snapshots,
               this`errLeft
      ensures (Look(snapshot), exit) == Failed(h, k, old(script))
      ensures exit != Code(0) && (!streams.stderrDead ==> errLeft == old(errLeft))
      ensures snapshots == old(snapshots) || (!committed && snapshots == old(snapshots) - {snapshot})
    {
      var f := PrintError();
      if f != Done {
        exit := Finalize(snapshot, committed, Code(1));
        return;
      }
      f := RollBack(replaced, before, wasLegacy, snapshot, h);
      if f.Died? { return Crashed; }
      exit := Finalize(snapshot, committed, if f == Done then Code(20) else Code(21));
    }

    /** From the marker on: activate, and on any exception go back. */
    method Release(c: Candidate, snapshot: SnapId, ghost h: Setup) returns (exit: Exit)
      requires Look(snapshot) == h.view.(pending := true, kept := true) && Current() == h.files
      requires h.streams == streams && h.c == c && h.snapshot == snapshot && h.legacy == (current.None? && legacy)
      requires current.Some? ==> current.value in snapshots && current.value != snapshot
      modifies this`script, this`web, this`console, this`compose, this`waveform, this`current, this`previous, this`pending, this`snapshots,
               this`outLeft, this`errLeft
      ensures (Look(snapshot), exit) == Released(h, old(script))
      ensures exit.Code? ==> outLeft == (old(outLeft) || (streams.stdout != Works && ActivationReports(h, old(script))))
      ensures !streams.stderrDead || exit == Code(0) ==> errLeft == old(errLeft)
      ensures snapshots == old(snapshots) || (current != Some(snapshot) && snapshots == old(snapshots) - {snapshot})
    {
      var replaced, before, wasLegacy := current, previous, current.None? && legacy;
      var f, committed := Activate(c, snapshot, h);
      if f.Died? { return Crashed; }
      if f == Done { return Code(0); }
      ghost var k, n := FirstFailure(old(script)), Commit(h.view);
      exit := GoBack(replaced, before, wasLegacy, snapshot, committed, h, if k <= n then k else n + 1);
    }

    /** After the checks: a new snapshot, the candidate on top of it, and whatever cleans up behind it. */
    method Attempt(c: Candidate, snapshot: SnapId, ghost h: Setup) returns (exit: Exit)
      requires Look(snapshot) == h.view && !pending && Current() == h.files
      requires h.streams == streams && h.c == c && h.snapshot == snapshot && h.legacy == (current.None? && legacy)
      requires snapshot !in snapshots && (current.Some? ==> current.value in snapshots)
      modifies this`script, this`web, this`console, this`compose, this`waveform, this`current, this`previous, this`pending, this`snapshots,
               this`outLeft, this`errLeft
      ensures (Look(snapshot), exit) == Attempted(h, old(script))
      ensures exit.Code? ==>
                outLeft == (old(outLeft) || (streams.stdout != Works && FirstFailure(old(script)) >= PREPARE
                                             && ActivationReports(h, After(old(script), PREPARE))))
      ensures !streams.stderrDead || exit == Code(0) ==> errLeft == old(errLeft)
      ensures old(snapshots).Keys <= snapshots.Keys <= old(snapshots).Keys + {snapshot}
      ensures forall s | s in old(snapshots) :: snapshots[s] == old(snapshots)[s]
      ensures current == Some(snapshot) ==>
                snapshot in snapshots && snapshots[snapshot].web == c.web && snapshots[snapshot].console == c.console
    {
      var f := Prepare(c, snapshot);
      if f.Died? { return Crashed; }
      if f.Raised? {
        exit := Finalize(snapshot, false, Code(1));
        return;
      }
      exit := Release(c, snapshot, h);
    }

    /** Past its refusals a run finds no marker and the settings of the current pair. */
    lemma SetupIsReady(c: Candidate)
      requires Valid()
      ensures Ready(SetupFor(c)) && (Matches() ==> Consistent(SetupFor(c), SetupFor(c).view))
    {
    }

    lemma GoodCandidatesAreReleased(c: Candidate, run: seq<Fate>)
      requires Valid() && MayReplace(c) && streams == FINE && FirstFailure(run) > ACTIVATE + 17
      ensures var (t, exit) := Outcome(SetupFor(c), run);
              exit == Code(0) && Switched(SetupFor(c), t) && !t.pending
    {
      CleanRunsRelease(SetupFor(c), run);
    }

    /** The deployment, with the exit code it asks for. */
    method Deploy(c: Candidate) returns (exit: Exit)
      requires Valid()
      modifies this`script, this`web, this`console, this`compose, this`waveform, this`current, this`previous, this`pending,
               this`snapshots, this`nextSnap, this`outLeft, this`errLeft
      ensures Valid()
      ensures (Look(old(nextSnap)), exit) == Asked(old(SetupFor(c)), old(script))
      ensures exit.Code? ==> outLeft == (old(outLeft) || (streams.stdout != Works && Reports(old(SetupFor(c)), old(script))))
      ensures !streams.stderrDead || exit == Code(0) ==> errLeft == old(errLeft)
      ensures KeepsSnapshots(c, old(SetupFor(c)), old(snapshots)) && nextSnap >= old(nextSnap)
      // A marker, or any other refusal, changes nothing at all.
      ensures old(Refused(c)) ==>
                snapshots == old(snapshots) && Look(old(nextSnap)) == old(Look(nextSnap)) && exit in {Code(1), Crashed}
    {
      ghost var h, run := SetupFor(c), script;
      var f := Ops(CHECKS);
      if f.Died? { return Crashed; }
      if f.Raised? || Refused(c) { return Code(1); }
      AskedAfterTheChecks(h, run);
      LinksAreKept(h, run);
      exit := Attempt(c, nextSnap, h);
      nextSnap := nextSnap + 1;
    }

    /** Other snapshots stay as they were, and the new one, once current, is the candidate's. */
    ghost predicate KeepsSnapshots(c: Candidate, h: Setup, before: map<SnapId, Files>)
      reads this
    {
      && before.Keys <= snapshots.Keys <= before.Keys + {h.snapshot}
      && (forall s | s in before :: snapshots[s] == before[s])
      && (current == Some(h.snapshot) ==>
            h.snapshot in snapshots && snapshots[h.snapshot].web == c.web && snapshots[h.snapshot].console == c.console)
    }

    lemma MatchesIsConsistent(c: Candidate, h: Setup, before: map<SnapId, Files>)
      requires Valid() && KeepsSnapshots(c, h, before) && LinksKept(h, Look(h.snapshot)) && h.c == c && h.view.current != Some(h.snapshot)
      requires h.view.current.Some? ==> h.view.current.value in before && h.files == Some(before[h.view.current.value])
      ensures Matches() <==> Consistent(h, Look(h.snapshot))
    {
    }

    lemma MatchesExactly(c: Candidate, h: Setup, before: map<SnapId, Files>, run: seq<Fate>)
      requires Valid() && KeepsSnapshots(c, h, before) && h.c == c && Ready(h) && Consistent(h, h.view)
      requires h.view.current.Some? ==> h.view.current.value in before && h.files == Some(before[h.view.current.value])
      requires Look(h.snapshot) == Outcome(h, run).0
      ensures Matches() <==> !Mismatches(h, run)
    {
      LinksAreKept(h, run);
      ConsistentExactly(h, run);
      MatchesIsConsistent(c, h, before);
    }

    /** The last line of a run that did not come through, and what full buffers make of the exit code. */
    method Shutdown(asked: Exit, ghost reports: bool) returns (exit: Exit)
      requires asked.Code? ==> outLeft == (streams.stdout != Works && reports)
      requires !streams.stderrDead || asked == Code(0) ==> !errLeft
      requires streams.stderrDead ==> asked in {Code(0), Code(1), Crashed}
      modifies this`errLeft
      ensures exit == Seen(streams, asked, reports)
    {
      if asked.Crashed? { return asked; }
      if asked == Code(1) {
        var _ := PrintError();
      }
      exit := if outLeft || errLeft then Code(120) else asked;
    }

    /** The process: the deployment and its end. It starts with empty buffers. */
    method Launch(c: Candidate) returns (exit: Exit)
      requires Valid() && !outLeft && !errLeft
      modifies this
      ensures Valid() && streams == old(streams) && Ready(old(SetupFor(c)))
      ensures (Look(old(nextSnap)), exit) == Outcome(old(SetupFor(c)), old(script))
      ensures KeepsSnapshots(c, old(SetupFor(c)), old(snapshots)) && nextSnap >= old(nextSnap)
      ensures old(Matches()) ==> (Matches() <==> !Mismatches(old(SetupFor(c)), old(script)))
      ensures old(Refused(c)) ==> snapshots == old(snapshots) && Look(old(nextSnap)) == old(Look(nextSnap))
      // When every call succeeds, such a candidate is released.
      ensures old(MayReplace(c)) && streams == FINE && FirstFailure(old(script)) > ACTIVATE + 17 ==>
                exit == Code(0) && Switched(old(SetupFor(c)), Look(old(nextSnap))) && !pending
    {
      ghost var h, before, run := SetupFor(c), snapshots, script;
      SetupIsReady(c);
      if MayReplace(c) && streams == FINE && FirstFailure(script) > ACTIVATE + 17 { GoodCandidatesAreReleased(c, script); }
      exit := Deploy(c);
      if streams.stderrDead { SilentCodes(h, run); }
      if old(Matches()) { MatchesExactly(c, h, before, run); }
      exit := Shutdown(exit, Reports(h, run));
    }

    /**
     * Deployments one after the other, each a process of its own that may end or die anywhere. The settings stay
     * those of the current pair unless there is a marker, and once there is one nothing changes any more.
     */
    method DeployAll(candidates: seq<Candidate>, scripts: seq<seq<Fate>>, outputs: seq<Streams>)
      requires Valid() && Matches() && |candidates| == |scripts| == |outputs|
      requires forall i :: 0 <= i < |outputs| ==> !outputs[i].stdout.LineDead?
      modifies this
      ensures Valid() && Matches()
      ensures old(snapshots).Keys <= snapshots.Keys && forall s | s in old(snapshots) :: snapshots[s] == old(snapshots)[s]
      ensures old(pending) ==>
                (current, previous, pending, web, console, snapshots) == old((current, previous, pending, web, console, snapshots))
    {
      for i := 0 to |candidates|
        invariant Valid() && Matches() && nextSnap >= old(nextSnap)
        invariant old(snapshots).Keys <= snapshots.Keys && forall s | s in old(snapshots) :: snapshots[s] == old(snapshots)[s]
        invariant old(pending) ==>
                    (current, previous, pending, web, console, snapshots) == old((current, previous, pending, web, console, snapshots))
      {
        script, streams, outLeft, errLeft := scripts[i], outputs[i], false, false;
        var _ := Launch(candidates[i]);
      }
    }
  }
}
