/**
 * What a paired deployment leaves behind, as a function of what happened to its system calls. A run is a
 * script of calls that succeed, raise, or are the last thing the process ever does; when the script ends
 * the process has died, so what holds of every script holds at every crash point.
 *
 * A line printed to a dead stream stays in its buffer, and an exit with something left in a buffer is turned
 * into exit code 120. Standard error is line-buffered, so the print raises as well. Standard output is
 * block-buffered, where the print does not raise, unless it is a terminal, which is line-buffered. A stream
 * that was closed before the start swallows its lines and counts as working.
 */
module PairedRelease {
  import opened Wrappers

  type SnapId = nat
  type Content = nat

  datatype Fate = Done | Raised | Died

  datatype Stdout = Works | BlockDead | LineDead

  datatype Streams = Streams(stdout: Stdout, stderrDead: bool)

  datatype Exit = Code(value: nat) | Crashed

  /** A protected snapshot: what it released, and the files it keeps. */
  datatype Files = Files(release: nat, web: Content, console: Content, compose: Content, waveform: Option<Content>)

  /** What a candidate brings: its release, the one it expects to replace, and its runtime settings. */
  datatype Candidate = Candidate(wellFormed: bool, release: nat, baseline: Option<nat>, web: Content, console: Content,
                                 socket: bool)

  /** The part of the host a promise speaks of; `kept` says whether the run's snapshot is there. */
  datatype View = View(current: Option<SnapId>, previous: Option<SnapId>, pending: bool, web: Content, console: Content, kept: bool)

  /** Everything a run depends on but its script. `files` is the current snapshot. */
  datatype Setup = Setup(view: View, files: Option<Files>, legacy: bool, refused: bool, streams: Streams, c: Candidate, snapshot: SnapId)

  // ---------------------------------------------------------------- scripts

  /** The number of calls that succeed before the first that does not. */
  function FirstFailure(script: seq<Fate>): (k: nat)
    ensures k <= |script| && (k < |script| ==> script[k] != Done)
  {
    if script == [] || script[0] != Done then 0 else 1 + FirstFailure(script[1..])
  }

  function At(script: seq<Fate>, k: nat): Fate { if k < |script| then script[k] else Died }

  function After(script: seq<Fate>, n: nat): seq<Fate> { if n <= |script| then script[n..] else [] }

  /** `n` calls in a row: all of them, or up to the first that fails. */
  predicate Took(before: seq<Fate>, f: Fate, after: seq<Fate>, n: nat) {
    var k := FirstFailure(before);
    if k >= n then f == Done && after == After(before, n) && FirstFailure(after) == k - n
    else f == At(before, k) && f != Done && after == After(before, k + 1)
  }

  lemma {:induction false} SucceedsBefore(script: seq<Fate>, i: nat)
    requires i < FirstFailure(script)
    ensures At(script, i) == Done
  {
    if i > 0 { SucceedsBefore(script[1..], i - 1); }
  }

  lemma {:induction false} FailureAfter(script: seq<Fate>, n: nat)
    requires n <= FirstFailure(script)
    ensures FirstFailure(After(script, n)) == FirstFailure(script) - n
  {
    if n > 0 {
      assert script[1..][n - 1..] == script[n..];
      FailureAfter(script[1..], n - 1);
    }
  }

  lemma {:induction false} FailureIs(script: seq<Fate>, k: nat)
    requires k <= |script| && (k < |script| ==> script[k] != Done) && forall i :: 0 <= i < k ==> script[i] == Done
    ensures FirstFailure(script) == k
  {
    if k > 0 { FailureIs(script[1..], k - 1); }
  }

  lemma AfterBoth(script: seq<Fate>, m: nat, n: nat)
    requires m <= |script|
    ensures After(After(script, m), n) == After(script, m + n) && At(After(script, m), n) == At(script, m + n)
  {
  }

  lemma TookBoth(a: seq<Fate>, b: seq<Fate>, f: Fate, c: seq<Fate>, m: nat, n: nat)
    requires Took(a, Done, b, m) && Took(b, f, c, n)
    ensures Took(a, f, c, m + n)
  {
    var k := FirstFailure(b);
    assert b == After(a, m) && k == FirstFailure(a) - m;
    if k >= n {
      AfterBoth(a, m, n);
    } else {
      AfterBoth(a, m, k);
      AfterBoth(a, m, k + 1);
    }
  }

  // ---------------------------------------------------------------- the calls of a run

  // 3 calls of checks; then the snapshot, whose marker appears with call 16 still to come; then activation.
  const CHECKS := 3
  const PREPARE := 14
  const ACTIVATE := CHECKS + PREPARE
  const MARKED := ACTIVATE - 1

  /** The calls of the activation up to the current link: settings, containers, links. */
  function Commit(v: View): nat { if v.current.Some? then 17 else 14 }

  /** What shows after the first `k` calls of the activation. */
  function Activated(h: Setup, k: nat): View {
    var v := h.view;
    View(if k >= Commit(v) then Some(h.snapshot) else v.current,
         if v.current.Some? && k >= 14 then v.current else v.previous,
         k <= Commit(v),
         if k >= 2 then h.c.web else v.web,
         if k >= 5 then h.c.console else v.console,
         true)
  }

  function WaveformCalls(files: Files): nat { if files.waveform.Some? then 3 else 0 }

  function PreviousCalls(previous: Option<SnapId>): nat { if previous.Some? then 3 else 1 }

  /** The calls of a rollback: two settings files, the compose files, the containers, the link, the marker. */
  function RollbackCalls(h: Setup): nat {
    if h.view.current.Some? && h.files.Some?
    then 13 + WaveformCalls(h.files.value) + PreviousCalls(h.view.previous)
    else if h.legacy then 4 else 1
  }

  predicate CanRollBack(h: Setup) { (h.view.current.Some? && h.files.Some?) || h.legacy }

  /** What shows after the first `k` calls of a rollback that found `v`. */
  function RolledBack(h: Setup, v: View, k: nat): View {
    var pending := if CanRollBack(h) && k >= RollbackCalls(h) then false else v.pending;
    if h.view.current.Some? && h.files.Some?
    then
      v.(web := if k >= 2 then h.files.value.web else v.web,
         console := if k >= 5 then h.files.value.console else v.console,
         previous := if k >= RollbackCalls(h) - 1 then h.view.previous else v.previous,
         pending := pending)
    else v.(pending := pending)
  }

  /** A rollback ends well only if there is something to go back to and a marker to remove. */
  function RollbackFate(h: Setup, pending: bool, script: seq<Fate>): Fate {
    var k := FirstFailure(script);
    if k < RollbackCalls(h) then At(script, k)
    else if CanRollBack(h) && pending then Done
    else Raised
  }

  /** Once everything is restored, the marker's call decides. */
  lemma RollbackEnds(h: Setup, pending: bool, before: seq<Fate>, after: seq<Fate>)
    requires CanRollBack(h) && Took(before, Done, after, RollbackCalls(h) - 1)
    ensures FirstFailure(before) >= RollbackCalls(h) <==> At(after, 0) == Done
    ensures RollbackFate(h, pending, before) ==
            if At(after, 0) != Done then At(after, 0) else if pending then Done else Raised
    ensures After(after, 1) ==
            After(before, if FirstFailure(before) < RollbackCalls(h) then FirstFailure(before) + 1 else RollbackCalls(h))
  {
    AfterBoth(before, RollbackCalls(h) - 1, 0);
    AfterBoth(before, RollbackCalls(h) - 1, 1);
    if FirstFailure(before) >= RollbackCalls(h) { SucceedsBefore(before, RollbackCalls(h) - 1); }
  }

  /** The last act: without a commit and without a marker, the snapshot is removed. */
  function Finalized(v: View, committed: bool, exit: Exit, script: seq<Fate>): (View, Exit) {
    if committed || v.pending then (v, exit)
    else match At(script, 0)
      case Died => (v, Crashed)
      case Raised => (v, Code(1))
      case Done => (v.(kept := false), exit)
  }

  /** An exception during the activation, `k` calls into it, with the rest of the script. */
  function Failed(h: Setup, k: nat, rest: seq<Fate>): (View, Exit) {
    var v := Activated(h, k);
    var committed := k >= Commit(h.view);
    if h.streams.stderrDead then Finalized(v, committed, Code(1), rest)
    else
      var after := RolledBack(h, v, FirstFailure(rest));
      match RollbackFate(h, v.pending, rest)
      case Died => (after, Crashed)
      case Raised => Finalized(after, committed, Code(21), After(rest, FirstFailure(rest) + 1))
      case Done => Finalized(after, committed, Code(20), After(rest, RollbackCalls(h)))
  }

  /** The activation met its first failure, `f`, after `k` calls; `rest` is what is left of the script. */
  function ReleasedAt(h: Setup, k: nat, f: Fate, rest: seq<Fate>): (View, Exit) {
    var n := Commit(h.view);
    if k <= n && f.Died? then (Activated(h, k), Crashed)
    else if k < n then Failed(h, k, rest)
    else if (k == n && h.streams.stderrDead) || h.streams.stdout.LineDead? then Failed(h, if k == n then n else n + 1, rest)
    else (Activated(h, if k == n then n else n + 1), Code(0))
  }

  /** Past the current link only the marker's removal is left to fail. */
  function Rest(h: Setup, script: seq<Fate>): seq<Fate> {
    After(script, if FirstFailure(script) < Commit(h.view) then FirstFailure(script) + 1 else Commit(h.view) + 1)
  }

  /** From the marker on. */
  function Released(h: Setup, script: seq<Fate>): (View, Exit) {
    ReleasedAt(h, FirstFailure(script), At(script, FirstFailure(script)), Rest(h, script))
  }

  /** The whole run, with the exit code it asks for. */
  function Asked(h: Setup, script: seq<Fate>): (View, Exit) {
    var k := FirstFailure(script);
    if k < CHECKS then (h.view, if At(script, k).Died? then Crashed else Code(1))
    else if h.refused then (h.view, Code(1))
    else if k < ACTIVATE then
      var v := h.view.(pending := k >= MARKED, kept := true);
      if At(script, k).Died? then (v, Crashed) else Finalized(v, false, Code(1), After(script, k + 1))
    else Released(h, After(script, ACTIVATE))
  }

  /** The run after its checks. */
  function Attempted(h: Setup, script: seq<Fate>): (View, Exit) {
    var k := FirstFailure(script);
    if k < PREPARE then
      var v := h.view.(pending := k >= PREPARE - 1, kept := true);
      if At(script, k).Died? then (v, Crashed) else Finalized(v, false, Code(1), After(script, k + 1))
    else Released(h, After(script, PREPARE))
  }

  /** The activation prints its success line, whether or not the stream takes it. */
  predicate ReportsAt(h: Setup, k: nat, f: Fate) {
    k > Commit(h.view) || (k == Commit(h.view) && f.Raised? && !h.streams.stderrDead)
  }

  predicate ActivationReports(h: Setup, script: seq<Fate>) {
    ReportsAt(h, FirstFailure(script), At(script, FirstFailure(script)))
  }

  predicate Reports(h: Setup, script: seq<Fate>) {
    !h.refused && FirstFailure(script) >= ACTIVATE && ActivationReports(h, After(script, ACTIVATE))
  }

  /** A line is left in a buffer. With a dead standard error the first line there ends the run, and only code 0 has none. */
  predicate LosesALine(streams: Streams, asked: Exit, reports: bool) {
    (streams.stdout != Works && reports) || (streams.stderrDead && asked != Code(0))
  }

  function Seen(streams: Streams, asked: Exit, reports: bool): Exit {
    if asked.Code? && LosesALine(streams, asked, reports) then Code(120) else asked
  }

  lemma SilentCodesAt(h: Setup, k: nat, f: Fate, rest: seq<Fate>)
    requires h.streams.stderrDead
    ensures ReleasedAt(h, k, f, rest).1 in {Code(0), Code(1), Crashed}
  {
  }

  lemma SilentCodes(h: Setup, script: seq<Fate>)
    requires h.streams.stderrDead
    ensures Asked(h, script).1 in {Code(0), Code(1), Crashed}
  {
    if !h.refused && FirstFailure(script) >= ACTIVATE {
      var s := After(script, ACTIVATE);
      SilentCodesAt(h, FirstFailure(s), At(s, FirstFailure(s)), Rest(h, s));
    }
  }

  /** What is left behind, and the exit code the caller sees. */
  function Outcome(h: Setup, script: seq<Fate>): (View, Exit) {
    var (t, asked) := Asked(h, script);
    (t, Seen(h.streams, asked, Reports(h, script)))
  }

  lemma AskedAfterTheChecks(h: Setup, script: seq<Fate>)
    requires !h.refused && FirstFailure(script) >= CHECKS
    ensures Asked(h, script) == Attempted(h, After(script, CHECKS))
    ensures Reports(h, script) ==
            (FirstFailure(After(script, CHECKS)) >= PREPARE && ActivationReports(h, After(After(script, CHECKS), PREPARE)))
  {
    var k := FirstFailure(script);
    FailureAfter(script, CHECKS);
    if k >= ACTIVATE {
      AfterBoth(script, CHECKS, PREPARE);
    } else {
      AfterBoth(script, CHECKS, k - CHECKS);
      AfterBoth(script, CHECKS, k - CHECKS + 1);
    }
  }

  // ---------------------------------------------------------------- promises

  /** The refusals come before anything is written; past them there is no marker and the settings are the current pair's. */
  predicate Ready(h: Setup) {
    && h.view.current != Some(h.snapshot) && !h.view.kept
    && (!h.refused ==> !h.view.pending)
    && (!h.refused && h.view.current.Some? ==>
          h.files.Some? && h.files.value.web == h.view.web && h.files.value.console == h.view.console)
  }

  /**
   * What an exit code promises: released, rolled back, stuck with its evidence, or nothing happened. Code 120
   * says that the code asked for was lost, and still promises one of the first, the third and the last.
   */
  predicate Promise(h: Setup, t: View, exit: Exit) {
    exit.Code? ==>
      match exit.value
      case 0 => Switched(h, t)
      case 20 => t == h.view
      case 21 => Stuck(t) && t.current == h.view.current
      case 1 => Untouched(h, t)
      case 120 => Switched(h, t) || Stuck(t) || Untouched(h, t)
      case _ => false
  }

  /** Only a new snapshot may be left over. */
  predicate Untouched(h: Setup, t: View) { t.(kept := h.view.kept) == h.view }

  /** The marker keeps every later run out, and the snapshot is there to look at. */
  predicate Stuck(t: View) { t.pending && t.kept }

  predicate Switched(h: Setup, t: View) {
    && t.current == Some(h.snapshot) && t.web == h.c.web && t.console == h.c.console
    && t.previous == if h.view.current.Some? then h.view.current else h.view.previous
  }

  /** Without the marker, the settings are those of the current pair. */
  predicate Consistent(h: Setup, t: View) {
    || t.pending
    || ((t.current == Some(h.snapshot) ==> t.web == h.c.web && t.console == h.c.console)
        && (t.current == h.view.current && t.current.Some? && h.files.Some? ==>
              t.web == h.files.value.web && t.console == h.files.value.console))
  }

  /** The links always point at snapshots that are there. */
  predicate LinksKept(h: Setup, t: View) {
    && (t.current == h.view.current || (t.current == Some(h.snapshot) && t.kept))
    && (t.previous == h.view.previous || t.previous == h.view.current)
  }

  lemma FailureKeepsLinks(h: Setup, k: nat, rest: seq<Fate>)
    ensures LinksKept(h, Failed(h, k, rest).0)
  {
  }

  lemma ReleaseKeepsLinks(h: Setup, k: nat, f: Fate, rest: seq<Fate>)
    ensures LinksKept(h, ReleasedAt(h, k, f, rest).0)
  {
    FailureKeepsLinks(h, k, rest);
    FailureKeepsLinks(h, Commit(h.view) + 1, rest);
  }

  lemma LinksAreKept(h: Setup, script: seq<Fate>)
    ensures LinksKept(h, Outcome(h, script).0)
  {
    if !h.refused && FirstFailure(script) >= ACTIVATE {
      var s := After(script, ACTIVATE);
      assert Asked(h, script) == ReleasedAt(h, FirstFailure(s), At(s, FirstFailure(s)), Rest(h, s));
      ReleaseKeepsLinks(h, FirstFailure(s), At(s, FirstFailure(s)), Rest(h, s));
    } else {
      assert Asked(h, script).0.current == h.view.current && Asked(h, script).0.previous == h.view.previous;
    }
  }

  // ---------------------------------------------------------------- exactly when they fail

  /** A first pair that goes back after `k` calls has settings on disk that no rollback takes away. */
  predicate SettingsStay(h: Setup, k: nat, rest: seq<Fate>) {
    && h.view.current.None? && h.legacy && FirstFailure(rest) >= RollbackCalls(h)
    && ((k >= 2 && h.c.web != h.view.web) || (k >= 5 && h.c.console != h.view.console))
  }

  /** After `r` of its calls a rollback has taken something visible of the new pair away. */
  predicate TakesBack(h: Setup, r: nat) {
    && h.view.current.Some?
    && ((r >= 2 && h.view.web != h.c.web) || (r >= 5 && h.view.console != h.c.console)
        || (r >= RollbackCalls(h) - 1 && h.view.previous != h.view.current))
  }

  /**
   * The activation ends in a way no exit code describes: a first pair's settings stay, or the line that says it
   * succeeded raises and the rollback that follows reaches the new pair, with no marker left to tell.
   */
  predicate BreaksAt(h: Setup, k: nat, f: Fate, rest: seq<Fate>) {
    var n, r := Commit(h.view), FirstFailure(rest);
    && !h.streams.stderrDead
    && ((k < n && f.Raised? && SettingsStay(h, k, rest))
        || (k == n && f.Raised? && h.streams.stdout.LineDead? && r >= RollbackCalls(h) && TakesBack(h, r))
        || (k > n && h.streams.stdout.LineDead? && TakesBack(h, r)))
  }

  predicate ActivationBreaks(h: Setup, script: seq<Fate>) {
    BreaksAt(h, FirstFailure(script), At(script, FirstFailure(script)), Rest(h, script))
  }

  /** Or the marker's write raises with the marker already there, and the run ends as a preflight failure. */
  predicate Breaks(h: Setup, script: seq<Fate>) {
    var k := FirstFailure(script);
    && !h.refused
    && ((k == MARKED && At(script, k).Raised? && !h.streams.stderrDead)
        || (k >= ACTIVATE && ActivationBreaks(h, After(script, ACTIVATE))))
  }

  lemma FailureIsPromised(h: Setup, k: nat, rest: seq<Fate>)
    requires Ready(h) && !h.refused && k < Commit(h.view) && !h.streams.stderrDead
    ensures var (t, exit) := Failed(h, k, rest);
            exit.Code? ==> exit.value in {1, 20, 21} && (Promise(h, t, exit) <==> !SettingsStay(h, k, rest))
  {
  }

  /** After the current link the marker, if it is still there, and the new link are all a failure can show. */
  lemma LateFailureIsPromised(h: Setup, marked: bool, rest: seq<Fate>)
    requires Ready(h) && !h.refused && !h.streams.stderrDead
    ensures var (t, exit) := Failed(h, Commit(h.view) + if marked then 0 else 1, rest);
            var r := FirstFailure(rest);
            exit.Code? ==>
              exit != Code(0) && (Promise(h, t, Code(120)) <==> !((marked ==> r >= RollbackCalls(h)) && TakesBack(h, r)))
  {
  }

  /** A dead standard error ends the activation where it is. */
  lemma SilentFailureIsPromised(h: Setup, k: nat, rest: seq<Fate>)
    requires Ready(h) && !h.refused && h.streams.stderrDead && k <= Commit(h.view) + 1
    ensures var (t, exit) := Failed(h, k, rest);
            exit.Code? ==> exit == Code(1) && Promise(h, t, Code(120))
  {
  }

  lemma ReleaseIsPromised(h: Setup, k: nat, f: Fate, rest: seq<Fate>)
    requires Ready(h) && !h.refused && f != Done
    ensures var (t, asked) := ReleasedAt(h, k, f, rest);
            var exit := Seen(h.streams, asked, ReportsAt(h, k, f));
            exit.Code? ==> (Promise(h, t, exit) <==> !BreaksAt(h, k, f, rest))
  {
    var n := Commit(h.view);
    if h.streams.stderrDead {
      SilentFailureIsPromised(h, if k <= n then k else n + 1, rest);
    } else if k < n {
      FailureIsPromised(h, k, rest);
    } else {
      LateFailureIsPromised(h, k == n, rest);
    }
  }

  lemma PreflightIsPromised(h: Setup, script: seq<Fate>)
    requires Ready(h) && (h.refused || FirstFailure(script) < ACTIVATE)
    ensures var (t, exit) := Outcome(h, script);
            exit.Code? ==> (Promise(h, t, exit) <==> !Breaks(h, script))
  {
  }

  lemma ActivationIsPromised(h: Setup, script: seq<Fate>)
    requires Ready(h) && !h.refused && FirstFailure(script) >= ACTIVATE
    ensures var (t, exit) := Outcome(h, script);
            exit.Code? ==> (Promise(h, t, exit) <==> !Breaks(h, script))
  {
    var s := After(script, ACTIVATE);
    ReleaseIsPromised(h, FirstFailure(s), At(s, FirstFailure(s)), Rest(h, s));
  }

  /** For every run, candidate and pair of streams: the exit code tells the truth unless the run breaks as named. */
  lemma PromisesHoldExactly(h: Setup, script: seq<Fate>)
    requires Ready(h)
    ensures var (t, exit) := Outcome(h, script);
            exit.Code? ==> (Promise(h, t, exit) <==> !Breaks(h, script))
  {
    if h.refused || FirstFailure(script) < ACTIVATE {
      PreflightIsPromised(h, script);
    } else {
      ActivationIsPromised(h, script);
    }
  }

  /** A rollback after the current link put other settings under it. */
  predicate ActivationMismatches(h: Setup, script: seq<Fate>) {
    var k, n := FirstFailure(script), Commit(h.view);
    var rollback := FirstFailure(After(script, n + 1));
    && h.streams.stdout.LineDead? && !h.streams.stderrDead && h.view.current.Some?
    && ((k > n && ((rollback >= 2 && h.view.web != h.c.web) || (rollback >= 5 && h.view.console != h.c.console)))
        || (k == n && At(script, k).Raised? && rollback >= RollbackCalls(h) && (h.view.web != h.c.web || h.view.console != h.c.console)))
  }

  predicate Mismatches(h: Setup, script: seq<Fate>) {
    !h.refused && FirstFailure(script) >= ACTIVATE && ActivationMismatches(h, After(script, ACTIVATE))
  }

  lemma FailureIsConsistent(h: Setup, k: nat, rest: seq<Fate>)
    requires Ready(h) && !h.refused && k < Commit(h.view)
    ensures Consistent(h, Failed(h, k, rest).0)
  {
  }

  lemma LateFailureMismatches(h: Setup, k: nat, rest: seq<Fate>)
    requires Ready(h) && !h.refused && Commit(h.view) <= k <= Commit(h.view) + 1
    ensures Consistent(h, Failed(h, k, rest).0) <==>
              !(!h.streams.stderrDead && h.view.current.Some?
                && var rollback := FirstFailure(rest);
                   if k > Commit(h.view)
                   then (rollback >= 2 && h.view.web != h.c.web) || (rollback >= 5 && h.view.console != h.c.console)
                   else rollback >= RollbackCalls(h) && (h.view.web != h.c.web || h.view.console != h.c.console))
  {
  }

  lemma ReleaseIsConsistent(h: Setup, script: seq<Fate>)
    requires Ready(h) && !h.refused
    ensures Consistent(h, Released(h, script).0) <==> !ActivationMismatches(h, script)
  {
    var k, n := FirstFailure(script), Commit(h.view);
    if k < n {
      FailureIsConsistent(h, k, After(script, k + 1));
    } else {
      LateFailureMismatches(h, if k == n then n else n + 1, After(script, n + 1));
    }
  }

  /** At every exit and every crash point: no marker means matching settings, unless output raised after the commit. */
  lemma ConsistentExactly(h: Setup, script: seq<Fate>)
    requires Ready(h) && Consistent(h, h.view)
    ensures Consistent(h, Outcome(h, script).0) <==> !Mismatches(h, script)
  {
    if !h.refused && FirstFailure(script) >= ACTIVATE {
      ReleaseIsConsistent(h, After(script, ACTIVATE));
    }
  }

  /** With a standard error that works, code 120 means that the success line was printed and nothing went wrong before. */
  lemma LostOutputMeansReleased(h: Setup, script: seq<Fate>)
    requires Ready(h) && !h.streams.stderrDead && !h.streams.stdout.LineDead? && Outcome(h, script).1 == Code(120)
    ensures Switched(h, Outcome(h, script).0) && Outcome(h, script).0.kept
    ensures FirstFailure(script) >= ACTIVATE + Commit(h.view)
  {
    OnlyALostLineIs120(h, script);
    var s := After(script, ACTIVATE);
    FailureAfter(script, ACTIVATE);
    ReportedReleaseIsInPlace(h, FirstFailure(s), At(s, FirstFailure(s)), After(s, Commit(h.view) + 1));
  }

  lemma NothingAsksFor120(h: Setup, k: nat, f: Fate, rest: seq<Fate>)
    ensures ReleasedAt(h, k, f, rest).1 != Code(120)
  {
  }

  /** Nothing asks for code 120: it is seen iff the process ended with a line left in a buffer. */
  lemma OnlyALostLineIs120(h: Setup, script: seq<Fate>)
    ensures Outcome(h, script).1 == Code(120) <==>
            Asked(h, script).1.Code? && LosesALine(h.streams, Asked(h, script).1, Reports(h, script))
  {
    if !h.refused && FirstFailure(script) >= ACTIVATE {
      var s := After(script, ACTIVATE);
      NothingAsksFor120(h, FirstFailure(s), At(s, FirstFailure(s)), Rest(h, s));
    }
  }

  lemma ReportedReleaseIsInPlace(h: Setup, k: nat, f: Fate, rest: seq<Fate>)
    requires ReportsAt(h, k, f) && !h.streams.stderrDead && !h.streams.stdout.LineDead?
    ensures ReleasedAt(h, k, f, rest) == (Activated(h, if k == Commit(h.view) then k else Commit(h.view) + 1), Code(0))
  {
  }

  /** With a dead one, code 0 still means released without a marker, and every other code is 120. */
  lemma DeadErrorLeavesTwoCodes(h: Setup, script: seq<Fate>)
    requires Ready(h) && h.streams.stderrDead && Outcome(h, script).1.Code?
    ensures var (t, exit) := Outcome(h, script);
            && exit.value in {0, 120} && Promise(h, t, exit)
            && (exit.value == 0 ==> !t.pending)
  {
    PromisesHoldExactly(h, script);
  }

  /**
   * Unless standard output is a terminal that died, every exit and every crash is consistent. But for a rollback
   * to the single application, the code is truthful as well, with one exception when standard error works.
   */
  lemma WithoutATerminal(h: Setup, script: seq<Fate>)
    requires Ready(h) && Consistent(h, h.view) && !h.streams.stdout.LineDead?
    ensures Consistent(h, Outcome(h, script).0)
    ensures (h.view.current.Some? || !h.legacy) && Outcome(h, script).1.Code? ==>
              (Promise(h, Outcome(h, script).0, Outcome(h, script).1) <==>
                 h.refused || h.streams.stderrDead || FirstFailure(script) != MARKED || !At(script, MARKED).Raised?)
  {
    ConsistentExactly(h, script);
    PromisesHoldExactly(h, script);
  }

  lemma FailureKeepsTheLink(h: Setup, k: nat, rest: seq<Fate>)
    ensures Failed(h, k, rest).0.current == Activated(h, k).current
  {
  }

  lemma EarlyReleaseKeepsTheLink(h: Setup, script: seq<Fate>)
    requires FirstFailure(script) < Commit(h.view)
    ensures Released(h, script).0.current == h.view.current
  {
    FailureKeepsTheLink(h, FirstFailure(script), After(script, FirstFailure(script) + 1));
  }

  /** Whatever standard output does, a run that does not reach the current link keeps it and stays consistent. */
  lemma BeforeTheLinkNothingIsLost(h: Setup, script: seq<Fate>)
    requires Ready(h) && Consistent(h, h.view) && FirstFailure(script) < ACTIVATE + Commit(h.view)
    ensures Consistent(h, Outcome(h, script).0) && Outcome(h, script).0.current == h.view.current
    ensures (h.view.current.Some? || !h.legacy) && Outcome(h, script).1.Code? ==>
              (Promise(h, Outcome(h, script).0, Outcome(h, script).1) <==>
                 h.refused || h.streams.stderrDead || FirstFailure(script) != MARKED || !At(script, MARKED).Raised?)
  {
    ConsistentExactly(h, script);
    PromisesHoldExactly(h, script);
    if FirstFailure(script) >= ACTIVATE {
      FailureAfter(script, ACTIVATE);
      EarlyReleaseKeepsTheLink(h, After(script, ACTIVATE));
    }
  }

  // ---------------------------------------------------------------- runs that go well

  const FINE := Streams(Works, false)

  /** When every call succeeds the release is in place, without a marker. */
  lemma CleanRunsRelease(h: Setup, script: seq<Fate>)
    requires !h.refused && h.streams == FINE && FirstFailure(script) > ACTIVATE + Commit(h.view)
    ensures var (t, exit) := Outcome(h, script);
            exit == Code(0) && Switched(h, t) && !t.pending && t.kept
  {
    FailureAfter(script, ACTIVATE);
  }

  /** When the preflight fails and its snapshot can be removed, nothing is left of it. */
  lemma CleanRefusalsLeaveNothing(h: Setup, script: seq<Fate>)
    requires Ready(h) && !h.refused && h.streams == FINE && FirstFailure(script) < MARKED && At(script, FirstFailure(script)).Raised?
    requires FirstFailure(script) >= CHECKS ==> At(script, FirstFailure(script) + 1).Done?
    ensures Outcome(h, script) == (h.view, Code(1))
  {
    AfterBoth(script, FirstFailure(script) + 1, 0);
  }

  /** When the candidate fails after the marker and the rollback does not, the pair is as it was. */
  lemma CleanRollbacksRestore(h: Setup, script: seq<Fate>)
    requires Ready(h) && !h.refused && h.streams == FINE && h.view.current.Some?
    requires ACTIVATE <= FirstFailure(script) < ACTIVATE + Commit(h.view) && At(script, FirstFailure(script)).Raised?
    requires FirstFailure(After(script, FirstFailure(script) + 1)) > RollbackCalls(h)
    ensures Outcome(h, script) == (h.view, Code(20))
  {
    var s := After(script, ACTIVATE);
    FailureAfter(script, ACTIVATE);
    AfterBoth(script, ACTIVATE, FirstFailure(s));
    AfterBoth(script, ACTIVATE, FirstFailure(s) + 1);
    RollbackRestores(h, FirstFailure(s), Rest(h, s));
    ActivationRollsBack(h, s);
  }

  lemma ActivationRollsBack(h: Setup, script: seq<Fate>)
    requires FirstFailure(script) < Commit(h.view) && At(script, FirstFailure(script)).Raised?
    ensures Released(h, script) == Failed(h, FirstFailure(script), Rest(h, script)) && !ActivationReports(h, script)
  {
  }

  lemma RollbackRestores(h: Setup, k: nat, rest: seq<Fate>)
    requires Ready(h) && !h.refused && h.streams == FINE && h.view.current.Some? && k < Commit(h.view)
    requires FirstFailure(rest) > RollbackCalls(h)
    ensures Failed(h, k, rest) == (h.view, Code(20))
  {
    FailureAfter(rest, RollbackCalls(h));
    SucceedsBefore(rest, RollbackCalls(h));
    AfterBoth(rest, RollbackCalls(h), 0);
  }

  // ---------------------------------------------------------------- runs that break

  function Dones(n: nat): seq<Fate> { seq(n, _ => Done) }

  /** Every call succeeds but one. */
  function OneRaised(n: nat, m: nat): seq<Fate> { Dones(n) + [Raised] + Dones(m) }

  lemma WhereTheyFail(n: nat, m: nat)
    ensures FirstFailure(Dones(n)) == n && FirstFailure(OneRaised(n, m)) == n && At(OneRaised(n, m), n) == Raised
    ensures After(OneRaised(n, m), n + 1) == Dones(m)
  {
    FailureIs(Dones(n), n);
    FailureIs(OneRaised(n, m), n);
  }

  lemma LaterDones(n: nat, m: nat)
    requires m <= n
    ensures After(Dones(n), m) == Dones(n - m)
  {
  }

  lemma LaterFailure(n: nat, m: nat, k: nat)
    requires k <= n
    ensures After(OneRaised(n, m), k) == OneRaised(n - k, m)
  {
  }

  /** A pair with settings 1, about to be replaced by one with settings 2. */
  function SecondPair(streams: Streams): Setup {
    Setup(View(Some(0), None, false, 1, 1, false), Some(Files(0, 1, 1, 0, None)), false, false, streams,
          Candidate(true, 1, Some(0), 2, 2, false), 1)
  }

  /** The same over the single application from before the pairs. */
  function FirstPair(streams: Streams): Setup {
    Setup(View(None, None, false, 1, 1, false), None, true, false, streams, Candidate(true, 1, None, 2, 2, false), 1)
  }

  /** A dead terminal: everything succeeds, and the old settings come back under the new link. */
  lemma DeadTerminalUndoesACommit()
    ensures Outcome(SecondPair(Streams(LineDead, false)), Dones(60)) ==
            (View(Some(1), None, false, 1, 1, true), Code(120))
  {
    WhereTheyFail(60, 0);
    LaterDones(60, ACTIVATE);
    DeadTerminalTakesTheReleaseBack(43);
  }

  lemma DeadTerminalTakesTheReleaseBack(n: nat)
    requires n >= 32
    ensures var h := SecondPair(Streams(LineDead, false));
            Released(h, Dones(n)) == (View(Some(1), None, false, 1, 1, true), Code(21)) && ActivationReports(h, Dones(n))
  {
    WhereTheyFail(n, 0);
    LaterDones(n, 18);
    DeadTerminalRollsBack(n - 18);
  }

  lemma DeadTerminalRollsBack(n: nat)
    requires n >= 14
    ensures Failed(SecondPair(Streams(LineDead, false)), 18, Dones(n)) == (View(Some(1), None, false, 1, 1, true), Code(21))
  {
    WhereTheyFail(n, 0);
  }

  /** The same with a marker that cannot be removed at first: the rollback succeeds, and asks for code 20. */
  lemma DeadTerminalCompletesARollback()
    ensures Asked(SecondPair(Streams(LineDead, false)), OneRaised(ACTIVATE + 17, 30)).1 == Code(20)
    ensures Outcome(SecondPair(Streams(LineDead, false)), OneRaised(ACTIVATE + 17, 30)) ==
            (View(Some(1), None, false, 1, 1, true), Code(120))
  {
    WhereTheyFail(ACTIVATE + 17, 30);
    LaterFailure(ACTIVATE + 17, 30, ACTIVATE);
    WhereTheyFail(17, 30);
    WhereTheyFail(30, 0);
  }

  /**
   * A dead standard error turns three different ends into code 120: nothing happened; a failed probe left the
   * new settings and the marker; a release is in place and its marker was not removed.
   */
  lemma DeadErrorHidesTheEnd()
    ensures Outcome(SecondPair(Streams(Works, true)), OneRaised(0, 30)) ==
            (SecondPair(Streams(Works, true)).view, Code(120))
    ensures Outcome(SecondPair(Streams(Works, true)), OneRaised(ACTIVATE + 8, 30)) ==
            (View(Some(0), None, true, 2, 2, true), Code(120))
    ensures Outcome(SecondPair(Streams(Works, true)), OneRaised(ACTIVATE + 17, 30)) ==
            (View(Some(1), Some(0), true, 2, 2, true), Code(120))
  {
    WhereTheyFail(0, 30);
    DeadErrorAt(8);
    DeadErrorAt(17);
  }

  lemma DeadErrorAt(k: nat)
    requires 5 <= k <= 17
    ensures var h := SecondPair(Streams(Works, true));
            Outcome(h, OneRaised(ACTIVATE + k, 30)) == (Activated(h, k), Code(120))
  {
    WhereTheyFail(ACTIVATE + k, 30);
    LaterFailure(ACTIVATE + k, 30, ACTIVATE);
    WhereTheyFail(k, 30);
  }

  /** The marker's own last call raises: a preflight failure that leaves the marker. */
  lemma MarkerOutlivesItsWrite()
    ensures Outcome(SecondPair(Streams(Works, false)), OneRaised(MARKED, 30)) ==
            (View(Some(0), None, true, 1, 1, true), Code(1))
  {
    WhereTheyFail(MARKED, 30);
  }

  /** A first pair whose probe fails is reported as rolled back, with the candidate's settings on disk. */
  lemma FirstPairKeepsNewSettings()
    ensures Outcome(FirstPair(Streams(Works, false)), OneRaised(ACTIVATE + 8, 30)) ==
            (View(None, None, false, 2, 2, false), Code(20))
  {
    WhereTheyFail(ACTIVATE + 8, 30);
    LaterFailure(ACTIVATE + 8, 30, ACTIVATE);
    WhereTheyFail(8, 30);
    WhereTheyFail(30, 0);
    LaterDones(30, 4);
  }

  /** Exit code 20 of a first pair: only the settings may differ, and they do iff a write took effect and wrote something else. */
  lemma FirstPairSettingsExactly(h: Setup, script: seq<Fate>)
    requires Ready(h) && !h.refused && h.view.current.None? && Outcome(h, script).1 == Code(20)
    ensures var t, k := Outcome(h, script).0, FirstFailure(script);
            (t.web == h.view.web <==> k < ACTIVATE + 2 || h.c.web == h.view.web)
            && (t.console == h.view.console <==> k < ACTIVATE + 5 || h.c.console == h.view.console)
            && t.(web := h.view.web, console := h.view.console) == h.view
  {
    if FirstFailure(script) >= ACTIVATE {
      FailureAfter(script, ACTIVATE);
      FirstPairRelease(h, After(script, ACTIVATE));
    }
  }

  lemma FirstPairRelease(h: Setup, script: seq<Fate>)
    requires Ready(h) && !h.refused && h.view.current.None?
    requires Seen(h.streams, Released(h, script).1, ActivationReports(h, script)) == Code(20)
    ensures var t, k := Released(h, script).0, FirstFailure(script);
            && t.web == (if k >= 2 then h.c.web else h.view.web) && t.console == (if k >= 5 then h.c.console else h.view.console)
            && t == h.view.(web := t.web, console := t.console)
  {
    FirstPairReleaseAt(h, FirstFailure(script), At(script, FirstFailure(script)), Rest(h, script));
  }

  lemma FirstPairReleaseAt(h: Setup, k: nat, f: Fate, rest: seq<Fate>)
    requires Ready(h) && !h.refused && h.view.current.None? && f != Done
    requires Seen(h.streams, ReleasedAt(h, k, f, rest).1, ReportsAt(h, k, f)) == Code(20)
    ensures var t := ReleasedAt(h, k, f, rest).0;
            && t.web == (if k >= 2 then h.c.web else h.view.web) && t.console == (if k >= 5 then h.c.console else h.view.console)
            && t == h.view.(web := t.web, console := t.console)
  {
    if k < Commit(h.view) {
      FirstPairFailure(h, k, rest);
    } else {
      LateCodesAreLost(h, k, f, rest);
    }
  }

  /** After the current link only a success line that raises asks for code 20, and that line is lost. */
  lemma LateCodesAreLost(h: Setup, k: nat, f: Fate, rest: seq<Fate>)
    requires k >= Commit(h.view) && f != Done
    ensures Seen(h.streams, ReleasedAt(h, k, f, rest).1, ReportsAt(h, k, f)) != Code(20)
  {
  }

  lemma FirstPairFailure(h: Setup, k: nat, rest: seq<Fate>)
    requires Ready(h) && !h.refused && h.view.current.None? && k < Commit(h.view)
    ensures var (t, exit) := Failed(h, k, rest);
            exit == Code(20) ==>
              && t.web == (if k >= 2 then h.c.web else h.view.web) && t.console == (if k >= 5 then h.c.console else h.view.console)
              && t == h.view.(web := t.web, console := t.console)
  {
  }
}
