/**
 * The fixed worker container. Docker answers a command, fails it, or runs it without answering, and a
 * creation that was never answered may still happen later. `moves` is what the daemon does, command
 * by command; when it ends, the process has died and nothing more is observed.
 */
module DockerWorker {
  import opened Wrappers
  import L = VisibilityLease

  type ContainerId = nat

  /** The container that carries the worker's name. Names are unique, so there is at most one. */
  datatype Container = Container(id: ContainerId, labelled: bool, running: bool)

  /** `late` counts creations whose request may still be on its way. */
  datatype Daemon = Daemon(named: Option<Container>, late: nat, nextId: ContainerId)

  /** One command: the daemon's own doings before it, whether it takes effect, and whether it is answered. */
  datatype Move = Move(appears: bool, exits: bool, executes: bool, answered: bool, mayComeLate: bool)

  datatype Mark = ConfirmedAbsent | Started(id: ContainerId)

  datatype Outcome = Result | PayloadRefused | WorkUnconfirmed | Stalled

  /** Unprompted: a late creation happens, or the running container ends and removes itself. */
  function Drift(d: Daemon, m: Move): Daemon {
    var d1 := if m.exits && d.named.Some? && d.named.value.running then d.(named := None) else d;
    if m.appears && d1.late > 0 && d1.named.None?
    then Daemon(Some(Container(d1.nextId, true, false)), d1.late - 1, d1.nextId + 1)
    else d1
  }

  /** The daemon does what it is asked and says so, and a running worker comes to its end. */
  predicate Cooperates(m: Move) { !m.appears && m.exits && m.executes && m.answered }

  predicate CooperatesFor(moves: seq<Move>, n: nat) {
    n <= |moves| && forall i :: 0 <= i < |moves| ==> Cooperates(moves[i])
  }

  /** Nothing of the worker's name is there, or something the runner may remove. */
  predicate Removable(d: Daemon) { d.named.Some? ==> d.named.value.labelled }

  /** Every start follows a confirmation that no earlier container was left. */
  predicate Alternates(marks: seq<Mark>) {
    forall i :: 0 <= i < |marks| && marks[i].Started? ==> i > 0 && marks[i - 1] == ConfirmedAbsent
  }

  class Worker {
    var daemon: Daemon
    var moves: seq<Move>
    var locked: bool
    ghost var marks: seq<Mark>
    /** How many marks there were when this process first saw a stall. */
    ghost var stalledAt: Option<nat>

    /** Nothing is started after a stall. */
    ghost predicate Quiet()
      reads this
    {
      stalledAt.Some? ==>
        stalledAt.value <= |marks| && forall i :: stalledAt.value <= i < |marks| ==> !marks[i].Started?
    }

    ghost method SeeStall()
      requires Valid()
      modifies this`stalledAt
      ensures Valid() && stalledAt == if old(stalledAt).Some? then old(stalledAt) else Some(|marks|)
    {
      if stalledAt.None? { stalledAt := Some(|marks|); }
    }

    /** Whatever was started last is the only container that can be running. */
    ghost predicate Valid()
      reads this
    {
      && Alternates(marks) && Quiet()
      && (daemon.named.Some? ==> daemon.named.value.id < daemon.nextId)
      && (daemon.named.Some? && daemon.named.value.running ==>
            marks != [] && marks[|marks| - 1] == Started(daemon.named.value.id))
    }

    method NextMove() returns (m: Move)
      modifies this`moves
      ensures old(moves) != [] ==> m == old(moves)[0] && moves == old(moves)[1..]
    {
      if moves == [] {
        m := Move(false, false, false, false, true);
      } else {
        m := moves[0];
        moves := moves[1..];
      }
    }

    /** `docker ps`: an answer is the truth at that moment. */
    method Find() returns (ok: bool, id: Option<ContainerId>)
      requires Valid()
      modifies this`daemon, this`moves
      ensures Valid() && daemon.late <= old(daemon).late
      ensures ok ==> id == if daemon.named.Some? then Some(daemon.named.value.id) else None
      ensures old(daemon).named.None? && old(daemon).late == 0 ==> daemon == old(daemon)
      ensures CooperatesFor(old(moves), 1) ==>
                && ok && moves == old(moves)[1..] && (daemon == old(daemon) || daemon.named.None?)
                && (daemon.named.Some? ==> !daemon.named.value.running)
    {
      var m := NextMove();
      daemon := Drift(daemon, m);
      ok := m.answered;
      id := if daemon.named.Some? then Some(daemon.named.value.id) else None;
    }

    method Inspect(id: ContainerId) returns (ok: bool, labelled: bool)
      requires Valid()
      modifies this`daemon, this`moves
      ensures Valid() && daemon.late <= old(daemon).late
      ensures CooperatesFor(old(moves), 1) && old(daemon).named.Some? && !old(daemon).named.value.running && id == old(daemon).named.value.id ==>
                ok && moves == old(moves)[1..] && daemon == old(daemon) && labelled == daemon.named.value.labelled
      ensures ok && labelled ==> Ours(id) && id < daemon.nextId
    {
      var m := NextMove();
      daemon := Drift(daemon, m);
      ok := m.answered && daemon.named.Some? && daemon.named.value.id == id;
      labelled := ok && daemon.named.value.labelled;
    }

    /** The container of this id, if it still runs under the worker's name, is the worker's. */
    predicate Ours(id: ContainerId)
      reads this
    {
      daemon.named.Some? && daemon.named.value.id == id ==> daemon.named.value.labelled
    }

    /** `docker stop` and `docker rm --force`: both remove this very container, if they take effect, and only the worker's own. */
    method Remove(id: ContainerId)
      requires Valid() && Ours(id) && id < daemon.nextId
      modifies this`daemon, this`moves
      ensures Valid() && Ours(id) && id < daemon.nextId && daemon.late <= old(daemon).late
      ensures CooperatesFor(old(moves), 1) && (old(daemon).named.Some? ==> id == old(daemon).named.value.id) ==>
                moves == old(moves)[1..] && daemon.named.None?
    {
      var m := NextMove();
      daemon := Drift(daemon, m);
      if m.executes && daemon.named.Some? && daemon.named.value.id == id { daemon := daemon.(named := None); }
    }

    /** Nil only after a listing that shows no container of the name. */
    method Clear() returns (stalled: bool)
      requires Valid()
      modifies this`daemon, this`moves, this`marks
      ensures Valid() && daemon.late <= old(daemon).late
      ensures !stalled ==> daemon.named.None? && marks == old(marks) + [ConfirmedAbsent]
      ensures stalled ==> marks == old(marks)
      // A daemon that cooperates leaves nothing to stall on.
      ensures CooperatesFor(old(moves), 1) && old(daemon).named.None? ==> !stalled && moves == old(moves)[1..]
      ensures CooperatesFor(old(moves), 5) && Removable(old(daemon)) ==> !stalled && CooperatesFor(moves, |old(moves)| - 5)
    {
      stalled := true;
      var ok, id := Find();
      if !ok { return; }
      if id.None? {
        marks := marks + [ConfirmedAbsent];
        return false;
      }
      var known, labelled := Inspect(id.value);
      if !known {
        var again, left := Find();
        if again && left.None? {
          marks := marks + [ConfirmedAbsent];
          return false;
        }
        return;
      }
      if !labelled { return; }
      Remove(id.value);
      Remove(id.value);
      var listed, remaining := Find();
      if !listed || remaining.Some? { return; }
      marks := marks + [ConfirmedAbsent];
      stalled := false;
    }

    /** Every other path is a stall. */
    method Cleanup() returns (stalled: bool)
      requires Valid()
      modifies this`daemon, this`moves, this`marks, this`stalledAt
      ensures Valid() && daemon.late <= old(daemon).late
      ensures !stalled ==> daemon.named.None? && marks == old(marks) + [ConfirmedAbsent] && stalledAt == old(stalledAt)
      ensures stalled ==> marks == old(marks) && stalledAt.Some?
      ensures old(stalledAt).Some? ==> stalledAt == old(stalledAt)
      // A daemon that cooperates leaves nothing to stall on.
      ensures CooperatesFor(old(moves), 1) && old(daemon).named.None? ==> !stalled && moves == old(moves)[1..]
      ensures CooperatesFor(old(moves), 5) && Removable(old(daemon)) ==> !stalled && CooperatesFor(moves, |old(moves)| - 5)
    {
      stalled := Clear();
      if stalled { SeeStall(); }
    }

    /** A creation that was not answered can still happen, unless it is known to have failed. */
    method Create() returns (id: Option<ContainerId>)
      requires Valid()
      modifies this`daemon, this`moves
      ensures Valid()
      ensures id.Some? ==> daemon.late <= old(daemon).late
                           && daemon.named == Some(Container(id.value, true, false))
      ensures CooperatesFor(old(moves), 1) && old(daemon).named.None? ==> id.Some? && moves == old(moves)[1..]
    {
      var m := NextMove();
      daemon := Drift(daemon, m);
      id := None;
      if m.executes && daemon.named.None? {
        var created := daemon.nextId;
        daemon := daemon.(named := Some(Container(created, true, false)), nextId := created + 1);
        if m.answered { id := Some(created); }
      } else if !m.executes && m.mayComeLate {
        daemon := daemon.(late := daemon.late + 1);
      }
    }

    /** `docker start --attach`: an answered start has run to its end. */
    method Start(id: ContainerId) returns (ok: bool)
      requires Valid() && daemon.named == Some(Container(id, true, false)) && stalledAt.None?
      requires marks != [] && marks[|marks| - 1] == ConfirmedAbsent
      modifies this`daemon, this`moves, this`marks
      ensures Valid() && daemon.late <= old(daemon).late
      ensures marks == old(marks) || marks == old(marks) + [Started(id)]
      ensures CooperatesFor(old(moves), 1) ==> ok && moves == old(moves)[1..] && daemon.named.None? && marks == old(marks) + [Started(id)]
    {
      var m := NextMove();
      ok := false;
      if m.executes {
        marks := marks + [Started(id)];
        daemon := daemon.(named := Some(Container(id, true, true)));
        if m.exits { daemon := daemon.(named := None); }
        ok := m.answered;
      }
    }

    /**
     * One analysis. Unless it is refused at the door, it ends with the container's absence confirmed
     * and no creation of its own outstanding, or stalled; and it starts at most one container.
     */
    method Run(valid: bool) returns (outcome: Outcome)
      requires Valid() && stalledAt.None?
      modifies this
      ensures Valid() && locked == old(locked)
      ensures outcome.Stalled? <==> stalledAt.Some?
      ensures outcome.PayloadRefused? || (old(locked) && outcome.WorkUnconfirmed?) ==>
                daemon == old(daemon) && marks == old(marks)
      ensures !outcome.Stalled? && !outcome.PayloadRefused? && !old(locked) ==>
                daemon.named.None? && daemon.late <= old(daemon).late
                && marks != [] && marks[|marks| - 1] == ConfirmedAbsent
      ensures old(marks) <= marks && |marks| <= |old(marks)| + 3
      // A daemon that cooperates runs every valid job to its result.
      ensures CooperatesFor(old(moves), 4) && old(daemon).named.None? && valid && !old(locked) ==>
                outcome.Result? && moves == old(moves)[4..] && |marks| == |old(marks)| + 3
      ensures !valid ==> outcome.PayloadRefused? && moves == old(moves)
    {
      if !valid { return PayloadRefused; }
      if locked { return WorkUnconfirmed; }
      locked := true;
      var stalled := Cleanup();
      if stalled {
        locked := false;
        return Stalled;
      }
      outcome := CreateAndStart();
      var left := Cleanup();
      locked := false;
      if left { outcome := Stalled; }
    }

    /** Between the two cleanups. A creation without a valid answer is a stall, whatever cleanup finds. */
    method CreateAndStart() returns (outcome: Outcome)
      requires Valid() && daemon.named.None? && stalledAt.None?
      requires marks != [] && marks[|marks| - 1] == ConfirmedAbsent
      modifies this`daemon, this`moves, this`marks, this`stalledAt
      ensures Valid() && !outcome.PayloadRefused?
      ensures outcome.Stalled? <==> stalledAt.Some?
      ensures !outcome.Stalled? ==> daemon.late <= old(daemon).late
      ensures old(marks) <= marks && |marks| <= |old(marks)| + 1
      ensures CooperatesFor(old(moves), 2) ==>
                outcome.Result? && moves == old(moves)[2..] && daemon.named.None? && |marks| == |old(marks)| + 1
    {
      var id := Create();
      if id.None? {
        SeeStall();
        return Stalled;
      }
      var ok := Start(id.value);
      outcome := if ok then Result else WorkUnconfirmed;
    }

    /**
     * The service: a cleanup before the first poll, then job after job until one stalls, and a last
     * cleanup on the way out. Nothing is started after a stall, and an orderly end leaves no container.
     * It may be called in any state an earlier process left behind.
     */
    method Serve(jobs: seq<bool>) returns (stalled: bool, done: nat)
      requires Valid() && !locked && stalledAt.None?
      modifies this
      ensures Valid() && old(marks) <= marks && done <= |jobs|
      // It ends early only because of a stall, and after the first one nothing is started.
      ensures stalled <==> stalledAt.Some?
      ensures done < |jobs| ==> stalled
      ensures stalled ==> forall i :: stalledAt.value <= i < |marks| ==> !marks[i].Started?
      ensures !stalled ==> done == |jobs| && daemon.named.None? && daemon.late <= old(daemon).late
      // It works off all jobs when the daemon cooperates, whatever of its own was left over.
      ensures CooperatesFor(old(moves), 5 * |jobs| + 6) && Removable(old(daemon)) ==> !stalled && done == |jobs|
    {
      done := 0;
      stalled := Cleanup();
      if stalled { return; }
      while done < |jobs| && !stalled
        invariant Valid() && !locked && done <= |jobs| && old(marks) <= marks
        invariant stalled <==> stalledAt.Some?
        invariant !stalled ==> daemon.named.None? && daemon.late <= old(daemon).late
        invariant CooperatesFor(old(moves), 5 * |jobs| + 6) && Removable(old(daemon)) ==>
                    !stalled && CooperatesFor(moves, 5 * (|jobs| - done) + 1)
        decreases |jobs| - done, !stalled
      {
        stalled := Cleanup();
        if !stalled {
          var outcome := Run(jobs[done]);
          stalled := outcome.Stalled?;
        }
        if !stalled { done := done + 1; }
      }
      ghost var started := marks;
      var left := Cleanup();
      assert started <= marks;
      stalled := stalled || left;
    }
  }

  // ---------------------------------------------------------------- time

  const WAIT_DELAY := 2_000
  const CLEANUP_DEADLINE := 10_000

  /** When a command begun at `begin` is over: its context kills it, and its pipes are cut `WAIT_DELAY` later. */
  function CommandEnd(begin: int, over: int, takes: nat): int {
    if begin >= over then begin
    else if begin + takes <= over + WAIT_DELAY then begin + takes else over + WAIT_DELAY
  }

  /** Commands one after the other under contexts that end no later than `over`. */
  function SequenceEnd(begin: int, over: int, takes: seq<nat>): int
    decreases |takes|
  {
    if takes == [] then begin else SequenceEnd(CommandEnd(begin, over, takes[0]), over, takes[1..])
  }

  lemma {:induction false} SequencesEndSoonAfterTheirContext(begin: int, over: int, takes: seq<nat>)
    ensures begin <= SequenceEnd(begin, over, takes)
    ensures SequenceEnd(begin, over, takes) <= if begin >= over then begin else over + WAIT_DELAY
    decreases |takes|
  {
    if takes == [] {
    } else {
      SequencesEndSoonAfterTheirContext(CommandEnd(begin, over, takes[0]), over, takes[1..]);
    }
  }

  /** From the cancellation: the command under way and its pipes, then the cleanup and its pipes. */
  const CANCEL_TO_CLEAN := WAIT_DELAY + CLEANUP_DEADLINE + WAIT_DELAY

  function CleanAt(begin: int, cancelled: int, running: seq<nat>, cleaning: seq<nat>): int {
    var stopped := SequenceEnd(begin, cancelled, running);
    SequenceEnd(stopped, stopped + CLEANUP_DEADLINE, cleaning)
  }

  /**
   * A run cancelled no later than 16 s after the lease limit has finished its last command and its
   * whole cleanup, however long each command wanted to take, before the message is shown again.
   */
  lemma CleanupFitsTheMargin(s: L.Lease, begin: int, cancelled: int, running: seq<nat>, cleaning: seq<nat>)
    requires L.Safe(s) && begin <= cancelled
    ensures CleanAt(begin, cancelled, running, cleaning) <= cancelled + CANCEL_TO_CLEAN
    ensures cancelled <= s.until + 16_000 ==> CleanAt(begin, cancelled, running, cleaning) <= s.visibleUntil
  {
    SequencesEndSoonAfterTheirContext(begin, cancelled, running);
    var stopped := SequenceEnd(begin, cancelled, running);
    SequencesEndSoonAfterTheirContext(stopped, stopped + CLEANUP_DEADLINE, cleaning);
  }

  /** The bound is reached: the same delay after the limit is the most that the margin can absorb. */
  lemma TheMarginAbsorbsNoMore(begin: int, cancelled: int)
    requires begin < cancelled
    ensures CleanAt(begin, cancelled, [cancelled - begin + WAIT_DELAY], [CLEANUP_DEADLINE + WAIT_DELAY]) == cancelled + CANCEL_TO_CLEAN
    ensures CANCEL_TO_CLEAN + 16_000 == L.MARGIN
  {
    OneCommand(begin, cancelled, cancelled - begin + WAIT_DELAY);
    OneCommand(cancelled + WAIT_DELAY, cancelled + WAIT_DELAY + CLEANUP_DEADLINE, CLEANUP_DEADLINE + WAIT_DELAY);
  }

  lemma OneCommand(begin: int, over: int, takes: nat)
    ensures SequenceEnd(begin, over, [takes]) == CommandEnd(begin, over, takes)
  {
  }
}
