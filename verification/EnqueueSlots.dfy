/**
 * The runner's front door under concurrent callers: a channel of eight slots and a table of the jobs being
 * enqueued. A caller whose job is in the table already is let in, but owns nothing.
 */
module EnqueueSlots {
  import opened Wrappers

  type Caller = nat
  type JobId = nat

  const MAX_SLOTS := 8

  datatype Door = Door(slots: nat, busy: set<JobId>, inside: map<Caller, Option<JobId>>)

  const OPEN_DOOR := Door(0, {}, map[])

  datatype DoorStep = Enter(caller: Caller, job: JobId) | Leave(caller: Caller)

  predicate MayHappen(d: Door, step: DoorStep) {
    if step.Enter? then step.caller !in d.inside else step.caller in d.inside
  }

  function Next(d: Door, step: DoorStep): Door {
    match step
    case Enter(c, j) =>
      if d.slots >= MAX_SLOTS then d
      else if j in d.busy then d.(slots := d.slots + 1, inside := d.inside[c := None])
      else Door(d.slots + 1, d.busy + {j}, d.inside[c := Some(j)])
    case Leave(c) =>
      if c !in d.inside || d.slots == 0 then d
      else Door(d.slots - 1, if d.inside[c].Some? then d.busy - {d.inside[c].value} else d.busy, d.inside - {c})
  }

  predicate Owns(d: Door, c: Caller, j: JobId) {
    c in d.inside && d.inside[c] == Some(j)
  }

  /** The slots taken are the callers inside, at most eight, and each busy job has exactly one owner. */
  ghost predicate DoorOk(d: Door) {
    && d.slots == |d.inside.Keys| <= MAX_SLOTS
    && (forall c, j | Owns(d, c, j) :: j in d.busy)
    && (forall j | j in d.busy :: exists c :: Owns(d, c, j))
    && (forall a, b, j | Owns(d, a, j) && Owns(d, b, j) :: a == b)
  }

  lemma EnterKeepsOk(d: Door, c: Caller, j: JobId, t: Door)
    requires DoorOk(d) && c !in d.inside && t == Next(d, Enter(c, j))
    ensures DoorOk(t)
  {
    if d.slots < MAX_SLOTS {
      assert t.inside.Keys == d.inside.Keys + {c};
      forall k | k in t.busy
        ensures exists b :: Owns(t, b, k)
      {
        if k in d.busy {
          var b :| Owns(d, b, k);
          assert Owns(t, b, k);
        } else {
          assert Owns(t, c, k);
        }
      }
      assert forall a, k | Owns(t, a, k) && a != c :: Owns(d, a, k);
    }
  }

  lemma LeaveKeepsOk(d: Door, c: Caller, t: Door)
    requires DoorOk(d) && c in d.inside && t == Next(d, Leave(c))
    ensures DoorOk(t) && c !in t.inside
  {
    assert d.inside.Keys == t.inside.Keys + {c};
    assert d.inside[c].Some? ==> Owns(d, c, d.inside[c].value);
    assert forall a, k | Owns(t, a, k) :: Owns(d, a, k) && a != c;
    forall k | k in t.busy
      ensures exists b :: Owns(t, b, k)
    {
      var b :| Owns(d, b, k);
      assert Owns(t, b, k);
    }
  }

  function Reached(steps: seq<DoorStep>): Door {
    if steps == [] then OPEN_DOOR else Next(Reached(steps[..|steps| - 1]), steps[|steps| - 1])
  }

  predicate ValidRun(steps: seq<DoorStep>) {
    steps == [] || (ValidRun(steps[..|steps| - 1]) && MayHappen(Reached(steps[..|steps| - 1]), steps[|steps| - 1]))
  }

  /** However callers come and go, at most eight are inside and no job is enqueued by two of them at a time. */
  lemma {:induction false} EightAtMostOneEach(steps: seq<DoorStep>)
    requires ValidRun(steps)
    ensures DoorOk(Reached(steps))
    ensures |Reached(steps).inside.Keys| <= MAX_SLOTS
    ensures forall a, b, j | Owns(Reached(steps), a, j) && Owns(Reached(steps), b, j) :: a == b
  {
    if steps != [] {
      var front, last := steps[..|steps| - 1], steps[|steps| - 1];
      EightAtMostOneEach(front);
      match last
      case Enter(c, j) => EnterKeepsOk(Reached(front), c, j, Reached(steps));
      case Leave(c) => LeaveKeepsOk(Reached(front), c, Reached(steps));
    }
  }

  /** A caller is let in iff fewer than eight are inside, owns its job iff nobody else does, and leaves no trace. */
  lemma CallersAreLetIn(d: Door, c: Caller, j: JobId)
    requires DoorOk(d) && c !in d.inside
    ensures var t := Next(d, Enter(c, j));
            && (c in t.inside <==> |d.inside.Keys| < MAX_SLOTS)
            && (Owns(t, c, j) <==> c in t.inside && forall b :: !Owns(d, b, j))
            && (c in t.inside ==> Next(t, Leave(c)) == d) && (c !in t.inside ==> t == d)
  {
    var t := Next(d, Enter(c, j));
    if c in t.inside {
      assert t.inside - {c} == d.inside;
      if j !in d.busy { assert t.busy - {j} == d.busy; }
    }
  }
}
