/** One undisturbed run of the two programs with one wire, up to the supervisor's return. */
module CleanRun {
  import opened Checks
  import opened Watchdog
  import opened Supervisor
  import opened Lifeguard

  const HELLO := Message(true, true, None, None, false, false)
  const WIRE := Message(true, false, Some(1), None, true, false)
  const SETTLED := Message(true, false, None, Some(1), false, true)

  /** The data child at work: nothing said, one wire open, or settled. */
  function Working(pid: int, permits: seq<nat>, requested: nat, pending: Option<nat>, g: Guard): World {
    World(State(Listening, requested, pending, true, false, false, false, Some(pid)), false, [], permits, true, g, Up, None, false,
          true, Some(pid), None, None, {pid}, {pid})
  }

  function Busy(l: Limits, pid: int, ordinal: nat): Guard {
    Guard(Some(pid), ordinal, None, Some(l.operationMs), None)
  }

  /** No child at work: one wire armed, permitted and settled. */
  function Idle(stage: Stage, active: Option<int>, pid: int, cleanup: Option<int>, alive: set<int>, used: set<int>, g: Guard): World {
    World(State(stage, 1, None, true, false, false, true, active), false, [], [1], true, g, Up, None, false,
          false, Some(pid), cleanup, None, alive, used)
  }

  lemma Consumes(l: Limits, own: int, pid: int) returns (run: seq<Event>)
    requires pid > 1 && pid != own
    ensures After(l, own, run) == Working(pid, [], 0, None, Busy(l, pid, 0))
  {
    hide After;
    run := StartRun(l, own, pid);
    var w := Started(pid);
    run := Grow(l, own, run, ChildSays(HELLO));
    w := w.(inbox := [HELLO]);
    assert After(l, own, run) == w;
    run := Grow(l, own, run, Handles);
    w := w.(inbox := [], s := w.s.(consumed := true, stage := AwaitData), inflight := Some(Command(Data, Some(pid))));
    assert After(l, own, run) == w;
    run := Grow(l, own, run, GuardTakes(0));
    w := w.(g := Busy(l, pid, 0), inflight := None, acked := true);
    assert After(l, own, run) == w;
    run := Grow(l, own, run, AckArrives);
  }

  function Asking(l: Limits, pid: int): World {
    var w := Working(pid, [], 1, Some(1), Busy(l, pid, 0));
    w.(s := w.s.(stage := AwaitWire), inflight := Some(Command(Wire, Some(1))))
  }

  /** The wire is asked for. */
  lemma Asks(l: Limits, own: int, pid: int, before: seq<Event>) returns (run: seq<Event>)
    requires After(l, own, before) == Working(pid, [], 0, None, Busy(l, pid, 0)) && l.requests >= 1
    ensures After(l, own, run) == Asking(l, pid)
  {
    hide After;
    run := Grow(l, own, before, ChildSays(WIRE));
    assert After(l, own, run) == Working(pid, [], 0, None, Busy(l, pid, 0)).(inbox := [WIRE]);
    run := Grow(l, own, run, Handles);
  }

  /** It is permitted. */
  lemma Permits(l: Limits, own: int, pid: int, before: seq<Event>) returns (run: seq<Event>)
    requires After(l, own, before) == Working(pid, [], 0, None, Busy(l, pid, 0)) && pid > 1 && l.requests >= 1
    ensures After(l, own, run) == Working(pid, [1], 1, Some(1), Busy(l, pid, 1).(pending := Some(1), wireEnd := Some(l.wireMs)))
  {
    hide After;
    run := Asks(l, own, pid, before);
    var w := Asking(l, pid);
    run := Grow(l, own, run, GuardTakes(0));
    w := w.(g := w.g.(ordinal := 1, pending := Some(1), wireEnd := Some(l.wireMs)), inflight := None, acked := true);
    assert After(l, own, run) == w;
    run := Grow(l, own, run, AckArrives);
  }

  /** It is used and settled. */
  lemma Settles(l: Limits, own: int, pid: int, before: seq<Event>) returns (run: seq<Event>)
    requires After(l, own, before)
          == Working(pid, [1], 1, Some(1), Busy(l, pid, 1).(pending := Some(1), wireEnd := Some(l.wireMs)))
    requires pid > 1
    ensures After(l, own, run) == Working(pid, [1], 1, None, Busy(l, pid, 1))
  {
    hide After;
    var w := After(l, own, before);
    run := Grow(l, own, before, ChildSays(SETTLED));
    w := w.(inbox := [SETTLED]);
    assert After(l, own, run) == w;
    run := Grow(l, own, run, Handles);
    w := w.(inbox := [], s := w.s.(stage := AwaitSettled), inflight := Some(Command(Settled, Some(1))));
    assert After(l, own, run) == w;
    run := Grow(l, own, run, GuardTakes(0));
    w := w.(g := Busy(l, pid, 1), inflight := None, acked := true);
    assert After(l, own, run) == w;
    run := Grow(l, own, run, AckArrives);
  }

  /** The data child exits and its group is gone. */
  lemma Drains(l: Limits, own: int, pid: int, before: seq<Event>) returns (run: seq<Event>)
    requires After(l, own, before) == Working(pid, [1], 1, None, Busy(l, pid, 1))
    ensures After(l, own, run) == Idle(AwaitGone, Some(pid), pid, None, {}, {pid}, Busy(l, pid, 1))
  {
    hide After;
    var w := After(l, own, before);
    run := Grow(l, own, before, ChildExits);
    w := w.(childUp := false, s := w.s.(exited := true));
    assert After(l, own, run) == w;
    run := Grow(l, own, run, Dies(pid));
    w := w.(alive := {});
    assert After(l, own, run) == w;
    run := Grow(l, own, run, Event.Drains);
  }

  /** The data group is cleared. */
  lemma Clears(l: Limits, own: int, pid: int, before: seq<Event>) returns (run: seq<Event>)
    requires After(l, own, before) == Idle(AwaitGone, Some(pid), pid, None, {}, {pid}, Busy(l, pid, 1)) && pid > 1
    ensures After(l, own, run) == Idle(BetweenGroups, None, pid, None, {}, {pid}, IDLE.(ordinal := 1))
  {
    hide After;
    var w := After(l, own, before);
    run := Grow(l, own, before, SeesGone);
    w := w.(s := w.s.(stage := AwaitClear), inflight := Some(Command(Clear, Some(pid))));
    assert After(l, own, run) == w;
    run := Grow(l, own, run, GuardTakes(0));
    w := w.(g := IDLE.(ordinal := 1), inflight := None, acked := true);
    assert After(l, own, run) == w;
    run := Grow(l, own, run, AckArrives);
  }

  /** The cleanup child starts and is announced. */
  lemma Cleans(l: Limits, own: int, pid: int, cleanup: int, before: seq<Event>) returns (run: seq<Event>)
    requires After(l, own, before) == Idle(BetweenGroups, None, pid, None, {}, {pid}, IDLE.(ordinal := 1))
    requires cleanup > 1 && cleanup != own && pid != cleanup
    ensures After(l, own, run)
         == Idle(AwaitCleanupExit, Some(cleanup), pid, Some(cleanup), {cleanup}, {pid, cleanup},
                 IDLE.(ordinal := 1, active := Some(cleanup)))
  {
    hide After;
    var w := After(l, own, before);
    run := Grow(l, own, before, StartsCleanup(Some(cleanup)));
    w := w.(s := w.s.(stage := AwaitCleanup, active := Some(cleanup)), inflight := Some(Command(Cleanup, Some(cleanup))),
            cleanup := Some(cleanup), alive := {cleanup}, used := {pid, cleanup});
    assert After(l, own, run) == w;
    run := Grow(l, own, run, GuardTakes(0));
    w := w.(g := w.g.(active := Some(cleanup)), inflight := None, acked := true);
    assert After(l, own, run) == w;
    run := Grow(l, own, run, AckArrives);
  }

  /** It exits cleanly and is cleared. */
  lemma ClearsCleanup(l: Limits, own: int, pid: int, cleanup: int, before: seq<Event>) returns (run: seq<Event>)
    requires After(l, own, before)
          == Idle(AwaitCleanupExit, Some(cleanup), pid, Some(cleanup), {cleanup}, {pid, cleanup},
                  IDLE.(ordinal := 1, active := Some(cleanup)))
    requires cleanup > 1
    ensures After(l, own, run)
         == Idle(AwaitFinish, None, pid, Some(cleanup), {}, {pid, cleanup}, IDLE.(ordinal := 1)).(inflight := Some(Command(Finish, None)))
  {
    hide After;
    var w := After(l, own, before);
    run := Grow(l, own, before, Dies(cleanup));
    w := w.(alive := {});
    assert After(l, own, run) == w;
    run := Grow(l, own, run, CleanupExits(0));
    w := w.(s := w.s.(stage := AwaitCleared), inflight := Some(Command(Clear, Some(cleanup))));
    assert After(l, own, run) == w;
    run := Grow(l, own, run, GuardTakes(0));
    w := w.(g := IDLE.(ordinal := 1), inflight := None, acked := true);
    assert After(l, own, run) == w;
    run := Grow(l, own, run, AckArrives);
  }

  /** The guard finishes, and the supervisor sees it exit. */
  lemma Ends(l: Limits, own: int, pid: int, cleanup: int, before: seq<Event>) returns (run: seq<Event>)
    requires After(l, own, before)
          == Idle(AwaitFinish, None, pid, Some(cleanup), {}, {pid, cleanup}, IDLE.(ordinal := 1)).(inflight := Some(Command(Finish, None)))
    ensures After(l, own, run) == Idle(Returned, None, pid, Some(cleanup), {}, {pid, cleanup}, IDLE.(ordinal := 1)).(gs := Gone(0))
  {
    hide After;
    var w := After(l, own, before);
    run := Grow(l, own, before, GuardTakes(0));
    w := w.(gs := Gone(0), inflight := None, acked := true);
    assert After(l, own, run) == w;
    run := Grow(l, own, run, AckArrives);
    w := w.(acked := false, s := w.s.(stage := AwaitExit));
    assert After(l, own, run) == w;
    run := Grow(l, own, run, SeesGuardExit);
  }

  /** Undisturbed, the supervisor returns with its permit given and the guard finished. */
  lemma CleanRunReturns(l: Limits, own: int, pid: int, cleanup: int) returns (run: seq<Event>)
    requires pid > 1 && cleanup > 1 && pid != own && cleanup != own && pid != cleanup && l.requests >= 1
    ensures var w := After(l, own, run); w.s.stage == Returned && w.permits == [1] && w.gs == Gone(0) && w.told
  {
    hide After;
    run := Consumes(l, own, pid);
    run := Permits(l, own, pid, run);
    run := Settles(l, own, pid, run);
    run := Drains(l, own, pid, run);
    run := Clears(l, own, pid, run);
    run := Cleans(l, own, pid, cleanup, run);
    run := ClearsCleanup(l, own, pid, cleanup, run);
    run := Ends(l, own, pid, cleanup, run);
  }
}
