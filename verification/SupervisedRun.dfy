/** The supervisor object driven through whole runs: its handlers, called event by event. */
module SupervisedRun {
  import opened Checks
  import opened Watchdog
  import opened Supervisor
  import opened Lifeguard

  method StartData(l: Limits, own: int, w: World, child: Option<int>, sup: Supervision) returns (v: World)
    requires sup.Now() == w.s && sup.limit == l.requests
    modifies sup
    ensures v == BeginData(own, w, child) && sup.Now() == v.s
  {
    v := w;
    if w.s.stage == Starting && w.gs == Up && (child.Some? ==> Fresh(own, w, child.value)) {
      sup.GuardReady(child);
      if sup.stage == Listening {
        v := Spawn(w, child.value).(data := child, childUp := true);
      }
      v := v.(s := sup.Now());
    }
  }

  method HandleMessage(l: Limits, own: int, w: World, sup: Supervision) returns (v: World)
    requires sup.Now() == w.s && sup.limit == l.requests
    modifies sup
    ensures v == HandleNext(l, w) && sup.Now() == v.s
  {
    v := w;
    if w.s.stage == Listening && w.inbox != [] {
      var act := sup.Receive(w.inbox[0]);
      v := Do(w.(inbox := w.inbox[1..]), Step(sup.Now(), act));
    }
  }

  method FinishDrain(l: Limits, own: int, w: World, sup: Supervision) returns (v: World)
    requires sup.Now() == w.s && sup.limit == l.requests
    modifies sup
    ensures v == DrainAll(w) && sup.Now() == v.s
  {
    v := w;
    if w.s.stage == Listening && w.s.exited && w.inbox == [] {
      sup.WaitAt(AwaitGone);
      v := w.(s := sup.Now());
    }
  }

  method NoticeGone(l: Limits, own: int, w: World, sup: Supervision) returns (v: World)
    requires sup.Now() == w.s && sup.limit == l.requests
    modifies sup
    ensures v == SeeGone(w) && sup.Now() == v.s
  {
    v := w;
    if w.s.stage == AwaitGone && w.s.active.Some? && w.s.active.value !in w.alive {
      var act := sup.GroupGone();
      v := Do(w, Step(sup.Now(), act));
    }
  }

  method Abandon(l: Limits, own: int, w: World, sup: Supervision) returns (v: World)
    requires sup.Now() == w.s && sup.limit == l.requests
    modifies sup
    ensures v == GiveUp(w) && sup.Now() == v.s
  {
    v := w;
    if w.s.stage == AwaitGone && w.s.expired && w.s.active.Some? && w.s.active.value in w.alive {
      sup.WaitAt(Aborted);
      v := w.(s := sup.Now());
    }
  }

  method StartCleanup(l: Limits, own: int, w: World, pid: Option<int>, sup: Supervision) returns (v: World)
    requires sup.Now() == w.s && sup.limit == l.requests
    modifies sup
    ensures v == BeginCleanup(own, w, pid) && sup.Now() == v.s
  {
    hide Fresh, Spawn, Do;
    forall u, step ensures Do(u, step).s == step.s {
      DoSetsState(u, step);
    }
    forall u, p ensures Spawn(u, p).s == u.s {
      SpawnKeepsState(u, p);
    }
    v := w;
    if w.s.stage == BetweenGroups && (pid.Some? ==> Fresh(own, w, pid.value)) {
      var act := sup.StartCleanup(pid);
      if sup.stage == Aborted {
        v := w.(s := sup.Now());
      } else {
        v := Do(w, Step(sup.Now(), act)).(cleanup := pid);
        if pid.Some? {
          v := Spawn(v, pid.value);
        }
      }
    }
  }

  method FinishCleanup(l: Limits, own: int, w: World, exit: int, sup: Supervision) returns (v: World)
    requires sup.Now() == w.s && sup.limit == l.requests
    modifies sup
    ensures v == EndCleanup(w, exit) && sup.Now() == v.s
  {
    v := w;
    if w.s.stage == AwaitCleanupExit {
      var act := sup.CleanupExited(exit, w.s.active.Some? && w.s.active.value !in w.alive);
      v := Do(w, Step(sup.Now(), act));
    }
  }

  method TakeAck(l: Limits, own: int, w: World, sup: Supervision) returns (v: World)
    requires sup.Now() == w.s && sup.limit == l.requests
    modifies sup
    ensures v == AcceptAck(w) && sup.Now() == v.s
  {
    v := w;
    if w.acked {
      var act := sup.Acknowledged();
      v := Do(w.(acked := false), Step(sup.Now(), act));
    }
  }

  method TakeReject(l: Limits, own: int, w: World, sup: Supervision) returns (v: World)
    requires sup.Now() == w.s && sup.limit == l.requests
    modifies sup
    ensures v == AcceptReject(w) && sup.Now() == v.s
  {
    v := w;
    if w.gs.Gone? && !w.acked && Awaiting(w.s.stage) {
      sup.Rejected();
      v := w.(s := sup.Now(), inflight := None);
    }
  }

  method NoticeGuardExit(l: Limits, own: int, w: World, sup: Supervision) returns (v: World)
    requires sup.Now() == w.s && sup.limit == l.requests
    modifies sup
    ensures v == SeeGuardExit(w) && sup.Now() == v.s
  {
    v := w;
    if w.s.stage == AwaitExit && w.gs.Gone? {
      sup.GuardExited(w.gs.code);
      v := w.(s := sup.Now());
    }
  }

  lemma DoSetsState(w: World, step: Step)
    ensures Do(w, step).s == step.s
  {
  }

  lemma SpawnKeepsState(w: World, pid: int)
    ensures Spawn(w, pid).s == w.s
  {
  }

  /** One move of the supervisor, made by its handler. */
  method Move(l: Limits, own: int, w: World, e: Event, sup: Supervision) returns (v: World)
    requires sup.Now() == w.s && sup.limit == l.requests
    modifies sup
    ensures v == SupervisorStep(l, own, w, e) && sup.Now() == v.s
  {
    hide BeginData, HandleNext, DrainAll, SeeGone, GiveUp, BeginCleanup, EndCleanup, AcceptAck, AcceptReject, SeeGuardExit;
    v := w;
    if !w.dead {
      match e {
        case GuardReady(child) => v := StartData(l, own, w, child, sup);
        case Handles => v := HandleMessage(l, own, w, sup);
        case Drains => v := FinishDrain(l, own, w, sup);
        case SeesGone => v := NoticeGone(l, own, w, sup);
        case GivesUp => v := Abandon(l, own, w, sup);
        case StartsCleanup(pid) => v := StartCleanup(l, own, w, pid, sup);
        case CleanupExits(exit) => v := FinishCleanup(l, own, w, exit, sup);
        case Stops =>
          sup.Stop();
          v := w.(s := sup.Now());
        case Expires =>
          sup.Expire();
          v := w.(s := sup.Now());
        case AckArrives => v := TakeAck(l, own, w, sup);
        case Rejects => v := TakeReject(l, own, w, sup);
        case SeesGuardExit => v := NoticeGuardExit(l, own, w, sup);
        case _ =>
      }
    }
  }

  /** One event: the supervisor's move, the guard's, and the host's, which may be the data child's exit. */
  method Happen(l: Limits, own: int, w: World, e: Event, sup: Supervision) returns (v: World)
    requires sup.Now() == w.s && sup.limit == l.requests
    modifies sup
    ensures v == Next(l, own, w, e) && sup.Now() == v.s
  {
    hide SupervisorStep, GuardStep, HostStep;
    v := Move(l, own, w, e, sup);
    GuardLeavesSupervisor(l, own, v, e);
    v := GuardStep(l, own, v, e);
    HostSeesExit(v, e);
    if e.ChildExits? && v.data.Some? {
      sup.ChildExited();
    }
    v := HostStep(v, e);
  }

  lemma GuardLeavesSupervisor(l: Limits, own: int, w: World, e: Event)
    ensures GuardStep(l, own, w, e).s == w.s
  {
  }

  lemma HostSeesExit(w: World, e: Event)
    ensures HostStep(w, e).s == if e.ChildExits? && w.data.Some? then w.s.(exited := true) else w.s
  {
  }

  /**
   * Driving the object through any sequence of events ends in the world of that run, in which the
   * supervisor's variables are the object's own; so every theorem about runs is one about it.
   */
  method Drive(l: Limits, own: int, run: seq<Event>, sup: Supervision) returns (w: World)
    requires sup.Now() == START && sup.limit == l.requests
    modifies sup
    ensures w == After(l, own, run) && sup.Now() == w.s
  {
    hide Next;
    w := BEGIN;
    var i := 0;
    while i < |run|
      invariant 0 <= i <= |run|
      invariant w == After(l, own, run[..i]) && sup.Now() == w.s && sup.limit == l.requests
    {
      assert run[..i + 1][..i] == run[..i];
      w := Happen(l, own, w, run[i], sup);
      i := i + 1;
    }
    assert run[..i] == run;
  }

  /** From a new object to the end of a run. */
  method Supervise(l: Limits, own: int, run: seq<Event>) returns (sup: Supervision)
    ensures fresh(sup) && sup.Now() == After(l, own, run).s
  {
    sup := new Supervision(l.requests);
    var _ := Drive(l, own, run, sup);
  }
}
