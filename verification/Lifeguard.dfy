/**
 * Supervisor, guard, children and pipe together: every interleaving of messages, stops, timeouts,
 * exits and deaths is a sequence of events. Process numbers are not reused within one run.
 */
module Lifeguard {
  import opened Checks
  import opened Watchdog
  import opened Supervisor

  /** Up until it leaves its loop; then it may recover, and exits. */
  datatype GuardStatus = Up | Out(refused: bool) | Gone(code: int)

  datatype World = World(
    s: State, dead: bool, inbox: seq<Message>, permits: seq<nat>, told: bool,
    g: Guard, gs: GuardStatus, inflight: Option<Command>, acked: bool,
    childUp: bool, data: Option<int>, cleanup: Option<int>, recovery: Option<int>,
    alive: set<int>, used: set<int>)

  const BEGIN := World(START, false, [], [], false, IDLE, Up, None, false, false, None, None, None, {}, {})

  datatype Event =
    | GuardReady(child: Option<int>)
    | ChildSays(m: Message)
    | ChildExits
    | Dies(group: int)
    | Handles
    | Drains
    | SeesGone
    | GivesUp
    | StartsCleanup(pid: Option<int>)
    | CleanupExits(exit: int)
    | Stops
    | Expires
    | SupervisorDies
    | AckArrives
    | Rejects
    | SeesGuardExit
    | GuardTakes(now: int)
    | GuardLapses
    | GuardRecovers(helper: int)
    | GuardQuits

  /** A process number never used before in this run and not the guard's own. */
  predicate Fresh(own: int, w: World, pid: int) {
    pid > 1 && pid != own && pid !in w.used
  }

  function Spawn(w: World, pid: int): World {
    w.(alive := w.alive + {pid}, used := w.used + {pid})
  }

  function Send(w: World, c: Command): World {
    w.(inflight := Some(c))
  }

  /** Carry out what a handler asked for. */
  function Do(w: World, step: Step): World {
    var v := w.(s := step.s);
    match step.act
    case Nothing => v
    case Tell(c) => Send(v, c)
    case Consume => v.(told := true)
    case Permit(n) => v.(permits := v.permits + [n])
  }

  predicate Awaiting(stage: Stage) {
    || stage.AwaitData? || stage.AwaitWire? || stage.AwaitSettled? || stage.AwaitClear?
    || stage.AwaitCleanup? || stage.AwaitCleared? || stage.AwaitFinish?
  }

  function HostOf(l: Limits, own: int, w: World): Host {
    Host(l, own, p => p !in w.alive)
  }

  /** The guard is ready: start the data child. */
  function BeginData(own: int, w: World, child: Option<int>): World {
    if !(w.s.stage == Starting && w.gs == Up && (child.Some? ==> Fresh(own, w, child.value))) then w
    else
      var s := OnGuardReady(w.s, child);
      if s.stage == Listening then Spawn(w, child.value).(s := s, data := child, childUp := true) else w.(s := s)
  }

  function HandleNext(l: Limits, w: World): World {
    if w.s.stage == Listening && w.inbox != [] then
      Do(w.(inbox := w.inbox[1..]), OnMessage(l.requests, w.s, w.inbox[0]))
    else w
  }

  /** The data child exited and every message of it is handled. */
  function DrainAll(w: World): World {
    if w.s.stage == Listening && w.s.exited && w.inbox == [] then w.(s := w.s.(stage := AwaitGone)) else w
  }

  function SeeGone(w: World): World {
    if w.s.stage == AwaitGone && w.s.active.Some? && w.s.active.value !in w.alive then Do(w, OnGone(w.s)) else w
  }

  function GiveUp(w: World): World {
    if w.s.stage == AwaitGone && w.s.expired && w.s.active.Some? && w.s.active.value in w.alive then
      w.(s := w.s.(stage := Aborted))
    else w
  }

  function BeginCleanup(own: int, w: World, pid: Option<int>): World {
    if !(w.s.stage == BetweenGroups && (pid.Some? ==> Fresh(own, w, pid.value))) then w
    else
      var step := OnStartCleanup(w.s, pid);
      if step.s.stage == Aborted then w.(s := step.s)
      else (var v := Do(w, step).(cleanup := pid); if pid.Some? then Spawn(v, pid.value) else v)
  }

  function EndCleanup(w: World, exit: int): World {
    if w.s.stage == AwaitCleanupExit then Do(w, OnCleanupExit(w.s, exit, w.s.active.Some? && w.s.active.value !in w.alive))
    else w
  }

  function AcceptAck(w: World): World {
    if w.acked then Do(w.(acked := false), OnAck(w.s)) else w
  }

  function AcceptReject(w: World): World {
    if w.gs.Gone? && !w.acked && Awaiting(w.s.stage) then w.(s := OnReject(w.s), inflight := None) else w
  }

  function SeeGuardExit(w: World): World {
    if w.s.stage == AwaitExit && w.gs.Gone? then w.(s := OnGuardExit(w.s, w.gs.code)) else w
  }

  /** The supervisor's own moves. */
  function SupervisorStep(l: Limits, own: int, w: World, e: Event): World {
    if w.dead then w
    else
      match e
      case GuardReady(child) => BeginData(own, w, child)
      case Handles => HandleNext(l, w)
      case Drains => DrainAll(w)
      case SeesGone => SeeGone(w)
      case GivesUp => GiveUp(w)
      case StartsCleanup(pid) => BeginCleanup(own, w, pid)
      case CleanupExits(exit) => EndCleanup(w, exit)
      case Stops => w.(s := Stopped(w.s))
      case Expires => w.(s := Stopped(w.s).(expired := true))
      case AckArrives => AcceptAck(w)
      case Rejects => AcceptReject(w)
      case SeesGuardExit => SeeGuardExit(w)
      case _ => w
  }

  /** The guard obeys the command in the pipe. */
  function GuardTake(l: Limits, own: int, w: World, now: int): World {
    if w.gs != Up || w.inflight.None? then w
    else
      var v := Take(HostOf(l, own, w), now, w.g, w.inflight.value);
      if v.Serving? then w.(g := v.g, inflight := None, acked := true)
      else if v.Finished? then w.(gs := Gone(0), inflight := None, acked := true)
      else w.(gs := Out(true), inflight := None)
  }

  /** Out of its loop, the guard recovers only once its group is gone. */
  function GuardRecover(own: int, w: World, helper: int): World {
    if w.gs.Out? && w.recovery.None? && (w.g.active.Some? ==> w.g.active.value !in w.alive) && Fresh(own, w, helper) then
      Spawn(w, helper).(recovery := Some(helper))
    else w
  }

  function GuardStep(l: Limits, own: int, w: World, e: Event): World {
    match e
    case GuardTakes(now) => GuardTake(l, own, w, now)
    case GuardLapses => if w.gs == Up then w.(gs := Out(false)) else w
    case GuardRecovers(helper) => GuardRecover(own, w, helper)
    case GuardQuits => if w.gs.Out? then w.(gs := Gone(1)) else w
    case _ => w
  }

  /** What the rest of the host does. */
  function HostStep(w: World, e: Event): World {
    if e.ChildSays? && w.childUp then w.(inbox := w.inbox + [e.m])
    else if e.ChildExits? && w.data.Some? then w.(childUp := false, s := w.s.(exited := true))
    else if e.Dies? then w.(alive := w.alive - {e.group}, childUp := w.childUp && Some(e.group) != w.data)
    else if e.SupervisorDies? then w.(dead := true)
    else w
  }

  function Next(l: Limits, own: int, w: World, e: Event): World {
    HostStep(GuardStep(l, own, SupervisorStep(l, own, w, e), e), e)
  }

  function After(l: Limits, own: int, run: seq<Event>): World
    decreases |run|
  {
    if run == [] then BEGIN else Next(l, own, After(l, own, run[..|run| - 1]), run[|run| - 1])
  }

  // ----- invariants -----

  /** Process numbers in use; the three groups are different ones. */
  ghost predicate Numbered(own: int, w: World) {
    && w.alive <= w.used && (forall p | p in w.used :: p > 1 && p != own)
    && (w.data.Some? ==> w.data.value in w.used)
    && (w.cleanup.Some? ==> w.cleanup.value in w.used)
    && (w.recovery.Some? ==> w.recovery.value in w.used)
    && (w.g.active.Some? ==> w.g.active.value in w.used)
    && (w.data.Some? && w.cleanup.Some? ==> w.data != w.cleanup)
  }

  function AsInt(n: Option<nat>): Option<int> {
    if n.Some? then Some(n.value) else None
  }

  /** The data child is the supervisor's charge. */
  predicate WithData(stage: Stage) {
    Handling(stage) || stage.AwaitGone? || stage.AwaitClear?
  }

  predicate Handling(stage: Stage) {
    stage.Listening? || stage.AwaitData? || stage.AwaitWire? || stage.AwaitSettled?
  }

  predicate WithCleanup(stage: Stage) {
    stage.AwaitCleanup? || stage.AwaitCleanupExit? || stage.AwaitCleared?
  }

  predicate PastCleanup(stage: Stage) {
    stage.AwaitCleared? || Ending(stage)
  }

  predicate Ending(stage: Stage) {
    stage.AwaitFinish? || stage.AwaitExit? || stage.Returned?
  }

  /** The group the supervisor is answering for, stage by stage. */
  predicate Placed(w: World) {
    var s := w.s;
    && (s.stage == Starting ==> s.active.None? && w.data.None? && !s.consumed)
    && (WithData(s.stage) ==> w.data.Some? && s.active == w.data && w.cleanup.None?)
    && (s.stage.AwaitData? || s.stage.AwaitWire? || s.stage.AwaitSettled? || s.stage.AwaitClear? ==> s.consumed)
    && (s.stage.AwaitClear? || s.stage.BetweenGroups? || WithCleanup(s.stage) || Ending(s.stage) ==>
          w.data.Some? && w.data.value !in w.alive)
    && (s.pending.Some? ==> s.consumed)
    && (s.stage == BetweenGroups ==> s.active.None? && w.cleanup.None?)
    && (WithCleanup(s.stage) ==> s.active == w.cleanup)
    && (PastCleanup(s.stage) ==> w.cleanup.Some? && w.cleanup.value !in w.alive)
    && (w.cleanup.Some? ==> w.data.Some? && w.data.value !in w.alive)
  }

  /** While the guard serves, what it remembers is what the supervisor believes, give or take one command. */
  predicate Agreed(l: Limits, w: World) {
    var s, g, c, a := w.s, w.g, w.inflight, w.acked;
    match s.stage
    case Starting => g == IDLE && c.None? && !a && s.requested == 0 && s.pending.None?
    case Listening | AwaitGone =>
      && c.None? && !a && g.ordinal == s.requested && g.pending == AsInt(s.pending)
      && g.active == (if s.consumed then w.data else None) && (!s.consumed ==> s.requested == 0 && s.pending.None?)
    case AwaitData =>
      && s.requested == 0 == g.ordinal && s.pending.None? && g.pending.None?
      && (if a then c.None? && g.active == w.data else c == Some(Command(Data, w.data)) && g.active.None?)
    case AwaitWire =>
      && g.active == w.data && s.pending == Some(s.requested) && s.requested <= l.requests
      && (if a then c.None? && g.ordinal == s.requested && g.pending == AsInt(s.pending)
          else c == Some(Command(Wire, Some(s.requested))) && g.ordinal + 1 == s.requested && g.pending.None?)
    case AwaitSettled =>
      && g.active == w.data && s.pending.Some? && g.ordinal == s.requested
      && (if a then c.None? && g.pending.None? else c == Some(Command(Settled, AsInt(s.pending))) && g.pending == AsInt(s.pending))
    case AwaitClear =>
      if a then c.None? && g.active.None? && g.pending.None? else c == Some(Command(Clear, w.data)) && g.active == w.data
    case BetweenGroups => c.None? && !a && g.active.None?
    case AwaitCleanup =>
      if a then c.None? && g.active == w.cleanup && w.cleanup.Some? else c == Some(Command(Cleanup, w.cleanup)) && g.active.None?
    case AwaitCleanupExit => c.None? && !a && g.active == w.cleanup && w.cleanup.Some?
    case AwaitCleared =>
      if a then c.None? && g.active.None? else c == Some(Command(Clear, w.cleanup)) && g.active == w.cleanup
    case AwaitFinish => !a && c == Some(Command(Finish, None)) && g.active.None?
    case AwaitExit | Returned => false
    case Aborted => c.None? && !a
  }

  /** The guard's charge is the group announced last, if any; a group it never heard of is nobody's. */
  ghost predicate Announced(w: World) {
    && (w.g.active.Some? ==> w.g.active == w.data || w.g.active == w.cleanup)
    && (w.cleanup.Some? ==> w.g.active.None? || w.g.active == w.cleanup)
    && (!w.s.consumed && w.cleanup.None? ==> w.g.active.None?)
    && (w.s.stage == BetweenGroups ==> w.g.active.None?)
    && (w.s.stage == AwaitClear && w.acked ==> w.g.active.None?)
  }

  /** Acknowledgements answer waits; only a cleanup that did not start was ever refused. */
  ghost predicate Answered(w: World) {
    && (w.acked ==> Awaiting(w.s.stage))
    && (w.gs.Out? && w.gs.refused ==> w.s.stage == AwaitCleanup && w.cleanup.None? && !w.acked)
  }

  /** Permits run 1, 2, ..., each no higher than the wires the guard armed. */
  ghost predicate Permitted(l: Limits, w: World) {
    && (forall i | 0 <= i < |w.permits| :: w.permits[i] == i + 1)
    && |w.permits| <= w.g.ordinal <= l.requests && w.g.ordinal <= w.s.requested <= |w.permits| + 1
    && (w.s.stage == AwaitWire && w.acked ==> w.g.ordinal == w.s.requested && w.s.pending == Some(w.s.requested))
    && (!w.s.stopping && w.s.stage == AwaitWire ==> |w.permits| + 1 == w.s.requested)
    && (!w.s.stopping && (w.s.stage.Starting? || w.s.stage.Listening? || w.s.stage.AwaitData? || w.s.stage.AwaitSettled?)
        ==> |w.permits| == w.s.requested)
    && (w.s.expired ==> w.s.stopping)
  }

  /** A data group told to consume is the guard's charge for as long as it lives. */
  predicate Guarded(w: World) {
    && (w.s.stage == AwaitData && w.acked ==> w.g.active == w.data)
    && (w.told ==> w.s.consumed && w.data.Some?)
    && (w.told && w.data.value in w.alive ==> w.g.active == w.data && w.cleanup.None?)
    && (w.recovery.Some? ==> !w.gs.Up? && (w.g.active.Some? ==> w.g.active.value !in w.alive || w.gs.Gone?))
    && (w.recovery.Some? && w.data.Some? && w.g.active == w.data ==> w.data.value !in w.alive)
    && (w.recovery.Some? && w.cleanup.Some? && w.g.active == w.cleanup ==> w.cleanup.value !in w.alive)
    && (w.gs == Gone(0) ==> w.g.active.None? && (Ending(w.s.stage) || w.s.stage.Aborted?))
    && (w.s.stage == Returned ==> w.gs == Gone(0))
    && (w.gs.Gone? ==> w.gs.code == 0 || w.gs.code == 1)
  }

  ghost predicate Inv(l: Limits, own: int, w: World) {
    && Numbered(own, w) && Placed(w) && (w.gs.Up? ==> Agreed(l, w)) && Permitted(l, w) && Guarded(w) && Answered(w) && Announced(w)
  }

  lemma ChildBegins(l: Limits, own: int, w: World, pid: int)
    requires Inv(l, own, w)
    requires w.s.stage == Starting && w.gs == Up && !w.s.stopping && !w.s.expired && Fresh(own, w, pid)
    ensures var v := Spawn(w, pid).(s := w.s.(stage := Listening, active := Some(pid)), data := Some(pid), childUp := true); Inv(l, own, v)
  {
  }

  lemma RunAborts(l: Limits, own: int, w: World)
    requires Inv(l, own, w)
    requires || w.s.stage == Starting || w.s.stage == BetweenGroups || w.s.stage == AwaitCleanupExit || w.s.stage == AwaitGone
             || (w.s.stage == AwaitExit && w.gs.Gone?)
    ensures var v := w.(s := w.s.(stage := Aborted)); Inv(l, own, v)
  {
  }

  lemma BeginDataKeeps(l: Limits, own: int, w: World, child: Option<int>)
    requires Inv(l, own, w)
    ensures var v := BeginData(own, w, child); Inv(l, own, v)
  {
    hide Inv, Fresh;
    if w.s.stage == Starting && w.gs == Up && (child.Some? ==> Fresh(own, w, child.value)) {
      if w.s.stopping || w.s.expired || child.None? {
        RunAborts(l, own, w);
      } else {
        ChildBegins(l, own, w, child.value);
      }
    }
  }

  lemma MessageTaken(l: Limits, own: int, w: World)
    requires Inv(l, own, w)
    requires w.inbox != []
    ensures var v := w.(inbox := w.inbox[1..]); Inv(l, own, v)
  {
  }

  lemma MessageStops(l: Limits, own: int, w: World)
    requires Inv(l, own, w)
    ensures var v := w.(s := Stopped(w.s)); Inv(l, own, v)
  {
  }

  lemma ReadyTaken(l: Limits, own: int, w: World)
    requires Inv(l, own, w)
    requires w.s.stage == Listening && !w.s.stopping && !w.s.expired && !w.s.consumed
    ensures var v := w.(s := w.s.(consumed := true, stage := AwaitData), inflight := Some(Command(Data, w.s.active))); Inv(l, own, v)
  {
  }

  lemma BeginTaken(l: Limits, own: int, w: World)
    requires Inv(l, own, w)
    requires w.s.stage == Listening && !w.s.stopping && w.s.consumed && w.s.pending.None? && w.s.requested < l.requests
    ensures var v := w.(s := w.s.(requested := w.s.requested + 1, pending := Some(w.s.requested + 1), stage := AwaitWire),
            inflight := Some(Command(Wire, Some(w.s.requested + 1)))); Inv(l, own, v)
  {
  }

  lemma SettledTaken(l: Limits, own: int, w: World)
    requires Inv(l, own, w)
    requires w.s.stage == Listening && !w.s.stopping && w.s.pending.Some?
    ensures var v := w.(s := w.s.(stage := AwaitSettled),
            inflight := Some(Command(Settled, Some(w.s.pending.value)))); Inv(l, own, v)
  {
  }

  lemma HandleNextKeeps(l: Limits, own: int, w: World)
    requires Inv(l, own, w)
    ensures var v := HandleNext(l, w); Inv(l, own, v)
  {
    hide Inv;
    if w.s.stage == Listening && w.inbox != [] {
      var v, s, m := w.(inbox := w.inbox[1..]), w.s, w.inbox[0];
      MessageTaken(l, own, w);
      MessageStops(l, own, v);
      if !s.expired && !s.stopping && m.isObject {
        if m.ready && !s.consumed {
          ReadyTaken(l, own, v);
        } else if m.hasBegin {
          if s.consumed && s.pending.None? && s.requested < l.requests { BeginTaken(l, own, v); }
        } else if m.hasSettled && s.pending.Some? {
          SettledTaken(l, own, v);
        }
      }
    }
  }

  lemma DrainAllKeeps(l: Limits, own: int, w: World)
    requires Inv(l, own, w)
    ensures var v := DrainAll(w); Inv(l, own, v)
  {
  }

  lemma ClearSent(l: Limits, own: int, w: World)
    requires Inv(l, own, w)
    requires w.s.stage == AwaitGone && w.s.active.Some? && w.s.active.value !in w.alive && w.s.consumed
    ensures var v := w.(s := w.s.(stage := AwaitClear), inflight := Some(Command(Clear, w.s.active))); Inv(l, own, v)
  {
  }

  lemma NothingToClear(l: Limits, own: int, w: World)
    requires Inv(l, own, w)
    requires w.s.stage == AwaitGone && w.s.active.Some? && w.s.active.value !in w.alive && !w.s.consumed
    ensures var v := w.(s := w.s.(stage := BetweenGroups, active := None)); Inv(l, own, v)
  {
  }

  lemma SeeGoneKeeps(l: Limits, own: int, w: World)
    requires Inv(l, own, w)
    ensures var v := SeeGone(w); Inv(l, own, v)
  {
    hide Inv;
    if w.s.stage == AwaitGone && w.s.active.Some? && w.s.active.value !in w.alive {
      if w.s.consumed {
        ClearSent(l, own, w);
      } else {
        NothingToClear(l, own, w);
      }
    }
  }

  lemma CleanupBegins(l: Limits, own: int, w: World, pid: int)
    requires Inv(l, own, w)
    requires w.s.stage == BetweenGroups && !w.s.expired && Fresh(own, w, pid)
    ensures var v := Spawn(w, pid).(s := w.s.(stage := AwaitCleanup, active := Some(pid)), cleanup := Some(pid),
                                       inflight := Some(Command(Cleanup, Some(pid)))); Inv(l, own, v)
  {
  }

  lemma CleanupFails(l: Limits, own: int, w: World)
    requires Inv(l, own, w)
    requires w.s.stage == BetweenGroups && !w.s.expired
    ensures var v := w.(s := w.s.(stage := AwaitCleanup, active := None), cleanup := None,
                           inflight := Some(Command(Cleanup, None))); Inv(l, own, v)
  {
  }

  lemma BeginCleanupKeeps(l: Limits, own: int, w: World, pid: Option<int>)
    requires Inv(l, own, w)
    ensures var v := BeginCleanup(own, w, pid); Inv(l, own, v)
  {
    hide Inv, Fresh;
    if w.s.stage == BetweenGroups && (pid.Some? ==> Fresh(own, w, pid.value)) {
      if w.s.expired {
        RunAborts(l, own, w);
      } else if pid.Some? {
        CleanupBegins(l, own, w, pid.value);
      } else {
        CleanupFails(l, own, w);
      }
    }
  }

  lemma CleanupClears(l: Limits, own: int, w: World)
    requires Inv(l, own, w)
    requires w.s.stage == AwaitCleanupExit && w.s.active.Some? && w.s.active.value !in w.alive
    ensures var v := w.(s := w.s.(stage := AwaitCleared), inflight := Some(Command(Clear, w.s.active))); Inv(l, own, v)
  {
  }

  lemma EndCleanupKeeps(l: Limits, own: int, w: World, exit: int)
    requires Inv(l, own, w)
    ensures var v := EndCleanup(w, exit); Inv(l, own, v)
  {
    hide Inv;
    if w.s.stage == AwaitCleanupExit {
      if w.s.active.Some? && w.s.active.value !in w.alive && exit == 0 && !w.s.expired {
        CleanupClears(l, own, w);
      } else {
        RunAborts(l, own, w);
      }
    }
  }

  lemma ConsumeSent(l: Limits, own: int, w: World)
    requires Inv(l, own, w)
    requires w.s.stage == AwaitData && w.acked && !w.s.stopping
    ensures var v := w.(acked := false, s := w.s.(stage := Listening), told := true); Inv(l, own, v)
  {
  }

  lemma DataAcked(l: Limits, own: int, w: World)
    requires Inv(l, own, w)
    requires w.s.stage == AwaitData && w.acked
    ensures var v := w.(acked := false, s := w.s.(stage := Listening)); Inv(l, own, v)
  {
  }

  lemma PermitSent(l: Limits, own: int, w: World)
    requires Inv(l, own, w)
    requires w.s.stage == AwaitWire && w.acked && !w.s.stopping && w.s.pending.Some?
    ensures var v := w.(acked := false, s := w.s.(stage := Listening), permits := w.permits + [w.s.pending.value]); Inv(l, own, v)
  {
  }

  lemma WireAcked(l: Limits, own: int, w: World)
    requires Inv(l, own, w)
    requires w.s.stage == AwaitWire && w.acked && w.s.stopping
    ensures var v := w.(acked := false, s := w.s.(stage := Listening)); Inv(l, own, v)
  {
  }

  lemma SettledAcked(l: Limits, own: int, w: World)
    requires Inv(l, own, w)
    requires w.s.stage == AwaitSettled && w.acked
    ensures var v := w.(acked := false, s := w.s.(stage := Listening, pending := None)); Inv(l, own, v)
  {
  }

  lemma ClearAcked(l: Limits, own: int, w: World)
    requires Inv(l, own, w)
    requires w.s.stage == AwaitClear && w.acked
    ensures var v := w.(acked := false, s := w.s.(stage := BetweenGroups, active := None)); Inv(l, own, v)
  {
  }

  lemma CleanupAcked(l: Limits, own: int, w: World)
    requires Inv(l, own, w)
    requires w.s.stage == AwaitCleanup && w.acked
    ensures var v := w.(acked := false, s := w.s.(stage := AwaitCleanupExit)); Inv(l, own, v)
  {
  }

  lemma ClearedAcked(l: Limits, own: int, w: World)
    requires Inv(l, own, w)
    requires w.s.stage == AwaitCleared && w.acked
    ensures var v := w.(acked := false, s := w.s.(stage := AwaitFinish, active := None), inflight := Some(Command(Finish, None)));
            Inv(l, own, v)
  {
  }

  lemma FinishAcked(l: Limits, own: int, w: World)
    requires Inv(l, own, w)
    requires w.s.stage == AwaitFinish && w.acked
    ensures var v := w.(acked := false, s := w.s.(stage := AwaitExit)); Inv(l, own, v)
  {
  }

  lemma AckShape(l: Limits, own: int, w: World)
    requires Inv(l, own, w) && w.acked
    ensures Awaiting(w.s.stage) && (w.s.expired ==> w.s.stopping) && (w.s.stage == AwaitWire ==> w.s.pending.Some?)
  {
    hide Agreed, Guarded, Placed;
  }

  lemma HandlerAcked(l: Limits, own: int, w: World)
    requires Inv(l, own, w) && w.acked && Handling(w.s.stage)
    ensures var v := Do(w.(acked := false), OnAck(w.s)); Inv(l, own, v)
  {
    hide Inv;
    AckShape(l, own, w);
    if w.s.stage == AwaitData {
      if w.s.stopping { DataAcked(l, own, w); } else { ConsumeSent(l, own, w); }
    } else if w.s.stage == AwaitWire {
      if w.s.stopping { WireAcked(l, own, w); } else { PermitSent(l, own, w); }
    } else {
      SettledAcked(l, own, w);
    }
  }

  lemma MainLineAcked(l: Limits, own: int, w: World)
    requires Inv(l, own, w) && w.acked && !Handling(w.s.stage)
    ensures var v := Do(w.(acked := false), OnAck(w.s)); Inv(l, own, v)
  {
    hide Inv;
    AckShape(l, own, w);
    if w.s.stage == AwaitClear {
      ClearAcked(l, own, w);
    } else if w.s.stage == AwaitCleanup {
      CleanupAcked(l, own, w);
    } else if w.s.stage == AwaitCleared {
      ClearedAcked(l, own, w);
    } else {
      FinishAcked(l, own, w);
    }
  }

  lemma AcceptAckKeeps(l: Limits, own: int, w: World)
    requires Inv(l, own, w)
    ensures var v := AcceptAck(w); Inv(l, own, v)
  {
    hide Inv, Do, OnAck;
    if w.acked {
      if Handling(w.s.stage) { HandlerAcked(l, own, w); } else { MainLineAcked(l, own, w); }
    }
  }

  lemma AcceptRejectKeeps(l: Limits, own: int, w: World)
    requires Inv(l, own, w)
    ensures var v := AcceptReject(w); Inv(l, own, v)
  {
  }

  lemma SeeGuardExitKeeps(l: Limits, own: int, w: World)
    requires Inv(l, own, w)
    ensures var v := SeeGuardExit(w); Inv(l, own, v)
  {
  }

  lemma GuardAccepts(l: Limits, own: int, w: World, v: Guard)
    requires Inv(l, own, w)
    requires w.gs == Up && w.inflight.Some?
    requires exists now :: Take(HostOf(l, own, w), now, w.g, w.inflight.value) == Serving(v)
    ensures var v := w.(g := v, inflight := None, acked := true); Inv(l, own, v)
  {
  }

  lemma GuardFinishes(l: Limits, own: int, w: World)
    requires Inv(l, own, w)
    requires w.gs == Up && w.inflight.Some? && w.inflight.value.verb == Finish && w.g.active.None?
    ensures var v := w.(gs := Gone(0), inflight := None, acked := true); Inv(l, own, v)
  {
  }

  lemma GuardRefuses(l: Limits, own: int, w: World, now: int)
    requires Inv(l, own, w)
    requires w.gs == Up && w.inflight.Some? && Take(HostOf(l, own, w), now, w.g, w.inflight.value).Refused?
    ensures var v := w.(gs := Out(true), inflight := None); Inv(l, own, v)
  {
  }

  lemma GuardTakeKeeps(l: Limits, own: int, w: World, now: int)
    requires Inv(l, own, w)
    ensures var v := GuardTake(l, own, w, now); Inv(l, own, v)
  {
    hide Inv;
    if w.gs == Up && w.inflight.Some? {
      var v := Take(HostOf(l, own, w), now, w.g, w.inflight.value);
      if v.Serving? {
        GuardAccepts(l, own, w, v.g);
      } else if v.Finished? {
        GuardFinishes(l, own, w);
      } else {
        GuardRefuses(l, own, w, now);
      }
    }
  }

  lemma GuardRecoverKeeps(l: Limits, own: int, w: World, helper: int)
    requires Inv(l, own, w)
    ensures var v := GuardRecover(own, w, helper); Inv(l, own, v)
  {
  }

  lemma GuardLeaves(l: Limits, own: int, w: World)
    requires Inv(l, own, w)
    requires w.gs == Up
    ensures var v := w.(gs := Out(false)); Inv(l, own, v)
  {
  }

  lemma GuardQuitsKeeps(l: Limits, own: int, w: World)
    requires Inv(l, own, w)
    requires w.gs.Out?
    ensures var v := w.(gs := Gone(1)); Inv(l, own, v)
  {
  }

  lemma ExpiringKeeps(l: Limits, own: int, w: World)
    requires Inv(l, own, w)
    ensures var v := w.(s := Stopped(w.s).(expired := true)); Inv(l, own, v)
  {
  }

  lemma ChildSpeaks(l: Limits, own: int, w: World, m: Message)
    requires Inv(l, own, w)
    ensures var v := w.(inbox := w.inbox + [m]); Inv(l, own, v)
  {
  }

  lemma ChildLeaves(l: Limits, own: int, w: World)
    requires Inv(l, own, w)
    ensures var v := w.(childUp := false, s := w.s.(exited := true)); Inv(l, own, v)
  {
  }

  lemma SupervisorVanishes(l: Limits, own: int, w: World)
    requires Inv(l, own, w)
    ensures var v := w.(dead := true); Inv(l, own, v)
  {
  }

  lemma GroupDies(l: Limits, own: int, w: World, group: int)
    requires Inv(l, own, w)
    ensures var v := w.(alive := w.alive - {group}, childUp := w.childUp && Some(group) != w.data); Inv(l, own, v)
  {
  }

  lemma HostKeeps(l: Limits, own: int, w: World, e: Event)
    requires Inv(l, own, w)
    ensures var v := HostStep(w, e); Inv(l, own, v)
  {
    hide Inv;
    if e.ChildSays? && w.childUp {
      ChildSpeaks(l, own, w, e.m);
    } else if e.ChildExits? && w.data.Some? {
      ChildLeaves(l, own, w);
    } else if e.Dies? {
      GroupDies(l, own, w, e.group);
    } else if e.SupervisorDies? {
      SupervisorVanishes(l, own, w);
    }
  }

  lemma NextKeeps(l: Limits, own: int, w: World, e: Event)
    requires Inv(l, own, w)
    ensures var v := Next(l, own, w, e); Inv(l, own, v)
  {
    hide Inv, HostStep, GuardTake, GuardRecover, BeginData, HandleNext, DrainAll, SeeGone, GiveUp, BeginCleanup,
      EndCleanup, AcceptAck, AcceptReject, SeeGuardExit;
    SupervisorKeeps(l, own, w, e);
    var v := SupervisorStep(l, own, w, e);
    GuardKeeps(l, own, v, e);
    HostKeeps(l, own, GuardStep(l, own, v, e), e);
  }

  lemma GiveUpKeeps(l: Limits, own: int, w: World)
    requires Inv(l, own, w)
    ensures var v := GiveUp(w); Inv(l, own, v)
  {
    hide Inv;
    if w.s.stage == AwaitGone {
      RunAborts(l, own, w);
    }
  }

  lemma SupervisorKeeps(l: Limits, own: int, w: World, e: Event)
    requires Inv(l, own, w)
    ensures var v := SupervisorStep(l, own, w, e); Inv(l, own, v)
  {
    hide Inv, BeginData, HandleNext, DrainAll, SeeGone, GiveUp, BeginCleanup, EndCleanup, AcceptAck, AcceptReject, SeeGuardExit;
    match e
    case GuardReady(child) => BeginDataKeeps(l, own, w, child);
    case Handles => HandleNextKeeps(l, own, w);
    case Drains => DrainAllKeeps(l, own, w);
    case SeesGone => SeeGoneKeeps(l, own, w);
    case GivesUp => GiveUpKeeps(l, own, w);
    case StartsCleanup(pid) => BeginCleanupKeeps(l, own, w, pid);
    case CleanupExits(exit) => EndCleanupKeeps(l, own, w, exit);
    case Stops => MessageStops(l, own, w);
    case Expires => ExpiringKeeps(l, own, w);
    case AckArrives => AcceptAckKeeps(l, own, w);
    case Rejects => AcceptRejectKeeps(l, own, w);
    case SeesGuardExit => SeeGuardExitKeeps(l, own, w);
    case _ =>
  }

  lemma GuardKeeps(l: Limits, own: int, w: World, e: Event)
    requires Inv(l, own, w)
    ensures var v := GuardStep(l, own, w, e); Inv(l, own, v)
  {
    hide Inv, GuardTake, GuardRecover;
    match e
    case GuardTakes(now) => GuardTakeKeeps(l, own, w, now);
    case GuardLapses => if w.gs == Up { GuardLeaves(l, own, w); }
    case GuardRecovers(helper) => GuardRecoverKeeps(l, own, w, helper);
    case GuardQuits => if w.gs.Out? { GuardQuitsKeeps(l, own, w); }
    case _ =>
  }

  // ----- every run -----

  lemma {:induction false} EveryRun(l: Limits, own: int, run: seq<Event>)
    ensures Inv(l, own, After(l, own, run))
    decreases |run|
  {
    hide Next;
    if run != [] {
      EveryRun(l, own, run[..|run| - 1]);
      hide Inv;
      NextKeeps(l, own, After(l, own, run[..|run| - 1]), run[|run| - 1]);
    }
  }

  /**
   * In every interleaving the guard obeys each command it takes, except the one announcing a
   * cleanup child that failed to start: that one, and only that one, fails its assertion.
   */
  lemma CommandsAreObeyed(l: Limits, own: int, run: seq<Event>, now: int)
    requires var w := After(l, own, run); w.gs == Up && w.inflight.Some?
    ensures var w := After(l, own, run);
            Take(HostOf(l, own, w), now, w.g, w.inflight.value).Refused? <==> w.inflight.value == Command(Cleanup, None)
  {
    EveryRun(l, own, run);
    hide After;
  }

  /**
   * Permits are 1, 2, ..., at most the limit, each given out only after the guard armed that wire;
   * the count reported at the end is of armed wires, at most one more than permits given.
   */
  lemma PermitsAreArmed(l: Limits, own: int, run: seq<Event>)
    ensures var w := After(l, own, run);
            && (forall i | 0 <= i < |w.permits| :: w.permits[i] == i + 1)
            && |w.permits| <= w.g.ordinal <= l.requests
            && (w.s.stage == Returned ==> |w.permits| <= w.s.requested <= |w.permits| + 1)
  {
    hide Agreed, Guarded, Placed;
    EveryRun(l, own, run);
    hide After;
  }

  /** No cleanup and no recovery ever runs beside a data group that was told to consume. */
  lemma DataGroupIsAlone(l: Limits, own: int, run: seq<Event>)
    ensures var w := After(l, own, run);
            w.told && Alive(w, w.data) ==> w.g.active == w.data && w.cleanup.None? && w.recovery.None?
  {
    EveryRun(l, own, run);
    hide After;
  }

  predicate Alive(w: World, group: Option<int>) {
    group.Some? && group.value in w.alive
  }

  /**
   * Data and cleanup groups never live together. Recovery lives beside either only while the
   * guard has no charge at all: it was never told of that group, which was never told to consume.
   */
  lemma GroupsTogether(l: Limits, own: int, run: seq<Event>)
    ensures var w := After(l, own, run);
            && !(Alive(w, w.data) && Alive(w, w.cleanup))
            && (Alive(w, w.recovery) && Alive(w, w.data) ==> w.g.active.None? && !w.told)
            && (Alive(w, w.recovery) && Alive(w, w.cleanup) ==> w.g.active.None?)
  {
    EveryRun(l, own, run);
    hide After;
  }

  lemma Grow(l: Limits, own: int, run: seq<Event>, e: Event) returns (longer: seq<Event>)
    ensures longer == run + [e] && After(l, own, longer) == Next(l, own, After(l, own, run), e)
  {
    hide Next;
    longer := run + [e];
    assert longer[..|run|] == run;
  }

  /** The data child started, nothing said yet. */
  function Started(pid: int): World {
    BEGIN.(s := START.(stage := Listening, active := Some(pid)), childUp := true, data := Some(pid), alive := {pid}, used := {pid})
  }

  lemma StartRun(l: Limits, own: int, pid: int) returns (run: seq<Event>)
    requires pid > 1 && pid != own
    ensures After(l, own, run) == Started(pid)
  {
    run := Grow(l, own, [], GuardReady(Some(pid)));
    assert After(l, own, []) == BEGIN;
    hide After;
  }

  /** The first exception happens: the supervisor dies before it announced the data group. */
  lemma RecoveryMayJoinData(l: Limits, own: int, pid: int, helper: int) returns (run: seq<Event>)
    requires pid > 1 && helper > 1 && pid != own && helper != own && pid != helper
    ensures var w := After(l, own, run); Alive(w, w.data) && Alive(w, w.recovery)
  {
    hide After;
    run := StartRun(l, own, pid);
    run := DeathAndRecovery(l, own, run, helper);
  }

  /** The supervisor dies, the guard leaves its loop and starts recovery. */
  lemma DeathAndRecovery(l: Limits, own: int, run: seq<Event>, helper: int) returns (longer: seq<Event>)
    requires var w := After(l, own, run);
             w.gs == Up && w.recovery.None? && w.g.active.None? && Fresh(own, w, helper)
    ensures After(l, own, longer)
         == Spawn(After(l, own, run).(dead := true, gs := Out(false)), helper).(recovery := Some(helper))
  {
    var w := After(l, own, run);
    hide After;
    longer := Grow(l, own, run, SupervisorDies);
    assert After(l, own, longer) == w.(dead := true);
    longer := Grow(l, own, longer, GuardLapses);
    assert After(l, own, longer) == w.(dead := true, gs := Out(false));
    longer := Grow(l, own, longer, GuardRecovers(helper));
  }

  /** The data group is gone, never announced, and the cleanup child started but not announced. */
  function Cleaning(pid: int, cleanup: int): World {
    BEGIN.(s := START.(stage := AwaitCleanup, exited := true, active := Some(cleanup)), data := Some(pid), cleanup := Some(cleanup),
           inflight := Some(Command(Cleanup, Some(cleanup))), alive := {cleanup}, used := {pid, cleanup})
  }

  lemma CleaningRun(l: Limits, own: int, pid: int, cleanup: int) returns (run: seq<Event>)
    requires pid > 1 && cleanup > 1 && pid != own && cleanup != own && pid != cleanup
    ensures After(l, own, run) == Cleaning(pid, cleanup)
  {
    hide After;
    run := StartRun(l, own, pid);
    var w := Started(pid);
    run := Grow(l, own, run, ChildExits);
    w := w.(childUp := false, s := w.s.(exited := true));
    assert After(l, own, run) == w;
    run := Grow(l, own, run, Dies(pid));
    w := w.(alive := {});
    assert After(l, own, run) == w;
    run := Grow(l, own, run, Drains);
    w := w.(s := w.s.(stage := AwaitGone));
    assert After(l, own, run) == w;
    run := Grow(l, own, run, SeesGone);
    w := w.(s := w.s.(stage := BetweenGroups, active := None));
    assert After(l, own, run) == w;
    run := Grow(l, own, run, StartsCleanup(Some(cleanup)));
  }

  /** The second exception happens: the supervisor dies before it announced the cleanup group. */
  lemma RecoveryMayJoinCleanup(l: Limits, own: int, pid: int, cleanup: int, helper: int) returns (run: seq<Event>)
    requires pid > 1 && cleanup > 1 && helper > 1 && pid != own && cleanup != own && helper != own
    requires pid != cleanup && pid != helper && cleanup != helper
    ensures var w := After(l, own, run); Alive(w, w.cleanup) && Alive(w, w.recovery)
  {
    hide After;
    run := CleaningRun(l, own, pid, cleanup);
    run := DeathAndRecovery(l, own, run, helper);
  }

  /** The guard exits with 0 only when no group is active, and the supervisor returns only when both are gone. */
  lemma CleanExitMeansGone(l: Limits, own: int, run: seq<Event>)
    ensures var w := After(l, own, run);
            && (w.gs == Gone(0) ==> w.g.active.None?)
            && (w.s.stage == Returned ==>
                  && w.gs == Gone(0) && w.data.Some? && w.data.value !in w.alive
                  && w.cleanup.Some? && w.cleanup.value !in w.alive)
  {
    EveryRun(l, own, run);
    hide After;
  }
}
