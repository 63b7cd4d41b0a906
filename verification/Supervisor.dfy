/**
 * The supervisor of one history run: handlers that turn messages of the data child, replies of
 * the guard and timers into guard commands, permits and process starts.
 */
module Supervisor {
  import opened Checks
  import opened Watchdog

  /** A message of the child; anything but an object is ignored, and a value that is no number is `None`. */
  datatype Message = Message(
    isObject: bool, ready: bool, wireBegin: Option<int>, wireSettled: Option<int>, hasBegin: bool, hasSettled: bool)

  /** Where the supervisor waits. The first four still listen to the data child. */
  datatype Stage =
    | Listening | AwaitData | AwaitWire | AwaitSettled
    | AwaitGone | AwaitClear | BetweenGroups | AwaitCleanup | AwaitCleanupExit | AwaitCleared | AwaitFinish | AwaitExit
    | Starting | Returned | Aborted

  datatype State = State(
    stage: Stage, requested: nat, pending: Option<nat>, consumed: bool, stopping: bool, expired: bool,
    exited: bool, active: Option<int>)

  const START := State(Starting, 0, None, false, false, false, false, None)

  /** What a handler does besides changing its own state. */
  datatype Act =
    | Nothing
    | Tell(command: Command)
    | Consume
    | Permit(number: nat)

  datatype Step = Step(s: State, act: Act)

  function Only(s: State): Step {
    Step(s, Nothing)
  }

  function Stopped(s: State): State {
    s.(stopping := true)
  }

  /** One message of the child, while no other is being handled. */
  function OnMessage(limit: nat, s: State, m: Message): Step {
    if s.expired || s.stopping || !m.isObject then Only(s)
    else if m.ready && !s.consumed then
      Step(s.(consumed := true, stage := AwaitData), Tell(Command(Data, s.active)))
    else if m.hasBegin then
      if !s.consumed || s.pending.Some? || m.wireBegin != Some(s.requested + 1) || s.requested >= limit then Only(Stopped(s))
      else
        var n := s.requested + 1;
        Step(s.(requested := n, pending := Some(n), stage := AwaitWire), Tell(Command(Wire, Some(n))))
    else if m.hasSettled then
      if s.pending.None? || m.wireSettled != Some(s.pending.value as int) then Only(Stopped(s))
      else Step(s.(stage := AwaitSettled), Tell(Command(Settled, Some(s.pending.value))))
    else Only(Stopped(s))
  }

  /** The guard acknowledged the outstanding command. */
  function OnAck(s: State): Step {
    match s.stage
    case AwaitData => Step(s.(stage := Listening), if s.stopping || s.expired then Nothing else Consume)
    case AwaitWire =>
      Step(s.(stage := Listening), if s.stopping || s.expired || s.pending.None? then Nothing else Permit(s.pending.value))
    case AwaitSettled => Only(s.(stage := Listening, pending := None))
    case AwaitClear => Only(s.(stage := BetweenGroups, active := None))
    case AwaitCleanup => Only(s.(stage := AwaitCleanupExit))
    case AwaitCleared => Step(s.(stage := AwaitFinish, active := None), Tell(Command(Finish, None)))
    case AwaitFinish => Only(s.(stage := AwaitExit))
    case _ => Only(s)
  }

  /** The guard is gone: a handler stops the run, the main line gives up. */
  function OnReject(s: State): State {
    match s.stage
    case AwaitData | AwaitWire | AwaitSettled => Stopped(s.(stage := Listening))
    case AwaitClear | AwaitCleanup | AwaitCleared | AwaitFinish => s.(stage := Aborted)
    case _ => s
  }

  /** The guard is ready: start the data child, unless the run was stopped meanwhile. */
  function OnGuardReady(s: State, child: Option<int>): State {
    if s.stopping || s.expired || child.None? then s.(stage := Aborted)
    else s.(stage := Listening, active := child)
  }

  /** The data group is gone: clear it at the guard if it was ever told of it. */
  function OnGone(s: State): Step {
    if s.consumed then Step(s.(stage := AwaitClear), Tell(Command(Clear, s.active)))
    else Only(s.(stage := BetweenGroups, active := None))
  }

  /** Start the cleanup child and tell the guard, pid or not. */
  function OnStartCleanup(s: State, cleanup: Option<int>): Step {
    if s.expired then Only(s.(stage := Aborted))
    else Step(s.(stage := AwaitCleanup, active := cleanup), Tell(Command(Cleanup, cleanup)))
  }

  /** The cleanup child exited. */
  function OnCleanupExit(s: State, code: int, gone: bool): Step {
    if s.active.Some? && gone && code == 0 && !s.expired then
      Step(s.(stage := AwaitCleared), Tell(Command(Clear, s.active)))
    else Only(s.(stage := Aborted))
  }

  /** The guard exited after the finish command. */
  function OnGuardExit(s: State, code: int): State {
    s.(stage := if code == 0 then Returned else Aborted)
  }

  /** The handlers as they run, on the variables they share. */
  class Supervision {
    const limit: nat
    var stage: Stage
    var requested: nat
    var pending: Option<nat>
    var consumed: bool
    var stopping: bool
    var expired: bool
    var exited: bool
    var active: Option<int>

    function Now(): State
      reads this
    {
      State(stage, requested, pending, consumed, stopping, expired, exited, active)
    }

    constructor (limit: nat)
      ensures this.limit == limit && Now() == START
    {
      this.limit := limit;
      stage, requested, pending := Starting, 0, None;
      consumed, stopping, expired, exited, active := false, false, false, false, None;
    }

    method Receive(m: Message) returns (act: Act)
      modifies this
      ensures Step(Now(), act) == OnMessage(limit, old(Now()), m)
    {
      act := Nothing;
      if expired || stopping || !m.isObject {
        return;
      }
      if m.ready && !consumed {
        consumed, stage := true, AwaitData;
        act := Tell(Command(Data, active));
      } else if m.hasBegin {
        if !consumed || pending.Some? || m.wireBegin != Some(requested + 1) || requested >= limit {
          stopping := true;
          return;
        }
        requested := requested + 1;
        pending, stage := Some(requested), AwaitWire;
        act := Tell(Command(Wire, Some(requested)));
      } else if m.hasSettled {
        if pending.None? || m.wireSettled != Some(pending.value as int) {
          stopping := true;
          return;
        }
        stage := AwaitSettled;
        act := Tell(Command(Settled, Some(pending.value)));
      } else {
        stopping := true;
      }
    }

    method Acknowledged() returns (act: Act)
      modifies this
      ensures Step(Now(), act) == OnAck(old(Now()))
    {
      act := Nothing;
      match stage {
        case AwaitData =>
          stage := Listening;
          if !stopping && !expired { act := Consume; }
        case AwaitWire =>
          stage := Listening;
          if !stopping && !expired && pending.Some? { act := Permit(pending.value); }
        case AwaitSettled =>
          stage, pending := Listening, None;
        case AwaitClear =>
          stage, active := BetweenGroups, None;
        case AwaitCleanup =>
          stage := AwaitCleanupExit;
        case AwaitCleared =>
          stage, active := AwaitFinish, None;
          act := Tell(Command(Finish, None));
        case AwaitFinish =>
          stage := AwaitExit;
        case _ =>
      }
    }

    method Rejected()
      modifies this
      ensures Now() == OnReject(old(Now()))
    {
      match stage {
        case AwaitData | AwaitWire | AwaitSettled =>
          stage, stopping := Listening, true;
        case AwaitClear | AwaitCleanup | AwaitCleared | AwaitFinish =>
          stage := Aborted;
        case _ =>
      }
    }

    method GuardReady(child: Option<int>)
      modifies this
      ensures Now() == OnGuardReady(old(Now()), child)
    {
      if stopping || expired || child.None? {
        stage := Aborted;
      } else {
        stage, active := Listening, child;
      }
    }

    method GroupGone() returns (act: Act)
      modifies this
      ensures Step(Now(), act) == OnGone(old(Now()))
    {
      if consumed {
        act := Tell(Command(Clear, active));
        stage := AwaitClear;
      } else {
        act := Nothing;
        stage, active := BetweenGroups, None;
      }
    }

    method StartCleanup(cleanup: Option<int>) returns (act: Act)
      modifies this
      ensures Step(Now(), act) == OnStartCleanup(old(Now()), cleanup)
    {
      if expired {
        act := Nothing;
        stage := Aborted;
      } else {
        act := Tell(Command(Cleanup, cleanup));
        stage, active := AwaitCleanup, cleanup;
      }
    }

    method CleanupExited(code: int, gone: bool) returns (act: Act)
      modifies this
      ensures Step(Now(), act) == OnCleanupExit(old(Now()), code, gone)
    {
      if active.Some? && gone && code == 0 && !expired {
        act := Tell(Command(Clear, active));
        stage := AwaitCleared;
      } else {
        act := Nothing;
        stage := Aborted;
      }
    }

    method GuardExited(code: int)
      modifies this
      ensures Now() == OnGuardExit(old(Now()), code)
    {
      stage := if code == 0 then Returned else Aborted;
    }

    method Stop()
      modifies this
      ensures Now() == Stopped(old(Now()))
    {
      stopping := true;
    }

    method Expire()
      modifies this
      ensures Now() == Stopped(old(Now())).(expired := true)
    {
      stopping, expired := true, true;
    }

    method ChildExited()
      modifies this
      ensures Now() == old(Now()).(exited := true)
    {
      exited := true;
    }

    /** Every message is handled: from here on the main line waits. */
    method WaitAt(next: Stage)
      modifies this
      ensures Now() == old(Now()).(stage := next)
    {
      stage := next;
    }
  }
}
