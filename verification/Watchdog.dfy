/**
 * The independent guard over one process group: commands in lines, deadlines, and what each
 * command must find. It knows nothing of the supervisor but its pipe.
 */
module Watchdog {
  import opened Checks

  datatype Limits = Limits(processMs: int, operationMs: int, wireMs: int, requests: nat)

  datatype Verb = Data | Cleanup | Wire | Settled | Clear | Finish

  /** A value is absent when the line carries none. */
  datatype Command = Command(verb: Verb, value: Option<int>)

  /** What the guard remembers: the group it answers for, the wires armed so far, the open one. */
  datatype Guard = Guard(active: Option<int>, ordinal: nat, pending: Option<int>, operationEnd: Option<int>, wireEnd: Option<int>)

  const IDLE := Guard(None, 0, None, None, None)

  /** How one command ends: accepted, accepted and finished, or a failed assertion. */
  datatype Verdict = Serving(g: Guard) | Finished | Refused

  /** `own` is the guard's own group; `gone` says of a group whether no process is left in it. */
  datatype Host = Host(limits: Limits, own: int, gone: int -> bool)

  function Take(h: Host, now: int, g: Guard, c: Command): Verdict {
    match c.verb
    case Data =>
      if g.active.None? && c.value.Some? && c.value.value > 1 && c.value.value != h.own then
        Serving(g.(active := c.value, operationEnd := Some(now + h.limits.operationMs)))
      else Refused
    case Cleanup =>
      if g.active.None? && c.value.Some? && c.value.value > 1 && c.value.value != h.own then
        Serving(g.(active := c.value, operationEnd := None))
      else Refused
    case Wire =>
      if g.active.Some? && g.pending.None? && c.value == Some(g.ordinal + 1) && g.ordinal + 1 <= h.limits.requests then
        Serving(g.(ordinal := g.ordinal + 1, pending := c.value, wireEnd := Some(now + h.limits.wireMs)))
      else Refused
    case Settled =>
      if g.pending == c.value then Serving(g.(pending := None, wireEnd := None)) else Refused
    case Clear =>
      if g.active.Some? && g.active == c.value && h.gone(g.active.value) then
        Serving(g.(active := None, operationEnd := None, wireEnd := None, pending := None))
      else Refused
    case Finish =>
      if g.active.None? then Finished else Refused
  }

  function Earliest(a: int, b: Option<int>): int {
    if b.Some? && b.value < a then b.value else a
  }

  function Deadline(g: Guard, end: int): int {
    Earliest(Earliest(end, g.operationEnd), g.wireEnd)
  }

  function LineEnd(s: string): (n: nat)
    ensures n <= |s| && (n < |s| ==> s[n] == '\n') && forall i | 0 <= i < n :: s[i] != '\n'
  {
    if s == "" || s[0] == '\n' then 0 else 1 + LineEnd(s[1..])
  }

  /** A guard at work on a buffer of unread text, or how it left its loop. */
  datatype Progress = At(g: Guard, buffer: string) | Left(last: Guard, finished: bool)

  /** Take every complete line of the buffer. */
  function Drain(h: Host, now: int, parse: string -> Option<Command>, g: Guard, buffer: string): Progress
    decreases |buffer|
  {
    var n := LineEnd(buffer);
    if n == |buffer| then At(g, buffer)
    else
      var c := parse(buffer[..n]);
      if c.None? then Left(g, false)
      else
        var v := Take(h, now, g, c.value);
        if v.Serving? then Drain(h, now, parse, v.g, buffer[n + 1..]) else Left(g, v.Finished?)
  }

  const BUFFER_LIMIT: nat := 8192

  /** One reading of the pipe; `None` when nothing was ready, empty data at end of file. */
  datatype Reading = Reading(now: int, data: Option<string>)

  function Read(h: Host, end: int, parse: string -> Option<Command>, g: Guard, buffer: string, r: Reading): Progress {
    if r.now >= Deadline(g, end) then Left(g, false)
    else if r.data.None? then At(g, buffer)
    else if r.data.value == "" then Left(g, false)
    else if |buffer + r.data.value| > BUFFER_LIMIT then Left(g, false)
    else Drain(h, r.now, parse, g, buffer + r.data.value)
  }

  function ReadAll(h: Host, end: int, parse: string -> Option<Command>, p: Progress, rs: seq<Reading>): Progress
    decreases |rs|
  {
    if rs == [] || p.Left? then p else ReadAll(h, end, parse, Read(h, end, parse, p.g, p.buffer, rs[0]), rs[1..])
  }

  class Loop {
    const host: Host
    const end: int
    const parse: string -> Option<Command>
    var active: Option<int>
    var ordinal: nat
    var pending: Option<int>
    var operationEnd: Option<int>
    var wireEnd: Option<int>
    var buffer: string
    var left: bool
    var finished: bool

    function State(): Guard
      reads this
    {
      Guard(active, ordinal, pending, operationEnd, wireEnd)
    }

    function Now(): Progress
      reads this
    {
      if left then Left(State(), finished) else At(State(), buffer)
    }

    constructor (host: Host, end: int, parse: string -> Option<Command>)
      ensures Now() == At(IDLE, "")
      ensures this.host == host && this.end == end && this.parse == parse
    {
      this.host, this.end, this.parse := host, end, parse;
      active, ordinal, pending, operationEnd, wireEnd := None, 0, None, None, None;
      buffer, left, finished := "", false, false;
    }

    /** Obey one command, or fail its assertion and change nothing. */
    method Obey(c: Command, now: int) returns (v: Verdict)
      modifies this`active, this`ordinal, this`pending, this`operationEnd, this`wireEnd
      ensures v == Take(host, now, old(State()), c)
      ensures State() == if v.Serving? then v.g else old(State())
    {
      match c.verb {
        case Data | Cleanup =>
          if active.Some? || c.value.None? || c.value.value <= 1 || c.value.value == host.own {
            return Refused;
          }
          active := c.value;
          operationEnd := if c.verb == Data then Some(now + host.limits.operationMs) else None;
        case Wire =>
          if active.None? || pending.Some? || c.value != Some(ordinal + 1) || ordinal + 1 > host.limits.requests {
            return Refused;
          }
          ordinal, pending, wireEnd := ordinal + 1, c.value, Some(now + host.limits.wireMs);
        case Settled =>
          if pending != c.value {
            return Refused;
          }
          pending, wireEnd := None, None;
        case Clear =>
          if active.None? || active != c.value || !host.gone(active.value) {
            return Refused;
          }
          active, operationEnd, wireEnd, pending := None, None, None, None;
        case Finish =>
          return if active.None? then Finished else Refused;
      }
      return Serving(State());
    }

    /** Obey every complete line in the buffer. */
    method DrainBuffer(now: int)
      requires !left
      modifies this
      ensures Now() == Drain(host, now, parse, old(State()), old(buffer))
    {
      var n := LineEnd(buffer);
      while n < |buffer|
        invariant n == LineEnd(buffer) && !left
        invariant Drain(host, now, parse, State(), buffer) == Drain(host, now, parse, old(State()), old(buffer))
        decreases |buffer|
      {
        var c := parse(buffer[..n]);
        if c.None? {
          left, finished := true, false;
          return;
        }
        var v := Obey(c.value, now);
        if !v.Serving? {
          left, finished := true, v.Finished?;
          return;
        }
        buffer := buffer[n + 1..];
        n := LineEnd(buffer);
      }
    }

    /** The loop: leave at a deadline, at end of file, on too much unread text or a failed command. */
    method Run(rs: seq<Reading>)
      modifies this
      ensures Now() == ReadAll(host, end, parse, old(Now()), rs)
    {
      var i := 0;
      while i < |rs| && !left
        invariant 0 <= i <= |rs|
        invariant ReadAll(host, end, parse, Now(), rs[i..]) == ReadAll(host, end, parse, old(Now()), rs)
      {
        assert rs[i..][0] == rs[i] && rs[i..][1..] == rs[i + 1..];
        var r := rs[i];
        if r.now >= Deadline(State(), end) {
          left, finished := true, false;
        } else if r.data.Some? {
          if r.data.value == "" || |buffer + r.data.value| > BUFFER_LIMIT {
            left, finished := true, false;
          } else {
            buffer := buffer + r.data.value;
            DrainBuffer(r.now);
          }
        }
        i := i + 1;
      }
    }
  }

  // ----- how text is cut does not matter -----

  lemma {:induction false} LineEndOfConcat(a: string, b: string)
    ensures LineEnd(a + b) == if LineEnd(a) < |a| then LineEnd(a) else |a| + LineEnd(b)
  {
    if a == "" {
      assert a + b == b;
    } else {
      assert (a + b)[1..] == a[1..] + b;
      LineEndOfConcat(a[1..], b);
    }
  }

  /** Draining in two pieces is draining the whole. */
  lemma {:induction false} DrainInPieces(h: Host, now: int, parse: string -> Option<Command>, g: Guard, a: string, b: string)
    ensures Drain(h, now, parse, g, a + b) ==
            var p := Drain(h, now, parse, g, a);
            if p.Left? then p else Drain(h, now, parse, p.g, p.buffer + b)
    decreases |a|
  {
    LineEndOfConcat(a, b);
    var n := LineEnd(a);
    if n < |a| {
      assert (a + b)[..n] == a[..n] && (a + b)[n + 1..] == a[n + 1..] + b;
      var c := parse(a[..n]);
      if c.Some? {
        var v := Take(h, now, g, c.value);
        if v.Serving? {
          DrainInPieces(h, now, parse, v.g, a[n + 1..], b);
        }
      }
    }
  }

  // ----- what every run keeps -----

  /** Wires are armed in order and within the limit; the open one is the last armed. */
  predicate Ordered(h: Host, g: Guard) {
    && g.ordinal <= h.limits.requests
    && (g.pending.Some? ==> g.active.Some? && g.pending == Some(g.ordinal))
    && (g.active.Some? ==> g.active.value > 1 && g.active.value != h.own)
    && (g.wireEnd.Some? <==> g.pending.Some?)
  }

  lemma TakeKeepsOrdered(h: Host, now: int, g: Guard, c: Command)
    requires Ordered(h, g)
    ensures var v := Take(h, now, g, c);
            && (v.Serving? ==> Ordered(h, v.g) && g.ordinal <= v.g.ordinal <= g.ordinal + 1)
            && (v.Finished? ==> g.active.None? && g.pending.None?)
  {
  }

  lemma {:induction false} DrainKeepsOrdered(h: Host, now: int, parse: string -> Option<Command>, g: Guard, buffer: string)
    requires Ordered(h, g)
    ensures var p := Drain(h, now, parse, g, buffer);
            && Ordered(h, if p.At? then p.g else p.last)
            && (p.Left? && p.finished ==> p.last.active.None?)
    decreases |buffer|
  {
    var n := LineEnd(buffer);
    if n < |buffer| {
      var c := parse(buffer[..n]);
      if c.Some? {
        TakeKeepsOrdered(h, now, g, c.value);
        var v := Take(h, now, g, c.value);
        if v.Serving? {
          DrainKeepsOrdered(h, now, parse, v.g, buffer[n + 1..]);
        }
      }
    }
  }

  /** Over any readings at all: at most `requests` wires, and a clean finish only with no group. */
  lemma {:induction false} RunIsOrdered(h: Host, end: int, parse: string -> Option<Command>, p: Progress, rs: seq<Reading>)
    requires Ordered(h, if p.At? then p.g else p.last) && (p.Left? && p.finished ==> p.last.active.None?)
    ensures var q := ReadAll(h, end, parse, p, rs);
            && Ordered(h, if q.At? then q.g else q.last)
            && (q.Left? && q.finished ==> q.last.active.None?)
    decreases |rs|
  {
    if rs != [] && p.At? {
      if rs[0].data.Some? {
        DrainKeepsOrdered(h, rs[0].now, parse, p.g, p.buffer + rs[0].data.value);
      }
      RunIsOrdered(h, end, parse, Read(h, end, parse, p.g, p.buffer, rs[0]), rs[1..]);
    }
  }
}
