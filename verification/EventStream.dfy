/**
 * The incremental reader of an event stream: frames end at a blank line (the LF-only part of
 * section 9.2 of the WHATWG HTML standard), however the text was cut into chunks.
 */
module EventStream {
  import opened Checks

  datatype Event = Event(name: string, id: Option<string>, data: string)

  datatype Status = Open | Overflow | BadData

  datatype Reading = Reading(events: seq<Event>, pending: string, status: Status)

  const PENDING_LIMIT: nat := 262144

  predicate BlankAt(s: string, n: nat) {
    n + 2 <= |s| && s[n] == '\n' && s[n + 1] == '\n'
  }

  /** The position of the leftmost blank line, or the length of the text. */
  function Boundary(s: string): (n: nat)
    ensures n <= |s| && (n < |s| ==> n + 2 <= |s| && BlankAt(s, n)) && forall i | 0 <= i < n :: !BlankAt(s, i)
  {
    if s == "" || BlankAt(s, 0) then 0
    else
      var n := 1 + Boundary(s[1..]);
      assert forall i | 0 < i < n :: BlankAt(s, i) == BlankAt(s[1..], i - 1);
      n
  }

  function Lines(s: string): (lines: seq<string>)
    ensures lines != []
  {
    if s == "" then [""]
    else
      var rest := Lines(s[1..]);
      if s[0] == '\n' then [""] + rest else [[s[0]] + rest[0]] + rest[1..]
  }

  /** The rest of the first line that starts with the prefix. */
  function Field(lines: seq<string>, prefix: string): Option<string> {
    if lines == [] then None
    else if prefix <= lines[0] then Some(lines[0][|prefix|..])
    else Field(lines[1..], prefix)
  }

  /** A block without both a name and data yields nothing; data must be well-formed. */
  datatype Yield = Nothing | One(event: Event) | Bad

  function YieldOf(json: string -> bool, block: string): Yield {
    var lines := Lines(block);
    var name, data := Field(lines, "event: "), Field(lines, "data: ");
    if name.None? || name.value == "" || data.None? || data.value == "" then Nothing
    else if !json(data.value) then Bad
    else One(Event(name.value, Field(lines, "id: "), data.value))
  }

  function Then(events: seq<Event>, r: Reading): Reading {
    Reading(events + r.events, r.pending, r.status)
  }

  function Yielded(y: Yield): seq<Event> {
    if y.One? then [y.event] else []
  }

  /** Take every complete block of the text. */
  function Drain(json: string -> bool, text: string): Reading
    decreases |text|
  {
    var n := Boundary(text);
    if n == |text| then Reading([], text, Open)
    else
      var y, rest := YieldOf(json, text[..n]), text[n + 2..];
      if y.Bad? then Reading([], rest, BadData) else Then(Yielded(y), Drain(json, rest))
  }

  /** Take chunk after chunk. */
  function Receive(json: string -> bool, pending: string, chunks: seq<string>): Reading
    decreases |chunks|
  {
    if chunks == [] then Reading([], pending, Open)
    else
      var text := pending + chunks[0];
      if |text| > PENDING_LIMIT then Reading([], text, Overflow)
      else
        var d := Drain(json, text);
        if d.status == Open then Then(d.events, Receive(json, d.pending, chunks[1..])) else d
  }

  /** The inner loop: slice off block after block. */
  method TakeBlocks(json: string -> bool, text: string) returns (r: Reading)
    ensures r == Drain(json, text)
  {
    hide YieldOf, Yielded, Drain, Boundary, Then, BlankAt;
    ThenNothing(Drain(json, text));
    var events: seq<Event>, pending, n := [], text, Boundary(text);
    while n < |pending|
      invariant n == Boundary(pending)
      invariant Then(events, Drain(json, pending)) == Drain(json, text)
      decreases |pending|
    {
      DrainStep(json, pending);
      var block := pending[..n];
      pending := pending[n + 2..];
      var y := YieldOf(json, block);
      if y.Bad? {
        ThenParts(events, Reading([], pending, BadData));
        assert events + [] == events;
        return Reading(events, pending, BadData);
      }
      ThenTwice(events, Yielded(y), Drain(json, pending));
      events := events + Yielded(y);
      n := Boundary(pending);
    }
    DrainWhole(json, pending);
    ThenParts(events, Reading([], pending, Open));
    assert events + [] == events;
    return Reading(events, pending, Open);
  }

  /** The reader as it runs. */
  method Read(json: string -> bool, chunks: seq<string>) returns (r: Reading)
    ensures r == Receive(json, "", chunks)
  {
    hide Drain;
    var events: seq<Event>, pending, i := [], "", 0;
    assert chunks[0..] == chunks;
    while i < |chunks|
      invariant 0 <= i <= |chunks|
      invariant Then(events, Receive(json, pending, chunks[i..])) == Receive(json, "", chunks)
    {
      assert chunks[i..][0] == chunks[i] && chunks[i..][1..] == chunks[i + 1..];
      pending := pending + chunks[i];
      if |pending| > PENDING_LIMIT {
        return Reading(events, pending, Overflow);
      }
      var d := TakeBlocks(json, pending);
      if d.status != Open {
        return Then(events, d);
      }
      ThenTwice(events, d.events, Receive(json, d.pending, chunks[i + 1..]));
      events, pending := events + d.events, d.pending;
      i := i + 1;
    }
    return Reading(events, pending, Open);
  }

  lemma ThenTwice(a: seq<Event>, b: seq<Event>, r: Reading)
    ensures Then(a, Then(b, r)) == Then(a + b, r)
  {
    assert a + (b + r.events) == a + b + r.events;
  }

  // ----- how the text is cut does not matter -----

  function Concat(chunks: seq<string>): string {
    if chunks == [] then "" else chunks[0] + Concat(chunks[1..])
  }

  /** The leftmost blank line of a text is that of any longer one. */
  lemma BoundaryOfConcat(a: string, b: string)
    requires Boundary(a) < |a|
    ensures Boundary(a + b) == Boundary(a)
  {
    var n := Boundary(a);
    assert BlankAt(a + b, n);
    forall i | 0 <= i < n ensures !BlankAt(a + b, i) {
      assert !BlankAt(a, i);
    }
    BoundaryIs(a + b, n);
  }

  lemma BoundaryIs(s: string, n: nat)
    requires BlankAt(s, n) && forall i | 0 <= i < n :: !BlankAt(s, i)
    ensures Boundary(s) == n
  {
    var m := Boundary(s);
    assert m < |s| ==> BlankAt(s, m);
    assert n < m ==> !BlankAt(s, n);
  }

  lemma {:induction false} DrainInPieces(json: string -> bool, a: string, b: string)
    ensures var d, e := Drain(json, a), Drain(json, a + b);
            if d.status == Open then e == Then(d.events, Drain(json, d.pending + b))
            else e.events == d.events && e.status == d.status
    decreases |a|
  {
    hide YieldOf, Then, Yielded, Drain, Boundary;
    var n := Boundary(a);
    if n < |a| {
      var tail := a[n + 2..];
      BoundaryOfConcat(a, b);
      assert (a + b)[..n] == a[..n] && (a + b)[n + 2..] == tail + b;
      DrainInPieces(json, tail, b);
      var y, d := YieldOf(json, a[..n]), Drain(json, tail);
      DrainStep(json, a);
      DrainStep(json, a + b);
      ThenParts(Yielded(y), d);
      ThenParts(Yielded(y), Drain(json, tail + b));
      ThenTwice(Yielded(y), d.events, Drain(json, d.pending + b));
    } else {
      DrainWhole(json, a);
      ThenNothing(Drain(json, a + b));
    }
  }

  lemma DrainWhole(json: string -> bool, text: string)
    requires Boundary(text) == |text|
    ensures Drain(json, text) == Reading([], text, Open)
  {
  }

  lemma DrainStep(json: string -> bool, text: string)
    requires Boundary(text) < |text|
    ensures var n := Boundary(text);
            var y, rest := YieldOf(json, text[..n]), text[n + 2..];
            Drain(json, text) == if y.Bad? then Reading([], rest, BadData) else Then(Yielded(y), Drain(json, rest))
  {
    hide YieldOf;
  }

  lemma ThenParts(events: seq<Event>, r: Reading)
    ensures Then(events, r).events == events + r.events && Then(events, r).status == r.status && Then(events, r).pending == r.pending
  {
  }

  lemma ThenNothing(r: Reading)
    ensures Then([], r) == r
  {
  }

  /** Nothing complete is left pending. */
  lemma {:induction false} DrainedIsPending(json: string -> bool, text: string)
    ensures var d := Drain(json, text);
            d.status == Open ==> Boundary(d.pending) == |d.pending|
    decreases |text|
  {
    var n := Boundary(text);
    if n < |text| {
      DrainedIsPending(json, text[n + 2..]);
    }
  }

  /**
   * Every way of cutting a text into chunks that never overflows yields the events of the whole
   * text, ends in the same state, and leaves the same text pending.
   */
  lemma {:induction false} CutsDoNotMatter(json: string -> bool, pending: string, chunks: seq<string>)
    requires Boundary(pending) == |pending| && Receive(json, pending, chunks).status != Overflow
    ensures var r, whole := Receive(json, pending, chunks), Drain(json, pending + Concat(chunks));
            && r.events == whole.events && r.status == whole.status
            && (r.status == Open ==> r.pending == whole.pending)
    decreases |chunks|
  {
    hide Drain, Boundary;
    if chunks == [] {
      assert pending + Concat(chunks) == pending;
      DrainWhole(json, pending);
    } else {
      var text, rest := pending + chunks[0], Concat(chunks[1..]);
      assert pending + Concat(chunks) == text + rest;
      DrainInPieces(json, text, rest);
      DrainedIsPending(json, text);
      var d := Drain(json, text);
      if d.status == Open {
        CutsDoNotMatter(json, d.pending, chunks[1..]);
      }
    }
  }

  // ----- blocks -----

  function Blocks(text: string): seq<string>
    decreases |text|
  {
    var n := Boundary(text);
    if n == |text| then [] else [text[..n]] + Blocks(text[n + 2..])
  }

  function Remainder(text: string): string
    decreases |text|
  {
    var n := Boundary(text);
    if n == |text| then text else Remainder(text[n + 2..])
  }

  function Joined(blocks: seq<string>, remainder: string): string {
    if blocks == [] then remainder else blocks[0] + ("\n\n" + Joined(blocks[1..], remainder))
  }

  lemma BlockIsWhole(text: string)
    requires Boundary(text) < |text|
    ensures var n := Boundary(text);
            && Boundary(text[..n]) == n && text[n] == '\n' && text[n + 1] == '\n'
  {
    var n := Boundary(text);
    var block := text[..n];
    var m := Boundary(block);
    assert m < n ==> BlankAt(block, m) && BlankAt(text, m);
  }

  /** The blocks and the remainder put back together are the text, and none hides a blank line. */
  lemma {:induction false} BlocksRecompose(text: string)
    ensures Joined(Blocks(text), Remainder(text)) == text
    ensures Boundary(Remainder(text)) == |Remainder(text)|
    ensures forall i | 0 <= i < |Blocks(text)| :: Boundary(Blocks(text)[i]) == |Blocks(text)[i]|
    decreases |text|
  {
    hide BlankAt, Boundary, Blocks, Remainder;
    BlocksStep(text);
    var n := Boundary(text);
    if n < |text| {
      var block, rest := text[..n], text[n + 2..];
      BlocksRecompose(rest);
      BlockIsWhole(text);
      JoinedMore(block, Blocks(rest), Remainder(rest));
      assert text == block + ("\n\n" + rest);
    }
  }

  lemma {:induction false} BlocksStep(text: string)
    ensures var n := Boundary(text);
            && (n == |text| ==> Blocks(text) == [] && Remainder(text) == text)
            && (n < |text| ==> n + 2 <= |text| && Blocks(text) == [text[..n]] + Blocks(text[n + 2..])
                               && Remainder(text) == Remainder(text[n + 2..]))
  {
    hide BlankAt;
  }

  lemma JoinedMore(block: string, blocks: seq<string>, remainder: string)
    ensures Joined([block] + blocks, remainder) == block + ("\n\n" + Joined(blocks, remainder))
  {
    assert ([block] + blocks)[1..] == blocks;
  }

  /** The events the blocks yield, up to the first malformed one. */
  function EventsOf(json: string -> bool, blocks: seq<string>): seq<Event> {
    if blocks == [] then []
    else
      var y := YieldOf(json, blocks[0]);
      if y.Bad? then [] else Yielded(y) + EventsOf(json, blocks[1..])
  }

  /** Draining yields block by block exactly what the leftmost splitting yields. */
  lemma {:induction false} DrainIsSplit(json: string -> bool, text: string)
    ensures var d := Drain(json, text);
            && d.events == EventsOf(json, Blocks(text))
            && (d.status == Open <==> forall b | b in Blocks(text) :: !YieldOf(json, b).Bad?)
            && (d.status == Open ==> d.pending == Remainder(text))
    decreases |text|
  {
    hide YieldOf, Drain, Blocks, Remainder, Boundary, BlankAt, Then, Yielded;
    BlocksStep(text);
    var n := Boundary(text);
    if n < |text| {
      DrainIsSplit(json, text[n + 2..]);
      DrainStep(json, text);
      var rest := Drain(json, text[n + 2..]);
      ThenParts(Yielded(YieldOf(json, text[..n])), rest);
      assert ([text[..n]] + Blocks(text[n + 2..]))[1..] == Blocks(text[n + 2..]);
    } else {
      DrainWhole(json, text);
    }
  }

  // ----- what the server writes is what the client reads -----

  datatype Frame = KeepAlive | Notice(event: Event)

  predicate OneLine(s: string) {
    forall i | 0 <= i < |s| :: s[i] != '\n'
  }

  /** A frame whose fields are single lines, its name and data not empty, its data well-formed. */
  predicate Sendable(json: string -> bool, f: Frame) {
    f.Notice? ==> OneLiner(f.event) && json(f.event.data)
  }

  predicate OneLiner(e: Event) {
    && OneLine(e.name) && e.name != "" && OneLine(e.data) && e.data != ""
    && (e.id.Some? ==> OneLine(e.id.value))
  }

  function Head(e: Event): seq<string> {
    (if e.id.Some? then ["id: " + e.id.value] else []) + ["event: " + e.name, "data: " + e.data]
  }

  function FrameLines(f: Frame): (lines: seq<string>)
    ensures lines != []
  {
    if f.KeepAlive? then [": keepalive"] else Head(f.event)
  }

  function JoinLines(lines: seq<string>): string
    requires lines != []
  {
    if |lines| == 1 then lines[0] else lines[0] + ("\n" + JoinLines(lines[1..]))
  }

  function Sent(fs: seq<Frame>): string {
    if fs == [] then "" else JoinLines(FrameLines(fs[0])) + ("\n\n" + Sent(fs[1..]))
  }

  function Notices(fs: seq<Frame>): seq<Event> {
    if fs == [] then [] else (if fs[0].Notice? then [fs[0].event] else []) + Notices(fs[1..])
  }

  lemma {:induction false} LinesOfJoined(lines: seq<string>)
    requires lines != [] && forall l | l in lines :: OneLine(l)
    ensures Lines(JoinLines(lines)) == lines
    decreases lines
  {
    if |lines| == 1 {
      LinesOfOne(lines[0]);
    } else {
      LinesOfJoined(lines[1..]);
      LinesOfFirst(lines[0], JoinLines(lines[1..]));
      assert lines == [lines[0]] + lines[1..];
    }
  }

  lemma {:induction false} LinesOfOne(s: string)
    requires OneLine(s)
    ensures Lines(s) == [s]
  {
    if s != "" {
      LinesOfOne(s[1..]);
      assert s == [s[0]] + s[1..];
    }
  }

  lemma {:induction false} LinesOfFirst(s: string, rest: string)
    requires OneLine(s)
    ensures Lines(s + ("\n" + rest)) == [s] + Lines(rest)
  {
    var text := s + ("\n" + rest);
    if s == "" {
      assert text == "\n" + rest && text[1..] == rest;
    } else {
      LinesOfFirst(s[1..], rest);
      assert text[1..] == s[1..] + ("\n" + rest);
      assert ([s[1..]] + Lines(rest))[1..] == Lines(rest);
      assert s == [s[0]] + s[1..];
    }
  }

  /** Non-empty lines joined contain no blank line, and do not end in a line feed. */
  lemma {:induction false} JoinedHasNoBlank(lines: seq<string>)
    requires lines != [] && forall l | l in lines :: OneLine(l) && l != ""
    ensures var s := JoinLines(lines); s != "" && s[0] != '\n' && s[|s| - 1] != '\n' && forall i | 0 <= i < |s| :: !BlankAt(s, i)
    decreases lines
  {
    var first := lines[0];
    assert first in lines;
    if |lines| > 1 {
      var rest := JoinLines(lines[1..]);
      JoinedHasNoBlank(lines[1..]);
      var s := first + ("\n" + rest);
      forall i | 0 <= i < |s| ensures !BlankAt(s, i) {
        if i > |first| && i + 2 <= |s| {
          assert s[i] == rest[i - |first| - 1] && s[i + 1] == rest[i - |first|];
          assert !BlankAt(rest, i - |first| - 1);
        }
      }
    }
  }

  lemma NotBlank(s: string, text: string, i: nat)
    requires s <= text && i < |s| && s[|s| - 1] != '\n' && !BlankAt(s, i)
    ensures !BlankAt(text, i)
  {
  }

  lemma BoundaryAfter(s: string, rest: string)
    requires s != "" && s[|s| - 1] != '\n' && forall i | 0 <= i < |s| :: !BlankAt(s, i)
    ensures Boundary(s + ("\n\n" + rest)) == |s|
  {
    hide Boundary;
    var text := s + ("\n\n" + rest);
    assert text[|s|] == '\n' && text[|s| + 1] == '\n';
    forall i | 0 <= i < |s| ensures !BlankAt(text, i) {
      NotBlank(s, text, i);
    }
    BoundaryIs(text, |s|);
  }

  lemma FrameYields(json: string -> bool, f: Frame)
    requires Sendable(json, f)
    ensures forall l | l in FrameLines(f) :: OneLine(l) && l != ""
    ensures YieldOf(json, JoinLines(FrameLines(f))) == if f.Notice? then One(f.event) else Nothing
  {
    hide Lines, JoinLines, FrameLines, Field;
    FrameFields(f);
    LinesOfJoined(FrameLines(f));
  }

  /** The first character of a line tells the fields apart. */
  lemma FieldFound(prefix: string, value: string, rest: seq<string>)
    ensures Field([prefix + value] + rest, prefix) == Some(value)
  {
    assert (prefix + value)[|prefix|..] == value;
  }

  lemma FieldSkipped(prefix: string, line: string, rest: seq<string>)
    requires prefix != "" && line != "" && prefix[0] != line[0]
    ensures Field([line] + rest, prefix) == Field(rest, prefix)
  {
    assert ([line] + rest)[1..] == rest;
  }

  lemma FrameFields(f: Frame)
    requires f.Notice? ==> OneLiner(f.event)
    ensures forall l | l in FrameLines(f) :: OneLine(l) && l != ""
    ensures f.Notice? ==>
              var lines := FrameLines(f);
              && Field(lines, "event: ") == Some(f.event.name) && Field(lines, "data: ") == Some(f.event.data)
              && Field(lines, "id: ") == f.event.id
    ensures f.KeepAlive? ==> Field(FrameLines(f), "event: ") == None
  {
    if f.Notice? {
      var e := f.event;
      var name, data := "event: " + e.name, "data: " + e.data;
      var tail: seq<string> := [name, data];
      assert tail == [name] + [data] && [data] == [data] + [];
      NoticeTail(e);
      if e.id.Some? {
        var id := "id: " + e.id.value;
        assert FrameLines(f) == [id] + tail;
        assert id[0] == 'i';
        FieldFound("id: ", e.id.value, tail);
        FieldSkipped("event: ", id, tail);
        FieldSkipped("data: ", id, tail);
      } else {
        assert FrameLines(f) == tail;
      }
      hide Field;
    } else {
      FieldSkipped("event: ", ": keepalive", []);
      assert FrameLines(f) == [": keepalive"] + [];
    }
  }

  lemma NoticeTail(e: Event)
    ensures var tail := ["event: " + e.name, "data: " + e.data];
            && Field(tail, "event: ") == Some(e.name) && Field(tail, "data: ") == Some(e.data) && Field(tail, "id: ") == None
  {
    var name, data := "event: " + e.name, "data: " + e.data;
    assert name[0] == 'e' && data[0] == 'd';
    assert [name, data] == [name] + [data] && [data] == [data] + [];
    FieldFound("event: ", e.name, [data]);
    FieldSkipped("data: ", name, [data]);
    FieldFound("data: ", e.data, []);
    FieldSkipped("id: ", name, [data]);
    FieldSkipped("id: ", data, []);
  }

  lemma DrainNothing(json: string -> bool)
    ensures Drain(json, "") == Reading([], "", Open)
  {
  }

  lemma ThenNotices(f: Frame, rest: seq<Event>)
    ensures Then(Yielded(if f.Notice? then One(f.event) else Nothing), Reading(rest, "", Open))
         == Reading((if f.Notice? then [f.event] else []) + rest, "", Open)
  {
  }

  /** What the server sends is what the client reads, frame by frame, whatever the cuts. */
  lemma {:induction false} SentIsRead(json: string -> bool, fs: seq<Frame>)
    requires forall i | 0 <= i < |fs| :: Sendable(json, fs[i])
    ensures Drain(json, Sent(fs)) == Reading(Notices(fs), "", Open)
  {
    hide JoinLines, FrameLines, YieldOf, Sendable, Drain, Boundary, Then, Yielded, BlankAt, OneLine;
    if fs == [] {
      DrainNothing(json);
    } else {
      var block, rest := JoinLines(FrameLines(fs[0])), Sent(fs[1..]);
      FrameYields(json, fs[0]);
      JoinedHasNoBlank(FrameLines(fs[0]));
      BoundaryAfter(block, rest);
      var text := block + ("\n\n" + rest);
      assert text[..|block|] == block && text[|block| + 2..] == rest;
      SentIsRead(json, fs[1..]);
      DrainStep(json, text);
      ThenNotices(fs[0], Notices(fs[1..]));
    }
  }

  /** End to end: however the server's frames are cut, the client yields exactly its notices. */
  lemma FramesSurviveAnyCut(json: string -> bool, fs: seq<Frame>, chunks: seq<string>)
    requires forall i | 0 <= i < |fs| :: Sendable(json, fs[i])
    requires Concat(chunks) == Sent(fs) && Receive(json, "", chunks).status != Overflow
    ensures Receive(json, "", chunks) == Reading(Notices(fs), "", Open)
  {
    SentIsRead(json, fs);
    CutsDoNotMatter(json, "", chunks);
    assert "" + Concat(chunks) == Concat(chunks);
  }
}
