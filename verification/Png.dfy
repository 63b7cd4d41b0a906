/**
 * The plain image format: a signature and a run of chunks (section 5.3 of the PNG specification).
 * The checksum and the decompressor are parameters.
 */
module Png {
  import opened Checks

  newtype byte = x: int | 0 <= x < 256

  type Bytes = seq<byte>

  datatype Host = Host(crc: Bytes -> nat, inflate: (Bytes, nat) -> Option<Bytes>)

  const SIGNATURE: Bytes := [137, 80, 78, 71, 13, 10, 26, 10]
  const IHDR: Bytes := [73, 72, 68, 82]
  const IDAT: Bytes := [73, 68, 65, 84]
  const IEND: Bytes := [73, 69, 78, 68]
  const MODE: Bytes := [8, 6, 0, 0, 0]
  const SIZE_LIMIT: nat := 4194304
  const U32_END: nat := 0x1_0000_0000

  /** The big-endian number in four bytes. */
  function ReadU32(b: Bytes): (n: nat)
    requires |b| == 4
    ensures n < U32_END
  {
    ((b[0] as nat * 256 + b[1] as nat) * 256 + b[2] as nat) * 256 + b[3] as nat
  }

  function U32(n: nat): Bytes
    requires n < U32_END
  {
    [(n / 0x100_0000) as byte, (n / 0x1_0000 % 256) as byte, (n / 256 % 256) as byte, (n % 256) as byte]
  }

  lemma U32RoundTrip(n: nat)
    requires n < U32_END
    ensures ReadU32(U32(n)) == n
  {
    assert n == (n / 256) * 256 + n % 256;
    assert n / 256 == (n / 256 / 256) * 256 + n / 256 % 256;
    assert n / 0x1_0000 == n / 256 / 256;
    assert n / 0x1_0000 == (n / 0x1_0000 / 256) * 256 + n / 0x1_0000 % 256;
    assert n / 0x100_0000 == n / 0x1_0000 / 256;
  }

  lemma U32OfRead(b: Bytes)
    requires |b| == 4
    ensures U32(ReadU32(b)) == b
  {
    var n, h := ReadU32(b), (b[0] as nat * 256 + b[1] as nat) * 256 + b[2] as nat;
    assert n / 256 == h && n % 256 == b[3] as nat;
    assert h / 256 == b[0] as nat * 256 + b[1] as nat && h % 256 == b[2] as nat;
    assert n / 0x1_0000 == h / 256 && n / 0x100_0000 == b[0] as nat;
  }

  /** Text decoding drops the top bit of every byte. */
  function Ascii(b: Bytes): Bytes {
    seq(|b|, i requires 0 <= i < |b| => (b[i] as int % 128) as byte)
  }

  datatype Chunk = Chunk(kind: Bytes, body: Bytes)

  /** What the walk has gathered. */
  datatype State = State(width: nat, height: nat, ended: bool, data: seq<Bytes>)

  const FRESH := State(0, 0, false, [])

  /** What one whole chunk adds, or why it is refused. */
  function Take(first: bool, st: State, c: Chunk): Result<State> {
    var name, size := Ascii(c.kind), |c.body|;
    if name == IHDR then
      var _ :- Need(first && size == 13, UnsupportedMedia);
      var width, height := ReadU32(c.body[..4]), ReadU32(c.body[4..8]);
      var _ :- Need(0 < width <= 2048 && 0 < height <= 2048 && width * height <= 4194304, TooLarge);
      var _ :- Need(c.body[8..] == MODE, UnsupportedMedia);
      Ok(st.(width := width, height := height))
    else if name == IDAT then
      var _ :- Need(st.width > 0, UnsupportedMedia);
      Ok(st.(data := st.data + [c.body]))
    else if name == IEND then
      var _ :- Need(size == 0 && st.data != [], UnsupportedMedia);
      Ok(st.(ended := true))
    else Rejected(UnsupportedMedia)
  }

  /** The chunk at an offset, if its size and checksum allow one. */
  function ChunkAt(host: Host, bytes: Bytes, offset: nat): (c: Option<Chunk>)
    requires offset + 12 <= |bytes|
    ensures c.Some? ==> offset + |c.value.body| + 12 <= |bytes|
  {
    var size := ReadU32(bytes[offset..offset + 4]);
    if size > SIZE_LIMIT || offset + size + 12 > |bytes| then None
    else if host.crc(bytes[offset + 4..offset + 8 + size]) != ReadU32(bytes[offset + 8 + size..offset + 12 + size]) then None
    else Some(Chunk(bytes[offset + 4..offset + 8], bytes[offset + 8..offset + 8 + size]))
  }

  /** Walk the chunks from an offset to the end. */
  function Walk(host: Host, bytes: Bytes, offset: nat, st: State): Result<State>
    requires offset <= |bytes|
    decreases |bytes| - offset
  {
    if offset + 12 > |bytes| then
      var _ :- Need(st.ended && offset == |bytes|, UnsupportedMedia);
      Ok(st)
    else
      var c := ChunkAt(host, bytes, offset);
      var _ :- Need(c.Some? && !st.ended, UnsupportedMedia);
      var next :- Take(offset == 8, st, c.value);
      Walk(host, bytes, offset + |c.value.body| + 12, next)
  }

  function Concat(parts: seq<Bytes>): Bytes {
    if parts == [] then [] else Concat(parts[..|parts| - 1]) + parts[|parts| - 1]
  }

  /** The pixels fill the image exactly, and every row starts with the filter byte 0. */
  predicate PixelsOk(host: Host, st: State) {
    var row := 1 + st.width * 4;
    var pixels := host.inflate(Concat(st.data), st.height * row);
    && pixels.Some? && |pixels.value| == st.height * row
    && forall r | 0 <= r < st.height :: Start(r, row) < |pixels.value| && pixels.value[Start(r, row)] == 0
  }

  function Start(r: nat, row: nat): nat {
    r * row
  }

  predicate Signed(bytes: Bytes) {
    |bytes| >= 8 && bytes[..8] == SIGNATURE
  }

  predicate Normalized(host: Host, bytes: Bytes) {
    && Signed(bytes)
    && var r := Walk(host, bytes, 8, FRESH); r.Ok? && PixelsOk(host, r.value)
  }

  /** Inflate, and look at the first byte of every row. */
  method CheckPixels(host: Host, st: State) returns (ok: bool)
    ensures ok <==> PixelsOk(host, st)
  {
    var row := 1 + st.width * 4;
    var pixels := host.inflate(Concat(st.data), st.height * row);
    if pixels.None? || |pixels.value| != st.height * row {
      return false;
    }
    var k := 0;
    while k < st.height
      invariant 0 <= k <= st.height
      invariant forall j | 0 <= j < k :: Start(j, row) < |pixels.value| && pixels.value[Start(j, row)] == 0
    {
      RowInside(k, st.height, row);
      if pixels.value[Start(k, row)] != 0 {
        return false;
      }
      k := k + 1;
    }
    return true;
  }

  /** The walk as it runs. */
  method NormalizedPng(host: Host, bytes: Bytes) returns (r: Check)
    ensures r.Ok? <==> Normalized(host, bytes)
  {
    hide Take, ChunkAt, PixelsOk;
    if !Signed(bytes) {
      return Rejected(UnsupportedMedia);
    }
    var offset, st := 8, FRESH;
    while offset + 12 <= |bytes|
      invariant 8 <= offset <= |bytes|
      invariant Walk(host, bytes, offset, st) == Walk(host, bytes, 8, FRESH)
      decreases |bytes| - offset
    {
      var c := ChunkAt(host, bytes, offset);
      if c.None? || st.ended {
        return Rejected(UnsupportedMedia);
      }
      var next := Take(offset == 8, st, c.value);
      if next.Rejected? {
        return Rejected(next.code);
      }
      offset, st := offset + |c.value.body| + 12, next.value;
    }
    if !(st.ended && offset == |bytes|) {
      return Rejected(UnsupportedMedia);
    }
    var ok := CheckPixels(host, st);
    return Need(ok, UnsupportedMedia);
  }

  lemma RowInside(r: nat, height: nat, row: nat)
    requires r < height && row > 0
    ensures Start(r, row) < height * row
  {
    assert height * row == (height - 1) * row + row;
    assert r * row <= (height - 1) * row;
  }

  // ----- encoding -----

  /** A chunk on the wire: size, type, body, checksum. */
  function Encode(host: Host, c: Chunk): Bytes
    requires Encodable(host, c)
  {
    U32(|c.body|) + c.kind + c.body + U32(host.crc(c.kind + c.body))
  }

  predicate Encodable(host: Host, c: Chunk) {
    |c.kind| == 4 && |c.body| <= SIZE_LIMIT && host.crc(c.kind + c.body) < U32_END
  }

  function EncodeAll(host: Host, cs: seq<Chunk>): Bytes
    requires forall i | 0 <= i < |cs| :: Encodable(host, cs[i])
  {
    if cs == [] then []
    else
      assert Encodable(host, cs[0]);
      Encode(host, cs[0]) + EncodeAll(host, cs[1..])
  }

  /** Take the chunks of a list one by one. */
  function TakeAll(first: bool, st: State, cs: seq<Chunk>): Result<State>
    decreases |cs|
  {
    if cs == [] then
      var _ :- Need(st.ended, UnsupportedMedia);
      Ok(st)
    else
      var _ :- Need(!st.ended, UnsupportedMedia);
      var next :- Take(first, st, cs[0]);
      TakeAll(false, next, cs[1..])
  }

  lemma EncodedChunkAt(host: Host, bytes: Bytes, offset: nat, c: Chunk, rest: Bytes)
    requires offset <= |bytes| && Encodable(host, c) && bytes[offset..] == Encode(host, c) + rest
    ensures offset + 12 <= |bytes| && ChunkAt(host, bytes, offset) == Some(c)
    ensures bytes[offset + |c.body| + 12..] == rest
  {
    var e, size, crc := Encode(host, c), |c.body|, host.crc(c.kind + c.body);
    var s := bytes[offset..];
    U32RoundTrip(size);
    U32RoundTrip(crc);
    hide U32, ReadU32;
    assert |U32(size)| == 4 && |U32(crc)| == 4 && |e| == size + 12;
    assert forall i, j | 0 <= i <= j <= |s| :: s[i..j] == bytes[offset + i..offset + j];
    assert s[..4] == U32(size) && s[4..8] == c.kind && s[8..8 + size] == c.body;
    assert s[4..8 + size] == c.kind + c.body && s[8 + size..12 + size] == U32(crc);
    assert s[size + 12..] == rest;
  }

  /** A chunk found at an offset is there, spelled out. */
  lemma FoundIsEncoded(host: Host, bytes: Bytes, offset: nat)
    requires offset + 12 <= |bytes| && ChunkAt(host, bytes, offset).Some?
    ensures var c := ChunkAt(host, bytes, offset).value;
            && Encodable(host, c) && bytes[offset..] == Encode(host, c) + bytes[offset + |c.body| + 12..]
  {
    hide U32, ReadU32;
    var c := ChunkAt(host, bytes, offset).value;
    var size, s := |c.body|, bytes[offset..];
    var sum := bytes[offset + 8 + size..offset + 12 + size];
    U32OfRead(bytes[offset..offset + 4]);
    U32OfRead(sum);
    assert c.kind + c.body == bytes[offset + 4..offset + 8 + size];
    assert s == bytes[offset..offset + 4] + c.kind + c.body + sum + bytes[offset + size + 12..];
  }

  /** Walking spelled-out chunks is taking the chunks. */
  lemma {:induction false} WalkEncoded(host: Host, bytes: Bytes, offset: nat, st: State, cs: seq<Chunk>)
    requires 8 <= offset <= |bytes| && (forall i | 0 <= i < |cs| :: Encodable(host, cs[i]))
    requires bytes[offset..] == EncodeAll(host, cs)
    ensures Walk(host, bytes, offset, st).Ok? == TakeAll(offset == 8, st, cs).Ok?
    ensures Walk(host, bytes, offset, st).Ok? ==> Walk(host, bytes, offset, st) == TakeAll(offset == 8, st, cs)
    decreases |cs|
  {
    hide Take, ChunkAt, Encode;
    if cs == [] {
      assert offset == |bytes|;
    } else {
      var c := cs[0];
      EncodedChunkAt(host, bytes, offset, c, EncodeAll(host, cs[1..]));
      var next := Take(offset == 8, st, c);
      if !st.ended && next.Ok? {
        WalkEncoded(host, bytes, offset + |c.body| + 12, next.value, cs[1..]);
      }
    }
  }

  /** Whatever the walk accepts is spelled-out chunks. */
  lemma {:induction false} WalkedIsEncoded(host: Host, bytes: Bytes, offset: nat, st: State) returns (cs: seq<Chunk>)
    requires offset <= |bytes| && Walk(host, bytes, offset, st).Ok?
    ensures (forall i | 0 <= i < |cs| :: Encodable(host, cs[i])) && bytes[offset..] == EncodeAll(host, cs)
    decreases |bytes| - offset
  {
    hide Take, ChunkAt, Encode;
    if offset + 12 > |bytes| {
      cs := [];
    } else {
      FoundIsEncoded(host, bytes, offset);
      var c := ChunkAt(host, bytes, offset).value;
      var rest := WalkedIsEncoded(host, bytes, offset + |c.body| + 12, Take(offset == 8, st, c).value);
      cs := [c] + rest;
      assert cs[1..] == rest;
    }
  }

  // ----- which chunk lists -----

  predicate HeaderOk(body: Bytes) {
    && |body| == 13 && body[8..] == MODE
    && var width, height := ReadU32(body[..4]), ReadU32(body[4..8]);
       0 < width <= 2048 && 0 < height <= 2048 && width * height <= 4194304
  }

  /** Data chunks, then the empty end chunk. */
  predicate Trailer(cs: seq<Chunk>) {
    && cs != [] && Ascii(cs[|cs| - 1].kind) == IEND && cs[|cs| - 1].body == []
    && forall i | 0 <= i < |cs| - 1 :: Ascii(cs[i].kind) == IDAT
  }

  /** One header, one or more data chunks, one end. */
  predicate Layout(cs: seq<Chunk>) {
    |cs| >= 3 && Ascii(cs[0].kind) == IHDR && HeaderOk(cs[0].body) && Trailer(cs[1..])
  }

  lemma NamesDiffer()
    ensures IHDR != IDAT && IHDR != IEND && IDAT != IEND
  {
    assert IHDR[1] != IDAT[1] && IHDR[1] != IEND[1] && IDAT[1] != IEND[1];
  }

  lemma {:induction false} TakeTrailer(st: State, cs: seq<Chunk>)
    requires st.width > 0 && !st.ended
    ensures TakeAll(false, st, cs).Ok? <==> Trailer(cs) && (st.data != [] || |cs| > 1)
    decreases |cs|
  {
    NamesDiffer();
    hide ReadU32, Ascii;
    if cs != [] {
      var c, rest := cs[0], cs[1..];
      if Ascii(c.kind) == IDAT {
        TakeTrailer(st.(data := st.data + [c.body]), rest);
        assert Trailer(cs) <==> Trailer(rest) by {
          TrailerStep(cs);
        }
      } else if rest != [] {
        EndedTakesNone(st.(ended := true), rest);
        assert !Trailer(cs);
      }
    }
  }

  lemma EndedTakesNone(st: State, cs: seq<Chunk>)
    requires st.ended && cs != []
    ensures TakeAll(false, st, cs).Rejected?
  {
  }

  lemma TrailerStep(cs: seq<Chunk>)
    requires cs != [] && Ascii(cs[0].kind) == IDAT
    ensures Trailer(cs) <==> Trailer(cs[1..])
  {
    NamesDiffer();
    hide Ascii;
    var rest := cs[1..];
    if Trailer(rest) {
      forall i | 0 <= i < |cs| - 1 ensures Ascii(cs[i].kind) == IDAT {
        if i > 0 {
          assert cs[i] == rest[i - 1];
        }
      }
    }
  }

  lemma TakeLayout(cs: seq<Chunk>)
    ensures TakeAll(true, FRESH, cs).Ok? <==> Layout(cs)
  {
    NamesDiffer();
    hide ReadU32, Ascii, TakeAll;
    if cs != [] && Ascii(cs[0].kind) == IHDR && HeaderOk(cs[0].body) {
      var body := cs[0].body;
      var st := FRESH.(width := ReadU32(body[..4]), height := ReadU32(body[4..8]));
      TakeFirst(cs, st);
      TakeTrailer(st, cs[1..]);
    } else if cs != [] {
      RefuseFirst(cs);
    } else {
      TakeNothing();
    }
  }

  lemma TakeNothing()
    ensures TakeAll(true, FRESH, []).Rejected?
  {
  }

  lemma TakeFirst(cs: seq<Chunk>, st: State)
    requires cs != [] && Take(true, FRESH, cs[0]) == Ok(st)
    ensures TakeAll(true, FRESH, cs) == TakeAll(false, st, cs[1..])
  {
    hide Take;
  }

  lemma RefuseFirst(cs: seq<Chunk>)
    requires cs != [] && !(Ascii(cs[0].kind) == IHDR && HeaderOk(cs[0].body))
    ensures TakeAll(true, FRESH, cs).Rejected?
  {
    NamesDiffer();
    hide ReadU32, Ascii;
  }

  // ----- the accepted files -----

  predicate AllEncodable(host: Host, cs: seq<Chunk>) {
    forall i | 0 <= i < |cs| :: Encodable(host, cs[i])
  }

  function File(host: Host, cs: seq<Chunk>): Bytes
    requires AllEncodable(host, cs)
  {
    SIGNATURE + EncodeAll(host, cs)
  }

  lemma FileParts(host: Host, cs: seq<Chunk>)
    requires AllEncodable(host, cs)
    ensures Signed(File(host, cs)) && File(host, cs)[8..] == EncodeAll(host, cs)
  {
    hide EncodeAll;
  }

  /** Accepted bytes are the signature, one header, one or more data chunks and the end, nothing else. */
  lemma AcceptedIsFile(host: Host, bytes: Bytes) returns (cs: seq<Chunk>)
    requires Normalized(host, bytes)
    ensures AllEncodable(host, cs) && Layout(cs) && bytes == File(host, cs)
    ensures TakeAll(true, FRESH, cs).Ok? && PixelsOk(host, TakeAll(true, FRESH, cs).value)
  {
    hide Walk, TakeAll, Layout, EncodeAll, PixelsOk;
    cs := WalkedIsEncoded(host, bytes, 8, FRESH);
    WalkEncoded(host, bytes, 8, FRESH, cs);
    TakeLayout(cs);
    assert bytes == bytes[..8] + bytes[8..];
  }

  /** Such a file is accepted if and only if its pixels fill the image with filter byte 0. */
  lemma FileIsAcceptedExactly(host: Host, cs: seq<Chunk>)
    requires AllEncodable(host, cs)
    ensures Normalized(host, File(host, cs)) <==>
            Layout(cs) && TakeAll(true, FRESH, cs).Ok? && PixelsOk(host, TakeAll(true, FRESH, cs).value)
  {
    hide Walk, TakeAll, Layout, EncodeAll, PixelsOk, File;
    FileParts(host, cs);
    WalkEncoded(host, File(host, cs), 8, FRESH, cs);
    TakeLayout(cs);
  }

  /** A run of chunks is spelled in one way. */
  lemma {:induction false} EncodingIsInjective(host: Host, cs: seq<Chunk>, ds: seq<Chunk>)
    requires AllEncodable(host, cs) && AllEncodable(host, ds)
    requires EncodeAll(host, cs) == EncodeAll(host, ds)
    ensures cs == ds
    decreases |cs|
  {
    hide ChunkAt, Encode;
    var bytes := EncodeAll(host, cs);
    assert bytes[0..] == bytes;
    if cs != [] {
      EncodedChunkAt(host, bytes, 0, cs[0], EncodeAll(host, cs[1..]));
    }
    if ds != [] {
      EncodedChunkAt(host, bytes, 0, ds[0], EncodeAll(host, ds[1..]));
    }
    if cs != [] && ds != [] {
      EncodingIsInjective(host, cs[1..], ds[1..]);
      assert cs == [cs[0]] + cs[1..] && ds == [ds[0]] + ds[1..];
    }
  }

  /** The chunks under the names the reader saw. */
  function Renamed(cs: seq<Chunk>): seq<Chunk> {
    seq(|cs|, i requires 0 <= i < |cs| => Chunk(Ascii(cs[i].kind), cs[i].body))
  }

  /**
   * Re-encoding the chunks by name reproduces the bytes if and only if no type byte has its top
   * bit set; the reader itself does not look at that bit.
   */
  lemma ReencodesExactly(host: Host, cs: seq<Chunk>)
    requires AllEncodable(host, cs) && AllEncodable(host, Renamed(cs))
    ensures File(host, Renamed(cs)) == File(host, cs) <==>
            forall i, j | 0 <= i < |cs| && 0 <= j < |cs[i].kind| :: cs[i].kind[j] < 128
  {
    var ds := Renamed(cs);
    FileParts(host, cs);
    FileParts(host, ds);
    if File(host, ds) == File(host, cs) {
      EncodingIsInjective(host, ds, cs);
      forall i, j | 0 <= i < |cs| && 0 <= j < |cs[i].kind| ensures cs[i].kind[j] < 128 {
        assert ds[i].kind[j] == cs[i].kind[j];
      }
    } else if forall i, j | 0 <= i < |cs| && 0 <= j < |cs[i].kind| :: cs[i].kind[j] < 128 {
      forall i | 0 <= i < |cs| ensures ds[i] == cs[i] {
        assert Ascii(cs[i].kind) == cs[i].kind;
      }
      assert ds == cs;
    }
  }

  lemma {:induction false} NamesDecide(first: bool, st: State, cs: seq<Chunk>, ds: seq<Chunk>)
    requires |cs| == |ds| && forall i | 0 <= i < |cs| :: Ascii(cs[i].kind) == Ascii(ds[i].kind) && cs[i].body == ds[i].body
    ensures TakeAll(first, st, cs) == TakeAll(first, st, ds)
    decreases |cs|
  {
    hide Ascii, ReadU32;
    if cs != [] {
      var next := Take(first, st, cs[0]);
      if next.Ok? {
        NamesDecide(false, next.value, cs[1..], ds[1..]);
      }
    }
  }

  /** So a file accepted under the plain names is accepted with any top bits set in its types. */
  lemma TopBitsAreIgnored(host: Host, cs: seq<Chunk>, ds: seq<Chunk>)
    requires AllEncodable(host, cs) && AllEncodable(host, ds) && |cs| == |ds|
    requires forall i | 0 <= i < |cs| :: Ascii(cs[i].kind) == Ascii(ds[i].kind) && cs[i].body == ds[i].body
    ensures Normalized(host, File(host, cs)) == Normalized(host, File(host, ds))
  {
    hide Normalized, Layout, TakeAll, PixelsOk, File;
    NamesDecide(true, FRESH, cs, ds);
    FileIsAcceptedExactly(host, cs);
    FileIsAcceptedExactly(host, ds);
    TakeLayout(cs);
    TakeLayout(ds);
  }

  const MARKED: Bytes := [201, 72, 68, 82]

  /** One such type: its first byte has the top bit set, yet it reads as a header. */
  lemma MarkedReadsAsHeader()
    ensures Ascii(MARKED) == IHDR && MARKED[0] >= 128
  {
  }

  /**
   * So every accepted file has an accepted twin whose header type is marked, and re-encoding the
   * twin's chunks by name does not reproduce it.
   */
  lemma MarkedTwin(host: Host, cs: seq<Chunk>) returns (twin: seq<Chunk>)
    requires AllEncodable(host, cs) && Normalized(host, File(host, cs))
    requires forall b :: host.crc(b) < U32_END
    ensures AllEncodable(host, twin) && AllEncodable(host, Renamed(twin))
    ensures Normalized(host, File(host, twin)) && File(host, Renamed(twin)) != File(host, twin)
  {
    hide Normalized, TakeAll, PixelsOk, HeaderOk, Trailer, File;
    FileIsAcceptedExactly(host, cs);
    twin := cs[0 := Chunk(MARKED, cs[0].body)];
    MarkedReadsAsHeader();
    forall i | 0 <= i < |cs| ensures Ascii(cs[i].kind) == Ascii(twin[i].kind) && cs[i].body == twin[i].body {
    }
    assert AllEncodable(host, twin) && AllEncodable(host, Renamed(twin));
    TopBitsAreIgnored(host, cs, twin);
    ReencodesExactly(host, twin);
    assert twin[0].kind[0] >= 128;
  }
}
