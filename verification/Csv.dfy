/**
 * Comma-separated cells with quoting (section 2 of RFC 4180). A line break separates cells just
 * as a comma does, so the cells come out as one list.
 */
module Csv {
  import opened Checks

  type Cells = Result<seq<string>>

  const BAD: Cells := Rejected(UnsupportedMedia)

  predicate Separates(c: char) {
    c == ',' || c == '\n' || c == '\r'
  }

  /** After a separator character; a line feed right after a carriage return belongs to it. */
  function Past(c: char, rest: string): string {
    if c == '\r' && rest != "" && rest[0] == '\n' then rest[1..] else rest
  }

  function Prepend(cells: seq<string>, r: Cells): Cells {
    if r.Ok? then Ok(cells + r.value) else r
  }

  /** Read on, inside or outside quotes, with the cell so far. */
  function Scan(text: string, cell: string, quoted: bool, closed: bool): Cells
    decreases |text|
  {
    if text == "" then (if quoted then BAD else Ok([cell]))
    else
      var c, rest := text[0], text[1..];
      if quoted then
        if c == '"' && rest != "" && rest[0] == '"' then Scan(rest[1..], cell + "\"", true, closed)
        else if c == '"' then Scan(rest, cell, false, true)
        else Scan(rest, cell + [c], true, closed)
      else if c == '"' then (if cell == "" && !closed then Scan(rest, cell, true, closed) else BAD)
      else if Separates(c) then Prepend([cell], Scan(Past(c, rest), "", false, false))
      else if closed then BAD
      else Scan(rest, cell + [c], false, closed)
  }

  function Parse(text: string): Cells {
    Scan(text, "", false, false)
  }

  /** The reader as it runs, one character at a time. */
  method CsvCells(text: string) returns (r: Cells)
    ensures r == Parse(text)
  {
    var cells: seq<string>, cell, quoted, closed := [], "", false, false;
    var n := 0;
    assert text[0..] == text && Prepend([], Parse(text)) == Parse(text) by {
      PrependNothing(Parse(text));
    }
    while n < |text|
      invariant 0 <= n <= |text|
      invariant Prepend(cells, Scan(text[n..], cell, quoted, closed)) == Parse(text)
    {
      var c := text[n];
      var next := n + 1 < |text|;
      assert text[n..][0] == c && text[n..][1..] == text[n + 1..];
      assert next ==> text[n + 1..][0] == text[n + 1] && text[n + 1..][1..] == text[n + 2..];
      if quoted {
        if c == '"' && next && text[n + 1] == '"' {
          cell := cell + "\"";
          n := n + 1;
        } else if c == '"' {
          quoted, closed := false, true;
        } else {
          cell := cell + [c];
        }
      } else if c == '"' {
        if !(cell == "" && !closed) {
          return BAD;
        }
        quoted := true;
      } else if Separates(c) {
        Prepended(cells, cell, Scan(Past(c, text[n + 1..]), "", false, false));
        cells, cell, closed := cells + [cell], "", false;
        if c == '\r' && next && text[n + 1] == '\n' {
          n := n + 1;
        }
      } else {
        if closed {
          return BAD;
        }
        cell := cell + [c];
      }
      n := n + 1;
    }
    assert text[n..] == "";
    if quoted {
      return BAD;
    }
    return Ok(cells + [cell]);
  }

  lemma PrependNothing(r: Cells)
    ensures Prepend([], r) == r
  {
    if r.Ok? {
      assert [] + r.value == r.value;
    }
  }

  lemma Prepended(cells: seq<string>, cell: string, r: Cells)
    ensures Prepend(cells, Prepend([cell], r)) == Prepend(cells + [cell], r)
  {
    if r.Ok? {
      assert cells + ([cell] + r.value) == cells + [cell] + r.value;
    }
  }

  // ----- rendering -----

  /** How one cell is written: quoted or bare, and what separates it from the next. */
  datatype Style = Style(quoted: bool, separator: string)

  function Doubled(s: string): string {
    if s == "" then "" else (if s[0] == '"' then "\"\"" else [s[0]]) + Doubled(s[1..])
  }

  function One(cell: string, quoted: bool): string {
    if quoted then "\"" + (Doubled(cell) + "\"") else cell
  }

  function Render(cells: seq<string>, styles: seq<Style>): string
    requires |cells| == |styles| > 0
  {
    One(cells[0], styles[0].quoted)
    + if |cells| == 1 then "" else styles[0].separator + Render(cells[1..], styles[1..])
  }

  predicate Plain(cell: string) {
    forall i | 0 <= i < |cell| :: cell[i] != '"' && !Separates(cell[i])
  }

  predicate Separator(s: string) {
    s == "," || s == "\n" || s == "\r" || s == "\r\n"
  }

  /** Bare cells are plain, and no carriage return runs into a line feed that follows it. */
  predicate Readable(cells: seq<string>, styles: seq<Style>)
    requires |cells| == |styles| > 0
  {
    && (styles[0].quoted || Plain(cells[0]))
    && (|cells| > 1 ==>
          && Separator(styles[0].separator) && Readable(cells[1..], styles[1..])
          && var rest := Render(cells[1..], styles[1..]);
             styles[0].separator == "\r" ==> rest == "" || rest[0] != '\n')
  }

  lemma {:induction false} ScanPlain(t: string, rest: string, cell: string)
    requires Plain(t)
    ensures Scan(t + rest, cell, false, false) == Scan(rest, cell + t, false, false)
    decreases |t|
  {
    if t == "" {
      assert t + rest == rest && cell + t == cell;
    } else {
      assert (t + rest)[1..] == t[1..] + rest;
      ScanPlain(t[1..], rest, cell + [t[0]]);
      assert cell + [t[0]] + t[1..] == cell + t;
    }
  }

  lemma {:induction false} ScanQuoted(t: string, rest: string, cell: string)
    requires rest == "" || rest[0] != '"'
    ensures Scan(Doubled(t) + ("\"" + rest), cell, true, false) == Scan(rest, cell + t, false, true)
    decreases |t|
  {
    var text := Doubled(t) + ("\"" + rest);
    if t == "" {
      assert text == "\"" + rest && text[1..] == rest && cell + t == cell;
    } else {
      var tail := Doubled(t[1..]) + ("\"" + rest);
      ScanQuoted(t[1..], rest, cell + [t[0]]);
      assert cell + [t[0]] + t[1..] == cell + t;
      if t[0] == '"' {
        assert text == "\"\"" + tail && text[1..][1..] == tail;
      } else {
        assert text == [t[0]] + tail && text[1..] == tail;
      }
    }
  }

  lemma ScanSeparator(s: string, rest: string, cell: string, closed: bool)
    requires Separator(s) && (s == "\r" ==> rest == "" || rest[0] != '\n')
    ensures Scan(s + rest, cell, false, closed) == Prepend([cell], Scan(rest, "", false, false))
  {
    assert (s + rest)[1..] == s[1..] + rest;
    if s == "\r\n" {
      assert (s[1..] + rest)[1..] == rest;
    } else {
      assert s[1..] + rest == rest;
    }
  }

  /** Reading undoes writing: every readable rendering of a non-empty list reads back as the list. */
  lemma {:induction false} ParseRendered(cells: seq<string>, styles: seq<Style>)
    requires |cells| == |styles| > 0 && Readable(cells, styles)
    ensures Parse(Render(cells, styles)) == Ok(cells)
    decreases |cells|
  {
    var cell, quoted := cells[0], styles[0].quoted;
    var rest := if |cells| == 1 then "" else styles[0].separator + Render(cells[1..], styles[1..]);
    if quoted {
      assert One(cell, true) + rest == "\"" + (Doubled(cell) + ("\"" + rest));
      assert ("\"" + (Doubled(cell) + ("\"" + rest)))[1..] == Doubled(cell) + ("\"" + rest);
      ScanQuoted(cell, rest, "");
    } else {
      ScanPlain(cell, rest, "");
    }
    assert "" + cell == cell;
    if |cells| > 1 {
      ScanSeparator(styles[0].separator, Render(cells[1..], styles[1..]), cell, quoted);
      ParseRendered(cells[1..], styles[1..]);
      assert cells == [cells[0]] + cells[1..];
    } else {
      assert cells == [cell];
    }
  }

  /** The usual writing: every cell quoted, commas between. */
  function Quoted(cells: seq<string>): seq<Style> {
    seq(|cells|, _ => Style(true, ","))
  }

  lemma {:induction false} QuotedRoundTrip(cells: seq<string>)
    requires cells != []
    ensures Parse(Render(cells, Quoted(cells))) == Ok(cells)
  {
    QuotedIsReadable(cells);
    ParseRendered(cells, Quoted(cells));
  }

  lemma {:induction false} QuotedIsReadable(cells: seq<string>)
    requires cells != []
    ensures Readable(cells, Quoted(cells))
  {
    if |cells| > 1 {
      assert Quoted(cells)[1..] == Quoted(cells[1..]);
      QuotedIsReadable(cells[1..]);
    }
  }

  // ----- every accepted text is a rendering -----

  /** What is left to read of a list whose first cell is partly read. */
  function Left(t: string, cells: seq<string>, styles: seq<Style>, quoted: bool): string
    requires |cells| == |styles| > 0
  {
    (if quoted then Doubled(t) + "\"" else t)
    + if |cells| == 1 then "" else styles[0].separator + Render(cells[1..], styles[1..])
  }

  /** A list and its writing from the second cell on are as they should be. */
  predicate RestReadable(cells: seq<string>, styles: seq<Style>)
    requires |cells| == |styles| > 0
  {
    |cells| > 1 ==>
      && Separator(styles[0].separator) && Readable(cells[1..], styles[1..])
      && var rest := Render(cells[1..], styles[1..]);
         styles[0].separator == "\r" ==> rest == "" || rest[0] != '\n'
  }

  lemma LeftGrows(c: char, u: string, cells: seq<string>, styles: seq<Style>)
    requires |cells| == |styles| > 0
    ensures Left([c] + u, cells, styles, true) == (if c == '"' then "\"\"" else [c]) + Left(u, cells, styles, true)
    ensures Left([c] + u, cells, styles, false) == [c] + Left(u, cells, styles, false)
  {
    hide Render;
    assert ([c] + u)[1..] == u;
    assert Doubled([c] + u) == (if c == '"' then "\"\"" else [c]) + Doubled(u);
  }

  /** A closing quote belongs to the cell before it. */
  lemma LeftCloses(cells: seq<string>, s: seq<Style>)
    requires |cells| == |s| > 0
    ensures var styles := s[0 := s[0].(quoted := true)];
            && Left("", cells, styles, true) == "\"" + Left("", cells, s, false)
            && (RestReadable(cells, s) ==> RestReadable(cells, styles))
  {
    hide Render, Readable;
    assert s[0 := s[0].(quoted := true)][1..] == s[1..];
  }

  /** One more cell character, read inside or outside quotes. */
  lemma Assoc(cell: string, c: char, u: string)
    ensures cell + ([c] + u) == cell + [c] + u
  {
  }

  lemma {:induction false} ScannedIsRendering(text: string, cell: string, quoted: bool, closed: bool)
    returns (t: string, styles: seq<Style>)
    requires Scan(text, cell, quoted, closed).Ok? && !(quoted && closed)
    ensures var cells := Scan(text, cell, quoted, closed).value;
            && |cells| == |styles| > 0 && cells[0] == cell + t && RestReadable(cells, styles)
            && (closed ==> t == "" && !styles[0].quoted)
            && (quoted ==> styles[0].quoted)
            && (!quoted && styles[0].quoted ==> cell == "" && text == "\"" + Left(t, cells, styles, true))
            && (!quoted && !styles[0].quoted ==> Plain(t) && text == Left(t, cells, styles, false))
            && (quoted ==> text == Left(t, cells, styles, true))
    decreases |text|
  {
    hide Left, RestReadable, Readable, Render;
    if text == "" {
      t, styles := "", [Style(false, ",")];
      NothingLeft(cell);
      assert cell + t == cell;
    } else {
      var c, rest := text[0], text[1..];
      assert text == [c] + rest;
      if quoted {
        if c == '"' && rest != "" && rest[0] == '"' {
          var u, s := ScannedIsRendering(rest[1..], cell + "\"", true, closed);
          t, styles := ['"'] + u, s;
          Assoc(cell, '"', u);
          LeftGrows('"', u, Scan(text, cell, quoted, closed).value, styles);
          assert text == "\"\"" + rest[1..];
        } else if c == '"' {
          var u, s := ScannedIsRendering(rest, cell, false, true);
          t, styles := "", s[0 := s[0].(quoted := true)];
          LeftCloses(Scan(text, cell, quoted, closed).value, s);
        } else {
          var u, s := ScannedIsRendering(rest, cell + [c], true, closed);
          t, styles := [c] + u, s;
          Assoc(cell, c, u);
          LeftGrows(c, u, Scan(text, cell, quoted, closed).value, styles);
        }
      } else if c == '"' {
        t, styles := ScannedIsRendering(rest, cell, true, closed);
      } else if Separates(c) {
        var u, s := ScannedIsRendering(Past(c, rest), "", false, false);
        t, styles := "", [Style(false, if Past(c, rest) == rest then [c] else "\r\n")] + s;
        assert "" + u == u && cell + t == cell;
        SeparatorFound(text, c, rest, cell, u, s);
      } else {
        var u, s := ScannedIsRendering(rest, cell + [c], false, closed);
        t, styles := [c] + u, s;
        Assoc(cell, c, u);
        assert !styles[0].quoted;
        LeftGrows(c, u, Scan(text, cell, quoted, closed).value, styles);
      }
    }
  }

  lemma NothingLeft(cell: string)
    ensures Left("", [cell], [Style(false, ",")], false) == "" && RestReadable([cell], [Style(false, ",")])
  {
  }

  lemma SeparatorFound(text: string, c: char, rest: string, cell: string, u: string, s: seq<Style>)
    requires text == [c] + rest && Separates(c) && Scan(Past(c, rest), "", false, false).Ok?
    requires var cells := Scan(Past(c, rest), "", false, false).value;
             && |cells| == |s| > 0 && cells[0] == u && RestReadable(cells, s)
             && (s[0].quoted ==> Past(c, rest) == "\"" + Left(u, cells, s, true))
             && (!s[0].quoted ==> Plain(u) && Past(c, rest) == Left(u, cells, s, false))
    ensures var separator := if Past(c, rest) == rest then [c] else "\r\n";
            var styles := [Style(false, separator)] + s;
            var cells := [cell] + Scan(Past(c, rest), "", false, false).value;
            && styles[1..] == s && cells[1..] == Scan(Past(c, rest), "", false, false).value
            && RestReadable(cells, styles) && text == Left("", cells, styles, false)
  {
    hide Scan, Render, Readable, Plain;
    var cells := Scan(Past(c, rest), "", false, false).value;
    var separator := if Past(c, rest) == rest then [c] else "\r\n";
    var styles := [Style(false, separator)] + s;
    assert styles[1..] == s && ([cell] + cells)[1..] == cells;
    LeftIsRender(u, cells, s);
    assert text == separator + Past(c, rest) by {
      hide Scan, Render, Readable;
    }
  }

  lemma LeftIsRender(u: string, cells: seq<string>, s: seq<Style>)
    requires |cells| == |s| > 0 && cells[0] == u && RestReadable(cells, s)
    ensures Render(cells, s) == if s[0].quoted then "\"" + Left(u, cells, s, true) else Left(u, cells, s, false)
    ensures (s[0].quoted || Plain(u)) ==> Readable(cells, s)
  {
    hide Doubled, Plain;
  }

  /** The reader accepts exactly the renderings: an accepted text is a readable writing of its cells. */
  lemma AcceptedIsRendering(text: string) returns (styles: seq<Style>)
    requires Parse(text).Ok?
    ensures |Parse(text).value| == |styles| > 0
    ensures Readable(Parse(text).value, styles) && text == Render(Parse(text).value, styles)
  {
    hide Scan;
    var t;
    t, styles := ScannedIsRendering(text, "", false, false);
    assert "" + t == t;
    var cells := Parse(text).value;
    if styles[0].quoted {
      assert text == "\"" + Left(t, cells, styles, true);
    }
  }
}
