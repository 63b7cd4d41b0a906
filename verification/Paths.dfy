/** Repository paths: what a relative path may be, and when a scope covers it. */
module Paths {

  type Path = string

  /** The segments between slashes; always at least one. */
  function Segments(path: string): (s: seq<string>)
    ensures s != []
  {
    if path == "" then [""]
    else
      var rest := Segments(path[1..]);
      if path[0] == '/' then [""] + rest else [[path[0]] + rest[0]] + rest[1..]
  }

  function Joined(segments: seq<string>): string
    requires segments != []
  {
    if |segments| == 1 then segments[0] else segments[0] + "/" + Joined(segments[1..])
  }

  function LowerChar(c: char): char {
    if 'A' <= c <= 'Z' then c - 'A' + 'a' else c
  }

  function Lower(s: string): string {
    seq(|s|, i requires 0 <= i < |s| => LowerChar(s[i]))
  }

  predicate PathChar(c: char) {
    'A' <= c <= 'Z' || 'a' <= c <= 'z' || '0' <= c <= '9' || c == '_' || c == '.' || c == '/' || c == '-'
  }

  predicate EndsWith(s: string, suffix: string) {
    |suffix| <= |s| && s[|s| - |suffix|..] == suffix
  }

  predicate SegmentAllowed(s: string) {
    s != "" && s != "." && s != ".." && Lower(s) != ".git" && !EndsWith(s, ".") && !EndsWith(s, ".lock")
  }

  /** A relative name made of ordinary segments. */
  predicate Ordinary(path: string) {
    (path != "" ==> path[0] != '/') && forall s | s in Segments(path) :: SegmentAllowed(s)
  }

  /** A bounded name of plain characters; a scope may end in a slash. */
  predicate RelativePath(value: string, directory: bool := false) {
    && 0 < |value| <= 240 && (forall i | 0 <= i < |value| :: PathChar(value[i]))
    && Ordinary(if directory && EndsWith(value, "/") then value[..|value| - 1] else value)
  }

  /** A scope that ends in a slash covers a subtree; any other covers itself only. */
  predicate Contains(path: string, scope: string) {
    if EndsWith(scope, "/") then scope <= path else path == scope
  }

  datatype Grants = Grants(writeScope: seq<string>, protectedPaths: seq<string>)

  predicate Authorized(g: Grants, path: string) {
    && RelativePath(path)
    && (exists i | 0 <= i < |g.writeScope| :: Contains(path, g.writeScope[i]))
    && (forall i | 0 <= i < |g.protectedPaths| :: !Contains(Lower(path), Lower(g.protectedPaths[i])))
    && (forall i | 0 <= i < |Segments(path)| :: Lower(Segments(path)[i]) != "agents.md")
  }

  /** Where a sequence of segments leads, from a directory: the meaning of "." and "..". */
  function Resolve(at: seq<string>, segments: seq<string>): seq<string>
    decreases |segments|
  {
    if segments == [] then at
    else
      var s := segments[0];
      var next := if s == "" || s == "." then at
                  else if s == ".." then (if at == [] then [] else at[..|at| - 1])
                  else at + [s];
      Resolve(next, segments[1..])
  }

  /** A segment that neither stays in place nor climbs. */
  predicate Descends(s: string) {
    s != "" && s != "." && s != ".."
  }

  lemma {:induction false} PlainResolves(at: seq<string>, segments: seq<string>)
    requires forall i | 0 <= i < |segments| :: Descends(segments[i])
    ensures Resolve(at, segments) == at + segments
    decreases |segments|
  {
    if segments == [] {
      assert at + segments == at;
    } else {
      ResolvesPlain(at, segments);
      hide Resolve, Descends;
      var s, rest := segments[0], segments[1..];
      PlainResolves(at + [s], rest);
      assert at + [s] + rest == at + segments;
    }
  }

  lemma ResolvesPlain(at: seq<string>, segments: seq<string>)
    requires segments != [] && Descends(segments[0])
    ensures Resolve(at, segments) == Resolve(at + [segments[0]], segments[1..])
  {
  }

  lemma AllowedDescends(s: string)
    requires SegmentAllowed(s)
    ensures Descends(s) && Lower(s) != ".git"
  {
    hide Lower, EndsWith;
  }

  /** An accepted path stays under whatever root it is resolved from, and outside its metadata. */
  lemma AcceptedPathStaysInside(root: seq<string>, path: string)
    requires RelativePath(path)
    ensures var where := Resolve(root, Segments(path));
            && root < where && where[|root|..] == Segments(path)
            && forall i | |root| <= i < |where| :: Lower(where[i]) != ".git"
  {
    var segments := Segments(path);
    assert forall s | s in segments :: SegmentAllowed(s) by {
      assert Ordinary(path);
    }
    hide *;
    forall i | 0 <= i < |segments| ensures Descends(segments[i]) && Lower(segments[i]) != ".git" {
      AllowedDescends(segments[i]);
    }
    PlainResolves(root, segments);
  }

  /** Prefixing a character either opens a new segment or grows the first one. */
  function Prefixed(c: char, segments: seq<string>): seq<string>
    requires segments != []
  {
    if c == '/' then [""] + segments else [[c] + segments[0]] + segments[1..]
  }

  lemma SegmentsPrefixed(c: char, path: string)
    ensures Segments([c] + path) == Prefixed(c, Segments(path))
  {
    assert ([c] + path)[1..] == path;
  }

  lemma {:induction false} SegmentsOfConcat(a: string, b: string)
    ensures Segments(a + "/" + b) == Segments(a) + Segments(b)
  {
    if a == "" {
      SegmentsPrefixed('/', b);
      assert a + "/" + b == ['/'] + b;
    } else {
      var rest := a[1..];
      SegmentsOfConcat(rest, b);
      SegmentsPrefixed(a[0], rest);
      SegmentsPrefixed(a[0], rest + "/" + b);
      assert a == [a[0]] + rest && a + "/" + b == [a[0]] + (rest + "/" + b);
      PrefixedConcat(a[0], Segments(rest), Segments(b));
      hide Segments, Prefixed;
    }
  }

  lemma PrefixedConcat(c: char, s: seq<string>, t: seq<string>)
    requires s != []
    ensures Prefixed(c, s + t) == Prefixed(c, s) + t
  {
    if c != '/' {
      assert (s + t)[1..] == s[1..] + t;
    }
  }

  /** A directory scope covers exactly paths below it, never a sibling with the same prefix. */
  lemma ScopeCoversSubtree(path: string, directory: string)
    requires Contains(path, directory + "/")
    ensures Segments(directory) < Segments(path)
  {
    var scope := directory + "/";
    assert EndsWith(scope, "/");
    var rest := path[|scope|..];
    assert path == directory + "/" + rest;
    SegmentsOfConcat(directory, rest);
  }

  lemma {:induction false} JoinedSegments(path: string)
    ensures Joined(Segments(path)) == path
  {
    if path != "" {
      JoinedSegments(path[1..]);
      var rest := Segments(path[1..]);
      if path[0] == '/' {
        assert ([""] + rest)[1..] == rest;
        assert path == "/" + path[1..];
      } else {
        var first := [path[0]] + rest[0];
        assert ([first] + rest[1..])[1..] == rest[1..];
        assert path == [path[0]] + path[1..];
        if |rest| > 1 {
          assert path[1..] == rest[0] + "/" + Joined(rest[1..]);
          assert first + "/" + Joined(rest[1..]) == [path[0]] + (rest[0] + "/" + Joined(rest[1..]));
        }
      }
    }
  }

  /** Conversely, a path whose segments extend those of a directory is covered by it. */
  lemma {:induction false} SubtreeIsCovered(path: string, directory: string)
    requires Segments(directory) < Segments(path)
    ensures Contains(path, directory + "/")
  {
    var s, t := Segments(path), Segments(directory);
    JoinedSegments(path);
    JoinedSegments(directory);
    JoinedConcat(t, s[|t|..]);
    assert s == t + s[|t|..];
    assert path == directory + "/" + Joined(s[|t|..]);
    assert EndsWith(directory + "/", "/");
  }

  lemma {:induction false} JoinedConcat(s: seq<string>, t: seq<string>)
    requires s != [] && t != []
    ensures Joined(s + t) == Joined(s) + "/" + Joined(t)
  {
    if |s| == 1 {
      assert (s + t)[1..] == t;
    } else {
      JoinedConcat(s[1..], t);
      assert (s + t)[1..] == s[1..] + t;
      assert s[0] + "/" + (Joined(s[1..]) + "/" + Joined(t)) == s[0] + "/" + Joined(s[1..]) + "/" + Joined(t);
    }
  }
}
