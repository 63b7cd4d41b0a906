/**
 * A crash and one retry: for each operation, exactly which crash points a retry of the same
 * request gets past. The first attempt has `k` durable effects of fuel, the second enough.
 */
module Recovery {
  import opened Checks
  import opened Paths
  import opened GitRange
  import opened ProvisionerModel
  import opened Frames
  import Custody
  import opened Commits

  // ----- commits -----

  /** Nothing outside the pending paths is staged ahead of the worktree. */
  predicate NothingStale(c: Clone) {
    forall p | p in c.index.Keys + c.worktree.Keys && p !in Pending(c) :: Entry(c.index, p) == Entry(c.worktree, p)
  }

  /** A commit request that passes every guard up to `git commit`. */
  predicate CommitReady(git: Measures, c: Clone, terms: Terms, req: CommitRequest) {
    && (req.expected.Some? || terms.Legacy?) && c.head == ExpectedHead(req, terms)
    && c.branch == terms.Branch() && RangeOk(git, c, terms, c.head) && Stageable(git, c, terms) && !c.locked
    && WithStaged(c).index != c.dag[c.head].tree
  }

  /** The clone a commit request leaves when it runs to `git commit`. */
  function After(c: Clone, req: CommitRequest): Clone {
    WithCommit(WithStaged(c), req.operation)
  }

  lemma CleanAfter(c: Clone, req: CommitRequest)
    ensures Clean(After(c, req)) <==> NothingStale(c)
  {
    var index := WithStaged(c).index;
    assert After(c, req).index == index && After(c, req).worktree == c.worktree;
    if NothingStale(c) {
      forall p ensures Entry(index, p) == Entry(c.worktree, p) {
      }
      SameTree(index, c.worktree);
    } else {
      var p :| p in c.index.Keys + c.worktree.Keys && p !in Pending(c) && Entry(c.index, p) != Entry(c.worktree, p);
      assert Entry(index, p) == Entry(c.index, p);
    }
  }

  lemma SameTree(a: Tree, b: Tree)
    requires forall p :: Entry(a, p) == Entry(b, p)
    ensures a == b
  {
    forall p ensures p in a <==> p in b {
      assert Entry(a, p) == Entry(b, p);
    }
    assert a.Keys == b.Keys;
    forall p | p in a ensures a[p] == b[p] {
      assert Entry(a, p) == [a[p]] && Entry(b, p) == [b[p]];
    }
  }

  lemma StackedAfter(c: Clone, terms: Terms, req: CommitRequest)
    requires Stacked(c.dag, c.imported, terms.base, |c.dag|)
    requires c.head == Tip(c.imported, terms.base, |c.dag|)
    ensures var next := After(c, req);
            && |next.dag| == |c.dag| + 1 && next.dag[..|c.dag|] == c.dag && c.dag <= next.dag
            && Stacked(next.dag, c.imported, terms.base, |next.dag|)
  {
    hide Staged, Pending;
    var next := After(c, req);
    assert next.dag == c.dag + [Commit([c.head], WithStaged(c).index, Subject(req.operation))];
  }

  /** The new commit changes what was staged, and staging is authorized. */
  lemma NewCommitAllowed(git: Measures, c: Clone, terms: Terms, req: CommitRequest)
    requires Tidy(terms, c) && Stageable(git, c, terms)
    ensures CommitAllowed(After(c, req).dag, terms.Scope(), |c.dag|)
  {
    hide Authorized, Staged, Pending, Changed;
    StagingStaysAuthorized(git, terms, c);
  }

  lemma OldCommitsAllowed(git: Measures, c: Clone, terms: Terms, dag: Graph)
    requires RangeOk(git, c, terms, c.head) && c.dag <= dag
    ensures forall i | i in Range(c.dag, terms.base, c.head) ::
              i < |c.dag| && CommitAllowed(dag, terms.Scope(), i) && TreeFits(git, terms.Bounds(), dag[i].tree)
  {
    hide Authorized, Ancestors, AncestorsOf, Changed, TreeFits;
    forall i | i in Range(c.dag, terms.base, c.head)
      ensures i < |c.dag| && CommitAllowed(dag, terms.Scope(), i) && TreeFits(git, terms.Bounds(), dag[i].tree) {
      assert i in Ancestors(c.dag, c.head);
      assert CommitAllowed(c.dag, terms.Scope(), i) && TreeFits(git, terms.Bounds(), c.dag[i].tree);
    }
  }

  /** What is to be committed fits, and so does the difference it makes from the base. */
  predicate Fitting(git: Measures, terms: Terms, c: Clone) {
    && TreeFits(git, terms.Bounds(), WithStaged(c).index) && terms.base < |c.dag|
    && git.diff(c.dag[terms.base].tree, WithStaged(c).index) <= terms.Bounds().diffBytes
  }

  lemma RangeAfter(git: Measures, c: Clone, terms: Terms, req: CommitRequest)
    requires CommitReady(git, c, terms, req) && Tidy(terms, c)
    requires Stacked(c.dag, c.imported, terms.base, |c.dag|)
    ensures RangeOk(git, After(c, req), terms, |c.dag|) <==> |c.dag| - c.imported < terms.CommitBound() && Fitting(git, terms, c)
  {
    hide *;
    var next := After(c, req);
    ReadyParts(git, c, terms, req);
    TidyParts(terms, c);
    StackedAfter(c, terms, req);
    NewCommitAllowed(git, c, terms, req);
    OldCommitsAllowed(git, c, terms, next.dag);
    NewTree(c, req);
    StackRange(next.dag, c.imported, terms.base, |next.dag|);
    StackRange(c.dag, c.imported, terms.base, |c.dag|);
    NewTip(c.imported, terms.base, |c.dag|);
    InRange(git, c, terms, next);
  }

  lemma TidyParts(terms: Terms, c: Clone)
    requires Tidy(terms, c)
    ensures terms.base < c.imported && c.head == Tip(c.imported, terms.base, |c.dag|)
  {
    hide Authorized, Changed;
  }

  lemma NewTip(imported: nat, base: nat, n: nat)
    ensures imported <= n ==> Tip(imported, base, n + 1) == n
  {
  }

  lemma NewTree(c: Clone, req: CommitRequest)
    ensures After(c, req).dag[|c.dag|].tree == WithStaged(c).index
  {
    hide Staged, Pending, Subject;
  }

  lemma InRange(git: Measures, c: Clone, terms: Terms, next: Clone)
    requires terms.base < |c.dag| && |next.dag| == |c.dag| + 1 && next.dag[|c.dag|].tree == WithStaged(c).index
    requires next.dag[terms.base] == c.dag[terms.base]
    requires Range(next.dag, terms.base, |c.dag|) == Interval(c.imported, |c.dag| + 1)
    requires |Range(next.dag, terms.base, |c.dag|)| == |c.dag| + 1 - c.imported && c.imported <= |c.dag|
    requires Range(c.dag, terms.base, c.head) == Interval(c.imported, |c.dag|)
    requires terms.base in Ancestors(next.dag, |c.dag|)
    requires CommitAllowed(next.dag, terms.Scope(), |c.dag|)
    requires forall i | i in Range(c.dag, terms.base, c.head) ::
               i < |c.dag| && CommitAllowed(next.dag, terms.Scope(), i) && TreeFits(git, terms.Bounds(), next.dag[i].tree)
    ensures RangeOk(git, next, terms, |c.dag|) <==> |c.dag| - c.imported < terms.CommitBound() && Fitting(git, terms, c)
  {
    hide Ancestors, AncestorsOf, CommitAllowed, Range, TreeFits, WithStaged;
    assert |c.dag| in Interval(c.imported, |c.dag| + 1);
  }

  function PutAt(d: Disk, req: SourceRequest, c: Clone): Disk {
    d.(clones := d.clones[req.allocation := c])
  }

  function MarkAt(d: Disk, req: SourceRequest, v: Option<Reply>): Disk {
    d.(markers := d.markers[Key(req.worker, req.operation) := v])
  }

  function BundleAt(d: Disk, req: SourceRequest, whole: bool): Disk {
    d.(submissions := d.submissions[Key(req.worker, req.operation) := whole])
  }

  lemma CommitChangesResult(git: Measures, m: Machine, req: CommitRequest, terms: Terms, c: Clone)
    requires Stageable(git, c, terms) && !c.locked && WithStaged(c).index != c.dag[c.head].tree
    ensures var r := CommitChanges(git, m, req, terms, c);
            var staged := WithStaged(c);
            && (m.fuel == 0 ==> r == Stopped(m))
            && (m.fuel == 1 ==> r == Stopped(Machine(PutAt(m.disk, req, Locked(c)), 0)))
            && (m.fuel == 2 ==> r == Stopped(Machine(PutAt(m.disk, req, staged), 0)))
            && (m.fuel == 3 ==> r == Stopped(Machine(PutAt(m.disk, req, Locked(staged)), 0)))
            && (m.fuel >= 4 ==> r == Done(Machine(PutAt(m.disk, req, After(c, req)), m.fuel - 4), After(c, req)))
  {
    hide *;
    var staged, next := WithStaged(c), After(c, req);
    CommitChangesRuns(git, m, req, terms, c);
    var s := PutLocked(m, req.allocation, c, staged);
    PutLockedAt(m, req, c, staged);
    PutLockedAt(s.m, req, staged, next);
    TwiceAt(m.disk, req, staged, Locked(staged));
    TwiceAt(m.disk, req, staged, next);
  }

  lemma CommitChangesRuns(git: Measures, m: Machine, req: CommitRequest, terms: Terms, c: Clone)
    requires Stageable(git, c, terms) && !c.locked && WithStaged(c).index != c.dag[c.head].tree
    ensures CommitChanges(git, m, req, terms, c) ==
            var s := PutLocked(m, req.allocation, c, WithStaged(c));
            if s.Stopped? then Stopped(s.m)
            else
              var k := PutLocked(s.m, req.allocation, WithStaged(c), After(c, req));
              if k.Stopped? then Stopped(k.m) else Done(k.m, After(c, req))
  {
    hide Stageable, WithStaged, WithCommit, PutLocked;
  }

  lemma PutLockedAt(m: Machine, req: SourceRequest, before: Clone, after: Clone)
    ensures PutLocked(m, req.allocation, before, after) ==
            if m.fuel == 0 then Stopped(m)
            else if m.fuel == 1 then Stopped(Machine(PutAt(m.disk, req, Locked(before)), 0))
            else Done(Machine(PutAt(m.disk, req, after), m.fuel - 2), ())
  {
    hide Locked, PutLocked;
    PutLockedResult(m, req.allocation, before, after);
  }

  lemma TwiceAt(d: Disk, req: SourceRequest, a: Clone, b: Clone)
    ensures PutAt(PutAt(d, req, a), req, b) == PutAt(d, req, b)
  {
    assert d.clones[req.allocation := a][req.allocation := b] == d.clones[req.allocation := b];
  }

  lemma MarkResult(m: Machine, req: SourceRequest, reply: Reply)
    ensures Mark(m, Key(req.worker, req.operation), reply) ==
            if m.fuel == 0 then Stopped(m)
            else if m.fuel == 1 then Stopped(Machine(MarkAt(m.disk, req, None), 0))
            else Done(Machine(MarkAt(m.disk, req, Some(reply)), m.fuel - 2), reply)
  {
    var d, key := m.disk, Key(req.worker, req.operation);
    assert d.markers[key := None][key := Some(reply)] == d.markers[key := Some(reply)];
  }

  /** Bundling and answering, effect by effect. */
  lemma SubmitResult(git: Measures, m: Machine, req: CommitRequest, terms: Terms, c: Clone)
    requires Key(req.worker, req.operation) !in m.disk.submissions
    ensures var whole := BundleAt(m.disk, req, true);
            Submit(git, m, req, terms, c) ==
            if m.fuel == 0 then Stopped(m)
            else if m.fuel == 1 then Stopped(Machine(BundleAt(m.disk, req, false), 0))
            else if git.pack(c.dag, c.head) > terms.Bounds().bundleBytes then Stopped(Machine(whole, m.fuel - 2))
            else Mark(Machine(whole, m.fuel - 2), Key(req.worker, req.operation), Committed(c.head))
  {
    hide Mark;
    var d, key := m.disk, Key(req.worker, req.operation);
    assert d.submissions[key := false][key := true] == d.submissions[key := true];
  }

  /** The branch with its new commit can be bundled. */
  predicate Packs(git: Measures, terms: Terms, c: Clone) {
    git.pack(c.dag, c.head) <= terms.Bounds().bundleBytes
  }

  /**
   * A commit request ready to commit always leaves its commit on the branch; it answers if and
   * only if the branch was below its bound, what is committed fits and can be bundled, and nothing
   * stale was staged.
   */
  lemma CommitAnswersExactly(git: Measures, m: Machine, req: CommitRequest, terms: Terms, c: Clone)
    requires CommitReady(git, c, terms, req) && Tidy(terms, c) && m.fuel >= 8
    requires Stacked(c.dag, c.imported, terms.base, |c.dag|) && Key(req.worker, req.operation) !in m.disk.submissions
    ensures var r := CommitHead(git, m, req, terms, c);
            && (r.Done? <==> && |c.dag| - c.imported < terms.CommitBound() && Fitting(git, terms, c)
                             && Packs(git, terms, After(c, req)) && NothingStale(c))
            && (r.Done? ==> r.value == Committed(|c.dag|))
            && r.m.disk.clones == m.disk.clones[req.allocation := After(c, req)]
  {
    hide *;
    RangeAfter(git, c, terms, req);
    CleanAfter(c, req);
    AfterLooks(c, req);
    CommitsThenSubmits(git, m, req, terms, c);
    var n := Machine(PutAt(m.disk, req, After(c, req)), m.fuel - 4);
    PutAtSubmissions(m.disk, req, c);
    SubmitResult(git, n, req, terms, After(c, req));
    MarkResult(Machine(BundleAt(n.disk, req, true), n.fuel - 2), req, Committed(|c.dag|));
    MarkingKeepsClones(n.disk, req, Some(Committed(|c.dag|)));
    MarkingKeepsClones(n.disk, req, None);
    PacksIs(git, terms, After(c, req));
  }

  lemma AfterLooks(c: Clone, req: CommitRequest)
    ensures After(c, req).head == |c.dag|
  {
    hide Staged, Pending;
  }

  lemma PacksIs(git: Measures, terms: Terms, c: Clone)
    ensures Packs(git, terms, c) <==> git.pack(c.dag, c.head) <= terms.Bounds().bundleBytes
  {
  }

  /** With enough fuel a ready commit lands; the guards after it decide whether it is submitted. */
  lemma CommitsThenSubmits(git: Measures, m: Machine, req: CommitRequest, terms: Terms, c: Clone)
    requires CommitReady(git, c, terms, req) && m.fuel >= 4
    ensures var n := Machine(PutAt(m.disk, req, After(c, req)), m.fuel - 4);
            CommitHead(git, m, req, terms, c) ==
            if RangeOk(git, After(c, req), terms, |c.dag|) && Clean(After(c, req)) then Submit(git, n, req, terms, After(c, req))
            else Stopped(n)
  {
    hide *;
    ReadyParts(git, c, terms, req);
    CommitHeadIs(git, m, req, terms, c);
    CommitChangesResult(git, m, req, terms, c);
    AfterLooks(c, req);
  }

  lemma ReadyParts(git: Measures, c: Clone, terms: Terms, req: CommitRequest)
    requires CommitReady(git, c, terms, req)
    ensures (req.expected.Some? || terms.Legacy?) && c.head == ExpectedHead(req, terms) && !c.locked
    ensures RangeOk(git, c, terms, c.head) && Stageable(git, c, terms) && WithStaged(c).index != c.dag[c.head].tree
  {
    hide RangeOk, Stageable, WithStaged;
  }

  /**
   * Two files whose names differ in case only pass every guard before the commit: the commit
   * lands, is refused, and leaves a head that the range guard refuses from then on.
   */
  lemma CollisionIsRefused(git: Measures, m: Machine, req: CommitRequest, terms: Terms, c: Clone, p: Path, q: Path)
    requires CommitReady(git, c, terms, req) && Tidy(terms, c) && m.fuel >= 8
    requires Stacked(c.dag, c.imported, terms.base, |c.dag|) && Key(req.worker, req.operation) !in m.disk.submissions
    requires p != q && SameName(p, q) && p in WithStaged(c).index && q in WithStaged(c).index
    ensures var r := CommitHead(git, m, req, terms, c);
            && r.Stopped? && r.m.disk.clones == m.disk.clones[req.allocation := After(c, req)]
            && !RangeOk(git, After(c, req), terms, After(c, req).head)
  {
    hide *;
    Collides(git, terms, c, p, q);
    AfterLooks(c, req);
    CommitAnswersExactly(git, m, req, terms, c);
    RangeAfter(git, c, terms, req);
  }

  const TWINS := ["a", "A"]

  lemma OneSegment(p: Path)
    requires |p| == 1 && p[0] != '/'
    ensures Segments(p) == [p]
  {
    assert p[1..] == "" && [p[0]] + "" == p && Segments("") == [""];
  }

  lemma OneLetter(p: Path)
    requires |p| == 1 && ('a' <= p[0] <= 'z' || 'A' <= p[0] <= 'Z')
    ensures RelativePath(p) && !GitFile(p) && Lower(p) != "agents.md" && Segments(p) == [p]
  {
    hide Segments, Lower, SegmentAllowed, EndsWith;
    OneSegment(p);
    ShortSegment(p);
    LowerLength(p);
    assert Ordinary(p);
    assert |".gitmodules"| == 11 && |".gitattributes"| == 14 && |"agents.md"| == 9;
  }

  lemma LowerLength(p: Path)
    ensures |Lower(p)| == |p|
  {
  }

  lemma ShortSegment(p: Path)
    requires |p| == 1 && p[0] != '.'
    ensures SegmentAllowed(p)
  {
    LowerLength(p);
    hide Lower;
    assert p[0..] == p && |".git"| == 4 && |".lock"| == 5 && |".."| == 2;
    assert "."[0] == '.';
  }

  lemma TwinsMatch()
    ensures TWINS[0] != TWINS[1] && SameName(TWINS[0], TWINS[1])
  {
    assert TWINS[0][0] == 'a' && TWINS[1][0] == 'A' && LowerChar('A') == 'a';
  }

  lemma OwnScopeGrants(p: Path, scope: seq<string>)
    requires RelativePath(p) && p in scope && Segments(p) == [p] && Lower(p) != "agents.md"
    ensures Authorized(Grants(scope, []), p)
  {
    hide RelativePath, Segments, Lower, EndsWith;
    var i :| 0 <= i < |scope| && scope[i] == p;
    assert Contains(p, Grants(scope, []).writeScope[i]);
  }

  lemma TwinPaths(i: nat)
    requires i < 2
    ensures TWINS[0] != TWINS[1] && SameName(TWINS[0], TWINS[1])
    ensures RelativePath(TWINS[i]) && Authorized(Grants(TWINS, []), TWINS[i]) && !GitFile(TWINS[i])
  {
    hide RelativePath, GitFile, Segments, SameName, Lower, Authorized;
    TwinsMatch();
    OneLetter(TWINS[i]);
    OwnScopeGrants(TWINS[i], TWINS);
  }

  /** Two sources written under their grants, on a new clone, are such an input. */
  lemma CollisionHappens(git: Measures, req: CommitRequest) returns (terms: Terms, c: Clone)
    requires req.expected == Some(0)
    ensures CommitReady(git, c, terms, req) && Tidy(terms, c) && Stacked(c.dag, c.imported, terms.base, |c.dag|)
    ensures TWINS[0] in WithStaged(c).index && TWINS[1] in WithStaged(c).index
  {
    var files: Tree, none: Tree := map[TWINS[0] := "", TWINS[1] := ""], map[];
    terms := Manifest(0, "main", "work", Grants(TWINS, []), 16, 100, Limits(1000, 1000, git.weigh(files), git.diff(none, none), 0));
    c := CloneFields([Commit([], none, "")], 1, 0, "work", none, files, false);
    hide *;
    TwinsFit(git, terms, files);
    TwinRange(git, c, terms);
    TwinsPend(c);
    NoChange(none);
    TwinsReady(git, c, terms, req);
  }

  lemma TwinsReady(git: Measures, c: Clone, terms: Terms, req: CommitRequest)
    requires req.expected == Some(0) && |c.dag| == 1 == c.imported && c.head == 0 && !c.locked
    requires terms.Manifest? && terms.base == 0 && terms.grants == Grants(TWINS, []) && terms.changedFiles == 100
    requires c.branch == terms.branch
    requires RangeOk(git, c, terms, 0) && ContentFits(git, terms.limits, c.worktree) && TWINS[0] in c.worktree && TWINS[1] in c.worktree
    requires Pending(c) == {TWINS[0], TWINS[1]} && WithStaged(c).index != c.dag[0].tree && Changed(c.dag[0].tree, c.index) == {}
    ensures CommitReady(git, c, terms, req) && Tidy(terms, c) && Stacked(c.dag, c.imported, terms.base, |c.dag|)
  {
    hide Authorized, RelativePath, GitFile, SameName, RangeOk, ContentFits, Pending, WithStaged, Changed;
    TwinPaths(0);
    TwinPaths(1);
    Couple(TWINS[0], TWINS[1]);
  }

  lemma Couple(p: Path, q: Path)
    requires p != q
    ensures |{p, q}| == 2
  {
  }

  lemma NoChange(t: Tree)
    ensures Changed(t, t) == {}
  {
  }

  lemma TwinsPend(c: Clone)
    requires |c.dag| == 1 && c.head == 0 && c.dag[0].tree == map[] && c.index == map[] && c.worktree == map[TWINS[0] := "", TWINS[1] := ""]
    ensures Pending(c) == {TWINS[0], TWINS[1]} && TWINS[0] in WithStaged(c).index && TWINS[1] in WithStaged(c).index
    ensures WithStaged(c).index != c.dag[0].tree
  {
  }

  lemma TwinsFit(git: Measures, terms: Terms, files: Tree)
    requires files == map[TWINS[0] := "", TWINS[1] := ""] && terms.Manifest?
    requires terms.limits.files == terms.limits.fileBytes == 1000 && terms.limits.repositoryBytes == git.weigh(files)
    ensures ContentFits(git, terms.Bounds(), files)
  {
    hide RelativePath, Authorized, GitFile, SameName, Lower;
    TwinPaths(0);
    TwinPaths(1);
    Couple(TWINS[0], TWINS[1]);
    assert files.Keys == {TWINS[0], TWINS[1]} && |files| == |files.Keys|;
  }

  lemma TwinRange(git: Measures, c: Clone, terms: Terms)
    requires |c.dag| == 1 && terms.Manifest? && terms.base == 0
    requires git.diff(c.dag[0].tree, c.dag[0].tree) <= terms.limits.diffBytes
    ensures RangeOk(git, c, terms, 0)
  {
    assert Range(c.dag, 0, 0) == {} && 0 in Ancestors(c.dag, 0);
  }

  lemma Collides(git: Measures, terms: Terms, c: Clone, p: Path, q: Path)
    requires p != q && SameName(p, q) && p in WithStaged(c).index && q in WithStaged(c).index
    ensures !Fitting(git, terms, c)
  {
    hide SameName, ContentFits, GitFile, WithStaged;
  }

  /** After staging, what is pending is what was and is now in the index, or a deletion. */
  lemma PendingAfterStaging(c: Clone)
    ensures Pending(WithStaged(c)) <= Pending(c)
    ensures forall p | p in Pending(c) && p !in c.worktree && (p in c.index || p in c.dag[c.head].tree) ::
              p !in WithStaged(c).index && (p in c.dag[c.head].tree ==> p in Pending(WithStaged(c)))
    ensures forall p | p in Pending(c) && p in c.worktree :: Entry(WithStaged(c).index, p) == Entry(c.worktree, p)
  {
    var s, tree := WithStaged(c), c.dag[c.head].tree;
    forall p | p in Pending(s) ensures p in Pending(c) {
    }
  }

  /** Staging again changes nothing unless something pending is gone from the worktree. */
  lemma StagedTwice(c: Clone)
    requires forall p | p in Pending(c) :: p in c.worktree
    ensures WithStaged(WithStaged(c)) == WithStaged(c)
  {
    var s := WithStaged(c);
    PendingAfterStaging(c);
    hide Pending;
    assert Staged(s.index, s.worktree, Pending(s)) == s.index;
  }

  /** Something to commit is something pending. */
  lemma StillPending(c: Clone)
    requires NothingStale(c) && WithStaged(c).index != c.dag[c.head].tree
    ensures Pending(WithStaged(c)) != {}
  {
    var s, tree := WithStaged(c), c.dag[c.head].tree;
    if forall p :: Entry(s.index, p) == Entry(tree, p) {
      SameTree(s.index, tree);
    } else {
      var p :| Entry(s.index, p) != Entry(tree, p);
      assert p in Pending(s);
    }
  }

  lemma StageableAgain(git: Measures, c: Clone, terms: Terms)
    requires Stageable(git, c, terms) && NothingStale(c) && WithStaged(c).index != c.dag[c.head].tree
    ensures Stageable(git, WithStaged(c), terms) <==> forall p | p in Pending(c) :: p in c.worktree
  {
    hide Authorized, Pending, NothingStale, Staged, ContentFits, GitFile;
    var s, tree := WithStaged(c), c.dag[c.head].tree;
    PendingAfterStaging(c);
    StillPending(c);
    SmallerSet(Pending(s), Pending(c));
    DeletionsWereTracked(c);
    StagingKeepsFiles(c);
    if p :| p in Pending(c) && p !in c.worktree {
      assert p in Pending(s) && p !in s.index;
    }
  }

  lemma StagingKeepsFiles(c: Clone)
    ensures WithStaged(c).worktree == c.worktree
  {
    hide Staged, Pending;
  }

  /** A pending path that is gone from the worktree was in the head. */
  lemma DeletionsWereTracked(c: Clone)
    ensures forall p | p in Pending(c) && p !in c.worktree :: p in c.dag[c.head].tree
  {
  }

  lemma SmallerSet(a: set<Path>, b: set<Path>)
    requires a <= b
    ensures |a| <= |b| && (a != {} ==> |a| > 0)
  {
    var rest := b - a;
    assert b == a + rest;
  }

  /** The project, its clone and no marker yet: where a first attempt starts. */
  predicate Fresh(d: Disk, req: SourceRequest, project: Project) {
    && req.allocation in d.clones && d.clones[req.allocation].branch == project.terms.Branch()
    && Key(req.worker, req.operation) !in d.markers && Key(req.worker, req.operation) !in d.submissions
  }

  /** As far as the child looks before it acts. */
  predicate Unmarked(d: Disk, req: SourceRequest, project: Project) {
    && req.allocation in d.clones && d.clones[req.allocation].branch == project.terms.Branch()
    && Key(req.worker, req.operation) !in d.markers
  }

  /** A commit request that would answer when nothing fails. */
  predicate CommitAnswers(git: Measures, c: Clone, terms: Terms, req: CommitRequest) {
    CommitReady(git, c, terms, req) && NothingStale(c) && RangeOk(git, After(c, req), terms, |c.dag|) && Packs(git, terms, After(c, req))
  }

  /** What a commit request leaves after its first `k` durable effects. */
  function CommitCut(d: Disk, req: CommitRequest, c: Clone, k: nat): Disk {
    var done := PutAt(d, req, After(c, req));
    if k == 0 then d
    else if k == 1 then PutAt(d, req, Locked(c))
    else if k == 2 then PutAt(d, req, WithStaged(c))
    else if k == 3 then PutAt(d, req, Locked(WithStaged(c)))
    else if k == 4 then done
    else if k <= 6 then BundleAt(done, req, k == 6)
    else MarkAt(BundleAt(done, req, true), req, if k == 7 then None else Some(Committed(|c.dag|)))
  }

  /** Without a marker the child runs the action itself. */
  lemma ActRuns(git: Measures, now: Moment, m: Machine, req: SourceRequest, project: Project)
    requires Unmarked(m.disk, req, project)
    ensures var c := m.disk.clones[req.allocation];
            Act(git, now, m, req, project) == if req.WriteSource? then Write(git, now, m, req, project.terms, c)
                                         else if req.DeleteSource? then Delete(git, m, req, project.terms, c)
                                         else CommitHead(git, m, req, project.terms, c)
  {
    hide Write, Delete, CommitHead;
  }

  lemma CommitRun(git: Measures, now: Moment, d: Disk, req: CommitRequest, project: Project, k: nat)
    requires Fresh(d, req, project)
    requires CommitAnswers(git, d.clones[req.allocation], project.terms, req)
    ensures var c := d.clones[req.allocation];
            var r := Act(git, now, Machine(d, k), req, project);
            && r.m.disk == CommitCut(d, req, c, k)
            && (r.Done? <==> k >= 8) && (r.Done? ==> r.value == Committed(|c.dag|))
  {
    var c, terms := d.clones[req.allocation], project.terms;
    var m := Machine(d, k);
    hide *;
    ActRuns(git, now, m, req, project);
    CommitHeadResult(git, m, req, terms, c);
  }

  lemma CommitHeadResult(git: Measures, m: Machine, req: CommitRequest, terms: Terms, c: Clone)
    requires CommitAnswers(git, c, terms, req) && Key(req.worker, req.operation) !in m.disk.submissions
    ensures var r := CommitHead(git, m, req, terms, c);
            && r.m.disk == CommitCut(m.disk, req, c, m.fuel)
            && (r.Done? <==> m.fuel >= 8) && (r.Done? ==> r.value == Committed(|c.dag|))
  {
    hide *;
    AnswersReady(git, c, terms, req);
    if m.fuel < 4 {
      CommitHeadIs(git, m, req, terms, c);
      ChangesCut(git, m, req, terms, c);
    } else {
      CleanAfter(c, req);
      CommitsThenSubmits(git, m, req, terms, c);
      SubmitCut(git, m.disk, req, terms, c, m.fuel);
    }
  }

  lemma ChangesCut(git: Measures, m: Machine, req: CommitRequest, terms: Terms, c: Clone)
    requires Stageable(git, c, terms) && !c.locked && WithStaged(c).index != c.dag[c.head].tree
    ensures var r := CommitChanges(git, m, req, terms, c);
            if m.fuel < 4 then r.Stopped? && r.m.disk == CommitCut(m.disk, req, c, m.fuel)
            else r == Done(Machine(PutAt(m.disk, req, After(c, req)), m.fuel - 4), After(c, req))
  {
    hide *;
    CommitChangesResult(git, m, req, terms, c);
    if m.fuel < 4 {
      CommitCuts(m.disk, req, c);
    }
  }

  /** What submitting leaves of a commit that landed. */
  lemma SubmitCut(git: Measures, d: Disk, req: CommitRequest, terms: Terms, c: Clone, k: nat)
    requires k >= 4 && Packs(git, terms, After(c, req)) && Key(req.worker, req.operation) !in d.submissions
    ensures var r := Submit(git, Machine(PutAt(d, req, After(c, req)), k - 4), req, terms, After(c, req));
            && r.m.disk == CommitCut(d, req, c, k) && (r.Done? <==> k >= 8) && (r.Done? ==> r.value == Committed(|c.dag|))
  {
    hide *;
    var n := Machine(PutAt(d, req, After(c, req)), k - 4);
    CommitCuts(d, req, c);
    AfterLooks(c, req);
    PutAtSubmissions(d, req, c);
    PacksIs(git, terms, After(c, req));
    SubmitResult(git, n, req, terms, After(c, req));
    if k >= 6 {
      MarkResult(Machine(BundleAt(n.disk, req, true), k - 6), req, Committed(|c.dag|));
    }
  }

  lemma AnswersReady(git: Measures, c: Clone, terms: Terms, req: CommitRequest)
    requires CommitAnswers(git, c, terms, req)
    ensures CommitReady(git, c, terms, req) && RangeOk(git, c, terms, c.head) && Stageable(git, c, terms) && !c.locked
    ensures WithStaged(c).index != c.dag[c.head].tree
    ensures NothingStale(c) && RangeOk(git, After(c, req), terms, |c.dag|) && Packs(git, terms, After(c, req))
    ensures (req.expected.Some? || terms.Legacy?) && c.head == ExpectedHead(req, terms)
  {
    hide RangeOk, Stageable, WithStaged, After, Packs, NothingStale;
  }

  lemma PutAtSubmissions(d: Disk, req: CommitRequest, c: Clone)
    ensures PutAt(d, req, After(c, req)).submissions == d.submissions
    ensures PutAt(d, req, After(c, req)).clones == d.clones[req.allocation := After(c, req)]
  {
    hide After;
  }

  /** A commit on the expected head, effect by effect. */
  lemma CommitHeadIs(git: Measures, m: Machine, req: CommitRequest, terms: Terms, c: Clone)
    requires (req.expected.Some? || terms.Legacy?) && RangeOk(git, c, terms, c.head) && c.head == ExpectedHead(req, terms)
    ensures CommitHead(git, m, req, terms, c) ==
            var k := CommitChanges(git, m, req, terms, c);
            if k.Stopped? || !RangeOk(git, k.value, terms, k.value.head) || !Clean(k.value) then Stopped(k.m)
            else Submit(git, k.m, req, terms, k.value)
  {
    hide RangeOk, Clean, CommitChanges, Submit, Recovered;
  }

  lemma CommitCuts(d: Disk, req: CommitRequest, c: Clone)
    ensures CommitCut(d, req, c, 0) == d && CommitCut(d, req, c, 1) == PutAt(d, req, Locked(c))
    ensures CommitCut(d, req, c, 2) == PutAt(d, req, WithStaged(c))
    ensures CommitCut(d, req, c, 3) == PutAt(d, req, Locked(WithStaged(c)))
    ensures var done := PutAt(d, req, After(c, req));
            && CommitCut(d, req, c, 4) == done && CommitCut(d, req, c, 5) == BundleAt(done, req, false)
            && CommitCut(d, req, c, 6) == BundleAt(done, req, true)
            && forall k | k >= 7 ::
                 CommitCut(d, req, c, k) == MarkAt(BundleAt(done, req, true), req, if k == 7 then None else Some(Committed(|c.dag|)))
  {
    hide WithStaged, Locked, After, PutAt, MarkAt, BundleAt;
  }

  /** A filled or torn marker decides a retry alone. */
  lemma MarkerDecides(git: Measures, now: Moment, m: Machine, req: SourceRequest, project: Project)
    requires Key(req.worker, req.operation) in m.disk.markers
    requires req.allocation in m.disk.clones && m.disk.clones[req.allocation].branch == project.terms.Branch()
    ensures var v := m.disk.markers[Key(req.worker, req.operation)];
            Act(git, now, m, req, project) == if v.Some? then Done(m, v.value) else Stopped(m)
  {
    hide Write, Delete, CommitHead;
  }

  /** After a crash between `git add` and `git commit`. */
  lemma StagedRetry(git: Measures, now: Moment, d: Disk, req: CommitRequest, project: Project)
    requires Fresh(d, req, project)
    requires CommitAnswers(git, d.clones[req.allocation], project.terms, req)
    ensures var c := d.clones[req.allocation];
            var r := Act(git, now, Machine(PutAt(d, req, WithStaged(c)), 8), req, project);
            && (r.Done? <==> forall p | p in Pending(c) :: p in c.worktree)
            && (r.Done? ==> r.value == Committed(|c.dag|) && req.allocation in r.m.disk.clones
                            && r.m.disk.clones[req.allocation] == After(c, req))
  {
    var c, terms := d.clones[req.allocation], project.terms;
    var s, e := WithStaged(c), PutAt(d, req, WithStaged(c));
    StageableAgain(git, c, terms);
    StagedFacts(git, d, req, project);
    hide *;
    if Stageable(git, s, terms) {
      StagedTwice(c);
      StagedAnswers(git, c, terms, req);
      CommitRun(git, now, e, req, project, 8);
      CommitCutEnd(e, req, s);
      AfterStaging(c, req);
    } else {
      ActRuns(git, now, Machine(e, 8), req, project);
      UnstageableStops(git, Machine(e, 8), req, terms, s);
    }
  }

  /** After a crash inside `git add` or `git commit`: the lock stays, and nothing gets past it. */
  lemma LockedRetry(git: Measures, now: Moment, d: Disk, req: CommitRequest, project: Project, c: Clone)
    requires Fresh(d, req, project) && c.branch == project.terms.Branch()
    requires c.head == ExpectedHead(req, project.terms)
    ensures Act(git, now, Machine(PutAt(d, req, Locked(c)), 8), req, project).Stopped?
  {
    var e := PutAt(d, req, Locked(c));
    PutAtFresh(d, req, project, Locked(c));
    assert Locked(c).locked && Locked(c).head == c.head;
    hide *;
    ActRuns(git, now, Machine(e, 8), req, project);
    LockStops(git, Machine(e, 8), req, project.terms, Locked(c));
  }

  lemma LockStops(git: Measures, m: Machine, req: CommitRequest, terms: Terms, c: Clone)
    requires c.head == ExpectedHead(req, terms) && c.locked
    ensures CommitHead(git, m, req, terms, c).Stopped?
  {
    hide RangeOk, Stageable;
  }

  lemma StagedFacts(git: Measures, d: Disk, req: CommitRequest, project: Project)
    requires Fresh(d, req, project)
    requires CommitAnswers(git, d.clones[req.allocation], project.terms, req)
    ensures var c, s := d.clones[req.allocation], WithStaged(d.clones[req.allocation]);
            var e := PutAt(d, req, s);
            && Fresh(e, req, project) && e.clones[req.allocation] == s
            && s.head == ExpectedHead(req, project.terms) && |s.dag| == |c.dag|
  {
    hide RangeOk, NothingStale, Stageable, Staged, Pending, After;
  }

  lemma StagedAnswers(git: Measures, c: Clone, terms: Terms, req: CommitRequest)
    requires CommitAnswers(git, c, terms, req) && Stageable(git, WithStaged(c), terms)
    requires WithStaged(WithStaged(c)) == WithStaged(c)
    ensures CommitAnswers(git, WithStaged(c), terms, req)
  {
    NothingStaleAgain(c);
    SameRange(git, c, WithStaged(c), terms);
    var s := WithStaged(c);
    assert s.head == c.head && s.branch == c.branch && s.dag == c.dag;
    hide RangeOk, NothingStale, Stageable, WithStaged, WithCommit, Packs;
  }

  lemma AfterStaging(c: Clone, req: CommitRequest)
    requires WithStaged(WithStaged(c)) == WithStaged(c)
    ensures After(WithStaged(c), req) == After(c, req)
  {
    hide WithStaged, WithCommit;
  }

  lemma CommitCutEnd(d: Disk, req: CommitRequest, c: Clone)
    ensures var e := CommitCut(d, req, c, 8); req.allocation in e.clones && e.clones[req.allocation] == After(c, req)
  {
    hide After;
  }

  lemma UnstageableStops(git: Measures, m: Machine, req: CommitRequest, terms: Terms, c: Clone)
    requires c.head == ExpectedHead(req, terms) && !Stageable(git, c, terms)
    ensures CommitHead(git, m, req, terms, c).Stopped?
  {
    hide RangeOk, Stageable;
  }

  lemma NothingStaleAgain(c: Clone)
    requires NothingStale(c)
    ensures NothingStale(WithStaged(c))
  {
    var s := WithStaged(c);
    forall p | p in s.index.Keys + s.worktree.Keys && p !in Pending(s) ensures Entry(s.index, p) == Entry(s.worktree, p) {
      if p !in Pending(c) {
        assert Entry(c.index, p) == Entry(c.worktree, p);
      }
    }
  }

  lemma RecoveredHead(git: Measures, m: Machine, req: CommitRequest, terms: Terms, c: Clone)
    requires (req.expected.Some? || terms.Legacy?)
    requires c.head != ExpectedHead(req, terms) && Recovered(c, req.operation, ExpectedHead(req, terms))
    requires RangeOk(git, c, terms, c.head) && Clean(c)
    ensures CommitHead(git, m, req, terms, c) == Submit(git, m, req, terms, c)
  {
    hide CommitChanges, RangeOk, Clean, Submit, Recovered;
  }

  lemma RecoveredAct(git: Measures, now: Moment, m: Machine, req: CommitRequest, project: Project, c: Clone)
    requires Unmarked(m.disk, req, project) && m.disk.clones[req.allocation] == c
    requires req.expected.Some? || project.terms.Legacy?
    requires c.head != ExpectedHead(req, project.terms) && Recovered(c, req.operation, ExpectedHead(req, project.terms))
    requires RangeOk(git, c, project.terms, c.head) && Clean(c)
    ensures Act(git, now, m, req, project) == Submit(git, m, req, project.terms, c)
  {
    hide *;
    ActRuns(git, now, m, req, project);
    RecoveredHead(git, m, req, project.terms, c);
  }

  /** A bundle whole or only locked, from an earlier attempt. */
  lemma SubmitAgain(git: Measures, m: Machine, req: CommitRequest, terms: Terms, c: Clone)
    requires Key(req.worker, req.operation) in m.disk.submissions
    ensures Submit(git, m, req, terms, c) ==
            if m.disk.submissions[Key(req.worker, req.operation)] && Packs(git, terms, c)
            then Mark(m, Key(req.worker, req.operation), Committed(c.head)) else Stopped(m)
  {
    hide Mark;
  }

  /** After a crash past `git commit` and before the marker: the lost response is recognised. */
  lemma CommittedRetry(git: Measures, now: Moment, d: Disk, req: CommitRequest, project: Project, k: nat)
    requires Fresh(d, req, project) && 4 <= k <= 6
    requires CommitAnswers(git, d.clones[req.allocation], project.terms, req)
    ensures var c := d.clones[req.allocation];
            var r := Act(git, now, Machine(CommitCut(d, req, c, k), 8), req, project);
            && (r.Done? <==> k != 5) && r.m.disk.clones == PutAt(d, req, After(c, req)).clones
            && (r.Done? ==> r.value == Committed(|c.dag|))
  {
    var c, terms, key := d.clones[req.allocation], project.terms, Key(req.worker, req.operation);
    var next, m := After(c, req), Machine(CommitCut(d, req, c, k), 8);
    CommittedFacts(git, d, req, project, k);
    hide *;
    RecoveredAct(git, now, m, req, project, next);
    SubmitsLate(git, m, req, terms, next);
  }

  /** Submitting a packable branch, whatever was bundled of it before. */
  lemma SubmitsLate(git: Measures, m: Machine, req: CommitRequest, terms: Terms, c: Clone)
    requires m.fuel == 8 && Packs(git, terms, c)
    ensures var r, key := Submit(git, m, req, terms, c), Key(req.worker, req.operation);
            && (r.Done? <==> (key in m.disk.submissions ==> m.disk.submissions[key])) && r.m.disk.clones == m.disk.clones
            && (r.Done? ==> r.value == Committed(c.head))
  {
  }

  lemma MarkingKeepsClones(d: Disk, req: CommitRequest, v: Option<Reply>)
    ensures BundleAt(d, req, true).clones == BundleAt(d, req, false).clones == MarkAt(BundleAt(d, req, true), req, v).clones == d.clones
  {
  }

  lemma CommittedFacts(git: Measures, d: Disk, req: CommitRequest, project: Project, k: nat)
    requires Fresh(d, req, project) && 4 <= k <= 6
    requires CommitAnswers(git, d.clones[req.allocation], project.terms, req)
    ensures var c, terms, key := d.clones[req.allocation], project.terms, Key(req.worker, req.operation);
            var next := After(c, req);
            var e := CommitCut(d, req, c, k);
            && Unmarked(e, req, project) && e.clones[req.allocation] == next && e.clones == PutAt(d, req, next).clones
            && (key in e.submissions <==> k > 4) && (k > 4 ==> (e.submissions[key] <==> k == 6))
            && (req.expected.Some? || terms.Legacy?) && next.head == |c.dag| != ExpectedHead(req, terms)
            && Recovered(next, req.operation, ExpectedHead(req, terms))
            && RangeOk(git, next, terms, next.head) && Clean(next) && Packs(git, terms, next)
            && git.pack(next.dag, next.head) <= terms.Bounds().bundleBytes
  {
    var c := d.clones[req.allocation];
    AnswersReady(git, c, project.terms, req);
    CutLooks(d, req, project, k);
    hide *;
    CleanAfter(c, req);
    AfterLooks(c, req);
    CommittedIsOwn(c, req);
    PacksIs(git, project.terms, After(c, req));
  }

  /** The commit has landed; the bundle may have been begun. */
  lemma CutLooks(d: Disk, req: CommitRequest, project: Project, k: nat)
    requires Fresh(d, req, project) && 4 <= k <= 6
    ensures var c, key := d.clones[req.allocation], Key(req.worker, req.operation);
            var next, e := After(c, req), CommitCut(d, req, c, k);
            && Unmarked(e, req, project) && e.clones[req.allocation] == next && e.clones == PutAt(d, req, next).clones
            && (key in e.submissions <==> k > 4) && (k > 4 ==> (e.submissions[key] <==> k == 6))
            && c.head < |c.dag|
  {
    var c := d.clones[req.allocation];
    AfterKeepsBranch(c, req);
    CommitCuts(d, req, c);
    PutAtFresh(d, req, project, After(c, req));
    hide After, CommitCut, Fresh, PutAt, Tidy;
    assert CommitCut(d, req, c, k) == if k == 4 then PutAt(d, req, After(c, req)) else BundleAt(PutAt(d, req, After(c, req)), req, k == 6);
    FreshParts(PutAt(d, req, After(c, req)), req, project);
  }

  lemma FreshParts(d: Disk, req: SourceRequest, project: Project)
    requires Fresh(d, req, project)
    ensures Unmarked(d, req, project) && Key(req.worker, req.operation) !in d.submissions
  {
  }

  lemma AfterKeepsBranch(c: Clone, req: CommitRequest)
    ensures After(c, req).branch == c.branch
  {
    hide Staged, Pending, Subject;
  }

  lemma CommittedIsOwn(c: Clone, req: CommitRequest)
    ensures var next := After(c, req);
            next.head == |c.dag| && next.branch == c.branch && Recovered(next, req.operation, c.head)
  {
    hide Staged, Pending, Subject;
    assert After(c, req).dag[|c.dag|] == Commit([c.head], WithStaged(c).index, Subject(req.operation));
  }

  /**
   * A commit request cut after any number of effects and retried ends with exactly one commit
   * and names it, unless the crash left a lock (inside `git add`, `git commit` or `git bundle`) or
   * a torn marker, or fell between staging and committing a deletion, which `git add` will not
   * stage twice.
   */
  lemma CommitRetriesExactly(git: Measures, now: Moment, later: Moment, d: Disk, req: CommitRequest, project: Project, k: nat)
    requires Fresh(d, req, project)
    requires CommitAnswers(git, d.clones[req.allocation], project.terms, req)
    ensures var c := d.clones[req.allocation];
            var cut := Act(git, now, Machine(d, k), req, project).m.disk;
            var r := Act(git, later, Machine(cut, 8), req, project);
            && (r.Done? <==> k !in {1, 3, 5, 7} && (k == 2 ==> forall p | p in Pending(c) :: p in c.worktree))
            && (r.Done? ==> r.value == Committed(|c.dag|) && req.allocation in r.m.disk.clones
                            && r.m.disk.clones[req.allocation] == After(c, req))
  {
    var c := d.clones[req.allocation];
    CommitCuts(d, req, c);
    CommittedIsOwn(c, req);
    StagedFacts(git, d, req, project);
    assert c.branch == project.terms.Branch() && c.head == ExpectedHead(req, project.terms);
    assert WithStaged(c).branch == c.branch;
    hide *;
    CommitRun(git, now, d, req, project, k);
    if k == 0 {
      CommitRun(git, later, d, req, project, 8);
      CommitCutEnd(d, req, c);
    } else if k == 1 {
      LockedRetry(git, later, d, req, project, c);
    } else if k == 2 {
      StagedRetry(git, later, d, req, project);
    } else if k == 3 {
      LockedRetry(git, later, d, req, project, WithStaged(c));
    } else if k <= 6 {
      CommittedRetry(git, later, d, req, project, k);
      PutAtHolds(d, req, After(c, req));
    } else {
      SubmittedFacts(d, req, project, After(c, req), if k == 7 then None else Some(Committed(|c.dag|)));
      MarkerDecides(git, later, Machine(CommitCut(d, req, c, k), 8), req, project);
    }
  }

  lemma PutAtHolds(d: Disk, req: CommitRequest, c: Clone)
    ensures req.allocation in PutAt(d, req, c).clones && PutAt(d, req, c).clones[req.allocation] == c
  {
  }

  lemma SubmittedFacts(d: Disk, req: CommitRequest, project: Project, c: Clone, v: Option<Reply>)
    requires c.branch == project.terms.Branch()
    ensures var e := MarkAt(BundleAt(PutAt(d, req, c), req, true), req, v);
            && req.allocation in e.clones && e.clones[req.allocation] == c
            && e.clones[req.allocation].branch == project.terms.Branch()
            && Key(req.worker, req.operation) in e.markers && e.markers[Key(req.worker, req.operation)] == v
  {
  }

  lemma MarkedFacts(d: Disk, req: SourceRequest, project: Project, c: Clone, v: Option<Reply>)
    requires c.branch == project.terms.Branch()
    ensures var e := MarkAt(PutAt(d, req, c), req, v);
            && req.allocation in e.clones && e.clones[req.allocation] == c
            && e.clones[req.allocation].branch == project.terms.Branch()
            && Key(req.worker, req.operation) in e.markers && e.markers[Key(req.worker, req.operation)] == v
  {
  }

  // ----- sources -----

  /** A write that passes its guards: its path is open, and with its content everything fits. */
  predicate Writable(git: Measures, c: Clone, terms: Terms, req: WriteRequest) {
    SourceOpen(git, c, terms, req.path) && ContentFits(git, terms.Bounds(), c.worktree[req.path := req.content])
  }

  /** A write gets past every crash, even one inside its fill, but the one that tears its marker. */
  lemma WriteRetriesExactly(git: Measures, now: Moment, later: Moment, d: Disk, req: WriteRequest, project: Project, k: nat)
    requires Fresh(d, req, project)
    requires Writable(git, d.clones[req.allocation], project.terms, req)
    ensures var c := d.clones[req.allocation];
            var cut := Act(git, now, Machine(d, k), req, project).m.disk;
            var r := Act(git, later, Machine(cut, 4), req, project);
            && (r.Done? <==> k != 3)
            && (r.Done? ==> r.value == Written(req.path) && req.allocation in r.m.disk.clones
                            && r.m.disk.clones[req.allocation] == WithFile(c, req.path, req.content))
  {
    var c := d.clones[req.allocation];
    hide *;
    WriteRun(git, now, d, req, project, k);
    var e := WriteCut(now, d, req, c, k);
    if k < 3 {
      WriteCutOpen(git, now, d, req, project, k);
      WriteRun(git, later, e, req, project, 4);
      WriteCutMarked(later, e, req, project, 4);
    } else {
      WriteCutMarked(now, d, req, project, k);
      MarkerDecides(git, later, Machine(e, 4), req, project);
    }
  }

  lemma WriteCutOpen(git: Measures, now: Moment, d: Disk, req: WriteRequest, project: Project, k: nat)
    requires Fresh(d, req, project) && k < 3
    requires Writable(git, d.clones[req.allocation], project.terms, req)
    ensures var c := d.clones[req.allocation];
            var e := WriteCut(now, d, req, c, k);
            && Fresh(e, req, project) && Writable(git, e.clones[req.allocation], project.terms, req)
            && WithFile(e.clones[req.allocation], req.path, req.content) == WithFile(c, req.path, req.content)
  {
    WriteCuts(now, d, req, d.clones[req.allocation]);
    FreshBranch(d, req, project);
    hide *;
    var c := d.clones[req.allocation];
    if k == 1 {
      OpenAfter(git, d, req, project, Prefix(req.content, now.torn));
    } else if k == 2 {
      OpenAfter(git, d, req, project, req.content);
    }
  }

  /** With any content in its place, the file can be written again. */
  lemma OpenAfter(git: Measures, d: Disk, req: WriteRequest, project: Project, content: string)
    requires Fresh(d, req, project) && req.allocation in d.clones
    requires Writable(git, d.clones[req.allocation], project.terms, req)
    ensures var c := d.clones[req.allocation];
            var e := PutAt(d, req, WithFile(c, req.path, content));
            && Fresh(e, req, project) && req.allocation in e.clones && Writable(git, e.clones[req.allocation], project.terms, req)
            && WithFile(e.clones[req.allocation], req.path, req.content) == WithFile(c, req.path, req.content)
  {
    hide *;
    FreshBranch(d, req, project);
    var c := d.clones[req.allocation];
    WithFileTwice(c, req.path, content, req.content);
    StillWritable(git, c, project.terms, req, content);
    PutAtFresh(d, req, project, WithFile(c, req.path, content));
    PutAtIn(d, req, WithFile(c, req.path, content));
  }

  lemma PutAtIn(d: Disk, req: SourceRequest, c: Clone)
    ensures req.allocation in PutAt(d, req, c).clones
  {
  }

  lemma WriteCuts(now: Moment, d: Disk, req: WriteRequest, c: Clone)
    ensures WriteCut(now, d, req, c, 0) == d
    ensures WriteCut(now, d, req, c, 1) == PutAt(d, req, WithFile(c, req.path, Prefix(req.content, now.torn)))
    ensures WriteCut(now, d, req, c, 2) == PutAt(d, req, WithFile(c, req.path, req.content))
  {
    hide PutAt, WithFile, Prefix;
  }

  lemma FreshBranch(d: Disk, req: WriteRequest, project: Project)
    requires Fresh(d, req, project)
    ensures req.allocation in d.clones
    ensures forall content :: WithFile(d.clones[req.allocation], req.path, content).branch == project.terms.Branch()
  {
  }

  lemma WithFileTwice(c: Clone, path: Path, a: string, b: string)
    ensures WithFile(WithFile(c, path, a), path, b) == WithFile(c, path, b)
  {
    assert c.worktree[path := a][path := b] == c.worktree[path := b];
  }

  lemma PutAtFresh(d: Disk, req: SourceRequest, project: Project, c: Clone)
    requires Fresh(d, req, project) && c.branch == project.terms.Branch()
    ensures var e := PutAt(d, req, c); Fresh(e, req, project) && e.clones[req.allocation] == c
  {
  }

  lemma WriteCutMarked(now: Moment, d: Disk, req: WriteRequest, project: Project, k: nat)
    requires Fresh(d, req, project) && k >= 3
    ensures var c := d.clones[req.allocation];
            var e := WriteCut(now, d, req, c, k);
            && req.allocation in e.clones && e.clones[req.allocation] == WithFile(c, req.path, req.content)
            && e.clones[req.allocation].branch == project.terms.Branch()
            && Key(req.worker, req.operation) in e.markers
            && e.markers[Key(req.worker, req.operation)] == if k == 3 then None else Some(Written(req.path))
  {
  }

  function WriteCut(now: Moment, d: Disk, req: WriteRequest, c: Clone, k: nat): Disk {
    var full := PutAt(d, req, WithFile(c, req.path, req.content));
    if k == 0 then d
    else if k == 1 then PutAt(d, req, WithFile(c, req.path, Prefix(req.content, now.torn)))
    else if k == 2 then full
    else MarkAt(full, req, if k == 3 then None else Some(Written(req.path)))
  }

  lemma StillWritable(git: Measures, c: Clone, terms: Terms, req: WriteRequest, content: string)
    requires Writable(git, c, terms, req)
    ensures Writable(git, WithFile(c, req.path, content), terms, req)
  {
    hide Authorized, RangeAllowed, ContentFits;
    assert c.worktree[req.path := content][req.path := req.content] == c.worktree[req.path := req.content];
  }

  lemma WriteResult(git: Measures, now: Moment, m: Machine, req: WriteRequest, terms: Terms, c: Clone)
    requires Writable(git, c, terms, req)
    ensures var r := Write(git, now, m, req, terms, c);
            && r.m.disk == WriteCut(now, m.disk, req, c, m.fuel)
            && (r.Done? <==> m.fuel >= 4) && (r.Done? ==> r.value == Written(req.path))
  {
    hide SourceOpen, ContentFits, Mark, WithFile, MarkAt, Prefix;
    var empty, full := WithFile(c, req.path, ""), WithFile(c, req.path, req.content);
    TwiceAt(m.disk, req, empty, full);
    TwiceAt(m.disk, req, empty, WithFile(c, req.path, Prefix(req.content, now.torn)));
    if m.fuel >= 2 {
      MarkResult(Machine(PutAt(m.disk, req, full), m.fuel - 2), req, Written(req.path));
    }
  }

  lemma WriteRun(git: Measures, now: Moment, d: Disk, req: WriteRequest, project: Project, k: nat)
    requires Fresh(d, req, project)
    requires Writable(git, d.clones[req.allocation], project.terms, req)
    ensures var r := Act(git, now, Machine(d, k), req, project);
            && r.m.disk == WriteCut(now, d, req, d.clones[req.allocation], k)
            && (r.Done? <==> k >= 4) && (r.Done? ==> r.value == Written(req.path))
  {
    var c, m := d.clones[req.allocation], Machine(d, k);
    hide *;
    ActRuns(git, now, m, req, project);
    WriteResult(git, now, m, req, project.terms, c);
  }

  /** A deletion is retried in vain after any crash that follows the unlinking but leaves no full marker. */
  lemma DeleteRetriesExactly(git: Measures, now: Moment, later: Moment, d: Disk, req: DeleteRequest, project: Project, k: nat)
    requires Fresh(d, req, project)
    requires var c := d.clones[req.allocation]; SourceOpen(git, c, project.terms, req.path) && req.path in c.worktree
    ensures var cut := Act(git, now, Machine(d, k), req, project).m.disk;
            var r := Act(git, later, Machine(cut, 3), req, project);
            && (r.Done? <==> k == 0 || k >= 3)
            && (r.Done? ==> r.value == Deleted(req.path))
            && (k > 0 ==> req.allocation in cut.clones && req.path !in cut.clones[req.allocation].worktree)
  {
    var c, e := d.clones[req.allocation], DeleteCut(d, req, d.clones[req.allocation], k);
    DeleteCuts(d, req, project, k);
    hide *;
    DeleteRun(git, now, d, req, project, k);
    if k == 0 {
      DeleteRun(git, later, d, req, project, 3);
    } else if k == 1 {
      ActRuns(git, later, Machine(e, 3), req, project);
      DeleteNeedsFile(git, Machine(e, 3), req, project.terms, e.clones[req.allocation]);
    } else {
      MarkerDecides(git, later, Machine(e, 3), req, project);
    }
  }

  lemma DeleteNeedsFile(git: Measures, m: Machine, req: DeleteRequest, terms: Terms, c: Clone)
    requires req.path !in c.worktree
    ensures Delete(git, m, req, terms, c) == Stopped(m)
  {
    hide SourceOpen;
  }

  lemma DeleteCuts(d: Disk, req: DeleteRequest, project: Project, k: nat)
    requires Fresh(d, req, project)
    ensures var e := DeleteCut(d, req, d.clones[req.allocation], k);
            && (k == 0 ==> e == d)
            && (k == 1 ==> Fresh(e, req, project))
            && (k > 0 ==> req.allocation in e.clones && req.path !in e.clones[req.allocation].worktree
                          && e.clones[req.allocation].branch == project.terms.Branch())
            && (k > 1 ==> Key(req.worker, req.operation) in e.markers
                          && e.markers[Key(req.worker, req.operation)] == if k == 2 then None else Some(Deleted(req.path)))
  {
    var c := d.clones[req.allocation];
    var reply := if k == 2 then None else Some(Deleted(req.path));
    DeleteCutIs(d, req, project, k);
    GoneFacts(d, req, project);
    hide *;
    PutAtFresh(d, req, project, Gone(c, req.path));
    MarkedFacts(d, req, project, Gone(c, req.path), reply);
  }

  function Gone(c: Clone, path: Path): Clone {
    c.(worktree := c.worktree - {path})
  }

  lemma GoneFacts(d: Disk, req: DeleteRequest, project: Project)
    requires Fresh(d, req, project)
    ensures var gone := Gone(d.clones[req.allocation], req.path);
            req.path !in gone.worktree && gone.branch == project.terms.Branch()
    ensures forall e :: Fresh(e, req, project) ==> req.allocation in e.clones
  {
  }

  lemma DeleteCutIs(d: Disk, req: DeleteRequest, project: Project, k: nat)
    requires Fresh(d, req, project)
    ensures var c := d.clones[req.allocation];
            var gone := PutAt(d, req, Gone(c, req.path));
            DeleteCut(d, req, c, k) ==
            if k == 0 then d else if k == 1 then gone
            else MarkAt(gone, req, if k == 2 then None else Some(Deleted(req.path)))
  {
    hide PutAt, MarkAt;
  }

  function DeleteCut(d: Disk, req: DeleteRequest, c: Clone, k: nat): Disk {
    var gone := PutAt(d, req, c.(worktree := c.worktree - {req.path}));
    if k == 0 then d
    else if k == 1 then gone
    else MarkAt(gone, req, if k == 2 then None else Some(Deleted(req.path)))
  }

  lemma DeleteResult(git: Measures, m: Machine, req: DeleteRequest, terms: Terms, c: Clone)
    requires SourceOpen(git, c, terms, req.path) && req.path in c.worktree
    ensures var r := Delete(git, m, req, terms, c);
            && r.m.disk == DeleteCut(m.disk, req, c, m.fuel)
            && (r.Done? <==> m.fuel >= 3) && (r.Done? ==> r.value == Deleted(req.path))
  {
    hide SourceOpen, Mark;
    if m.fuel >= 1 {
      MarkResult(Machine(DeleteCut(m.disk, req, c, 1), m.fuel - 1), req, Deleted(req.path));
    }
  }

  lemma DeleteRun(git: Measures, now: Moment, d: Disk, req: DeleteRequest, project: Project, k: nat)
    requires Fresh(d, req, project)
    requires var c := d.clones[req.allocation]; SourceOpen(git, c, project.terms, req.path) && req.path in c.worktree
    ensures var r := Act(git, now, Machine(d, k), req, project);
            && r.m.disk == DeleteCut(d, req, d.clones[req.allocation], k)
            && (r.Done? <==> k >= 3) && (r.Done? ==> r.value == Deleted(req.path))
  {
    var c, m := d.clones[req.allocation], Machine(d, k);
    hide *;
    ActRuns(git, now, m, req, project);
    DeleteResult(git, m, req, project.terms, c);
  }

  // ----- identities and access -----

  /** A worker nothing on the host belongs to yet. */
  predicate Unknown(d: Disk, worker: Id) {
    worker !in d.identities && worker !in d.accounts && worker !in d.groups && worker !in d.homes
  }

  lemma ReserveRun(now: Moment, d: Disk, req: CreateRequest, k: nat)
    requires Unknown(d, req.worker)
    requires FirstFree(Taken(now, d), FIRST_UID).Some?
    ensures var uid := FirstFree(Taken(now, d), FIRST_UID).value;
            Reserve(now, Machine(d, k), req) ==
            if k == 0 then Stopped(Machine(d, 0))
            else Done(Machine(WithRecord(d, req, uid), k - 1), Identity(uid, Creating, req.operation))
  {
    hide FirstFree, Taken;
  }

  /** The number is reserved and nothing made yet. */
  function WithRecord(d: Disk, req: CreateRequest, uid: nat): Disk {
    d.(identities := d.identities[req.worker := Identity(uid, Creating, req.operation)])
  }

  lemma RecordIsAll(now: Moment, d: Disk, req: CreateRequest, uid: nat)
    requires Unknown(d, req.worker) && uid !in Taken(now, d)
    ensures uid !in now.uids && uid !in now.gids
    ensures var e := WithRecord(d, req, uid);
            && req.worker !in e.accounts && req.worker !in e.groups && req.worker !in e.homes
            && req.worker in e.identities && e.identities[req.worker] == Identity(uid, Creating, req.operation)
  {
  }

  /** What creation leaves after reserving: what equipping left, perhaps with the record ready. */
  lemma CreateAfterReserve(now: Moment, m: Machine, req: CreateRequest, n: Machine, record: Identity)
    requires Reserve(now, m, req) == Done(n, record)
    requires record.operation == req.operation && record.state == Creating
    ensures var h, e := Equip(now, n, req.worker, record.uid).m.disk, Create(now, m, req).m.disk;
            e == h || e == h.(identities := h.identities[req.worker := record.(state := Ready)])
  {
    hide Reserve, Equip, Active;
  }

  lemma BegunLooks(d: Disk, req: CreateRequest, uid: nat)
    requires Equipped(d, req.worker, uid)
    requires req.worker in d.identities && d.identities[req.worker] == Identity(uid, Creating, req.operation)
    ensures Begun(d, req, uid)
    ensures Begun(d.(identities := d.identities[req.worker := Identity(uid, Creating, req.operation).(state := Ready)]), req, uid)
  {
  }

  lemma {:induction false} EquipRun(now: Moment, d: Disk, worker: Id, uid: nat, k: nat)
    requires worker !in d.accounts && worker !in d.groups && worker !in d.homes && uid !in now.uids && uid !in now.gids
    ensures var r := Equip(now, Machine(d, k), worker, uid);
            var e := r.m.disk;
            && (r.Done? <==> k >= 4) && (r.Done? ==> r.m.fuel == k - 4)
            && e.identities == d.identities && Equipped(e, worker, uid)
            && (r.Done? ==> worker in e.accounts && worker in e.groups && worker in e.homes)
  {
    hide AddGroup, AddAccount, MakeHome, Equipped;
    var m := Machine(d, k);
    AddGroupRun(now, m, worker, uid);
    var one := d.(groups := d.groups[worker := uid]);
    var two := one.(accounts := d.accounts[worker := uid]);
    NothingEquipped(d, worker, uid);
    if k >= 1 {
      AddAccountRun(now, Machine(one, k - 1), worker, uid);
    }
    if k >= 2 {
      MakeHomeRun(Machine(two, k - 2), worker, uid);
    }
  }

  lemma NothingEquipped(d: Disk, worker: Id, uid: nat)
    requires worker !in d.accounts && worker !in d.groups && worker !in d.homes
    ensures var one := d.(groups := d.groups[worker := uid]);
            && Equipped(d, worker, uid) && Equipped(one, worker, uid)
            && Equipped(one.(accounts := d.accounts[worker := uid]), worker, uid)
  {
  }

  lemma AddGroupRun(now: Moment, m: Machine, worker: Id, gid: nat)
    requires worker !in m.disk.groups && gid !in now.gids
    ensures AddGroup(now, m, worker, gid) == if m.fuel == 0 then Stopped(m)
                                        else Done(Machine(m.disk.(groups := m.disk.groups[worker := gid]), m.fuel - 1), ())
  {
  }

  lemma AddAccountRun(now: Moment, m: Machine, worker: Id, uid: nat)
    requires worker !in m.disk.accounts && uid !in now.uids
    ensures AddAccount(now, m, worker, uid) == if m.fuel == 0 then Stopped(m)
                                          else Done(Machine(m.disk.(accounts := m.disk.accounts[worker := uid]), m.fuel - 1), ())
  {
  }

  lemma {:induction false} MakeHomeRun(m: Machine, worker: Id, uid: nat)
    requires worker !in m.disk.homes
    ensures var r := MakeHome(m, worker, uid);
            && (r.Done? <==> m.fuel >= 2) && (r.Done? ==> r.m.fuel == m.fuel - 2 && worker in r.m.disk.homes)
            && r.m.disk == m.disk.(homes := r.m.disk.homes)
            && (Equipped(m.disk, worker, uid) ==> Equipped(r.m.disk, worker, uid))
  {
    HomeEquips(m.disk, worker, uid, m.disk.homes[worker := 0]);
    HomeEquips(m.disk, worker, uid, m.disk.homes[worker := 0][worker := uid]);
    hide Equipped;
  }

  lemma HomeEquips(d: Disk, worker: Id, uid: nat, homes: map<Id, nat>)
    requires worker in homes && homes[worker] in {0, uid}
    ensures Equipped(d, worker, uid) ==> Equipped(d.(homes := homes), worker, uid)
  {
  }

  /** Whatever the worker already has is what its record reserved. */
  predicate Equipped(d: Disk, worker: Id, uid: nat) {
    && (worker in d.groups ==> d.groups[worker] == uid)
    && (worker in d.accounts ==> d.accounts[worker] == uid)
    && (worker in d.homes ==> d.homes[worker] in {0, uid})
  }

  /** What is still missing may have been taken meanwhile. */
  predicate Grantable(later: Moment, d: Disk, worker: Id, uid: nat) {
    (worker in d.groups || uid !in later.gids) && (worker in d.accounts || uid !in later.uids)
  }

  lemma EquipAgain(later: Moment, d: Disk, worker: Id, uid: nat, k: nat)
    requires Equipped(d, worker, uid) && k >= 4
    ensures var r := Equip(later, Machine(d, k), worker, uid);
            && (r.Done? <==> Grantable(later, d, worker, uid))
            && (r.Done? ==> r.m.fuel >= k - 4 && r.m.disk.identities == d.identities
                            && worker in r.m.disk.accounts && r.m.disk.accounts[worker] == uid)
  {
    hide AddGroup, AddAccount, MakeHome, Equip;
    var m := Machine(d, k);
    var g := AddGroup(later, m, worker, uid);
    EquipSteps(later, m, worker, uid);
    AddGroupAgain(later, m, worker, uid);
    if g.Done? {
      AddAccountAgain(later, g.m, worker, uid);
      var a := AddAccount(later, g.m, worker, uid);
      if a.Done? {
        MakeHomeAgain(a.m, worker, uid);
      }
    }
  }

  lemma EquipSteps(now: Moment, m: Machine, worker: Id, uid: nat)
    ensures Equip(now, m, worker, uid) ==
            var g := AddGroup(now, m, worker, uid);
            if g.Stopped? then Stopped(g.m)
            else
              var a := AddAccount(now, g.m, worker, uid);
              if a.Stopped? then Stopped(a.m) else MakeHome(a.m, worker, uid)
  {
    hide AddGroup, AddAccount, MakeHome;
  }

  lemma AddGroupAgain(later: Moment, m: Machine, worker: Id, gid: nat)
    requires m.fuel >= 1 && (worker in m.disk.groups ==> m.disk.groups[worker] == gid)
    ensures var r := AddGroup(later, m, worker, gid);
            && (r.Done? <==> worker in m.disk.groups || gid !in later.gids)
            && (r.Done? ==> r.m.fuel >= m.fuel - 1 && r.m.disk == m.disk.(groups := r.m.disk.groups))
  {
  }

  lemma AddAccountAgain(later: Moment, m: Machine, worker: Id, uid: nat)
    requires m.fuel >= 1 && (worker in m.disk.accounts ==> m.disk.accounts[worker] == uid)
    ensures var r := AddAccount(later, m, worker, uid);
            && (r.Done? <==> worker in m.disk.accounts || uid !in later.uids)
            && (r.Done? ==> r.m.fuel >= m.fuel - 1 && r.m.disk == m.disk.(accounts := r.m.disk.accounts)
                            && worker in r.m.disk.accounts && r.m.disk.accounts[worker] == uid)
  {
  }

  lemma MakeHomeAgain(m: Machine, worker: Id, uid: nat)
    requires m.fuel >= 2 && (worker in m.disk.homes ==> m.disk.homes[worker] in {0, uid})
    ensures var r := MakeHome(m, worker, uid);
            r.Done? && r.m.fuel >= m.fuel - 2 && r.m.disk == m.disk.(homes := r.m.disk.homes)
  {
  }

  /** The worker's record reserves this number for this operation, and what exists agrees with it. */
  predicate Begun(d: Disk, req: CreateRequest, uid: nat) {
    && req.worker in d.identities && Equipped(d, req.worker, uid)
    && d.identities[req.worker] in {Identity(uid, Creating, req.operation), Identity(uid, Ready, req.operation)}
  }

  lemma CreateBegins(now: Moment, d: Disk, req: CreateRequest, k: nat)
    requires Unknown(d, req.worker) && k > 0
    requires FirstFree(Taken(now, d), FIRST_UID).Some?
    ensures Begun(Create(now, Machine(d, k), req).m.disk, req, FirstFree(Taken(now, d), FIRST_UID).value)
  {
    hide *;
    var uid := FirstFree(Taken(now, d), FIRST_UID).value;
    Custody.FirstFreeIsFree(Taken(now, d), FIRST_UID);
    RecordIsAll(now, d, req, uid);
    ReserveRun(now, d, req, k);
    EquipRun(now, WithRecord(d, req, uid), req.worker, uid, k - 1);
    var n, record := Machine(WithRecord(d, req, uid), k - 1), Identity(uid, Creating, req.operation);
    CreateAfterReserve(now, Machine(d, k), req, n, record);
    BegunLooks(Equip(now, n, req.worker, uid).m.disk, req, uid);
  }

  lemma CreateFinishes(later: Moment, d: Disk, req: CreateRequest, uid: nat)
    requires Begun(d, req, uid) && uid >= FIRST_UID
    ensures var r := Create(later, Machine(d, 6), req);
            && (r.Done? <==> Grantable(later, d, req.worker, uid))
            && (r.Done? ==> r.value == Identified(Identity(uid, Ready, req.operation)))
  {
    hide FirstFree, Taken, Equip, Equipped, Grantable;
    EquipAgain(later, d, req.worker, uid, 6);
  }

  /**
   * Creating an identity after a crash: a retry finishes with the number reserved first, if and
   * only if each of the group and the account was already made or the number is still free for it.
   */
  lemma CreateRecoversExactly(now: Moment, later: Moment, d: Disk, req: CreateRequest, k: nat)
    requires Unknown(d, req.worker) && k > 0
    requires FirstFree(Taken(now, d), FIRST_UID).Some?
    ensures var uid := FirstFree(Taken(now, d), FIRST_UID).value;
            var cut := Create(now, Machine(d, k), req).m.disk;
            var r := Create(later, Machine(cut, 6), req);
            && (r.Done? <==> && (req.worker in cut.groups || uid !in later.gids)
                             && (req.worker in cut.accounts || uid !in later.uids))
            && (r.Done? ==> r.value == Identified(Identity(uid, Ready, req.operation)))
  {
    hide FirstFree, Taken, Create, Begun;
    CreateBegins(now, d, req, k);
    Custody.FirstFreeIsFree(Taken(now, d), FIRST_UID);
    CreateFinishes(later, Create(now, Machine(d, k), req).m.disk, req, FirstFree(Taken(now, d), FIRST_UID).value);
  }

  /** A project this request may withdraw, from the start or again. */
  predicate Withdrawable(d: Disk, req: RevokeRequest) {
    && req.allocation in d.projects && req.allocation in d.clones
    && (d.projects[req.allocation].state == Usable || d.projects[req.allocation].revocation == Some(req.operation))
  }

  lemma RevokeCut(d: Disk, req: RevokeRequest, k: nat)
    requires Withdrawable(d, req)
    ensures Withdrawable(Revoke(Machine(d, k), req, d.projects[req.allocation]).m.disk, req)
  {
  }

  lemma RevokeFinishes(d: Disk, req: RevokeRequest)
    requires Withdrawable(d, req)
    ensures var r := Revoke(Machine(d, 3), req, d.projects[req.allocation]);
            && r.Done? && req.allocation in r.m.disk.projects && r.m.disk.projects[req.allocation].state == Revoked
            && req.allocation in r.m.disk.sealed
  {
  }

  /** Withdrawing access from a usable project survives a crash after any effect. */
  lemma RevokeAlwaysRecovers(d: Disk, req: RevokeRequest, k: nat)
    requires Withdrawable(d, req)
    ensures var cut := Revoke(Machine(d, k), req, d.projects[req.allocation]).m.disk;
            && req.allocation in cut.projects
            && var r := Revoke(Machine(cut, 3), req, cut.projects[req.allocation]);
               && r.Done? && req.allocation in r.m.disk.projects
               && r.m.disk.projects[req.allocation].state == Revoked && req.allocation in r.m.disk.sealed
  {
    hide Revoke;
    RevokeCut(d, req, k);
    RevokeFinishes(Revoke(Machine(d, k), req, d.projects[req.allocation]).m.disk, req);
  }

  /**
   * A disabling that once passed its guards, cut after any number of effects and retried, finishes:
   * the identity is disabled, the home is root's, and every listed project of the worker is revoked.
   */
  lemma DisableAlwaysRecovers(now: Moment, later: Moment, d: Disk, req: DisableRequest, k: nat)
    requires Known(d, req.worker) && req.worker in d.homes
    requires forall p | p in d.projects :: p in later.listing
    ensures var cut := Disable(now, Machine(d, k), req).m.disk;
            var r := Disable(later, Machine(cut, 2 + |later.listing|), req);
            && r.Done? && r.value == Retired(d.identities[req.worker].(state := Disabled), later.signalled)
            && req.worker in r.m.disk.identities && r.m.disk.identities[req.worker].state == Disabled
            && req.worker in r.m.disk.homes && r.m.disk.homes[req.worker] == 0
            && forall p | p in d.projects && d.projects[p].worker == req.worker ::
                 p in r.m.disk.projects && r.m.disk.projects[p].state == Revoked
  {
    hide Disable, Known;
    var cut := Disable(now, Machine(d, k), req).m.disk;
    DisableCut(now, d, req, k);
    DisableFinishes(later, cut, req);
    Custody.DisableClosesEverything(later, Machine(cut, 2 + |later.listing|), req);
  }

  /** What a cut disabling leaves can be disabled again. */
  lemma DisableCut(now: Moment, d: Disk, req: DisableRequest, k: nat)
    requires Known(d, req.worker) && req.worker in d.homes
    ensures var cut := Disable(now, Machine(d, k), req).m.disk;
            && Known(cut, req.worker) && req.worker in cut.homes
            && cut.identities[req.worker].(state := Disabled) == d.identities[req.worker].(state := Disabled)
            && cut.projects.Keys == d.projects.Keys
            && forall p | p in d.projects :: cut.projects[p].worker == d.projects[p].worker
  {
    hide RevokeListed, Disabling;
    DisableSteps(now, Machine(d, k), req);
    DisablingLooks(d, req.worker, k >= 2);
    if k >= 2 {
      var n := Machine(Disabling(d, req.worker, true), k - 2);
      RevokeListedFrame(n, req.worker, now.listing);
      ListedKeepWorkers(n, req.worker, now.listing);
    }
  }

  lemma DisablingLooks(d: Disk, worker: Id, rooted: bool)
    requires Known(d, worker) && worker in d.homes
    ensures var e := Disabling(d, worker, rooted);
            && Known(e, worker) && worker in e.homes && e.projects == d.projects
            && e.identities[worker].(state := Disabled) == d.identities[worker].(state := Disabled)
  {
  }

  lemma {:induction false} ListedKeepWorkers(m: Machine, worker: Id, listing: seq<Id>)
    ensures var d := RevokeListed(m, worker, listing).m.disk;
            && d.projects.Keys == m.disk.projects.Keys
            && forall p | p in m.disk.projects :: d.projects[p].worker == m.disk.projects[p].worker
    decreases |listing|
  {
    if listing != [] {
      var s := RevokeOne(m, worker, listing[0]);
      if s.Done? {
        ListedKeepWorkers(s.m, worker, listing[1..]);
      }
    }
  }

  lemma {:induction false} ListedFinish(m: Machine, worker: Id, listing: seq<Id>)
    requires m.fuel >= |listing|
    ensures RevokeListed(m, worker, listing).Done?
    decreases |listing|
  {
    if listing != [] {
      ListedFinish(RevokeOne(m, worker, listing[0]).m, worker, listing[1..]);
    }
  }

  lemma DisableFinishes(later: Moment, d: Disk, req: DisableRequest)
    requires Known(d, req.worker) && req.worker in d.homes
    ensures var r := Disable(later, Machine(d, 2 + |later.listing|), req);
            r.Done? && r.value == Retired(d.identities[req.worker].(state := Disabled), later.signalled)
  {
    hide RevokeListed, Disabling;
    DisableSteps(later, Machine(d, 2 + |later.listing|), req);
    ListedFinish(Machine(Disabling(d, req.worker, true), |later.listing|), req.worker, later.listing);
  }

  // ----- preparation -----

  /** A request whose bundle unpacks to a default branch that ends at the base, with a tree that fits. */
  predicate Preparable(host: Host, req: PrepareRequest) {
    var seed := host.unpack(req.bundle);
    && seed.Some? && seed.value.tip == req.terms.base && req.terms.DefaultBranch() != req.terms.Branch()
    && TreeFits(host.git, req.terms.Bounds(), seed.value.dag[seed.value.tip].tree)
  }

  function CheckedOut(c: Clone, branch: string): Clone {
    var tree := c.dag[c.head].tree;
    c.(branch := branch, index := tree, worktree := tree)
  }

  /** Whatever this preparation already left is its own, and neither its seed file nor its clone is partial. */
  predicate PrepareBegun(host: Host, d: Disk, req: PrepareRequest)
    requires Preparable(host, req)
  {
    var key, plain := Key(req.worker, req.operation), FreshClone(host.unpack(req.bundle).value, req.terms.DefaultBranch());
    && (req.allocation in d.projects ==>
          var p := d.projects[req.allocation];
          p == Project(req.worker, req.terms, p.state, req.operation, None) && p.state in {Preparing, Usable})
    && (key in d.seeds ==> d.seeds[key] == req.bundle) && req.allocation !in d.partial
    && (req.allocation in d.clones ==> d.clones[req.allocation] in {plain, CheckedOut(plain, req.terms.Branch())})
  }

  lemma BuildFinishes(host: Host, now: Moment, m: Machine, req: PrepareRequest, project: Project)
    requires Preparable(host, req) && PrepareBegun(host, m.disk, req) && m.fuel >= 5
    requires project.worker == req.worker && project.terms == req.terms
    ensures var r := BuildClone(host, now, m, req, project); r.Done? && r.m.fuel >= m.fuel - 5
  {
    var key := Key(req.worker, req.operation);
    var b := StoreSeed(now, m, key, req.bundle);
    StoreSeedFrame(now, m, key, req.bundle);
    assert b.Done? && b.m.fuel >= m.fuel - 2;
    CloneFinishes(host, b.m, req);
    hide StoreSeed, CloneSeed, CheckOut, CloneReady, CheckedOut, Preparable, PrepareBegun;
    CheckOutFinishes(host, CloneSeed(host, b.m, req).m, req);
  }

  /** The clone as it comes from the seed. */
  function Plain(host: Host, req: PrepareRequest): Clone
    requires Preparable(host, req)
  {
    FreshClone(host.unpack(req.bundle).value, req.terms.DefaultBranch())
  }

  lemma CloneFinishes(host: Host, m: Machine, req: PrepareRequest)
    requires Preparable(host, req) && PrepareBegun(host, m.disk, req) && m.fuel >= 3
    ensures var c := CloneSeed(host, m, req);
            && c.Done? && c.m.fuel >= m.fuel - 2 && req.allocation in c.m.disk.clones
            && c.m.disk.clones[req.allocation] in {Plain(host, req), CheckedOut(Plain(host, req), req.terms.Branch())}
  {
    hide TreeFits, FreshClone, CheckedOut;
  }

  lemma CheckOutFinishes(host: Host, m: Machine, req: PrepareRequest)
    requires Preparable(host, req) && m.fuel >= 1 && req.allocation in m.disk.clones
    requires m.disk.clones[req.allocation] in {Plain(host, req), CheckedOut(Plain(host, req), req.terms.Branch())}
    ensures var k := CheckOut(host.git, m, req.allocation, req.terms);
            && k.Done? && k.m.fuel >= m.fuel - 1 && req.allocation in k.m.disk.clones
            && CloneReady(host.git, k.m.disk.clones[req.allocation], req.terms)
  {
    hide FreshClone, Preparable, Plain, TreeFits, ContentFits;
    PlainLooks(host, req);
  }

  lemma PlainLooks(host: Host, req: PrepareRequest)
    requires Preparable(host, req)
    ensures var c := Plain(host, req);
            && c.head == req.terms.base < |c.dag| && c.branch == req.terms.DefaultBranch() != req.terms.Branch()
            && TreeFits(host.git, req.terms.Bounds(), c.dag[c.head].tree) && ContentFits(host.git, req.terms.Bounds(), c.dag[c.head].tree)
  {
    hide ContentFits;
  }

  lemma PrepareFinishes(host: Host, now: Moment, d: Disk, req: PrepareRequest)
    requires Preparable(host, req) && PrepareBegun(host, d, req) && Active(d, req.worker)
    ensures var r := Prepare(host, now, Machine(d, 7), req);
            && r.Done? && r.value == Prepared(Project(req.worker, req.terms, Usable, req.operation, None), d.identities[req.worker].uid)
  {
    hide BuildClone, Preparable, PrepareBegun, Active, Allocate;
    AllocateBegins(host, d, req, 7);
    var a := Allocate(Machine(d, 7), req);
    BuildFinishes(host, now, a.m, req, a.value);
  }

  /** Allocating finds the record this request left, or writes it. */
  lemma AllocateBegins(host: Host, d: Disk, req: PrepareRequest, k: nat)
    requires Preparable(host, req) && PrepareBegun(host, d, req)
    ensures var a := Allocate(Machine(d, k), req);
            && PrepareBegun(host, a.m.disk, req) && a.m.disk == d.(projects := a.m.disk.projects)
            && (k > 0 ==> a.Done?) && (req.allocation !in d.projects && k > 0 ==> a.m.fuel == k - 1)
            && (req.allocation !in d.projects && k == 0 ==> a.Stopped?)
            && (a.Done? ==> a.m.fuel >= k - 1
                            && a.value == Project(req.worker, req.terms, a.value.state, req.operation, None)
                            && a.value.state in {Preparing, Usable})
  {
    hide CheckedOut, Preparable, FreshClone;
  }

  /** Nothing of this allocation or operation exists yet. */
  predicate Unprepared(d: Disk, req: PrepareRequest) {
    && req.allocation !in d.projects && req.allocation !in d.clones && req.allocation !in d.partial
    && Key(req.worker, req.operation) !in d.seeds
  }

  lemma StoreSeedSteps(now: Moment, m: Machine, key: Key, data: string)
    requires key !in m.disk.seeds
    ensures var d := m.disk;
            StoreSeed(now, m, key, data) ==
            if m.fuel == 0 then Stopped(m)
            else if m.fuel == 1 then Stopped(Machine(d.(seeds := d.seeds[key := Prefix(data, now.torn)]), 0))
            else Done(Machine(d.(seeds := d.seeds[key := data]), m.fuel - 2), ())
  {
    hide Prefix;
    assert m.disk.seeds[key := ""][key := Prefix(data, now.torn)] == m.disk.seeds[key := Prefix(data, now.torn)];
    assert m.disk.seeds[key := ""][key := data] == m.disk.seeds[key := data];
  }

  lemma StoreSeedRun(now: Moment, m: Machine, key: Key, data: string)
    requires key !in m.disk.seeds
    ensures var r := StoreSeed(now, m, key, data);
            && r.m.disk == m.disk.(seeds := r.m.disk.seeds)
            && (m.fuel == 0 ==> r == Stopped(m))
            && (m.fuel == 1 ==> r.Stopped? && r.m.disk.seeds == m.disk.seeds[key := Prefix(data, now.torn)])
            && (m.fuel >= 2 ==> r.Done? && key in r.m.disk.seeds && r.m.disk.seeds[key] == data)
  {
    hide Prefix, Put;
    StoreSeedSteps(now, m, key, data);
  }

  /** The clone was cut short. */
  predicate HalfCloned(d: Disk, req: PrepareRequest) {
    req.allocation in d.partial && req.allocation !in d.clones
  }

  /** Cloning and checking out leave, wherever they stop, what a retry goes on from, or half a clone. */
  lemma CloneCut(host: Host, m: Machine, req: PrepareRequest)
    requires Preparable(host, req) && PrepareBegun(host, m.disk, req)
    ensures var c := CloneSeed(host, m, req);
            && (if HalfCloned(c.m.disk, req) then c.Stopped? else PrepareBegun(host, c.m.disk, req))
            && (c.Done? ==> PrepareBegun(host, CheckOut(host.git, c.m, req.allocation, req.terms).m.disk, req))
  {
    hide Preparable, CheckedOut, FreshClone;
    var c := CloneSeed(host, m, req);
    if c.Done? {
      hide CloneSeed;
      CheckOutCut(host, c.m, req);
    }
  }

  lemma CheckOutCut(host: Host, m: Machine, req: PrepareRequest)
    requires Preparable(host, req) && PrepareBegun(host, m.disk, req)
    ensures PrepareBegun(host, CheckOut(host.git, m, req.allocation, req.terms).m.disk, req)
  {
    hide TreeFits;
  }

  /** What a stopped or finished build leaves: a good start, a torn seed file, or half a clone. */
  lemma BuildCut(host: Host, now: Moment, m: Machine, req: PrepareRequest, project: Project)
    requires Preparable(host, req) && PrepareBegun(host, m.disk, req)
    requires project.worker == req.worker && project.terms == req.terms && Key(req.worker, req.operation) !in m.disk.seeds
    ensures var d := BuildClone(host, now, m, req, project).m.disk;
            PrepareBegun(host, d, req) || !SeedWhole(d, req) || HalfCloned(d, req)
  {
    hide StoreSeed, CloneSeed, CheckOut, CloneReady, Preparable, HalfCloned;
    var key := Key(req.worker, req.operation);
    var b := StoreSeed(now, m, key, req.bundle);
    StoreSeedRun(now, m, key, req.bundle);
    if SeedWhole(b.m.disk, req) {
      SeedStored(host, m, b.m, req);
    }
    if b.Done? {
      hide PrepareBegun;
      CloneCut(host, b.m, req);
    }
  }

  /** The seed file is absent, or holds the whole bundle. */
  predicate SeedWhole(d: Disk, req: PrepareRequest) {
    Key(req.worker, req.operation) in d.seeds ==> d.seeds[Key(req.worker, req.operation)] == req.bundle
  }

  lemma SeedStored(host: Host, m: Machine, n: Machine, req: PrepareRequest)
    requires Preparable(host, req) && PrepareBegun(host, m.disk, req)
    requires n.disk == m.disk.(seeds := n.disk.seeds)
    requires SeedWhole(n.disk, req)
    ensures PrepareBegun(host, n.disk, req)
  {
    hide CheckedOut, Preparable;
  }

  lemma PrepareCut(host: Host, now: Moment, d: Disk, req: PrepareRequest, k: nat)
    requires Preparable(host, req) && Unprepared(d, req) && Active(d, req.worker)
    ensures var e := Prepare(host, now, Machine(d, k), req).m.disk;
            PrepareBegun(host, e, req) || !SeedWhole(e, req) || HalfCloned(e, req)
  {
    hide Prepare, BuildClone, Preparable, PrepareBegun, Active, Allocate, SeedWhole, Unprepared, HalfCloned;
    UnpreparedBegins(host, d, req);
    AllocateBegins(host, d, req, k);
    PrepareSteps(host, now, Machine(d, k), req);
    var a := Allocate(Machine(d, k), req);
    if a.Done? {
      BuildCut(host, now, a.m, req, a.value);
      BuildCloneFrame(host, now, a.m, req, a.value);
      var b := BuildClone(host, now, a.m, req, a.value);
      UsableBegins(host, b.m.disk, req, a.value.(state := Usable));
    }
  }

  lemma PrepareSteps(host: Host, now: Moment, m: Machine, req: PrepareRequest)
    requires Active(m.disk, req.worker)
    requires var a := Allocate(m, req);
             a.Done? ==> a.value == Project(req.worker, req.terms, a.value.state, req.operation, None)
                         && a.value.state in {Preparing, Usable}
    ensures Prepare(host, now, m, req) ==
            var a := Allocate(m, req);
            if a.Stopped? then Stopped(a.m)
            else
              var b := BuildClone(host, now, a.m, req, a.value);
              if b.Stopped? then Stopped(b.m)
              else
                var usable := a.value.(state := Usable);
                var s := SaveProject(b.m, req.allocation, usable);
                if s.Stopped? then Stopped(s.m) else Done(s.m, Prepared(usable, m.disk.identities[req.worker].uid))
  {
    hide BuildClone, Allocate, Active, SaveProject;
  }

  lemma UnpreparedBegins(host: Host, d: Disk, req: PrepareRequest)
    requires Preparable(host, req) && Unprepared(d, req)
    ensures PrepareBegun(host, d, req) && req.allocation !in d.projects && Key(req.worker, req.operation) !in d.seeds
  {
  }

  /** Marking the record usable is still the same preparation. */
  lemma UsableBegins(host: Host, d: Disk, req: PrepareRequest, p: Project)
    requires Preparable(host, req)
    requires p == Project(req.worker, req.terms, Usable, req.operation, None)
    ensures var e := d.(projects := d.projects[req.allocation := p]);
            && (PrepareBegun(host, d, req) ==> PrepareBegun(host, e, req))
            && (SeedWhole(e, req) <==> SeedWhole(d, req)) && (HalfCloned(e, req) <==> HalfCloned(d, req))
  {
    hide CheckedOut, Preparable, FreshClone;
  }

  /** A torn seed file or half a clone stops every retry. */
  lemma TornStops(host: Host, now: Moment, m: Machine, req: PrepareRequest)
    requires Active(m.disk, req.worker) && (!SeedWhole(m.disk, req) || HalfCloned(m.disk, req))
    ensures Prepare(host, now, m, req).Stopped?
  {
    hide BuildClone, Active, SeedWhole, HalfCloned;
    var a := Allocate(m, req);
    AllocateKeepsRest(m, req);
    if a.Done? {
      TornBuildStops(host, now, a.m, req, a.value);
    }
  }

  lemma AllocateKeepsRest(m: Machine, req: PrepareRequest)
    ensures var d := Allocate(m, req).m.disk;
            (SeedWhole(d, req) <==> SeedWhole(m.disk, req)) && (HalfCloned(d, req) <==> HalfCloned(m.disk, req))
  {
  }

  lemma TornBuildStops(host: Host, now: Moment, m: Machine, req: PrepareRequest, project: Project)
    requires (!SeedWhole(m.disk, req) || HalfCloned(m.disk, req))
    ensures BuildClone(host, now, m, req, project).Stopped?
  {
    hide CheckOut, CloneReady, FreshClone, StoreSeed;
    StoreSeedFrame(now, m, Key(req.worker, req.operation), req.bundle);
    if !SeedWhole(m.disk, req) {
      TornSeedStops(now, m, req);
    }
  }

  lemma TornSeedStops(now: Moment, m: Machine, req: PrepareRequest)
    requires !SeedWhole(m.disk, req)
    ensures StoreSeed(now, m, Key(req.worker, req.operation), req.bundle).Stopped?
  {
  }

  /**
   * A preparation cut after any number of effects, even inside the filling of its seed file or
   * inside its clone, and retried: it answers if and only if the stored seed is absent or whole
   * and the clone is too.
   */
  lemma PrepareRetriesExactly(host: Host, now: Moment, later: Moment, d: Disk, req: PrepareRequest, k: nat)
    requires Preparable(host, req) && Unprepared(d, req) && Active(d, req.worker)
    ensures var cut := Prepare(host, now, Machine(d, k), req).m.disk;
            && Active(cut, req.worker)
            && var r, key := Prepare(host, later, Machine(cut, 7), req), Key(req.worker, req.operation);
               && (r.Done? <==> && (key in cut.seeds ==> cut.seeds[key] == req.bundle)
                                && (req.allocation in cut.partial ==> req.allocation in cut.clones))
               && (r.Done? ==> r.value == Prepared(Project(req.worker, req.terms, Usable, req.operation, None),
                                                   d.identities[req.worker].uid))
  {
    var cut := Prepare(host, now, Machine(d, k), req).m.disk;
    PrepareFrame(host, now, Machine(d, k), req);
    assert Active(cut, req.worker) && cut.identities == d.identities;
    hide Prepare, Active, PrepareBegun, Preparable, Unprepared;
    PrepareCut(host, now, d, req, k);
    if SeedWhole(cut, req) && !HalfCloned(cut, req) {
      PrepareFinishes(host, later, cut, req);
    } else {
      TornStops(host, later, Machine(cut, 7), req);
    }
  }
}
