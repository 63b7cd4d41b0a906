/** What the provisioner's branches hold over whole runs: whose commits, how many, and which paths. */
module Commits {
  import opened Checks
  import opened Paths
  import opened GitRange
  import opened ProvisionerModel
  import opened Frames
  import opened Receipts

  type ReceiptMap = map<Id, Receipt>
  type Projects = map<Id, Project>
  type Clones = map<Id, Clone>

  /** The commit was made for this request, on the head the request expected. */
  ghost predicate Origin(host: Host, receipts: ReceiptMap, a: Id, terms: Terms, c: Commit, req: Request) {
    && req.CommitProject? && req.allocation == a && (req.expected.Some? || terms.Legacy?)
    && req.operation in receipts && receipts[req.operation].digest == host.digest(req)
    && c.subject == Subject(req.operation) && c.parents == [ExpectedHead(req, terms)]
  }

  /** A commit added to the clone sits on the one before it and changes granted paths only. */
  ghost predicate Added(host: Host, receipts: ReceiptMap, a: Id, terms: Terms, c: Clone, i: nat)
    requires i < |c.dag|
  {
    && c.dag[i].parents == [Tip(c.imported, terms.base, i)]
    && CommitAllowed(c.dag, terms.Scope(), i)
    && exists req :: Origin(host, receipts, a, terms, c.dag[i], req)
  }

  /** The branch is the base followed by the added commits, at most one past the bound. */
  ghost predicate Grown(host: Host, receipts: ReceiptMap, a: Id, terms: Terms, c: Clone) {
    && (|c.dag| > c.imported ==>
          terms.base < c.imported && c.head == |c.dag| - 1 && c.branch == terms.Branch())
    && |c.dag| <= c.imported + terms.CommitBound() + 1
    && forall i | c.imported <= i < |c.dag| :: Added(host, receipts, a, terms, c, i)
  }

  /** In a usable project the head is the tip, and only granted paths are staged. */
  ghost predicate Tidy(terms: Terms, c: Clone) {
    && terms.base < c.imported
    && c.head == Tip(c.imported, terms.base, |c.dag|)
    && forall p | p in Changed(c.dag[c.head].tree, c.index) :: Authorized(terms.Scope(), p)
  }

  /** A commit reply names an accepted commit of the project, this operation's own. */
  ghost predicate CommitReply(git: Measures, projects: Projects, clones: Clones, req: CommitRequest, reply: Reply) {
    && reply.Committed? && req.allocation in projects && req.allocation in clones
    && var terms, c := projects[req.allocation].terms, clones[req.allocation];
       && RangeOk(git, c, terms, reply.commit)
       && c.dag[reply.commit].subject == Subject(req.operation)
       && c.dag[reply.commit].parents != [] && c.dag[reply.commit].parents[0] == ExpectedHead(req, terms)
  }

  ghost predicate ReplyOk(host: Host, projects: Projects, clones: Clones, digest: string, reply: Reply) {
    forall req: Request | req.CommitProject? && host.digest(req) == digest :: CommitReply(host.git, projects, clones, req, reply)
  }

  ghost predicate ClonesSound(host: Host, receipts: ReceiptMap, projects: Projects, clones: Clones) {
    && (forall a | a in clones :: a in projects && Grown(host, receipts, a, projects[a].terms, clones[a]))
    && (forall a | a in projects && projects[a].state == Usable :: a in clones && Tidy(projects[a].terms, clones[a]))
  }

  ghost predicate RepliesSound(host: Host, d: Disk) {
    && (forall k | k in d.markers && d.markers[k].Some? :: k.operation in d.receipts
          && ReplyOk(host, d.projects, d.clones, d.receipts[k.operation].digest, d.markers[k].value))
    && (forall o | o in d.receipts && d.receipts[o].reply.Some? ::
          ReplyOk(host, d.projects, d.clones, d.receipts[o].digest, d.receipts[o].reply.value))
  }

  ghost predicate Sound(host: Host, d: Disk) {
    ClonesSound(host, d.receipts, d.projects, d.clones) && RepliesSound(host, d)
  }

  /** Clones only gain commits. */
  ghost predicate ClonesGrow(a: Clones, b: Clones) {
    forall x | x in a :: x in b && a[x].dag <= b[x].dag && a[x].imported == b[x].imported
  }

  /** Projects keep their terms, and none becomes usable. */
  ghost predicate NoneOpens(a: Projects, b: Projects) {
    && (forall x | x in a :: x in b && a[x].terms == b[x].terms)
    && (forall x | x in b && b[x].state == Usable :: x in a && a[x].state == Usable)
  }

  // ----- ranges are stable as the graph grows -----

  lemma {:induction false} AncestorsStable(a: Graph, b: Graph, c: nat)
    requires a <= b && c < |a|
    ensures Ancestors(a, c) == Ancestors(b, c)
    decreases c, |a[c].parents| + 1
  {
    AncestorsOfStable(a, b, c, a[c].parents);
  }

  lemma {:induction false} AncestorsOfStable(a: Graph, b: Graph, c: nat, parents: seq<nat>)
    requires a <= b && c < |a| && forall i | 0 <= i < |parents| :: parents[i] < c
    ensures AncestorsOf(a, c, parents) == AncestorsOf(b, c, parents)
    decreases c, |parents|
  {
    if parents != [] {
      AncestorsStable(a, b, parents[0]);
      AncestorsOfStable(a, b, c, parents[1..]);
    }
  }

  lemma RangeStable(a: Graph, b: Graph, git: Measures, l: Limits, g: Grants, bound: nat, base: nat, head: nat)
    requires a <= b && RangeAllowed(a, git, l, g, bound, base, head)
    ensures RangeAllowed(b, git, l, g, bound, base, head)
  {
    hide Ancestors, Authorized, Changed, TreeFits;
    AncestorsStable(a, b, base);
    AncestorsStable(a, b, head);
    forall c | c in Range(b, base, head) ensures CommitAllowed(b, g, c) && TreeFits(git, l, b[c].tree) {
      assert c in Range(a, base, head);
      assert CommitAllowed(a, g, c) && TreeFits(git, l, a[c].tree);
    }
  }

  lemma ReplyStable(git: Measures, p: Projects, q: Projects, a: Clones, b: Clones, req: CommitRequest, reply: Reply)
    requires CommitReply(git, p, a, req, reply) && ClonesGrow(a, b)
    requires forall x | x in p :: x in q && p[x].terms == q[x].terms
    ensures CommitReply(git, q, b, req, reply)
  {
    var terms, c, d := p[req.allocation].terms, a[req.allocation], b[req.allocation];
    RangeStable(c.dag, d.dag, git, terms.Bounds(), terms.Scope(), terms.CommitBound(), terms.base, reply.commit);
    hide RangeAllowed;
  }

  lemma RepliesStable(host: Host, d: Disk, e: Disk)
    requires RepliesSound(host, d) && d.markers == e.markers && d.receipts == e.receipts
    requires ClonesGrow(d.clones, e.clones)
    requires forall x | x in d.projects :: x in e.projects && d.projects[x].terms == e.projects[x].terms
    ensures RepliesSound(host, e)
  {
    hide CommitReply, ClonesGrow;
    forall digest, reply | ReplyOk(host, d.projects, d.clones, digest, reply)
      ensures ReplyOk(host, e.projects, e.clones, digest, reply) {
      forall req: Request | req.CommitProject? && host.digest(req) == digest
        ensures CommitReply(host.git, e.projects, e.clones, req, reply)
      {
        ReplyStable(host.git, d.projects, e.projects, d.clones, e.clones, req, reply);
      }
    }
  }

  // ----- one effect at a time -----

  lemma CloneEffect(host: Host, d: Disk, a: Id, c: Clone)
    requires Sound(host, d) && a in d.clones
    requires d.clones[a].dag <= c.dag && d.clones[a].imported == c.imported
    requires Grown(host, d.receipts, a, d.projects[a].terms, c)
    requires d.projects[a].state == Usable ==> Tidy(d.projects[a].terms, c)
    ensures var e := d.(clones := d.clones[a := c]); Sound(host, e)
  {
    hide Grown, Tidy, RepliesSound;
    RepliesStable(host, d, d.(clones := d.clones[a := c]));
  }

  lemma MarkerEffect(host: Host, d: Disk, key: Key, v: Option<Reply>)
    requires Sound(host, d) && key.operation in d.receipts
    requires v.Some? ==> ReplyOk(host, d.projects, d.clones, d.receipts[key.operation].digest, v.value)
    ensures var e := d.(markers := d.markers[key := v]); Sound(host, e)
  {
    hide ClonesSound, ReplyOk;
  }

  lemma ReceiptEffect(host: Host, d: Disk, o: Id, r: Receipt)
    requires Sound(host, d) && (o in d.receipts ==> d.receipts[o].digest == r.digest)
    requires r.reply.Some? ==> ReplyOk(host, d.projects, d.clones, r.digest, r.reply.value)
    ensures var e := d.(receipts := d.receipts[o := r]); Sound(host, e)
  {
    hide ReplyOk, Tidy;
    var receipts := d.receipts[o := r];
    forall a | a in d.clones ensures Grown(host, receipts, a, d.projects[a].terms, d.clones[a]) {
      GrownWithReceipt(host, d.receipts, o, r, a, d.projects[a].terms, d.clones[a]);
    }
    hide Grown;
  }

  lemma GrownWithReceipt(host: Host, receipts: ReceiptMap, o: Id, r: Receipt, a: Id, terms: Terms, c: Clone)
    requires Grown(host, receipts, a, terms, c) && (o in receipts ==> receipts[o].digest == r.digest)
    ensures Grown(host, receipts[o := r], a, terms, c)
  {
    hide CommitAllowed;
    var after := receipts[o := r];
    forall i | c.imported <= i < |c.dag| ensures Added(host, after, a, terms, c, i) {
      assert Added(host, receipts, a, terms, c, i);
      var req :| Origin(host, receipts, a, terms, c.dag[i], req);
      assert Origin(host, after, a, terms, c.dag[i], req);
    }
  }

  lemma ProjectEffect(host: Host, d: Disk, projects: Projects)
    requires Sound(host, d) && NoneOpens(d.projects, projects)
    ensures var e := d.(projects := projects); Sound(host, e)
  {
    hide Grown, Tidy, RepliesSound;
    RepliesStable(host, d, d.(projects := projects));
  }

  // ----- the branch as a chain -----

  /** The numbers from `start` up to, not including, `end`. */
  function Interval(start: nat, end: nat): (s: set<nat>)
    ensures forall x :: x in s <==> start <= x < end
    ensures start <= end ==> |s| == end - start
    decreases end
  {
    if start >= end then {} else Interval(start, end - 1) + {end - 1}
  }

  /** The head of a branch that stacks the commits up to `end` on its base. */
  function Tip(imported: nat, base: nat, end: nat): nat {
    if end <= imported then base else end - 1
  }

  ghost predicate Stacked(dag: Graph, imported: nat, base: nat, end: nat) {
    && base < imported <= end <= |dag|
    && forall i | imported <= i < end :: dag[i].parents == [Tip(imported, base, i)]
  }

  lemma UnionTurns(x: nat, a: set<nat>, b: set<nat>, below: set<nat>, all: set<nat>, whole: set<nat>)
    requires all == {x} + below && below == a + b && whole == b + {x}
    ensures all == a + whole
  {
  }

  /** The top commit of a stack has the one below it as its only parent. */
  lemma StackTop(dag: Graph, imported: nat, base: nat, end: nat)
    requires Stacked(dag, imported, base, end) && end > imported
    ensures Stacked(dag, imported, base, end - 1) && Tip(imported, base, end) == end - 1 < |dag|
    ensures Tip(imported, base, end - 1) < |dag| && dag[end - 1].parents == [Tip(imported, base, end - 1)]
    ensures Interval(imported, end) == Interval(imported, end - 1) + {end - 1}
  {
  }

  lemma StackBottom(dag: Graph, imported: nat, base: nat, end: nat)
    requires Stacked(dag, imported, base, end)
    ensures base < |dag| && Tip(imported, base, end) < |dag| && imported <= end
    ensures end <= imported ==> Tip(imported, base, end) == base && Interval(imported, end) == {}
  {
  }

  /** The history of the tip is the base's history and every commit added since. */
  lemma {:induction false} StackAncestors(dag: Graph, imported: nat, base: nat, end: nat)
    requires Stacked(dag, imported, base, end)
    ensures Ancestors(dag, Tip(imported, base, end)) == Ancestors(dag, base) + Interval(imported, end)
    decreases end
  {
    hide *;
    StackBottom(dag, imported, base, end);
    if end > imported {
      StackTop(dag, imported, base, end);
      StackBottom(dag, imported, base, end - 1);
      StackAncestors(dag, imported, base, end - 1);
      StackStep(dag, imported, base, end, Tip(imported, base, end - 1));
    } else {
      assert Ancestors(dag, base) + {} == Ancestors(dag, base);
    }
  }

  lemma StackStep(dag: Graph, imported: nat, base: nat, end: nat, parent: nat)
    requires 0 < end <= |dag| && base < |dag| && parent < |dag| && dag[end - 1].parents == [parent]
    requires Ancestors(dag, parent) == Ancestors(dag, base) + Interval(imported, end - 1)
    requires Interval(imported, end) == Interval(imported, end - 1) + {end - 1}
    ensures Ancestors(dag, end - 1) == Ancestors(dag, base) + Interval(imported, end)
  {
    hide *;
    OnlyParent(dag, end - 1, parent);
    UnionTurns(end - 1, Ancestors(dag, base), Interval(imported, end - 1), Ancestors(dag, parent), Ancestors(dag, end - 1),
               Interval(imported, end));
  }

  /** What lies between the base and the tip is exactly what was added. */
  lemma StackRange(dag: Graph, imported: nat, base: nat, end: nat)
    requires Stacked(dag, imported, base, end)
    ensures var tip := Tip(imported, base, end);
            && base in Ancestors(dag, tip)
            && Range(dag, base, tip) == Interval(imported, end)
            && |Range(dag, base, tip)| == end - imported
  {
    hide Ancestors;
    StackAncestors(dag, imported, base, end);
    assert forall c | c in Ancestors(dag, base) :: c <= base;
  }

  // ----- the worker child -----

  lemma TipStacked(host: Host, receipts: ReceiptMap, a: Id, terms: Terms, c: Clone)
    requires Grown(host, receipts, a, terms, c) && Tidy(terms, c)
    ensures Stacked(c.dag, c.imported, terms.base, |c.dag|)
    ensures |Range(c.dag, terms.base, c.head)| == |c.dag| - c.imported
  {
    hide Authorized, Changed, CommitAllowed, Ancestors, AncestorsOf, Origin;
    forall i | c.imported <= i < |c.dag| ensures c.dag[i].parents == [Tip(c.imported, terms.base, i)] {
      assert Added(host, receipts, a, terms, c, i);
    }
    StackRange(c.dag, c.imported, terms.base, |c.dag|);
  }

  /** The index and worktree are no part of what makes a branch well grown. */
  lemma GrownIgnoresFiles(host: Host, receipts: ReceiptMap, a: Id, terms: Terms, c: Clone, d: Clone)
    requires Grown(host, receipts, a, terms, c)
    requires d == c.(index := d.index, worktree := d.worktree, locked := d.locked)
    ensures Grown(host, receipts, a, terms, d)
  {
    hide CommitAllowed, Origin;
    forall i | d.imported <= i < |d.dag| ensures Added(host, receipts, a, terms, d, i) {
      assert Added(host, receipts, a, terms, c, i);
    }
  }

  lemma StagingStaysAuthorized(git: Measures, terms: Terms, c: Clone)
    requires Tidy(terms, c) && Stageable(git, c, terms)
    ensures Tidy(terms, WithStaged(c))
  {
    hide Authorized, ContentFits, GitFile;
    var tree, index := c.dag[c.head].tree, WithStaged(c).index;
    forall p | p in Changed(tree, index) ensures p in Changed(tree, c.index) || p in Pending(c) {
    }
  }

  lemma RangeIsShort(git: Measures, c: Clone, terms: Terms)
    requires RangeOk(git, c, terms, c.head)
    ensures terms.base < |c.dag| && |Range(c.dag, terms.base, c.head)| <= terms.CommitBound()
  {
    hide CommitAllowed, TreeFits, Range;
  }

  lemma CommittingGrows(host: Host, receipts: ReceiptMap, terms: Terms, c: Clone, req: CommitRequest)
    requires c.head == ExpectedHead(req, terms) && RangeOk(host.git, c, terms, c.head)
    requires Grown(host, receipts, req.allocation, terms, c) && Tidy(terms, c) && c.branch == terms.Branch()
    requires req.expected.Some? || terms.Legacy?
    requires req.operation in receipts && receipts[req.operation].digest == host.digest(req)
    ensures var next := WithCommit(c, req.operation);
            Grown(host, receipts, req.allocation, terms, next) && Tidy(terms, next)
  {
    hide Authorized, RangeOk, Subject, Range;
    RangeIsShort(host.git, c, terms);
    var next: Clone := WithCommit(c, req.operation);
    TipStacked(host, receipts, req.allocation, terms, c);
    assert Origin(host, receipts, req.allocation, terms, next.dag[|c.dag|], req);
    forall i | next.imported <= i < |next.dag| ensures Added(host, receipts, req.allocation, terms, next, i) {
      if i < |c.dag| {
        assert Added(host, receipts, req.allocation, terms, c, i);
      }
    }
  }

  /** What a source action starts from: its receipt is open and its project usable. */
  ghost predicate Working(host: Host, d: Disk, req: Request, terms: Terms) {
    && Sound(host, d) && (req.WriteSource? || req.DeleteSource? || req.CommitProject?)
    && req.operation in d.receipts && d.receipts[req.operation].digest == host.digest(req)
    && req.allocation in d.projects && d.projects[req.allocation].state == Usable
    && d.projects[req.allocation].terms == terms && req.allocation in d.clones
  }

  /** Changing only files, or taking the lock, keeps everything sound. */
  lemma FilesEffect(host: Host, d: Disk, req: Request, terms: Terms, c: Clone)
    requires Working(host, d, req, terms)
    requires c == d.clones[req.allocation].(worktree := c.worktree, locked := c.locked)
    ensures var e := d.(clones := d.clones[req.allocation := c]); Working(host, e, req, terms)
  {
    var before := d.clones[req.allocation];
    GrownIgnoresFiles(host, d.receipts, req.allocation, terms, before, c);
    CloneEffect(host, d, req.allocation, c);
    hide Sound, Grown;
  }

  /** A reply of another kind is no commit reply, and digests tell the requests apart. */
  lemma OwnReply(host: Host, d: Disk, req: Request, reply: Reply)
    requires Injective(host)
    requires req.CommitProject? ==> CommitReply(host.git, d.projects, d.clones, req, reply)
    ensures ReplyOk(host, d.projects, d.clones, host.digest(req), reply)
  {
    hide CommitReply;
  }

  /** Marking the action's own key with a sound reply, or with none yet, keeps the work going. */
  lemma MarkerWorks(host: Host, d: Disk, req: Request, terms: Terms, v: Option<Reply>)
    requires Working(host, d, req, terms)
    requires v.Some? ==> ReplyOk(host, d.projects, d.clones, host.digest(req), v.value)
    ensures var e := d.(markers := d.markers[Key(req.worker, req.operation) := v]); Working(host, e, req, terms)
  {
    hide Sound, ReplyOk;
    MarkerEffect(host, d, Key(req.worker, req.operation), v);
  }

  lemma MarkKeepsSound(host: Host, m: Machine, req: Request, terms: Terms, reply: Reply)
    requires Working(host, m.disk, req, terms) && Injective(host)
    requires req.CommitProject? ==> CommitReply(host.git, m.disk.projects, m.disk.clones, req, reply)
    ensures var r := Mark(m, Key(req.worker, req.operation), reply);
            && Working(host, r.m.disk, req, terms)
            && ReplyOk(host, r.m.disk.projects, r.m.disk.clones, host.digest(req), reply)
            && r.m.disk == m.disk.(markers := r.m.disk.markers)
  {
    var d, key := m.disk, Key(req.worker, req.operation);
    hide Working, ReplyOk, CommitReply, Injective;
    OwnReply(host, d, req, reply);
    MarkerWorks(host, d, req, terms, None);
    MarkerWorks(host, d.(markers := d.markers[key := None]), req, terms, Some(reply));
  }

  /** Putting the clone back with other files, or the same under lock, keeps the work going. */
  lemma FilePut(host: Host, m: Machine, req: Request, terms: Terms, c: Clone)
    requires Working(host, m.disk, req, terms)
    requires c == m.disk.clones[req.allocation].(worktree := c.worktree, locked := c.locked)
    ensures var r := PutClone(m, req.allocation, c);
            && Working(host, r.m.disk, req, terms)
            && (r.Done? ==> req.allocation in r.m.disk.clones && r.m.disk.clones[req.allocation] == c)
  {
    hide Working;
    FilesEffect(host, m.disk, req, terms, c);
  }

  lemma FillKeepsSound(host: Host, now: Moment, m: Machine, req: WriteRequest, terms: Terms, c: Clone)
    requires Working(host, m.disk, req, terms)
    requires m.disk.clones[req.allocation] == WithFile(c, req.path, "")
    ensures Working(host, FillFile(now, m, req.allocation, c, req.path, req.content).m.disk, req, terms)
  {
    hide Working, PutClone, WithFile, Prefix;
    WorkingHasClone(host, m.disk, req, terms);
    SameFields(c, req.path, "", Prefix(req.content, now.torn));
    SameFields(c, req.path, "", req.content);
    if m.fuel == 0 {
      FilesEffect(host, m.disk, req, terms, WithFile(c, req.path, Prefix(req.content, now.torn)));
    } else {
      FilePut(host, m, req, terms, WithFile(c, req.path, req.content));
    }
  }

  lemma SameFields(c: Clone, path: Path, a: string, b: string)
    ensures var e, f := WithFile(c, path, a), WithFile(c, path, b); f == e.(worktree := f.worktree, locked := f.locked)
    ensures var e := WithFile(c, path, a); e == c.(worktree := e.worktree, locked := e.locked)
  {
  }

  lemma WriteKeepsSound(host: Host, now: Moment, m: Machine, req: WriteRequest, terms: Terms)
    requires Working(host, m.disk, req, terms) && Injective(host)
    ensures var r := Write(host.git, now, m, req, terms, m.disk.clones[req.allocation]);
            && Working(host, r.m.disk, req, terms)
            && (r.Done? ==> ReplyOk(host, r.m.disk.projects, r.m.disk.clones, host.digest(req), r.value))
  {
    hide CommitReply, Working, ReplyOk, Mark, SourceOpen, ContentFits, PutClone, FillFile, WithFile, Injective;
    WorkingHasClone(host, m.disk, req, terms);
    var c := m.disk.clones[req.allocation];
    SameFields(c, req.path, "", "");
    var t := PutClone(m, req.allocation, WithFile(c, req.path, ""));
    FilePut(host, m, req, terms, WithFile(c, req.path, ""));
    if t.Done? {
      FillKeepsSound(host, now, t.m, req, terms, c);
      var f := FillFile(now, t.m, req.allocation, c, req.path, req.content);
      MarkKeepsSound(host, f.m, req, terms, Written(req.path));
      MarkAnswers(f.m, Key(req.worker, req.operation), Written(req.path));
    }
  }

  lemma MarkAnswers(m: Machine, key: Key, reply: Reply)
    ensures Mark(m, key, reply).Done? ==> Mark(m, key, reply).value == reply
  {
  }

  lemma DeleteKeepsSound(host: Host, m: Machine, req: DeleteRequest, terms: Terms)
    requires Working(host, m.disk, req, terms) && Injective(host)
    ensures var r := Delete(host.git, m, req, terms, m.disk.clones[req.allocation]);
            && Working(host, r.m.disk, req, terms)
            && (r.Done? ==> ReplyOk(host, r.m.disk.projects, r.m.disk.clones, host.digest(req), r.value))
  {
    hide CommitReply, Sound, ReplyOk, Mark, SourceOpen;
    var c, d, reply := m.disk.clones[req.allocation], m.disk, Deleted(req.path);
    var after: Clone := c.(worktree := c.worktree - {req.path});
    FilesEffect(host, d, req, terms, after);
    hide Working;
    if SourceOpen(host.git, c, terms, req.path) && m.fuel >= 1 {
      var f := Machine(d.(clones := d.clones[req.allocation := after]), m.fuel - 1);
      MarkKeepsSound(host, f, req, terms, reply);
      MarkAnswers(f, Key(req.worker, req.operation), reply);
    }
  }

  lemma StageEffect(host: Host, d: Disk, req: Request, terms: Terms)
    requires Working(host, d, req, terms) && Stageable(host.git, d.clones[req.allocation], terms)
    ensures var e := d.(clones := d.clones[req.allocation := WithStaged(d.clones[req.allocation])]); Working(host, e, req, terms)
  {
    var c := d.clones[req.allocation];
    StagingStaysAuthorized(host.git, terms, c);
    GrownIgnoresFiles(host, d.receipts, req.allocation, terms, c, WithStaged(c));
    CloneEffect(host, d, req.allocation, WithStaged(c));
    hide Sound, Grown, Tidy, Staged, Pending;
  }

  lemma CommitEffect(host: Host, d: Disk, req: CommitRequest, terms: Terms)
    requires Working(host, d, req, terms)
    requires req.expected.Some? || terms.Legacy?
    requires var c := d.clones[req.allocation];
             c.head == ExpectedHead(req, terms) && RangeOk(host.git, c, terms, c.head) && c.branch == terms.Branch()
    ensures var e := d.(clones := d.clones[req.allocation := WithCommit(d.clones[req.allocation], req.operation)]);
            Working(host, e, req, terms)
  {
    var c := d.clones[req.allocation];
    CommittingGrows(host, d.receipts, terms, c, req);
    CloneEffect(host, d, req.allocation, WithCommit(c, req.operation));
    hide Sound, Grown, Tidy, RangeOk;
  }

  /** The head of the clone is this request's own commit. */
  predicate OwnHead(c: Clone, req: CommitRequest, terms: Terms) {
    Recovered(c, req.operation, ExpectedHead(req, terms))
  }

  lemma StagePut(host: Host, m: Machine, req: Request, terms: Terms)
    requires Working(host, m.disk, req, terms) && Stageable(host.git, m.disk.clones[req.allocation], terms)
    ensures var c := m.disk.clones[req.allocation];
            var r := PutLocked(m, req.allocation, c, WithStaged(c));
            && Working(host, r.m.disk, req, terms)
            && (r.Done? ==> r.m.disk == m.disk.(clones := m.disk.clones[req.allocation := WithStaged(c)]))
  {
    var c, d := m.disk.clones[req.allocation], m.disk;
    FilesEffect(host, d, req, terms, Locked(c));
    StageEffect(host, d, req, terms);
    PutLockedResult(m, req.allocation, c, WithStaged(c));
    hide *;
  }

  lemma CommitIsOwn(c: Clone, req: CommitRequest, terms: Terms)
    requires c.head == ExpectedHead(req, terms)
    ensures OwnHead(WithCommit(c, req.operation), req, terms)
  {
    hide Subject;
  }

  lemma CommitPut(host: Host, m: Machine, req: Request, terms: Terms)
    requires Working(host, m.disk, req, terms) && req.CommitProject? && (req.expected.Some? || terms.Legacy?)
    requires var c := m.disk.clones[req.allocation];
             c.head == ExpectedHead(req, terms) && RangeOk(host.git, c, terms, c.head) && c.branch == terms.Branch()
    ensures var next := WithCommit(m.disk.clones[req.allocation], req.operation);
            var r := PutLocked(m, req.allocation, m.disk.clones[req.allocation], next);
            && Working(host, r.m.disk, req, terms) && OwnHead(next, req, terms)
            && (r.Done? ==> r.m.disk == m.disk.(clones := m.disk.clones[req.allocation := next]))
  {
    var c, d := m.disk.clones[req.allocation], m.disk;
    FilesEffect(host, d, req, terms, Locked(c));
    CommitEffect(host, d, req, terms);
    PutLockedResult(m, req.allocation, c, WithCommit(c, req.operation));
    CommitIsOwn(c, req, terms);
    hide *;
  }

  /** Staging and committing, effect by effect. */
  lemma CommitChangesSteps(git: Measures, m: Machine, req: CommitRequest, terms: Terms, c: Clone)
    ensures var r, s := CommitChanges(git, m, req, terms, c), PutLocked(m, req.allocation, c, WithStaged(c));
            if !Stageable(git, c, terms) || c.locked then r == Stopped(m)
            else if s.Stopped? || WithStaged(c).index == c.dag[c.head].tree then r == Stopped(s.m)
            else
              var next := WithCommit(WithStaged(c), req.operation);
              var k := PutLocked(s.m, req.allocation, WithStaged(c), next);
              r == if k.Stopped? then Stopped(k.m) else Done(k.m, next)
  {
    hide PutLocked, WithStaged, WithCommit, Stageable;
  }

  lemma StagedKeeps(c: Clone)
    ensures WithStaged(c).dag == c.dag && WithStaged(c).head == c.head && WithStaged(c).branch == c.branch
  {
  }

  lemma StageStep(host: Host, m: Machine, req: Request, terms: Terms, c: Clone)
    requires Working(host, m.disk, req, terms) && c == m.disk.clones[req.allocation] && Stageable(host.git, c, terms)
    ensures var r := PutLocked(m, req.allocation, c, WithStaged(c));
            && Working(host, r.m.disk, req, terms)
            && (r.Done? ==> r.m.disk.clones[req.allocation] == WithStaged(c))
  {
    hide *;
    WorkingHasClone(host, m.disk, req, terms);
    StagePut(host, m, req, terms);
  }

  lemma CommitStep(host: Host, m: Machine, req: Request, terms: Terms, c: Clone)
    requires Working(host, m.disk, req, terms) && req.CommitProject? && (req.expected.Some? || terms.Legacy?)
    requires c == m.disk.clones[req.allocation]
    requires c.head == ExpectedHead(req, terms) && RangeOk(host.git, c, terms, c.head) && c.branch == terms.Branch()
    ensures var next := WithCommit(c, req.operation);
            var r := PutLocked(m, req.allocation, c, next);
            && Working(host, r.m.disk, req, terms) && OwnHead(next, req, terms)
            && (r.Done? ==> req.allocation in r.m.disk.clones && r.m.disk.clones[req.allocation] == next)
  {
    hide *;
    WorkingHasClone(host, m.disk, req, terms);
    CommitPut(host, m, req, terms);
  }

  lemma CommitChangesKeepsSound(host: Host, m: Machine, req: Request, terms: Terms)
    requires Working(host, m.disk, req, terms) && req.CommitProject? && (req.expected.Some? || terms.Legacy?)
    requires var c := m.disk.clones[req.allocation];
             c.head == ExpectedHead(req, terms) && RangeOk(host.git, c, terms, c.head) && c.branch == terms.Branch()
    ensures var r := CommitChanges(host.git, m, req, terms, m.disk.clones[req.allocation]);
            && Working(host, r.m.disk, req, terms)
            && (r.Done? ==> OwnHead(r.value, req, terms)
                            && req.allocation in r.m.disk.clones && r.value == r.m.disk.clones[req.allocation])
  {
    var c := m.disk.clones[req.allocation];
    hide *;
    CommitChangesSteps(host.git, m, req, terms, c);
    if Stageable(host.git, c, terms) && !c.locked {
      var staged := WithStaged(c);
      StagedKeeps(c);
      SameRange(host.git, c, staged, terms);
      StageStep(host, m, req, terms, c);
      var s := PutLocked(m, req.allocation, c, staged);
      if s.Done? && staged.index != c.dag[c.head].tree {
        CommitStep(host, s.m, req, terms, staged);
      }
    }
  }

  lemma WorkingHasClone(host: Host, d: Disk, req: Request, terms: Terms)
    requires Working(host, d, req, terms)
    ensures req.allocation in d.clones
  {
    hide Sound;
  }

  lemma SameRange(git: Measures, c: Clone, d: Clone, terms: Terms)
    requires c.dag == d.dag && c.head == d.head && RangeOk(git, c, terms, c.head)
    ensures RangeOk(git, d, terms, d.head)
  {
    hide RangeAllowed;
  }

  lemma CommitHeadKeepsSound(host: Host, m: Machine, req: CommitRequest, terms: Terms)
    requires Working(host, m.disk, req, terms) && Injective(host)
    requires m.disk.clones[req.allocation].branch == terms.Branch()
    ensures var r := CommitHead(host.git, m, req, terms, m.disk.clones[req.allocation]);
            && Working(host, r.m.disk, req, terms)
            && (r.Done? ==> ReplyOk(host, r.m.disk.projects, r.m.disk.clones, host.digest(req), r.value))
  {
    hide Sound, RangeOk, CommitChanges, Recovered, Clean, Submit, ReplyOk;
    var c, expected := m.disk.clones[req.allocation], ExpectedHead(req, terms);
    if (req.expected.Some? || terms.Legacy?) && RangeOk(host.git, c, terms, c.head) {
      if c.head == expected {
        CommitChangesKeepsSound(host, m, req, terms);
        var k := CommitChanges(host.git, m, req, terms, c);
        if k.Done? && RangeOk(host.git, k.value, terms, k.value.head) {
          OwnHeadSubmits(host, k.m, req, terms);
        }
      } else if Recovered(c, req.operation, expected) {
        OwnHeadSubmits(host, m, req, terms);
      }
    }
    hide Working;
  }

  /** A bundle is no part of what makes a disk sound. */
  lemma BundleWorks(host: Host, m: Machine, req: Request, terms: Terms, key: Key)
    requires Working(host, m.disk, req, terms)
    ensures var d := Bundle(m, key).m.disk; Working(host, d, req, terms) && d.clones == m.disk.clones
  {
    hide Sound;
    SoundIgnoresRest(host, m.disk, Bundle(m, key).m.disk);
  }

  /** Submitting stops with the bundle, or goes on to the marker. */
  lemma SubmitSteps(git: Measures, m: Machine, req: CommitRequest, terms: Terms, c: Clone)
    ensures var r, b := Submit(git, m, req, terms, c), Bundle(m, Key(req.worker, req.operation));
            r == Stopped(b.m) || r == Mark(b.m, Key(req.worker, req.operation), Committed(c.head))
  {
    hide Bundle, Mark;
  }

  lemma OwnHeadSubmits(host: Host, m: Machine, req: CommitRequest, terms: Terms)
    requires Working(host, m.disk, req, terms) && Injective(host)
    requires var c := m.disk.clones[req.allocation]; OwnHead(c, req, terms) && RangeOk(host.git, c, terms, c.head)
    ensures var r := Submit(host.git, m, req, terms, m.disk.clones[req.allocation]);
            && Working(host, r.m.disk, req, terms)
            && (r.Done? ==> ReplyOk(host, r.m.disk.projects, r.m.disk.clones, host.digest(req), r.value))
  {
    hide *;
    WorkingHasClone(host, m.disk, req, terms);
    var c := m.disk.clones[req.allocation];
    var b := Bundle(m, Key(req.worker, req.operation));
    BundleWorks(host, m, req, terms, Key(req.worker, req.operation));
    OwnHeadReplies(host, b.m, req, terms);
    SubmitSteps(host.git, m, req, terms, c);
  }

  lemma OwnHeadReplies(host: Host, m: Machine, req: CommitRequest, terms: Terms)
    requires Working(host, m.disk, req, terms) && Injective(host)
    requires var c := m.disk.clones[req.allocation]; OwnHead(c, req, terms) && RangeOk(host.git, c, terms, c.head)
    ensures var reply := Committed(m.disk.clones[req.allocation].head);
            var r := Mark(m, Key(req.worker, req.operation), reply);
            && Working(host, r.m.disk, req, terms)
            && (r.Done? ==> r.value == reply)
            && ReplyOk(host, r.m.disk.projects, r.m.disk.clones, host.digest(req), reply)
  {
    hide Sound, ReplyOk, Mark, RangeOk;
    var reply := Committed(m.disk.clones[req.allocation].head);
    MarkKeepsSound(host, m, req, terms, reply);
    MarkAnswers(m, Key(req.worker, req.operation), reply);
  }

  lemma ActKeepsSound(host: Host, now: Moment, m: Machine, req: SourceRequest)
    requires Sound(host, m.disk) && Injective(host)
    requires req.operation in m.disk.receipts && m.disk.receipts[req.operation].digest == host.digest(req)
    requires req.allocation in m.disk.projects && m.disk.projects[req.allocation].state == Usable
    ensures var r := Act(host.git, now, m, req, m.disk.projects[req.allocation]);
            && Sound(host, r.m.disk)
            && (r.Done? ==> ReplyOk(host, r.m.disk.projects, r.m.disk.clones, host.digest(req), r.value))
  {
    hide ClonesSound, ReplyOk, Write, Delete, CommitHead;
    var terms, key := m.disk.projects[req.allocation].terms, Key(req.worker, req.operation);
    if req.allocation in m.disk.clones && m.disk.clones[req.allocation].branch == terms.Branch() && key !in m.disk.markers {
      if req.WriteSource? {
        WriteKeepsSound(host, now, m, req, terms);
      } else if req.DeleteSource? {
        DeleteKeepsSound(host, m, req, terms);
      } else {
        CommitHeadKeepsSound(host, m, req, terms);
      }
    }
  }

  // ----- preparation -----

  lemma SoundIgnoresRest(host: Host, d: Disk, e: Disk)
    requires Sound(host, d) && d.receipts == e.receipts && d.projects == e.projects
    requires d.clones == e.clones && d.markers == e.markers
    ensures Sound(host, e)
  {
    hide ClonesSound, ReplyOk;
  }

  lemma NewCloneEffect(host: Host, d: Disk, e: Disk, a: Id, seed: Seed, branch: string)
    requires Sound(host, d) && a in d.projects && a !in d.clones && e.clones == d.clones[a := FreshClone(seed, branch)]
    requires e.receipts == d.receipts && e.projects == d.projects && e.markers == d.markers
    ensures Sound(host, e)
  {
    hide Grown, Tidy, RepliesSound, FreshClone;
    FreshIsGrown(host, d.receipts, a, d.projects[a].terms, seed, branch);
    RepliesStable(host, d, e);
  }

  lemma FreshIsGrown(host: Host, receipts: ReceiptMap, a: Id, terms: Terms, seed: Seed, branch: string)
    ensures var c := FreshClone(seed, branch); Grown(host, receipts, a, terms, c)
  {
  }

  lemma CheckOutKeepsSound(host: Host, m: Machine, a: Id)
    requires Sound(host, m.disk) && a in m.disk.projects
    ensures Sound(host, CheckOut(host.git, m, a, m.disk.projects[a].terms).m.disk)
  {
    var d, terms := m.disk, m.disk.projects[a].terms;
    if a in d.clones && terms.base < |d.clones[a].dag| && d.clones[a].head == terms.base && d.clones[a].branch != terms.Branch() {
      var c := d.clones[a];
      var tree := c.dag[c.head].tree;
      assert Grown(host, d.receipts, a, terms, c.(branch := terms.Branch(), index := tree, worktree := tree)) by {
        assert |c.dag| <= c.imported;
      }
      hide Grown, RepliesSound, Authorized;
      CloneEffect(host, d, a, c.(branch := terms.Branch(), index := tree, worktree := tree));
      hide ClonesSound, Tidy;
    }
  }

  lemma OpenEffect(host: Host, d: Disk, a: Id)
    requires Sound(host, d) && a in d.projects && a in d.clones
    requires d.clones[a].head == d.projects[a].terms.base && Clean(d.clones[a])
    ensures var e := d.(projects := d.projects[a := d.projects[a].(state := Usable)]); Sound(host, e)
  {
    var terms, c := d.projects[a].terms, d.clones[a];
    assert Grown(host, d.receipts, a, terms, c);
    assert Tidy(terms, c);
    RepliesStable(host, d, d.(projects := d.projects[a := d.projects[a].(state := Usable)]));
    hide Grown, Tidy, RepliesSound;
  }

  lemma CloneSeedKeepsSound(host: Host, m: Machine, req: PrepareRequest)
    requires Sound(host, m.disk) && req.allocation in m.disk.projects
    ensures var d := CloneSeed(host, m, req).m.disk; Sound(host, d) && d.projects == m.disk.projects
  {
    hide *;
    var d, seed := CloneSeed(host, m, req).m.disk, host.unpack(req.bundle);
    CloneSeedFrame(host, m, req);
    CloneSeedShape(host, m, req);
    if d.clones == m.disk.clones {
      SoundIgnoresRest(host, m.disk, d);
    } else {
      NewCloneEffect(host, m.disk, d, req.allocation, seed.value, req.terms.DefaultBranch());
    }
  }

  lemma BuildCloneKeepsSound(host: Host, now: Moment, m: Machine, req: PrepareRequest)
    requires Sound(host, m.disk) && req.allocation in m.disk.projects
    ensures var r := BuildClone(host, now, m, req, m.disk.projects[req.allocation]);
            && Sound(host, r.m.disk) && r.m.disk.projects == m.disk.projects
            && (r.Done? ==> req.allocation in r.m.disk.clones && Clean(r.m.disk.clones[req.allocation])
                            && r.m.disk.clones[req.allocation].head == m.disk.projects[req.allocation].terms.base)
  {
    hide Sound, StoreSeed, CloneSeed, CheckOut, Clean, ContentFits;
    var key, project := Key(req.worker, req.operation), m.disk.projects[req.allocation];
    var b := StoreSeed(now, m, key, req.bundle);
    StoreSeedFrame(now, m, key, req.bundle);
    SoundIgnoresRest(host, m.disk, b.m.disk);
    if b.Done? {
      var c := CloneSeed(host, b.m, req);
      CloneSeedKeepsSound(host, b.m, req);
      if c.Done? {
        CheckOutFrame(host.git, c.m, req.allocation, project.terms);
        CheckOutKeepsSound(host, c.m, req.allocation);
      }
    }
  }

  lemma PrepareKeepsSound(host: Host, now: Moment, m: Machine, req: PrepareRequest)
    requires Sound(host, m.disk) && Active(m.disk, req.worker)
    ensures Sound(host, Prepare(host, now, m, req).m.disk)
  {
    hide Sound, BuildClone, Active;
    var a := Allocate(m, req);
    AllocateKeepsSound(host, m, req);
    if a.Done? {
      BuildCloneKeepsSound(host, now, a.m, req);
      var b := BuildClone(host, now, a.m, req, a.value);
      if b.Done? {
        OpenEffect(host, b.m.disk, req.allocation);
      }
    }
  }

  lemma AllocateKeepsSound(host: Host, m: Machine, req: PrepareRequest)
    requires Sound(host, m.disk)
    ensures var a := Allocate(m, req);
            && Sound(host, a.m.disk)
            && (a.Done? ==> req.allocation in a.m.disk.projects && a.value == a.m.disk.projects[req.allocation])
  {
    hide Sound;
    if req.allocation !in m.disk.projects {
      ProjectEffect(host, m.disk, m.disk.projects[req.allocation := Project(req.worker, req.terms, Preparing, req.operation, None)]);
    }
  }

  // ----- closing -----

  lemma {:induction false} RevokeListedOpensNone(m: Machine, worker: Id, listing: seq<Id>)
    ensures NoneOpens(m.disk.projects, RevokeListed(m, worker, listing).m.disk.projects)
    decreases |listing|
  {
    if listing != [] {
      var s := RevokeOne(m, worker, listing[0]);
      if s.Done? {
        RevokeListedOpensNone(s.m, worker, listing[1..]);
      }
    }
  }

  lemma DisableOpensNone(now: Moment, m: Machine, req: DisableRequest)
    ensures NoneOpens(m.disk.projects, Disable(now, m, req).m.disk.projects)
  {
    hide RevokeListed, Disable;
    DisableSteps(now, m, req);
    if Known(m.disk, req.worker) && m.fuel >= 2 {
      RevokeListedOpensNone(Machine(Disabling(m.disk, req.worker, true), m.fuel - 2), req.worker, now.listing);
    }
  }

  lemma RevokeOpensNone(m: Machine, req: RevokeRequest)
    requires req.allocation in m.disk.projects
    ensures NoneOpens(m.disk.projects, Revoke(m, req, m.disk.projects[req.allocation]).m.disk.projects)
  {
    hide Revoke;
    RevokeShape(m, req, m.disk.projects[req.allocation]);
  }

  /** Each operation keeps the disk sound, and its answer is as good as its receipt will say. */
  lemma PerformKeepsSound(host: Host, now: Moment, m: Machine, req: Change)
    requires Sound(host, m.disk) && Injective(host)
    requires req.operation in m.disk.receipts && m.disk.receipts[req.operation].digest == host.digest(req)
    ensures var r := Perform(host, now, m, req);
            && Sound(host, r.m.disk)
            && (r.Done? ==> ReplyOk(host, r.m.disk.projects, r.m.disk.clones, host.digest(req), r.value))
  {
    hide Create, Disable, Prepare, Revoke, Act, Sound, CommitReply;
    if req.CreateIdentity? {
      CreateFrame(now, m, req);
      SoundIgnoresRest(host, m.disk, Create(now, m, req).m.disk);
    } else if req.DisableIdentity? {
      DisableFrame(now, m, req);
      DisableOpensNone(now, m, req);
      var d := Disable(now, m, req).m.disk;
      ProjectEffect(host, m.disk, d.projects);
      SoundIgnoresRest(host, m.disk.(projects := d.projects), d);
    } else if Active(m.disk, req.worker) {
      if req.PrepareClone? {
        PrepareKeepsSound(host, now, m, req);
      } else if req.allocation in m.disk.projects {
        var project := m.disk.projects[req.allocation];
        if req.RevokeAccess? {
          RevokeFrame(m, req, project);
          RevokeOpensNone(m, req);
          var d := Revoke(m, req, project).m.disk;
          ProjectEffect(host, m.disk, d.projects);
          SoundIgnoresRest(host, m.disk.(projects := d.projects), d);
        } else if project.state == Usable {
          ActKeepsSound(host, now, m, req);
        }
      }
    }
  }
}
