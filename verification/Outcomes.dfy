/** What becomes of a branch past its bound, and of a commit whose response was lost, over whole runs. */
module Outcomes {
  import opened Checks
  import opened Paths
  import opened GitRange
  import opened ProvisionerModel
  import opened Frames
  import opened Receipts
  import opened Commits
  import opened Branches
  import Custody
  import Recovery

  /** The range guard refuses the head, which some commit was added to reach. */
  predicate Blocked(git: Measures, d: Disk, a: Id) {
    && a in d.clones && a in d.projects && |d.clones[a].dag| > d.clones[a].imported
    && !RangeOk(git, d.clones[a], d.projects[a].terms, d.clones[a].head)
  }

  /** More commits were added than the manifest allows, or a tree or the difference does not fit. */
  predicate Overgrown(git: Measures, terms: Terms, c: Clone) {
    || |c.dag| - c.imported > terms.CommitBound()
    || (exists i | c.imported <= i < |c.dag| :: !TreeFits(git, terms.Bounds(), c.dag[i].tree))
    || (terms.base < |c.dag| && git.diff(c.dag[terms.base].tree, c.dag[c.head].tree) > terms.Bounds().diffBytes)
  }

  ghost predicate SameAt(a: Disk, b: Disk, x: Id) {
    x in a.clones && x in b.clones && a.clones[x] == b.clones[x]
  }

  /** What was added decides the range guard at the tip. */
  lemma TipRange(host: Host, receipts: ReceiptMap, a: Id, terms: Terms, c: Clone)
    requires Grown(host, receipts, a, terms, c) && c.imported < |c.dag|
    ensures RangeOk(host.git, c, terms, c.head) <==> !Overgrown(host.git, terms, c)
  {
    assert c.head == Tip(c.imported, terms.base, |c.dag|);
    GrownIsStacked(host, receipts, a, terms, c);
    hide Grown, RangeOk, CommitAllowed, Ancestors, Range, Stacked, Overgrown;
    StackedBounds(c.dag, c.imported, terms.base);
    StackRange(c.dag, c.imported, terms.base, |c.dag|);
    AllowedInterval(host.git, c, terms);
  }

  lemma StackedBounds(dag: Graph, imported: nat, base: nat)
    requires Stacked(dag, imported, base, |dag|)
    ensures base < |dag|
  {
  }

  lemma AllowedInterval(git: Measures, c: Clone, terms: Terms)
    requires terms.base < |c.dag| && terms.base in Ancestors(c.dag, c.head)
    requires Range(c.dag, terms.base, c.head) == Interval(c.imported, |c.dag|)
    requires |Range(c.dag, terms.base, c.head)| == |c.dag| - c.imported
    requires forall i | c.imported <= i < |c.dag| :: CommitAllowed(c.dag, terms.Scope(), i)
    ensures RangeOk(git, c, terms, c.head) <==> !Overgrown(git, terms, c)
  {
    hide CommitAllowed, Ancestors, Range, TreeFits;
    assert forall i :: i in Interval(c.imported, |c.dag|) <==> c.imported <= i < |c.dag|;
  }

  /** The range guard refuses a head some commit was added to reach exactly when it is overgrown. */
  ghost predicate BlocksOvergrown(git: Measures, d: Disk) {
    forall a | a in d.clones && d.clones[a].imported < |d.clones[a].dag| ::
      a in d.projects && (Blocked(git, d, a) <==> Overgrown(git, d.projects[a].terms, d.clones[a]))
  }

  /** So it is after any run. */
  lemma BlockedExactly(host: Host, run: seq<Delivery>)
    requires Injective(host)
    ensures BlocksOvergrown(host.git, Serve(host, BLANK, run))
  {
    hide Serve, RepliesSound, Tidy, Grown, RangeOk, Overgrown;
    var d := Serve(host, BLANK, run);
    ServeKeepsSound(host, run);
    forall a | a in d.clones && d.clones[a].imported < |d.clones[a].dag|
      ensures a in d.projects && (Blocked(host.git, d, a) <==> Overgrown(host.git, d.projects[a].terms, d.clones[a]))
    {
      TipRange(host, d.receipts, a, d.projects[a].terms, d.clones[a]);
    }
  }

  lemma BlockedActs(host: Host, now: Moment, m: Machine, req: SourceRequest)
    requires Sound(host, m.disk) && Blocked(host.git, m.disk, req.allocation)
    ensures Act(host.git, now, m, req, m.disk.projects[req.allocation]).m == m
  {
    hide Sound, RangeOk, Mark, CommitChanges, PutClone, FillFile, ContentFits, Authorized;
  }

  lemma BlockedPrepares(host: Host, now: Moment, m: Machine, req: PrepareRequest)
    requires Sound(host, m.disk) && Active(m.disk, req.worker) && Blocked(host.git, m.disk, req.allocation)
    ensures SameAt(m.disk, Prepare(host, now, m, req).m.disk, req.allocation)
  {
    hide Sound, Active, BuildClone, Blocked, Prepare;
    BlockedBranch(host, m.disk, req.allocation);
    PrepareShape(host, now, m, req);
    BlockedBuilds(host, now, m, req, m.disk.projects[req.allocation]);
  }

  lemma BlockedBranch(host: Host, d: Disk, a: Id)
    requires Sound(host, d) && Blocked(host.git, d, a)
    ensures a in d.clones && a in d.projects && d.clones[a].branch == d.projects[a].terms.Branch()
  {
    hide RepliesSound, RangeOk, Added;
    assert Grown(host, d.receipts, a, d.projects[a].terms, d.clones[a]);
  }

  lemma BlockedBuilds(host: Host, now: Moment, m: Machine, req: PrepareRequest, project: Project)
    requires req.allocation in m.disk.clones
    requires m.disk.clones[req.allocation].branch == project.terms.Branch()
    ensures BuildClone(host, now, m, req, project).m.disk.clones == m.disk.clones
  {
    hide StoreSeed, CloneReady, TreeFits;
    StoreSeedFrame(now, m, Key(req.worker, req.operation), req.bundle);
  }

  lemma BlockedPerforms(host: Host, now: Moment, m: Machine, req: Change, a: Id)
    requires Sound(host, m.disk) && Blocked(host.git, m.disk, a)
    ensures SameAt(m.disk, Perform(host, now, m, req).m.disk, a)
  {
    hide Create, Disable, Prepare, Revoke, Act, Sound, RangeOk;
    if req.CreateIdentity? {
      CreateFrame(now, m, req);
    } else if req.DisableIdentity? {
      DisableFrame(now, m, req);
    } else if Active(m.disk, req.worker) {
      if req.PrepareClone? {
        PrepareFrame(host, now, m, req);
        if req.allocation == a {
          BlockedPrepares(host, now, m, req);
        }
      } else if req.allocation in m.disk.projects {
        var project := m.disk.projects[req.allocation];
        if req.RevokeAccess? {
          RevokeFrame(m, req, project);
        } else {
          ActFrame(host.git, now, m, req, project);
          if req.allocation == a {
            BlockedActs(host, now, m, req);
          }
        }
      }
    }
  }

  lemma BlockedDelivers(host: Host, d: Disk, x: Delivery, a: Id)
    requires Injective(host) && Sound(host, d) && Blocked(host.git, d, a)
    ensures SameAt(d, Deliver(host, d, x).m.disk, a)
  {
    hide Perform, Sound, Blocked, Admit, RangeOk, SaveReceipt;
    BlockedIsThere(host.git, d, a);
    ReceiptsAside();
    if !x.req.InspectHealth? {
      var m := Admit(host, Machine(d, x.fuel), x.req);
      AdmitKeeps(host, d, x.fuel, x.req, a);
      if m.Done? {
        BlockedPerforms(host, x.now, m.m, x.req, a);
      }
    }
  }

  lemma ReceiptsAside()
    ensures forall m, o, r :: SaveReceipt(m, o, r).m.disk.clones == m.disk.clones
  {
  }

  lemma BlockedIsThere(git: Measures, d: Disk, a: Id)
    requires Blocked(git, d, a)
    ensures a in d.clones
  {
    hide RangeOk;
  }

  lemma AdmitKeeps(host: Host, d: Disk, fuel: nat, req: Change, a: Id)
    requires Sound(host, d) && Blocked(host.git, d, a)
    ensures var e := Admit(host, Machine(d, fuel), req).m.disk;
            Sound(host, e) && Blocked(host.git, e, a) && e.clones == d.clones
  {
    hide Sound, RangeOk;
    if req.operation !in d.receipts {
      ReceiptEffect(host, d, req.operation, Receipt(host.digest(req), None));
    }
  }

  /** Once the range guard refuses its head, nothing changes a branch's commits, index or sources for the rest of the run. */
  lemma {:induction false} BlockedIsFrozen(host: Host, early: seq<Delivery>, late: seq<Delivery>, a: Id)
    requires Injective(host) && Blocked(host.git, Serve(host, BLANK, early), a)
    ensures SameAt(Serve(host, BLANK, early), Serve(host, BLANK, early + late), a)
    ensures Blocked(host.git, Serve(host, BLANK, early + late), a)
    decreases |late|
  {
    hide Deliver, Sound, RangeOk, Serve, Injective;
    if late == [] {
      assert early + late == early;
    } else {
      var shorter, x := late[..|late| - 1], late[|late| - 1];
      assert early + late == early + shorter + [x];
      BlockedIsFrozen(host, early, shorter, a);
      ServeKeepsSound(host, early + shorter);
      BlockedDelivers(host, Serve(host, BLANK, early + shorter), x, a);
      ServeGrows(host, BLANK, early + shorter, x);
      Custody.ServeKeeps(host, early + shorter, [x]);
      hide Custody.IdentitiesKept, Custody.ShutKept;
    }
  }

  // ----- lost responses -----

  /** The commit on the branch that carries the operation's subject was made for this very request. */
  lemma OwnCommit(host: Host, d: Disk, req: CommitRequest, n: nat)
    requires Injective(host) && Sound(host, d) && req.allocation in d.clones
    requires d.clones[req.allocation].imported <= n < |d.clones[req.allocation].dag|
    requires d.clones[req.allocation].dag[n].subject == Subject(req.operation)
    requires req.operation in d.receipts && d.receipts[req.operation].digest == host.digest(req)
    ensures req.allocation in d.projects
    ensures var c, terms := d.clones[req.allocation], d.projects[req.allocation].terms;
            && (req.expected.Some? || terms.Legacy?) && c.dag[n].parents == [ExpectedHead(req, terms)]
            && ExpectedHead(req, terms) < n <= c.head == |c.dag| - 1 && c.branch == terms.Branch()
  {
    var c, terms := d.clones[req.allocation], d.projects[req.allocation].terms;
    assert Grown(host, d.receipts, req.allocation, terms, c);
    hide RepliesSound, ClonesSound, CommitAllowed, Subject;
    assert Added(host, d.receipts, req.allocation, terms, c, n);
    var q :| Origin(host, d.receipts, req.allocation, terms, c.dag[n], q);
    SubjectsDiffer(q.operation, req.operation);
    assert q == req;
    assert c.dag[n].parents[0] == ExpectedHead(req, terms);
  }

  /** What the child does with a commit request whose commit is already on the branch. */
  lemma OwnCommitHead(host: Host, m: Machine, req: CommitRequest, n: nat)
    requires Injective(host) && Sound(host, m.disk) && req.allocation in m.disk.clones
    requires m.disk.clones[req.allocation].imported <= n < |m.disk.clones[req.allocation].dag|
    requires m.disk.clones[req.allocation].dag[n].subject == Subject(req.operation)
    requires req.operation in m.disk.receipts && m.disk.receipts[req.operation].digest == host.digest(req)
    ensures req.allocation in m.disk.projects
    ensures var c, terms := m.disk.clones[req.allocation], m.disk.projects[req.allocation].terms;
            CommitHead(host.git, m, req, terms, c) ==
            if c.head == n && Clean(c) && !Overgrown(host.git, terms, c) then Submit(host.git, m, req, terms, c) else Stopped(m)
  {
    OwnCommit(host, m.disk, req, n);
    var c, terms := m.disk.clones[req.allocation], m.disk.projects[req.allocation].terms;
    assert Grown(host, m.disk.receipts, req.allocation, terms, c);
    hide Sound, Grown, RangeOk, Overgrown, Clean, CommitChanges, Submit, Subject, Recovered;
    TipRange(host, m.disk.receipts, req.allocation, terms, c);
    if n < c.head {
      SubjectsAreUnique(host, m.disk);
    }
    RecoversOwn(c, req, terms, n);
  }

  /** The head is recognised as this operation's own commit if and only if it is. */
  lemma RecoversOwn(c: Clone, req: CommitRequest, terms: Terms, n: nat)
    requires n < |c.dag| && n <= c.head && c.dag[n].subject == Subject(req.operation)
    requires c.dag[n].parents == [ExpectedHead(req, terms)] && ExpectedHead(req, terms) < n
    requires n < c.head ==> c.dag[n].subject != c.dag[c.head].subject
    ensures c.head != ExpectedHead(req, terms) && (Recovered(c, req.operation, ExpectedHead(req, terms)) <==> c.head == n)
  {
    hide Subject;
  }

  /** A retry that finds its commit and its bundle in order. */
  predicate Resumable(host: Host, d: Disk, req: CommitRequest, n: nat)
    requires req.allocation in d.clones && req.allocation in d.projects
  {
    var c, terms, key := d.clones[req.allocation], d.projects[req.allocation].terms, Key(req.worker, req.operation);
    && Active(d, req.worker) && d.projects[req.allocation].worker == req.worker && d.projects[req.allocation].state == Usable
    && c.head == n && Clean(c) && !Overgrown(host.git, terms, c)
    && (key in d.submissions ==> d.submissions[key]) && Recovery.Packs(host.git, terms, c)
  }

  /** The request's commit is on the branch, with no marker and a receipt without a reply. */
  predicate Landed(host: Host, d: Disk, req: Request, n: nat) {
    && req.CommitProject? && req.allocation in d.clones
    && d.clones[req.allocation].imported <= n < |d.clones[req.allocation].dag|
    && d.clones[req.allocation].dag[n].subject == Subject(req.operation)
    && req.operation in d.receipts && d.receipts[req.operation] == Receipt(host.digest(req), None)
    && Key(req.worker, req.operation) !in d.markers
  }

  /** It answers, naming that commit, exactly if it can be resumed; in any case it changes no clone. */
  predicate Recovers(host: Host, d: Disk, r: Run<Reply>, req: Request, n: nat) {
    && req.CommitProject? && req.allocation in d.clones && req.allocation in d.projects
    && (r.Done? <==> Resumable(host, d, req, n)) && (r.Done? ==> r.value == Committed(n)) && r.m.disk.clones == d.clones
  }

  /**
   * A commit landed and its response was lost: no marker, and a receipt without a reply. Whatever
   * ran in between, a retry of the request answers, naming that commit, if and only if the worker
   * and project are still open, no other commit has landed since, no source has changed, what was
   * added fits and is within its bound, and the bundle fits and was not cut short.
   */
  lemma LostResponseRecoversExactly(host: Host, run: seq<Delivery>, x: Delivery, n: nat)
    requires Injective(host) && Landed(host, Serve(host, BLANK, run), x.req, n) && x.fuel >= 5
    ensures Recovers(host, Serve(host, BLANK, run), Deliver(host, Serve(host, BLANK, run), x), x.req, n)
  {
    hide Serve, Sound, Injective, Deliver, Landed, Recovers;
    ServeKeepsSound(host, run);
    LostRetry(host, Serve(host, BLANK, run), x, n);
  }

  lemma LostRetry(host: Host, d: Disk, x: Delivery, n: nat)
    requires Injective(host) && Sound(host, d) && Landed(host, d, x.req, n) && x.fuel >= 5
    ensures Recovers(host, d, Deliver(host, d, x), x.req, n)
  {
    hide Sound, Active, Clean, Act, CommitHead, Submit, Subject, Injective, Overgrown, Recovery.Packs, Create, Disable,
      Prepare, Revoke, SaveReceipt;
    OwnCommit(host, d, x.req, n);
    var m, project := Machine(d, x.fuel), d.projects[x.req.allocation];
    OwnCommitHead(host, m, x.req, n);
    Recovery.ActRuns(host.git, x.now, m, x.req, project);
    SubmitsAnyway(host.git, m, x.req, project.terms, d.clones[x.req.allocation]);
    ReceiptsSaved();
  }

  lemma ReceiptsSaved()
    ensures forall m, o, r :: SaveReceipt(m, o, r).m.disk.clones == m.disk.clones && (m.fuel >= 1 ==> SaveReceipt(m, o, r).Done?)
  {
  }

  /** Submitting changes no clone, and answers if the bundle is in order. */
  lemma SubmitsAnyway(git: Measures, m: Machine, req: CommitRequest, terms: Terms, c: Clone)
    requires m.fuel >= 5
    ensures var r, key := Submit(git, m, req, terms, c), Key(req.worker, req.operation);
            && (r.Done? <==> (key in m.disk.submissions ==> m.disk.submissions[key]) && Recovery.Packs(git, terms, c))
            && (r.Done? ==> r.value == Committed(c.head) && r.m.fuel >= 1) && r.m.disk.clones == m.disk.clones
  {
  }
}
