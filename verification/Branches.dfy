/** What holds of every project branch after any run of requests, crashes and retries. */
module Branches {
  import opened Checks
  import opened Paths
  import opened GitRange
  import opened ProvisionerModel
  import opened Receipts
  import opened Commits

  lemma DeliverKeepsSound(host: Host, d: Disk, x: Delivery)
    requires Sound(host, d) && Injective(host)
    ensures Sound(host, Deliver(host, d, x).m.disk)
  {
    hide Perform, Sound, ReplyOk;
    if !x.req.InspectHealth? {
      var m, o, hash := Machine(d, x.fuel), x.req.operation, host.digest(x.req);
      var a := Admit(host, m, x.req);
      if o !in d.receipts {
        ReceiptEffect(host, d, o, Receipt(hash, None));
      }
      if a.Done? && a.value.None? {
        PerformKeepsSound(host, x.now, a.m, x.req);
        PerformKeepsReceipts(host, x.now, a.m, x.req);
        var p := Perform(host, x.now, a.m, x.req);
        if p.Done? {
          ReceiptEffect(host, p.m.disk, o, Receipt(hash, Some(p.value)));
        }
      }
    }
  }

  lemma BlankIsSound(host: Host)
    ensures Sound(host, BLANK)
  {
    hide ReplyOk, Grown, Tidy;
  }

  lemma {:induction false} ServeKeepsSound(host: Host, run: seq<Delivery>)
    requires Injective(host)
    ensures Sound(host, Serve(host, BLANK, run))
    decreases |run|
  {
    hide Sound, Deliver;
    if run == [] {
      BlankIsSound(host);
    } else {
      ServeKeepsSound(host, run[..|run| - 1]);
      DeliverKeepsSound(host, Serve(host, BLANK, run[..|run| - 1]), run[|run| - 1]);
    }
  }

  lemma SubjectsDiffer(a: Id, b: Id)
    requires Subject(a) == Subject(b)
    ensures a == b
  {
    assert Subject(a)[|"BotSquad operation "|..] == a;
    assert Subject(b)[|"BotSquad operation "|..] == b;
  }

  /** No two added commits of any branch are for the same operation. */
  ghost predicate OwnSubjects(d: Disk) {
    forall a, i, j | a in d.clones && d.clones[a].imported <= i < j < |d.clones[a].dag| ::
      d.clones[a].dag[i].subject != d.clones[a].dag[j].subject
  }

  lemma SubjectsAreUnique(host: Host, d: Disk)
    requires Injective(host) && Sound(host, d)
    ensures OwnSubjects(d)
  {
    hide RepliesSound, CommitAllowed, Subject, Tidy;
    forall a, i, j | a in d.clones && d.clones[a].imported <= i < j < |d.clones[a].dag|
      ensures d.clones[a].dag[i].subject != d.clones[a].dag[j].subject
    {
      var c, terms := d.clones[a], d.projects[a].terms;
      assert Grown(host, d.receipts, a, terms, c);
      assert Added(host, d.receipts, a, terms, c, i) && Added(host, d.receipts, a, terms, c, j);
      if c.dag[i].subject == c.dag[j].subject {
        var q :| Origin(host, d.receipts, a, terms, c.dag[i], q);
        var r :| Origin(host, d.receipts, a, terms, c.dag[j], r);
        SubjectsDiffer(q.operation, r.operation);
        assert false;
      }
    }
  }

  /** One operation adds at most one commit: no two added commits are for the same request. */
  lemma OneCommitPerOperation(host: Host, run: seq<Delivery>)
    requires Injective(host)
    ensures OwnSubjects(Serve(host, BLANK, run))
  {
    hide Sound, Serve, OwnSubjects;
    ServeKeepsSound(host, run);
    SubjectsAreUnique(host, Serve(host, BLANK, run));
  }

  /** The added commit sits on the head its request expected, up from the persisted base. */
  ghost predicate StacksAt(host: Host, receipts: ReceiptMap, a: Id, terms: Terms, c: Clone, i: nat) {
    && terms.base < c.imported <= i < |c.dag| && c.head == |c.dag| - 1 && c.branch == terms.Branch()
    && c.dag[i].parents == [if i == c.imported then terms.base else i - 1]
    && exists req: Request :: Origin(host, receipts, a, terms, c.dag[i], req)
  }

  ghost predicate StacksUp(host: Host, d: Disk) {
    forall a, i | a in d.clones && d.clones[a].imported <= i < |d.clones[a].dag| ::
      a in d.projects && StacksAt(host, d.receipts, a, d.projects[a].terms, d.clones[a], i)
  }

  /**
   * Every added commit, accepted or not, was made for a request the server received, on exactly
   * the head that request expected; together they stack up from the persisted base.
   */
  lemma BranchIsStacked(host: Host, run: seq<Delivery>)
    requires Injective(host)
    ensures StacksUp(host, Serve(host, BLANK, run))
  {
    hide Sound, Serve, StacksUp;
    ServeKeepsSound(host, run);
    SoundStacksUp(host, Serve(host, BLANK, run));
  }

  lemma SoundStacksUp(host: Host, d: Disk)
    requires Sound(host, d)
    ensures StacksUp(host, d)
  {
    hide RepliesSound, Grown, StacksAt, Tidy;
    forall a, i | a in d.clones && d.clones[a].imported <= i < |d.clones[a].dag|
      ensures a in d.projects && StacksAt(host, d.receipts, a, d.projects[a].terms, d.clones[a], i)
    {
      GrownStacks(host, d.receipts, a, d.projects[a].terms, d.clones[a], i);
    }
  }

  lemma GrownStacks(host: Host, receipts: ReceiptMap, a: Id, terms: Terms, c: Clone, i: nat)
    requires Grown(host, receipts, a, terms, c) && c.imported <= i < |c.dag|
    ensures StacksAt(host, receipts, a, terms, c, i)
  {
    hide CommitAllowed, Origin;
    assert Added(host, receipts, a, terms, c, i);
  }

  lemma {:induction false} StackInScope(dag: Graph, g: Grants, imported: nat, base: nat, end: nat)
    requires Stacked(dag, imported, base, end) && forall i | imported <= i < end :: CommitAllowed(dag, g, i)
    ensures forall p | p in Changed(dag[base].tree, dag[Tip(imported, base, end)].tree) :: Authorized(g, p)
    decreases end
  {
    hide Authorized;
    if end > imported {
      StackInScope(dag, g, imported, base, end - 1);
      var last, parent := end - 1, Tip(imported, base, end - 1);
      assert CommitAllowed(dag, g, last);
      assert dag[last].parents[0] == parent;
      ChangesCompose(dag[base].tree, dag[parent].tree, dag[last].tree, g);
      hide Changed, Stacked;
    }
  }

  lemma GrownIsStacked(host: Host, receipts: ReceiptMap, a: Id, terms: Terms, c: Clone)
    requires Grown(host, receipts, a, terms, c) && c.imported < |c.dag|
    ensures Stacked(c.dag, c.imported, terms.base, |c.dag|)
    ensures forall i | c.imported <= i < |c.dag| :: CommitAllowed(c.dag, terms.Scope(), i)
  {
    hide CommitAllowed, Origin;
    forall i | c.imported <= i < |c.dag|
      ensures c.dag[i].parents == [Tip(c.imported, terms.base, i)] && CommitAllowed(c.dag, terms.Scope(), i)
    {
      assert Added(host, receipts, a, terms, c, i);
    }
  }

  /** The head differs from the base on granted paths only, and is at most one commit past the bound. */
  ghost predicate InScope(d: Disk) {
    forall a | a in d.clones && d.clones[a].imported < |d.clones[a].dag| ::
      && a in d.projects && HeadInScope(d.clones[a], d.projects[a].terms)
  }

  ghost predicate HeadInScope(c: Clone, terms: Terms) {
    && terms.base < |c.dag| && |Range(c.dag, terms.base, c.head)| == |c.dag| - c.imported <= terms.CommitBound() + 1
    && forall p | p in Changed(c.dag[terms.base].tree, c.dag[c.head].tree) :: Authorized(terms.Scope(), p)
  }

  /**
   * Whatever was accepted, refused or cut short, the head of a project branch differs from the
   * base on granted paths only, and lies at most one commit past the manifest's bound.
   */
  lemma BranchStaysInScope(host: Host, run: seq<Delivery>)
    requires Injective(host)
    ensures InScope(Serve(host, BLANK, run))
  {
    hide Serve, RepliesSound, Grown, HeadInScope, Tidy;
    var d := Serve(host, BLANK, run);
    ServeKeepsSound(host, run);
    forall a | a in d.clones && d.clones[a].imported < |d.clones[a].dag|
      ensures a in d.projects && HeadInScope(d.clones[a], d.projects[a].terms)
    {
      GrownInScope(host, d.receipts, a, d.projects[a].terms, d.clones[a]);
    }
  }

  lemma GrownInScope(host: Host, receipts: ReceiptMap, a: Id, terms: Terms, c: Clone)
    requires Grown(host, receipts, a, terms, c) && c.imported < |c.dag|
    ensures HeadInScope(c, terms)
  {
    hide Authorized, Added, CommitAllowed, Changed, Stacked, Ancestors, Range, Origin;
    GrownIsStacked(host, receipts, a, terms, c);
    StackRange(c.dag, c.imported, terms.base, |c.dag|);
    StackInScope(c.dag, terms.Scope(), c.imported, terms.base, |c.dag|);
  }

  /** The reply names the operation's own commit on the head it expected, at the end of an authorized chain from the base. */
  ghost predicate Accepts(git: Measures, d: Disk, req: Request, reply: Reply, chain: seq<nat>) {
    && req.CommitProject? && reply.Committed? && req.allocation in d.projects && req.allocation in d.clones
    && var terms, c, commit := d.projects[req.allocation].terms, d.clones[req.allocation], reply.commit;
       && terms.base < |c.dag| && commit < |c.dag|
       && Chain(c.dag, terms.base, commit, chain) && |chain| - 1 <= terms.CommitBound()
       && (forall p | p in Changed(c.dag[terms.base].tree, c.dag[commit].tree) :: Authorized(terms.Scope(), p))
       && (forall k | 0 < k < |chain| :: TreeFits(git, terms.Bounds(), c.dag[chain[k]].tree))
       && c.dag[commit].subject == Subject(req.operation)
       && c.dag[commit].parents != [] && c.dag[commit].parents[0] == ExpectedHead(req, terms)
  }

  /**
   * A commit operation that answers names its own commit on the head it expected. From then on,
   * base to commit is a single-parent chain within the bound, every tree in it fits, and the
   * commit's tree differs from the base's on granted paths only.
   */
  lemma CommitAnswerIsAccepted(host: Host, run: seq<Delivery>, x: Delivery, reply: Reply) returns (chain: seq<nat>)
    requires Injective(host) && x.req.CommitProject? && Answered(host, run, x, reply)
    ensures Accepts(host.git, Serve(host, BLANK, run), x.req, reply, chain)
  {
    hide Serve, Deliver, Answers, Sound, Accepts, Injective;
    var early, late :| run == early + [x] + late && Answers(Deliver(host, Serve(host, BLANK, early), x), reply);
    AnswerIsFiled(host, Serve(host, BLANK, early), x, reply);
    ServeGrows(host, BLANK, early, x);
    ServeKeepsReceipts(host, BLANK, early + [x], late);
    ServeKeepsSound(host, run);
    chain := FiledIsAccepted(host, Serve(host, BLANK, run), x.req, reply);
  }

  lemma FiledIsAccepted(host: Host, d: Disk, req: Request, reply: Reply) returns (chain: seq<nat>)
    requires Sound(host, d) && req.CommitProject? && Files(d, req, Receipt(host.digest(req), Some(reply)))
    ensures Accepts(host.git, d, req, reply, chain)
  {
    hide ClonesSound, Authorized, Changed, Chain, Subject, TreeFits;
    assert ReplyOk(host, d.projects, d.clones, host.digest(req), reply);
    assert CommitReply(host.git, d.projects, d.clones, req, reply);
    var terms, c := d.projects[req.allocation].terms, d.clones[req.allocation];
    chain := RangeIsAuthorizedChain(c.dag, host.git, terms.Bounds(), terms.Scope(), terms.CommitBound(), terms.base, reply.commit);
  }
}
