/** The provisioner as an object that changes its durable state in place, one effect at a time. */
module Provisioner {
  import opened Checks
  import opened Paths
  import opened GitRange
  import opened ProvisionerModel

  /** A value, or a refusal or crash. */
  datatype Attempt<+T> = Success(value: T) | Failed {
    predicate IsFailure() {
      Failed?
    }

    function PropagateFailure<U>(): Attempt<U>
      requires Failed?
    {
      Failed
    }

    function Extract(): T
      requires Success?
    {
      value
    }
  }

  function Confirm(holds: bool): (r: Attempt<()>)
    ensures r.Success? <==> holds
  {
    if holds then Success(()) else Failed
  }

  /** The members of a set below a bound, in ascending order. */
  function Ascending(s: set<nat>, below: nat): seq<nat> {
    if below == 0 then []
    else Ascending(s, below - 1) + (if below - 1 in s then [below - 1] else [])
  }

  /** The commits of a range, parents before children. */
  function RevList(dag: Graph, base: nat, head: nat): seq<nat>
    requires base < |dag| && head < |dag|
  {
    Ascending(Range(dag, base, head), |dag|)
  }

  lemma {:induction false} AscendingListsAll(s: set<nat>, below: nat)
    requires forall c | c in s :: c < below
    ensures |Ascending(s, below)| == |s|
    ensures forall c :: c in Ascending(s, below) <==> c in s
  {
    if below == 0 {
      assert s == {};
    } else {
      var last := below - 1;
      var rest := s - {last};
      AscendingListsAll(rest, last);
      SameBelow(s, rest, last);
    }
  }

  lemma {:induction false} SameBelow(s: set<nat>, t: set<nat>, below: nat)
    requires forall c | c < below :: c in s <==> c in t
    ensures Ascending(s, below) == Ascending(t, below)
  {
    if below > 0 {
      SameBelow(s, t, below - 1);
    }
  }

  lemma RangeIsBounded(dag: Graph, base: nat, head: nat)
    requires base < |dag| && head < |dag|
    ensures forall c | c in Range(dag, base, head) :: c < |dag|
  {
    assert forall c | c in Range(dag, base, head) :: c in Ancestors(dag, head);
  }

  /** The listed commits are those of the range. */
  lemma RevListsRange(dag: Graph, base: nat, head: nat)
    requires base < |dag| && head < |dag|
    ensures var commits := RevList(dag, base, head);
            && |commits| == |Range(dag, base, head)| && (forall c :: c in commits <==> c in Range(dag, base, head))
            && forall j | 0 <= j < |commits| :: commits[j] in Range(dag, base, head) && commits[j] < |dag|
  {
    hide Range, Ascending;
    RangeIsBounded(dag, base, head);
    AscendingListsAll(Range(dag, base, head), |dag|);
  }

  /** Look at the files one by one, and at how many and how large they are. */
  method CheckContent(git: Measures, l: Limits, tree: Tree) returns (ok: bool)
    ensures ok <==> ContentFits(git, l, tree)
  {
    hide RelativePath;
    if |tree| > l.files || git.weigh(tree) > l.repositoryBytes {
      return false;
    }
    var rest := tree.Keys;
    while rest != {}
      invariant rest <= tree.Keys
      invariant forall p | p in tree.Keys - rest :: RelativePath(p) && |tree[p]| <= l.fileBytes
    {
      var p :| p in rest;
      if !RelativePath(p) || |tree[p]| > l.fileBytes {
        return false;
      }
      rest := rest - {p};
    }
    return true;
  }

  /** Look at a tree's rows one by one, keeping the lower-case names seen so far. */
  method CheckTree(git: Measures, l: Limits, tree: Tree) returns (ok: bool)
    ensures ok <==> TreeFits(git, l, tree)
  {
    hide RelativePath, GitFile, Lower, ContentFits;
    ok := CheckContent(git, l, tree);
    if !ok {
      return false;
    }
    var rest, seen := tree.Keys, {};
    while rest != {}
      invariant rest <= tree.Keys && seen == set p | p in tree.Keys - rest :: Lower(p)
      invariant forall p | p in tree.Keys - rest :: !GitFile(p)
      invariant forall p, q | p in tree.Keys - rest && q in tree.Keys - rest :: SameName(p, q) ==> p == q
    {
      var p :| p in rest;
      if GitFile(p) {
        return false;
      }
      if Lower(p) in seen {
        ghost var q :| q in tree.Keys - rest && Lower(q) == Lower(p);
        assert SameName(p, q);
        return false;
      }
      assert forall q | q in tree.Keys - rest :: !SameName(p, q) && !SameName(q, p);
      rest, seen := rest - {p}, seen + {Lower(p)};
    }
    return true;
  }

  /** Walk the range commit by commit, refusing merges, trees that do not fit and paths outside the grants. */
  method CheckRange(git: Measures, c: Clone, terms: Terms, head: nat) returns (ok: bool)
    ensures ok <==> RangeOk(git, c, terms, head)
  {
    hide Ancestors, AncestorsOf, Range, RevList, CommitAllowed, TreeFits;
    var dag: Graph, base := c.dag, terms.base;
    if base >= |dag| || head >= |dag| || base !in Ancestors(dag, head) {
      return false;
    }
    var commits := RevList(dag, base, head);
    RevListsRange(dag, base, head);
    if |commits| > terms.CommitBound() {
      return false;
    }
    var i := 0;
    while i < |commits|
      invariant 0 <= i <= |commits|
      invariant forall j | 0 <= j < i ::
                  CommitAllowed(dag, terms.Scope(), commits[j]) && TreeFits(git, terms.Bounds(), dag[commits[j]].tree)
    {
      var fits := CheckTree(git, terms.Bounds(), dag[commits[i]].tree);
      if !fits || !CommitAllowed(dag, terms.Scope(), commits[i]) {
        return false;
      }
      i := i + 1;
    }
    return git.diff(dag[base].tree, dag[head].tree) <= terms.Bounds().diffBytes;
  }

  /** The first managed number that nothing holds. */
  method NextFree(taken: set<nat>) returns (uid: Option<nat>)
    ensures uid == FirstFree(taken, FIRST_UID)
    ensures uid.Some? ==> FIRST_UID <= uid.value < UID_END && uid.value !in taken
    ensures uid == None ==> forall u | FIRST_UID <= u < UID_END :: u in taken
  {
    var u := FIRST_UID;
    while u < UID_END
      invariant FIRST_UID <= u <= UID_END
      invariant FirstFree(taken, FIRST_UID) == FirstFree(taken, u)
      invariant forall v | FIRST_UID <= v < u :: v in taken
    {
      if u !in taken {
        return Some(u);
      }
      u := u + 1;
    }
    return None;
  }

  lemma ServeNothing(host: Host, d: Disk, run: seq<Delivery>)
    ensures Serve(host, d, run[..0]) == d
  {
    hide Deliver;
  }

  lemma ServeStep(host: Host, d: Disk, run: seq<Delivery>, i: nat)
    requires i < |run|
    ensures Serve(host, d, run[..i + 1]) == Deliver(host, Serve(host, d, run[..i]), run[i]).m.disk
  {
    hide Deliver;
    assert run[..i + 1][..i] == run[..i];
  }

  class Server {
    const host: Host
    var receipts: map<Id, Receipt>
    var identities: map<Id, Identity>
    var groups: map<Id, nat>
    var accounts: map<Id, nat>
    var homes: map<Id, nat>
    var projects: map<Id, Project>
    var seeds: map<Key, string>
    var clones: map<Id, Clone>
    var partial: set<Id>
    var sealed: set<Id>
    var submissions: map<Key, bool>
    var markers: map<Key, Option<Reply>>
    /** Durable effects left before the crash. */
    var fuel: nat

    /** The durable state as one value. */
    function State(): Machine
      reads this
    {
      Machine(Disk(receipts, identities, groups, accounts, homes, projects, seeds, clones, partial, sealed, submissions, markers), fuel)
    }

    function Ended<T>(r: Attempt<T>): Run<T>
      reads this
    {
      if r.Success? then Done(State(), r.value) else Stopped(State())
    }

    /** An empty state directory. */
    constructor (host: Host)
      ensures this.host == host && State() == Machine(BLANK, 0)
    {
      this.host := host;
      receipts, identities, projects := map[], map[], map[];
      groups, accounts, homes := map[], map[], map[];
      seeds, clones, partial, sealed := map[], map[], {}, {};
      submissions, markers, fuel := map[], map[], 0;
    }

    method SaveIdentity(worker: Id, record: Identity) returns (r: Attempt<()>)
      modifies this
      ensures Ended(r) == ProvisionerModel.SaveIdentity(old(State()), worker, record)
    {
      var _ :- Confirm(fuel > 0);
      identities, fuel := identities[worker := record], fuel - 1;
      return Success(());
    }

    method SaveProject(allocation: Id, project: Project) returns (r: Attempt<()>)
      modifies this
      ensures Ended(r) == ProvisionerModel.SaveProject(old(State()), allocation, project)
    {
      var _ :- Confirm(fuel > 0);
      projects, fuel := projects[allocation := project], fuel - 1;
      return Success(());
    }

    method SaveReceipt(operation: Id, receipt: Receipt) returns (r: Attempt<()>)
      modifies this
      ensures Ended(r) == ProvisionerModel.SaveReceipt(old(State()), operation, receipt)
    {
      var _ :- Confirm(fuel > 0);
      receipts, fuel := receipts[operation := receipt], fuel - 1;
      return Success(());
    }

    method PutHome(worker: Id, owner: nat) returns (r: Attempt<()>)
      modifies this
      ensures Ended(r) == ProvisionerModel.PutHome(old(State()), worker, owner)
    {
      var _ :- Confirm(fuel > 0);
      homes, fuel := homes[worker := owner], fuel - 1;
      return Success(());
    }

    method PutClone(allocation: Id, c: Clone) returns (r: Attempt<()>)
      modifies this
      ensures Ended(r) == ProvisionerModel.PutClone(old(State()), allocation, c)
    {
      var _ :- Confirm(fuel > 0);
      clones, fuel := clones[allocation := c], fuel - 1;
      return Success(());
    }

    method PutSeed(key: Key, data: string) returns (r: Attempt<()>)
      modifies this
      ensures Ended(r) == ProvisionerModel.PutSeed(old(State()), key, data)
    {
      var _ :- Confirm(fuel > 0);
      seeds, fuel := seeds[key := data], fuel - 1;
      return Success(());
    }

    method Reserve(now: Moment, req: CreateRequest) returns (r: Attempt<Identity>)
      modifies this
      ensures Ended(r) == ProvisionerModel.Reserve(now, old(State()), req)
    {
      if req.worker in identities {
        return Success(identities[req.worker]);
      }
      var _ :- Confirm(req.worker !in accounts && req.worker !in groups && req.worker !in homes);
      var reserved := set w | w in identities :: identities[w].uid;
      assert reserved == Reserved(State().disk);
      var uid := NextFree(now.uids + now.gids + reserved);
      var _ :- Confirm(uid.Some?);
      var record := Identity(uid.value, Creating, req.operation);
      var _ :- SaveIdentity(req.worker, record);
      return Success(record);
    }

    method AddGroup(now: Moment, worker: Id, gid: nat) returns (r: Attempt<()>)
      modifies this
      ensures Ended(r) == ProvisionerModel.AddGroup(now, old(State()), worker, gid)
    {
      if worker in groups {
        return Confirm(groups[worker] == gid);
      }
      var _ :- Confirm(gid !in now.gids);
      var _ :- Confirm(fuel > 0);
      groups, fuel := groups[worker := gid], fuel - 1;
      return Success(());
    }

    method AddAccount(now: Moment, worker: Id, uid: nat) returns (r: Attempt<()>)
      modifies this
      ensures Ended(r) == ProvisionerModel.AddAccount(now, old(State()), worker, uid)
    {
      if worker in accounts {
        return Confirm(accounts[worker] == uid);
      }
      var _ :- Confirm(uid !in now.uids);
      var _ :- Confirm(fuel > 0);
      accounts, fuel := accounts[worker := uid], fuel - 1;
      return Success(());
    }

    method MakeHome(worker: Id, uid: nat) returns (r: Attempt<()>)
      modifies this
      ensures Ended(r) == ProvisionerModel.MakeHome(old(State()), worker, uid)
    {
      if worker !in homes {
        var _ :- PutHome(worker, 0);
      }
      var _ :- Confirm(worker in homes && homes[worker] in {0, uid});
      r := PutHome(worker, uid);
    }

    method Equip(now: Moment, worker: Id, uid: nat) returns (r: Attempt<()>)
      modifies this
      ensures Ended(r) == ProvisionerModel.Equip(now, old(State()), worker, uid)
    {
      var _ :- AddGroup(now, worker, uid);
      var _ :- AddAccount(now, worker, uid);
      r := MakeHome(worker, uid);
    }

    method Create(now: Moment, req: CreateRequest) returns (r: Attempt<Reply>)
      modifies this
      ensures Ended(r) == ProvisionerModel.Create(now, old(State()), req)
    {
      var record :- Reserve(now, req);
      var _ :- Confirm(record.operation == req.operation && record.state != Disabled);
      var _ :- Equip(now, req.worker, record.uid);
      record := record.(state := Ready);
      var _ :- SaveIdentity(req.worker, record);
      var _ :- Confirm(Active(State().disk, req.worker));
      return Success(Identified(record));
    }

    method RevokeListed(worker: Id, listing: seq<Id>) returns (r: Attempt<()>)
      modifies this
      ensures Ended(r) == ProvisionerModel.RevokeListed(old(State()), worker, listing)
    {
      var i := 0;
      while i < |listing|
        invariant 0 <= i <= |listing|
        invariant ProvisionerModel.RevokeListed(old(State()), worker, listing)
               == ProvisionerModel.RevokeListed(State(), worker, listing[i..])
      {
        var allocation := listing[i];
        assert listing[i..][1..] == listing[i + 1..];
        if allocation in projects && projects[allocation].worker == worker {
          var _ :- SaveProject(allocation, projects[allocation].(state := Revoked));
        }
        i := i + 1;
      }
      return Success(());
    }

    method Disable(now: Moment, req: DisableRequest) returns (r: Attempt<Reply>)
      modifies this
      ensures Ended(r) == ProvisionerModel.Disable(now, old(State()), req)
    {
      var _ :- Confirm(Known(State().disk, req.worker));
      var record := identities[req.worker].(state := Disabled);
      var _ :- SaveIdentity(req.worker, record);
      var _ :- Confirm(req.worker in homes);
      var _ :- PutHome(req.worker, 0);
      var _ :- RevokeListed(req.worker, now.listing);
      return Success(Retired(record, now.signalled));
    }

    method FillSeed(now: Moment, key: Key, data: string) returns (r: Attempt<()>)
      modifies this
      ensures Ended(r) == ProvisionerModel.FillSeed(now, old(State()), key, data)
    {
      if fuel == 0 {
        seeds := seeds[key := Prefix(data, now.torn)];
        return Failed;
      }
      r := PutSeed(key, data);
    }

    method StoreSeed(now: Moment, key: Key, data: string) returns (r: Attempt<()>)
      modifies this
      ensures Ended(r) == ProvisionerModel.StoreSeed(now, old(State()), key, data)
    {
      if key !in seeds {
        var _ :- PutSeed(key, "");
        var _ :- FillSeed(now, key, data);
      }
      return Confirm(key in seeds && seeds[key] == data);
    }

    method CloneSeed(req: PrepareRequest) returns (r: Attempt<()>)
      modifies this
      ensures Ended(r) == ProvisionerModel.CloneSeed(host, old(State()), req)
    {
      if req.allocation !in clones {
        var _ :- Confirm(req.allocation !in partial);
        var seed := host.unpack(req.bundle);
        var _ :- Confirm(seed.Some? && fuel > 0);
        partial, fuel := partial + {req.allocation}, fuel - 1;
        var _ :- FinishClone(req.allocation, FreshClone(seed.value, req.terms.DefaultBranch()));
      }
      return Success(());
    }

    method FinishClone(allocation: Id, c: Clone) returns (r: Attempt<()>)
      modifies this
      ensures Ended(r) == ProvisionerModel.FinishClone(old(State()), allocation, c)
    {
      var _ :- Confirm(fuel > 0);
      clones, partial, fuel := clones[allocation := c], partial - {allocation}, fuel - 1;
      return Success(());
    }

    method CheckOut(allocation: Id, terms: Terms) returns (r: Attempt<()>)
      modifies this
      ensures Ended(r) == ProvisionerModel.CheckOut(host.git, old(State()), allocation, terms)
    {
      var _ :- Confirm(allocation in clones && terms.base < |clones[allocation].dag|);
      var c := clones[allocation];
      var fits := CheckTree(host.git, terms.Bounds(), c.dag[terms.base].tree);
      var _ :- Confirm(fits);
      if c.branch != terms.Branch() {
        var _ :- Confirm(c.head == terms.base);
        var tree := c.dag[c.head].tree;
        var _ :- PutClone(allocation, c.(branch := terms.Branch(), index := tree, worktree := tree));
      }
      return Success(());
    }

    method BuildClone(now: Moment, req: PrepareRequest, project: Project) returns (r: Attempt<()>)
      modifies this
      ensures Ended(r) == ProvisionerModel.BuildClone(host, now, old(State()), req, project)
    {
      var _ :- Confirm(project.worker == req.worker);
      var _ :- StoreSeed(now, Key(req.worker, req.operation), req.bundle);
      var _ :- CloneSeed(req);
      var _ :- CheckOut(req.allocation, project.terms);
      var _ :- Confirm(req.allocation in clones);
      var c := clones[req.allocation];
      var fits := CheckContent(host.git, project.terms.Bounds(), c.worktree);
      return Confirm(c.head == project.terms.base && Clean(c) && fits);
    }

    method Allocate(req: PrepareRequest) returns (r: Attempt<Project>)
      modifies this
      ensures Ended(r) == ProvisionerModel.Allocate(old(State()), req)
    {
      if req.allocation in projects {
        return Success(projects[req.allocation]);
      }
      var project := Project(req.worker, req.terms, Preparing, req.operation, None);
      var _ :- SaveProject(req.allocation, project);
      return Success(project);
    }

    method Prepare(now: Moment, req: PrepareRequest) returns (r: Attempt<Reply>)
      requires Active(State().disk, req.worker)
      modifies this
      ensures Ended(r) == ProvisionerModel.Prepare(host, now, old(State()), req)
    {
      var uid := identities[req.worker].uid;
      var project :- Allocate(req);
      var _ :- Confirm(project.operation == req.operation && project.state in {Preparing, Usable});
      var _ :- Confirm(req.terms.Manifest? ==> project.terms == req.terms.(defaultBranch := project.terms.DefaultBranch()));
      var _ :- BuildClone(now, req, project);
      project := project.(state := Usable);
      var _ :- SaveProject(req.allocation, project);
      return Success(Prepared(project, uid));
    }

    method Revoke(req: RevokeRequest) returns (r: Attempt<Reply>)
      requires req.allocation in projects
      modifies this
      ensures Ended(r) == ProvisionerModel.Revoke(old(State()), req, old(projects)[req.allocation])
    {
      hide RangeOk, Authorized;
      var project := projects[req.allocation];
      var _ :- Confirm(project.state == Usable || project.revocation == Some(req.operation));
      project := project.(state := Revoking, revocation := Some(req.operation));
      var _ :- SaveProject(req.allocation, project);
      var _ :- Confirm(req.allocation in clones && fuel > 0);
      sealed, fuel := sealed + {req.allocation}, fuel - 1;
      project := project.(state := Revoked);
      var _ :- SaveProject(req.allocation, project);
      return Success(Withdrawn(project));
    }

    method Mark(key: Key, reply: Reply) returns (r: Attempt<Reply>)
      modifies this
      ensures Ended(r) == ProvisionerModel.Mark(old(State()), key, reply)
    {
      var _ :- Confirm(fuel > 0);
      markers, fuel := markers[key := None], fuel - 1;
      var _ :- Confirm(fuel > 0);
      markers, fuel := markers[key := Some(reply)], fuel - 1;
      return Success(reply);
    }

    method FillFile(now: Moment, allocation: Id, c: Clone, path: Path, content: string) returns (r: Attempt<()>)
      modifies this
      ensures Ended(r) == ProvisionerModel.FillFile(now, old(State()), allocation, c, path, content)
    {
      hide WithFile;
      if fuel == 0 {
        clones := clones[allocation := WithFile(c, path, Prefix(content, now.torn))];
        return Failed;
      }
      r := PutClone(allocation, WithFile(c, path, content));
    }

    method Write(now: Moment, req: WriteRequest, terms: Terms) returns (r: Attempt<Reply>)
      requires req.allocation in clones
      modifies this
      ensures Ended(r) == ProvisionerModel.Write(host.git, now, old(State()), req, terms, old(clones)[req.allocation])
    {
      hide RangeOk, Authorized, Changed, Staged, Pending, ContentFits;
      var c := clones[req.allocation];
      var ok := CheckRange(host.git, c, terms, c.head);
      var fits := CheckContent(host.git, terms.Bounds(), c.worktree[req.path := req.content]);
      var _ :- Confirm(ok && Authorized(terms.Scope(), req.path) && (terms.Legacy? ==> c.head == terms.base) && fits);
      var _ :- PutClone(req.allocation, WithFile(c, req.path, ""));
      var _ :- FillFile(now, req.allocation, c, req.path, req.content);
      r := Mark(Key(req.worker, req.operation), Written(req.path));
    }

    method Delete(req: DeleteRequest, terms: Terms) returns (r: Attempt<Reply>)
      requires req.allocation in clones
      modifies this
      ensures Ended(r) == ProvisionerModel.Delete(host.git, old(State()), req, terms, old(clones)[req.allocation])
    {
      hide RangeOk, Authorized, Changed, Staged, Pending, ContentFits;
      var c := clones[req.allocation];
      var ok := CheckRange(host.git, c, terms, c.head);
      var _ :- Confirm(ok && Authorized(terms.Scope(), req.path) && (terms.Legacy? ==> c.head == terms.base)
               && req.path in c.worktree);
      var _ :- PutClone(req.allocation, c.(worktree := c.worktree - {req.path}));
      r := Mark(Key(req.worker, req.operation), Deleted(req.path));
    }

    method CommitChanges(req: CommitRequest, terms: Terms) returns (r: Attempt<Clone>)
      requires req.allocation in clones
      modifies this
      ensures Ended(r) == ProvisionerModel.CommitChanges(host.git, old(State()), req, terms, old(clones)[req.allocation])
    {
      hide RangeOk, Authorized, Changed, Staged, Pending, ContentFits;
      var c := clones[req.allocation];
      var fits := CheckContent(host.git, terms.Bounds(), c.worktree);
      var _ :- Confirm(fits && Stageable(host.git, c, terms) && !c.locked);
      var staged := WithStaged(c);
      var _ :- PutLocked(req.allocation, c, staged);
      var _ :- Confirm(staged.index != c.dag[c.head].tree);
      var committed := WithCommit(staged, req.operation);
      var _ :- PutLocked(req.allocation, staged, committed);
      return Success(committed);
    }

    method PutLocked(allocation: Id, before: Clone, after: Clone) returns (r: Attempt<()>)
      modifies this
      ensures Ended(r) == ProvisionerModel.PutLocked(old(State()), allocation, before, after)
    {
      var _ :- PutClone(allocation, Locked(before));
      r := PutClone(allocation, after);
    }

    method CommitHead(req: CommitRequest, terms: Terms) returns (r: Attempt<Reply>)
      requires req.allocation in clones
      modifies this
      ensures Ended(r) == ProvisionerModel.CommitHead(host.git, old(State()), req, terms, old(clones)[req.allocation])
    {
      hide RangeOk, Authorized, Changed, Staged, Pending, ContentFits;
      var c := clones[req.allocation];
      var _ :- Confirm(req.expected.Some? || terms.Legacy?);
      var ok := CheckRange(host.git, c, terms, c.head);
      var _ :- Confirm(ok);
      var expected := ExpectedHead(req, terms);
      if c.head == expected {
        c :- CommitChanges(req, terms);
      } else {
        var _ :- Confirm(Recovered(c, req.operation, expected));
      }
      ok := CheckRange(host.git, c, terms, c.head);
      var _ :- Confirm(ok && Clean(c));
      r := Submit(req, terms, c);
    }

    method Bundle(key: Key) returns (r: Attempt<()>)
      modifies this
      ensures Ended(r) == ProvisionerModel.Bundle(old(State()), key)
    {
      if key !in submissions {
        var _ :- Confirm(fuel > 0);
        submissions, fuel := submissions[key := false], fuel - 1;
        var _ :- Confirm(fuel > 0);
        submissions, fuel := submissions[key := true], fuel - 1;
      }
      return Confirm(submissions[key]);
    }

    method Submit(req: CommitRequest, terms: Terms, c: Clone) returns (r: Attempt<Reply>)
      modifies this
      ensures Ended(r) == ProvisionerModel.Submit(host.git, old(State()), req, terms, c)
    {
      var _ :- Bundle(Key(req.worker, req.operation));
      var _ :- Confirm(host.git.pack(c.dag, c.head) <= terms.Bounds().bundleBytes);
      r := Mark(Key(req.worker, req.operation), Committed(c.head));
    }

    method Act(now: Moment, req: SourceRequest, project: Project) returns (r: Attempt<Reply>)
      modifies this
      ensures Ended(r) == ProvisionerModel.Act(host.git, now, old(State()), req, project)
    {
      var _ :- Confirm(req.allocation in clones && clones[req.allocation].branch == project.terms.Branch());
      var key := Key(req.worker, req.operation);
      if key in markers {
        var _ :- Confirm(markers[key].Some?);
        return Success(markers[key].value);
      }
      if req.WriteSource? {
        r := Write(now, req, project.terms);
      } else if req.DeleteSource? {
        r := Delete(req, project.terms);
      } else {
        r := CommitHead(req, project.terms);
      }
    }

    method Perform(now: Moment, req: Change) returns (r: Attempt<Reply>)
      modifies this
      ensures Ended(r) == ProvisionerModel.Perform(host, now, old(State()), req)
    {
      if req.CreateIdentity? {
        r := Create(now, req);
      } else if req.DisableIdentity? {
        r := Disable(now, req);
      } else {
        var _ :- Confirm(Active(State().disk, req.worker));
        if req.PrepareClone? {
          r := Prepare(now, req);
        } else {
          var _ :- Confirm(req.allocation in projects && projects[req.allocation].worker == req.worker);
          if req.RevokeAccess? {
            r := Revoke(req);
          } else {
            var _ :- Confirm(projects[req.allocation].state == Usable);
            r := Act(now, req, projects[req.allocation]);
          }
        }
      }
    }

    method Admit(req: Change) returns (r: Attempt<Option<Reply>>)
      modifies this
      ensures Ended(r) == ProvisionerModel.Admit(host, old(State()), req)
    {
      if req.operation in receipts {
        var _ :- Confirm(receipts[req.operation].digest == host.digest(req));
        return Success(receipts[req.operation].reply);
      }
      var _ :- SaveReceipt(req.operation, Receipt(host.digest(req), None));
      return Success(None);
    }

    /** Serve one request; the new durable state and the answer are those of the specification. */
    method Handle(now: Moment, req: Request) returns (r: Attempt<Reply>)
      modifies this
      ensures Ended(r) == ProvisionerModel.Handle(host, now, old(State()), req)
    {
      if req.InspectHealth? {
        return Success(Healthy);
      }
      var previous :- Admit(req);
      if previous.Some? {
        return Success(previous.value);
      }
      var reply :- Perform(now, req);
      var _ :- SaveReceipt(req.operation, Receipt(host.digest(req), Some(reply)));
      return Success(reply);
    }

    /** Serve request after request; each may crash after its own number of effects. */
    method ServeAll(run: seq<Delivery>) returns (answers: seq<Attempt<Reply>>)
      modifies this
      ensures State().disk == Serve(host, old(State().disk), run)
      ensures |answers| == |run|
      ensures forall i | 0 <= i < |run| ::
                var d := Deliver(host, Serve(host, old(State().disk), run[..i]), run[i]);
                answers[i] == if d.Done? then Success(d.value) else Failed
    {
      hide ProvisionerModel.Handle, Serve;
      ServeNothing(host, State().disk, run);
      answers := [];
      var i := 0;
      while i < |run|
        invariant 0 <= i <= |run| == |answers| + (|run| - i)
        invariant State().disk == Serve(host, old(State().disk), run[..i])
        invariant forall j | 0 <= j < i ::
                    var d := Deliver(host, Serve(host, old(State().disk), run[..j]), run[j]);
                    answers[j] == if d.Done? then Success(d.value) else Failed
      {
        ServeStep(host, old(State().disk), run, i);
        fuel := run[i].fuel;
        var r := Handle(run[i].now, run[i].req);
        answers := answers + [r];
        i := i + 1;
      }
      assert run[..i] == run;
    }
  }
}
