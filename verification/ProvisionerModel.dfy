/**
 * The root provisioner as functions on its durable state. Every durable effect costs one unit of
 * fuel; running out is a crash at that point, so a bounded run is a crash between any two effects.
 * A refused guard or a failed host command also stops where it stands.
 */
module ProvisionerModel {
  import opened Checks
  import opened Paths
  import opened GitRange

  type Id = string

  datatype IdentityState = Creating | Ready | Disabled

  datatype Identity = Identity(uid: nat, state: IdentityState, operation: Id)

  /** `Usable` is the record state called ready. */
  datatype ProjectState = Preparing | Usable | Revoking | Revoked

  /** A manifest's exact grants, or the narrow ones of a retained protocol-1 ledger. */
  datatype Terms =
    | Legacy(base: nat, task: string, part: string)
    | Manifest(base: nat, defaultBranch: string, branch: string, grants: Grants, commits: nat, changedFiles: nat, limits: Limits)
  {
    function Branch(): string {
      if Legacy? then "botsquad/" + part + "/" + task else branch
    }

    function DefaultBranch(): string {
      if Legacy? then "main" else defaultBranch
    }

    function Scope(): Grants {
      if Legacy? then Grants(["src/" + part + ".mjs", "test/" + part + ".extra.test.mjs"], []) else grants
    }

    function CommitBound(): nat {
      if Legacy? then 1 else commits
    }

    function FileBound(): nat {
      if Legacy? then 2 else changedFiles
    }

    function Bounds(): Limits {
      if Legacy? then Limits(1000, 16000, 1_000_000, 64000, 500_000) else limits
    }
  }

  datatype Project = Project(worker: Id, terms: Terms, state: ProjectState, operation: Id, revocation: Option<Id>)

  /**
   * A clone: its commits (the first `imported` came with the seed), branch, index and worktree.
   * It is locked while Git changes its index or branch, and for good if Git is killed meanwhile.
   */
  datatype CloneFields = CloneFields(
    dag: seq<Commit>, imported: nat, head: nat, branch: string, index: Tree, worktree: Tree, locked: bool)

  type Clone = c: CloneFields | Acyclic(c.dag) && c.head < |c.dag| && c.imported <= |c.dag|
    ghost witness CloneFields([Commit([], map[], "")], 1, 0, "", map[], map[], false)

  /** What a seed bundle unpacks to: its commits and the tip of its default branch. */
  datatype SeedFields = SeedFields(dag: seq<Commit>, tip: nat)

  type Seed = s: SeedFields | Acyclic(s.dag) && s.tip < |s.dag|
    ghost witness SeedFields([Commit([], map[], "")], 0)

  datatype Request =
    | InspectHealth
    | CreateIdentity(operation: Id, worker: Id)
    | DisableIdentity(operation: Id, worker: Id)
    | PrepareClone(operation: Id, worker: Id, allocation: Id, terms: Terms, bundle: string)
    | RevokeAccess(operation: Id, worker: Id, allocation: Id)
    | WriteSource(operation: Id, worker: Id, allocation: Id, path: Path, content: string)
    | DeleteSource(operation: Id, worker: Id, allocation: Id, path: Path)
    | CommitProject(operation: Id, worker: Id, allocation: Id, expected: Option<nat>)

  /** A request of one kind. */
  type CreateRequest = r: Request | r.CreateIdentity? witness CreateIdentity("", "")
  type DisableRequest = r: Request | r.DisableIdentity? witness DisableIdentity("", "")
  type PrepareRequest = r: Request | r.PrepareClone? witness PrepareClone("", "", "", Legacy(0, "", ""), "")
  type RevokeRequest = r: Request | r.RevokeAccess? witness RevokeAccess("", "", "")
  type WriteRequest = r: Request | r.WriteSource? witness WriteSource("", "", "", "", "")
  type DeleteRequest = r: Request | r.DeleteSource? witness DeleteSource("", "", "", "")
  type CommitRequest = r: Request | r.CommitProject? witness CommitProject("", "", "", None)

  /** A request for the worker child, and any request but the health check. */
  type SourceRequest = r: Request | r.WriteSource? || r.DeleteSource? || r.CommitProject? witness CommitProject("", "", "", None)
  type Change = r: Request | !r.InspectHealth? witness RevokeAccess("", "", "")

  datatype Reply =
    | Healthy
    | Identified(identity: Identity)
    | Retired(identity: Identity, signalled: nat)
    | Prepared(project: Project, uid: nat)
    | Withdrawn(project: Project)
    | Written(path: Path)
    | Deleted(path: Path)
    | Committed(commit: nat)

  /** A started receipt has no reply yet. */
  datatype Receipt = Receipt(digest: string, reply: Option<Reply>)

  datatype Key = Key(worker: Id, operation: Id)

  /**
   * Everything that survives a crash. A marker created but not yet filled holds no reply. A clone
   * cut short is only a directory, and a bundle cut short only Git's lock on it.
   */
  datatype Disk = Disk(
    receipts: map<Id, Receipt>,
    identities: map<Id, Identity>,
    groups: map<Id, nat>,
    accounts: map<Id, nat>,
    homes: map<Id, nat>,
    projects: map<Id, Project>,
    seeds: map<Key, string>,
    clones: map<Id, Clone>,
    partial: set<Id>,
    sealed: set<Id>,
    submissions: map<Key, bool>,
    markers: map<Key, Option<Reply>>)

  const BLANK := Disk(map[], map[], map[], map[], map[], map[], map[], map[], {}, {}, map[], map[])

  /** What stays the same over a whole run: the request digest, how a bundle unpacks, and Git's measures. */
  datatype Host = Host(digest: Request -> string, unpack: string -> Option<Seed>, git: Measures)

  /**
   * What each delivery finds: user and group numbers taken outside the managed records, the
   * directory listing, processes signalled, and how much of a file a crash lets through.
   */
  datatype Moment = Moment(uids: set<nat>, gids: set<nat>, listing: seq<Id>, signalled: nat, torn: nat)

  datatype Machine = Machine(disk: Disk, fuel: nat)

  datatype At<+T> = At(m: Machine, value: T)

  /** A run that finished with a value, or stopped; either way the machine it left behind. */
  datatype Run<+T> = Done(m: Machine, value: T) | Stopped(m: Machine) {
    predicate IsFailure() {
      Stopped?
    }

    function PropagateFailure<U>(): Run<U>
      requires Stopped?
    {
      Stopped(m)
    }

    function Extract(): At<T>
      requires Done?
    {
      At(m, value)
    }
  }

  /** A guard. */
  function Guard(m: Machine, holds: bool): Run<()> {
    if holds then Done(m, ()) else Stopped(m)
  }

  /** One durable effect. */
  function Put(m: Machine, disk: Disk): Run<()> {
    if m.fuel == 0 then Stopped(m) else Done(Machine(disk, m.fuel - 1), ())
  }

  const FIRST_UID: nat := 20000
  const UID_END: nat := 60000

  /** The first free number of the managed range, looking up from `from`. */
  function FirstFree(taken: set<nat>, from: nat): Option<nat>
    decreases UID_END - from
  {
    if from >= UID_END then None
    else if from !in taken then Some(from)
    else FirstFree(taken, from + 1)
  }

  function Reserved(d: Disk): set<nat> {
    set w | w in d.identities :: d.identities[w].uid
  }

  /** Every number that is somebody's already. */
  function Taken(now: Moment, d: Disk): set<nat> {
    now.uids + now.gids + Reserved(d)
  }

  function SaveIdentity(m: Machine, worker: Id, record: Identity): Run<()> {
    Put(m, m.disk.(identities := m.disk.identities[worker := record]))
  }

  /** A managed identity whose account is the one its record reserved. */
  predicate Known(d: Disk, worker: Id) {
    && worker in d.identities && worker in d.accounts
    && d.accounts[worker] == d.identities[worker].uid >= FIRST_UID
  }

  predicate Active(d: Disk, worker: Id) {
    Known(d, worker) && d.identities[worker].state == Ready
  }

  /** Reserve an exact UID before anything else changes. */
  function Reserve(now: Moment, m: Machine, req: CreateRequest): Run<Identity> {
    var d := m.disk;
    if req.worker in d.identities then Done(m, d.identities[req.worker])
    else
      var _ :- Guard(m, req.worker !in d.accounts && req.worker !in d.groups && req.worker !in d.homes);
      var uid := FirstFree(Taken(now, d), FIRST_UID);
      var _ :- Guard(m, uid.Some?);
      var record := Identity(uid.value, Creating, req.operation);
      var s :- SaveIdentity(m, req.worker, record);
      Done(s.m, record)
  }

  /** `groupadd --gid` refuses a number another group has. */
  function AddGroup(now: Moment, m: Machine, worker: Id, gid: nat): Run<()> {
    if worker in m.disk.groups then Guard(m, m.disk.groups[worker] == gid)
    else
      var _ :- Guard(m, gid !in now.gids);
      Put(m, m.disk.(groups := m.disk.groups[worker := gid]))
  }

  /** `useradd --uid` refuses a number another account has. */
  function AddAccount(now: Moment, m: Machine, worker: Id, uid: nat): Run<()> {
    if worker in m.disk.accounts then Guard(m, m.disk.accounts[worker] == uid)
    else
      var _ :- Guard(m, uid !in now.uids);
      Put(m, m.disk.(accounts := m.disk.accounts[worker := uid]))
  }

  function PutHome(m: Machine, worker: Id, owner: nat): Run<()> {
    Put(m, m.disk.(homes := m.disk.homes[worker := owner]))
  }

  function MakeHome(m: Machine, worker: Id, uid: nat): Run<()> {
    var s :- if worker in m.disk.homes then Done(m, ()) else PutHome(m, worker, 0);
    var _ :- Guard(s.m, worker in s.m.disk.homes && s.m.disk.homes[worker] in {0, uid});
    PutHome(s.m, worker, uid)
  }

  /** The group, the account and the home, each found as reserved or made so. */
  function Equip(now: Moment, m: Machine, worker: Id, uid: nat): Run<()> {
    var g :- AddGroup(now, m, worker, uid);
    var a :- AddAccount(now, g.m, worker, uid);
    MakeHome(a.m, worker, uid)
  }

  function Create(now: Moment, m: Machine, req: CreateRequest): Run<Reply> {
    var r :- Reserve(now, m, req);
    var record := r.value;
    var _ :- Guard(r.m, record.operation == req.operation && record.state != Disabled);
    var h :- Equip(now, r.m, req.worker, record.uid);
    var ready := record.(state := Ready);
    var s :- SaveIdentity(h.m, req.worker, ready);
    var _ :- Guard(s.m, Active(s.m.disk, req.worker));
    Done(s.m, Identified(ready))
  }

  function SaveProject(m: Machine, allocation: Id, project: Project): Run<()> {
    Put(m, m.disk.(projects := m.disk.projects[allocation := project]))
  }

  /** Revoke the worker's projects one by one, in the order the directory lists them. */
  function RevokeListed(m: Machine, worker: Id, listing: seq<Id>): Run<()>
    decreases |listing|
  {
    if listing == [] then Done(m, ())
    else
      var s :- RevokeOne(m, worker, listing[0]);
      RevokeListed(s.m, worker, listing[1..])
  }

  function RevokeOne(m: Machine, worker: Id, allocation: Id): Run<()> {
    if allocation in m.disk.projects && m.disk.projects[allocation].worker == worker then
      SaveProject(m, allocation, m.disk.projects[allocation].(state := Revoked))
    else Done(m, ())
  }

  /** The record is disabled first; everything after that only takes away. */
  function Disable(now: Moment, m: Machine, req: DisableRequest): Run<Reply> {
    var _ :- Guard(m, Known(m.disk, req.worker));
    var record := m.disk.identities[req.worker].(state := Disabled);
    var s :- SaveIdentity(m, req.worker, record);
    var _ :- Guard(s.m, req.worker in s.m.disk.homes);
    var h :- PutHome(s.m, req.worker, 0);
    var p :- RevokeListed(h.m, req.worker, now.listing);
    Done(p.m, Retired(record, now.signalled))
  }

  predicate Clean(c: Clone) {
    c.index == c.dag[c.head].tree && c.worktree == c.index
  }

  function PutClone(m: Machine, allocation: Id, c: Clone): Run<()> {
    Put(m, m.disk.(clones := m.disk.clones[allocation := c]))
  }

  function PutSeed(m: Machine, key: Key, data: string): Run<()> {
    Put(m, m.disk.(seeds := m.disk.seeds[key := data]))
  }

  /** What a crash lets through of a file being filled. */
  function Prefix(s: string, n: nat): string {
    if n <= |s| then s[..n] else s
  }

  /** Filling a file is not atomic: a crash leaves any prefix. */
  function FillSeed(now: Moment, m: Machine, key: Key, data: string): Run<()> {
    if m.fuel == 0 then Stopped(Machine(m.disk.(seeds := m.disk.seeds[key := Prefix(data, now.torn)]), 0))
    else PutSeed(m, key, data)
  }

  /** The bundle file is created empty and then filled; afterwards it must hold the request's. */
  function StoreSeed(now: Moment, m: Machine, key: Key, data: string): Run<()> {
    var s :- if key in m.disk.seeds then Done(m, ()) else
               (var e :- PutSeed(m, key, ""); FillSeed(now, e.m, key, data));
    Guard(s.m, key in s.m.disk.seeds && s.m.disk.seeds[key] == data)
  }

  /** A clone without checkout: nothing indexed, nothing in the worktree. */
  function FreshClone(seed: Seed, branch: string): Clone {
    CloneFields(seed.dag, |seed.dag|, seed.tip, branch, map[], map[], false)
  }

  /** The directory appears first; what a crash leaves of a clone is never cloned again. */
  function CloneSeed(host: Host, m: Machine, req: PrepareRequest): Run<()> {
    if req.allocation in m.disk.clones then Done(m, ())
    else
      var _ :- Guard(m, req.allocation !in m.disk.partial);
      var seed := host.unpack(req.bundle);
      var _ :- Guard(m, seed.Some?);
      var p :- Put(m, m.disk.(partial := m.disk.partial + {req.allocation}));
      FinishClone(p.m, req.allocation, FreshClone(seed.value, req.terms.DefaultBranch()))
  }

  function FinishClone(m: Machine, allocation: Id, c: Clone): Run<()> {
    Put(m, m.disk.(clones := m.disk.clones[allocation := c], partial := m.disk.partial - {allocation}))
  }

  function CheckOut(git: Measures, m: Machine, allocation: Id, terms: Terms): Run<()> {
    var _ :- Guard(m, allocation in m.disk.clones && terms.base < |m.disk.clones[allocation].dag|);
    var c := m.disk.clones[allocation];
    var _ :- Guard(m, TreeFits(git, terms.Bounds(), c.dag[terms.base].tree));
    if c.branch == terms.Branch() then Done(m, ())
    else
      var _ :- Guard(m, c.head == terms.base);
      var tree := c.dag[c.head].tree;
      PutClone(m, allocation, c.(branch := terms.Branch(), index := tree, worktree := tree))
  }

  predicate CloneReady(git: Measures, c: Clone, terms: Terms) {
    c.head == terms.base && Clean(c) && ContentFits(git, terms.Bounds(), c.worktree)
  }

  /** The worker child's part of a preparation. */
  function BuildClone(host: Host, now: Moment, m: Machine, req: PrepareRequest, project: Project): Run<()> {
    var _ :- Guard(m, project.worker == req.worker);
    var b :- StoreSeed(now, m, Key(req.worker, req.operation), req.bundle);
    var c :- CloneSeed(host, b.m, req);
    var k :- CheckOut(host.git, c.m, req.allocation, project.terms);
    Guard(k.m, req.allocation in k.m.disk.clones && CloneReady(host.git, k.m.disk.clones[req.allocation], project.terms))
  }

  function Allocate(m: Machine, req: PrepareRequest): Run<Project> {
    if req.allocation in m.disk.projects then Done(m, m.disk.projects[req.allocation])
    else
      var project := Project(req.worker, req.terms, Preparing, req.operation, None);
      var s :- SaveProject(m, req.allocation, project);
      Done(s.m, project)
  }

  function Prepare(host: Host, now: Moment, m: Machine, req: PrepareRequest): Run<Reply>
    requires Active(m.disk, req.worker)
  {
    var uid := m.disk.identities[req.worker].uid;
    var a :- Allocate(m, req);
    var project := a.value;
    var _ :- Guard(a.m, project.operation == req.operation && project.state in {Preparing, Usable});
    var _ :- Guard(a.m, req.terms.Manifest? ==> project.terms == req.terms.(defaultBranch := project.terms.DefaultBranch()));
    var b :- BuildClone(host, now, a.m, req, project);
    var usable := project.(state := Usable);
    var s :- SaveProject(b.m, req.allocation, usable);
    Done(s.m, Prepared(usable, uid))
  }

  function Revoke(m: Machine, req: RevokeRequest, project: Project): Run<Reply> {
    var _ :- Guard(m, project.state == Usable || project.revocation == Some(req.operation));
    var revoking := project.(state := Revoking, revocation := Some(req.operation));
    var s :- SaveProject(m, req.allocation, revoking);
    var _ :- Guard(s.m, req.allocation in s.m.disk.clones);
    var o :- Put(s.m, s.m.disk.(sealed := s.m.disk.sealed + {req.allocation}));
    var revoked := revoking.(state := Revoked);
    var e :- SaveProject(o.m, req.allocation, revoked);
    Done(e.m, Withdrawn(revoked))
  }

  /** The marker is created, then filled. */
  function Mark(m: Machine, key: Key, reply: Reply): Run<Reply> {
    var c :- Put(m, m.disk.(markers := m.disk.markers[key := None]));
    var f :- Put(c.m, c.m.disk.(markers := c.m.disk.markers[key := Some(reply)]));
    Done(f.m, reply)
  }

  predicate RangeOk(git: Measures, c: Clone, terms: Terms, head: nat) {
    RangeAllowed(c.dag, git, terms.Bounds(), terms.Scope(), terms.CommitBound(), terms.base, head)
  }

  /** Whether sources may change now: the path is granted and the branch is still in bounds. */
  predicate SourceOpen(git: Measures, c: Clone, terms: Terms, path: Path) {
    && Authorized(terms.Scope(), path) && RangeOk(git, c, terms, c.head)
    && (terms.Legacy? ==> c.head == terms.base)
  }

  function WithFile(c: Clone, path: Path, content: string): Clone {
    c.(worktree := c.worktree[path := content])
  }

  /** As for a seed: a crash while a source is filled leaves any prefix. */
  function FillFile(now: Moment, m: Machine, allocation: Id, c: Clone, path: Path, content: string): Run<()> {
    if m.fuel == 0 then
      Stopped(Machine(m.disk.(clones := m.disk.clones[allocation := WithFile(c, path, Prefix(content, now.torn))]), 0))
    else PutClone(m, allocation, WithFile(c, path, content))
  }

  /** A write truncates, then fills. */
  function Write(git: Measures, now: Moment, m: Machine, req: WriteRequest, terms: Terms, c: Clone): Run<Reply> {
    var _ :- Guard(m, SourceOpen(git, c, terms, req.path) && ContentFits(git, terms.Bounds(), c.worktree[req.path := req.content]));
    var t :- PutClone(m, req.allocation, WithFile(c, req.path, ""));
    var f :- FillFile(now, t.m, req.allocation, c, req.path, req.content);
    Mark(f.m, Key(req.worker, req.operation), Written(req.path))
  }

  function Delete(git: Measures, m: Machine, req: DeleteRequest, terms: Terms, c: Clone): Run<Reply> {
    var _ :- Guard(m, SourceOpen(git, c, terms, req.path) && req.path in c.worktree);
    var u :- PutClone(m, req.allocation, c.(worktree := c.worktree - {req.path}));
    Mark(u.m, Key(req.worker, req.operation), Deleted(req.path))
  }

  function Subject(operation: Id): string {
    "BotSquad operation " + operation
  }

  /** The index after `git add` of the given paths. */
  function Staged(index: Tree, worktree: Tree, paths: set<Path>): Tree {
    map p | p in index.Keys + worktree.Keys && (if p in paths then p in worktree else p in index)
      :: if p in paths then worktree[p] else index[p]
  }

  /**
   * The paths `git diff HEAD` and `git ls-files --others` list: indexed ones whose file differs
   * from the head's, and those of the head or the worktree that the index lacks.
   */
  function Pending(c: Clone): set<Path> {
    var tree := c.dag[c.head].tree;
    set p | p in c.index.Keys + tree.Keys + c.worktree.Keys
            && (p in c.index ==> Entry(tree, p) != Entry(c.worktree, p))
  }

  /** `git add` refuses a path that is neither in the worktree nor in the index. */
  predicate Stageable(git: Measures, c: Clone, terms: Terms) {
    && ContentFits(git, terms.Bounds(), c.worktree)
    && 0 < |Pending(c)| <= terms.FileBound()
    && forall p | p in Pending(c) :: Authorized(terms.Scope(), p) && !GitFile(p) && (p in c.worktree || p in c.index)
  }

  function WithStaged(c: Clone): Clone {
    c.(index := Staged(c.index, c.worktree, Pending(c)), locked := false)
  }

  function Locked(c: Clone): Clone {
    c.(locked := true)
  }

  /** One more commit on the branch, holding the index. */
  function WithCommit(c: Clone, operation: Id): (next: Clone)
    ensures |next.dag| == |c.dag| + 1 && next.head == |c.dag|
  {
    var commit := Commit([c.head], c.index, Subject(operation));
    c.(dag := c.dag + [commit], head := |c.dag|, locked := false)
  }

  function CommitChanges(git: Measures, m: Machine, req: CommitRequest, terms: Terms, c: Clone): Run<Clone> {
    var _ :- Guard(m, Stageable(git, c, terms) && !c.locked);
    var staged := WithStaged(c);
    var s :- PutLocked(m, req.allocation, c, staged);
    var _ :- Guard(s.m, staged.index != c.dag[c.head].tree);
    var committed := WithCommit(staged, req.operation);
    var k :- PutLocked(s.m, req.allocation, staged, committed);
    Done(k.m, committed)
  }

  /** Git takes its lock, and gives it up with the change. */
  function PutLocked(m: Machine, allocation: Id, before: Clone, after: Clone): Run<()> {
    var l :- PutClone(m, allocation, Locked(before));
    PutClone(l.m, allocation, after)
  }

  /** The head is this operation's own commit on the expected parent: only the reply was lost. */
  predicate Recovered(c: Clone, operation: Id, expected: nat) {
    && c.dag[c.head].parents != [] && c.dag[c.head].parents[0] == expected
    && c.dag[c.head].subject == Subject(operation)
  }

  function ExpectedHead(req: CommitRequest, terms: Terms): nat {
    if req.expected.Some? then req.expected.value else terms.base
  }

  /** `git bundle create` works under a lock of its own; a bundle already there is kept. */
  function Bundle(m: Machine, key: Key): Run<()> {
    if key in m.disk.submissions then Guard(m, m.disk.submissions[key])
    else
      var l :- Put(m, m.disk.(submissions := m.disk.submissions[key := false]));
      Put(l.m, l.m.disk.(submissions := l.m.disk.submissions[key := true]))
  }

  /** Bundle the branch and answer with its head. */
  function Submit(git: Measures, m: Machine, req: CommitRequest, terms: Terms, c: Clone): Run<Reply> {
    var b :- Bundle(m, Key(req.worker, req.operation));
    var _ :- Guard(b.m, git.pack(c.dag, c.head) <= terms.Bounds().bundleBytes);
    Mark(b.m, Key(req.worker, req.operation), Committed(c.head))
  }

  function CommitHead(git: Measures, m: Machine, req: CommitRequest, terms: Terms, c: Clone): Run<Reply> {
    var _ :- Guard(m, (req.expected.Some? || terms.Legacy?) && RangeOk(git, c, terms, c.head));
    var expected := ExpectedHead(req, terms);
    var k :- if c.head == expected then CommitChanges(git, m, req, terms, c)
             else (var r :- Guard(m, Recovered(c, req.operation, expected)); Done(r.m, c));
    var _ :- Guard(k.m, RangeOk(git, k.value, terms, k.value.head) && Clean(k.value));
    Submit(git, k.m, req, terms, k.value)
  }

  /** The worker child: a filled marker answers; otherwise the action runs and leaves one. */
  function Act(git: Measures, now: Moment, m: Machine, req: SourceRequest, project: Project): Run<Reply> {
    var _ :- Guard(m, req.allocation in m.disk.clones && m.disk.clones[req.allocation].branch == project.terms.Branch());
    var c := m.disk.clones[req.allocation];
    var key := Key(req.worker, req.operation);
    if key in m.disk.markers then
      var _ :- Guard(m, m.disk.markers[key].Some?);
      Done(m, m.disk.markers[key].value)
    else if req.WriteSource? then Write(git, now, m, req, project.terms, c)
    else if req.DeleteSource? then Delete(git, m, req, project.terms, c)
    else CommitHead(git, m, req, project.terms, c)
  }

  function Perform(host: Host, now: Moment, m: Machine, req: Change): Run<Reply> {
    if req.CreateIdentity? then Create(now, m, req)
    else if req.DisableIdentity? then Disable(now, m, req)
    else
      var _ :- Guard(m, Active(m.disk, req.worker));
      if req.PrepareClone? then Prepare(host, now, m, req)
      else
        var _ :- Guard(m, req.allocation in m.disk.projects && m.disk.projects[req.allocation].worker == req.worker);
        var project := m.disk.projects[req.allocation];
        if req.RevokeAccess? then Revoke(m, req, project)
        else
          var _ :- Guard(m, project.state == Usable);
          Act(host.git, now, m, req, project)
  }

  function SaveReceipt(m: Machine, operation: Id, receipt: Receipt): Run<()> {
    Put(m, m.disk.(receipts := m.disk.receipts[operation := receipt]))
  }

  /** Find the receipt, or open one. */
  function Admit(host: Host, m: Machine, req: Change): Run<Option<Reply>> {
    var hash := host.digest(req);
    if req.operation in m.disk.receipts then
      var receipt := m.disk.receipts[req.operation];
      var _ :- Guard(m, receipt.digest == hash);
      Done(m, receipt.reply)
    else
      var s :- SaveReceipt(m, req.operation, Receipt(hash, None));
      Done(s.m, None)
  }

  function Handle(host: Host, now: Moment, m: Machine, req: Request): Run<Reply> {
    if req.InspectHealth? then Done(m, Healthy)
    else
      var a :- Admit(host, m, req);
      if a.value.Some? then Done(a.m, a.value.value)
      else
        var p :- Perform(host, now, a.m, req);
        var s :- SaveReceipt(p.m, req.operation, Receipt(host.digest(req), Some(p.value)));
        Done(s.m, p.value)
  }

  /** One request as it reaches the server, with the number of effects it survives. */
  datatype Delivery = Delivery(now: Moment, fuel: nat, req: Request)

  function Deliver(host: Host, d: Disk, x: Delivery): Run<Reply> {
    Handle(host, x.now, Machine(d, x.fuel), x.req)
  }

  /** The disk after a run of deliveries; each starts from what the last one left. */
  function Serve(host: Host, d: Disk, run: seq<Delivery>): Disk
    decreases |run|
  {
    if run == [] then d else Deliver(host, Serve(host, d, run[..|run| - 1]), run[|run| - 1]).m.disk
  }
}
