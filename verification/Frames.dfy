/** What each operation leaves alone, wherever it stops. */
module Frames {
  import opened Checks
  import opened Paths
  import opened GitRange
  import opened ProvisionerModel

  /** Two maps agree except perhaps at one key. */
  ghost predicate OnlyAt<V>(a: map<Id, V>, b: map<Id, V>, key: Id) {
    forall x | x != key :: (x in a <==> x in b) && (x in a ==> a[x] == b[x])
  }

  lemma RevokeListedFrame(m: Machine, worker: Id, listing: seq<Id>)
    ensures var d := RevokeListed(m, worker, listing).m.disk;
            d == m.disk.(projects := d.projects)
    decreases |listing|
  {
    if listing != [] {
      var s := RevokeOne(m, worker, listing[0]);
      if s.Done? {
        RevokeListedFrame(s.m, worker, listing[1..]);
      }
    }
  }

  lemma MakeHomeFrame(m: Machine, worker: Id, uid: nat)
    ensures var d := MakeHome(m, worker, uid).m.disk;
            d == m.disk.(homes := d.homes)
  {
  }

  lemma AddGroupFrame(now: Moment, m: Machine, worker: Id, gid: nat)
    ensures var d := AddGroup(now, m, worker, gid).m.disk;
            d == m.disk.(groups := d.groups)
  {
  }

  lemma AddAccountFrame(now: Moment, m: Machine, worker: Id, uid: nat)
    ensures var d := AddAccount(now, m, worker, uid).m.disk;
            d == m.disk.(accounts := d.accounts)
  {
  }

  lemma EquipFrame(now: Moment, m: Machine, worker: Id, uid: nat)
    ensures var d := Equip(now, m, worker, uid).m.disk;
            d == m.disk.(groups := d.groups, accounts := d.accounts, homes := d.homes)
  {
    hide AddGroup, AddAccount, MakeHome;
    var g := AddGroup(now, m, worker, uid);
    AddGroupFrame(now, m, worker, uid);
    var a := AddAccount(now, g.m, worker, uid);
    AddAccountFrame(now, g.m, worker, uid);
    MakeHomeFrame(a.m, worker, uid);
  }

  lemma ReserveFrame(now: Moment, m: Machine, req: CreateRequest)
    ensures var d := Reserve(now, m, req).m.disk;
            d == m.disk.(identities := d.identities)
  {
    hide FirstFree, Reserved;
  }

  /** Identity work touches identities and what belongs to them. */
  lemma CreateFrame(now: Moment, m: Machine, req: CreateRequest)
    ensures var d := Create(now, m, req).m.disk;
            d == m.disk.(identities := d.identities, groups := d.groups, accounts := d.accounts, homes := d.homes)
  {
    hide Reserve, Equip, Active;
    ReserveFrame(now, m, req);
    var r := Reserve(now, m, req);
    if r.Done? {
      EquipFrame(now, r.m, req.worker, r.value.uid);
    }
  }

  /** The record disabled, and the home root's or not yet. */
  function Disabling(d: Disk, worker: Id, rooted: bool): Disk
    requires worker in d.identities
  {
    var ids := d.identities[worker := d.identities[worker].(state := Disabled)];
    if rooted then d.(identities := ids, homes := d.homes[worker := 0]) else d.(identities := ids)
  }

  /** Disabling, effect by effect. */
  lemma DisableSteps(now: Moment, m: Machine, req: DisableRequest)
    ensures var r, w := Disable(now, m, req), req.worker;
            if !Known(m.disk, w) || m.fuel == 0 then r == Stopped(m)
            else if w !in m.disk.homes || m.fuel == 1 then r == Stopped(Machine(Disabling(m.disk, w, false), m.fuel - 1))
            else
              var p := RevokeListed(Machine(Disabling(m.disk, w, true), m.fuel - 2), w, now.listing);
              r == if p.Stopped? then Stopped(p.m) else Done(p.m, Retired(m.disk.identities[w].(state := Disabled), now.signalled))
  {
    hide RevokeListed;
  }

  lemma DisableFrame(now: Moment, m: Machine, req: DisableRequest)
    ensures var d := Disable(now, m, req).m.disk;
            d == m.disk.(identities := d.identities, homes := d.homes, projects := d.projects)
  {
    hide RevokeListed, Disable;
    DisableSteps(now, m, req);
    if Known(m.disk, req.worker) && m.fuel >= 2 {
      RevokeListedFrame(Machine(Disabling(m.disk, req.worker, true), m.fuel - 2), req.worker, now.listing);
    }
  }

  lemma StoreSeedFrame(now: Moment, m: Machine, key: Key, data: string)
    ensures var d := StoreSeed(now, m, key, data).m.disk;
            d == m.disk.(seeds := d.seeds)
  {
  }

  lemma CloneSeedFrame(host: Host, m: Machine, req: PrepareRequest)
    ensures var d := CloneSeed(host, m, req).m.disk;
            && d == m.disk.(clones := d.clones, partial := d.partial)
            && OnlyAt(m.disk.clones, d.clones, req.allocation)
  {
    hide FreshClone;
  }

  /** A clone is made whole from the seed, or not at all. */
  lemma CloneSeedShape(host: Host, m: Machine, req: PrepareRequest)
    ensures var d, seed := CloneSeed(host, m, req).m.disk, host.unpack(req.bundle);
            || d.clones == m.disk.clones
            || (req.allocation !in m.disk.clones && seed.Some?
                && d.clones == m.disk.clones[req.allocation := FreshClone(seed.value, req.terms.DefaultBranch())])
  {
    hide FreshClone;
  }

  lemma CheckOutFrame(git: Measures, m: Machine, allocation: Id, terms: Terms)
    ensures var d := CheckOut(git, m, allocation, terms).m.disk;
            && d == m.disk.(clones := d.clones)
            && OnlyAt(m.disk.clones, d.clones, allocation)
  {
    hide TreeFits;
  }

  lemma BuildCloneFrame(host: Host, now: Moment, m: Machine, req: PrepareRequest, project: Project)
    ensures var d := BuildClone(host, now, m, req, project).m.disk;
            && d == m.disk.(seeds := d.seeds, clones := d.clones, partial := d.partial)
            && OnlyAt(m.disk.clones, d.clones, req.allocation)
  {
    hide StoreSeed, CloneSeed, CheckOut, CloneReady;
    var b := StoreSeed(now, m, Key(req.worker, req.operation), req.bundle);
    StoreSeedFrame(now, m, Key(req.worker, req.operation), req.bundle);
    if b.Done? {
      var c := CloneSeed(host, b.m, req);
      CloneSeedFrame(host, b.m, req);
      if c.Done? {
        CheckOutFrame(host.git, c.m, req.allocation, project.terms);
      }
    }
  }

  /** A preparation leaves what allocating left, or what building left, or that and the record saved. */
  lemma PrepareShape(host: Host, now: Moment, m: Machine, req: PrepareRequest)
    requires Active(m.disk, req.worker)
    ensures var d, a := Prepare(host, now, m, req).m.disk, Allocate(m, req);
            || d == a.m.disk
            || (a.Done? && var b := BuildClone(host, now, a.m, req, a.value).m.disk; d == b.(projects := d.projects))
  {
    hide BuildClone, Active, Allocate;
  }

  lemma PrepareFrame(host: Host, now: Moment, m: Machine, req: PrepareRequest)
    requires Active(m.disk, req.worker)
    ensures var d := Prepare(host, now, m, req).m.disk;
            && d == m.disk.(projects := d.projects, seeds := d.seeds, clones := d.clones, partial := d.partial)
            && OnlyAt(m.disk.clones, d.clones, req.allocation)
  {
    hide BuildClone, Active, Prepare;
    var a := Allocate(m, req);
    PrepareShape(host, now, m, req);
    if a.Done? {
      BuildCloneFrame(host, now, a.m, req, a.value);
    }
  }

  /** A withdrawal leaves its project as it was, revoking, or revoked, and touches no other. */
  lemma RevokeShape(m: Machine, req: RevokeRequest, project: Project)
    ensures var d, a := Revoke(m, req, project).m.disk, req.allocation;
            var revoking := project.(state := Revoking, revocation := Some(req.operation));
            var projects := m.disk.projects;
            && (d.projects == projects || d.projects == projects[a := revoking]
                || d.projects == projects[a := revoking.(state := Revoked)])
            && (d.projects != projects ==> project.state == Usable || project.revocation == Some(req.operation))
  {
    var revoking := project.(state := Revoking, revocation := Some(req.operation));
    var projects := m.disk.projects;
    assert projects[req.allocation := revoking][req.allocation := revoking.(state := Revoked)]
        == projects[req.allocation := revoking.(state := Revoked)];
  }

  lemma RevokeFrame(m: Machine, req: RevokeRequest, project: Project)
    ensures var d := Revoke(m, req, project).m.disk;
            d == m.disk.(projects := d.projects, sealed := d.sealed)
  {
  }

  lemma MarkFrame(m: Machine, key: Key, reply: Reply)
    ensures var d := Mark(m, key, reply).m.disk;
            d == m.disk.(markers := d.markers)
  {
  }

  lemma PutCloneFrame(m: Machine, allocation: Id, c: Clone)
    ensures var d := PutClone(m, allocation, c).m.disk;
            d == m.disk.(clones := d.clones) && OnlyAt(m.disk.clones, d.clones, allocation)
  {
  }

  lemma FillFileFrame(now: Moment, m: Machine, allocation: Id, c: Clone, path: Path, content: string)
    ensures var d := FillFile(now, m, allocation, c, path, content).m.disk;
            d == m.disk.(clones := d.clones) && OnlyAt(m.disk.clones, d.clones, allocation)
  {
    hide WithFile, Prefix;
  }

  lemma WriteFrame(git: Measures, now: Moment, m: Machine, req: WriteRequest, terms: Terms, c: Clone)
    ensures var d := Write(git, now, m, req, terms, c).m.disk;
            && d == m.disk.(clones := d.clones, markers := d.markers)
            && OnlyAt(m.disk.clones, d.clones, req.allocation)
  {
    hide SourceOpen, ContentFits, WithFile, PutClone, FillFile, Mark;
    var t := PutClone(m, req.allocation, WithFile(c, req.path, ""));
    PutCloneFrame(m, req.allocation, WithFile(c, req.path, ""));
    var f := FillFile(now, t.m, req.allocation, c, req.path, req.content);
    FillFileFrame(now, t.m, req.allocation, c, req.path, req.content);
    MarkFrame(f.m, Key(req.worker, req.operation), Written(req.path));
  }

  lemma DeleteFrame(git: Measures, m: Machine, req: DeleteRequest, terms: Terms, c: Clone)
    ensures var d := Delete(git, m, req, terms, c).m.disk;
            && d == m.disk.(clones := d.clones, markers := d.markers)
            && OnlyAt(m.disk.clones, d.clones, req.allocation)
  {
    hide SourceOpen, PutClone, Mark;
    var u := PutClone(m, req.allocation, c.(worktree := c.worktree - {req.path}));
    PutCloneFrame(m, req.allocation, c.(worktree := c.worktree - {req.path}));
    MarkFrame(u.m, Key(req.worker, req.operation), Deleted(req.path));
  }

  /** A change under the lock either does not start, leaves the lock, or is whole. */
  lemma PutLockedResult(m: Machine, a: Id, before: Clone, after: Clone)
    ensures var d := m.disk;
            PutLocked(m, a, before, after) ==
            if m.fuel == 0 then Stopped(m)
            else if m.fuel == 1 then Stopped(Machine(d.(clones := d.clones[a := Locked(before)]), 0))
            else Done(Machine(d.(clones := d.clones[a := after]), m.fuel - 2), ())
  {
    hide Locked;
    assert m.disk.clones[a := Locked(before)][a := after] == m.disk.clones[a := after];
  }

  lemma PutLockedFrame(m: Machine, allocation: Id, before: Clone, after: Clone)
    ensures var d := PutLocked(m, allocation, before, after).m.disk;
            && d == m.disk.(clones := d.clones)
            && OnlyAt(m.disk.clones, d.clones, allocation)
  {
    hide Locked;
  }

  lemma CommitChangesFrame(git: Measures, m: Machine, req: CommitRequest, terms: Terms, c: Clone)
    ensures var d := CommitChanges(git, m, req, terms, c).m.disk;
            && d == m.disk.(clones := d.clones)
            && OnlyAt(m.disk.clones, d.clones, req.allocation)
  {
    hide Stageable, WithCommit, WithStaged, PutLocked;
    var staged := WithStaged(c);
    PutLockedFrame(m, req.allocation, c, staged);
    PutLockedFrame(PutLocked(m, req.allocation, c, staged).m, req.allocation, staged, WithCommit(staged, req.operation));
  }

  lemma SubmitFrame(git: Measures, m: Machine, req: CommitRequest, terms: Terms, c: Clone)
    ensures var d := Submit(git, m, req, terms, c).m.disk;
            d == m.disk.(submissions := d.submissions, markers := d.markers)
  {
    hide Mark;
    var b := Bundle(m, Key(req.worker, req.operation));
    MarkFrame(b.m, Key(req.worker, req.operation), Committed(c.head));
  }

  lemma CommitFrame(git: Measures, m: Machine, req: CommitRequest, terms: Terms, c: Clone)
    ensures var d := CommitHead(git, m, req, terms, c).m.disk;
            && d == m.disk.(clones := d.clones, submissions := d.submissions, markers := d.markers)
            && OnlyAt(m.disk.clones, d.clones, req.allocation)
  {
    hide RangeOk, CommitChanges, Recovered, Clean, Submit;
    var k := CommitChanges(git, m, req, terms, c);
    CommitChangesFrame(git, m, req, terms, c);
    SubmitFrame(git, m, req, terms, c);
    if k.Done? {
      SubmitFrame(git, k.m, req, terms, k.value);
    }
  }

  /** The worker child changes clones, submissions and markers only. */
  lemma ActFrame(git: Measures, now: Moment, m: Machine, req: SourceRequest, project: Project)
    ensures var d := Act(git, now, m, req, project).m.disk;
            && d == m.disk.(clones := d.clones, submissions := d.submissions, markers := d.markers)
            && OnlyAt(m.disk.clones, d.clones, req.allocation)
  {
    hide Write, Delete, CommitHead;
    if req.allocation in m.disk.clones {
      var c := m.disk.clones[req.allocation];
      if req.WriteSource? {
        WriteFrame(git, now, m, req, project.terms, c);
      } else if req.DeleteSource? {
        DeleteFrame(git, m, req, project.terms, c);
      } else {
        CommitFrame(git, m, req, project.terms, c);
      }
    }
  }
}
