/** Identities and projects over whole runs: numbers are exclusive and closing is for good. */
module Custody {
  import opened Checks
  import opened ProvisionerModel
  import opened Frames

  type Identities = map<Id, Identity>
  type Projects = map<Id, Project>
  type Clones = map<Id, Clone>

  ghost predicate UidsExclusive(ids: Identities) {
    && (forall w | w in ids :: FIRST_UID <= ids[w].uid < UID_END)
    && (forall v, w | v in ids && w in ids && v != w :: ids[v].uid != ids[w].uid)
  }

  /** Records never vanish, keep their number, and stay disabled once disabled. */
  ghost predicate IdentitiesKept(a: Identities, b: Identities) {
    forall w | w in a ::
      && w in b && b[w].uid == a[w].uid && b[w].operation == a[w].operation
      && (a[w].state == Disabled ==> b[w].state == Disabled)
  }

  predicate Closed(p: Project) {
    p.state == Revoking || p.state == Revoked
  }

  /** Projects keep their worker and terms, and a closed one never opens again. */
  ghost predicate ProjectsKept(a: Projects, b: Projects) {
    forall p | p in a ::
      && p in b && b[p].worker == a[p].worker && b[p].terms == a[p].terms && b[p].operation == a[p].operation
      && (Closed(a[p]) ==> Closed(b[p]))
  }

  /** Nobody may work on this allocation any more. */
  predicate Shut(ids: Identities, projects: Projects, a: Id) {
    && a in projects
    && (Closed(projects[a]) || (projects[a].worker in ids && ids[projects[a].worker].state == Disabled))
  }

  /** The clone is still what it was: same commits, head, branch, index and worktree. */
  ghost predicate Untouched(a: Clones, b: Clones, allocation: Id) {
    && (allocation in a <==> allocation in b)
    && (allocation in a ==> a[allocation] == b[allocation])
  }

  ghost predicate ShutKept(ids: Identities, projects: Projects, a: Clones, b: Clones) {
    forall p | Shut(ids, projects, p) :: Untouched(a, b, p)
  }

  ghost predicate Kept(a: Disk, b: Disk) {
    && IdentitiesKept(a.identities, b.identities) && ProjectsKept(a.projects, b.projects)
    && ShutKept(a.identities, a.projects, a.clones, b.clones)
  }

  lemma KeptReflexive(d: Disk)
    ensures Kept(d, d)
  {
  }

  lemma {:induction false} FirstFreeIsFree(taken: set<nat>, from: nat)
    ensures var u := FirstFree(taken, from);
            u.Some? ==> from <= u.value < UID_END && u.value !in taken
    decreases UID_END - from
  {
    if from < UID_END && from in taken {
      FirstFreeIsFree(taken, from + 1);
    }
  }

  lemma {:induction false} ReserveIsExclusive(now: Moment, m: Machine, req: CreateRequest)
    requires UidsExclusive(m.disk.identities)
    ensures var r := Reserve(now, m, req);
            && UidsExclusive(r.m.disk.identities) && IdentitiesKept(m.disk.identities, r.m.disk.identities)
            && (r.Done? ==> req.worker in r.m.disk.identities && r.value == r.m.disk.identities[req.worker])
  {
    hide FirstFree, Taken, UidsExclusive, IdentitiesKept;
    FirstFreeIsFree(Taken(now, m.disk), FIRST_UID);
    KeptReflexive(m.disk);
    ReservedHoldsAll(now, m.disk);
    var uid := FirstFree(Taken(now, m.disk), FIRST_UID);
    if req.worker !in m.disk.identities && uid.Some? {
      NewIsExclusive(m.disk.identities, req.worker, Identity(uid.value, Creating, req.operation));
    }
  }

  lemma ReservedHoldsAll(now: Moment, d: Disk)
    ensures forall w | w in d.identities :: d.identities[w].uid in Taken(now, d)
  {
  }

  lemma NewIsExclusive(ids: Identities, worker: Id, record: Identity)
    requires UidsExclusive(ids) && worker !in ids && FIRST_UID <= record.uid < UID_END
    requires forall w | w in ids :: ids[w].uid != record.uid
    ensures UidsExclusive(ids[worker := record]) && IdentitiesKept(ids, ids[worker := record])
  {
  }

  lemma CreateKeepsIdentities(now: Moment, m: Machine, req: CreateRequest)
    requires UidsExclusive(m.disk.identities)
    ensures var d := Create(now, m, req).m.disk;
            UidsExclusive(d.identities) && IdentitiesKept(m.disk.identities, d.identities)
  {
    hide Reserve, Equip, Active;
    var r := Reserve(now, m, req);
    ReserveIsExclusive(now, m, req);
    if r.Done? {
      EquipFrame(now, r.m, req.worker, r.value.uid);
    }
  }

  lemma {:induction false} RevokeListedKeepsProjects(m: Machine, worker: Id, listing: seq<Id>)
    ensures ProjectsKept(m.disk.projects, RevokeListed(m, worker, listing).m.disk.projects)
    decreases |listing|
  {
    if listing != [] {
      var s := RevokeOne(m, worker, listing[0]);
      if s.Done? {
        RevokeListedKeepsProjects(s.m, worker, listing[1..]);
      }
    }
  }

  lemma DisablingKeeps(ids: Identities, worker: Id)
    requires worker in ids && UidsExclusive(ids)
    ensures var after := ids[worker := ids[worker].(state := Disabled)];
            UidsExclusive(after) && IdentitiesKept(ids, after)
  {
  }

  lemma {:induction false} DisableKeeps(now: Moment, m: Machine, req: DisableRequest)
    requires UidsExclusive(m.disk.identities)
    ensures var d := Disable(now, m, req).m.disk;
            && UidsExclusive(d.identities) && IdentitiesKept(m.disk.identities, d.identities)
            && ProjectsKept(m.disk.projects, d.projects)
  {
    hide RevokeListed, UidsExclusive, IdentitiesKept, ProjectsKept, Disable;
    KeptReflexive(m.disk);
    DisableSteps(now, m, req);
    if Known(m.disk, req.worker) {
      DisablingKeeps(m.disk.identities, req.worker);
      if m.fuel >= 2 {
        var n := Machine(Disabling(m.disk, req.worker, true), m.fuel - 2);
        RevokeListedKeepsProjects(n, req.worker, now.listing);
        RevokeListedFrame(n, req.worker, now.listing);
      }
    }
  }

  lemma PrepareKeepsProjects(host: Host, now: Moment, m: Machine, req: PrepareRequest)
    requires Active(m.disk, req.worker)
    ensures ProjectsKept(m.disk.projects, Prepare(host, now, m, req).m.disk.projects)
  {
    hide BuildClone, Active;
    var a := Allocate(m, req);
    if a.Done? {
      BuildCloneFrame(host, now, a.m, req, a.value);
    }
  }

  lemma PrepareKeepsShut(host: Host, now: Moment, m: Machine, req: PrepareRequest)
    requires Active(m.disk, req.worker)
    ensures ShutKept(m.disk.identities, m.disk.projects, m.disk.clones, Prepare(host, now, m, req).m.disk.clones)
  {
    hide BuildClone;
    PrepareFrame(host, now, m, req);
    var a := Allocate(m, req);
    if a.Done? {
      BuildCloneNeedsOwner(host, now, a.m, req, a.value);
    }
  }

  lemma BuildCloneNeedsOwner(host: Host, now: Moment, m: Machine, req: PrepareRequest, project: Project)
    ensures project.worker != req.worker ==> BuildClone(host, now, m, req, project) == Stopped(m)
  {
    hide StoreSeed, CloneSeed, CheckOut, Clean;
  }

  lemma RevokeKeepsProjects(m: Machine, req: RevokeRequest)
    requires req.allocation in m.disk.projects
    ensures ProjectsKept(m.disk.projects, Revoke(m, req, m.disk.projects[req.allocation]).m.disk.projects)
  {
    hide Revoke;
    RevokeShape(m, req, m.disk.projects[req.allocation]);
  }

  /** Changing the clone of an open project of a working identity touches nothing shut. */
  lemma OpenIsNotShut(d: Disk, e: Disk, req: SourceRequest)
    requires OnlyAt(d.clones, e.clones, req.allocation) && Active(d, req.worker)
    requires req.allocation in d.projects && d.projects[req.allocation].worker == req.worker
    requires d.projects[req.allocation].state == Usable || e == d
    ensures ShutKept(d.identities, d.projects, d.clones, e.clones)
  {
  }

  lemma PerformKeeps(host: Host, now: Moment, m: Machine, req: Change)
    requires UidsExclusive(m.disk.identities)
    ensures var d := Perform(host, now, m, req).m.disk;
            UidsExclusive(d.identities) && Kept(m.disk, d)
  {
    hide Create, Disable, Prepare, Revoke, Act, UidsExclusive, IdentitiesKept, ProjectsKept, ShutKept;
    KeptReflexive(m.disk);
    if req.CreateIdentity? {
      CreateFrame(now, m, req);
      CreateKeepsIdentities(now, m, req);
    } else if req.DisableIdentity? {
      DisableFrame(now, m, req);
      DisableKeeps(now, m, req);
    } else if Active(m.disk, req.worker) {
      if req.PrepareClone? {
        PrepareFrame(host, now, m, req);
        PrepareKeepsProjects(host, now, m, req);
        PrepareKeepsShut(host, now, m, req);
      } else if req.allocation in m.disk.projects && m.disk.projects[req.allocation].worker == req.worker {
        var project := m.disk.projects[req.allocation];
        if req.RevokeAccess? {
          RevokeFrame(m, req, project);
          RevokeKeepsProjects(m, req);
        } else if project.state == Usable {
          ActFrame(host.git, now, m, req, project);
          OpenIsNotShut(m.disk, Act(host.git, now, m, req, project).m.disk, req);
        }
      }
    }
  }

  lemma DeliverKeeps(host: Host, d: Disk, x: Delivery)
    requires UidsExclusive(d.identities)
    ensures var e := Deliver(host, d, x).m.disk;
            UidsExclusive(e.identities) && Kept(d, e)
  {
    hide Perform, UidsExclusive, IdentitiesKept, ProjectsKept, ShutKept;
    KeptReflexive(d);
    if !x.req.InspectHealth? {
      var a := Admit(host, Machine(d, x.fuel), x.req);
      if a.Done? {
        PerformKeeps(host, x.now, a.m, x.req);
      }
    }
  }

  /** A shut allocation stays shut. */
  lemma ShutStays(a: Disk, b: Disk, p: Id)
    requires Kept(a, b) && Shut(a.identities, a.projects, p)
    ensures Shut(b.identities, b.projects, p)
  {
  }

  lemma KeptTransitive(a: Disk, b: Disk, c: Disk)
    requires Kept(a, b) && Kept(b, c)
    ensures Kept(a, c)
  {
    forall p | Shut(a.identities, a.projects, p) ensures Untouched(a.clones, c.clones, p) {
      ShutStays(a, b, p);
    }
  }

  lemma BlankIsExclusive()
    ensures UidsExclusive(BLANK.identities)
  {
  }

  lemma {:induction false} ServeExcludes(host: Host, run: seq<Delivery>)
    ensures UidsExclusive(Serve(host, BLANK, run).identities)
    decreases |run|
  {
    hide Deliver, UidsExclusive, Kept;
    if run == [] {
      BlankIsExclusive();
    } else {
      ServeExcludes(host, run[..|run| - 1]);
      DeliverKeeps(host, Serve(host, BLANK, run[..|run| - 1]), run[|run| - 1]);
    }
  }

  lemma {:induction false} ServeKeeps(host: Host, early: seq<Delivery>, late: seq<Delivery>)
    ensures Kept(Serve(host, BLANK, early), Serve(host, BLANK, early + late))
    decreases |late|
  {
    hide Deliver, Kept, UidsExclusive;
    if late == [] {
      assert early + late == early;
      KeptReflexive(Serve(host, BLANK, early));
    } else {
      var shorter, x := late[..|late| - 1], late[|late| - 1];
      assert (early + late)[..|early + late| - 1] == early + shorter;
      ServeKeeps(host, early, shorter);
      ServeExcludes(host, early + shorter);
      DeliverKeeps(host, Serve(host, BLANK, early + shorter), x);
      KeptTransitive(Serve(host, BLANK, early), Serve(host, BLANK, early + shorter), Serve(host, BLANK, early + late));
    }
  }

  /** Managed numbers lie in their range, and are the same only if their workers are. */
  ghost predicate NeverShared(a: Identities, b: Identities) {
    forall v, w | v in a && w in b :: 20000 <= a[v].uid <= 59999 && (a[v].uid == b[w].uid <==> v == w)
  }

  /** Managed numbers lie in their range and are never given to another worker, at any two times. */
  lemma UidsNeverReused(host: Host, early: seq<Delivery>, late: seq<Delivery>)
    ensures NeverShared(Serve(host, BLANK, early).identities, Serve(host, BLANK, early + late).identities)
  {
    hide Serve, ProjectsKept, ShutKept;
    ServeKeeps(host, early, late);
    ServeExcludes(host, early);
    ServeExcludes(host, early + late);
  }

  predicate IsDisabled(d: Disk, w: Id) {
    w in d.identities && d.identities[w].state == Disabled
  }

  /** Disabled is for good. */
  lemma DisabledStaysDisabled(host: Host, early: seq<Delivery>, late: seq<Delivery>, w: Id)
    requires IsDisabled(Serve(host, BLANK, early), w)
    ensures IsDisabled(Serve(host, BLANK, early + late), w)
  {
    hide Serve, ProjectsKept, ShutKept;
    ServeKeeps(host, early, late);
  }

  predicate IsShut(d: Disk, a: Id) {
    Shut(d.identities, d.projects, a)
  }

  /** Still shut, still closed if it was, and the clone as it was. */
  ghost predicate FrozenSince(a: Disk, b: Disk, p: Id) {
    && IsShut(b, p) && Untouched(a.clones, b.clones, p)
    && (p in a.projects && Closed(a.projects[p]) ==> p in b.projects && Closed(b.projects[p]))
  }

  /**
   * Once a project is revoking or revoked, or its worker disabled, it stays so, and no later
   * request changes its sources, index or branch.
   */
  lemma ShutProjectIsFrozen(host: Host, early: seq<Delivery>, late: seq<Delivery>, a: Id)
    requires IsShut(Serve(host, BLANK, early), a)
    ensures FrozenSince(Serve(host, BLANK, early), Serve(host, BLANK, early + late), a)
  {
    hide Serve;
    ServeKeeps(host, early, late);
    ShutStays(Serve(host, BLANK, early), Serve(host, BLANK, early + late), a);
  }

  lemma {:induction false} RevokeListedClosesAll(m: Machine, worker: Id, listing: seq<Id>)
    requires RevokeListed(m, worker, listing).Done?
    ensures forall p | p in listing && p in m.disk.projects && m.disk.projects[p].worker == worker ::
              var d := RevokeListed(m, worker, listing).m.disk;
              p in d.projects && d.projects[p] == m.disk.projects[p].(state := Revoked)
    ensures forall p | p in m.disk.projects && m.disk.projects[p].worker == worker ::
              var d := RevokeListed(m, worker, listing).m.disk;
              p in d.projects && (d.projects[p] == m.disk.projects[p] || d.projects[p] == m.disk.projects[p].(state := Revoked))
    decreases |listing|
  {
    if listing != [] {
      var s := RevokeOne(m, worker, listing[0]);
      RevokeListedClosesAll(s.m, worker, listing[1..]);
    }
  }

  /** A disabling that answers leaves the home with root and every project of the worker revoked. */
  lemma DisableClosesEverything(now: Moment, m: Machine, req: DisableRequest)
    requires (forall p | p in m.disk.projects :: p in now.listing)
    requires Disable(now, m, req).Done?
    ensures var d := Disable(now, m, req).m.disk;
            && req.worker in d.identities && d.identities[req.worker].state == Disabled
            && req.worker in d.homes && d.homes[req.worker] == 0
            && forall p | p in m.disk.projects && m.disk.projects[p].worker == req.worker ::
                 p in d.projects && d.projects[p].state == Revoked
  {
    hide RevokeListed, Disable;
    DisableSteps(now, m, req);
    var n := Machine(Disabling(m.disk, req.worker, true), m.fuel - 2);
    RevokeListedFrame(n, req.worker, now.listing);
    RevokeListedClosesAll(n, req.worker, now.listing);
  }
}
