/** The life of an order across an accepted history, and the evidence behind every fill. */
module Lifecycle {
  import opened Checks
  import opened Decimals
  import opened Events
  import opened Ledger
  import opened Orders
  import opened Snapshots
  import opened Publication
  import opened History

  /** The revisions of an order, in order of arrival. */
  function Revisions(h: seq<Event>, id: Id): seq<Order> {
    if h == [] then []
    else
      var last := h[|h| - 1];
      Revisions(h[..|h| - 1], id) + if IsOrderOf(last, id) then [last.payload.order] else []
  }

  /** How far a status is along the life of an order. */
  function Rank(s: Status): nat {
    match s
    case Proposed => 0
    case Validated => 1
    case Pending => 2
    case _ => 3
  }

  /** The revisions of one order: numbered from one, moving forward, on unchanging terms. */
  ghost predicate Regular(rs: seq<Order>) {
    && (forall i | 0 <= i < |rs| :: rs[i].revision == i + 1 && rs[i].terms == rs[0].terms)
    && (forall i | 0 <= i < |rs| - 1 :: rs[i + 1].status in Next(rs[i].status))
    && (rs != [] ==> rs[0].status in {Proposed, RejectedOrder})
  }

  lemma {:induction false} LatestIsLast(h: seq<Event>, id: Id)
    ensures LatestOrder(h, id).None? <==> Revisions(h, id) == []
    ensures LatestOrder(h, id).Some? ==>
              LatestOrder(h, id).value.payload.order == Revisions(h, id)[|Revisions(h, id)| - 1]
  {
    if h != [] {
      LatestIsLast(h[..|h| - 1], id);
    }
  }

  /** What the guards on an order say, one by one. */
  lemma OrderChecked(e: Event, p: Order, events: seq<Event>, records: Records, c: Configuration, hash: Hasher)
    returns (amended: bool)
    requires CheckOrder(e, p, events, records, c, hash).Ok?
    ensures var k := DecisionKey(p.terms.decisionId, p.terms.decisionRevision);
            && k in records && records[k].payload.DecisionPublished?
            && CheckOrderTerms(p, records[k].payload.decision, c, hash).Ok?
    ensures CheckRevision(e, p, LatestOrder(events, p.orderId), amended).Ok?
    ensures p.status == Filled ==> exists i | 0 <= i < |Journal(events)| :: Fills(Journal(events)[i], p.orderId, p.revision - 1)
  {
    hide CheckOrderTerms, CheckOrderAmendment, CheckRevision, FindAmendment, Fixed, SameSlot, LatestOrder, Journal;
    amended := FindAmendment(events, p.terms.executionAmendmentId).value.Some?;
  }

  /** A revision continues the one before it, or is a first one; "filled" needs the fill. */
  ghost predicate Continues(p: Order, before: seq<Event>) {
    var prior := LatestOrder(before, p.orderId);
    && (prior.Some? ==>
          var q := prior.value.payload.order;
          p.revision == q.revision + 1 && p.terms == q.terms && p.status in Next(q.status))
    && (prior.None? ==> p.revision == 1 && p.status in {Proposed, RejectedOrder})
    && (p.status == Filled ==> exists i | 0 <= i < |Journal(before)| :: Fills(Journal(before)[i], p.orderId, p.revision - 1))
  }

  /** What admission says about a revision of an order. */
  lemma RevisionGuards(e: Event, p: Order, before: seq<Event>, hash: Hasher)
    requires Admissible(e, before, hash) && e.payload == PaperOrder(p)
    ensures Continues(p, before)
  {
    hide Admissible, Accepted, CheckOrder, CheckDecision, CheckLedger, CheckSnapshot, CheckOrderTerms, PublicRecords,
      RunEvent, LatestOrder, Journal, Next;
    AdmittedPassed(e, before, hash);
    var _ := OrderChecked(e, p, before, PublicRecords(before), RunOf(before).value.configuration, hash);
  }

  lemma {:induction false} OrdersAreRegular(h: seq<Event>, id: Id, hash: Hasher)
    requires Accepted(h, hash)
    ensures Regular(Revisions(h, id))
  {
    hide Admissible, Accepted, Next, LatestOrder, Journal, Regular;
    if h == [] {
      NoRevisions();
    } else {
      var before, e := h[..|h| - 1], h[|h| - 1];
      assert h == before + [e] + [];
      AcceptedAt(h, before, e, [], hash);
      OrdersAreRegular(before, id, hash);
      if IsOrderOf(e, id) {
        RevisionGuards(e, e.payload.order, before, hash);
        LatestIsLast(before, id);
        RegularExtends(Revisions(before, id), e.payload.order);
      } else {
        assert Revisions(h, id) == Revisions(before, id);
      }
    }
  }

  lemma NoRevisions()
    ensures Regular([])
  {
  }

  lemma RegularExtends(rs: seq<Order>, p: Order)
    requires Regular(rs)
    requires rs == [] ==> p.revision == 1 && p.status in {Proposed, RejectedOrder}
    requires rs != [] ==> var q := rs[|rs| - 1]; p.revision == q.revision + 1 && p.terms == q.terms && p.status in Next(q.status)
    ensures Regular(rs + [p])
  {
    hide Next;
  }

  lemma {:induction false} RankGrows(rs: seq<Order>, i: nat)
    requires Regular(rs) && i < |rs|
    ensures i <= Rank(rs[i].status) <= 3
  {
    if i > 0 {
      RankGrows(rs, i - 1);
      assert rs[i - 1 + 1].status in Next(rs[i - 1].status);
    }
  }

  /** At most four revisions, and a terminal status is the last. */
  ghost predicate WholeLife(rs: seq<Order>) {
    Regular(rs) && |rs| <= 4 && forall i | 0 <= i < |rs| :: Terminal(rs[i].status) ==> i == |rs| - 1
  }

  /**
   * Every order of an accepted history has at most four revisions, numbered from one, on one set
   * of terms, each following from the one before; a terminal status is the last.
   */
  lemma OrderLifecycle(h: seq<Event>, id: Id, hash: Hasher)
    requires Accepted(h, hash)
    ensures WholeLife(Revisions(h, id))
  {
    hide Revisions, Accepted;
    OrdersAreRegular(h, id, hash);
    var rs := Revisions(h, id);
    if rs != [] {
      RankGrows(rs, |rs| - 1);
    }
    forall i | 0 <= i < |rs| ensures Terminal(rs[i].status) ==> i == |rs| - 1 {
      if i < |rs| - 1 {
        assert rs[i + 1].status in Next(rs[i].status);
      }
    }
  }

  // Fills

  /** The registry gives an order under its own identifier and revision. */
  lemma RegisteredOrder(h: seq<Event>, id: Id, revision: nat, e: Event, o: Order)
    requires Lookup(OrderKey(id, revision), PublicRecords(h)) == Ok(e) && e.payload == PaperOrder(o)
    ensures o.orderId == id && o.revision == revision && e in h
  {
    RecordsOfHistory(h, OrderKey(id, revision));
    hide PublicRecords;
  }

  /** The order is pending, and the fill carries its terms. */
  predicate Matches(o: Order, f: Fill) {
    && o.status == Pending && o.terms.decisionId == f.decisionId && o.terms.decisionRevision == f.decisionRevision
    && o.terms.instrumentId == f.instrumentId && o.terms.side == f.side && o.terms.quantity == f.quantity
  }

  /** A first fill of the latest revision of an order, within its times. */
  ghost predicate Executes(t: Transaction, f: Fill, o: Order, before: seq<Event>) {
    && !HasFill(Journal(before), f.orderId) && Matches(o, f)
    && LatestOrder(before, f.orderId).Some? && LatestOrder(before, f.orderId).value.payload.order == o
    && o.orderId == f.orderId && o.revision == f.orderRevision && RunOf(before).Some?
    && CheckFillTimes(t, f, o, before, PublicRecords(before), RunOf(before).value.configuration).Ok?
  }

  /** What admission says about a fill and the order it executes. */
  lemma FillGuards(e: Event, t: Transaction, f: Fill, before: seq<Event>, hash: Hasher) returns (o: Order)
    requires Accepted(before, hash) && Admissible(e, before, hash) && e.payload == LedgerPosted(t) && t.fill == Some(f)
    ensures Executes(t, f, o, before)
  {
    hide Admissible, Accepted, CheckFillTimes, CheckLedger, CheckDecision, CheckOrder, CheckSnapshot, PublicRecords,
      LatestOrder, FindEvent, Journal, RunEvent, HasFill, Lookup, Matches;
    AdmittedPassed(e, before, hash);
    var order, latest;
    o, order, latest := FillChecked(t, f, before, PublicRecords(before), RunOf(before).value.configuration, hash);
    RegisteredOrder(before, f.orderId, f.orderRevision, order, o);
    FindIsUnique(before, order, hash);
    FindIsUnique(before, latest, hash);
  }

  lemma FillChecked(t: Transaction, f: Fill, before: seq<Event>, records: Records, c: Configuration, hash: Hasher)
    returns (o: Order, order: Event, latest: Event)
    requires CheckLedger(t, before, records, c, hash).Ok? && t.fill == Some(f)
    ensures CheckFillTimes(t, f, o, before, records, c).Ok? && Matches(o, f) && !HasFill(Journal(before), f.orderId)
    ensures Lookup(OrderKey(f.orderId, f.orderRevision), records) == Ok(order) && order.payload == PaperOrder(o)
    ensures LatestOrder(before, f.orderId) == Some(latest) && latest.eventId == order.eventId
  {
    hide CheckFillTimes, CheckFillPrice, CheckFillPostings, CheckAction, StateOf, CheckLink, LatestOrder, Journal, HasFill,
      WellAddressed, DistinctEntries, AmountOf;
    order := records[OrderKey(f.orderId, f.orderRevision)];
    o, latest := order.payload.order, LatestOrder(before, f.orderId).value;
  }

  /** No order is filled by two transactions. */
  ghost predicate FilledOnce(journal: seq<Transaction>) {
    forall i, k | 0 <= i < k < |journal| && journal[i].fill.Some? && journal[k].fill.Some? ::
      journal[i].fill.value.orderId != journal[k].fill.value.orderId
  }

  /** An order is filled at most once. */
  lemma {:induction false} AtMostOneFill(h: seq<Event>, hash: Hasher)
    requires Accepted(h, hash)
    ensures FilledOnce(Journal(h))
  {
    hide CheckFillTimes, PublicRecords, Admissible, Accepted;
    if h != [] {
      var before, e := h[..|h| - 1], h[|h| - 1];
      assert h == before + [e] + [];
      AcceptedAt(h, before, e, [], hash);
      AtMostOneFill(before, hash);
      if e.payload.LedgerPosted? {
        var t := e.payload.transaction;
        assert Journal(h) == Journal(before) + [t];
        if t.fill.Some? {
          var _ := FillGuards(e, t, t.fill.value, before, hash);
        }
      } else {
        assert Journal(h) == Journal(before);
      }
    }
  }

  /** The numbered revision exists and was pending. */
  predicate WasPending(rs: seq<Order>, revision: nat) {
    0 < revision <= |rs| && rs[revision - 1].status == Pending
  }

  /** A fill in the journal executed a revision its order really had, while it was pending. */
  lemma {:induction false} FillsExecutePending(h: seq<Event>, t: Transaction, f: Fill, hash: Hasher)
    requires Accepted(h, hash) && t in Journal(h) && t.fill == Some(f)
    ensures WasPending(Revisions(h, f.orderId), f.orderRevision)
  {
    hide CheckFillTimes, PublicRecords, Admissible, Accepted, Regular;
    var before, e := h[..|h| - 1], h[|h| - 1];
    assert h == before + [e] + [];
    AcceptedAt(h, before, e, [], hash);
    if t in Journal(before) {
      FillsExecutePending(before, t, f, hash);
    } else {
      var o := FillGuards(e, t, f, before, hash);
      LatestIsLast(before, f.orderId);
      OrdersAreRegular(before, f.orderId, hash);
      LastRevision(Revisions(before, f.orderId), o);
    }
  }

  lemma LastRevision(rs: seq<Order>, o: Order)
    requires Regular(rs) && rs != [] && rs[|rs| - 1] == o
    ensures o.revision == |rs|
  {
    hide Next;
  }

  /** The one fill is in the journal, against the revision just before, which was pending. */
  ghost predicate FilledJustBefore(p: Order, before: seq<Event>) {
    && (exists k | 0 <= k < |Journal(before)| :: Fills(Journal(before)[k], p.orderId, p.revision - 1))
    && LatestOrder(before, p.orderId).Some?
    && LatestOrder(before, p.orderId).value.payload.order.revision == p.revision - 1
    && LatestOrder(before, p.orderId).value.payload.order.status == Pending
  }

  ghost predicate FilledIsFilled(h: seq<Event>) {
    forall i | 0 <= i < |h| && h[i].payload.PaperOrder? && h[i].payload.order.status == Filled ::
      FilledJustBefore(h[i].payload.order, h[..i])
  }

  /** "Filled" is published only after the one fill, against the revision just before it. */
  lemma FilledMeansFilled(h: seq<Event>, hash: Hasher)
    requires Accepted(h, hash)
    ensures FilledIsFilled(h)
  {
    hide Admissible, Accepted, Journal, LatestOrder;
    forall i | 0 <= i < |h| && h[i].payload.PaperOrder? && h[i].payload.order.status == Filled
      ensures FilledJustBefore(h[i].payload.order, h[..i])
    {
      AcceptedAt(h, h[..i], h[i], h[i + 1..], hash);
      RevisionGuards(h[i], h[i].payload.order, h[..i], hash);
    }
  }

  // Evidence

  /** The decision published under a key, with what its own admission established. */
  ghost predicate Reviewed(d: Event, before: seq<Event>, hash: Hasher) {
    && d.payload.DecisionPublished? && d.actor.Worker?
    && var p, r := d.payload.decision.proposal, d.payload.decision.review;
       && r.reviewerId in Roster(before) && r.reviewerId != d.actor.workerId && d.actor.workerId in Roster(before)
       && d.payload.decision.proposalHash == hash(OfProposal(p)) && r.proposalHash == d.payload.decision.proposalHash
       && r.proposalRevision == p.revision
       && p.evidenceCutoff.ms <= p.committedAt.ms <= r.reviewedAt.ms <= d.recordedAt.ms
  }

  lemma DecisionIsReviewed(d: Event, before: seq<Event>, hash: Hasher)
    requires Admissible(d, before, hash) && d.payload.DecisionPublished?
    ensures Reviewed(d, before, hash)
  {
    hide Admissible, Accepted, CheckOrder, CheckLedger, CheckSnapshot, CheckDecisionAmendment, Fixed, RunEvent, Roster, InUniverse,
      PublicRecords, StateOf, Refs, RecordKeys;
    AdmittedPassed(d, before, hash);
    AdmittedJoins(d, before, hash);
  }

  /** The order carries the decision's own terms, and the decision was approved. */
  ghost predicate Carries(o: Order, d: Decision) {
    && d.proposal.decisionId == o.terms.decisionId && d.proposal.revision == o.terms.decisionRevision
    && SideOf(d.proposal.action) == Some(o.terms.side) && d.proposal.instrumentId == Some(o.terms.instrumentId)
    && d.proposal.quantity == Some(o.terms.quantity) && d.proposalHash == o.terms.proposalHash
    && (o.status != RejectedOrder ==> d.review.disposition == Approve)
  }

  ghost predicate CarriesRegistered(o: Order, records: Records) {
    var k := DecisionKey(o.terms.decisionId, o.terms.decisionRevision);
    k in records && records[k].payload.DecisionPublished? && Carries(o, records[k].payload.decision)
  }

  lemma OrderCarriesDecision(e: Event, o: Order, before: seq<Event>, hash: Hasher)
    requires Admissible(e, before, hash) && e.payload == PaperOrder(o)
    ensures CarriesRegistered(o, PublicRecords(before))
  {
    hide Admissible, Accepted, CheckOrder, CheckDecision, CheckLedger, CheckSnapshot, CheckRevision, Fixed, PublicRecords, RunEvent,
      LatestOrder, Journal;
    AdmittedPassed(e, before, hash);
    RecordsOfHistory(before, DecisionKey(o.terms.decisionId, o.terms.decisionRevision));
    var _ := OrderChecked(e, o, before, PublicRecords(before), RunOf(before).value.configuration, hash);
  }

  /** Committed by the deadline, the deadline before the market, and all of it recorded before the order expires. */
  predicate Timely(t: Transaction, f: Fill, o: Order, committedAt: Time, c: Configuration) {
    && committedAt.ms <= o.terms.deadline.ms <= f.observation.marketAt.ms - c.cutoffMinutes * 60000
    && o.terms.deadline.ms < f.observation.marketAt.ms <= f.observation.retrievedAt.ms
    && f.observation.retrievedAt.ms <= t.recordedAt.ms <= o.terms.expiresAt.ms
    && t.effectiveAt.ms == f.observation.marketAt.ms
  }

  /** The decision and the order a fill of this configuration goes back to in the history before it. */
  ghost predicate Traced(h: seq<Event>, t: Transaction, c: Configuration, d: nat, o: nat, hash: Hasher) {
    && d < o < |h| && t.fill.Some? && h[o].payload.PaperOrder? && Reviewed(h[d], h[..d], hash)
    && var f, order, decision := t.fill.value, h[o].payload.order, h[d].payload.decision;
       && Carries(order, decision) && decision.review.disposition == Approve && order.status == Pending
       && order.orderId == f.orderId && order.revision == f.orderRevision
       && decision.proposal.decisionId == f.decisionId && decision.proposal.revision == f.decisionRevision
       && SideOf(decision.proposal.action) == Some(f.side) && decision.proposal.instrumentId == Some(f.instrumentId)
       && decision.proposal.quantity == Some(f.quantity)
       && decision.proposal.evidenceCutoff.ms <= decision.proposal.committedAt.ms
       && Timely(t, f, order, decision.proposal.committedAt, c)
  }

  lemma FillTimes(t: Transaction, f: Fill, o: Order, before: seq<Event>, records: Records, c: Configuration, e: Event, d: Decision)
    requires CheckFillTimes(t, f, o, before, records, c).Ok?
    requires Lookup(DecisionKey(f.decisionId, f.decisionRevision), records) == Ok(e) && e.payload == DecisionPublished(d)
    ensures Timely(t, f, o, d.proposal.committedAt, c)
  {
    hide FindInstrument, Fixed, FindAmendment;
  }

  ghost predicate TracedFill(h: seq<Event>, t: Transaction, hash: Hasher) {
    RunOf(h).Some? && exists d, o :: Traced(h, t, RunOf(h).value.configuration, d, o, hash)
  }

  /**
   * Every accepted fill traces to one earlier decision: approved by a rostered reviewer other
   * than its author on the same proposal hash and revision, carried through the order, with
   * evidence, commitment, deadline, market, retrieval and record times in order.
   */
  lemma FillIsTraced(h: seq<Event>, before: seq<Event>, e: Event, rest: seq<Event>, t: Transaction, hash: Hasher)
    requires Accepted(h, hash) && h == before + [e] + rest && e.payload == LedgerPosted(t) && t.fill.Some?
    ensures TracedFill(before, t, hash)
  {
    hide Admissible, Accepted, Executes, Traced, CarriesRegistered, Decides, Reviewed, PublicRecords, LatestOrder, Matches,
      TracedFill;
    var f := t.fill.value;
    AcceptedAt(h, before, e, rest, hash);
    var order := FillGuards(e, t, f, before, hash);
    ExecutedOrder(t, f, order, before);
    var n := OrderEventAt(before, f.orderId, order);
    var early := before[..n];
    AcceptedAt(before, early, before[n], before[n + 1..], hash);
    OrderCarriesDecision(before[n], order, early, hash);
    var d := DecisionEvent(before, early, order, f, hash);
    var i :| 0 <= i < |early| && early[i] == d;
    AcceptedAt(before, before[..i], d, before[i + 1..], hash);
    ItDecides(d, order);
    DecisionIsReviewed(d, before[..i], hash);
    FillTraces(before, t, f, order, d, i, before[..i], n, hash);
  }

  lemma ItDecides(d: Event, order: Order)
    requires Decides(d, order)
    ensures d.payload.DecisionPublished?
  {
  }

  lemma ExecutedOrder(t: Transaction, f: Fill, order: Order, before: seq<Event>)
    requires Executes(t, f, order, before)
    ensures exists e: Event :: LatestOrder(before, f.orderId) == Some(e) && e.payload == PaperOrder(order)
    ensures Matches(order, f) && RunOf(before).Some?
  {
    hide CheckFillTimes, PublicRecords, Journal, RunEvent;
    assert LatestOrder(before, f.orderId) == Some(LatestOrder(before, f.orderId).value);
  }

  /** The event decides what the order carries. */
  ghost predicate Decides(d: Event, order: Order) {
    d.payload.DecisionPublished? && Carries(order, d.payload.decision)
  }

  /** The decision an order carries stands before the order, and is the one its fill names. */
  lemma DecisionEvent(before: seq<Event>, early: seq<Event>, order: Order, f: Fill, hash: Hasher) returns (d: Event)
    requires Accepted(before, hash) && early <= before && CarriesRegistered(order, PublicRecords(early)) && Matches(order, f)
    ensures d in early && Decides(d, order)
    ensures Lookup(DecisionKey(f.decisionId, f.decisionRevision), PublicRecords(before)) == Ok(d)
  {
    hide Accepted, PublicRecords, RecordKeys, Carries;
    var k := DecisionKey(f.decisionId, f.decisionRevision);
    RecordsOfHistory(early, k);
    d := PublicRecords(early)[k];
    LookupIsUnique(before, k, d, hash);
  }

  /** An event of the history, with the history before it. */
  ghost predicate Stands(e: Event, i: nat, h: seq<Event>, before: seq<Event>) {
    i < |h| && h[i] == e && before == h[..i]
  }

  lemma FillTraces(h: seq<Event>, t: Transaction, f: Fill, order: Order, d: Event, i: nat, early: seq<Event>, n: nat, hash: Hasher)
    requires t.fill == Some(f) && Executes(t, f, order, h) && i < n < |h| && OrderAt(h, n, order)
    requires Stands(d, i, h, early) && Decides(d, order) && Reviewed(d, early, hash)
    requires Lookup(DecisionKey(f.decisionId, f.decisionRevision), PublicRecords(h)) == Ok(d)
    ensures TracedFill(h, t, hash)
  {
    hide CheckFillTimes, PublicRecords, Roster, RunEvent, LatestOrder, Journal, HasFill, Lookup, Timely;
    FillTimes(t, f, order, h, PublicRecords(h), RunOf(h).value.configuration, d, d.payload.decision);
    assert Traced(h, t, RunOf(h).value.configuration, i, n, hash);
  }

  predicate OrderAt(h: seq<Event>, n: nat, order: Order) {
    n < |h| && h[n].payload == PaperOrder(order)
  }

  lemma OrderEventAt(h: seq<Event>, id: Id, order: Order) returns (n: nat)
    requires exists e: Event :: LatestOrder(h, id) == Some(e) && e.payload == PaperOrder(order)
    ensures OrderAt(h, n, order)
  {
    n :| 0 <= n < |h| && h[n] == LatestOrder(h, id).value;
  }

  /**
   * A ledger posting in between has no influence on the verdict on an order revision other than
   * "filled": a pending order may expire or be cancelled after its fill just as before it.
   */
  lemma FillDoesNotBlockExpiry(e: Event, p: Order, events: seq<Event>, posting: Event, records: Records, c: Configuration,
                               hash: Hasher)
    requires posting.payload.LedgerPosted? && p.status != Filled
    ensures CheckOrder(e, p, events + [posting], Register(records, posting), c, hash)
         == CheckOrder(e, p, events, records, c, hash)
  {
    hide CheckOrderTerms, CheckOrderAmendment, CheckRevision, Fixed, Journal, SameSlot, LatestOrder, FindAmendment, Register;
    var later := events + [posting];
    PostingIsNoOrder(p, events, posting);
    assert (forall i | 0 <= i < |later| :: !SameSlot(later[i], p)) <==> (forall i | 0 <= i < |events| :: !SameSlot(events[i], p)) by {
      assert forall i | 0 <= i < |events| :: later[i] == events[i];
    }
    assert Lookup(DecisionKey(p.terms.decisionId, p.terms.decisionRevision), Register(records, posting))
        == Lookup(DecisionKey(p.terms.decisionId, p.terms.decisionRevision), records) by {
      PostingIsNoDecision(p, records, posting);
    }
    hide Lookup;
  }

  lemma PostingIsNoOrder(p: Order, events: seq<Event>, posting: Event)
    requires posting.payload.LedgerPosted?
    ensures var later := events + [posting];
            && LatestOrder(later, p.orderId) == LatestOrder(events, p.orderId)
            && FindAmendment(later, p.terms.executionAmendmentId) == FindAmendment(events, p.terms.executionAmendmentId)
            && !SameSlot(posting, p)
  {
    assert (events + [posting])[..|events|] == events;
  }

  lemma PostingIsNoDecision(p: Order, records: Records, posting: Event)
    requires posting.payload.LedgerPosted?
    ensures var key := DecisionKey(p.terms.decisionId, p.terms.decisionRevision);
            Lookup(key, Register(records, posting)) == Lookup(key, records)
  {
    var key := DecisionKey(p.terms.decisionId, p.terms.decisionRevision);
    assert key !in RecordKeys(posting);
  }
}
