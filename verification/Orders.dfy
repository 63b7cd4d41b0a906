/** Decisions under independent review, and the life of the paper orders made from them. */
module Orders {
  import opened Checks
  import opened Decimals
  import opened Events
  import opened Ledger

  function Eligible(events: seq<Event>, id: Id): Check {
    Need(id in Roster(events), Forbidden)
  }

  /** An amended decision is made after the amendment and reviewed before its cutoff. */
  function CheckDecisionAmendment(p: Proposal, r: Review, events: seq<Event>): Check {
    var a :- FindAmendment(events, p.executionAmendmentId);
    if a.None? then PASS
    else
      var _ :- Need(p.committedAt.ms >= a.value.recordedAt.ms && r.reviewedAt.ms < AmendmentOf(a.value).decisionCutoff.ms);
      var _ :- Need(p.action != Hold ==> p.targetSession == Some(AmendmentOf(a.value).session));
      PASS
  }

  /** A decision is proposed by one worker and reviewed by another, rostered one, on the same hash. */
  function CheckDecision(e: Event, d: Decision, events: seq<Event>, c: Configuration, hash: Hasher): Check {
    var p, r := d.proposal, d.review;
    var _ :- Need(e.actor.Worker?, Forbidden);
    var _ :- Eligible(events, r.reviewerId);
    var _ :- Need(r.reviewerId != e.actor.workerId && d.proposalHash == hash(OfProposal(p))
            && r.proposalHash == d.proposalHash && r.proposalRevision == p.revision, Conflict);
    var _ :- Need(p.evidenceCutoff.ms <= p.committedAt.ms <= r.reviewedAt.ms <= e.recordedAt.ms);
    var _ :- CheckDecisionAmendment(p, r, events);
    if p.action == Hold then
      var _ :- Need(p.instrumentId.None? && p.quantity.None? && p.targetSession.None? && p.priceGuard.None?);
      PASS
    else
      var _ :- Need(p.instrumentId.Some? && InUniverse(c, p.instrumentId.value) && p.quantity.Some? && p.targetSession.Some?
              && p.priceGuard.Some? && Fixed(p.priceGuard.value) > 0);
      PASS
  }

  function Next(s: Status): set<Status> {
    match s
    case Proposed => {Validated, RejectedOrder, Cancelled}
    case Validated => {Pending, RejectedOrder, Expired, Cancelled}
    case Pending => {Filled, RejectedOrder, Expired, Cancelled}
    case _ => {}
  }

  predicate Terminal(s: Status) {
    Next(s) == {}
  }

  function SideOf(a: Action): Option<Side> {
    match a
    case BuyAction => Some(Buy)
    case SellAction => Some(Sell)
    case Hold => None
  }

  /** The terms are the decision's own, and an order that goes ahead has an approving review. */
  function CheckOrderTerms(p: Order, d: Decision, c: Configuration, hash: Hasher): Check {
    var t, q := p.terms, d.proposal;
    var _ :- Need(SideOf(q.action) == Some(t.side) && q.instrumentId == Some(t.instrumentId) && q.quantity == Some(t.quantity)
            && q.targetSession == Some(t.targetSession) && q.priceGuard == Some(t.priceGuard)
            && d.proposalHash == t.proposalHash, Conflict);
    var _ :- Need(t.configurationHash == hash(OfConfiguration(c)) && Fixed(t.priceGuard) > 0
            && q.committedAt.ms <= t.deadline.ms < t.expiresAt.ms);
    var _ :- Need(t.expiresAt.ms - t.deadline.ms <= (c.maxOpeningWaitSeconds + c.cutoffMinutes * 60) * 1000);
    var _ :- Need(p.status == RejectedOrder || d.review.disposition == Approve);
    var _ :- Need(q.executionAmendmentId == t.executionAmendmentId && (t.executionAmendmentId.Some? <==> t.lockedAt.Some?), Conflict);
    PASS
  }

  function CheckOrderAmendment(p: Order, d: Decision, a: Option<Event>): Check
    requires a.Some? ==> IsAmendment(a.value)
  {
    if a.None? then PASS
    else
      var t, m := p.terms, AmendmentOf(a.value);
      var _ :- Need(t.lockedAt.Some? && t.targetSession == m.session && t.deadline == m.decisionCutoff
              && t.expiresAt == m.expiresAt && t.lockedAt.value.ms >= d.review.reviewedAt.ms
              && t.lockedAt.value.ms < m.decisionCutoff.ms);
      PASS
  }

  /** A revision follows the latest one; a first revision starts the order. */
  function CheckRevision(e: Event, p: Order, prior: Option<Event>, amended: bool): Check
    requires prior.Some? ==> prior.value.payload.PaperOrder?
  {
    if prior.Some? then
      var q := prior.value.payload.order;
      var _ :- Need(p.revision == q.revision + 1 && p.previousEventId == Some(prior.value.eventId)
              && p.status in Next(q.status), Conflict);
      var _ :- Need(p.terms == q.terms, Conflict);
      PASS
    else
      var _ :- Need(p.revision == 1 && p.previousEventId.None? && p.status in {Proposed, RejectedOrder});
      var _ :- Need(amended ==> p.terms.lockedAt == Some(e.recordedAt));
      PASS
  }

  predicate Fills(t: Transaction, orderId: Id, revision: int) {
    t.fill.Some? && t.fill.value.orderId == orderId && t.fill.value.orderRevision == revision
  }

  predicate SameSlot(e: Event, p: Order) {
    && e.payload.PaperOrder?
    && e.payload.order.terms.decisionId == p.terms.decisionId
    && e.payload.order.terms.decisionRevision == p.terms.decisionRevision
    && e.payload.order.terms.orderIndex == p.terms.orderIndex
    && e.payload.order.orderId != p.orderId
  }

  function CheckOrder(e: Event, p: Order, events: seq<Event>, records: Records, c: Configuration, hash: Hasher): Check {
    var decision :- Lookup(DecisionKey(p.terms.decisionId, p.terms.decisionRevision), records);
    var _ :- Need(decision.payload.DecisionPublished?);
    var d := decision.payload.decision;
    var _ :- CheckOrderTerms(p, d, c, hash);
    var a :- FindAmendment(events, p.terms.executionAmendmentId);
    var _ :- CheckOrderAmendment(p, d, a);
    var _ :- CheckRevision(e, p, LatestOrder(events, p.orderId), a.Some?);
    var journal := Journal(events);
    var _ :- Need(p.status == Filled ==> exists i | 0 <= i < |journal| :: Fills(journal[i], p.orderId, p.revision - 1),
            DependencyNotReady);
    var _ :- Need(forall i | 0 <= i < |events| :: !SameSlot(events[i], p), Conflict);
    var _ :- Need(p.status in {RejectedOrder, Cancelled, Expired, Filled} ==>
              Fixed(p.reservedCash) == 0 && Fixed(p.reservedQuantity) == 0);
    var _ :- Need(p.status in {RejectedOrder, Cancelled, Expired} ==> p.reason.Some?);
    PASS
  }
}
