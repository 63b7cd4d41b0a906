/**
 * The records of an investment publication: immutable events, their payloads, the identities
 * they register and the references they carry. A field named `rest` stands for the members
 * no rule inspects; it takes part in equality and hashing only.
 */
module Events {
  import opened Checks
  import opened Decimals

  type Id = string

  /** A calendar date, as a day number. */
  type Date = int

  /** An instant in milliseconds; one instant has two spellings, with and without milliseconds. */
  datatype Time = Time(ms: int, spelledMillis: bool)

  const DAY := 86_400_000

  function DateOf(t: Time): Date {
    t.ms / DAY
  }

  datatype Actor = System | Owner | Worker(workerId: Id)

  datatype RecordKind =
    | EventRecord | DiscussionRecord | ContributionRecord | DecisionRecord | ReviewRecord | OrderRecord
    | TransactionRecord | ArtifactRecord | ValuationRecord | CorporateActionRecord | InstrumentRecord

  /** One version of a record; the key under which it is registered. */
  datatype RecordKey = RecordKey(kind: RecordKind, id: Id, version: nat)

  datatype Relation = Supports | Challenges | Summarizes | Supersedes | Reviews | ResultsIn | ProducedBy

  datatype RecordRef = RecordRef(key: RecordKey, relation: Relation)

  type Rational = r: RationalParts | r.denominator > 0 witness RationalParts(0, 1)
  datatype RationalParts = RationalParts(numerator: int, denominator: int)

  type Positive = n: int | n > 0 witness 1

  // Configuration

  datatype SymbolPeriod = SymbolPeriod(symbol: string, effectiveFrom: Date, effectiveTo: Option<Date>)

  datatype Instrument = Instrument(
    instrumentId: Id, symbol: string, venue: string, currency: string, sector: string,
    classificationSource: string, symbolHistory: seq<SymbolPeriod>)

  datatype ConfigurationStatus = SyntheticOnly | OwnerApproved

  datatype Configuration = Configuration(
    universe: seq<Instrument>, initialCapital: Amount, benchmarkInstrument: Instrument,
    benchmarkConvention: string, calendarVersion: Id, marketProvider: Id, feed: Id,
    cutoffMinutes: nat, slippageBps: nat, commission: Amount, maxOpeningWaitSeconds: nat,
    positionLimitBps: nat, sectorLimitBps: nat,
    cycleExecutionBudget: nat, dailyExecutionBudget: nat, runExecutionBudget: nat,
    publicationPolicyVersion: Id, heartbeatSeconds: nat, staleSeconds: nat,
    status: ConfigurationStatus, approvalRecordId: Option<Id>, rest: string)

  datatype RunKind = Fixture | PrivateTrial | Official

  datatype Run = Run(
    runKind: RunKind, configuration: Configuration, configurationHash: string, startsAt: Time, endsAt: Time)

  datatype Amendment = Amendment(
    amendmentId: Id, configurationHash: string, session: Date, decisionCutoff: Time, marketAt: Time,
    collectionNotBefore: Time, processNotBefore: Time, expiresAt: Time, rest: string)

  // Decisions and orders

  datatype Action = BuyAction | SellAction | Hold

  datatype Proposal = Proposal(
    decisionId: Id, revision: nat, action: Action, instrumentId: Option<Id>, quantity: Option<Quantity>,
    targetSession: Option<Date>, priceGuard: Option<Amount>, evidenceCutoff: Time, committedAt: Time,
    evidence: seq<RecordRef>, executionAmendmentId: Option<Id>, rest: string)

  datatype Disposition = Approve | Reject | Revise

  datatype Review = Review(
    reviewId: Id, reviewerId: Id, proposalHash: string, proposalRevision: nat, reviewedAt: Time,
    disposition: Disposition, evidence: seq<RecordRef>, rest: string)

  datatype Decision = Decision(proposal: Proposal, proposalHash: string, review: Review)

  datatype Side = Buy | Sell

  datatype Status = Proposed | Validated | Pending | Filled | RejectedOrder | Expired | Cancelled

  /** The terms of an order, which no later revision may change. */
  datatype Terms = Terms(
    decisionId: Id, decisionRevision: nat, proposalHash: string, orderIndex: nat, instrumentId: Id, side: Side,
    quantity: Quantity, targetSession: Date, deadline: Time, expiresAt: Time, priceGuard: Amount,
    configurationHash: string, expectedLedgerVersion: nat, executionAmendmentId: Option<Id>, lockedAt: Option<Time>)

  datatype Order = Order(
    orderId: Id, revision: nat, previousEventId: Option<Id>, terms: Terms, status: Status,
    reason: Option<string>, reservedCash: Amount, reservedQuantity: Amount)

  // Ledger

  datatype ObservedField = RegularOpen | RegularClose

  datatype Observation = Observation(
    instrumentId: Id, venue: string, provider: Id, feed: Id, field: ObservedField, value: Amount, session: Date,
    marketAt: Time, availableAt: Option<Time>, retrievedAt: Time, calendarVersion: Id, rest: string)

  datatype ActionKind = Split | DividendAccrual | DividendPayment | TickerChange | Unsupported

  datatype CorporateAction = CorporateAction(
    actionId: Id, providerActionId: Id, instrumentId: Id, sourceVersion: Id, kind: ActionKind, effectiveAt: Time,
    exDate: Option<Date>, paymentDate: Option<Date>, numerator: Option<Positive>, denominator: Option<Positive>,
    cashPerShare: Option<Amount>, entitledQuantity: Option<Amount>, fractionalEntitlement: Option<Rational>,
    newSymbol: Option<string>, rest: string)

  datatype Account = Cash | QuantityHeld | BookCost | RealizedPnl | Fee | Income | Receivable | Liability | Capital

  datatype Entry = Entry(account: Account, instrumentId: Option<Id>, amount: Decimal)

  datatype Fill = Fill(
    orderId: Id, orderRevision: nat, decisionId: Id, decisionRevision: nat, instrumentId: Id, side: Side,
    quantity: Quantity, price: Amount, fee: Amount, releasedBasis: Amount, roundingAdjustment: Decimal,
    observation: Observation, priceRoundingResidual: Rational, basisRoundingResidual: Rational)

  datatype Effect = Initialization | FillEffect | SplitEffect | AccrualEffect | PaymentEffect | Correction

  datatype Transaction = Transaction(
    transactionId: Id, journalSequence: nat, previousHash: Option<string>, journalHash: string,
    previousLedgerVersion: Option<nat>, ledgerVersion: nat, configurationHash: string, effect: Effect,
    sourceOperationId: Id, effectiveAt: Time, recordedAt: Time, entries: seq<Entry>,
    fill: Option<Fill>, corporateAction: Option<CorporateAction>, correctionOf: Option<RecordRef>)

  // Snapshots

  datatype Holding = Holding(
    instrumentId: Id, symbol: string, sector: string, quantity: Amount, bookCost: Amount,
    mark: Option<Observation>, marketValue: Option<Amount>, unrealizedPnl: Option<Decimal>,
    missingReason: Option<string>)

  datatype Allocation = Allocation(observation: Observation, units: Amount, cash: Amount, recordedAt: Time)

  datatype Recovery = Recovery(amendmentId: Id, allocation: Option<Allocation>)

  datatype Benchmark = Benchmark(
    instrumentId: Id, convention: string, session: Date, units: Amount, cash: Amount, receivables: Amount,
    mark: Option<Observation>, equity: Option<Amount>, totalReturn: Option<Decimal>,
    missingReason: Option<string>, recovery: Option<Recovery>)

  datatype Quality = Complete | Partial | Stale | Blocked

  datatype Snapshot = Snapshot(
    valuationId: Id, valuationSequence: nat, revision: nat, supersedes: Option<RecordRef>, journalSequence: nat,
    journalHash: string, configurationHash: string, valuationAsOf: Time, session: Date, cash: Amount,
    receivables: Amount, liabilities: Amount, holdings: seq<Holding>, equity: Option<Amount>, realizedPnl: Decimal,
    unrealizedPnl: Option<Decimal>, totalReturn: Option<Decimal>, dailyReturn: Option<Decimal>,
    previousComparableEquity: Option<Amount>, peakEquity: Option<Amount>, drawdown: Option<Decimal>,
    maxDrawdown: Option<Decimal>, benchmark: Benchmark, excessReturn: Option<Decimal>, quality: Quality,
    limitations: seq<string>, rest: string)

  // Research records

  datatype ContentType = PlainText | Markdown | Json | Csv | Png

  datatype ArtifactVersion = ArtifactVersion(
    artifactId: Id, version: nat, author: Actor, createdAt: Time, publishedAt: Time, contentType: ContentType,
    sizeBytes: nat, sha256: string, relationships: seq<RecordRef>, supersedes: Option<RecordRef>,
    encodedBytes: nat, rest: string)

  datatype InstrumentUpdate = InstrumentUpdate(
    instrument: Instrument, version: nat, effectiveAt: Time, action: RecordRef, rest: string)

  datatype Payload =
    | RunPublished(run: Run)
    | TeamPublished(workers: seq<Id>)
    | RunStatus(effectiveAt: Time, amendment: Option<Amendment>)
    | WorkerActivity(workerId: Id, work: Option<RecordRef>)
    | DiscussionOpened(discussionId: Id, participants: seq<Id>)
    | Contribution(contributionId: Id, discussionId: Id, ordinal: nat, replyTo: Option<Id>, evidence: seq<RecordRef>)
    | DiscussionClosed(discussionId: Id, synthesis: RecordRef)
    | ArtifactRegistered(artifactId: Id, author: Actor, relationships: seq<RecordRef>)
    | ArtifactPublished(artifact: ArtifactVersion)
    | DecisionPublished(decision: Decision)
    | PaperOrder(order: Order)
    | LedgerPosted(transaction: Transaction)
    | SnapshotPublished(snapshot: Snapshot)
    | OutcomeReview(reviewId: Id, originalDecisions: seq<RecordRef>, observations: seq<RecordRef>)
    | ContentCorrected(prior: RecordRef, replacement: RecordRef)
    | PublicationNotice(affected: seq<RecordRef>)
    | MarketAction(action: CorporateAction)
    | InstrumentUpdated(update: InstrumentUpdate)

  datatype EvidenceMode = SyntheticFixture | ObservedPaper

  datatype Event = Event(
    eventId: Id, experimentId: Id, runId: Id, sourceSequence: nat, occurredAt: Time, recordedAt: Time,
    actor: Actor, policyVersion: Id, evidenceMode: EvidenceMode, references: seq<RecordRef>,
    payload: Payload, rest: string)

  // Hashing

  /** The values a canonical hash is taken of. */
  datatype Canonical =
    | OfConfiguration(configuration: Configuration)
    | OfProposal(proposal: Proposal)
    | OfJournal(transaction: Transaction)
    | OfEvent(event: Event)
    | OfActor(actor: Actor)
    | OfRecovery(recovery: Recovery)
    | OfSymbols(history: seq<SymbolPeriod>)

  type Hasher = Canonical -> string

  ghost predicate CollisionFree(hash: Hasher) {
    forall a, b :: hash(a) == hash(b) ==> a == b
  }

  /** A transaction without its own hash: what its journal hash covers. */
  function Unhashed(t: Transaction): Transaction {
    t.(journalHash := "")
  }

  // Record identities

  function EventKey(e: Event): RecordKey {
    RecordKey(EventRecord, e.eventId, 1)
  }

  function OrderKey(id: Id, revision: nat): RecordKey {
    RecordKey(OrderRecord, id, revision)
  }

  function DecisionKey(id: Id, revision: nat): RecordKey {
    RecordKey(DecisionRecord, id, revision)
  }

  function PayloadKeys(p: Payload): seq<RecordKey> {
    match p
    case DiscussionOpened(id, _) => [RecordKey(DiscussionRecord, id, 1)]
    case Contribution(id, _, _, _, _) => [RecordKey(ContributionRecord, id, 1)]
    case ArtifactRegistered(id, _, _) => [RecordKey(ArtifactRecord, id, 0)]
    case ArtifactPublished(a) => [RecordKey(ArtifactRecord, a.artifactId, a.version)]
    case DecisionPublished(d) =>
      [DecisionKey(d.proposal.decisionId, d.proposal.revision), RecordKey(ReviewRecord, d.review.reviewId, 1)]
    case PaperOrder(o) => [OrderKey(o.orderId, o.revision)]
    case LedgerPosted(t) => [RecordKey(TransactionRecord, t.transactionId, 1)]
    case SnapshotPublished(s) => [RecordKey(ValuationRecord, s.valuationId, s.revision)]
    case OutcomeReview(id, _, _) => [RecordKey(ReviewRecord, id, 1)]
    case MarketAction(a) => [RecordKey(CorporateActionRecord, a.actionId, 1)]
    case InstrumentUpdated(u) => [RecordKey(InstrumentRecord, u.instrument.instrumentId, u.version)]
    case _ => []
  }

  /** Every identity an event registers. */
  function RecordKeys(e: Event): (keys: seq<RecordKey>)
    ensures EventKey(e) in keys
  {
    [EventKey(e)] + PayloadKeys(e.payload)
  }

  type Records = map<RecordKey, Event>

  function Register(records: Records, e: Event): (r: Records)
    ensures forall k | k in RecordKeys(e) :: k in r && r[k] == e
    ensures forall k | k !in RecordKeys(e) :: (k in r <==> k in records) && (k in r ==> r[k] == records[k])
  {
    records + map k | k in RecordKeys(e) :: e
  }

  /** The registry of a whole history; a later event would replace an earlier one. */
  function PublicRecords(events: seq<Event>): Records {
    if events == [] then map[] else Register(PublicRecords(events[..|events| - 1]), events[|events| - 1])
  }

  function Lookup(key: RecordKey, records: Records): Result<Event> {
    var _ :- Need(key in records, DependencyNotReady);
    Ok(records[key])
  }

  // References

  function Optional<T>(o: Option<T>): seq<T> {
    if o.Some? then [o.value] else []
  }

  function PayloadRefs(p: Payload): seq<RecordRef> {
    match p
    case WorkerActivity(_, work) => Optional(work)
    case Contribution(_, _, _, _, evidence) => evidence
    case DiscussionClosed(_, synthesis) => [synthesis]
    case ArtifactRegistered(_, _, relationships) => relationships
    case ArtifactPublished(a) => a.relationships + Optional(a.supersedes)
    case DecisionPublished(d) => d.proposal.evidence + d.review.evidence
    case LedgerPosted(t) => Optional(t.correctionOf)
    case SnapshotPublished(s) => Optional(s.supersedes)
    case OutcomeReview(_, decisions, observations) => decisions + observations
    case ContentCorrected(prior, replacement) => [prior, replacement]
    case PublicationNotice(affected) => affected
    case InstrumentUpdated(u) => [u.action]
    case _ => []
  }

  /** Every record reference anywhere inside an event. */
  function Refs(e: Event): seq<RecordRef> {
    e.references + PayloadRefs(e.payload)
  }

  function RefsIn(e: Event, records: Records): Check {
    var _ :- Need(forall r | r in Refs(e) :: r.key in records, DependencyNotReady);
    PASS
  }

  // Views of a history

  predicate IsRun(e: Event) {
    e.payload.RunPublished?
  }

  /** The first event that publishes the run. */
  function RunEvent(events: seq<Event>): (r: Option<Event>)
    ensures r.Some? ==> r.value in events && IsRun(r.value)
    ensures r.None? ==> forall e | e in events :: !IsRun(e)
  {
    if events == [] then None
    else
      var earlier, last := RunEvent(events[..|events| - 1]), events[|events| - 1];
      if earlier.Some? then earlier else if IsRun(last) then Some(last) else None
  }

  /** The workers of the latest team. */
  function Roster(events: seq<Event>): seq<Id> {
    if events == [] then []
    else
      var last := events[|events| - 1];
      if last.payload.TeamPublished? then last.payload.workers else Roster(events[..|events| - 1])
  }

  predicate IsAmendment(e: Event) {
    e.payload.RunStatus? && e.payload.amendment.Some?
  }

  predicate Amends(e: Event, id: Id) {
    IsAmendment(e) && e.payload.amendment.value.amendmentId == id
  }

  /** The first event that carries the amendment. */
  function AmendmentEvent(events: seq<Event>, id: Id): (r: Option<Event>)
    ensures r.Some? ==> r.value in events && Amends(r.value, id)
  {
    if events == [] then None
    else
      var earlier, last := AmendmentEvent(events[..|events| - 1], id), events[|events| - 1];
      if earlier.Some? then earlier else if Amends(last, id) then Some(last) else None
  }

  /** The ledger transactions, in order of arrival. */
  function Journal(events: seq<Event>): seq<Transaction> {
    if events == [] then []
    else
      var last := events[|events| - 1];
      Journal(events[..|events| - 1]) + if last.payload.LedgerPosted? then [last.payload.transaction] else []
  }

  predicate IsOrderOf(e: Event, id: Id) {
    e.payload.PaperOrder? && e.payload.order.orderId == id
  }

  /** The latest revision of an order. */
  function LatestOrder(events: seq<Event>, id: Id): (r: Option<Event>)
    ensures r.Some? ==> r.value in events && IsOrderOf(r.value, id)
    ensures r.None? ==> forall e | e in events :: !IsOrderOf(e, id)
  {
    if events == [] then None
    else
      var last := events[|events| - 1];
      if IsOrderOf(last, id) then Some(last) else LatestOrder(events[..|events| - 1], id)
  }

  function Snapshots(events: seq<Event>): seq<Snapshot> {
    if events == [] then []
    else
      var last := events[|events| - 1];
      Snapshots(events[..|events| - 1]) + if last.payload.SnapshotPublished? then [last.payload.snapshot] else []
  }

  predicate IsUpdateOf(e: Event, id: Id) {
    e.payload.InstrumentUpdated? && e.payload.update.instrument.instrumentId == id
  }

  /** The updates of one instrument, in order of arrival. */
  function Updates(events: seq<Event>, id: Id): seq<InstrumentUpdate> {
    if events == [] then []
    else
      var last := events[|events| - 1];
      Updates(events[..|events| - 1], id) + if IsUpdateOf(last, id) then [last.payload.update] else []
  }

  function Contributions(events: seq<Event>, discussionId: Id): seq<Id> {
    if events == [] then []
    else
      var last := events[|events| - 1];
      Contributions(events[..|events| - 1], discussionId) +
      if last.payload.Contribution? && last.payload.discussionId == discussionId
      then [last.payload.contributionId] else []
  }

  function FindEvent(events: seq<Event>, id: Id): (r: Option<Event>)
    ensures r.Some? ==> r.value in events && r.value.eventId == id
    ensures r.None? ==> forall e | e in events :: e.eventId != id
  {
    if events == [] then None
    else
      var earlier, last := FindEvent(events[..|events| - 1], id), events[|events| - 1];
      if earlier.Some? then earlier else if last.eventId == id then Some(last) else None
  }
}
