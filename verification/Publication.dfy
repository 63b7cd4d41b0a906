/**
 * Acceptance of publication batches over an append-only history. Events are judged one by one
 * against everything accepted before them; a batch is accepted as a whole or not at all.
 */
module Publication {
  import opened Checks
  import opened Decimals
  import opened Events
  import opened Ledger
  import opened Orders
  import opened Snapshots

  datatype EventType =
    | RunType | TeamType | StatusType | ActivityType | OpenedType | ContributionType | ClosedType | RegisteredType
    | ArtifactType | DecisionType | OrderType | LedgerType | SnapshotType | ReviewType | CorrectedType | NoticeType
    | MarketType | InstrumentType

  function TypeOf(p: Payload): EventType {
    match p
    case RunPublished(_) => RunType
    case TeamPublished(_) => TeamType
    case RunStatus(_, _) => StatusType
    case WorkerActivity(_, _) => ActivityType
    case DiscussionOpened(_, _) => OpenedType
    case Contribution(_, _, _, _, _) => ContributionType
    case DiscussionClosed(_, _) => ClosedType
    case ArtifactRegistered(_, _, _) => RegisteredType
    case ArtifactPublished(_) => ArtifactType
    case DecisionPublished(_) => DecisionType
    case PaperOrder(_) => OrderType
    case LedgerPosted(_) => LedgerType
    case SnapshotPublished(_) => SnapshotType
    case OutcomeReview(_, _, _) => ReviewType
    case ContentCorrected(_, _) => CorrectedType
    case PublicationNotice(_) => NoticeType
    case MarketAction(_) => MarketType
    case InstrumentUpdated(_) => InstrumentType
  }

  datatype Scope = Scope(
    enabled: bool, expiresAt: Time, experimentId: Id, runId: Id, eventTypes: set<EventType>,
    contentTypes: set<ContentType>, policyVersion: Id)

  datatype StagedContent = StagedContent(sha256: string, contentType: ContentType, sizeBytes: nat)

  /**
   * What a batch is judged in. `screen` is the verdict of the public text filter and `localDate`
   * the exchange calendar's date of an instant; both are given, not modelled.
   */
  datatype Context = Context(
    experimentId: Id, runId: Id, now: Time, scope: Scope, history: seq<Event>, content: map<string, StagedContent>,
    receipts: map<Id, string>, screen: Event -> Check, localDate: int -> Date)

  /** A batch with the digest of its exact bytes. */
  datatype Batch = Batch(batchId: Id, experimentId: Id, runId: Id, events: seq<Event>, digest: string)

  // Guards by payload

  function CheckRun(e: Event, run: Run, events: seq<Event>, scope: Scope, hash: Hasher): Check {
    var c := run.configuration;
    var _ :- Need(RunEvent(events).None? && e.actor == System, Conflict);
    var _ :- Need(run.configurationHash == hash(OfConfiguration(c)) && run.startsAt.ms < run.endsAt.ms
                  && Fixed(c.initialCapital) > 0);
    var _ :- Need(c.positionLimitBps <= c.sectorLimitBps
                  && c.cycleExecutionBudget <= c.dailyExecutionBudget <= c.runExecutionBudget);
    var _ :- Need(c.heartbeatSeconds < c.staleSeconds && c.publicationPolicyVersion == scope.policyVersion);
    var _ :- Need(Distinct(InstrumentIds(c.universe)));
    var _ :- Need(if e.evidenceMode == SyntheticFixture
                  then run.runKind == Fixture && c.status == SyntheticOnly && c.approvalRecordId.None?
                  else run.runKind != Fixture && c.status == OwnerApproved && c.approvalRecordId.Some?);
    PASS
  }

  function InstrumentIds(instruments: seq<Instrument>): (ids: seq<Id>)
    ensures |ids| == |instruments| && forall i | 0 <= i < |ids| :: ids[i] == instruments[i].instrumentId
  {
    seq(|instruments|, i requires 0 <= i < |instruments| => instruments[i].instrumentId)
  }

  function CheckContribution(e: Event, p: Payload, events: seq<Event>, records: Records): Check
    requires p.Contribution?
  {
    var discussion :- Lookup(RecordKey(DiscussionRecord, p.discussionId, 1), records);
    var _ :- Need(discussion.payload.DiscussionOpened?);
    var _ :- Need(e.actor.Worker? && e.actor.workerId in discussion.payload.participants, Forbidden);
    var previous := Contributions(events, p.discussionId);
    var _ :- Need(p.ordinal == |previous| + 1, DependencyNotReady);
    var _ :- Need(p.replyTo.Some? ==> p.replyTo.value in previous, DependencyNotReady);
    PASS
  }

  function CheckArtifact(e: Event, p: ArtifactVersion, records: Records, ctx: Context, hash: Hasher): Check {
    var registration :- Lookup(RecordKey(ArtifactRecord, p.artifactId, 0), records);
    var _ :- Need(registration.payload.ArtifactRegistered?
                  && hash(OfActor(registration.payload.author)) == hash(OfActor(p.author)), Forbidden);
    var _ :- Need(p.encodedBytes <= 16384, TooLarge);
    var _ :- Need(hash(OfActor(p.author)) == hash(OfActor(e.actor)), Forbidden);
    var _ :- Need(p.sha256 in ctx.content && ctx.content[p.sha256] == StagedContent(p.sha256, p.contentType, p.sizeBytes)
                  && p.contentType in ctx.scope.contentTypes, DependencyNotReady);
    var _ :- Need(p.sizeBytes <= (if p.contentType == Png then 4194304 else 131072)
                  && p.createdAt.ms <= p.publishedAt.ms <= e.recordedAt.ms);
    if p.version == 1 then
      var _ :- Need(p.supersedes.None?);
      PASS
    else
      var _ :- Need(p.supersedes.Some? && p.supersedes.value.key.kind == ArtifactRecord
                    && p.supersedes.value.key.id == p.artifactId && p.supersedes.value.key.version == p.version - 1);
      PASS
  }

  /** The instrument as last published: its latest update, or its entry in the universe. */
  function PreviousInstrument(updates: seq<InstrumentUpdate>, c: Configuration, id: Id): Option<Instrument> {
    if updates != [] then Some(updates[|updates| - 1].instrument) else FindInstrument(c.universe, id)
  }

  /** The symbol history after a change: the open period is closed and a new one opened. */
  function ChangedSymbols(history: seq<SymbolPeriod>, symbol: string, date: Date): seq<SymbolPeriod>
    requires history != []
  {
    var last := history[|history| - 1];
    history[..|history| - 1] + [last.(effectiveTo := Some(date)), SymbolPeriod(symbol, date, None)]
  }

  function CheckInstrumentUpdate(e: Event, p: InstrumentUpdate, events: seq<Event>, records: Records, c: Configuration,
                                 hash: Hasher): Check {
    var a :- Lookup(p.action.key, records);
    var i := p.instrument;
    var _ :- Need(e.actor == System && a.payload.MarketAction? && a.payload.action.kind == TickerChange
                  && a.payload.action.instrumentId == i.instrumentId && a.payload.action.newSymbol == Some(i.symbol)
                  && a.payload.action.effectiveAt.ms == p.effectiveAt.ms, Conflict);
    var updates := Updates(events, i.instrumentId);
    var previous := PreviousInstrument(updates, c, i.instrumentId);
    var _ :- Need(previous.Some? && p.version == if updates != [] then updates[|updates| - 1].version + 1 else 1);
    var q := previous.value;
    var _ :- Need(i.instrumentId == q.instrumentId && i.venue == q.venue && i.currency == q.currency && i.sector == q.sector
                  && i.classificationSource == q.classificationSource, Conflict);
    var date := DateOf(p.effectiveAt);
    var _ :- Need(q.symbolHistory != [] && q.symbolHistory[|q.symbolHistory| - 1].effectiveTo.None?
                  && q.symbolHistory[|q.symbolHistory| - 1].effectiveFrom < date);
    var _ :- Need(hash(OfSymbols(ChangedSymbols(q.symbolHistory, i.symbol, date))) == hash(OfSymbols(i.symbolHistory)), Conflict);
    PASS
  }

  predicate BlocksAmendment(e: Event) {
    e.payload.DecisionPublished? || e.payload.PaperOrder?
    || (e.payload.LedgerPosted? && e.payload.transaction.effect != Initialization)
  }

  /** The one amendment of a run: before any decision, with every window ordered inside the run. */
  function CheckAmendment(e: Event, effectiveAt: Time, a: Amendment, events: seq<Event>, run: Run, ctx: Context,
                          hash: Hasher): Check {
    var c := run.configuration;
    var _ :- Need(e.actor == System && a.configurationHash == hash(OfConfiguration(c)), Conflict);
    var _ :- Need(forall i | 0 <= i < |events| :: !IsAmendment(events[i]), Conflict);
    var _ :- Need(forall i | 0 <= i < |events| :: !BlocksAmendment(events[i]), Conflict);
    var _ :- Need(e.recordedAt.ms >= run.startsAt.ms && effectiveAt == e.recordedAt
                  && e.recordedAt.ms < a.decisionCutoff.ms
                  && a.marketAt.ms - a.decisionCutoff.ms == c.cutoffMinutes * 60000);
    var _ :- Need(ctx.localDate(a.marketAt.ms) == a.session);
    var _ :- Need(a.collectionNotBefore.ms == a.marketAt.ms + 300000 && a.processNotBefore.ms == a.marketAt.ms + 1200000
                  && a.processNotBefore.ms < a.expiresAt.ms <= run.endsAt.ms
                  && a.expiresAt.ms - a.decisionCutoff.ms <= (c.maxOpeningWaitSeconds + c.cutoffMinutes * 60) * 1000);
    PASS
  }

  /** The amendment an event relies on, if any. */
  function AmendmentIdOf(p: Payload): Option<Id> {
    match p
    case DecisionPublished(d) => d.proposal.executionAmendmentId
    case PaperOrder(o) => o.terms.executionAmendmentId
    case SnapshotPublished(s) =>
      if s.benchmark.recovery.Some? then Some(s.benchmark.recovery.value.amendmentId) else None
    case _ => None
  }

  /** An event that relies on an amendment refers to the event that carries it. */
  function CheckAmendmentReference(e: Event, events: seq<Event>): Check {
    var id := AmendmentIdOf(e.payload);
    if id.None? then PASS
    else
      var carrier := AmendmentEvent(events, id.value);
      Need(carrier.Some? && RecordRef(EventKey(carrier.value), Supports) in e.references, DependencyNotReady)
  }

  /** The rules of each kind of event; only the run itself is accepted before the run. */
  function CheckPayload(e: Event, events: seq<Event>, records: Records, run: Option<Run>, ctx: Context, hash: Hasher): Check
    requires run.None? ==> e.payload.RunPublished?
  {
    match e.payload
    case RunPublished(r) => CheckRun(e, r, events, ctx.scope, hash)
    case TeamPublished(workers) => Need(e.actor == System && Distinct(workers))
    case RunStatus(effectiveAt, a) =>
      if a.None? then PASS else CheckAmendment(e, effectiveAt, a.value, events, run.value, ctx, hash)
    case WorkerActivity(id, _) =>
      var _ :- Eligible(events, id);
      Need(e.actor == System || e.actor == Worker(id))
    case DiscussionOpened(_, participants) => Need(forall id | id in participants :: id in Roster(events), Forbidden)
    case Contribution(_, _, _, _, _) => CheckContribution(e, e.payload, events, records)
    case DiscussionClosed(id, synthesis) =>
      var _ :- Lookup(RecordKey(DiscussionRecord, id, 1), records);
      Need(synthesis.key.kind == ArtifactRecord)
    case ArtifactRegistered(_, author, _) => Need(hash(OfActor(author)) == hash(OfActor(e.actor)), Forbidden)
    case ArtifactPublished(a) => CheckArtifact(e, a, records, ctx, hash)
    case DecisionPublished(d) => CheckDecision(e, d, events, run.value.configuration, hash)
    case PaperOrder(o) => CheckOrder(e, o, events, records, run.value.configuration, hash)
    case LedgerPosted(t) =>
      var _ :- CheckLedger(t, events, records, run.value.configuration, hash);
      Need(e.actor == System)
    case SnapshotPublished(s) =>
      var _ :- CheckSnapshot(s, events, run.value.configuration, e.recordedAt, hash);
      Need(e.actor == System)
    case OutcomeReview(_, _, _) => Need(e.actor.Worker?)
    case ContentCorrected(prior, replacement) => Need(prior.key != replacement.key)
    case PublicationNotice(_) => Need(!e.actor.Worker?)
    case MarketAction(a) => Need(e.actor == System && InUniverse(run.value.configuration, a.instrumentId))
    case InstrumentUpdated(u) => CheckInstrumentUpdate(e, u, events, records, run.value.configuration, hash)
  }

  function RunOf(events: seq<Event>): Option<Run> {
    var e := RunEvent(events);
    if e.Some? then Some(e.value.payload.run) else None
  }

  /** Everything a new event must satisfy after the events accepted before it. */
  function CheckEvent(e: Event, events: seq<Event>, records: Records, ctx: Context, hash: Hasher): Check {
    var run := RunEvent(events);
    var _ :- Need(forall i | 0 <= i < |events| :: events[i].sourceSequence != e.sourceSequence, Conflict);
    var _ :- Need(e.occurredAt.ms <= e.recordedAt.ms <= ctx.now.ms);
    var _ :- ctx.screen(e);
    var _ :- RefsIn(e, records);
    var _ :- Need(e.payload.RunPublished? || (run.Some? && e.evidenceMode == run.value.evidenceMode), DependencyNotReady);
    var _ :- CheckAmendmentReference(e, events);
    var _ :- if e.actor.Worker? then Eligible(events, e.actor.workerId) else PASS;
    var _ :- CheckPayload(e, events, records, RunOf(events), ctx, hash);
    var _ :- Need(forall k | k in RecordKeys(e) :: k !in records, Conflict);
    var _ :- StateOf(events + [e]);
    PASS
  }

  // Batches

  datatype Progress = Progress(events: seq<Event>, acceptedIds: seq<Id>, duplicateIds: seq<Id>)

  /** One event of a batch: a redelivered one must be the same, a new one must be admissible. */
  function Deliver(p: Progress, e: Event, ctx: Context, hash: Hasher): Result<Progress> {
    var existing := FindEvent(p.events, e.eventId);
    if existing.Some? then
      var _ :- Need(hash(OfEvent(existing.value)) == hash(OfEvent(e)), Conflict);
      Ok(p.(duplicateIds := p.duplicateIds + [e.eventId]))
    else
      var _ :- CheckEvent(e, p.events, PublicRecords(p.events), ctx, hash);
      Ok(p.(events := p.events + [e], acceptedIds := p.acceptedIds + [e.eventId]))
  }

  function DeliverAll(p: Progress, batch: seq<Event>, ctx: Context, hash: Hasher): Result<Progress> {
    if batch == [] then Ok(p)
    else
      var q :- DeliverAll(p, batch[..|batch| - 1], ctx, hash);
      Deliver(q, batch[|batch| - 1], ctx, hash)
  }

  function EventIds(events: seq<Event>): (ids: seq<Id>)
    ensures |ids| == |events| && forall i | 0 <= i < |ids| :: ids[i] == events[i].eventId
  {
    seq(|events|, i requires 0 <= i < |events| => events[i].eventId)
  }

  /** What the batch may contain at all, before any event is judged. */
  function CheckEnvelope(batch: Batch, idempotencyKey: Id, ctx: Context): Check {
    var scope := ctx.scope;
    var _ :- Need(forall i | 0 <= i < |ctx.history| ::
                    ctx.history[i].experimentId == ctx.experimentId && ctx.history[i].runId == ctx.runId, Forbidden);
    var _ :- Need(scope.enabled && ctx.now.ms < scope.expiresAt.ms, Forbidden);
    var _ :- Need(scope.experimentId == ctx.experimentId && scope.runId == ctx.runId
                  && batch.experimentId == ctx.experimentId && batch.runId == ctx.runId, Forbidden);
    var _ :- Need(batch.batchId == idempotencyKey, Conflict);
    var _ :- Need(Distinct(EventIds(batch.events)), Conflict);
    var _ :- Need(forall i | 0 <= i < |batch.events| :: InScope(batch.events[i], batch, scope), Forbidden);
    PASS
  }

  predicate InScope(e: Event, batch: Batch, scope: Scope) {
    && TypeOf(e.payload) in scope.eventTypes && e.policyVersion == scope.policyVersion
    && e.experimentId == batch.experimentId && e.runId == batch.runId
  }

  /** The verdict on a batch, with the history the receiver holds afterwards. */
  datatype Outcome = Outcome(history: seq<Event>, acceptedIds: seq<Id>, duplicateIds: seq<Id>, replay: bool)

  function Judge(batch: Batch, idempotencyKey: Id, ctx: Context, hash: Hasher): Result<Outcome> {
    var _ :- CheckEnvelope(batch, idempotencyKey, ctx);
    if batch.batchId in ctx.receipts then
      var _ :- Need(ctx.receipts[batch.batchId] == batch.digest, Conflict);
      Ok(Outcome(ctx.history, [], EventIds(batch.events), true))
    else
      var p :- DeliverAll(Progress(ctx.history, [], []), batch.events, ctx, hash);
      Ok(Outcome(p.events, p.acceptedIds, p.duplicateIds, false))
  }

  lemma {:induction false} DeliveryStops(p: Progress, batch: seq<Event>, rest: seq<Event>, ctx: Context, hash: Hasher, code: ErrorCode)
    requires DeliverAll(p, batch, ctx, hash) == Rejected(code)
    ensures DeliverAll(p, batch + rest, ctx, hash) == Rejected(code)
  {
    hide Deliver;
    if rest == [] {
      assert batch + rest == batch;
    } else {
      var front := rest[..|rest| - 1];
      assert (batch + rest)[..|batch + rest| - 1] == batch + front;
      DeliveryStops(p, batch, front, ctx, hash, code);
    }
  }

  lemma RecordsExtend(events: seq<Event>, e: Event)
    ensures PublicRecords(events + [e]) == Register(PublicRecords(events), e)
  {
    assert (events + [e])[..|events|] == events;
  }

  /**
   * Judges a batch in one pass, keeping the events and their registry up to date, and agrees
   * with the judgement that recomputes the registry for every event.
   */
  method CheckPublicationBatch(batch: Batch, idempotencyKey: Id, ctx: Context, hash: Hasher) returns (r: Result<Outcome>)
    ensures r == Judge(batch, idempotencyKey, ctx, hash)
  {
    hide CheckEnvelope, CheckEvent, PublicRecords, FindEvent, EventIds, Register;
    var envelope := CheckEnvelope(batch, idempotencyKey, ctx);
    if envelope.Rejected? {
      return Rejected(envelope.code);
    }
    if batch.batchId in ctx.receipts {
      if ctx.receipts[batch.batchId] != batch.digest {
        return Rejected(Conflict);
      }
      return Ok(Outcome(ctx.history, [], EventIds(batch.events), true));
    }
    var events, records := ctx.history, PublicRecords(ctx.history);
    var acceptedIds: seq<Id>, duplicateIds: seq<Id> := [], [];
    ghost var start := Progress(ctx.history, [], []);
    for i := 0 to |batch.events|
      invariant DeliverAll(start, batch.events[..i], ctx, hash) == Ok(Progress(events, acceptedIds, duplicateIds))
      invariant records == PublicRecords(events)
    {
      var e := batch.events[i];
      assert batch.events[..i + 1][..i] == batch.events[..i] && batch.events[..i + 1] + batch.events[i + 1..] == batch.events;
      var existing := FindEvent(events, e.eventId);
      if existing.Some? {
        if hash(OfEvent(existing.value)) != hash(OfEvent(e)) {
          DeliveryStops(start, batch.events[..i + 1], batch.events[i + 1..], ctx, hash, Conflict);
          return Rejected(Conflict);
        }
        duplicateIds := duplicateIds + [e.eventId];
      } else {
        var verdict := CheckEvent(e, events, records, ctx, hash);
        if verdict.Rejected? {
          DeliveryStops(start, batch.events[..i + 1], batch.events[i + 1..], ctx, hash, verdict.code);
          return Rejected(verdict.code);
        }
        RecordsExtend(events, e);
        events, records := events + [e], Register(records, e);
        acceptedIds := acceptedIds + [e.eventId];
      }
    }
    assert batch.events[..|batch.events|] == batch.events;
    return Ok(Outcome(events, acceptedIds, duplicateIds, false));
  }
}
