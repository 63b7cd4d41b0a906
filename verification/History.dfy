/** Histories built by acceptance, what acceptance of each event guarantees, and batching. */
module History {
  import opened Checks
  import opened Events
  import opened Ledger
  import opened Orders
  import opened Snapshots
  import opened Publication

  /** The registry of a history. */
  ghost predicate Registry(before: seq<Event>, records: Records) {
    records == PublicRecords(before)
  }

  /** The event passes every guard in this context, against the registry of the history before it. */
  ghost predicate Admits(ctx: Context, e: Event, before: seq<Event>, hash: Hasher) {
    forall records {:trigger Registry(before, records)} | Registry(before, records) ::
      CheckEvent(e, before, records, ctx, hash).Ok?
  }

  /** Some batch, at some time and under some scope, could have added the event. */
  ghost predicate Admissible(e: Event, before: seq<Event>, hash: Hasher) {
    exists ctx: Context :: Admits(ctx, e, before, hash)
  }

  /** Every event was admissible after the ones before it. */
  ghost predicate Accepted(h: seq<Event>, hash: Hasher) {
    forall before, e {:trigger Admissible(e, before, hash)} | before + [e] <= h :: Admissible(e, before, hash)
  }

  lemma AcceptedAt(h: seq<Event>, before: seq<Event>, e: Event, rest: seq<Event>, hash: Hasher)
    requires Accepted(h, hash) && h == before + [e] + rest
    ensures Accepted(before, hash) && Admissible(e, before, hash)
  {
    hide Admissible;
    assert before + [e] <= h;
    forall early, d | early + [d] <= before ensures Admissible(d, early, hash) {
      assert early + [d] <= h;
    }
  }

  lemma AdmittedBy(e: Event, before: seq<Event>, ctx: Context, hash: Hasher)
    requires CheckEvent(e, before, PublicRecords(before), ctx, hash).Ok?
    ensures Admissible(e, before, hash)
  {
    hide CheckEvent, PublicRecords;
    assert Admits(ctx, e, before, hash);
  }

  lemma PrefixOfGrown<T>(h: seq<T>, e: T, before: seq<T>, d: T)
    requires before + [d] <= h + [e]
    ensures before + [d] <= h || (before == h && d == e)
  {
    var b, g := before + [d], h + [e];
    assert b[|before|] == g[|before|] == d;
    if |before| < |h| {
      assert g[..|h|] == h;
    } else {
      assert b[..|before|] == before == g[..|before|] == h;
    }
  }

  lemma AcceptedExtends(h: seq<Event>, e: Event, hash: Hasher)
    requires Accepted(h, hash) && Admissible(e, h, hash)
    ensures Accepted(h + [e], hash)
  {
    hide Admissible;
    forall before, d | before + [d] <= h + [e] ensures Admissible(d, before, hash) {
      PrefixOfGrown(h, e, before, d);
    }
  }

  // What admission of an event establishes

  /** New keys and a new sequence number, known references, a run and a rostered author, a ledger that still posts. */
  ghost predicate Joins(e: Event, before: seq<Event>) {
    && (forall i | 0 <= i < |before| :: before[i].sourceSequence != e.sourceSequence)
    && (forall r | r in Refs(e) :: r.key in PublicRecords(before))
    && (forall k | k in RecordKeys(e) :: k !in PublicRecords(before))
    && (e.payload.RunPublished? || RunOf(before).Some?)
    && (e.actor.Worker? ==> e.actor.workerId in Roster(before))
    && StateOf(before + [e]).Ok?
  }

  lemma AdmittedJoins(e: Event, before: seq<Event>, hash: Hasher)
    requires Admissible(e, before, hash)
    ensures Joins(e, before)
  {
    hide CheckPayload, StateOf, PublicRecords, CheckAmendmentReference, Refs, RecordKeys, Roster, RunEvent;
    assert Registry(before, PublicRecords(before));
  }

  /** What the guards on its payload said of an event, by its kind. */
  ghost predicate Passed(e: Event, before: seq<Event>, hash: Hasher) {
    match e.payload
    case RunPublished(r) =>
      && RunEvent(before).None? && Decimals.Fixed(r.configuration.initialCapital) > 0
      && Distinct(InstrumentIds(r.configuration.universe))
    case DecisionPublished(d) => RunOf(before).Some? && CheckDecision(e, d, before, RunOf(before).value.configuration, hash).Ok?
    case PaperOrder(o) =>
      RunOf(before).Some? && CheckOrder(e, o, before, PublicRecords(before), RunOf(before).value.configuration, hash).Ok?
    case LedgerPosted(t) =>
      RunOf(before).Some? && CheckLedger(t, before, PublicRecords(before), RunOf(before).value.configuration, hash).Ok?
    case SnapshotPublished(s) =>
      RunOf(before).Some? && CheckSnapshot(s, before, RunOf(before).value.configuration, e.recordedAt, hash).Ok?
    case _ => true
  }

  lemma AdmittedPassed(e: Event, before: seq<Event>, hash: Hasher)
    requires Admissible(e, before, hash)
    ensures Passed(e, before, hash)
  {
    hide CheckDecision, CheckOrder, CheckLedger, CheckSnapshot, CheckInstrumentUpdate, CheckContribution, CheckArtifact,
      CheckAmendment, StateOf, PublicRecords, CheckAmendmentReference, Refs, RecordKeys, Roster, RunEvent, Decimals.Fixed;
    assert Registry(before, PublicRecords(before));
    var ctx: Context :| Admits(ctx, e, before, hash);
  }

  // The run is published once and never changes

  lemma {:induction false} RunIsFixed(h: seq<Event>, n: nat)
    requires n <= |h| && RunEvent(h[..n]).Some?
    ensures RunEvent(h) == RunEvent(h[..n])
  {
    if n < |h| {
      var front := h[..|h| - 1];
      assert front[..n] == h[..n];
      RunIsFixed(front, n);
    } else {
      assert h[..n] == h;
    }
  }

  // Records: identities are unique and references point backwards

  lemma {:induction false} RecordsOfHistory(h: seq<Event>, k: RecordKey)
    ensures k in PublicRecords(h) <==> exists i | 0 <= i < |h| :: k in RecordKeys(h[i])
    ensures k in PublicRecords(h) ==> PublicRecords(h)[k] in h && k in RecordKeys(PublicRecords(h)[k])
  {
    hide RecordKeys;
    if h != [] {
      var front, last := h[..|h| - 1], h[|h| - 1];
      RecordsOfHistory(front, k);
      assert h == front + [last];
      assert forall i | 0 <= i < |front| :: front[i] == h[i];
    }
  }

  /** Two events with no record key, identifier or sequence number in common. */
  ghost predicate Apart(a: Event, b: Event) {
    && (forall k | k in RecordKeys(a) :: k !in RecordKeys(b))
    && a.eventId != b.eventId && a.sourceSequence != b.sourceSequence
  }

  ghost predicate AllApart(h: seq<Event>) {
    forall i, j | 0 <= i < j < |h| :: Apart(h[i], h[j])
  }

  /** No record identity is ever registered twice. */
  lemma KeysAreUnique(h: seq<Event>, hash: Hasher)
    requires Accepted(h, hash)
    ensures AllApart(h)
  {
    hide Joins, Admissible, Accepted, Apart;
    forall i, j | 0 <= i < j < |h| ensures Apart(h[i], h[j]) {
      AcceptedAt(h, h[..j], h[j], h[j + 1..], hash);
      AdmittedJoins(h[j], h[..j], hash);
      assert h[i] == h[..j][i];
      JoinsApart(h[j], h[..j], h[i]);
    }
  }

  lemma JoinsApart(e: Event, before: seq<Event>, d: Event)
    requires Joins(e, before) && d in before
    ensures Apart(d, e)
  {
    hide StateOf, PublicRecords, Refs, Roster, RunEvent, RecordKeys;
    forall k | k in RecordKeys(d) ensures k !in RecordKeys(e) {
      RecordsOfHistory(before, k);
    }
    KeyOfEvent(d);
    KeyOfEvent(e);
    assert EventKey(d) == EventKey(e) <==> d.eventId == e.eventId;
  }

  /** Every reference of the event names what one of these events registered. */
  ghost predicate Grounded(e: Event, before: seq<Event>) {
    forall r | r in Refs(e) :: exists d | d in before :: r.key in RecordKeys(d)
  }

  ghost predicate RefersBack(h: seq<Event>) {
    forall j | 0 <= j < |h| :: Grounded(h[j], h[..j])
  }

  /** Every reference of an accepted event resolves to a strictly earlier event. */
  lemma ReferencesPointBack(h: seq<Event>, hash: Hasher)
    requires Accepted(h, hash)
    ensures RefersBack(h)
  {
    hide Admissible, Accepted, Joins, Grounded;
    forall j | 0 <= j < |h| ensures Grounded(h[j], h[..j]) {
      AcceptedAt(h, h[..j], h[j], h[j + 1..], hash);
      AdmittedJoins(h[j], h[..j], hash);
      JoinsGrounded(h[j], h[..j]);
    }
  }

  lemma JoinsGrounded(e: Event, before: seq<Event>)
    requires Joins(e, before)
    ensures Grounded(e, before)
  {
    hide StateOf, PublicRecords, Refs, Roster, RunEvent, RecordKeys;
    forall r | r in Refs(e) ensures exists d | d in before :: r.key in RecordKeys(d) {
      RecordsOfHistory(before, r.key);
    }
  }

  /** The registry of an accepted history names the one event that registered a key. */
  lemma LookupIsUnique(h: seq<Event>, k: RecordKey, e: Event, hash: Hasher)
    requires Accepted(h, hash) && e in h && k in RecordKeys(e)
    ensures Lookup(k, PublicRecords(h)) == Ok(e)
  {
    hide Admissible, Accepted, RecordKeys;
    RecordsOfHistory(h, k);
    KeysAreUnique(h, hash);
    OneRegistrant(h, k, e, PublicRecords(h)[k]);
  }

  lemma OneRegistrant(h: seq<Event>, k: RecordKey, a: Event, b: Event)
    requires AllApart(h) && a in h && b in h && k in RecordKeys(a) && k in RecordKeys(b)
    ensures a == b
  {
    hide RecordKeys;
    var i :| 0 <= i < |h| && h[i] == a;
    var j :| 0 <= j < |h| && h[j] == b;
  }

  // Batches

  /** Delivery keeps the history accepted and only appends to it. */
  lemma {:induction false} DeliveryKeepsAccepted(p: Progress, batch: seq<Event>, ctx: Context, hash: Hasher, q: Progress)
    requires Accepted(p.events, hash) && DeliverAll(p, batch, ctx, hash) == Ok(q)
    ensures Accepted(q.events, hash) && p.events <= q.events
  {
    hide CheckEvent, Admissible, Accepted;
    if batch != [] {
      var e, r := batch[|batch| - 1], DeliverAll(p, batch[..|batch| - 1], ctx, hash).value;
      DeliveryKeepsAccepted(p, batch[..|batch| - 1], ctx, hash, r);
      if FindEvent(r.events, e.eventId).None? {
        AdmittedBy(e, r.events, ctx, hash);
        AcceptedExtends(r.events, e, hash);
      }
    }
  }

  /** Whatever is judged acceptable leaves an accepted history that extends the old one. */
  lemma JudgementKeepsAccepted(batch: Batch, key: Id, ctx: Context, hash: Hasher, o: Outcome)
    requires Accepted(ctx.history, hash) && Judge(batch, key, ctx, hash) == Ok(o)
    ensures Accepted(o.history, hash) && ctx.history <= o.history
  {
    hide CheckEvent, CheckEnvelope, Admissible, Accepted, DeliverAll;
    if batch.batchId !in ctx.receipts {
      var start := Progress(ctx.history, [], []);
      DeliveryKeepsAccepted(start, batch.events, ctx, hash, DeliverAll(start, batch.events, ctx, hash).value);
    }
  }

  /** A delivery goes on from where an earlier one ended. */
  lemma {:induction false} DeliverySplits(p: Progress, first: seq<Event>, second: seq<Event>, ctx: Context, hash: Hasher, q: Progress)
    requires DeliverAll(p, first, ctx, hash) == Ok(q)
    ensures DeliverAll(p, first + second, ctx, hash) == DeliverAll(q, second, ctx, hash)
  {
    hide Deliver;
    if second == [] {
      assert first + second == first;
    } else {
      var front := second[..|second| - 1];
      DeliverySplits(p, first, front, ctx, hash, q);
      assert (first + second)[..|first + second| - 1] == first + front;
    }
  }

  /** The same history, and the same identifiers reported on top of what each began with. */
  ghost predicate ReportsAlike(p: Progress, q: Progress, a: Progress, b: Progress) {
    && a.events == b.events
    && exists ids, dups ::
         && a.acceptedIds == p.acceptedIds + ids && b.acceptedIds == q.acceptedIds + ids
         && a.duplicateIds == p.duplicateIds + dups && b.duplicateIds == q.duplicateIds + dups
  }

  ghost predicate EndAlike(p: Progress, q: Progress, a: Result<Progress>, b: Result<Progress>) {
    (a.Ok? <==> b.Ok?) && (a.Ok? ==> ReportsAlike(p, q, a.value, b.value))
  }

  /** The identifiers a delivery reports do not influence what it accepts. */
  lemma {:induction false} DeliveryIgnoresReports(p: Progress, q: Progress, batch: seq<Event>, ctx: Context, hash: Hasher)
    requires p.events == q.events
    ensures EndAlike(p, q, DeliverAll(p, batch, ctx, hash), DeliverAll(q, batch, ctx, hash))
  {
    hide CheckEvent, Deliver;
    if batch == [] {
      assert p.acceptedIds + [] == p.acceptedIds && q.acceptedIds + [] == q.acceptedIds;
      assert p.duplicateIds + [] == p.duplicateIds && q.duplicateIds + [] == q.duplicateIds;
    } else {
      var front, e := batch[..|batch| - 1], batch[|batch| - 1];
      DeliveryIgnoresReports(p, q, front, ctx, hash);
      var a, b := DeliverAll(p, front, ctx, hash), DeliverAll(q, front, ctx, hash);
      if a.Ok? {
        StepIgnoresReports(p, q, a.value, b.value, e, ctx, hash);
      }
    }
  }

  lemma StepIgnoresReports(p: Progress, q: Progress, a: Progress, b: Progress, e: Event, ctx: Context, hash: Hasher)
    requires ReportsAlike(p, q, a, b)
    ensures EndAlike(p, q, Deliver(a, e, ctx, hash), Deliver(b, e, ctx, hash))
  {
    hide CheckEvent;
    var ids, dups :|
      && a.acceptedIds == p.acceptedIds + ids && b.acceptedIds == q.acceptedIds + ids
      && a.duplicateIds == p.duplicateIds + dups && b.duplicateIds == q.duplicateIds + dups;
    var c, d := Deliver(a, e, ctx, hash), Deliver(b, e, ctx, hash);
    if c.Ok? {
      if FindEvent(a.events, e.eventId).Some? {
        var dups' := dups + [e.eventId];
        assert c.value.duplicateIds == p.duplicateIds + dups' && d.value.duplicateIds == q.duplicateIds + dups';
      } else {
        var ids' := ids + [e.eventId];
        assert c.value.acceptedIds == p.acceptedIds + ids' && d.value.acceptedIds == q.acceptedIds + ids';
      }
    }
  }

  /** The same batch cut in two, the second half arriving on top of what the first one left. */
  ghost predicate Halves(whole: Batch, first: Batch, second: Batch) {
    && whole.events == first.events + second.events
    && whole.experimentId == first.experimentId == second.experimentId
    && whole.runId == first.runId == second.runId
  }

  lemma EnvelopeOfHalf(whole: Batch, half: Batch, n: nat, ctx: Context)
    requires CheckEnvelope(whole, whole.batchId, ctx).Ok?
    requires half.experimentId == whole.experimentId && half.runId == whole.runId
    requires n + |half.events| <= |whole.events| && whole.events[n..n + |half.events|] == half.events
    ensures CheckEnvelope(half, half.batchId, ctx).Ok?
  {
    assert forall i | 0 <= i < |half.events| :: half.events[i] == whole.events[n + i];
    var ids, all := EventIds(half.events), EventIds(whole.events);
    assert forall i | 0 <= i < |ids| :: ids[i] == all[n + i];
  }

  predicate InRun(events: seq<Event>, experimentId: Id, runId: Id) {
    forall i | 0 <= i < |events| :: events[i].experimentId == experimentId && events[i].runId == runId
  }

  /** Acceptance only appends events of the batch, so the envelope still holds afterwards. */
  lemma {:induction false} DeliveryStaysInRun(p: Progress, batch: seq<Event>, ctx: Context, hash: Hasher, experimentId: Id, runId: Id,
                                              q: Progress)
    requires DeliverAll(p, batch, ctx, hash) == Ok(q)
    requires InRun(p.events, experimentId, runId) && InRun(batch, experimentId, runId)
    ensures InRun(q.events, experimentId, runId)
  {
    hide CheckEvent;
    if batch != [] {
      var front := batch[..|batch| - 1];
      DeliveryStaysInRun(p, front, ctx, hash, experimentId, runId, DeliverAll(p, front, ctx, hash).value);
    }
  }

  /** The context in which a later batch is judged: same authority, longer history. */
  function Later(ctx: Context, history: seq<Event>): Context {
    ctx.(history := history)
  }

  lemma CheckEventIgnoresHistoryField(e: Event, events: seq<Event>, ctx: Context, history: seq<Event>, hash: Hasher)
    ensures CheckEvent(e, events, PublicRecords(events), ctx, hash)
         == CheckEvent(e, events, PublicRecords(events), Later(ctx, history), hash)
  {
    hide CheckOrder, CheckLedger, CheckSnapshot, CheckDecision, CheckInstrumentUpdate, CheckContribution, StateOf,
      PublicRecords, CheckAmendmentReference, Refs, RecordKeys, Roster, RunEvent;
  }

  lemma {:induction false} DeliveryIgnoresHistoryField(p: Progress, batch: seq<Event>, ctx: Context, history: seq<Event>, hash: Hasher)
    ensures DeliverAll(p, batch, ctx, hash) == DeliverAll(p, batch, Later(ctx, history), hash)
  {
    hide CheckEvent;
    if batch != [] {
      var front := batch[..|batch| - 1];
      DeliveryIgnoresHistoryField(p, front, ctx, history, hash);
      var q := DeliverAll(p, front, ctx, hash);
      if q.Ok? {
        CheckEventIgnoresHistoryField(batch[|batch| - 1], q.value.events, ctx, history, hash);
      }
    }
  }

  /** Two batches one after the other, the second judged on the history the first one left. */
  function InTurn(first: Batch, second: Batch, ctx: Context, hash: Hasher): Result<Outcome> {
    var o :- Judge(first, first.batchId, ctx, hash);
    Judge(second, second.batchId, Later(ctx, o.history), hash)
  }

  /** Both accepted, with one history, or both rejected. */
  predicate SameVerdict(a: Result<Outcome>, b: Result<Outcome>) {
    (a.Ok? <==> b.Ok?) && (a.Ok? ==> a.value.history == b.value.history)
  }

  /**
   * Batching is transparent: a batch is accepted exactly when its halves are accepted in turn,
   * and both ways leave the same history.
   */
  lemma BatchingIsTransparent(whole: Batch, first: Batch, second: Batch, ctx: Context, hash: Hasher)
    requires Halves(whole, first, second)
    requires CheckEnvelope(whole, whole.batchId, ctx).Ok?
    requires whole.batchId !in ctx.receipts && first.batchId !in ctx.receipts && second.batchId !in ctx.receipts
    ensures SameVerdict(Judge(whole, whole.batchId, ctx, hash), InTurn(first, second, ctx, hash))
  {
    hide CheckEvent, CheckEnvelope, DeliverAll;
    var start := Progress(ctx.history, [], []);
    EnvelopeOfHalf(whole, first, 0, ctx);
    EnvelopeOfHalf(whole, second, |first.events|, ctx);
    var p := DeliverAll(start, first.events, ctx, hash);
    if p.Rejected? {
      DeliveryStops(start, first.events, second.events, ctx, hash, p.code);
    } else {
      DeliverySplits(start, first.events, second.events, ctx, hash, p.value);
      EnvelopeLater(whole, first, second, start, ctx, hash, p.value);
      var later := Later(ctx, p.value.events);
      DeliveryIgnoresHistoryField(p.value, second.events, ctx, p.value.events, hash);
      DeliveryIgnoresReports(p.value, Progress(p.value.events, [], []), second.events, later, hash);
    }
  }

  lemma EnvelopeLater(whole: Batch, first: Batch, second: Batch, start: Progress, ctx: Context, hash: Hasher, p: Progress)
    requires Halves(whole, first, second) && start.events == ctx.history
    requires CheckEnvelope(whole, whole.batchId, ctx).Ok? && CheckEnvelope(second, second.batchId, ctx).Ok?
    requires DeliverAll(start, first.events, ctx, hash) == Ok(p)
    ensures CheckEnvelope(second, second.batchId, Later(ctx, p.events)).Ok?
  {
    hide CheckEvent, DeliverAll;
    forall i | 0 <= i < |first.events|
      ensures first.events[i].experimentId == ctx.experimentId && first.events[i].runId == ctx.runId {
      assert whole.events[i] == first.events[i] && InScope(whole.events[i], whole, ctx.scope);
    }
    DeliveryStaysInRun(start, first.events, ctx, hash, ctx.experimentId, ctx.runId, p);
  }

  /** Events delivered before are recognised under any batch and leave the history as it was. */
  lemma {:induction false} RedeliveryChangesNothing(p: Progress, batch: seq<Event>, ctx: Context, hash: Hasher)
    requires Accepted(p.events, hash) && forall e | e in batch :: e in p.events
    ensures DeliverAll(p, batch, ctx, hash) == Ok(p.(duplicateIds := p.duplicateIds + EventIds(batch)))
  {
    hide CheckEvent, Admissible, Accepted, FindEvent;
    if batch == [] {
      assert p.duplicateIds + EventIds(batch) == p.duplicateIds;
    } else {
      var front, e := batch[..|batch| - 1], batch[|batch| - 1];
      RedeliveryChangesNothing(p, front, ctx, hash);
      FindIsUnique(p.events, e, hash);
      var ids := p.duplicateIds;
      assert batch == front + [e] && (ids + EventIds(front)) + [e.eventId] == ids + EventIds(batch);
    }
  }

  lemma FindIsUnique(h: seq<Event>, e: Event, hash: Hasher)
    requires Accepted(h, hash) && e in h
    ensures FindEvent(h, e.eventId) == Some(e)
  {
    hide Accepted, RecordKeys;
    KeysAreUnique(h, hash);
    var found := FindEvent(h, e.eventId);
    KeyOfEvent(e);
    KeyOfEvent(found.value);
    OneRegistrant(h, EventKey(e), e, found.value);
  }

  lemma KeyOfEvent(e: Event)
    ensures EventKey(e) in RecordKeys(e)
  {
  }

  /** A redelivered batch is acknowledged in full and accepts nothing new. */
  lemma RedeliveredBatchIsAcknowledged(batch: Batch, ctx: Context, hash: Hasher)
    requires Accepted(ctx.history, hash) && CheckEnvelope(batch, batch.batchId, ctx).Ok?
    requires batch.batchId !in ctx.receipts && forall e | e in batch.events :: e in ctx.history
    ensures Judge(batch, batch.batchId, ctx, hash)
         == Ok(Outcome(ctx.history, [], EventIds(batch.events), false))
  {
    hide CheckEvent, CheckEnvelope, Admissible, Accepted;
    RedeliveryChangesNothing(Progress(ctx.history, [], []), batch.events, ctx, hash);
    assert [] + EventIds(batch.events) == EventIds(batch.events);
  }
}
