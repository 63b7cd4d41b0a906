/**
 * One publication batch, accepted whatever the hash: a funded run, a team, a decision, an order that
 * is filled and then expires, a reverse split and a complete snapshot. It shows that what is proved
 * of accepted histories is proved of something, and that the listed properties do fail.
 */
module Example {
  import opened Checks
  import opened Decimals
  import opened Events
  import opened Ledger
  import opened Orders
  import opened Publication
  import opened History
  import opened Rounding

  const CAPITAL := Parts(false, 100_000, 0, 0)
  const NOTHING := Parts(false, 0, 0, 0)
  const UNIT := Parts(false, 1, 0, 0)
  const UNIT_LESS := Parts(true, 1, 0, 0)
  const GUARD := Parts(false, 2, 0, 0)

  const START := Time(0, false)
  const MARKET := Time(300_000, false)
  const EXPIRY := Time(360_000, false)
  const LATER := Time(400_000, false)
  const NOW := Time(500_000, false)
  const END := Time(1_000_000, false)

  const TEAM := ["alice", "bob"]

  function Listed(id: Id, symbol: string): Instrument {
    Instrument(id, symbol, "venue", "USD", "sector", "source", [SymbolPeriod(symbol, 0, None)])
  }

  function Settings(): Configuration {
    Configuration([Listed("x", "X")], CAPITAL, Listed("index", "INDEX"), "raw_prices_explicit_dividends_next_open_reinvestment",
      "calendar", "provider", "feed", 5, 0, NOTHING, 60, 1, 1, 1, 1, 1, "policy", 10, 30, SyntheticOnly, None, "")
  }

  function FirstRun(hash: Hasher): Run {
    Run(Fixture, Settings(), hash(OfConfiguration(Settings())), START, END)
  }

  /** The receiver, before anything has arrived. */
  function Receiver(): Context {
    Context("experiment", "run", NOW,
      Scope(true, END, "experiment", "run", {RunType, TeamType, DecisionType, OrderType, LedgerType, SnapshotType}, {PlainText}, "policy"),
      [], map[], map[], _ => PASS, ms => ms / DAY)
  }

  /** The n-th name. */
  function Name(n: nat): (id: Id)
    ensures |id| == n
  {
    seq(n, _ => 'e')
  }

  /** The n-th event of a history. */
  function At(n: nat, actor: Actor, time: Time, payload: Payload): Event {
    Event(Name(n), "experiment", "run", n, time, time, actor, "policy", SyntheticFixture, [], payload, "")
  }

  function Decided(): Id {
    Name(4)
  }

  function Ordered(): Id {
    Name(5)
  }

  // ----- what a history shows its next event -----

  /** What the guards look at in a history. */
  datatype View = View(
    roster: seq<Id>, journal: seq<Transaction>, state: LedgerState, decision: Option<Decision>, order: Option<Event>,
    valued: seq<Snapshot>)

  function Revision(v: View): nat {
    if v.order.Some? && v.order.value.payload.PaperOrder? then v.order.value.payload.order.revision else 0
  }

  /** The event arrives in its turn, within the receiver's scope. */
  predicate Tagged(e: Event, n: nat) {
    && e.eventId == Name(n) && e.sourceSequence == n && e.experimentId == "experiment" && e.runId == "run"
    && e.policyVersion == "policy" && e.evidenceMode == SyntheticFixture && e.references == []
    && e.occurredAt == e.recordedAt && 0 <= e.recordedAt.ms <= NOW.ms
    && TypeOf(e.payload) in {RunType, TeamType, DecisionType, OrderType, LedgerType, SnapshotType}
    && (e.payload.PaperOrder? ==> e.payload.order.orderId == Ordered())
  }

  ghost predicate AllTagged(h: seq<Event>) {
    forall i | 0 <= i < |h| :: Tagged(h[i], i + 1)
  }

  /** The registry of a history of `n` events. */
  ghost predicate Recorded(records: Records, n: int, v: View) {
    && (forall k | k in records :: |k.id| <= n && (k.kind == OrderRecord ==> k.version <= Revision(v)))
    && (n >= 2 ==> Funding() in records)
    && (v.decision.Some? ==> DecisionKey(Decided(), 1) in records
                             && records[DecisionKey(Decided(), 1)].payload == DecisionPublished(v.decision.value))
    && (v.order.Some? ==> OrderKey(Ordered(), Revision(v)) in records
                          && records[OrderKey(Ordered(), Revision(v))] == v.order.value)
  }

  function Funding(): RecordKey {
    RecordKey(TransactionRecord, Name(2), 1)
  }

  /** Numbered in order, each from its own event. */
  predicate Linked(journal: seq<Transaction>, n: int) {
    forall i | 0 <= i < |journal| ::
      journal[i].journalSequence == journal[i].ledgerVersion == i + 1 && |journal[i].sourceOperationId| <= n
  }

  ghost predicate Views(h: seq<Event>, v: View, hash: Hasher) {
    && Linked(v.journal, |h|)
    && RunOf(h) == Some(FirstRun(hash)) && Roster(h) == v.roster && Journal(h) == v.journal && StateOf(h) == Ok(v.state)
    && LatestOrder(h, Ordered()) == v.order && Events.Snapshots(h) == v.valued
  }

  /** The event passes in its place. */
  ghost predicate Fits(before: seq<Event>, e: Event, hash: Hasher) {
    CheckEvent(e, before, PublicRecords(before), Receiver(), hash).Ok?
  }

  ghost predicate Arrives(h: seq<Event>, hash: Hasher) {
    forall before, e {:trigger Fits(before, e, hash)} | before + [e] <= h :: Fits(before, e, hash)
  }

  ghost predicate Seen(h: seq<Event>, v: View, hash: Hasher) {
    Arrives(h, hash) && AllTagged(h) && Recorded(PublicRecords(h), |h|, v) && Views(h, v, hash)
  }

  // ----- one event more -----

  /** The identities of the next event are new. */
  predicate NewKey(k: RecordKey, n: nat, v: View) {
    if k.kind == OrderRecord then k.version == Revision(v) + 1 && |k.id| <= n else |k.id| == n
  }

  /** It is this event's turn. */
  predicate Due(e: Event, h: seq<Event>, v: View) {
    && |h| >= 1 && Tagged(e, |h| + 1) && (|h| == 1 ==> Funding() in RecordKeys(e))
    && forall k | k in RecordKeys(e) :: NewKey(k, |h| + 1, v)
  }

  /** The next event, by its kind, passes the guards on its payload. */
  ghost predicate Passing(e: Event, h: seq<Event>, v: View, hash: Hasher) {
    match e.payload
    case TeamPublished(workers) => e.actor == System && Snapshots.Distinct(workers)
    case DecisionPublished(d) =>
      && e.actor.Worker? && e.actor.workerId in v.roster && d.proposal.executionAmendmentId.None?
      && d.proposal.evidence == d.review.evidence == [] && v.decision.None?
      && d.proposal.decisionId == Decided() && d.proposal.revision == 1
      && CheckDecision(e, d, h, Settings(), hash).Ok?
    case PaperOrder(o) =>
      && e.actor == System && o.terms.executionAmendmentId.None? && o.revision == Revision(v) + 1
      && forall records {:trigger Registry(h, records)} | Registry(h, records) :: CheckOrder(e, o, h, records, Settings(), hash).Ok?
    case LedgerPosted(t) =>
      && e.actor == System && (t.correctionOf.Some? ==> t.correctionOf.value.key == Funding() && |h| >= 2)
      && t.sourceOperationId == Name(|h| + 1)
      && CheckLink(t, v.journal, Settings(), hash).Ok? && DistinctEntries(t.entries)
      && (forall i | 0 <= i < |t.entries| :: WellAddressed(t.entries[i], Settings()))
      && NonNegative(v.state) && PostEntries(v.state, t.entries).Ok? && NonNegative(PostEntries(v.state, t.entries).value)
      && forall records {:trigger Registry(h, records)} | Registry(h, records) ::
           CheckEffect(t, h, records, Settings(), v.state).Ok?
    case SnapshotPublished(s) =>
      && e.actor == System && s.supersedes.None? && s.benchmark.recovery.None?
      && Snapshots.CheckSnapshot(s, h, Settings(), e.recordedAt, hash).Ok?
    case _ => false
  }

  function After(v: View, e: Event): View {
    match e.payload
    case TeamPublished(workers) => v.(roster := workers)
    case DecisionPublished(d) => v.(decision := Some(d))
    case PaperOrder(_) => v.(order := Some(e))
    case LedgerPosted(t) =>
      var s := PostEntries(v.state, t.entries);
      v.(journal := v.journal + [t], state := if s.Ok? then s.value else v.state)
    case SnapshotPublished(s) => v.(valued := v.valued + [s])
    case _ => v
  }

  /** No amendment is named, a worker is rostered, and only the funding is referred to. */
  ghost predicate Plain(e: Event, h: seq<Event>) {
    && AmendmentIdOf(e.payload).None? && (e.actor.Worker? ==> e.actor.workerId in Roster(h))
    && forall r | r in PayloadRefs(e.payload) :: r.key == Funding() && |h| >= 2
  }

  /** A payload guarded for its kind passes the common check. */
  lemma PayloadPasses(e: Event, h: seq<Event>, v: View, hash: Hasher)
    requires Passing(e, h, v, hash) && Views(h, v, hash)
    ensures CheckPayload(e, h, PublicRecords(h), Some(FirstRun(hash)), Receiver(), hash).Ok? && Plain(e, h)
  {
    hide CheckRun, CheckDecision, CheckOrder, CheckLink, CheckEffect, Snapshots.CheckSnapshot, CheckInstrumentUpdate,
      CheckContribution, CheckArtifact, CheckAmendment, StateOf, PublicRecords, Roster, RunEvent, Journal, LatestOrder,
      Events.Snapshots, Settings, NonNegative, PostEntries, WellAddressed, DistinctEntries, Name;
    assert Registry(h, PublicRecords(h));
  }

  /** The identities a next event registers are new, as its reference is known. */
  lemma KeysAreNew(h: seq<Event>, v: View, e: Event)
    requires Recorded(PublicRecords(h), |h|, v) && Due(e, h, v)
    ensures (forall k | k in RecordKeys(e) :: k !in PublicRecords(h) && |k.id| <= |h| + 1)
    ensures |h| >= 2 ==> Funding() in PublicRecords(h)
    ensures |h| == 1 ==> Funding() in RecordKeys(e)
  {
    hide PublicRecords, RecordKeys, Name;
  }

  lemma TaggedIsPlain(e: Event, h: seq<Event>, v: View)
    requires AllTagged(h) && Due(e, h, v)
    ensures forall i | 0 <= i < |h| :: h[i].sourceSequence != e.sourceSequence
    ensures e.occurredAt.ms <= e.recordedAt.ms <= Receiver().now.ms && Receiver().screen(e) == PASS
    ensures Refs(e) == PayloadRefs(e.payload) && e.evidenceMode == SyntheticFixture
  {
    hide Name;
  }

  lemma RunMode(h: seq<Event>)
    requires AllTagged(h) && RunOf(h).Some?
    ensures RunEvent(h).Some? && RunEvent(h).value.evidenceMode == SyntheticFixture
  {
    hide Name;
    var e := RunEvent(h).value;
    var i :| 0 <= i < |h| && h[i] == e;
    assert Tagged(h[i], i + 1);
  }

  /** The next event passes every guard. */
  lemma StepFits(h: seq<Event>, v: View, e: Event, hash: Hasher)
    requires AllTagged(h) && Recorded(PublicRecords(h), |h|, v) && Views(h, v, hash) && Due(e, h, v) && Passing(e, h, v, hash)
    ensures Fits(h, e, hash)
  {
    hide Name, Ordered, Decided, Funding, CheckPayload, StateOf, PublicRecords, Roster, RecordKeys, Passing, Tagged,
      AllTagged, Receiver, FirstRun, Refs, PayloadRefs, Views, Recorded, Due, After, RunEvent;
    StateMoves(h, v, e, hash);
    PayloadPasses(e, h, v, hash);
    KeysAreNew(h, v, e);
    TaggedIsPlain(e, h, v);
    RunIsFirst(h, v, hash);
    RunMode(h);
  }

  lemma RunIsFirst(h: seq<Event>, v: View, hash: Hasher)
    requires Views(h, v, hash)
    ensures RunOf(h) == Some(FirstRun(hash))
  {
    hide Linked, RunOf, FirstRun, Roster, Journal, StateOf, LatestOrder, Events.Snapshots;
  }

  lemma AppendViews(h: seq<Event>, e: Event)
    ensures var g := h + [e];
            && RunEvent(g) == (if RunEvent(h).Some? then RunEvent(h) else if IsRun(e) then Some(e) else None)
            && Roster(g) == (if e.payload.TeamPublished? then e.payload.workers else Roster(h))
            && LatestOrder(g, Ordered()) == (if IsOrderOf(e, Ordered()) then Some(e) else LatestOrder(h, Ordered()))
            && PublicRecords(g) == Register(PublicRecords(h), e)
            && Journal(g) == Journal(h) + (if e.payload.LedgerPosted? then [e.payload.transaction] else [])
            && Events.Snapshots(g) == Events.Snapshots(h) + (if e.payload.SnapshotPublished? then [e.payload.snapshot] else [])
  {
    hide Ordered, Register, IsRun;
    assert (h + [e])[..|h|] == h;
  }

  lemma StateMoves(h: seq<Event>, v: View, e: Event, hash: Hasher)
    requires Views(h, v, hash) && Passing(e, h, v, hash)
    ensures StateOf(h + [e]) == Ok(After(v, e).state)
  {
    hide Totals, PostEntries, NonNegative, CheckDecision, CheckOrder, CheckLink, CheckEffect, Snapshots.CheckSnapshot,
      Journal, Roster, LatestOrder, Events.Snapshots, RunEvent, FirstRun, Settings;
    TotalsExtend(h, e, None);
  }

  lemma LinkMoves(h: seq<Event>, v: View, e: Event, hash: Hasher)
    requires Linked(v.journal, |h|) && Passing(e, h, v, hash)
    ensures Linked(After(v, e).journal, |h| + 1)
  {
    hide CheckDecision, CheckOrder, CheckEffect, Snapshots.CheckSnapshot, Settings, PostEntries, NonNegative, Name;
  }

  lemma ViewsMove(h: seq<Event>, v: View, e: Event, hash: Hasher)
    requires Views(h, v, hash) && Passing(e, h, v, hash) && Due(e, h, v)
    ensures Views(h + [e], After(v, e), hash)
  {
    hide Linked, StateOf, PostEntries, NonNegative, CheckDecision, CheckOrder, CheckLink, CheckEffect,
      Snapshots.CheckSnapshot, Journal, Roster, LatestOrder, Events.Snapshots, RunEvent, FirstRun, Settings, PublicRecords,
      Ordered, Name;
    StateMoves(h, v, e, hash);
    LinkMoves(h, v, e, hash);
    AppendViews(h, e);
  }

  /** What the payload of a next event registers, and what it moves in the view. */
  ghost predicate Registers(e: Event, v: View, w: View) {
    && Revision(v) <= Revision(w) && (forall k | k in RecordKeys(e) && k.kind == OrderRecord :: k.version <= Revision(w))
    && (e.payload.DecisionPublished? ==> w.decision.Some? && e.payload == DecisionPublished(w.decision.value)
                                         && DecisionKey(Decided(), 1) in RecordKeys(e))
    && (!e.payload.DecisionPublished? ==> w.decision == v.decision && forall k | k in RecordKeys(e) :: k.kind != DecisionRecord)
    && (e.payload.PaperOrder? ==> w.order == Some(e) && OrderKey(Ordered(), Revision(w)) in RecordKeys(e))
    && (!e.payload.PaperOrder? ==>
          w.order == v.order && Revision(w) == Revision(v) && forall k | k in RecordKeys(e) :: k.kind != OrderRecord)
  }

  /** The decision and the order have the identities of this story. */
  predicate Named(e: Event, v: View) {
    && (e.payload.DecisionPublished? ==> e.payload.decision.proposal.decisionId == Decided() && e.payload.decision.proposal.revision == 1)
    && (e.payload.PaperOrder? ==> e.payload.order.orderId == Ordered() && e.payload.order.revision == Revision(v) + 1)
  }

  lemma PassingIsNamed(e: Event, h: seq<Event>, v: View, hash: Hasher)
    requires Passing(e, h, v, hash) && Due(e, h, v)
    ensures Named(e, v)
  {
    hide Name, CheckDecision, CheckOrder, CheckLink, CheckEffect, Snapshots.CheckSnapshot, Settings, PostEntries, NonNegative, RecordKeys;
  }

  lemma KeyIsOneOf(e: Event, k: RecordKey)
    ensures k in RecordKeys(e) <==> k == EventKey(e) || k in PayloadKeys(e.payload)
  {
    hide PayloadKeys;
  }

  lemma NamedRegisters(e: Event, v: View)
    requires Named(e, v)
    ensures Registers(e, v, After(v, e))
  {
    hide Name, PostEntries, RecordKeys;
    forall k ensures k in RecordKeys(e) <==> k == EventKey(e) || k in PayloadKeys(e.payload) {
      KeyIsOneOf(e, k);
    }
    assert e.payload.DecisionPublished? || e.payload.PaperOrder? ==> PayloadKeys(e.payload)[0] in PayloadKeys(e.payload);
  }

  lemma RecordsMove(h: seq<Event>, v: View, e: Event, hash: Hasher)
    requires Recorded(PublicRecords(h), |h|, v) && Passing(e, h, v, hash) && Due(e, h, v)
    ensures Recorded(PublicRecords(h + [e]), |h| + 1, After(v, e))
  {
    hide Passing, After, Revision, RecordKeys, Register, PublicRecords, Name, Tagged, Due, NewKey, Ordered, Decided, Funding,
      RunEvent, Roster, LatestOrder, Journal, Events.Snapshots;
    AppendViews(h, e);
    PassingIsNamed(e, h, v, hash);
    NamedRegisters(e, v);
    KeysAreNew(h, v, e);
  }

  lemma TagsMove(h: seq<Event>, v: View, e: Event)
    requires AllTagged(h) && Due(e, h, v)
    ensures AllTagged(h + [e])
  {
    hide Tagged, NewKey;
  }

  /** One event more, and what it changes in the view. */
  lemma Step(h: seq<Event>, v: View, e: Event, hash: Hasher)
    requires Seen(h, v, hash) && Due(e, h, v) && Passing(e, h, v, hash)
    ensures Seen(h + [e], After(v, e), hash)
  {
    hide *;
    SeenParts(h, v, hash);
    StepFits(h, v, e, hash);
    ViewsMove(h, v, e, hash);
    RecordsMove(h, v, e, hash);
    ArrivesGrows(h, e, hash);
    TagsMove(h, v, e);
    PartsAreSeen(h + [e], After(v, e), hash);
  }

  lemma SeenParts(h: seq<Event>, v: View, hash: Hasher)
    requires Seen(h, v, hash)
    ensures Arrives(h, hash) && AllTagged(h) && Recorded(PublicRecords(h), |h|, v) && Views(h, v, hash)
  {
    hide Arrives, AllTagged, Recorded, Views, PublicRecords;
  }

  lemma PartsAreSeen(h: seq<Event>, v: View, hash: Hasher)
    requires Arrives(h, hash) && AllTagged(h) && Recorded(PublicRecords(h), |h|, v) && Views(h, v, hash)
    ensures Seen(h, v, hash)
  {
    hide Arrives, AllTagged, Recorded, Views, PublicRecords;
  }

  lemma ArrivesGrows(h: seq<Event>, e: Event, hash: Hasher)
    requires Arrives(h, hash) && Fits(h, e, hash)
    ensures Arrives(h + [e], hash)
  {
    hide Fits;
    forall before, d | before + [d] <= h + [e] ensures Fits(before, d, hash) {
      PrefixOfGrown(h, e, before, d);
    }
  }
}
