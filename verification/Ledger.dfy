/** The double-entry paper ledger: its state after a history, and the guards on a new transaction. */
module Ledger {
  import opened Checks
  import opened Decimals
  import opened Events
  import opened Rounding

  datatype LedgerState = LedgerState(
    cash: int, capital: int, receivable: int, liability: int, realized: int,
    quantity: map<Id, int>, basis: map<Id, int>)

  const EMPTY := LedgerState(0, 0, 0, 0, 0, map[], map[])

  function Get(m: map<Id, int>, id: Id): int {
    if id in m then m[id] else 0
  }

  function Add(m: map<Id, int>, id: Id, v: int): map<Id, int> {
    m[id := Get(m, id) + v]
  }

  /** Posts one entry; fees and income leave no trace in the state. */
  function Post(s: LedgerState, e: Entry): Result<LedgerState> {
    var v := Fixed(e.amount);
    match e.account
    case QuantityHeld =>
      var _ :- Need(e.instrumentId.Some?);
      Ok(s.(quantity := Add(s.quantity, e.instrumentId.value, v)))
    case BookCost =>
      var _ :- Need(e.instrumentId.Some?);
      Ok(s.(basis := Add(s.basis, e.instrumentId.value, v)))
    case Cash => Ok(s.(cash := s.cash + v))
    case Capital => Ok(s.(capital := s.capital + v))
    case Receivable => Ok(s.(receivable := s.receivable + v))
    case Liability => Ok(s.(liability := s.liability + v))
    case RealizedPnl => Ok(s.(realized := s.realized + v))
    case _ => Ok(s)
  }

  function PostEntries(s: LedgerState, entries: seq<Entry>): Result<LedgerState> {
    if entries == [] then Ok(s)
    else
      var t :- PostEntries(s, entries[..|entries| - 1]);
      Post(t, entries[|entries| - 1])
  }

  function PostJournal(journal: seq<Transaction>): Result<LedgerState> {
    if journal == [] then Ok(EMPTY)
    else
      var s :- PostJournal(journal[..|journal| - 1]);
      PostEntries(s, journal[|journal| - 1].entries)
  }

  predicate NonNegative(s: LedgerState) {
    && s.cash >= 0 && s.receivable >= 0 && s.liability >= 0
    && (forall id | id in s.quantity :: s.quantity[id] >= 0)
    && (forall id | id in s.basis :: s.basis[id] >= 0)
  }

  predicate Included(t: Transaction, sequence: Option<nat>) {
    sequence.None? || sequence.value == 0 || t.journalSequence <= sequence.value
  }

  /** The transactions up to a sequence number, or all of them. */
  function UpTo(journal: seq<Transaction>, sequence: Option<nat>): seq<Transaction> {
    if journal == [] then []
    else
      var last := journal[|journal| - 1];
      UpTo(journal[..|journal| - 1], sequence) + if Included(last, sequence) then [last] else []
  }

  /** The state after a history; a negative balance anywhere rejects. */
  function StateOf(events: seq<Event>, sequence: Option<nat> := None): (r: Result<LedgerState>)
    ensures r.Ok? ==> NonNegative(r.value)
  {
    var s :- Totals(events, sequence);
    var _ :- Need(NonNegative(s));
    Ok(s)
  }

  lemma {:induction false} UpToAll(journal: seq<Transaction>)
    ensures UpTo(journal, None) == journal
  {
    if journal != [] {
      UpToAll(journal[..|journal| - 1]);
    }
  }

  /** The unchecked totals of the selected transactions. */
  function Totals(events: seq<Event>, sequence: Option<nat>): Result<LedgerState> {
    PostJournal(UpTo(Journal(events), sequence))
  }

  predicate Selected(e: Event, sequence: Option<nat>) {
    e.payload.LedgerPosted? && Included(e.payload.transaction, sequence)
  }

  lemma JournalExtends(events: seq<Event>, e: Event)
    ensures Journal(events + [e]) ==
            Journal(events) + if e.payload.LedgerPosted? then [e.payload.transaction] else []
  {
    assert (events + [e])[..|events|] == events;
  }

  lemma UpToExtends(journal: seq<Transaction>, t: Transaction, sequence: Option<nat>)
    ensures UpTo(journal + [t], sequence) == UpTo(journal, sequence) + if Included(t, sequence) then [t] else []
  {
    assert (journal + [t])[..|journal|] == journal;
  }

  lemma PostJournalExtends(journal: seq<Transaction>, t: Transaction)
    ensures PostJournal(journal + [t]) ==
            var s := PostJournal(journal); if s.Rejected? then s else PostEntries(s.value, t.entries)
  {
    assert (journal + [t])[..|journal|] == journal;
  }

  lemma TotalsExtend(events: seq<Event>, e: Event, sequence: Option<nat>)
    ensures Totals(events + [e], sequence) ==
            var s := Totals(events, sequence);
            if s.Rejected? || !Selected(e, sequence) then s else PostEntries(s.value, e.payload.transaction.entries)
  {
    JournalExtends(events, e);
    var journal := Journal(events);
    if e.payload.LedgerPosted? {
      UpToExtends(journal, e.payload.transaction, sequence);
      if Selected(e, sequence) {
        PostJournalExtends(UpTo(journal, sequence), e.payload.transaction);
      } else {
        assert UpTo(journal, sequence) + [] == UpTo(journal, sequence);
      }
    } else {
      assert journal + [] == journal;
    }
  }

  /** A rejected prefix of the entries decides the whole. */
  lemma {:induction false} PostEntriesStops(s: LedgerState, entries: seq<Entry>, n: nat)
    requires n <= |entries| && PostEntries(s, entries[..n]).Rejected?
    ensures PostEntries(s, entries) == PostEntries(s, entries[..n])
  {
    if n < |entries| {
      var front := entries[..|entries| - 1];
      assert front[..n] == entries[..n];
      PostEntriesStops(s, front, n);
    } else {
      assert entries[..n] == entries;
    }
  }

  lemma {:induction false} TotalsStop(events: seq<Event>, sequence: Option<nat>, n: nat)
    requires n <= |events| && Totals(events[..n], sequence).Rejected?
    ensures Totals(events, sequence) == Totals(events[..n], sequence)
  {
    if n < |events| {
      var front := events[..|events| - 1];
      assert front[..n] == events[..n];
      TotalsStop(front, sequence, n);
      assert events == front + [events[|events| - 1]];
      TotalsExtend(front, events[|events| - 1], sequence);
    } else {
      assert events[..n] == events;
    }
  }

  /** Accumulates the state over the events, entry by entry. */
  method PostAll(before: LedgerState, entries: seq<Entry>) returns (r: Result<LedgerState>)
    ensures r == PostEntries(before, entries)
  {
    hide Post;
    var s := before;
    for j := 0 to |entries|
      invariant PostEntries(before, entries[..j]) == Ok(s)
    {
      assert entries[..j + 1][..j] == entries[..j];
      var next := Post(s, entries[j]);
      if next.Rejected? {
        PostEntriesStops(before, entries, j + 1);
        return next;
      }
      s := next.value;
    }
    assert entries[..|entries|] == entries;
    return Ok(s);
  }

  method ComputeState(events: seq<Event>, sequence: Option<nat>) returns (r: Result<LedgerState>)
    ensures r == StateOf(events, sequence)
  {
    var s := EMPTY;
    assert Totals(events[..0], sequence) == Ok(EMPTY);
    hide PostEntries, Journal, UpTo, PostJournal;
    for i := 0 to |events|
      invariant Totals(events[..i], sequence) == Ok(s)
    {
      var e := events[i];
      assert events[..i + 1] == events[..i] + [e];
      TotalsExtend(events[..i], e, sequence);
      if Selected(e, sequence) {
        var next := PostAll(s, e.payload.transaction.entries);
        if next.Rejected? {
          TotalsStop(events, sequence, i + 1);
          return next;
        }
        s := next.value;
      }
    }
    assert events[..|events|] == events;
    if !NonNegative(s) {
      return Rejected(InvalidRequest);
    }
    return Ok(s);
  }

  // Guards on a transaction

  /** The amount of the first entry for an account and instrument, or zero. */
  function AmountOf(entries: seq<Entry>, account: Account, id: Option<Id> := None): int {
    if entries == [] then 0
    else if entries[0].account == account && entries[0].instrumentId == id then Fixed(entries[0].amount)
    else AmountOf(entries[1..], account, id)
  }

  function FirstAmount(entries: seq<Entry>, account: Account): int {
    if entries == [] then 0
    else if entries[0].account == account then Fixed(entries[0].amount)
    else FirstAmount(entries[1..], account)
  }

  predicate DistinctEntries(entries: seq<Entry>) {
    forall i, j | 0 <= i < j < |entries| ::
      entries[i].account != entries[j].account || entries[i].instrumentId != entries[j].instrumentId
  }

  predicate InUniverse(c: Configuration, id: Id) {
    exists i | 0 <= i < |c.universe| :: c.universe[i].instrumentId == id
  }

  predicate PerInstrument(account: Account) {
    account == QuantityHeld || account == BookCost
  }

  /** Quantities and book costs name an instrument of the universe; other accounts name none. */
  predicate WellAddressed(e: Entry, c: Configuration) {
    if PerInstrument(e.account) then e.instrumentId.Some? && InUniverse(c, e.instrumentId.value)
    else e.instrumentId.None?
  }

  function FindInstrument(instruments: seq<Instrument>, id: Id): (r: Option<Instrument>)
    ensures r.Some? <==> exists i | 0 <= i < |instruments| :: instruments[i].instrumentId == id
    ensures r.Some? ==> r.value in instruments && r.value.instrumentId == id
  {
    if instruments == [] then None
    else if instruments[0].instrumentId == id then Some(instruments[0])
    else
      var r := FindInstrument(instruments[1..], id);
      assert forall i | 0 < i < |instruments| :: instruments[i] == instruments[1..][i - 1];
      r
  }

  /** A market observation must fit the configuration and, when given, a session and instrument. */
  function CheckObservation(m: Observation, c: Configuration, session: Date, id: Id): Check {
    var instrument := FindInstrument(c.universe + [c.benchmarkInstrument], m.instrumentId);
    var _ :- Need(instrument.Some?, Conflict);
    var _ :- Need(m.provider == c.marketProvider && m.feed == c.feed && m.calendarVersion == c.calendarVersion
            && m.venue == instrument.value.venue, Conflict);
    var _ :- Need(Fixed(m.value) > 0 && m.session == session && m.instrumentId == id);
    var _ :- Need(m.marketAt.ms <= m.retrievedAt.ms
            && (m.availableAt.Some? ==> m.marketAt.ms <= m.availableAt.value.ms <= m.retrievedAt.ms));
    PASS
  }

  /** The event that carries a named amendment; no name, no amendment. */
  function FindAmendment(events: seq<Event>, id: Option<Id>): Result<Option<Event>> {
    if id.None? then Ok(None)
    else
      var e := AmendmentEvent(events, id.value);
      var _ :- Need(e.Some?, DependencyNotReady);
      Ok(e)
  }

  function AmendmentOf(e: Event): Amendment
    requires IsAmendment(e)
  {
    e.payload.amendment.value
  }

  /** A fill executes the latest revision of its order, while it is pending and unfilled. */
  function CheckFillOrder(f: Fill, events: seq<Event>, records: Records): Result<Order> {
    var order :- Lookup(OrderKey(f.orderId, f.orderRevision), records);
    var _ :- Need(order.payload.PaperOrder?);
    var o := order.payload.order;
    var latest := LatestOrder(events, f.orderId);
    var _ :- Need(latest.Some? && latest.value.eventId == order.eventId, Conflict);
    var _ :- Need(o.status == Pending && o.terms.decisionId == f.decisionId && o.terms.decisionRevision == f.decisionRevision
            && o.terms.instrumentId == f.instrumentId && o.terms.side == f.side && o.terms.quantity == f.quantity,
            Conflict);
    var _ :- Need(!HasFill(Journal(events), f.orderId), Conflict);
    Ok(o)
  }

  predicate HasFill(journal: seq<Transaction>, orderId: Id) {
    exists i | 0 <= i < |journal| :: journal[i].fill.Some? && journal[i].fill.value.orderId == orderId
  }

  /** The times of decision, order, market and record keep their order; nothing is known in advance. */
  function CheckFillTimes(t: Transaction, f: Fill, o: Order, events: seq<Event>, records: Records, c: Configuration): Check {
    var decision :- Lookup(DecisionKey(f.decisionId, f.decisionRevision), records);
    var _ :- Need(decision.payload.DecisionPublished?);
    var market := f.observation.marketAt.ms;
    var _ :- Need(decision.payload.decision.proposal.committedAt.ms <= o.terms.deadline.ms < market
            && t.recordedAt.ms <= o.terms.expiresAt.ms);
    var _ :- Need(market - o.terms.deadline.ms >= c.cutoffMinutes * 60000);
    var _ :- CheckObservation(f.observation, c, o.terms.targetSession, f.instrumentId);
    var a :- FindAmendment(events, o.terms.executionAmendmentId);
    var _ :- Need(f.observation.field == (if a.Some? then RegularClose else RegularOpen)
            && f.observation.retrievedAt.ms <= t.recordedAt.ms && t.effectiveAt.ms == market);
    if a.Some? then
      var amendment := AmendmentOf(a.value);
      var _ :- Need(t.recordedAt.ms < amendment.expiresAt.ms && f.observation.marketAt == amendment.marketAt
              && f.observation.retrievedAt.ms >= amendment.collectionNotBefore.ms
              && t.recordedAt.ms >= amendment.processNotBefore.ms);
      PASS
    else PASS
  }

  function Multiplier(side: Side, c: Configuration): int {
    10000 + (if side == Buy then 1 else -1) * c.slippageBps
  }

  /** The price is the observed value moved by the slippage, rounded half-even, within the guard. */
  function CheckFillPrice(f: Fill, o: Order, c: Configuration): Check {
    var moved := Fixed(f.observation.value) * Multiplier(f.side, c);
    var expected := HalfEven(moved, 10000);
    var _ :- Need(Fixed(f.price) == expected && Fixed(f.fee) == Fixed(c.commission));
    var _ :- Need(f.priceRoundingResidual.numerator * 10000 == (expected * 10000 - moved) * f.priceRoundingResidual.denominator);
    var _ :- Need(if f.side == Buy then Fixed(f.price) <= Fixed(o.terms.priceGuard)
            else Fixed(f.price) >= Fixed(o.terms.priceGuard));
    PASS
  }

  /** The book cost a fill releases: all of it for a whole position, else the half-even share. */
  function ReleasedBasis(f: Fill, basis: int, held: int): Result<int> {
    var qty := Fixed(f.quantity);
    if f.side == Buy then Ok(0) else if qty == held then Ok(basis) else DivideEven(basis * qty, held)
  }

  function CheckFillPostings(t: Transaction, f: Fill, before: LedgerState): Check {
    var qty, fee := Fixed(f.quantity), Fixed(f.fee);
    var notional := Product(Fixed(f.quantity), Fixed(f.price));
    var basis, held := Get(before.basis, f.instrumentId), Get(before.quantity, f.instrumentId);
    var released :- ReleasedBasis(f, basis, held);
    var _ :- Need(Fixed(f.releasedBasis) == released && Fixed(f.roundingAdjustment) == 0);
    var residual := if f.side == Buy then 0 else released * held - basis * qty;
    var _ :- Need(f.basisRoundingResidual.numerator * (if f.side == Buy then 1 else held)
            == residual * f.basisRoundingResidual.denominator);
    var entries, id := t.entries, Some(f.instrumentId);
    var _ :- Need(AmountOf(entries, QuantityHeld, id) == if f.side == Buy then qty else -qty);
    var _ :- Need(AmountOf(entries, Cash) == if f.side == Buy then -notional - fee else notional - fee);
    var _ :- Need(AmountOf(entries, BookCost, id) == if f.side == Buy then notional + fee else -released);
    var _ :- Need(AmountOf(entries, RealizedPnl) == (if f.side == Buy then 0 else notional - fee - released)
            && AmountOf(entries, Fee) == fee);
    var _ :- Need(forall i | 0 <= i < |entries| ::
              entries[i].account in {Cash, QuantityHeld, BookCost, RealizedPnl, Fee});
    var _ :- Need(forall i | 0 <= i < |entries| :: entries[i].instrumentId.None? || entries[i].instrumentId == id, Conflict);
    PASS
  }

  function CheckFill(t: Transaction, events: seq<Event>, records: Records, c: Configuration, before: LedgerState): Check {
    var _ :- Need(t.fill.Some? && t.corporateAction.None? && t.correctionOf.None?);
    var f := t.fill.value;
    var o :- CheckFillOrder(f, events, records);
    var _ :- CheckFillTimes(t, f, o, events, records, c);
    var _ :- CheckFillPrice(f, o, c);
    CheckFillPostings(t, f, before)
  }

  /** A split rescales the quantity, rounding down; an unrepresentable remainder is declared. */
  function CheckSplit(t: Transaction, a: CorporateAction, before: LedgerState): Check
    requires NonNegative(before)
  {
    var _ :- Need(a.numerator.Some? && a.denominator.Some?);
    var held := Get(before.quantity, a.instrumentId);
    var raw, denominator := held * a.numerator.value, a.denominator.value;
    var after, residual := raw / denominator, raw % denominator;
    var _ :- Need(AmountOf(t.entries, QuantityHeld, Some(a.instrumentId)) == after - held && |t.entries| == 1
            && t.entries[0].account == QuantityHeld && t.entries[0].instrumentId == Some(a.instrumentId));
    if residual == 0 then
      var _ :- Need(a.fractionalEntitlement.None?);
      PASS
    else
      var _ :- Need(a.fractionalEntitlement.Some?
              && a.fractionalEntitlement.value.numerator * denominator * MICRO
                 == residual * a.fractionalEntitlement.value.denominator);
      PASS
  }

  predicate AccrualOf(t: Transaction, providerActionId: Id) {
    t.effect == AccrualEffect && t.corporateAction.Some? && t.corporateAction.value.providerActionId == providerActionId
  }

  function FindAccrual(journal: seq<Transaction>, providerActionId: Id): (r: Option<Transaction>)
    ensures r.Some? ==> r.value in journal && AccrualOf(r.value, providerActionId)
  {
    if journal == [] then None
    else if AccrualOf(journal[0], providerActionId) then Some(journal[0])
    else FindAccrual(journal[1..], providerActionId)
  }

  predicate SameDividend(a: CorporateAction, b: CorporateAction) {
    && a.instrumentId == b.instrumentId && a.providerActionId == b.providerActionId
    && a.sourceVersion == b.sourceVersion && a.exDate == b.exDate && a.paymentDate == b.paymentDate
    && a.cashPerShare == b.cashPerShare && a.entitledQuantity == b.entitledQuantity
  }

  function DividendOf(a: CorporateAction): int
    requires a.cashPerShare.Some? && a.entitledQuantity.Some?
  {
    Product(Fixed(a.cashPerShare.value), Fixed(a.entitledQuantity.value))
  }

  /** An accrual books a receivable as income; its one payment turns the same amount into cash. */
  function CheckDividend(t: Transaction, a: CorporateAction, journal: seq<Transaction>): Check {
    var _ :- Need(a.exDate.Some? && a.cashPerShare.Some? && a.entitledQuantity.Some?);
    var dividend := DividendOf(a);
    var _ :- Need(dividend > 0);
    if t.effect == AccrualEffect then
      var _ :- Need(AmountOf(t.entries, Receivable) == dividend && AmountOf(t.entries, Income) == dividend
              && forall i | 0 <= i < |t.entries| :: t.entries[i].account in {Receivable, Income});
      PASS
    else
      var accrual := FindAccrual(journal, a.providerActionId);
      var _ :- Need(a.paymentDate.Some? && accrual.Some? && DateOf(t.effectiveAt) == a.paymentDate.value);
      var _ :- Need(SameDividend(a, accrual.value.corporateAction.value), Conflict);
      var _ :- Need(FirstAmount(accrual.value.entries, Receivable) == dividend, Conflict);
      var _ :- Need(AmountOf(t.entries, Receivable) == -dividend && AmountOf(t.entries, Cash) == dividend
              && forall i | 0 <= i < |t.entries| :: t.entries[i].account in {Receivable, Cash});
      PASS
  }

  function EffectOf(kind: ActionKind): Option<Effect> {
    match kind
    case Split => Some(SplitEffect)
    case DividendAccrual => Some(AccrualEffect)
    case DividendPayment => Some(PaymentEffect)
    case _ => None
  }

  predicate SameAction(j: Transaction, t: Transaction, a: CorporateAction) {
    j.effect == t.effect && j.corporateAction.Some? && j.corporateAction.value.providerActionId == a.providerActionId
  }

  function CheckAction(t: Transaction, journal: seq<Transaction>, c: Configuration, before: LedgerState): Check
    requires NonNegative(before)
  {
    var _ :- Need(t.corporateAction.Some? && EffectOf(t.corporateAction.value.kind) == Some(t.effect) && t.correctionOf.None?);
    var a := t.corporateAction.value;
    var _ :- Need(InUniverse(c, a.instrumentId));
    var _ :- Need(!exists i | 0 <= i < |journal| :: SameAction(journal[i], t, a), Conflict);
    if t.effect == SplitEffect then CheckSplit(t, a, before) else CheckDividend(t, a, journal)
  }

  function CheckInitialization(t: Transaction, c: Configuration): Check {
    var _ :- Need(t.journalSequence == 1 && t.fill.None? && t.corporateAction.None? && t.correctionOf.None? && |t.entries| == 2);
    var _ :- Need(AmountOf(t.entries, Cash) == Fixed(c.initialCapital) && AmountOf(t.entries, Capital) == Fixed(c.initialCapital));
    PASS
  }

  function CheckEffect(t: Transaction, events: seq<Event>, records: Records, c: Configuration, before: LedgerState): Check
    requires NonNegative(before)
  {
    if t.effect == Initialization then CheckInitialization(t, c)
    else
      var _ :- Need(t.journalSequence > 1 && AmountOf(t.entries, Capital) == 0);
      if t.effect == FillEffect then CheckFill(t, events, records, c, before)
      else
        var _ :- Need(t.fill.None?);
        if t.effect == Correction then
          var _ :- Need(t.correctionOf.Some? && t.corporateAction.None?);
          var _ :- Lookup(t.correctionOf.value.key, records);
          PASS
        else CheckAction(t, Journal(events), c, before)
  }

  /** A transaction extends the journal it names: next sequence, previous hash, own hash. */
  function CheckLink(t: Transaction, journal: seq<Transaction>, c: Configuration, hash: Hasher): Check {
    var last := if journal == [] then None else Some(journal[|journal| - 1]);
    var _ :- Need(t.journalSequence == (if last.Some? then last.value.journalSequence else 0) + 1, SequenceGap);
    var _ :- Need(&& t.previousHash == (if last.Some? then Some(last.value.journalHash) else None)
            && t.previousLedgerVersion == (if last.Some? then Some(last.value.ledgerVersion) else None)
            && t.ledgerVersion == t.journalSequence, Conflict);
    var _ :- Need(t.journalHash == hash(OfJournal(Unhashed(t))), Conflict);
    var _ :- Need(t.configurationHash == hash(OfConfiguration(c)) && t.effectiveAt.ms <= t.recordedAt.ms, Conflict);
    var _ :- Need(forall i | 0 <= i < |journal| :: journal[i].sourceOperationId != t.sourceOperationId, Conflict);
    PASS
  }

  function CheckLedger(t: Transaction, events: seq<Event>, records: Records, c: Configuration, hash: Hasher): Check {
    var _ :- CheckLink(t, Journal(events), c, hash);
    var _ :- Need(DistinctEntries(t.entries));
    var _ :- Need(forall i | 0 <= i < |t.entries| :: WellAddressed(t.entries[i], c));
    var before :- StateOf(events);
    CheckEffect(t, events, records, c, before)
  }
}
