/** Portfolio snapshots: every figure must agree with the ledger prefix the snapshot names. */
module Snapshots {
  import opened Checks
  import opened Decimals
  import opened Events
  import opened Ledger
  import opened Rounding

  /** The first transaction with a sequence number. */
  function FindJournal(journal: seq<Transaction>, sequence: nat): (r: Option<Transaction>)
    ensures r.Some? ==> r.value in journal && r.value.journalSequence == sequence
  {
    if journal == [] then None
    else if journal[0].journalSequence == sequence then Some(journal[0])
    else FindJournal(journal[1..], sequence)
  }

  function HoldingIds(holdings: seq<Holding>): (ids: seq<Id>)
    ensures |ids| == |holdings| && forall i | 0 <= i < |ids| :: ids[i] == holdings[i].instrumentId
  {
    seq(|holdings|, i requires 0 <= i < |holdings| => holdings[i].instrumentId)
  }

  function Held(s: LedgerState): set<Id> {
    set id | id in s.quantity && s.quantity[id] > 0
  }

  predicate Distinct<T(==)>(s: seq<T>) {
    forall i, j | 0 <= i < j < |s| :: s[i] != s[j]
  }

  /** The update in force at an instant: latest effective time, then highest version, then arrival. */
  function UpdateInForce(updates: seq<InstrumentUpdate>, asOf: Time): Option<InstrumentUpdate> {
    if updates == [] then None
    else
      var best, last := UpdateInForce(updates[..|updates| - 1], asOf), updates[|updates| - 1];
      if last.effectiveAt.ms > asOf.ms then best
      else if best.None? || best.value.effectiveAt.ms < last.effectiveAt.ms
              || (best.value.effectiveAt.ms == last.effectiveAt.ms && best.value.version <= last.version)
      then Some(last) else best
  }

  function InstrumentInForce(events: seq<Event>, c: Configuration, id: Id, asOf: Time): Option<Instrument> {
    var update := UpdateInForce(Updates(events, id), asOf);
    if update.Some? then Some(update.value.instrument) else FindInstrument(c.universe, id)
  }

  datatype Valuation = Valuation(value: int, unrealized: int)

  /** One holding against the ledger; an unmarked holding adds nothing and must say why. */
  function CheckHolding(h: Holding, s: Snapshot, events: seq<Event>, c: Configuration, ledger: LedgerState): Result<Valuation> {
    var _ :- Need(&& h.instrumentId in ledger.quantity && Fixed(h.quantity) == ledger.quantity[h.instrumentId]
            && h.instrumentId in ledger.basis && Fixed(h.bookCost) == ledger.basis[h.instrumentId]);
    var instrument := InstrumentInForce(events, c, h.instrumentId, s.valuationAsOf);
    var _ :- Need(instrument.Some? && h.sector == instrument.value.sector && h.symbol == instrument.value.symbol);
    if h.mark.None? then
      var _ :- Need(h.marketValue.None? && h.unrealizedPnl.None? && h.missingReason.Some?);
      Ok(Valuation(0, 0))
    else
      var mark := h.mark.value;
      var _ :- CheckObservation(mark, c, s.session, h.instrumentId);
      var _ :- Need(mark.field == RegularClose && mark.marketAt.ms <= s.valuationAsOf.ms);
      var _ :- Need(h.marketValue.Some? && Fixed(h.marketValue.value) == Product(Fixed(h.quantity), Fixed(mark.value)));
      var _ :- Need(h.unrealizedPnl.Some? && Fixed(h.unrealizedPnl.value) == Fixed(h.marketValue.value) - Fixed(h.bookCost)
              && h.missingReason.None?);
      Ok(Valuation(Fixed(h.marketValue.value), Fixed(h.unrealizedPnl.value)))
  }

  function CheckHoldings(holdings: seq<Holding>, s: Snapshot, events: seq<Event>, c: Configuration,
                         ledger: LedgerState): Result<Valuation> {
    if holdings == [] then Ok(Valuation(0, 0))
    else
      AddValuation(CheckHoldings(holdings[..|holdings| - 1], s, events, c, ledger),
                   CheckHolding(holdings[|holdings| - 1], s, events, c, ledger))
  }

  function AddValuation(sum: Result<Valuation>, one: Result<Valuation>): Result<Valuation> {
    var a :- sum;
    var b :- one;
    Ok(Valuation(a.value + b.value, a.unrealized + b.unrealized))
  }

  lemma HoldingsExtend(holdings: seq<Holding>, n: nat, s: Snapshot, events: seq<Event>, c: Configuration,
                       ledger: LedgerState)
    requires n < |holdings|
    ensures CheckHoldings(holdings[..n + 1], s, events, c, ledger) ==
            AddValuation(CheckHoldings(holdings[..n], s, events, c, ledger), CheckHolding(holdings[n], s, events, c, ledger))
  {
    hide CheckHolding;
    assert holdings[..n + 1][..n] == holdings[..n];
  }

  /** Adds up the holdings one by one, stopping at the first that disagrees. */
  method SumHoldings(s: Snapshot, events: seq<Event>, c: Configuration, ledger: LedgerState)
    returns (r: Result<Valuation>)
    ensures r == CheckHoldings(s.holdings, s, events, c, ledger)
  {
    var values, unrealized := 0, 0;
    hide CheckHolding;
    for i := 0 to |s.holdings|
      invariant CheckHoldings(s.holdings[..i], s, events, c, ledger) == Ok(Valuation(values, unrealized))
    {
      HoldingsExtend(s.holdings, i, s, events, c, ledger);
      var one := CheckHolding(s.holdings[i], s, events, c, ledger);
      if one.Rejected? {
        HoldingsStop(s.holdings, i + 1, s, events, c, ledger);
        return Rejected(one.code);
      }
      values, unrealized := values + one.value.value, unrealized + one.value.unrealized;
    }
    assert s.holdings[..|s.holdings|] == s.holdings;
    return Ok(Valuation(values, unrealized));
  }

  lemma {:induction false} HoldingsStop(holdings: seq<Holding>, n: nat, s: Snapshot, events: seq<Event>,
                                        c: Configuration, ledger: LedgerState)
    requires n <= |holdings| && CheckHoldings(holdings[..n], s, events, c, ledger).Rejected?
    ensures CheckHoldings(holdings, s, events, c, ledger) == CheckHoldings(holdings[..n], s, events, c, ledger)
  {
    hide CheckHolding;
    if n < |holdings| {
      var front := holdings[..|holdings| - 1];
      assert front[..n] == holdings[..n];
      HoldingsStop(front, n, s, events, c, ledger);
    } else {
      assert holdings[..n] == holdings;
    }
  }

  /** The first allocation of the benchmark: sized at the amended close, within the capital. */
  function CheckAllocation(x: Allocation, s: Snapshot, c: Configuration, a: Amendment, recordedAt: Time): Check {
    var o := x.observation;
    var _ :- CheckObservation(o, c, a.session, s.benchmark.instrumentId);
    var _ :- Need(o.field == RegularClose && o.marketAt == a.marketAt && o.retrievedAt.ms >= a.collectionNotBefore.ms
            && x.recordedAt.ms >= a.processNotBefore.ms && x.recordedAt.ms >= o.retrievedAt.ms
            && x.recordedAt.ms < a.expiresAt.ms && x.recordedAt.ms <= recordedAt.ms
            && o.marketAt.ms <= s.valuationAsOf.ms);
    AmountNonNegative(c.initialCapital);
    var units := AffordableUnits(Fixed(c.initialCapital), Fixed(o.value));
    var _ :- Need(Fixed(x.units) == units && Fixed(x.cash) == Fixed(c.initialCapital) - Product(units, Fixed(o.value)));
    PASS
  }

  /** The latest allocated recovery among earlier snapshots. */
  function LatestRecovery(snapshots: seq<Snapshot>): Option<Recovery> {
    if snapshots == [] then None
    else
      var r := snapshots[|snapshots| - 1].benchmark.recovery;
      if r.Some? && r.value.allocation.Some? then r else LatestRecovery(snapshots[..|snapshots| - 1])
  }

  function CheckRecovery(s: Snapshot, events: seq<Event>, c: Configuration, recordedAt: Time, hash: Hasher): Check {
    var b := s.benchmark;
    if b.recovery.None? then
      var _ :- Need(forall i | 0 <= i < |events| :: IsAmendment(events[i]) ==> events[i].recordedAt.ms > s.valuationAsOf.ms, Conflict);
      PASS
    else
      var e :- FindAmendment(events, Some(b.recovery.value.amendmentId));
      var a := AmendmentOf(e.value);
      var allocation := b.recovery.value.allocation;
      var _ :- if allocation.Some? then CheckAllocation(allocation.value, s, c, a, recordedAt) else PASS;
      var prior := LatestRecovery(Snapshots(events));
      if prior.Some? then
        var _ :- Need(hash(OfRecovery(prior.value)) == hash(OfRecovery(b.recovery.value)), Conflict);
        PASS
      else if allocation.Some? then
        var _ :- Need(s.session == a.session && b.units == allocation.value.units && b.cash == allocation.value.cash
                && Fixed(b.receivables) == 0, Conflict);
        PASS
      else
        var _ :- Need(Fixed(b.units) == 0 && Fixed(b.cash) == Fixed(c.initialCapital) && Fixed(b.receivables) == 0, Conflict);
        PASS
  }

  /** A return in millionths over a base. */
  function Return(equity: int, base: int): Result<int> {
    var r :- DivideEven(equity * MICRO, base);
    Ok(r - MICRO)
  }

  function CheckBenchmark(s: Snapshot, events: seq<Event>, c: Configuration, recordedAt: Time, hash: Hasher): Check {
    var b := s.benchmark;
    var _ :- Need(b.instrumentId == c.benchmarkInstrument.instrumentId && b.session == s.session
            && b.convention == c.benchmarkConvention);
    var _ :- CheckRecovery(s, events, c, recordedAt, hash);
    if b.mark.Some? then
      var mark := b.mark.value;
      var _ :- CheckObservation(mark, c, s.session, b.instrumentId);
      var _ :- Need(mark.field == RegularClose && mark.marketAt.ms <= s.valuationAsOf.ms);
      var _ :- Need(b.equity.Some? && Fixed(b.equity.value)
              == Product(Fixed(b.units), Fixed(mark.value)) + Fixed(b.cash) + Fixed(b.receivables));
      var total :- Return(Fixed(b.equity.value), Fixed(c.initialCapital));
      var _ :- Need(b.totalReturn.Some? && Fixed(b.totalReturn.value) == total && b.missingReason.None?);
      PASS
    else
      var _ :- Need(b.equity.None? && b.totalReturn.None? && b.missingReason.Some?);
      PASS
  }

  function CheckComplete(s: Snapshot, c: Configuration, ledger: LedgerState, v: Valuation): Check {
    var _ :- Need(&& (forall i | 0 <= i < |s.holdings| :: s.holdings[i].mark.Some?) && s.benchmark.mark.Some? && s.equity.Some?
            && s.unrealizedPnl.Some? && s.totalReturn.Some? && s.peakEquity.Some? && s.drawdown.Some?
            && s.maxDrawdown.Some? && s.excessReturn.Some? && s.benchmark.totalReturn.Some?);
    var equity := ledger.cash + v.value + ledger.receivable - ledger.liability;
    var _ :- Need(Fixed(s.equity.value) == equity && Fixed(s.unrealizedPnl.value) == v.unrealized);
    var total :- Return(equity, Fixed(c.initialCapital));
    var _ :- Need(Fixed(s.totalReturn.value) == total);
    var peak := Fixed(s.peakEquity.value);
    var _ :- Need(peak >= equity && peak > 0 && Fixed(s.drawdown.value) == HalfEven(equity * MICRO, peak) - MICRO);
    var _ :- Need(-MICRO <= Fixed(s.maxDrawdown.value) <= Fixed(s.drawdown.value));
    var _ :- Need(Fixed(s.excessReturn.value) == Fixed(s.totalReturn.value) - Fixed(s.benchmark.totalReturn.value));
    if s.previousComparableEquity.None? then
      var _ :- Need(s.dailyReturn.None?);
      PASS
    else
      var previous := Fixed(s.previousComparableEquity.value);
      var _ :- Need(previous > 0 && s.dailyReturn.Some?
              && Fixed(s.dailyReturn.value) == HalfEven(equity * MICRO, previous) - MICRO);
      PASS
  }

  function CheckQuality(s: Snapshot, c: Configuration, ledger: LedgerState, v: Valuation): Check {
    if s.quality == Complete then CheckComplete(s, c, ledger, v)
    else
      var _ :- Need(s.equity.None? && s.totalReturn.None? && s.dailyReturn.None? && s.drawdown.None?
              && s.excessReturn.None? && s.limitations != []);
      PASS
  }

  /** The latest earlier revision of a valuation. */
  function LatestRevision(snapshots: seq<Snapshot>, valuationId: Id): Option<Snapshot> {
    if snapshots == [] then None
    else
      var last := snapshots[|snapshots| - 1];
      if last.valuationId == valuationId then Some(last)
      else LatestRevision(snapshots[..|snapshots| - 1], valuationId)
  }

  function CheckValuationRevision(s: Snapshot, snapshots: seq<Snapshot>): Check {
    var _ :- Need(forall i | 0 <= i < |snapshots| ::
              snapshots[i].valuationSequence == s.valuationSequence ==> snapshots[i].valuationId == s.valuationId, Conflict);
    var prior := LatestRevision(snapshots, s.valuationId);
    if prior.Some? then
      var _ :- Need(s.revision == prior.value.revision + 1 && s.valuationSequence == prior.value.valuationSequence
              && s.supersedes.Some? && s.supersedes.value.key.id == s.valuationId
              && s.supersedes.value.key.version == prior.value.revision, Conflict);
      PASS
    else
      var _ :- Need(s.revision == 1 && s.supersedes.None?);
      PASS
  }

  /** The cash, receivables, liabilities, realized result and holdings are those of the ledger prefix. */
  function CheckBalances(s: Snapshot, ledger: LedgerState): Check {
    var _ :- Need(Fixed(s.cash) == ledger.cash && Fixed(s.receivables) == ledger.receivable
            && Fixed(s.liabilities) == ledger.liability && Fixed(s.realizedPnl) == ledger.realized);
    var ids := HoldingIds(s.holdings);
    var _ :- Need(Distinct(ids));
    var _ :- Need(multiset(ids) == multiset(Held(ledger)));
    PASS
  }

  function CheckSnapshot(s: Snapshot, events: seq<Event>, c: Configuration, recordedAt: Time, hash: Hasher): Check {
    var journal := FindJournal(Journal(events), s.journalSequence);
    var _ :- Need(journal.Some?, DependencyNotReady);
    var _ :- Need(journal.value.journalHash == s.journalHash && s.configurationHash == hash(OfConfiguration(c)), Conflict);
    var ledger :- StateOf(events, Some(s.journalSequence));
    var _ :- CheckBalances(s, ledger);
    var v :- CheckHoldings(s.holdings, s, events, c, ledger);
    var _ :- CheckBenchmark(s, events, c, recordedAt, hash);
    var _ :- CheckQuality(s, c, ledger, v);
    CheckValuationRevision(s, Snapshots(events))
  }
}
