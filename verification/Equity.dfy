/** What a complete portfolio snapshot says about the history before it. */
module Equity {
  import opened Checks
  import opened Decimals
  import opened Events
  import opened Ledger
  import opened Orders
  import opened Snapshots
  import opened Publication
  import opened History
  import opened Balance
  import opened Positions
  import opened Sums

  lemma {:induction false} FindJournalAt(journal: seq<Transaction>, from: nat, n: nat)
    requires from <= |journal| && forall i | 0 <= i < |journal| :: journal[i].journalSequence == i + 1
    ensures FindJournal(journal[from..], n) ==
            if from < n <= |journal| then Some(journal[n - 1]) else None
    decreases |journal| - from
  {
    if from < |journal| {
      FindJournalAt(journal, from + 1, n);
      assert journal[from..][1..] == journal[from + 1..];
    }
  }

  lemma {:induction false} UpToIsPrefix(journal: seq<Transaction>, n: nat)
    requires 0 < n && forall i | 0 <= i < |journal| :: journal[i].journalSequence == i + 1
    ensures UpTo(journal, Some(n)) == if n <= |journal| then journal[..n] else journal
  {
    if journal != [] {
      var front := journal[..|journal| - 1];
      UpToIsPrefix(front, n);
      assert journal == front + [journal[|journal| - 1]];
      if n < |journal| {
        assert front[..n] == journal[..n];
      } else {
        assert journal[..|journal|] == journal;
      }
    }
  }

  lemma SoundPrefix(journal: seq<Transaction>, n: nat, c: Configuration)
    requires SoundJournal(journal, c) && Posted(journal) && n <= |journal|
    ensures SoundJournal(journal[..n], c) && Posted(journal[..n])
  {
    hide Guarded, PostJournal;
    if n < |journal| {
      SoundAt(journal, n, c);
      SoundGuards(journal[n], journal[..n], c);
    } else {
      assert journal[..n] == journal;
    }
  }

  /** The marked value of the holdings, less the unrealized result, is their book cost. */
  lemma {:induction false} HoldingsBookCost(holdings: seq<Holding>, s: Snapshot, events: seq<Event>, c: Configuration,
                                            ledger: LedgerState)
    requires CheckHoldings(holdings, s, events, c, ledger).Ok?
    requires forall i | 0 <= i < |holdings| :: holdings[i].mark.Some?
    ensures forall id | id in HoldingIds(holdings) :: id in ledger.basis
    ensures var v := CheckHoldings(holdings, s, events, c, ledger).value;
            v.value - v.unrealized == SeqSum(HoldingIds(holdings), ledger.basis)
  {
    hide CheckHolding, Fixed;
    if holdings != [] {
      var n := |holdings| - 1;
      HoldingsBookCost(holdings[..n], s, events, c, ledger);
      HoldingBookCost(holdings[n], s, events, c, ledger);
      assert HoldingIds(holdings) == HoldingIds(holdings[..n]) + [holdings[n].instrumentId];
      assert HoldingIds(holdings)[..n] == HoldingIds(holdings[..n]);
    }
  }

  lemma HoldingBookCost(h: Holding, s: Snapshot, events: seq<Event>, c: Configuration, ledger: LedgerState)
    requires CheckHolding(h, s, events, c, ledger).Ok? && h.mark.Some?
    ensures h.instrumentId in ledger.basis
    ensures var v := CheckHolding(h, s, events, c, ledger).value; v.value - v.unrealized == ledger.basis[h.instrumentId]
  {
    hide InstrumentInForce, CheckObservation, Fixed;
  }

  /** Book cost left on positions that hold nothing. */
  ghost function StrandedCost(s: LedgerState): int {
    MapSum(s.basis - Held(s))
  }

  /** The ledger prefix a snapshot names. */
  function NamedJournal(s: Snapshot, before: seq<Event>): seq<Transaction> {
    var journal := Journal(before);
    if s.journalSequence <= |journal| then journal[..s.journalSequence] else journal
  }

  lemma SnapshotParts(s: Snapshot, events: seq<Event>, c: Configuration, recordedAt: Time, hash: Hasher)
    returns (v: Valuation)
    requires CheckSnapshot(s, events, c, recordedAt, hash).Ok? && s.quality == Complete
    ensures FindJournal(Journal(events), s.journalSequence).Some?
    ensures FindJournal(Journal(events), s.journalSequence).value.journalHash == s.journalHash
    ensures StateOf(events, Some(s.journalSequence)).Ok?
    ensures var ledger := StateOf(events, Some(s.journalSequence)).value;
            && CheckBalances(s, ledger).Ok?
            && CheckHoldings(s.holdings, s, events, c, ledger) == Ok(v)
            && (forall i | 0 <= i < |s.holdings| :: s.holdings[i].mark.Some?)
            && s.equity.Some? && s.unrealizedPnl.Some?
            && Fixed(s.equity.value) == ledger.cash + v.value + ledger.receivable - ledger.liability
            && Fixed(s.unrealizedPnl.value) == v.unrealized
  {
    hide CheckHoldings, CheckBenchmark, CheckValuationRevision, CheckBalances, StateOf, FindJournal, Journal, Fixed, Return;
    v := CheckHoldings(s.holdings, s, events, c, StateOf(events, Some(s.journalSequence)).value).value;
  }

  lemma HeldBookCost(s: Snapshot, events: seq<Event>, c: Configuration, ledger: LedgerState)
    requires CheckBalances(s, ledger).Ok? && CheckHoldings(s.holdings, s, events, c, ledger).Ok?
    requires forall i | 0 <= i < |s.holdings| :: s.holdings[i].mark.Some?
    ensures var v := CheckHoldings(s.holdings, s, events, c, ledger).value;
            v.value - v.unrealized == MapSum(ledger.basis) - StrandedCost(ledger)
  {
    hide CheckHoldings, MapSum, SeqSum, Fixed;
    HoldingsBookCost(s.holdings, s, events, c, ledger);
    var ids := HoldingIds(s.holdings);
    assert (set k | k in ids) == Held(ledger) by {
      forall k ensures k in ids <==> k in Held(ledger) {
        assert k in ids <==> k in multiset(ids);
      }
    }
    SeqSumIsMapSum(ids, ledger.basis);
    MapSumParts(ledger.basis, Held(ledger));
  }

  /** The snapshot was published right after this history, in some accepted history. */
  ghost predicate Reported(before: seq<Event>, s: Snapshot, hash: Hasher) {
    exists e: Event, rest: seq<Event> :: e.payload == SnapshotPublished(s) && Accepted(before + [e] + rest, hash)
  }

  lemma ReportedAfter(before: seq<Event>, s: Snapshot, hash: Hasher) returns (e: Event)
    requires Reported(before, s, hash)
    ensures Accepted(before, hash) && Admissible(e, before, hash) && e.payload == SnapshotPublished(s)
  {
    hide Accepted, Admissible;
    var rest;
    e, rest :| e.payload == SnapshotPublished(s) && Accepted(before + [e] + rest, hash);
    AcceptedAt(before + [e] + rest, before, e, rest, hash);
  }

  /**
   * The equity of a snapshot: the initial capital, the realized and unrealized results and the
   * dividend income accrued up to its journal sequence, plus what corrections put out of balance,
   * less cost stranded on empty positions.
   */
  ghost predicate Explained(s: Snapshot, before: seq<Event>) {
    && RunOf(before).Some? && s.equity.Some? && s.unrealizedPnl.Some?
    && var c, journal := RunOf(before).value.configuration, NamedJournal(s, before);
       && 0 < s.journalSequence == |journal| && journal[|journal| - 1].journalHash == s.journalHash
       && Posted(journal) && SoundJournal(journal, c)
       && Fixed(s.equity.value) ==
            Fixed(c.initialCapital) + Fixed(s.realizedPnl) + Fixed(s.unrealizedPnl.value) + TotalIncome(journal)
            + CorrectionImbalance(journal) - StrandedCost(PostJournal(journal).value)
  }

  /** Every complete snapshot of every accepted history states its equity so. */
  lemma SnapshotEquity(before: seq<Event>, s: Snapshot, hash: Hasher)
    requires Reported(before, s, hash) && s.quality == Complete
    ensures Explained(s, before)
  {
    hide Admissible, Accepted, CheckSnapshot, CheckLedger, CheckDecision, CheckOrder, SoundJournal, Posted, PostJournal,
      Journal, Fixed, StrandedCost, Reported;
    var e := ReportedAfter(before, s, hash);
    AdmittedPassed(e, before, hash);
    JournalIsSound(before, hash);
    SnapshotOnJournal(s, before, RunOf(before).value.configuration, e.recordedAt, hash);
  }

  lemma SnapshotOnJournal(s: Snapshot, before: seq<Event>, c: Configuration, recordedAt: Time, hash: Hasher)
    requires CheckSnapshot(s, before, c, recordedAt, hash).Ok? && s.quality == Complete
    requires RunOf(before).Some? && RunOf(before).value.configuration == c
    requires Posted(Journal(before)) && SoundJournal(Journal(before), c)
    ensures Explained(s, before)
  {
    hide CheckSnapshot, SoundJournal, PostJournal, NonNegative, Journal, CheckHoldings, MapSum, Fixed, StrandedCost;
    var all, n := Journal(before), s.journalSequence;
    SequenceIsPosition(all, c);
    var v := SnapshotParts(s, before, c, recordedAt, hash);
    FindJournalAt(all, 0, n);
    assert all[0..] == all;
    UpToIsPrefix(all, n);
    SoundPrefix(all, n, c);
    var journal := all[..n];
    var ledger := StateOf(before, Some(n)).value;
    assert PostJournal(journal) == Ok(ledger);
    LedgerBalances(journal, c);
    HeldBookCost(s, before, c, ledger);
    BalancesAgree(s, ledger);
  }

  lemma BalancesAgree(s: Snapshot, ledger: LedgerState)
    requires CheckBalances(s, ledger).Ok?
    ensures Fixed(s.realizedPnl) == ledger.realized
  {
    hide Fixed;
  }

  lemma StrandedCostVanishes(s: LedgerState)
    requires NonNegative(s)
    ensures StrandedCost(s) == 0 <==> Flat(s)
  {
    hide MapSum;
    var rest := s.basis - Held(s);
    MapSumZero(rest);
    forall id ensures Get(s.quantity, id) == 0 && Get(s.basis, id) != 0 <==> id in rest && rest[id] != 0 {
    }
    forall id ensures FlatAt(s, id) <==> !(id in rest && rest[id] != 0) {
    }
    if Flat(s) {
      assert forall id | id in rest :: FlatAt(s, id) && Get(s.quantity, id) == 0;
    }
  }

  /** Equity is this much above capital, realized and unrealized results and income. */
  ghost predicate EquityOff(s: Snapshot, before: seq<Event>, excess: int) {
    && RunOf(before).Some? && s.equity.Some? && s.unrealizedPnl.Some?
    && Fixed(s.equity.value) == Fixed(RunOf(before).value.configuration.initialCapital)
         + Fixed(s.realizedPnl) + Fixed(s.unrealizedPnl.value) + TotalIncome(NamedJournal(s, before)) + excess
  }

  /** No empty position carries cost after this journal. */
  ghost predicate FlatAfter(journal: seq<Transaction>) {
    PostJournal(journal).Ok? && Flat(PostJournal(journal).value)
  }

  /**
   * In a correction-free history the textbook identity holds for a complete snapshot exactly
   * when no empty position of its ledger prefix carries cost, as when no split strands any.
   */
  lemma EquityIdentityExactly(before: seq<Event>, s: Snapshot, hash: Hasher)
    requires Reported(before, s, hash) && s.quality == Complete && CorrectionFree(Journal(before))
    ensures Explained(s, before) && (EquityOff(s, before, 0) <==> FlatAfter(NamedJournal(s, before)))
    ensures StrandsNothing(NamedJournal(s, before)) ==> FlatAfter(NamedJournal(s, before))
  {
    hide SoundJournal, PostJournal, NonNegative, Fixed, StrandedCost, StrandsNothing, Flat, Reported, Journal;
    SnapshotEquity(before, s, hash);
    var journal := NamedJournal(s, before);
    NoCorrectionsNoImbalance(journal);
    StrandedCostVanishes(PostJournal(journal).value);
    if StrandsNothing(journal) {
      ClosedPositionsCarryNoCost(journal, RunOf(before).value.configuration);
    }
  }
}
