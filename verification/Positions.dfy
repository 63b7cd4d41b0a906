/** Positions: what is paid in, what sales release, and when a closed position keeps no cost. */
module Positions {
  import opened Checks
  import opened Decimals
  import opened Events
  import opened Ledger
  import opened Snapshots
  import opened Publication
  import opened History
  import opened Postings
  import opened Balance
  import opened Rounding
  import opened Sums

  /** No position is closed while it still carries book cost. */
  ghost predicate Flat(s: LedgerState) {
    forall id :: FlatAt(s, id)
  }

  predicate FlatAt(s: LedgerState, id: Id) {
    Get(s.quantity, id) == 0 ==> Get(s.basis, id) == 0
  }

  /** A split that rounds a position with book cost down to nothing. */
  ghost predicate StrandsCost(t: Transaction, before: LedgerState) {
    && t.effect == SplitEffect && t.corporateAction.Some?
    && var a := t.corporateAction.value;
       && a.numerator.Some? && a.denominator.Some?
       && Get(before.basis, a.instrumentId) > 0
       && Get(before.quantity, a.instrumentId) * a.numerator.value < a.denominator.value
  }

  /** How one transaction moves the position in one instrument. */
  lemma PositionMoves(t: Transaction, journal: seq<Transaction>, c: Configuration, id: Id)
    requires Sound(t, journal, c) && Posted(journal + [t])
    ensures var s, u := PostJournal(journal).value, PostJournal(journal + [t]).value;
            && Get(u.quantity, id) == Get(s.quantity, id) + SumFor(t.entries, QuantityHeld, Some(id))
            && Get(u.basis, id) == Get(s.basis, id) + SumFor(t.entries, BookCost, Some(id))
  {
    hide Guarded, Sound, Sum, SumFor, NonNegative, PostEntries, MapSum;
    SoundGuards(t, journal, c);
    PostJournalExtends(journal, t);
    EntriesMove(PostJournal(journal).value, t.entries);
  }

  /** The position a fill trades, before and after. */
  lemma FillMoves(t: Transaction, journal: seq<Transaction>, c: Configuration)
    requires Sound(t, journal, c) && Posted(journal + [t]) && t.effect == FillEffect
    ensures t.fill.Some?
    ensures var s, u := PostJournal(journal).value, PostJournal(journal + [t]).value;
            var f := t.fill.value; var id, qty := f.instrumentId, Fixed(f.quantity);
            && Get(u.quantity, id) == Get(s.quantity, id) + (if f.side == Buy then qty else -qty)
            && Get(u.basis, id) == Get(s.basis, id) +
                 (if f.side == Buy then Product(qty, Fixed(f.price)) + Fixed(f.fee) else -Fixed(f.releasedBasis))
            && ReleasedBasis(f, Get(s.basis, id), Get(s.quantity, id)) == Ok(Fixed(f.releasedBasis))
    ensures var s, u := PostJournal(journal).value, PostJournal(journal + [t]).value;
            forall id | id != t.fill.value.instrumentId ::
              Get(u.quantity, id) == Get(s.quantity, id) && Get(u.basis, id) == Get(s.basis, id)
  {
    hide Fixed, Product, Get, PostJournal, NonNegative, ReleasedBasis, SumFor, WellAddressed, DistinctEntries, CheckAction,
      CheckInitialization;
    SoundGuards(t, journal, c);
    FillBalances(t, journal, c);
    PositionMoves(t, journal, c, t.fill.value.instrumentId);
    forall id | id != t.fill.value.instrumentId
      ensures var s, u := PostJournal(journal).value, PostJournal(journal + [t]).value;
              Get(u.quantity, id) == Get(s.quantity, id) && Get(u.basis, id) == Get(s.basis, id)
    {
      PositionMoves(t, journal, c, id);
    }
  }

  /** A release never exceeds the book cost it comes from; its residual is at most half a unit. */
  lemma ReleaseWithinBasis(t: Transaction, journal: seq<Transaction>, c: Configuration)
    requires Sound(t, journal, c) && Posted(journal + [t]) && t.effect == FillEffect && t.fill.Some? && t.fill.value.side == Sell
    ensures var s := PostJournal(journal).value; var f := t.fill.value;
            var held, basis := Get(s.quantity, f.instrumentId), Get(s.basis, f.instrumentId);
            && 0 < Fixed(f.quantity) <= held && 0 <= Fixed(f.releasedBasis) <= basis
            && (Fixed(f.quantity) == held ==> Fixed(f.releasedBasis) == basis)
            && -held <= 2 * (Fixed(f.releasedBasis) * held - basis * Fixed(f.quantity)) <= held
  {
    hide Guarded, Sound, PostJournal, Fixed, HalfEven;
    FillMoves(t, journal, c);
    SoundGuards(t, journal, c);
    var s, u, f := PostJournal(journal).value, PostJournal(journal + [t]).value, t.fill.value;
    var held, basis := Get(s.quantity, f.instrumentId), Get(s.basis, f.instrumentId);
    QuantityPositive(f.quantity);
    assert held >= 0 && basis >= 0 && Get(u.quantity, f.instrumentId) >= 0;
    PartialReleaseWithinBasis(basis, Fixed(f.quantity), held);
  }

  lemma FillKeepsFlat(t: Transaction, journal: seq<Transaction>, c: Configuration, id: Id)
    requires Sound(t, journal, c) && Posted(journal + [t]) && t.effect == FillEffect
    requires FlatAt(PostJournal(journal).value, id)
    ensures FlatAt(PostJournal(journal + [t]).value, id)
  {
    hide Guarded, Sound, PostJournal, Fixed, HalfEven, Product;
    FillMoves(t, journal, c);
    SoundGuards(t, journal, c);
    QuantityPositive(t.fill.value.quantity);
    var s, u, f := PostJournal(journal).value, PostJournal(journal + [t]).value, t.fill.value;
    assert Get(s.quantity, f.instrumentId) >= 0;
  }

  lemma SplitMoves(t: Transaction, journal: seq<Transaction>, c: Configuration)
    requires Sound(t, journal, c) && Posted(journal + [t]) && t.effect == SplitEffect
    ensures var s, u := PostJournal(journal).value, PostJournal(journal + [t]).value;
            && t.corporateAction.Some? && t.corporateAction.value.numerator.Some? && t.corporateAction.value.denominator.Some?
            && var a := t.corporateAction.value;
               && Get(s.quantity, a.instrumentId) >= 0 && Get(s.basis, a.instrumentId) >= 0
               && Get(u.quantity, a.instrumentId) == Get(s.quantity, a.instrumentId) * a.numerator.value / a.denominator.value
               && (forall id | id != a.instrumentId :: Get(u.quantity, id) == Get(s.quantity, id))
               && (forall id :: Get(u.basis, id) == Get(s.basis, id))
  {
    hide Fixed, PostJournal, SumFor, WellAddressed, DistinctEntries, CheckFillPostings, CheckInitialization, SameAction,
      InUniverse, CheckDividend;
    SoundGuards(t, journal, c);
    SplitBalances(t, journal, c);
    var id := t.corporateAction.value.instrumentId;
    PositionMoves(t, journal, c, id);
    forall other
      ensures var s, u := PostJournal(journal).value, PostJournal(journal + [t]).value;
              && Get(u.basis, other) == Get(s.basis, other)
              && (other != id ==> Get(u.quantity, other) == Get(s.quantity, other))
    {
      PositionMoves(t, journal, c, other);
    }
  }

  /** A split that strands cost on this very instrument. */
  ghost predicate StrandsCostOf(t: Transaction, before: LedgerState, id: Id) {
    StrandsCost(t, before) && t.corporateAction.value.instrumentId == id
  }

  lemma SplitKeepsFlatExactly(t: Transaction, journal: seq<Transaction>, c: Configuration, id: Id)
    requires Sound(t, journal, c) && Posted(journal + [t]) && t.effect == SplitEffect
    requires FlatAt(PostJournal(journal).value, id)
    ensures FlatAt(PostJournal(journal + [t]).value, id) <==> !StrandsCostOf(t, PostJournal(journal).value, id)
  {
    SplitMoves(t, journal, c);
    hide Sound, PostJournal, Posted, Get;
    var s, u, a := PostJournal(journal).value, PostJournal(journal + [t]).value, t.corporateAction.value;
    SplitToNothing(Get(s.quantity, a.instrumentId), a.numerator.value, a.denominator.value);
  }

  lemma SplitToNothing(held: int, numerator: int, denominator: int)
    requires held >= 0 && numerator > 0 && denominator > 0
    ensures held * numerator / denominator == 0 <==> held * numerator < denominator
    ensures held == 0 ==> held * numerator < denominator
  {
    assert held * numerator >= 0;
  }

  /** Only a split of the instrument can strand cost on it, and does so exactly when its guard says. */
  lemma StepKeepsFlatAtExactly(t: Transaction, journal: seq<Transaction>, c: Configuration, id: Id)
    requires Sound(t, journal, c) && Posted(journal + [t]) && t.effect != Correction && Fixed(c.initialCapital) > 0
    requires FlatAt(PostJournal(journal).value, id)
    ensures FlatAt(PostJournal(journal + [t]).value, id) <==> !StrandsCostOf(t, PostJournal(journal).value, id)
  {
    hide Sound, PostJournal, Posted;
    SoundFirst(t, journal, c);
    if t.effect == FillEffect {
      FillKeepsFlat(t, journal, c, id);
    } else if t.effect == SplitEffect {
      SplitKeepsFlatExactly(t, journal, c, id);
    } else {
      if t.effect == Initialization {
        InitializationBalances(t, c);
      } else {
        DividendBalances(t, journal, c);
      }
      PositionMoves(t, journal, c, id);
    }
  }

  lemma StepKeepsFlatExactly(t: Transaction, journal: seq<Transaction>, c: Configuration)
    requires Sound(t, journal, c) && Posted(journal + [t]) && t.effect != Correction && Fixed(c.initialCapital) > 0
    requires Flat(PostJournal(journal).value)
    ensures Flat(PostJournal(journal + [t]).value) <==> !StrandsCost(t, PostJournal(journal).value)
  {
    hide Guarded;
    SoundGuards(t, journal, c);
    var s, u := PostJournal(journal).value, PostJournal(journal + [t]).value;
    hide Sound, PostJournal, Posted, FlatAt, StrandsCost;
    forall id ensures FlatAt(u, id) <==> !StrandsCostOf(t, s, id) {
      StepKeepsFlatAtExactly(t, journal, c, id);
    }
    if StrandsCost(t, s) {
      StrandingIsSplit(t, s);
      assert StrandsCostOf(t, s, t.corporateAction.value.instrumentId);
    }
  }

  lemma StrandingIsSplit(t: Transaction, s: LedgerState)
    requires StrandsCost(t, s)
    ensures t.corporateAction.Some?
  {
  }

  /** No split of the instrument strands cost. */
  ghost predicate StrandsNothingOf(journal: seq<Transaction>, id: Id) {
    journal == [] ||
    (var front := journal[..|journal| - 1];
     StrandsNothingOf(front, id) && PostJournal(front).Ok? && !StrandsCostOf(journal[|journal| - 1], PostJournal(front).value, id))
  }

  lemma {:induction false} ClosedPositionCarriesNoCost(journal: seq<Transaction>, c: Configuration, id: Id)
    requires SoundJournal(journal, c) && Posted(journal) && CorrectionFree(journal) && StrandsNothingOf(journal, id)
    ensures FlatAt(PostJournal(journal).value, id)
  {
    if journal != [] {
      var front, t := journal[..|journal| - 1], journal[|journal| - 1];
      SoundLast(journal, c);
      hide SoundJournal, PostJournal, Sound, Posted, StrandsCostOf, FlatAt;
      ClosedPositionCarriesNoCost(front, c, id);
      StepKeepsFlatAtExactly(t, front, c, id);
    }
  }

  /** No split of the journal strands cost. */
  ghost predicate StrandsNothing(journal: seq<Transaction>) {
    forall id :: StrandsNothingOf(journal, id)
  }

  lemma ClosedPositionsCarryNoCost(journal: seq<Transaction>, c: Configuration)
    requires SoundJournal(journal, c) && Posted(journal) && CorrectionFree(journal) && StrandsNothing(journal)
    ensures Flat(PostJournal(journal).value)
  {
    var s := PostJournal(journal).value;
    hide SoundJournal, Posted, CorrectionFree, StrandsNothingOf, FlatAt, PostJournal;
    forall id ensures FlatAt(s, id) {
      ClosedPositionCarriesNoCost(journal, c, id);
    }
  }

  /** Book cost paid in by the purchases of an instrument. */
  function PaidIn(journal: seq<Transaction>, id: Id): int {
    if journal == [] then 0
    else
      var last := journal[|journal| - 1];
      PaidIn(journal[..|journal| - 1], id) +
      if last.fill.Some? && last.fill.value.instrumentId == id && last.fill.value.side == Buy
      then Product(Fixed(last.fill.value.quantity), Fixed(last.fill.value.price)) + Fixed(last.fill.value.fee) else 0
  }

  /** Book cost released by the sales of an instrument. */
  function ReleasedBy(journal: seq<Transaction>, id: Id): int {
    if journal == [] then 0
    else
      var last := journal[|journal| - 1];
      ReleasedBy(journal[..|journal| - 1], id) +
      if last.fill.Some? && last.fill.value.instrumentId == id && last.fill.value.side == Sell
      then Fixed(last.fill.value.releasedBasis) else 0
  }

  lemma StepMovesBasis(t: Transaction, journal: seq<Transaction>, c: Configuration, id: Id)
    requires Sound(t, journal, c) && Posted(journal + [t]) && t.effect != Correction && Fixed(c.initialCapital) > 0
    ensures var s, u := PostJournal(journal).value, PostJournal(journal + [t]).value;
            Get(u.basis, id) - Get(s.basis, id) ==
            if t.fill.Some? && t.fill.value.instrumentId == id
            then (if t.fill.value.side == Buy
                  then Product(Fixed(t.fill.value.quantity), Fixed(t.fill.value.price)) + Fixed(t.fill.value.fee)
                  else -Fixed(t.fill.value.releasedBasis))
            else 0
  {
    hide Sound, PostJournal, Posted, Fixed, Product;
    SoundFirst(t, journal, c);
    SoundFill(t, journal, c);
    if t.effect == FillEffect {
      FillMoves(t, journal, c);
    } else if t.effect == SplitEffect {
      SplitMoves(t, journal, c);
    } else {
      if t.effect == Initialization {
        InitializationBalances(t, c);
      } else {
        DividendBalances(t, journal, c);
      }
      PositionMoves(t, journal, c, id);
    }
  }

  lemma SoundFill(t: Transaction, journal: seq<Transaction>, c: Configuration)
    requires Sound(t, journal, c)
    ensures t.effect == FillEffect <==> t.fill.Some?
  {
    hide PostJournal, CheckAction, CheckFillPostings, CheckInitialization;
    SoundGuards(t, journal, c);
  }

  lemma CapitalIsPositive(journal: seq<Transaction>, c: Configuration)
    requires SoundJournal(journal, c)
    ensures Fixed(c.initialCapital) > 0
  {
    hide Sound, Fixed;
  }

  lemma FreeLast(journal: seq<Transaction>)
    requires journal != [] && CorrectionFree(journal)
    ensures CorrectionFree(journal[..|journal| - 1]) && journal[|journal| - 1].effect != Correction
  {
  }

  lemma LastMovesBasis(journal: seq<Transaction>, t: Transaction, id: Id)
    ensures PaidIn(journal + [t], id) - ReleasedBy(journal + [t], id) ==
            PaidIn(journal, id) - ReleasedBy(journal, id) +
            if t.fill.Some? && t.fill.value.instrumentId == id
            then (if t.fill.value.side == Buy
                  then Product(Fixed(t.fill.value.quantity), Fixed(t.fill.value.price)) + Fixed(t.fill.value.fee)
                  else -Fixed(t.fill.value.releasedBasis))
            else 0
  {
    hide Fixed, Product;
    assert (journal + [t])[..|journal|] == journal;
  }

  lemma NothingPaid(id: Id)
    ensures PostJournal([]) == Ok(EMPTY) && Get(EMPTY.basis, id) == 0 == PaidIn([], id) == ReleasedBy([], id)
  {
  }

  /** The book cost of a position is what was paid in less what was released. */
  lemma {:induction false} BasisIsPaidLessReleased(journal: seq<Transaction>, c: Configuration, id: Id)
    requires SoundJournal(journal, c) && Posted(journal) && CorrectionFree(journal)
    ensures Get(PostJournal(journal).value.basis, id) == PaidIn(journal, id) - ReleasedBy(journal, id)
  {
    hide *;
    NothingPaid(id);
    if journal != [] {
      var front, t := journal[..|journal| - 1], journal[|journal| - 1];
      SoundLast(journal, c);
      CapitalIsPositive(journal, c);
      FreeLast(journal);
      BasisIsPaidLessReleased(front, c, id);
      StepMovesBasis(t, front, c, id);
      LastMovesBasis(front, t, id);
    }
  }

  /** However the shares were rounded, closing a position releases exactly what was paid in. */
  lemma ClosingReleasesEverything(journal: seq<Transaction>, c: Configuration, id: Id)
    requires SoundJournal(journal, c) && Posted(journal) && CorrectionFree(journal) && StrandsNothingOf(journal, id)
    requires Get(PostJournal(journal).value.quantity, id) == 0
    ensures ReleasedBy(journal, id) == PaidIn(journal, id)
  {
    hide PostJournal, SoundJournal, Posted, PaidIn, ReleasedBy, StrandsNothingOf;
    ClosedPositionCarriesNoCost(journal, c, id);
    BasisIsPaidLessReleased(journal, c, id);
  }

  const REVERSE_SPLIT := CorporateAction(
    "a", "p", "x", "v", Split, Time(0, false), None, None, Some(1), Some(2_000_000), None, None,
    Some(RationalParts(1, 2_000_000)), None, "")

  /** One share with a cost, split one for two million: the guards let it, and the cost stays on nothing. */
  lemma SplitMayStrandCost(t: Transaction, before: LedgerState)
    requires NonNegative(before) && Get(before.quantity, "x") == 1_000_000 && Get(before.basis, "x") > 0
    requires t.effect == SplitEffect && t.corporateAction == Some(REVERSE_SPLIT)
    requires t.entries == [Entry(QuantityHeld, Some("x"), Parts(true, 1, 0, 0))]
    ensures CheckSplit(t, REVERSE_SPLIT, before).Ok? && StrandsCost(t, before)
    ensures PostEntries(before, t.entries) == Ok(before.(quantity := before.quantity["x" := 0]))
    ensures !Flat(before.(quantity := before.quantity["x" := 0]))
  {
    assert Fixed(Parts(true, 1, 0, 0)) == -1_000_000;
    var entry := Entry(QuantityHeld, Some("x"), Parts(true, 1, 0, 0));
    hide Fixed;
    assert t.entries[..0] == [] && t.entries[0] == entry;
    assert PostEntries(before, t.entries) == Post(before, entry);
    var after := before.(quantity := before.quantity["x" := 0]);
    assert !FlatAt(after, "x");
  }
}
