/** Dividends: the receivable is exactly what has been accrued and not yet paid. */
module Dividends {
  import opened Checks
  import opened Decimals
  import opened Events
  import opened Ledger
  import opened Publication
  import opened History
  import opened Postings
  import opened Balance
  import opened Sums

  function ProviderOf(t: Transaction): Id {
    if t.corporateAction.Some? then t.corporateAction.value.providerActionId else ""
  }

  ghost predicate Has(journal: seq<Transaction>, effect: Effect, id: Id) {
    exists i | 0 <= i < |journal| :: IsEffect(journal[i], effect, id)
  }

  predicate IsEffect(t: Transaction, effect: Effect, id: Id) {
    t.effect == effect && t.corporateAction.Some? && ProviderOf(t) == id
  }

  /** The dividends accrued and not paid, by provider action. */
  function Outstanding(journal: seq<Transaction>): map<Id, int> {
    if journal == [] then map[]
    else
      var earlier, t := Outstanding(journal[..|journal| - 1]), journal[|journal| - 1];
      if !IsDividend(t.effect) || t.corporateAction.None? then earlier
      else if t.effect == PaymentEffect then earlier - {ProviderOf(t)}
      else if t.corporateAction.value.cashPerShare.Some? && t.corporateAction.value.entitledQuantity.Some?
      then earlier[ProviderOf(t) := DividendOf(t.corporateAction.value)] else earlier
  }

  lemma HasExtends(journal: seq<Transaction>, t: Transaction, effect: Effect, id: Id)
    ensures Has(journal + [t], effect, id) <==> Has(journal, effect, id) || IsEffect(t, effect, id)
  {
    var whole := journal + [t];
    assert whole[|journal|] == t;
    if Has(journal, effect, id) {
      var i :| 0 <= i < |journal| && IsEffect(journal[i], effect, id);
      assert IsEffect(whole[i], effect, id);
    }
  }

  /** What acceptance of a dividend says about earlier ones for the same provider action. */
  lemma DividendGuards(t: Transaction, journal: seq<Transaction>, c: Configuration)
    requires Sound(t, journal, c) && IsDividend(t.effect)
    ensures HasDividend(t) && !Has(journal, t.effect, ProviderOf(t))
    ensures t.effect == PaymentEffect ==>
              exists i | 0 <= i < |journal| ::
                IsEffect(journal[i], AccrualEffect, ProviderOf(t)) && HasDividend(journal[i])
                && DividendOf(journal[i].corporateAction.value) == DividendOf(t.corporateAction.value)
  {
    hide Fixed, InUniverse, PostJournal, NonNegative, Get, CheckFillPostings, CheckInitialization, CheckSplit,
      Rounding.Product, WellAddressed, DistinctEntries, AmountOf, FirstAmount;
    SoundGuards(t, journal, c);
    var a := t.corporateAction.value;
    forall i | 0 <= i < |journal| ensures !IsEffect(journal[i], t.effect, ProviderOf(t)) {
      assert IsEffect(journal[i], t.effect, ProviderOf(t)) == SameAction(journal[i], t, a);
    }
    if t.effect == PaymentEffect {
      var accrual := FindAccrual(journal, a.providerActionId).value;
      var i :| 0 <= i < |journal| && journal[i] == accrual;
      assert IsEffect(journal[i], AccrualEffect, ProviderOf(t)) && HasDividend(journal[i]);
    }
  }

  /** Outstanding means accrued and not paid. */
  ghost predicate AccruedNotPaid(journal: seq<Transaction>) {
    && (forall id :: id in Outstanding(journal) <==>
                     Has(journal, AccrualEffect, id) && !Has(journal, PaymentEffect, id))
    && (forall id :: Has(journal, PaymentEffect, id) ==> Has(journal, AccrualEffect, id))
  }

  /** What is outstanding is outstanding at its accrued amount. */
  ghost predicate AtAccruedAmount(journal: seq<Transaction>) {
    forall i | 0 <= i < |journal| && journal[i].effect == AccrualEffect ::
      HasDividend(journal[i]) &&
      (ProviderOf(journal[i]) in Outstanding(journal) ==>
         Outstanding(journal)[ProviderOf(journal[i])] == DividendOf(journal[i].corporateAction.value))
  }

  ghost predicate OutstandingMeaning(journal: seq<Transaction>) {
    AccruedNotPaid(journal) && AtAccruedAmount(journal)
  }

  lemma OutstandingExtends(journal: seq<Transaction>, t: Transaction)
    ensures Outstanding(journal + [t]) ==
            var earlier := Outstanding(journal);
            if !IsDividend(t.effect) || t.corporateAction.None? then earlier
            else if t.effect == PaymentEffect then earlier - {ProviderOf(t)}
            else if HasDividend(t) then earlier[ProviderOf(t) := DividendOf(t.corporateAction.value)] else earlier
  {
    assert (journal + [t])[..|journal|] == journal;
  }

  lemma StepAccrued(journal: seq<Transaction>, t: Transaction, c: Configuration)
    requires Sound(t, journal, c) && OutstandingMeaning(journal)
    ensures AccruedNotPaid(journal + [t])
  {
    hide Sound, DividendOf, Outstanding, AtAccruedAmount, Has;
    if IsDividend(t.effect) {
      DividendGuards(t, journal, c);
      assert t.effect == PaymentEffect ==> Has(journal, AccrualEffect, ProviderOf(t)) by { PaidWasAccrued(t, journal, c); }
    }
    OutstandingExtends(journal, t);
    forall effect, id ensures Has(journal + [t], effect, id) <==> Has(journal, effect, id) || IsEffect(t, effect, id) {
      HasExtends(journal, t, effect, id);
    }
  }

  lemma PaidWasAccrued(t: Transaction, journal: seq<Transaction>, c: Configuration)
    requires Sound(t, journal, c) && IsDividend(t.effect)
    ensures t.effect == PaymentEffect ==> Has(journal, AccrualEffect, ProviderOf(t))
  {
    hide Sound;
    DividendGuards(t, journal, c);
  }

  lemma StepAmounts(journal: seq<Transaction>, t: Transaction, c: Configuration)
    requires Sound(t, journal, c) && OutstandingMeaning(journal)
    ensures AtAccruedAmount(journal + [t])
  {
    hide Sound, DividendOf, Outstanding, AccruedNotPaid;
    var whole := journal + [t];
    if IsDividend(t.effect) {
      DividendGuards(t, journal, c);
    }
    OutstandingExtends(journal, t);
    forall i | 0 <= i < |whole| && whole[i].effect == AccrualEffect
      ensures HasDividend(whole[i]) &&
              (ProviderOf(whole[i]) in Outstanding(whole) ==>
                 Outstanding(whole)[ProviderOf(whole[i])] == DividendOf(whole[i].corporateAction.value))
    {
      if i < |journal| {
        assert whole[i] == journal[i];
        assert IsEffect(journal[i], AccrualEffect, ProviderOf(journal[i]));
        assert Has(journal, AccrualEffect, ProviderOf(journal[i]));
      }
    }
  }

  lemma {:induction false} OutstandingIsAccruedNotPaid(journal: seq<Transaction>, c: Configuration)
    requires SoundJournal(journal, c)
    ensures OutstandingMeaning(journal)
  {
    hide Sound;
    if journal == [] {
    } else {
      hide AccruedNotPaid, AtAccruedAmount, SoundJournal;
      var front, t := journal[..|journal| - 1], journal[|journal| - 1];
      SoundLast(journal, c);
      OutstandingIsAccruedNotPaid(front, c);
      StepAccrued(front, t, c);
      StepAmounts(front, t, c);
      assert journal == front + [t];
    }
  }

  /** A transaction moves the receivable by what it adds to or takes from the outstanding dividends. */
  lemma StepReceivable(journal: seq<Transaction>, t: Transaction, c: Configuration)
    requires Sound(t, journal, c) && OutstandingMeaning(journal)
    requires t.effect != Correction && Fixed(c.initialCapital) > 0
    ensures MapSum(Outstanding(journal + [t])) == MapSum(Outstanding(journal)) + Sum(t.entries, Receivable)
  {
    OutstandingExtends(journal, t);
    SoundFirst(t, journal, c);
    if IsDividend(t.effect) {
      DividendGuards(t, journal, c);
      DividendBalances(t, journal, c);
      hide Sound, MapSum, Sum, Outstanding, DividendOf, Fixed;
      var m, id := Outstanding(journal), ProviderOf(t);
      if t.effect == AccrualEffect {
        assert id !in m;
        MapSumAdd(m, id, DividendOf(t.corporateAction.value));
      } else {
        var i :| 0 <= i < |journal| && IsEffect(journal[i], AccrualEffect, id) && HasDividend(journal[i])
                 && DividendOf(journal[i].corporateAction.value) == DividendOf(t.corporateAction.value);
        assert Has(journal, AccrualEffect, id);
        assert id in m && m[id] == DividendOf(t.corporateAction.value);
        MapSumRemove(m, id);
      }
    } else {
      hide Sound, MapSum, Sum, Outstanding, Fixed;
      if t.effect == FillEffect {
        FillBalances(t, journal, c);
      } else if t.effect == SplitEffect {
        SplitBalances(t, journal, c);
      } else {
        InitializationBalances(t, c);
      }
    }
  }

  /** Without corrections the receivable is exactly the dividends accrued and not yet paid. */
  lemma {:induction false} ReceivableIsOutstanding(journal: seq<Transaction>, c: Configuration)
    requires SoundJournal(journal, c) && Posted(journal) && CorrectionFree(journal)
    ensures PostJournal(journal).value.receivable == MapSum(Outstanding(journal))
    ensures forall id :: id in Outstanding(journal) <==>
                         Has(journal, AccrualEffect, id) && !Has(journal, PaymentEffect, id)
  {
    hide SoundJournal, Posted, CorrectionFree, Outstanding, Has, PostJournal, MapSum;
    OutstandingIsAccruedNotPaid(journal, c);
    ReceivableSum(journal, c);
  }

  lemma {:induction false} ReceivableSum(journal: seq<Transaction>, c: Configuration)
    requires SoundJournal(journal, c) && Posted(journal) && CorrectionFree(journal)
    ensures PostJournal(journal).value.receivable == MapSum(Outstanding(journal))
  {
    hide Sound, MapSum, Sum, SumFor, Outstanding, Fixed, NonNegative, PostEntries, Get, OutstandingMeaning;
    if journal == [] {
      NothingOutstanding();
    } else {
      var front, t := journal[..|journal| - 1], journal[|journal| - 1];
      assert journal == front + [t];
      SoundLast(journal, c);
      ReceivableSum(front, c);
      OutstandingIsAccruedNotPaid(front, c);
      EntriesMove(PostJournal(front).value, t.entries);
      StepReceivable(front, t, c);
    }
  }

  lemma NothingOutstanding()
    ensures PostJournal([]).Ok? && PostJournal([]).value.receivable == 0 == MapSum(Outstanding([]))
  {
  }

  /**
   * Cash, total book cost and receivable make up the initial capital, the realized result and the
   * dividend income; nothing is owed, and the receivable is the dividends accrued and not yet paid.
   */
  ghost predicate Balanced(h: seq<Event>) {
    && RunOf(h).Some? && Posted(Journal(h))
    && var s := PostJournal(Journal(h)).value;
       && s.cash + MapSum(s.basis) + s.receivable
          == Fixed(RunOf(h).value.configuration.initialCapital) + s.realized + TotalIncome(Journal(h))
       && s.liability == 0
       && s.receivable == MapSum(Outstanding(Journal(h)))
  }

  /** Every accepted history without corrections balances. */
  lemma HistoryBalances(h: seq<Event>, hash: Hasher)
    requires Accepted(h, hash) && CorrectionFree(Journal(h)) && Journal(h) != []
    ensures Balanced(h)
  {
    hide Accepted, SoundJournal, PostJournal, NonNegative, Journal, Fixed, MapSum, Outstanding;
    JournalIsSound(h, hash);
    var c, journal := RunOf(h).value.configuration, Journal(h);
    LedgerBalances(journal, c);
    NoCorrectionsNoImbalance(journal);
    NoLiabilities(journal, c);
    ReceivableIsOutstanding(journal, c);
  }
}
