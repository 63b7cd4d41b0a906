/** Conservation in the ledger: what every accepted journal keeps, whatever the rounding did. */
module Balance {
  import opened Checks
  import opened Decimals
  import opened Events
  import opened Ledger
  import opened Orders
  import opened Snapshots
  import opened Publication
  import opened History
  import opened Postings
  import opened Rounding
  import opened Sums

  predicate IsAction(effect: Effect) {
    effect == SplitEffect || effect == AccrualEffect || effect == PaymentEffect
  }

  /** What acceptance says about a transaction in terms of the journal and the state before it. */
  ghost predicate Guarded(t: Transaction, journal: seq<Transaction>, c: Configuration, before: LedgerState)
    requires NonNegative(before)
  {
    && DistinctEntries(t.entries)
    && (forall i | 0 <= i < |t.entries| :: WellAddressed(t.entries[i], c))
    && t.journalSequence == |journal| + 1
    && (t.effect == Initialization <==> journal == [])
    && (t.effect == FillEffect <==> t.fill.Some?)
    && (t.effect == Initialization ==> CheckInitialization(t, c).Ok?)
    && (t.effect != Initialization ==> AmountOf(t.entries, Capital) == 0)
    && (t.effect == FillEffect ==> CheckFillPostings(t, t.fill.value, before).Ok?)
    && (IsAction(t.effect) ==> CheckAction(t, journal, c, before).Ok?)
  }

  /** The journal leads to this state, and no balance in it is negative. */
  ghost predicate LeadsTo(journal: seq<Transaction>, s: LedgerState) {
    PostJournal(journal) == Ok(s) && NonNegative(s)
  }

  ghost predicate Posted(journal: seq<Transaction>) {
    PostJournal(journal).Ok? && NonNegative(PostJournal(journal).value)
  }

  /** The journal leads somewhere, and there the transaction passed its guards. */
  ghost predicate Sound(t: Transaction, journal: seq<Transaction>, c: Configuration) {
    && Posted(journal)
    && forall before {:trigger LeadsTo(journal, before)} | LeadsTo(journal, before) :: Guarded(t, journal, c, before)
  }

  ghost predicate SoundJournal(journal: seq<Transaction>, c: Configuration) {
    && Fixed(c.initialCapital) > 0
    && forall i {:trigger Sound(journal[i], journal[..i], c)} | 0 <= i < |journal| :: Sound(journal[i], journal[..i], c)
  }

  lemma SoundAt(journal: seq<Transaction>, i: nat, c: Configuration)
    requires SoundJournal(journal, c) && i < |journal|
    ensures SoundJournal(journal[..i], c) && Sound(journal[i], journal[..i], c)
  {
    hide Sound, Fixed;
    assert Sound(journal[i], journal[..i], c);
    forall j | 0 <= j < i ensures Sound(journal[..i][j], journal[..i][..j], c) {
      assert journal[..i][j] == journal[j] && journal[..i][..j] == journal[..j];
      assert Sound(journal[j], journal[..j], c);
    }
  }

  lemma SoundExtends(journal: seq<Transaction>, t: Transaction, c: Configuration)
    requires SoundJournal(journal, c) && Sound(t, journal, c)
    ensures SoundJournal(journal + [t], c)
  {
    hide Sound, Fixed;
    var whole := journal + [t];
    forall i | 0 <= i < |whole| ensures Sound(whole[i], whole[..i], c) {
      if i < |journal| {
        assert whole[i] == journal[i] && whole[..i] == journal[..i];
        assert Sound(journal[i], journal[..i], c);
      } else {
        assert whole[..i] == journal;
      }
    }
  }

  lemma SoundGuards(t: Transaction, journal: seq<Transaction>, c: Configuration)
    requires Sound(t, journal, c)
    ensures Posted(journal) && Guarded(t, journal, c, PostJournal(journal).value)
  {
    hide PostJournal, NonNegative, Guarded;
    assert LeadsTo(journal, PostJournal(journal).value);
  }

  lemma NothingIsSound(c: Configuration)
    requires Fixed(c.initialCapital) > 0
    ensures SoundJournal([], c)
  {
    hide Sound;
  }

  /** The last transaction of a sound journal, and the journal before it. */
  lemma SoundLast(journal: seq<Transaction>, c: Configuration)
    requires SoundJournal(journal, c) && journal != []
    ensures var front, t := journal[..|journal| - 1], journal[|journal| - 1];
            journal == front + [t] && SoundJournal(front, c) && Sound(t, front, c) && Posted(front)
  {
    hide Guarded, SoundJournal, PostJournal, NonNegative;
    SoundAt(journal, |journal| - 1, c);
  }

  lemma SoundTransaction(t: Transaction, events: seq<Event>, records: Records, c: Configuration, hash: Hasher)
    requires CheckLedger(t, events, records, c, hash).Ok?
    requires Posted(Journal(events)) && SoundJournal(Journal(events), c)
    ensures Sound(t, Journal(events), c)
  {
    hide CheckLedger, CheckLink, CheckEffect, SoundJournal, PostJournal, NonNegative, Guarded, Journal;
    LedgerGuards(t, events, records, c, hash);
    var journal, before := Journal(events), PostJournal(Journal(events)).value;
    SequenceIsPosition(journal, c);
    LinkGuards(t, journal, c, hash);
    EffectGuards(t, events, records, c, before);
  }

  /** What an accepted transaction passed, part by part. */
  lemma LedgerGuards(t: Transaction, events: seq<Event>, records: Records, c: Configuration, hash: Hasher)
    requires CheckLedger(t, events, records, c, hash).Ok? && Posted(Journal(events))
    ensures CheckLink(t, Journal(events), c, hash).Ok? && DistinctEntries(t.entries)
    ensures forall i | 0 <= i < |t.entries| :: WellAddressed(t.entries[i], c)
    ensures PostJournal(Journal(events)).Ok? && NonNegative(PostJournal(Journal(events)).value)
    ensures CheckEffect(t, events, records, c, PostJournal(Journal(events)).value).Ok?
  {
    hide CheckLink, CheckEffect, PostJournal, NonNegative, WellAddressed, DistinctEntries, Journal;
    UpToAll(Journal(events));
    hide UpTo;
  }

  lemma LinkGuards(t: Transaction, journal: seq<Transaction>, c: Configuration, hash: Hasher)
    requires CheckLink(t, journal, c, hash).Ok? && forall i | 0 <= i < |journal| :: journal[i].journalSequence == i + 1
    ensures t.journalSequence == |journal| + 1
  {
  }

  lemma EffectGuards(t: Transaction, events: seq<Event>, records: Records, c: Configuration, before: LedgerState)
    requires NonNegative(before) && CheckEffect(t, events, records, c, before).Ok?
    requires DistinctEntries(t.entries) && forall i | 0 <= i < |t.entries| :: WellAddressed(t.entries[i], c)
    requires t.journalSequence == |Journal(events)| + 1
    ensures Guarded(t, Journal(events), c, before)
  {
    hide CheckFillOrder, CheckFillTimes, CheckFillPrice, CheckFillPostings, CheckAction, NonNegative, AmountOf, Lookup, Journal,
      DistinctEntries, WellAddressed;
  }

  lemma SequenceIsPosition(journal: seq<Transaction>, c: Configuration)
    requires SoundJournal(journal, c)
    ensures forall i | 0 <= i < |journal| :: journal[i].journalSequence == i + 1
  {
    hide PostJournal, CheckAction, CheckFillPostings, CheckInitialization, SoundJournal;
    forall i | 0 <= i < |journal| ensures journal[i].journalSequence == i + 1 {
      SoundAt(journal, i, c);
      SoundGuards(journal[i], journal[..i], c);
    }
  }

  ghost predicate LedgerInvariant(h: seq<Event>) {
    && Posted(Journal(h))
    && (RunOf(h).None? ==> Journal(h) == [])
    && (RunOf(h).Some? ==> SoundJournal(Journal(h), RunOf(h).value.configuration))
  }

  /** The journal of every accepted history is sound, and no balance in it is negative. */
  lemma {:induction false} JournalIsSound(h: seq<Event>, hash: Hasher)
    requires Accepted(h, hash)
    ensures LedgerInvariant(h)
  {
    hide SoundJournal, PostEntries, Admissible, Accepted;
    if h != [] {
      var before, e := h[..|h| - 1], h[|h| - 1];
      assert h == before + [e] && h == before + [e] + [];
      AcceptedAt(h, before, e, [], hash);
      JournalIsSound(before, hash);
      JournalGrowsSound(before, e, hash);
    }
  }

  lemma JournalGrowsSound(before: seq<Event>, e: Event, hash: Hasher)
    requires LedgerInvariant(before) && Admissible(e, before, hash)
    ensures LedgerInvariant(before + [e])
  {
    hide Admissible, Accepted, Sound, SoundJournal, CheckLedger, CheckDecision, CheckOrder, CheckSnapshot, PostJournal,
      NonNegative, Refs, RecordKeys, Roster;
    var h := before + [e];
    assert h[..|before|] == before;
    AdmittedJoins(e, before, hash);
    UpToAll(Journal(h));
    if RunOf(before).Some? {
      RunIsFixed(h, |before|);
    }
    if e.payload.LedgerPosted? {
      AdmittedPassed(e, before, hash);
      var t, journal := e.payload.transaction, Journal(before);
      assert Journal(h) == journal + [t];
      SoundTransaction(t, before, PublicRecords(before), RunOf(before).value.configuration, hash);
      SoundExtends(journal, t, RunOf(before).value.configuration);
    } else {
      assert Journal(h) == Journal(before);
      if e.payload.RunPublished? {
        AdmittedPassed(e, before, hash);
        if RunOf(before).None? {
          NothingIsSound(e.payload.run.configuration);
        }
      }
    }
  }

  // The balance identity

  /** Debits minus credits of a list of entries; income counts as a credit. */
  function Net(entries: seq<Entry>): int {
    Sum(entries, Cash) + Sum(entries, BookCost) + Sum(entries, Receivable)
    - Sum(entries, Liability) - Sum(entries, Capital) - Sum(entries, RealizedPnl) - Sum(entries, Income)
  }

  function TotalIncome(journal: seq<Transaction>): int {
    if journal == [] then 0
    else TotalIncome(journal[..|journal| - 1]) + Sum(journal[|journal| - 1].entries, Income)
  }

  /** What the correction entries alone put out of balance. */
  function CorrectionImbalance(journal: seq<Transaction>): int {
    if journal == [] then 0
    else
      var last := journal[|journal| - 1];
      CorrectionImbalance(journal[..|journal| - 1]) + if last.effect == Correction then Net(last.entries) else 0
  }

  predicate CorrectionFree(journal: seq<Transaction>) {
    forall i | 0 <= i < |journal| :: journal[i].effect != Correction
  }

  lemma CentralAccount(entries: seq<Entry>, account: Account, c: Configuration)
    requires DistinctEntries(entries) && !PerInstrument(account)
    requires forall i | 0 <= i < |entries| :: WellAddressed(entries[i], c)
    ensures Sum(entries, account) == AmountOf(entries, account)
  {
    hide InUniverse;
    forall i | 0 <= i < |entries| && entries[i].account == account ensures entries[i].instrumentId == None {
      assert WellAddressed(entries[i], c);
    }
    SumIsAmount(entries, account, None);
  }

  lemma InitializationBalances(t: Transaction, c: Configuration)
    requires Sound(t, [], c) && t.effect == Initialization && Fixed(c.initialCapital) > 0
    ensures Net(t.entries) == 0 && Sum(t.entries, Capital) == Fixed(c.initialCapital)
    ensures forall a | a != Cash && a != Capital :: Sum(t.entries, a) == 0
    ensures forall a, id :: PerInstrument(a) ==> SumFor(t.entries, a, id) == 0
  {
    hide CheckAction, CheckFillPostings, Fixed, InUniverse, PostJournal, NonNegative;
    SoundGuards(t, [], c);
    var entries := t.entries;
    CentralAccount(entries, Cash, c);
    CentralAccount(entries, Capital, c);
    assert exists i | 0 <= i < |entries| :: entries[i].account == Cash by {
      if forall i | 0 <= i < |entries| :: entries[i].account != Cash {
        SumAbsent(entries, Cash);
      }
    }
    assert exists i | 0 <= i < |entries| :: entries[i].account == Capital by {
      if forall i | 0 <= i < |entries| :: entries[i].account != Capital {
        SumAbsent(entries, Capital);
      }
    }
    assert forall i | 0 <= i < |entries| :: entries[i].account == Cash || entries[i].account == Capital;
    forall a | a != Cash && a != Capital ensures Sum(entries, a) == 0 {
      SumAbsent(entries, a);
    }
    forall a, id | PerInstrument(a) ensures SumFor(entries, a, id) == 0 {
      SumForAbsent(entries, a, id);
    }
  }

  /** A fill posts to five accounts under one instrument, and what it posts nets to nothing. */
  lemma FillPosts(t: Transaction, f: Fill, before: LedgerState)
    requires CheckFillPostings(t, f, before).Ok?
    ensures AmountOf(t.entries, Cash) + AmountOf(t.entries, BookCost, Some(f.instrumentId)) == AmountOf(t.entries, RealizedPnl)
    ensures forall i | 0 <= i < |t.entries| :: t.entries[i].account in {Cash, QuantityHeld, BookCost, RealizedPnl, Fee}
    ensures forall i | 0 <= i < |t.entries| :: t.entries[i].instrumentId.None? || t.entries[i].instrumentId == Some(f.instrumentId)
  {
    hide Fixed, Product, ReleasedBasis, Get, AmountOf;
  }

  /** A fill moves cash against book cost and realized result, and nothing else that counts. */
  lemma FillBalances(t: Transaction, journal: seq<Transaction>, c: Configuration)
    requires Sound(t, journal, c) && t.effect == FillEffect
    ensures t.fill.Some? && Net(t.entries) == 0
    ensures forall a | a in {Receivable, Liability, Capital, Income} :: Sum(t.entries, a) == 0
    ensures var id := Some(t.fill.value.instrumentId);
            && SumFor(t.entries, BookCost, id) == AmountOf(t.entries, BookCost, id)
            && SumFor(t.entries, QuantityHeld, id) == AmountOf(t.entries, QuantityHeld, id)
            && forall a, other | PerInstrument(a) && other != id :: SumFor(t.entries, a, other) == 0
  {
    hide Fixed, InUniverse, PostJournal, NonNegative, CheckFillPostings, CheckAction, CheckInitialization;
    SoundGuards(t, journal, c);
    var entries, f := t.entries, t.fill.value;
    FillPosts(t, f, PostJournal(journal).value);
    var id := Some(f.instrumentId);
    CentralAccount(entries, Cash, c);
    CentralAccount(entries, RealizedPnl, c);
    forall a | a in {Receivable, Liability, Capital, Income} ensures Sum(entries, a) == 0 {
      SumAbsent(entries, a);
    }
    forall i | 0 <= i < |entries| && PerInstrument(entries[i].account) ensures entries[i].instrumentId == id {
      assert WellAddressed(entries[i], c);
    }
    SumIsAmount(entries, BookCost, id);
    SumForIsAmount(entries, BookCost, id);
    SumForIsAmount(entries, QuantityHeld, id);
    forall a, other | PerInstrument(a) && other != id ensures SumFor(entries, a, other) == 0 {
      SumForAbsent(entries, a, other);
    }
  }

  /** A split moves nothing but the quantity of its instrument. */
  lemma SplitBalances(t: Transaction, journal: seq<Transaction>, c: Configuration)
    requires Sound(t, journal, c) && t.effect == SplitEffect
    ensures t.corporateAction.Some?
    ensures forall a | a != QuantityHeld :: Sum(t.entries, a) == 0
    ensures forall id :: SumFor(t.entries, BookCost, id) == 0
    ensures var id := Some(t.corporateAction.value.instrumentId);
            && SumFor(t.entries, QuantityHeld, id) == AmountOf(t.entries, QuantityHeld, id)
            && forall other | other != id :: SumFor(t.entries, QuantityHeld, other) == 0
  {
    hide Fixed, InUniverse, PostJournal, NonNegative, Get, SameAction, CheckFillPostings, CheckInitialization;
    SoundGuards(t, journal, c);
    var entries := t.entries;
    var id := Some(t.corporateAction.value.instrumentId);
    forall a | a != QuantityHeld ensures Sum(entries, a) == 0 {
      SumAbsent(entries, a);
    }
    forall other ensures SumFor(entries, BookCost, other) == 0 {
      SumForAbsent(entries, BookCost, other);
    }
    SumForIsAmount(entries, QuantityHeld, id);
    forall other | other != id ensures SumFor(entries, QuantityHeld, other) == 0 {
      SumForAbsent(entries, QuantityHeld, other);
    }
  }

  predicate IsDividend(effect: Effect) {
    effect == AccrualEffect || effect == PaymentEffect
  }

  /** The receivable a dividend adds: the dividend when accrued, its opposite when paid. */
  function ReceivableOf(t: Transaction): int
    requires t.corporateAction.Some? && t.corporateAction.value.cashPerShare.Some?
    requires t.corporateAction.value.entitledQuantity.Some?
  {
    if t.effect == AccrualEffect then DividendOf(t.corporateAction.value) else -DividendOf(t.corporateAction.value)
  }

  ghost predicate HasDividend(t: Transaction) {
    && t.corporateAction.Some? && t.corporateAction.value.cashPerShare.Some?
    && t.corporateAction.value.entitledQuantity.Some?
  }

  /** A dividend posts its amount to two accounts. */
  lemma DividendPosts(t: Transaction, journal: seq<Transaction>, c: Configuration, before: LedgerState)
    requires NonNegative(before) && CheckAction(t, journal, c, before).Ok? && IsDividend(t.effect)
    ensures HasDividend(t) && AmountOf(t.entries, Receivable) == ReceivableOf(t)
    ensures t.effect == AccrualEffect ==> AmountOf(t.entries, Income) == ReceivableOf(t)
    ensures t.effect != AccrualEffect ==> AmountOf(t.entries, Cash) == -ReceivableOf(t)
    ensures forall i | 0 <= i < |t.entries| :: t.entries[i].account in {Receivable, if t.effect == AccrualEffect then Income else Cash}
  {
    hide InUniverse, SameAction, DividendOf, FindAccrual, FirstAmount, CheckSplit, AmountOf, NonNegative;
  }

  /** A dividend moves its receivable against income when accrued and against cash when paid. */
  lemma DividendBalances(t: Transaction, journal: seq<Transaction>, c: Configuration)
    requires Sound(t, journal, c) && IsDividend(t.effect)
    ensures HasDividend(t) && Sum(t.entries, Receivable) == ReceivableOf(t)
    ensures Sum(t.entries, Income) == if t.effect == AccrualEffect then ReceivableOf(t) else 0
    ensures Sum(t.entries, Cash) == if t.effect == AccrualEffect then 0 else -ReceivableOf(t)
    ensures forall a | a !in {Receivable, Income, Cash} :: Sum(t.entries, a) == 0
    ensures forall a, id | PerInstrument(a) :: SumFor(t.entries, a, id) == 0
  {
    hide Fixed, InUniverse, PostJournal, NonNegative, CheckFillPostings, CheckInitialization, CheckAction, ReceivableOf,
      HasDividend;
    SoundGuards(t, journal, c);
    DividendPosts(t, journal, c, PostJournal(journal).value);
    var entries := t.entries;
    CentralAccount(entries, Cash, c);
    CentralAccount(entries, Receivable, c);
    CentralAccount(entries, Income, c);
    forall a | a !in {Receivable, if t.effect == AccrualEffect then Income else Cash} ensures Sum(entries, a) == 0 {
      SumAbsent(entries, a);
    }
    forall a, id | PerInstrument(a) ensures SumFor(entries, a, id) == 0 {
      SumForAbsent(entries, a, id);
    }
  }

  /** Every transaction except a correction balances on its own. */
  lemma TransactionBalances(t: Transaction, journal: seq<Transaction>, c: Configuration)
    requires Sound(t, journal, c) && Fixed(c.initialCapital) > 0 && t.effect != Correction
    ensures Net(t.entries) == 0 && Sum(t.entries, Liability) == 0
    ensures Sum(t.entries, Capital) == if journal == [] then Fixed(c.initialCapital) else 0
  {
    hide Sound;
    match t.effect
    case Initialization =>
      assert journal == [] by { SoundFirst(t, journal, c); }
      InitializationBalances(t, c);
    case FillEffect =>
      SoundFirst(t, journal, c);
      FillBalances(t, journal, c);
    case SplitEffect =>
      SoundFirst(t, journal, c);
      SplitBalances(t, journal, c);
    case _ =>
      SoundFirst(t, journal, c);
      DividendBalances(t, journal, c);
  }

  lemma SoundFirst(t: Transaction, journal: seq<Transaction>, c: Configuration)
    requires Sound(t, journal, c)
    ensures t.effect == Initialization <==> journal == []
    ensures journal != [] ==> Sum(t.entries, Capital) == 0
  {
    hide InUniverse, PostJournal, NonNegative, CheckFillPostings, CheckAction, CheckInitialization;
    SoundGuards(t, journal, c);
    CentralAccount(t.entries, Capital, c);
  }

  /**
   * The ledger of every accepted journal balances up to its corrections: assets less liabilities
   * are the capital, the realized result and the dividend income, plus what corrections added.
   */
  lemma {:induction false} LedgerBalances(journal: seq<Transaction>, c: Configuration)
    requires SoundJournal(journal, c) && Posted(journal)
    ensures var s := PostJournal(journal).value;
            s.cash + MapSum(s.basis) + s.receivable - s.liability
            == s.capital + s.realized + TotalIncome(journal) + CorrectionImbalance(journal)
    ensures journal != [] ==> PostJournal(journal).value.capital == Fixed(c.initialCapital)
  {
    hide Fixed, MapSum, Sum, Get, NonNegative, PostEntries, SumFor;
    if journal == [] {
      assert MapSum(EMPTY.basis) == 0 by { EmptySum(); }
    } else {
      hide Sound, SoundJournal;
      var front, t := journal[..|journal| - 1], journal[|journal| - 1];
      SoundLast(journal, c);
      LedgerBalances(front, c);
      EntriesMove(PostJournal(front).value, t.entries);
      SoundFirst(t, front, c);
      if t.effect != Correction {
        TransactionBalances(t, front, c);
      }
    }
  }

  lemma EmptySum()
    ensures MapSum(EMPTY.basis) == 0
  {
  }

  lemma {:induction false} NoCorrectionsNoImbalance(journal: seq<Transaction>)
    requires CorrectionFree(journal)
    ensures CorrectionImbalance(journal) == 0
  {
    if journal != [] {
      NoCorrectionsNoImbalance(journal[..|journal| - 1]);
    }
  }

  /** Without corrections nothing is ever owed. */
  lemma {:induction false} NoLiabilities(journal: seq<Transaction>, c: Configuration)
    requires SoundJournal(journal, c) && Posted(journal) && CorrectionFree(journal)
    ensures PostJournal(journal).value.liability == 0
  {
    hide Fixed, MapSum, Sum, Get, NonNegative, PostEntries, SumFor, Sound;
    if journal != [] {
      var front, t := journal[..|journal| - 1], journal[|journal| - 1];
      SoundLast(journal, c);
      NoLiabilities(front, c);
      EntriesMove(PostJournal(front).value, t.entries);
      TransactionBalances(t, front, c);
    }
  }

  /**
   * Corrections are not required to balance: one that posts a single unit of cash passes every
   * guard on its effect, for any earlier record it names.
   */
  lemma CorrectionMayUnbalance(t: Transaction, events: seq<Event>, records: Records, c: Configuration, before: LedgerState)
    requires NonNegative(before) && t.effect == Correction && t.journalSequence > 1
    requires t.fill.None? && t.corporateAction.None? && t.correctionOf.Some? && t.correctionOf.value.key in records
    requires t.entries == [Entry(Cash, None, Parts(false, 1, 0, 0))]
    ensures CheckEffect(t, events, records, c, before).Ok? && Net(t.entries) == 1_000_000
  {
    hide CheckFill, CheckAction, NonNegative, CheckInitialization;
    var e := t.entries[0];
    assert t.entries == [e] && Fixed(e.amount) == 1_000_000;
    hide Fixed;
    SumAbsent(t.entries, BookCost);
    SumAbsent(t.entries, Receivable);
    SumAbsent(t.entries, Liability);
    SumAbsent(t.entries, Capital);
    SumAbsent(t.entries, RealizedPnl);
    SumAbsent(t.entries, Income);
    AmountAbsent(t.entries, Capital, None);
    assert Sum(t.entries[..0], Cash) == 0;
  }
}
