/** The hash chain of the journal: with a collision-free hash its last hash pins all of it. */
module Chain {
  import opened Checks
  import opened Events
  import opened Ledger
  import opened Orders
  import opened Snapshots
  import opened Publication
  import opened History
  import opened Balance
  import opened Equity

  ghost predicate Linked(t: Transaction, journal: seq<Transaction>, hash: Hasher) {
    && t.journalHash == hash(OfJournal(Unhashed(t)))
    && t.journalSequence == |journal| + 1
    && t.previousHash == if journal == [] then None else Some(journal[|journal| - 1].journalHash)
  }

  ghost predicate Chained(journal: seq<Transaction>, hash: Hasher) {
    journal == [] || (Chained(journal[..|journal| - 1], hash) && Linked(journal[|journal| - 1], journal[..|journal| - 1], hash))
  }

  lemma {:induction false} JournalIsChained(h: seq<Event>, hash: Hasher)
    requires Accepted(h, hash)
    ensures Chained(Journal(h), hash)
  {
    hide Admissible, Accepted;
    if h != [] {
      var before, e := h[..|h| - 1], h[|h| - 1];
      assert h == before + [e] + [];
      AcceptedAt(h, before, e, [], hash);
      JournalIsChained(before, hash);
      if e.payload.LedgerPosted? {
        PostingIsLinked(e, e.payload.transaction, before, hash);
        assert Journal(h) == Journal(before) + [e.payload.transaction];
      } else {
        assert Journal(h) == Journal(before);
      }
    }
  }

  lemma PostingIsLinked(e: Event, t: Transaction, before: seq<Event>, hash: Hasher)
    requires Accepted(before, hash) && Admissible(e, before, hash) && e.payload == LedgerPosted(t)
    ensures Linked(t, Journal(before), hash)
  {
    hide Admissible, Accepted, CheckLedger, CheckDecision, CheckOrder, CheckSnapshot, CheckLink, Journal, SoundJournal, Posted;
    AdmittedPassed(e, before, hash);
    LinkChecked(t, before, PublicRecords(before), RunOf(before).value.configuration, hash);
    JournalIsSound(before, hash);
    LinkIsLink(t, Journal(before), RunOf(before).value.configuration, hash);
  }

  lemma LinkChecked(t: Transaction, before: seq<Event>, records: Records, c: Configuration, hash: Hasher)
    requires CheckLedger(t, before, records, c, hash).Ok?
    ensures CheckLink(t, Journal(before), c, hash).Ok?
  {
    hide CheckLink, CheckEffect, StateOf, Journal, WellAddressed, DistinctEntries;
  }

  lemma LinkIsLink(t: Transaction, journal: seq<Transaction>, c: Configuration, hash: Hasher)
    requires CheckLink(t, journal, c, hash).Ok? && SoundJournal(journal, c)
    ensures Linked(t, journal, hash)
  {
    hide SoundJournal;
    SequenceIsPosition(journal, c);
  }

  /** Two chains that end in the same hash are the same chain. */
  lemma {:induction false} LastHashPinsChain(a: seq<Transaction>, b: seq<Transaction>, hash: Hasher)
    requires CollisionFree(hash) && Chained(a, hash) && Chained(b, hash) && SameEnd(a, b)
    ensures a == b
  {
    var s, t := a[|a| - 1], b[|b| - 1];
    assert OfJournal(Unhashed(s)) == OfJournal(Unhashed(t));
    assert s == Unhashed(s).(journalHash := s.journalHash);
    assert t == Unhashed(t).(journalHash := t.journalHash);
    assert s == t;
    var p, q := a[..|a| - 1], b[..|b| - 1];
    if p != [] {
      LastHashPinsChain(p, q, hash);
    }
    assert a == p + [s] && b == q + [t];
  }

  /** Neither journal is empty, and both end in one hash. */
  predicate SameEnd(a: seq<Transaction>, b: seq<Transaction>) {
    a != [] && b != [] && a[|a| - 1].journalHash == b[|b| - 1].journalHash
  }

  /** Accepted histories whose journals end in one hash have one journal and one ledger state. */
  lemma LastHashPinsLedger(g: seq<Event>, h: seq<Event>, hash: Hasher)
    requires CollisionFree(hash) && Accepted(g, hash) && Accepted(h, hash) && SameEnd(Journal(g), Journal(h))
    ensures Journal(g) == Journal(h) && StateOf(g) == StateOf(h)
  {
    hide Admissible, Accepted, Journal, CollisionFree, Chained;
    JournalIsChained(g, hash);
    JournalIsChained(h, hash);
    LastHashPinsChain(Journal(g), Journal(h), hash);
  }

  lemma {:induction false} ChainedPrefix(journal: seq<Transaction>, n: nat, hash: Hasher)
    requires Chained(journal, hash) && n <= |journal|
    ensures Chained(journal[..n], hash)
  {
    if n < |journal| {
      ChainedPrefix(journal[..|journal| - 1], n, hash);
      assert journal[..|journal| - 1][..n] == journal[..n];
    } else {
      assert journal[..n] == journal;
    }
  }

  /** A complete snapshot names its ledger prefix by one hash, in whatever history it appears. */
  lemma SnapshotPinsPrefix(g: seq<Event>, s: Snapshot, h: seq<Event>, t: Snapshot, hash: Hasher)
    requires CollisionFree(hash) && Reported(g, s, hash) && Reported(h, t, hash)
    requires s.quality == t.quality == Complete && s.journalHash == t.journalHash
    ensures NamedJournal(s, g) == NamedJournal(t, h)
  {
    hide Admissible, Accepted, Journal, CollisionFree, Chained, SoundJournal, PostJournal, NonNegative, StrandedCost, Reported;
    SnapshotEquity(g, s, hash);
    SnapshotEquity(h, t, hash);
    var _ := ReportedAfter(g, s, hash);
    var _ := ReportedAfter(h, t, hash);
    JournalIsChained(g, hash);
    JournalIsChained(h, hash);
    var a, b := NamedJournal(s, g), NamedJournal(t, h);
    ChainedPrefix(Journal(g), |a|, hash);
    ChainedPrefix(Journal(h), |b|, hash);
    LastHashPinsChain(a, b, hash);
  }
}
