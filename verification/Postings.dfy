/** What a list of entries does to the ledger state, account by account. */
module Postings {
  import opened Checks
  import opened Decimals
  import opened Events
  import opened Ledger
  import opened Sums

  /** Everything posted to an account. */
  function Sum(entries: seq<Entry>, account: Account): int {
    if entries == [] then 0
    else
      var last := entries[|entries| - 1];
      Sum(entries[..|entries| - 1], account) + if last.account == account then Fixed(last.amount) else 0
  }

  /** Everything posted to an account under one instrument. */
  function SumFor(entries: seq<Entry>, account: Account, id: Option<Id>): int {
    if entries == [] then 0
    else
      var last := entries[|entries| - 1];
      SumFor(entries[..|entries| - 1], account, id) +
      if last.account == account && last.instrumentId == id then Fixed(last.amount) else 0
  }

  predicate Names(e: Entry, account: Account, id: Option<Id>) {
    e.account == account && e.instrumentId == id
  }

  lemma {:induction false} SumForAbsent(entries: seq<Entry>, account: Account, id: Option<Id>)
    requires forall i | 0 <= i < |entries| :: !Names(entries[i], account, id)
    ensures SumFor(entries, account, id) == 0
  {
    if entries != [] {
      var n := |entries| - 1;
      assert !Names(entries[n], account, id);
      SumForAbsent(entries[..n], account, id);
    }
  }

  lemma {:induction false} SumForSingle(entries: seq<Entry>, account: Account, id: Option<Id>, k: nat)
    requires DistinctEntries(entries) && k < |entries| && Names(entries[k], account, id)
    ensures SumFor(entries, account, id) == Fixed(entries[k].amount)
  {
    hide Fixed;
    var n := |entries| - 1;
    if k == n {
      SumForAbsent(entries[..n], account, id);
    } else {
      SumForSingle(entries[..n], account, id, k);
    }
  }

  lemma {:induction false} AmountSingle(entries: seq<Entry>, account: Account, id: Option<Id>, k: nat)
    requires DistinctEntries(entries) && k < |entries| && Names(entries[k], account, id)
    ensures AmountOf(entries, account, id) == Fixed(entries[k].amount)
  {
    hide Fixed;
    if k > 0 {
      AmountSingle(entries[1..], account, id, k - 1);
    }
  }

  lemma {:induction false} AmountAbsent(entries: seq<Entry>, account: Account, id: Option<Id>)
    requires forall i | 0 <= i < |entries| :: !Names(entries[i], account, id)
    ensures AmountOf(entries, account, id) == 0
  {
    hide Fixed;
    if entries != [] {
      assert !Names(entries[0], account, id);
      forall i | 0 <= i < |entries[1..]| ensures !Names(entries[1..][i], account, id) {
        assert !Names(entries[i + 1], account, id);
      }
      AmountAbsent(entries[1..], account, id);
    }
  }

  /** With distinct entries, the amount looked up is everything posted under that name. */
  lemma SumForIsAmount(entries: seq<Entry>, account: Account, id: Option<Id>)
    requires DistinctEntries(entries)
    ensures SumFor(entries, account, id) == AmountOf(entries, account, id)
  {
    if k: nat :| k < |entries| && Names(entries[k], account, id) {
      SumForSingle(entries, account, id, k);
      AmountSingle(entries, account, id, k);
    } else {
      SumForAbsent(entries, account, id);
      AmountAbsent(entries, account, id);
    }
  }

  lemma {:induction false} SumIsSumFor(entries: seq<Entry>, account: Account, id: Option<Id>)
    requires forall i | 0 <= i < |entries| :: entries[i].account == account ==> entries[i].instrumentId == id
    ensures Sum(entries, account) == SumFor(entries, account, id)
  {
    if entries != [] {
      SumIsSumFor(entries[..|entries| - 1], account, id);
    }
  }

  lemma SumIsAmount(entries: seq<Entry>, account: Account, id: Option<Id>)
    requires DistinctEntries(entries)
    requires forall i | 0 <= i < |entries| :: entries[i].account == account ==> entries[i].instrumentId == id
    ensures Sum(entries, account) == AmountOf(entries, account, id)
  {
    SumIsSumFor(entries, account, id);
    SumForIsAmount(entries, account, id);
  }

  lemma {:induction false} SumAbsent(entries: seq<Entry>, account: Account)
    requires forall i | 0 <= i < |entries| :: entries[i].account != account
    ensures Sum(entries, account) == 0
  {
    if entries != [] {
      SumAbsent(entries[..|entries| - 1], account);
    }
  }

  /** How a state moves when a list of entries is posted. */
  ghost predicate Moves(s: LedgerState, entries: seq<Entry>, t: LedgerState) {
    && t.cash == s.cash + Sum(entries, Cash)
    && t.capital == s.capital + Sum(entries, Capital)
    && t.receivable == s.receivable + Sum(entries, Receivable)
    && t.liability == s.liability + Sum(entries, Liability)
    && t.realized == s.realized + Sum(entries, RealizedPnl)
    && MapSum(t.basis) == MapSum(s.basis) + Sum(entries, BookCost)
    && (forall id :: Get(t.quantity, id) == Get(s.quantity, id) + SumFor(entries, QuantityHeld, Some(id)))
    && (forall id :: Get(t.basis, id) == Get(s.basis, id) + SumFor(entries, BookCost, Some(id)))
  }

  lemma PostMoves(s: LedgerState, e: Entry)
    requires Post(s, e).Ok?
    ensures var t := Post(s, e).value; var v := Fixed(e.amount);
            && t.cash == s.cash + (if e.account == Cash then v else 0)
            && t.capital == s.capital + (if e.account == Capital then v else 0)
            && t.receivable == s.receivable + (if e.account == Receivable then v else 0)
            && t.liability == s.liability + (if e.account == Liability then v else 0)
            && t.realized == s.realized + (if e.account == RealizedPnl then v else 0)
            && MapSum(t.basis) == MapSum(s.basis) + (if e.account == BookCost then v else 0)
            && (forall id :: Get(t.quantity, id) == Get(s.quantity, id) + if Names(e, QuantityHeld, Some(id)) then v else 0)
            && (forall id :: Get(t.basis, id) == Get(s.basis, id) + if Names(e, BookCost, Some(id)) then v else 0)
  {
    hide Fixed;
    if e.account == BookCost {
      MapSumAdd(s.basis, e.instrumentId.value, Get(s.basis, e.instrumentId.value) + Fixed(e.amount));
    }
  }

  lemma {:induction false} EntriesMove(s: LedgerState, entries: seq<Entry>)
    requires PostEntries(s, entries).Ok?
    ensures Moves(s, entries, PostEntries(s, entries).value)
  {
    hide Fixed, MapSum, Get, Post;
    if entries != [] {
      var front, last := entries[..|entries| - 1], entries[|entries| - 1];
      EntriesMove(s, front);
      PostMoves(PostEntries(s, front).value, last);
    }
  }
}
