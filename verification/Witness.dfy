/**
 * Accepted histories in which listed properties fail: a correction that does not balance, an order
 * that expires after its fill, and a split that leaves cost on nothing and a snapshot short of it.
 */
module Witness {
  import opened Checks
  import opened Decimals
  import opened Events
  import opened Ledger
  import opened Orders
  import opened Publication
  import opened History
  import opened Rounding
  import opened Balance
  import opened Positions
  import opened Snapshots
  import opened Equity
  import opened Example

  // ----- opening -----

  function Published(hash: Hasher): Event {
    At(1, System, START, RunPublished(FirstRun(hash)))
  }

  const NOBODY := View([], [], EMPTY, None, None, [])

  lemma RunFits(hash: Hasher)
    ensures Fits([], Published(hash), hash)
  {
    hide CheckDecision, CheckOrder, CheckLedger, Snapshots.CheckSnapshot, CheckInstrumentUpdate, CheckContribution, CheckArtifact,
      CheckAmendment, Name;
    assert Fixed(CAPITAL) == 100_000_000_000;
    assert RunEvent([]) == None && Refs(Published(hash)) == [];
    assert ([] + [Published(hash)])[..0] == [] && StateOf([] + [Published(hash)]) == Ok(EMPTY) by { RunOpensNoLedger(hash); }
    hide Fixed, StateOf;
  }

  lemma RunOpensNoLedger(hash: Hasher)
    ensures [] + [Published(hash)] == [Published(hash)] && StateOf([Published(hash)]) == Ok(EMPTY) && Journal([Published(hash)]) == []
  {
    hide FirstRun, Name;
    var e := Published(hash);
    assert [] + [e] == [e];
    JournalExtends([], e);
    assert Journal([]) == [] && Journal([e]) == [] && UpTo([], None) == [] && PostJournal([]) == Ok(EMPTY);
  }

  /** The run is published. */
  lemma Publishes(hash: Hasher)
    ensures Seen([Published(hash)], NOBODY, hash)
  {
    StartIsRecorded(hash);
    StartIsViewed(hash);
    RunFits(hash);
    hide FirstRun, Fits, StateOf, Journal, Views, Recorded, PublicRecords, Name;
    var h := [Published(hash)];
    assert [] + h == h && Arrives([], hash);
    ArrivesGrows([], h[0], hash);
    assert Tagged(h[0], 1) && AllTagged(h);
    PartsAreSeen(h, NOBODY, hash);
  }

  lemma StartIsRecorded(hash: Hasher)
    ensures Recorded(PublicRecords([Published(hash)]), 1, NOBODY)
  {
    hide FirstRun, RunEvent, Roster, LatestOrder, Journal;
    var e := Published(hash);
    assert [e][..0] == [] && PublicRecords([]) == map[];
    assert RecordKeys(e) == [EventKey(e)];
  }

  lemma StartIsViewed(hash: Hasher)
    ensures Views([Published(hash)], NOBODY, hash)
  {
    RunOpensNoLedger(hash);
    hide FirstRun, StateOf, Journal, Register, Name;
    AppendViews([], Published(hash));
    assert [] + [Published(hash)] == [Published(hash)];
  }

  // ----- postings -----

  /** The next transaction of the journal, with its own hash. */
  function Transfer(h: seq<Event>, v: View, effect: Effect, time: Time, entries: seq<Entry>, fill: Option<Fill>,
                    action: Option<CorporateAction>, correctionOf: Option<RecordRef>, hash: Hasher): (t: Transaction)
    ensures t.effect == effect && t.entries == entries && t.fill == fill && t.corporateAction == action && t.correctionOf == correctionOf
    ensures t.effectiveAt == t.recordedAt == time && t.journalSequence == |v.journal| + 1
  {
    var n, last := |v.journal| + 1, if v.journal == [] then None else Some(v.journal[|v.journal| - 1]);
    var t := Transaction(Name(|h| + 1), n, if last.Some? then Some(last.value.journalHash) else None, "",
                         if last.Some? then Some(last.value.ledgerVersion) else None, n, hash(OfConfiguration(Settings())), effect,
                         Name(|h| + 1), time, time, entries, fill, action, correctionOf);
    t.(journalHash := hash(OfJournal(t)))
  }

  lemma TransferLinks(h: seq<Event>, v: View, effect: Effect, time: Time, entries: seq<Entry>, fill: Option<Fill>,
                      action: Option<CorporateAction>, correctionOf: Option<RecordRef>, hash: Hasher)
    requires Linked(v.journal, |h|)
    ensures var t := Transfer(h, v, effect, time, entries, fill, action, correctionOf, hash);
            CheckLink(t, v.journal, Settings(), hash).Ok? && t.sourceOperationId == t.transactionId == Name(|h| + 1)
  {
    hide Settings, Name;
    var t := Transfer(h, v, effect, time, entries, fill, action, correctionOf, hash);
    assert Unhashed(t) == t.(journalHash := "");
  }

  /** Only the funding is corrected. */
  predicate Refers(t: Transaction, h: seq<Event>) {
    t.correctionOf.Some? ==> t.correctionOf.value.key == Funding() && |h| >= 2
  }

  /** The entries may be posted, and lead to this state. */
  ghost predicate Postable(v: View, entries: seq<Entry>, s: LedgerState) {
    && DistinctEntries(entries) && (forall i | 0 <= i < |entries| :: WellAddressed(entries[i], Settings()))
    && NonNegative(v.state) && PostEntries(v.state, entries) == Ok(s) && NonNegative(s)
  }

  ghost predicate Effective(t: Transaction, h: seq<Event>, v: View) {
    && NonNegative(v.state)
    && forall records {:trigger Registry(h, records)} | Registry(h, records) :: CheckEffect(t, h, records, Settings(), v.state).Ok?
  }

  lemma EffectsPass(t: Transaction, h: seq<Event>, v: View)
    requires forall records | Registry(h, records) :: Effects(t, h, records, v.state)
    ensures Effective(t, h, v)
  {
    hide CheckEffect, NonNegative, PublicRecords;
    assert Registry(h, PublicRecords(h));
  }

  function Entered(h: seq<Event>, t: Transaction): Event {
    At(|h| + 1, System, t.recordedAt, LedgerPosted(t))
  }

  lemma TransferIsDue(h: seq<Event>, v: View, t: Transaction, hash: Hasher)
    requires h != [] && 0 <= t.recordedAt.ms <= NOW.ms
    requires t == Transfer(h, v, t.effect, t.recordedAt, t.entries, t.fill, t.corporateAction, t.correctionOf, hash)
    ensures Due(Entered(h, t), h, v)
  {
    hide Name, Transfer;
    TransferName(h, v, t, hash);
  }

  lemma TransferName(h: seq<Event>, v: View, t: Transaction, hash: Hasher)
    requires t == Transfer(h, v, t.effect, t.recordedAt, t.entries, t.fill, t.corporateAction, t.correctionOf, hash)
    ensures t.transactionId == t.sourceOperationId == Name(|h| + 1)
  {
    hide Name, Settings;
  }

  lemma TransferIsGuarded(h: seq<Event>, v: View, t: Transaction, s: LedgerState, hash: Hasher)
    requires Seen(h, v, hash) && Refers(t, h) && Postable(v, t.entries, s) && Effective(t, h, v)
    requires t == Transfer(h, v, t.effect, t.recordedAt, t.entries, t.fill, t.corporateAction, t.correctionOf, hash)
    ensures Passing(Entered(h, t), h, v, hash) && After(v, Entered(h, t)) == v.(journal := v.journal + [t], state := s)
  {
    hide Seen, Transfer, Settings, CheckLink, CheckEffect, PostEntries, NonNegative, WellAddressed, DistinctEntries, Name,
      CheckDecision, CheckOrder, CheckSnapshot, Linked, Views, AllTagged;
    SeenLinks(h, v, hash);
    TransferName(h, v, t, hash);
    TransferLinks(h, v, t.effect, t.recordedAt, t.entries, t.fill, t.corporateAction, t.correctionOf, hash);
  }

  /** A posting moves the journal and the ledger, and nothing else. */
  lemma Posts(h: seq<Event>, v: View, t: Transaction, s: LedgerState, hash: Hasher)
    requires Seen(h, v, hash) && h != []
    requires t == Transfer(h, v, t.effect, t.recordedAt, t.entries, t.fill, t.corporateAction, t.correctionOf, hash)
    requires 0 <= t.recordedAt.ms <= NOW.ms && Refers(t, h)
    requires Postable(v, t.entries, s) && Effective(t, h, v)
    ensures Seen(h + [Entered(h, t)], v.(journal := v.journal + [t], state := s), hash)
  {
    hide *;
    TransferIsGuarded(h, v, t, s, hash);
    TransferIsDue(h, v, t, hash);
    Step(h, v, Entered(h, t), hash);
  }

  lemma SeenLinks(h: seq<Event>, v: View, hash: Hasher)
    requires Seen(h, v, hash)
    ensures Linked(v.journal, |h|) && Views(h, v, hash) && AllTagged(h)
  {
    hide Linked, Arrives, AllTagged, Recorded, PublicRecords, RunOf, Roster, Journal, StateOf, LatestOrder, Events.Snapshots,
      FirstRun;
  }

  const CASH_IN := Entry(Cash, None, CAPITAL)
  const CAPITAL_IN := Entry(Capital, None, CAPITAL)

  function Funds(): LedgerState {
    EMPTY.(cash := 100_000_000_000, capital := 100_000_000_000)
  }

  lemma WholeAmount(p: Parts)
    requires p.fraction == 0
    ensures Fixed(p) == (if p.negative then -1 else 1) * (p.whole * 1_000_000)
  {
    assert 0 * Scale(p.places) == 0;
  }

  lemma Amounts()
    ensures Fixed(CAPITAL) == 100_000_000_000 && Fixed(UNIT) == 1_000_000 && Fixed(UNIT_LESS) == -1_000_000
    ensures Fixed(NOTHING) == 0 && Fixed(GUARD) == 2_000_000
  {
    hide Fixed;
    WholeAmount(CAPITAL);
    WholeAmount(UNIT);
    WholeAmount(UNIT_LESS);
    WholeAmount(NOTHING);
    WholeAmount(GUARD);
  }

  lemma AmountHere(e: Entry, rest: seq<Entry>, account: Account, id: Option<Id>)
    ensures AmountOf([], account, id) == 0
    ensures AmountOf([e] + rest, account, id)
         == if e.account == account && e.instrumentId == id then Fixed(e.amount) else AmountOf(rest, account, id)
  {
    hide Fixed;
    assert ([e] + rest)[1..] == rest;
  }

  lemma PostOne(s: LedgerState, entries: seq<Entry>, e: Entry)
    ensures PostEntries(s, []) == Ok(s)
    ensures PostEntries(s, entries + [e]) == var t := PostEntries(s, entries); if t.Ok? then Post(t.value, e) else t
  {
    hide Post;
    assert (entries + [e])[..|entries|] == entries;
  }

  lemma FundingPosts()
    ensures Postable(NOBODY, [CASH_IN, CAPITAL_IN], Funds())
  {
    Amounts();
    hide Fixed, Settings, PostEntries;
    PostOne(EMPTY, [], CASH_IN);
    PostOne(EMPTY, [CASH_IN], CAPITAL_IN);
    assert [] + [CASH_IN] == [CASH_IN] && [CASH_IN] + [CAPITAL_IN] == [CASH_IN, CAPITAL_IN];
  }

  /** The capital is paid in. */
  lemma Opens(hash: Hasher) returns (h: seq<Event>, v: View, t: Transaction)
    ensures Seen(h, v, hash) && |h| == 2 && v == NOBODY.(journal := [t], state := Funds())
    ensures t.effect == Initialization && t.fill.None? && t.corporateAction.None?
  {
    hide Effective, Transfer, Seen, Settings, PostEntries, Postable, NonNegative, Fixed, Name;
    Publishes(hash);
    FundingPosts();
    h, v := [Published(hash)], NOBODY;
    t := Transfer(h, v, Initialization, START, [CASH_IN, CAPITAL_IN], None, None, None, hash);
    FundingEffect(t, h, v);
    Posts(h, v, t, Funds(), hash);
    h := h + [Entered(h, t)];
    v := v.(journal := v.journal + [t], state := Funds());
    assert [] + [t] == [t];
  }

  lemma FundingEffect(t: Transaction, h: seq<Event>, v: View)
    requires t.effect == Initialization && t.journalSequence == 1 && t.entries == [CASH_IN, CAPITAL_IN] && v == NOBODY
    requires t.fill.None? && t.corporateAction.None? && t.correctionOf.None?
    ensures Effective(t, h, v)
  {
    hide CheckFill, CheckAction, Fixed;
    AmountHere(CASH_IN, [CAPITAL_IN], Cash, None);
    AmountHere(CASH_IN, [CAPITAL_IN], Capital, None);
    AmountHere(CAPITAL_IN, [], Capital, None);
    assert [CASH_IN] + [CAPITAL_IN] == [CASH_IN, CAPITAL_IN] && [CAPITAL_IN] + [] == [CAPITAL_IN];
  }

  // ----- a correction that does not balance -----

  /** One unit of cash out of nowhere, named a correction of the funding. */
  lemma Corrects(h: seq<Event>, v: View, hash: Hasher) returns (t: Transaction)
    requires Seen(h, v, hash) && |h| >= 2 && v.journal != [] && NonNegative(v.state)
    ensures Seen(h + [Entered(h, t)], v.(journal := v.journal + [t], state := v.state.(cash := v.state.cash + 1_000_000)), hash)
    ensures t.effect == Correction && Net(t.entries) == 1_000_000
  {
    hide Views, PublicRecords, Transfer, AllTagged, Postable, Seen, Settings, Name, PostEntries, Fixed, CheckEffect,
      NonNegative, Net;
    t := Transfer(h, v, Correction, LATER, [Entry(Cash, None, UNIT)], None, None, Some(RecordRef(Funding(), Supersedes)), hash);
    SeenLinks(h, v, hash);
    FundingIsRecorded(h, v, hash);
    WindfallPosts(v);
    forall records | Registry(h, records) ensures CheckEffect(t, h, records, Settings(), v.state).Ok? && Net(t.entries) == 1_000_000 {
      CorrectionMayUnbalance(t, h, records, Settings(), v.state);
    }
    assert Registry(h, PublicRecords(h));
    Posts(h, v, t, v.state.(cash := v.state.cash + 1_000_000), hash);
  }

  lemma WindfallPosts(v: View)
    requires NonNegative(v.state)
    ensures Postable(v, [Entry(Cash, None, UNIT)], v.state.(cash := v.state.cash + 1_000_000))
  {
    Amounts();
    hide Fixed, Settings, PostEntries;
    PostOne(v.state, [], Entry(Cash, None, UNIT));
    assert [] + [Entry(Cash, None, UNIT)] == [Entry(Cash, None, UNIT)];
  }

  lemma FundingIsRecorded(h: seq<Event>, v: View, hash: Hasher)
    requires Seen(h, v, hash) && |h| >= 2
    ensures Funding() in PublicRecords(h)
  {
    hide *;
    SeenParts(h, v, hash);
    RecordedHolds(PublicRecords(h), |h|, v);
  }

  /** The registry gives the decision and the latest revision of the order. */
  ghost predicate Finds(records: Records, v: View) {
    && (v.decision.Some? ==> DecisionKey(Decided(), 1) in records
                             && records[DecisionKey(Decided(), 1)].payload == DecisionPublished(v.decision.value))
    && (v.order.Some? ==> OrderKey(Ordered(), Revision(v)) in records && records[OrderKey(Ordered(), Revision(v))] == v.order.value)
  }

  lemma RecordedHolds(records: Records, n: int, v: View)
    requires Recorded(records, n, v)
    ensures (n >= 2 ==> Funding() in records) && Finds(records, v)
  {
    hide Name;
  }

  // ----- a team and its decision -----

  /** A team of two is published. */
  lemma Hires(h: seq<Event>, v: View, hash: Hasher) returns (e: Event)
    requires Seen(h, v, hash) && |h| >= 2
    ensures Seen(h + [e], v.(roster := TEAM), hash)
  {
    hide Seen, Settings, Name, CheckDecision, CheckOrder, CheckLink, CheckEffect, Snapshots.CheckSnapshot;
    e := At(|h| + 1, System, START, TeamPublished(TEAM));
    assert TEAM[0] != TEAM[1] by { assert TEAM[0][0] != TEAM[1][0]; }
    Step(h, v, e, hash);
  }

  function Plan(): Proposal {
    Proposal(Decided(), 1, BuyAction, Some("x"), Some(UNIT), Some(0), Some(GUARD), START, START, [], None, "")
  }

  function Agreement(hash: Hasher): Decision {
    Decision(Plan(), hash(OfProposal(Plan())), Review(Decided(), "bob", hash(OfProposal(Plan())), 1, START, Approve, [], ""))
  }

  /** One proposes to buy a share, the other approves. */
  lemma Decides(h: seq<Event>, v: View, hash: Hasher) returns (e: Event)
    requires Seen(h, v, hash) && |h| == 3 && v.roster == TEAM && v.decision.None?
    ensures Seen(h + [e], v.(decision := Some(Agreement(hash))), hash)
  {
    hide Seen, Name, CheckOrder, CheckLink, CheckEffect, Snapshots.CheckSnapshot, CheckDecision, Settings, Due, Agreement,
      Linked, AllTagged, RunOf, StateOf, LatestOrder, Roster;
    e := At(4, Worker("alice"), START, DecisionPublished(Agreement(hash)));
    SeenLinks(h, v, hash);
    DecisionIsDue(h, v, hash);
    DecisionPasses(e, h, hash);
    Step(h, v, e, hash);
  }

  lemma DecisionIsDue(h: seq<Event>, v: View, hash: Hasher)
    requires |h| == 3
    ensures Due(At(4, Worker("alice"), START, DecisionPublished(Agreement(hash))), h, v) && "alice" in TEAM
    ensures var p, r := Agreement(hash).proposal, Agreement(hash).review;
            p.executionAmendmentId.None? && p.evidence == r.evidence == [] && p.decisionId == Decided() && p.revision == 1
  {
    hide Name;
    assert TEAM[0] == "alice";
  }

  lemma ShareIsListed()
    ensures InUniverse(Settings(), "x")
  {
    assert Settings().universe[0].instrumentId == "x";
  }

  lemma DecisionPasses(e: Event, h: seq<Event>, hash: Hasher)
    requires e.actor == Worker("alice") && e.recordedAt.ms >= 0 && Roster(h) == TEAM
    ensures CheckDecision(e, Agreement(hash), h, Settings(), hash).Ok?
  {
    ShareIsListed();
    Amounts();
    hide Settings, Roster, InUniverse, Fixed, Name;
    assert TEAM[1] in TEAM;
    assert TEAM[0] != TEAM[1] by { assert TEAM[0][0] != TEAM[1][0]; }
  }

  // ----- the order -----

  function Deal(hash: Hasher): Terms {
    Terms(Decided(), 1, hash(OfProposal(Plan())), 0, "x", Buy, UNIT, 0, START, EXPIRY, GUARD,
          hash(OfConfiguration(Settings())), 1, None, None)
  }

  /** The event carries this revision of the order. */
  predicate IsRevision(e: Event, revision: int, status: Status, hash: Hasher) {
    && e.payload.PaperOrder? && e.payload.order.orderId == Ordered() && e.payload.order.revision == revision
    && e.payload.order.status == status && e.payload.order.terms == Deal(hash)
  }

  /** The latest revision of the order. */
  predicate Stands(v: View, revision: int, status: Status, hash: Hasher) {
    v.order.Some? && IsRevision(v.order.value, revision, status, hash)
  }

  predicate NoActions(journal: seq<Transaction>) {
    forall i | 0 <= i < |journal| :: journal[i].corporateAction.None?
  }

  /** What the next revision follows. */
  predicate Follows(v: View, status: Status, hash: Hasher) {
    && v.decision == Some(Agreement(hash)) && status in {Proposed, Validated, Pending, Expired}
    && if v.order.None? then status == Proposed
       else v.order.value.payload.PaperOrder? && v.order.value.payload.order.terms == Deal(hash)
            && status in Next(v.order.value.payload.order.status)
  }

  function Draft(v: View, status: Status, hash: Hasher): Order {
    Order(Ordered(), Revision(v) + 1, if v.order.Some? then Some(v.order.value.eventId) else None, Deal(hash), status,
          if status == Expired then Some("late") else None, NOTHING, NOTHING)
  }

  predicate IsNext(e: Event, v: View, status: Status, hash: Hasher) {
    IsRevision(e, Revision(v) + 1, status, hash)
  }

  /** The order moves to its next revision. */
  lemma Revises(h: seq<Event>, v: View, time: Time, status: Status, hash: Hasher) returns (e: Event)
    requires Seen(h, v, hash) && |h| >= 4 && Follows(v, status, hash) && 0 <= time.ms <= NOW.ms
    ensures Seen(h + [e], v.(order := Some(e)), hash) && IsNext(e, v, status, hash)
  {
    hide Arrives, Seen, Name, Deal, Agreement, Settings, CheckOrder, CheckDecision, CheckLink, CheckEffect,
      Snapshots.CheckSnapshot, Follows, Draft, Due, IsRevision, Revision, Linked, Recorded, AllTagged, PublicRecords, Roster,
      RunOf, StateOf, LatestOrder;
    e := Drafted(h, v, time, status, hash);
    SeenLinks(h, v, hash);
    SeenParts(h, v, hash);
    DraftIsDue(h, v, time, status, hash);
    forall records | Registry(h, records) ensures CheckOrder(e, Draft(v, status, hash), h, records, Settings(), hash).Ok? {
      RecordedHolds(records, |h|, v);
      FollowsDecision(v, status, hash);
      DraftPasses(e, h, records, v, status, hash);
    }
    Step(h, v, e, hash);
  }

  lemma FollowsDecision(v: View, status: Status, hash: Hasher)
    requires Follows(v, status, hash)
    ensures v.decision == Some(Agreement(hash))
  {
    hide Agreement, Deal;
  }

  function Drafted(h: seq<Event>, v: View, time: Time, status: Status, hash: Hasher): Event {
    At(|h| + 1, System, time, PaperOrder(Draft(v, status, hash)))
  }

  lemma DraftIsDue(h: seq<Event>, v: View, time: Time, status: Status, hash: Hasher)
    requires |h| >= 4 && 0 <= time.ms <= NOW.ms
    ensures var e, p := Drafted(h, v, time, status, hash), Draft(v, status, hash);
            && Due(e, h, v) && IsRevision(e, Revision(v) + 1, status, hash)
            && p.revision == Revision(v) + 1 && p.terms.executionAmendmentId.None?
  {
    hide Name;
  }

  lemma TermsPass(v: View, status: Status, hash: Hasher)
    requires status in {Proposed, Validated, Pending, Expired}
    ensures CheckOrderTerms(Draft(v, status, hash), Agreement(hash), Settings(), hash).Ok?
  {
    Amounts();
    hide Fixed, Name, Listed;
  }

  lemma DraftLooks(v: View, status: Status, hash: Hasher)
    ensures var p := Draft(v, status, hash);
            && p.orderId == Ordered() && p.status == status && p.terms.decisionId == Decided() && p.terms.decisionRevision == 1
            && p.terms.executionAmendmentId.None? && p.reservedCash == NOTHING && p.reservedQuantity == NOTHING
            && (status == Expired ==> p.reason.Some?)
  {
    hide Name;
  }

  lemma DraftPasses(e: Event, h: seq<Event>, records: Records, v: View, status: Status, hash: Hasher)
    requires Follows(v, status, hash) && LatestOrder(h, Ordered()) == v.order && AllTagged(h)
    requires v.decision == Some(Agreement(hash)) && Finds(records, v)
    ensures CheckOrder(e, Draft(v, status, hash), h, records, Settings(), hash).Ok?
  {
    hide CheckOrderTerms, CheckRevision, Fixed, Draft, Deal, Agreement, Settings, Name, Journal, LatestOrder, SameSlot, Tagged;
    TermsPass(v, status, hash);
    Amounts();
    DraftLooks(v, status, hash);
    DraftFollows(e, v, status, hash);
    NoOtherSlot(h, Draft(v, status, hash));
  }

  lemma NoOtherSlot(h: seq<Event>, p: Order)
    requires AllTagged(h) && p.orderId == Ordered()
    ensures forall i | 0 <= i < |h| :: !SameSlot(h[i], p)
  {
    hide Name, Ordered;
    forall i | 0 <= i < |h| ensures !SameSlot(h[i], p) {
      assert Tagged(h[i], i + 1);
    }
  }

  lemma DraftFollows(e: Event, v: View, status: Status, hash: Hasher)
    requires Follows(v, status, hash)
    ensures CheckRevision(e, Draft(v, status, hash), v.order, false).Ok?
  {
    hide Deal, Name, Agreement, Next;
  }

  // ----- the fill -----

  function OpeningPrice(): Observation {
    Observation("x", "venue", "provider", "feed", RegularOpen, UNIT, 0, MARKET, None, MARKET, "calendar", "")
  }

  function Bought(): Fill {
    Fill(Ordered(), 3, Decided(), 1, "x", Buy, UNIT, UNIT, NOTHING, NOTHING, NOTHING, OpeningPrice(),
         RationalParts(0, 1), RationalParts(0, 1))
  }

  const SHARES_BOUGHT := Entry(QuantityHeld, Some("x"), UNIT)
  const PRICE_PAID := Entry(Cash, None, UNIT_LESS)
  const COST := Entry(BookCost, Some("x"), UNIT)
  const PURCHASE := [SHARES_BOUGHT, PRICE_PAID, COST]

  function Owned(): LedgerState {
    Funds().(cash := 99_999_000_000, quantity := map["x" := 1_000_000], basis := map["x" := 1_000_000])
  }

  lemma PurchasePosts(v: View)
    requires v.state == Funds()
    ensures Postable(v, PURCHASE, Owned())
  {
    Amounts();
    ShareIsListed();
    hide Fixed, Settings, PostEntries, InUniverse;
    PostOne(Funds(), [], SHARES_BOUGHT);
    PostOne(Funds(), [SHARES_BOUGHT], PRICE_PAID);
    PostOne(Funds(), [SHARES_BOUGHT, PRICE_PAID], COST);
    assert [] + [SHARES_BOUGHT] == [SHARES_BOUGHT] && [SHARES_BOUGHT] + [PRICE_PAID] == [SHARES_BOUGHT, PRICE_PAID];
    assert [SHARES_BOUGHT, PRICE_PAID] + [COST] == PURCHASE;
  }

  lemma PurchaseAmount(account: Account, id: Option<Id>)
    ensures AmountOf(PURCHASE, account, id) ==
            if account == QuantityHeld && id == Some("x") then 1_000_000
            else if account == Cash && id == None then -1_000_000
            else if account == BookCost && id == Some("x") then 1_000_000
            else 0
  {
    Amounts();
    hide AmountOf, Fixed;
    AmountHere(COST, [], account, id);
    AmountHere(PRICE_PAID, [COST], account, id);
    AmountHere(SHARES_BOUGHT, [PRICE_PAID, COST], account, id);
    assert [COST] + [] == [COST] && [PRICE_PAID] + [COST] == [PRICE_PAID, COST];
    assert [SHARES_BOUGHT] + [PRICE_PAID, COST] == PURCHASE;
  }

  lemma PurchasePasses(t: Transaction, before: LedgerState)
    requires t.entries == PURCHASE
    ensures CheckFillPostings(t, Bought(), before).Ok? && AmountOf(t.entries, Capital) == 0
  {
    hide Fixed, AmountOf, Name, Product, Get;
    Amounts();
    PurchaseAmount(QuantityHeld, Some("x"));
    PurchaseAmount(Cash, None);
    PurchaseAmount(BookCost, Some("x"));
    PurchaseAmount(RealizedPnl, None);
    PurchaseAmount(Fee, None);
    PurchaseAmount(Capital, None);
    ProductOfUnits();
  }

  lemma ProductOfUnits()
    ensures Product(1_000_000, 1_000_000) == 1_000_000
  {
  }

  lemma PricePasses(o: Order, hash: Hasher)
    requires o.terms == Deal(hash)
    ensures CheckFillPrice(Bought(), o, Settings()).Ok?
  {
    Amounts();
    hide Fixed, Name, Listed;
    assert HalfEven(1_000_000 * 10000, 10000) == 1_000_000;
  }

  lemma TimesPass(t: Transaction, o: Order, h: seq<Event>, records: Records, v: View, hash: Hasher)
    requires o.terms == Deal(hash) && t.recordedAt == t.effectiveAt == MARKET
    requires v.decision == Some(Agreement(hash)) && Finds(records, v)
    ensures CheckFillTimes(t, Bought(), o, h, records, Settings()).Ok?
  {
    Amounts();
    hide Fixed, Name;
    assert (Settings().universe + [Listed("index", "INDEX")])[0] == Listed("x", "X");
  }

  /** The share is bought, for the pending order. */
  lemma Buys(h: seq<Event>, v: View, hash: Hasher) returns (t: Transaction)
    requires Seen(h, v, hash) && |h| >= 2 && v.journal != [] && v.state == Funds() && v.decision == Some(Agreement(hash))
    requires Stands(v, 3, Pending, hash) && !HasFill(v.journal, Ordered())
    ensures Seen(h + [Entered(h, t)], v.(journal := v.journal + [t], state := Owned()), hash)
    ensures t.effect == FillEffect && t.fill == Some(Bought()) && t.corporateAction.None?
  {
    hide Arrives, PublicRecords, Seen, Settings, Name, PostEntries, Fixed, CheckEffect, Agreement, Postable, IsRevision,
      HasFill, Bought;
    t := Transfer(h, v, FillEffect, MARKET, PURCHASE, Some(Bought()), None, None, hash);
    PurchasePosts(v);
    SeenLinks(h, v, hash);
    SeenParts(h, v, hash);
    PostableIsFine(v, PURCHASE, Owned());
    forall records | Registry(h, records) ensures Effects(t, h, records, v.state) {
      RecordedHolds(records, |h|, v);
      FillPasses(t, h, records, v, hash);
    }
    EffectsPass(t, h, v);
    Posts(h, v, t, Owned(), hash);
  }

  lemma PostableIsFine(v: View, entries: seq<Entry>, s: LedgerState)
    requires Postable(v, entries, s)
    ensures NonNegative(v.state) && NonNegative(s)
  {
    hide PostEntries, Settings, WellAddressed, NonNegative;
  }

  /** The effect passes its guards against this registry. */
  ghost predicate Effects(t: Transaction, h: seq<Event>, records: Records, before: LedgerState) {
    NonNegative(before) && CheckEffect(t, h, records, Settings(), before).Ok?
  }

  lemma FillPasses(t: Transaction, h: seq<Event>, records: Records, v: View, hash: Hasher)
    requires t.effect == FillEffect && t.fill == Some(Bought()) && t.corporateAction.None? && t.correctionOf.None?
    requires t.entries == PURCHASE && t.journalSequence > 1 && t.recordedAt == t.effectiveAt == MARKET && NonNegative(v.state)
    requires Stands(v, 3, Pending, hash) && v.decision == Some(Agreement(hash)) && Finds(records, v)
    requires LatestOrder(h, Ordered()) == v.order && !HasFill(Journal(h), Ordered())
    ensures Effects(t, h, records, v.state)
  {
    hide CheckFillOrder, CheckFillTimes, CheckFillPrice, CheckFillPostings, CheckAction, CheckInitialization, Settings,
      AmountOf, Name, Agreement, Deal, LatestOrder, Journal, HasFill, NonNegative, IsRevision, Finds;
    PurchasePasses(t, v.state);
    var o := OrderIsReady(h, records, v, hash);
    PricePasses(o, hash);
    TimesPass(t, o, h, records, v, hash);
  }

  lemma OrderIsReady(h: seq<Event>, records: Records, v: View, hash: Hasher) returns (o: Order)
    requires Stands(v, 3, Pending, hash) && Finds(records, v)
    requires LatestOrder(h, Ordered()) == v.order && !HasFill(Journal(h), Ordered())
    ensures CheckFillOrder(Bought(), h, records) == Ok(o) && o.terms == Deal(hash)
  {
    hide LatestOrder, Journal, HasFill, Name, Plan, OpeningPrice;
    o := v.order.value.payload.order;
  }

  // ----- the split -----

  const SHARES_LOST := Entry(QuantityHeld, Some("x"), UNIT_LESS)

  function Emptied(): LedgerState {
    Owned().(quantity := map["x" := 0])
  }

  /** One share, split one for two million: the share is gone, its cost is not. */
  lemma Consolidates(h: seq<Event>, v: View, hash: Hasher) returns (t: Transaction)
    requires Seen(h, v, hash) && |h| >= 2 && v.state == Owned()
    requires v.journal != [] && NoActions(v.journal)
    ensures Seen(h + [Entered(h, t)], v.(journal := v.journal + [t], state := Emptied()), hash)
    ensures t.effect == SplitEffect && !Flat(Emptied())
  {
    hide Acts, Registry, Seen, Settings, Name, PostEntries, Fixed, CheckEffect, CheckSplit, InUniverse, Flat, Owned, NonNegative;
    t := Transfer(h, v, SplitEffect, LATER, [SHARES_LOST], None, Some(REVERSE_SPLIT), None, hash);
    OwnedLooks();
    SplitMayStrandCost(t, Owned());
    SplitPasses(t, v.journal);
    ShareIsListed();
    SeenLinks(h, v, hash);
    forall records | Registry(h, records) ensures Effects(t, h, records, v.state) {
      ActionIsEffect(t, h, records, v.state);
    }
    EffectsPass(t, h, v);
    Posts(h, v, t, Emptied(), hash);
  }

  lemma OwnedLooks()
    ensures NonNegative(Owned()) && Get(Owned().quantity, "x") == 1_000_000 && Get(Owned().basis, "x") == 1_000_000
    ensures Owned().(quantity := Owned().quantity["x" := 0]) == Emptied() && NonNegative(Emptied()) && Flat(Owned())
  {
    assert Owned().quantity["x" := 0] == map["x" := 0];
    assert forall id :: FlatAt(Owned(), id);
  }

  ghost predicate Acts(t: Transaction, journal: seq<Transaction>, before: LedgerState) {
    NonNegative(before) && CheckAction(t, journal, Settings(), before).Ok?
  }

  lemma SplitPasses(t: Transaction, journal: seq<Transaction>)
    requires t.effect == SplitEffect && t.corporateAction == Some(REVERSE_SPLIT) && t.correctionOf.None? && t.entries == [SHARES_LOST]
    requires NonNegative(Owned()) && CheckSplit(t, REVERSE_SPLIT, Owned()).Ok? && NoActions(journal)
    ensures Acts(t, journal, Owned()) && AmountOf(t.entries, Capital) == 0
  {
    ShareIsListed();
    hide CheckSplit, Owned, NonNegative, Settings, Name, Fixed, InUniverse;
    assert [SHARES_LOST][1..] == [];
  }

  lemma ActionIsEffect(t: Transaction, h: seq<Event>, records: Records, before: LedgerState)
    requires t.effect == SplitEffect && t.fill.None? && t.journalSequence > 1
    requires Acts(t, Journal(h), before) && AmountOf(t.entries, Capital) == 0
    ensures Effects(t, h, records, before)
  {
    hide CheckAction, Journal, NonNegative, AmountOf, Settings, CheckFill;
  }

  // ----- the snapshot -----

  const LEFT := Parts(false, 99_999, 0, 0)
  const LOSS := Parts(true, 0, 1, 5)

  function IndexClose(): Observation {
    Observation("index", "venue", "provider", "feed", RegularClose, UNIT, 0, LATER, None, LATER, "calendar", "")
  }

  function Index(): Benchmark {
    Benchmark("index", Settings().benchmarkConvention, 0, NOTHING, CAPITAL, NOTHING, Some(IndexClose()), Some(CAPITAL), Some(NOTHING),
              None, None)
  }

  /** The snapshot of a ledger that holds cash and nothing else. */
  function Valued(journalHash: string, hash: Hasher): Snapshot {
    Snapshot(Name(11), 1, 1, None, 3, journalHash, hash(OfConfiguration(Settings())), LATER, 0, LEFT, NOTHING, NOTHING,
             [], Some(LEFT), NOTHING, Some(NOTHING), Some(LOSS), None, None, Some(LEFT), Some(NOTHING), Some(NOTHING), Index(),
             Some(LOSS), Complete, [], "")
  }

  lemma SnapshotAmounts()
    ensures Fixed(LEFT) == 99_999_000_000 && Fixed(LOSS) == -10
    ensures Return(100_000_000_000, 100_000_000_000) == Ok(0) && Return(99_999_000_000, 100_000_000_000) == Ok(-10)
    ensures HalfEven(99_999_000_000 * MICRO, 99_999_000_000) == MICRO && Product(0, 1_000_000) == 0
  {
  }

  lemma BenchmarkPasses(s: Snapshot, h: seq<Event>, hash: Hasher)
    requires s.benchmark == Index() && s.session == 0 && s.valuationAsOf == LATER && AllTagged(h)
    ensures CheckBenchmark(s, h, Settings(), LATER, hash).Ok?
  {
    hide Fixed, Return, Product, Name;
    Amounts();
    SnapshotAmounts();
    assert forall i | 0 <= i < |h| :: Tagged(h[i], i + 1) ==> !IsAmendment(h[i]);
    assert Settings().universe + [Listed("index", "INDEX")] == [Listed("x", "X"), Listed("index", "INDEX")];
    assert [Listed("x", "X"), Listed("index", "INDEX")][1..] == [Listed("index", "INDEX")];
    assert |"x"| != |"index"| && FindInstrument([Listed("index", "INDEX")], "index").Some?;
  }

  lemma CompletePasses(journalHash: string, hash: Hasher)
    ensures CheckBalances(Valued(journalHash, hash), Emptied()).Ok?
    ensures CheckComplete(Valued(journalHash, hash), Settings(), Emptied(), Valuation(0, 0)).Ok?
  {
    hide Fixed, Return, HalfEven, Product, Name;
    Amounts();
    SnapshotAmounts();
    assert Held(Emptied()) == {};
    assert HoldingIds([]) == [] && multiset(HoldingIds([])) == multiset{} == multiset({});
  }

  lemma ThirdIs(journal: seq<Transaction>)
    requires |journal| == 3 && Linked(journal, 10)
    ensures FindJournal(journal, 3) == Some(journal[2]) && UpTo(journal, Some(3)) == journal == UpTo(journal, None)
    ensures journal[..3] == journal
  {
    FindJournalAt(journal, 0, 3);
    assert journal[0..] == journal;
    UpToIsPrefix(journal, 3);
    UpToAll(journal);
  }

  lemma SnapshotPasses(h: seq<Event>, v: View, hash: Hasher)
    requires Views(h, v, hash) && AllTagged(h) && |h| == 10 && |v.journal| == 3 && v.state == Emptied() && v.valued == []
    ensures CheckSnapshot(Valued(LastHash(v), hash), h, Settings(), LATER, hash).Ok?
  {
    var s := Valued(LastHash(v), hash);
    ValuedLooks(LastHash(v), hash);
    WholeLedger(h, v, hash);
    assert LastHash(v) == v.journal[2].journalHash;
    hide *;
    CompletePasses(LastHash(v), hash);
    BenchmarkPasses(s, h, hash);
    SnapshotFrom(s, h, Settings(), v.journal[2], Emptied(), hash);
  }

  /** The whole journal is the prefix the snapshot names. */
  lemma WholeLedger(h: seq<Event>, v: View, hash: Hasher)
    requires Views(h, v, hash) && |h| == 10 && |v.journal| == 3
    ensures FindJournal(Journal(h), 3) == Some(v.journal[2]) && StateOf(h, Some(3)) == Ok(v.state) && Events.Snapshots(h) == v.valued
    ensures PostJournal(Journal(h)) == Ok(v.state) && Journal(h)[..3] == Journal(h) == v.journal
  {
    hide Linked, RunOf, FirstRun, Roster, LatestOrder, FindJournal, UpTo, PostJournal, NonNegative, Journal;
    ThirdIs(v.journal);
  }

  lemma ValuedLooks(journalHash: string, hash: Hasher)
    ensures var s := Valued(journalHash, hash);
            && s.journalSequence == 3 && s.journalHash == journalHash && s.configurationHash == hash(OfConfiguration(Settings()))
            && s.benchmark == Index() && s.session == 0 && s.valuationAsOf == LATER && s.holdings == [] && s.quality == Complete
            && s.supersedes.None? && s.revision == 1 && s.benchmark.recovery.None? && s.valuationId == Closing(s).eventId
            && s.equity == Some(LEFT) && s.unrealizedPnl == Some(NOTHING) && s.realizedPnl == NOTHING
            && CheckValuationRevision(s, []).Ok?
  {
    hide Settings, Name;
  }

  /** A complete snapshot without holdings passes when each of its parts does. */
  lemma SnapshotFrom(s: Snapshot, h: seq<Event>, c: Configuration, t: Transaction, ledger: LedgerState, hash: Hasher)
    requires FindJournal(Journal(h), s.journalSequence) == Some(t) && s.journalHash == t.journalHash
    requires s.configurationHash == hash(OfConfiguration(c)) && StateOf(h, Some(s.journalSequence)) == Ok(ledger)
    requires CheckBalances(s, ledger).Ok? && s.holdings == [] && CheckBenchmark(s, h, c, LATER, hash).Ok?
    requires s.quality == Complete && CheckComplete(s, c, ledger, Valuation(0, 0)).Ok?
    requires CheckValuationRevision(s, Events.Snapshots(h)).Ok?
    ensures CheckSnapshot(s, h, c, LATER, hash).Ok?
  {
    hide CheckBalances, CheckHolding, CheckBenchmark, CheckComplete, CheckValuationRevision, FindJournal, StateOf, Journal;
  }

  function LastHash(v: View): string {
    if v.journal == [] then "" else v.journal[|v.journal| - 1].journalHash
  }

  function Closing(s: Snapshot): Event {
    At(11, System, LATER, SnapshotPublished(s))
  }

  /** The ledger is valued after the split. */
  lemma Values(h: seq<Event>, v: View, hash: Hasher) returns (e: Event, s: Snapshot)
    requires Seen(h, v, hash) && |h| == 10 && |v.journal| == 3 && v.state == Emptied() && v.valued == []
    ensures Seen(h + [e], v.(valued := [s]), hash)
    ensures e.payload == SnapshotPublished(s) && s == Valued(LastHash(v), hash)
  {
    hide *;
    ValueIsGuarded(h, v, hash);
    s := Valued(LastHash(v), hash);
    e := Closing(s);
    ValuedLooks(LastHash(v), hash);
    ValueIsDue(h, v, s);
    Step(h, v, e, hash);
  }

  lemma ValueIsGuarded(h: seq<Event>, v: View, hash: Hasher)
    requires Seen(h, v, hash) && |h| == 10 && |v.journal| == 3 && v.state == Emptied() && v.valued == []
    ensures var s := Valued(LastHash(v), hash);
            Passing(Closing(s), h, v, hash) && After(v, Closing(s)) == v.(valued := [s]) && Closing(s).payload == SnapshotPublished(s)
  {
    hide PublicRecords, CheckValuationRevision, PostEntries, Seen, Name, CheckOrder, CheckLink, CheckEffect, CheckSnapshot,
      CheckDecision, Settings, Views, Linked, AllTagged, Index, Emptied, StateOf, Due, Valued, Recorded, Arrives;
    SeenParts(h, v, hash);
    SnapshotPasses(h, v, hash);
    ValuedLooks(LastHash(v), hash);
    assert [] + [Valued(LastHash(v), hash)] == [Valued(LastHash(v), hash)];
  }

  lemma ValueIsDue(h: seq<Event>, v: View, s: Snapshot)
    requires |h| == 10 && s.valuationId == Closing(s).eventId
    ensures Due(Closing(s), h, v)
  {
    hide Name;
  }

  // ----- the histories -----

  /** The batch that delivers a history. */
  function Whole(h: seq<Event>): Batch {
    Batch("batch", "experiment", "run", h, "digest")
  }

  lemma {:induction false} ArrivesInOrder(h: seq<Event>, hash: Hasher)
    requires Arrives(h, hash) && AllTagged(h)
    ensures DeliverAll(Progress([], [], []), h, Receiver(), hash) == Ok(Progress(h, EventIds(h), []))
  {
    hide CheckEvent, AllTagged, Arrives, Receiver, FindEvent, PublicRecords, EventIds;
    if h != [] {
      var before, e := h[..|h| - 1], h[|h| - 1];
      assert h == before + [e];
      ArrivedFits(h, before, e, hash);
      NextIsNew(before, e);
      ArrivesInOrder(before, hash);
      IdsExtend(before, e);
    } else {
      NoIds();
    }
  }

  lemma IdsExtend(h: seq<Event>, e: Event)
    ensures EventIds(h) + [e.eventId] == EventIds(h + [e])
  {
  }

  lemma NoIds()
    ensures EventIds([]) == []
  {
  }

  lemma ArrivedFits(h: seq<Event>, before: seq<Event>, e: Event, hash: Hasher)
    requires Arrives(h, hash) && h == before + [e]
    ensures CheckEvent(e, before, PublicRecords(before), Receiver(), hash).Ok? && Arrives(before, hash)
  {
    hide CheckEvent, PublicRecords, Fits;
    assert before + [e] <= h && Fits(before, e, hash);
    forall early, d | early + [d] <= before ensures Fits(early, d, hash) {
      assert early + [d] <= h;
    }
    FitsMeans(before, e, hash);
  }

  lemma FitsMeans(before: seq<Event>, e: Event, hash: Hasher)
    requires Fits(before, e, hash)
    ensures CheckEvent(e, before, PublicRecords(before), Receiver(), hash).Ok?
  {
    hide CheckEvent, PublicRecords, Receiver;
  }

  lemma NextIsNew(before: seq<Event>, e: Event)
    requires AllTagged(before + [e])
    ensures FindEvent(before, e.eventId).None? && AllTagged(before)
  {
    hide Name, FindEvent, Tagged;
    var h := before + [e];
    forall j | 0 <= j < |before| ensures Tagged(before[j], j + 1) && before[j].eventId != e.eventId {
      assert Tagged(h[j], j + 1) && Tagged(h[|before|], |before| + 1);
      TaggedApart(before[j], j + 1, e, |before| + 1);
    }
  }

  lemma TaggedApart(d: Event, i: nat, e: Event, n: nat)
    requires Tagged(d, i) && Tagged(e, n) && i < n
    ensures d.eventId != e.eventId
  {
    hide Name;
  }

  /** Whatever is seen is a batch the receiver accepts as a whole. */
  lemma SeenIsJudged(h: seq<Event>, v: View, hash: Hasher)
    requires Seen(h, v, hash)
    ensures Judge(Whole(h), "batch", Receiver(), hash) == Ok(Outcome(h, EventIds(h), [], false)) && Accepted(h, hash)
  {
    hide *;
    SeenParts(h, v, hash);
    ArrivesInOrder(h, hash);
    EnvelopePasses(h);
    WholeIsJudged(h, hash);
    NothingIsAccepted(hash);
    JudgementKeepsAccepted(Whole(h), "batch", Receiver(), hash, Outcome(h, EventIds(h), [], false));
  }

  lemma WholeIsJudged(h: seq<Event>, hash: Hasher)
    requires CheckEnvelope(Whole(h), "batch", Receiver()).Ok? && Receiver().history == [] && Receiver().receipts == map[]
    requires DeliverAll(Progress([], [], []), h, Receiver(), hash) == Ok(Progress(h, EventIds(h), []))
    ensures Judge(Whole(h), "batch", Receiver(), hash) == Ok(Outcome(h, EventIds(h), [], false))
  {
    hide CheckEvent, CheckEnvelope, DeliverAll, EventIds, Receiver;
  }

  lemma NothingIsAccepted(hash: Hasher)
    ensures Accepted([], hash)
  {
    hide Admissible;
  }

  lemma EnvelopePasses(h: seq<Event>)
    requires AllTagged(h)
    ensures CheckEnvelope(Whole(h), "batch", Receiver()).Ok? && Receiver().history == [] && Receiver().receipts == map[]
  {
    hide Name;
    forall i | 0 <= i < |h| ensures Tagged(h[i], i + 1) {
    }
  }

  /** The batch is accepted as a whole, and leaves this accepted history. */
  ghost predicate Judged(h: seq<Event>, hash: Hasher) {
    Judge(Whole(h), "batch", Receiver(), hash) == Ok(Outcome(h, EventIds(h), [], false)) && Accepted(h, hash)
  }

  /** Publishing a run and paying its capital in is accepted, whatever the hash. */
  lemma OpeningIsAccepted(hash: Hasher) returns (h: seq<Event>)
    ensures Judged(h, hash) && exists t :: Journal(h) == [t] && t.effect == Initialization
  {
    hide Seen, Journal, Accepted, Judge, Views;
    var v, t;
    h, v, t := Opens(hash);
    SeenIsJudged(h, v, hash);
    SeenLedger(h, v, hash);
    assert [] + [t] == [t];
  }

  lemma SeenLedger(h: seq<Event>, v: View, hash: Hasher)
    requires Seen(h, v, hash)
    ensures Journal(h) == v.journal && StateOf(h) == Ok(v.state) && RunOf(h) == Some(FirstRun(hash)) && LatestOrder(h, Ordered()) == v.order
  {
    hide Arrives, AllTagged, Recorded, PublicRecords, RunOf, Roster, Journal, StateOf, LatestOrder, Events.Snapshots,
      FirstRun, Linked;
  }

  /** An accepted history whose one correction puts the ledger out of balance by a unit. */
  lemma UnbalancedCorrectionIsAccepted(hash: Hasher) returns (h: seq<Event>)
    ensures Judged(h, hash) && CorrectionImbalance(Journal(h)) == 1_000_000
  {
    hide Seen, Journal, Accepted, Judge, Views, Net, Entered, Funds;
    var v, t;
    h, v, t := Opens(hash);
    FundsAreFine();
    var w := Corrects(h, v, hash);
    h := h + [Entered(h, w)];
    v := v.(journal := v.journal + [w], state := v.state.(cash := v.state.cash + 1_000_000));
    SeenIsJudged(h, v, hash);
    SeenLedger(h, v, hash);
    ImbalanceOf(t, w);
    assert [] + [t] + [w] == [t, w];
  }

  lemma ImbalanceOf(t: Transaction, w: Transaction)
    ensures CorrectionImbalance([t, w])
         == (if t.effect == Correction then Net(t.entries) else 0) + if w.effect == Correction then Net(w.entries) else 0
  {
    hide Net;
    assert [t][..0] == [] && [t, w][..1] == [t];
    assert CorrectionImbalance([t]) == if t.effect == Correction then Net(t.entries) else 0;
  }

  lemma FundsAreFine()
    ensures NonNegative(Funds())
  {
  }

  /** A funded ledger, an agreement and its pending order. */
  predicate Waiting(v: View, hash: Hasher) {
    && v.state == Funds() && v.decision == Some(Agreement(hash)) && v.valued == [] && Stands(v, 3, Pending, hash)
    && |v.journal| == 1 && v.journal[0].effect == Initialization && v.journal[0].fill.None? && NoActions(v.journal)
  }

  /** From the opening to the pending order. */
  lemma Waits(hash: Hasher) returns (h: seq<Event>, v: View)
    ensures Seen(h, v, hash) && |h| == 7 && Waiting(v, hash)
  {
    hide Seen, Agreement, Deal, Funds, Settings, Name;
    var t, e;
    h, v, t := Opens(hash);
    e := Hires(h, v, hash);
    h, v := h + [e], v.(roster := TEAM);
    e := Decides(h, v, hash);
    h, v := h + [e], v.(decision := Some(Agreement(hash)));
    e := Revises(h, v, START, Proposed, hash);
    h, v := h + [e], v.(order := Some(e));
    e := Revises(h, v, START, Validated, hash);
    h, v := h + [e], v.(order := Some(e));
    e := Revises(h, v, START, Pending, hash);
    h, v := h + [e], v.(order := Some(e));
  }

  /** The share is owned and its order has expired. */
  predicate Lapsed(v: View, hash: Hasher) {
    && v.state == Owned() && v.valued == [] && Stands(v, 4, Expired, hash)
    && |v.journal| == 2 && v.journal[1].fill == Some(Bought()) && NoActions(v.journal) && CorrectionFree(v.journal)
  }

  /** On to the fill of the order, and to its expiry after that. */
  lemma Lapses(hash: Hasher) returns (h: seq<Event>, v: View)
    ensures Seen(h, v, hash) && |h| == 9 && Lapsed(v, hash)
  {
    hide Seen, Agreement, Deal, Funds, Owned, Settings, Name, Bought, Entered;
    h, v := Waits(hash);
    var t := Buys(h, v, hash);
    h, v := h + [Entered(h, t)], v.(journal := v.journal + [t], state := Owned());
    var e := Revises(h, v, LATER, Expired, hash);
    h, v := h + [e], v.(order := Some(e));
  }

  predicate IsExpired(e: Event) {
    e.payload.PaperOrder? && e.payload.order.status == Expired
  }

  /** An accepted history in which an order is filled and then published as expired. */
  lemma FilledOrderMayExpire(hash: Hasher) returns (h: seq<Event>, e: Event)
    ensures Judged(h, hash) && HasFill(Journal(h), Ordered())
    ensures LatestOrder(h, Ordered()) == Some(e) && IsExpired(e)
  {
    hide Seen, Journal, Accepted, Judge, Views, Owned, Name, LatestOrder;
    var v;
    h, v := Lapses(hash);
    SeenIsJudged(h, v, hash);
    SeenLedger(h, v, hash);
    e := v.order.value;
    assert v.journal[1].fill.value.orderId == Ordered();
  }

  /** On to the split that leaves cost on nothing. */
  lemma Strands(hash: Hasher) returns (before: seq<Event>, h: seq<Event>, e: Event, v: View)
    ensures h == before + [e] && |before| == 9 && StateOf(before) == Ok(Owned()) && Flat(Owned()) && !Flat(Emptied())
    ensures Seen(h, v, hash) && v.state == Emptied() && v.valued == [] && |v.journal| == 3 && CorrectionFree(v.journal)
  {
    hide Seen, Owned, Emptied, Name, Bought, Entered, Flat, StateOf;
    before, v := Lapses(hash);
    SeenLedger(before, v, hash);
    OwnedLooks();
    var t := Consolidates(before, v, hash);
    e := Entered(before, t);
    h, v := before + [e], v.(journal := v.journal + [t], state := Emptied());
  }

  /** An accepted, correction-free history whose last event, a split, leaves a closed position with its cost. */
  lemma StrandingSplitIsAccepted(hash: Hasher) returns (before: seq<Event>, h: seq<Event>, e: Event, s: LedgerState, u: LedgerState)
    ensures Judged(h, hash) && CorrectionFree(Journal(h)) && h == before + [e]
    ensures StateOf(before) == Ok(s) && Flat(s) && StateOf(h) == Ok(u) && !Flat(u)
  {
    hide Seen, Journal, Accepted, Judge, Views, Owned, Emptied, Flat, StateOf, CorrectionFree;
    var v;
    before, h, e, v := Strands(hash);
    SeenIsJudged(h, v, hash);
    SeenLedger(h, v, hash);
    s, u := Owned(), Emptied();
  }

  lemma UnitIsStranded()
    ensures StrandedCost(Emptied()) == 1_000_000
  {
    hide Funds, FlatAt;
    var m := Emptied().basis;
    assert Held(Emptied()) == {} && m == map["x" := 1_000_000] && m - {} == m;
    assert forall k | k in m :: k == "x";
    assert m - {"x"} == map[];
  }

  /** An accepted, correction-free history whose complete snapshot is a whole unit short of the textbook identity. */
  lemma EquityMayFallShort(hash: Hasher) returns (before: seq<Event>, e: Event, s: Snapshot)
    ensures Judged(before + [e], hash) && CorrectionFree(Journal(before)) && e.payload == SnapshotPublished(s) && s.quality == Complete
    ensures EquityOff(s, before, -1_000_000)
  {
    hide *;
    var early, split, v;
    early, before, split, v := Strands(hash);
    e, s := Values(before, v, hash);
    SeenLedger(before, v, hash);
    NamedIsWhole(before, v, hash, s);
    ValuedLooks(LastHash(v), hash);
    SeenIsJudged(before + [e], v.(valued := [s]), hash);
    JudgedIsAccepted(before + [e], hash);
    ItIsReported(before, e, s, hash);
    SnapshotEquity(before, s, hash);
    UnitIsStranded();
    NoCorrectionsNoImbalance(v.journal);
    EquityIsShort(before, v, s);
  }

  lemma ItIsReported(before: seq<Event>, e: Event, s: Snapshot, hash: Hasher)
    requires Accepted(before + [e], hash) && e.payload == SnapshotPublished(s)
    ensures Reported(before, s, hash)
  {
    hide Accepted;
    assert before + [e] + [] == before + [e];
  }

  lemma EquityIsShort(before: seq<Event>, v: View, s: Snapshot)
    requires Explained(s, before) && NamedJournal(s, before) == v.journal && PostJournal(v.journal) == Ok(Emptied())
    requires CorrectionImbalance(v.journal) == 0 && StrandedCost(Emptied()) == 1_000_000
    ensures EquityOff(s, before, -1_000_000)
  {
    hide NamedJournal, PostJournal, CorrectionImbalance, StrandedCost, Emptied, RunOf, Fixed, SoundJournal, Posted, TotalIncome;
  }

  lemma JudgedIsAccepted(h: seq<Event>, hash: Hasher)
    requires Judge(Whole(h), "batch", Receiver(), hash) == Ok(Outcome(h, EventIds(h), [], false)) && Accepted(h, hash)
    ensures Judged(h, hash)
  {
    hide Judge, Accepted, EventIds;
  }

  lemma NamedIsWhole(h: seq<Event>, v: View, hash: Hasher, s: Snapshot)
    requires Seen(h, v, hash) && |h| == 10 && |v.journal| == 3 && s == Valued(LastHash(v), hash)
    ensures NamedJournal(s, h) == v.journal && PostJournal(v.journal) == Ok(v.state)
  {
    hide Seen, Valued, PostJournal, Journal, Views, StateOf;
    ValuedLooks(LastHash(v), hash);
    SeenLinks(h, v, hash);
    WholeLedger(h, v, hash);
  }
}
