/**
 What the invariant of the database means to a reader: the ledger is a chain from 0
 to the stored balance, the balance events rebuild it, references are well founded,
 and a transaction moves money exactly once.
 */
module Consequences {
  import opened Base
  import opened MoneyValue
  import opened Domain
  import opened Contracts
  import opened Database
  import opened Decisions
  import opened Contents
  import opened Invariants
  import opened Preservation

  // --- the ledger as a chain ----------------------------------------------

  /** The balance after the last entry of a wallet, 0 before the first. */
  ghost function LastAfter(ledger: seq<LedgerEntry>, wallet: Uuid): int {
    if ledger == [] then 0
    else if ledger[|ledger| - 1].walletId == wallet then ledger[|ledger| - 1].after.minor
    else LastAfter(ledger[..|ledger| - 1], wallet)
  }

  lemma {:induction false} SumIsLastAfter(openings: set<Uuid>, ledger: seq<LedgerEntry>, wallet: Uuid)
    requires ChainOk(openings, ledger)
    ensures Sum(ledger, wallet) == LastAfter(ledger, wallet)
  {
    if ledger != [] { SumIsLastAfter(openings, ledger[..|ledger| - 1], wallet); }
  }

  lemma {:induction false} ChainPrefix(openings: set<Uuid>, ledger: seq<LedgerEntry>, n: nat)
    requires ChainOk(openings, ledger) && n <= |ledger|
    ensures ChainOk(openings, ledger[..n])
    decreases |ledger|
  {
    if n < |ledger| {
      ChainPrefix(openings, ledger[..|ledger| - 1], n);
      assert ledger[..|ledger| - 1][..n] == ledger[..n];
    } else {
      assert ledger[..n] == ledger;
    }
  }

  /** Every entry starts where the previous one of its wallet ended, 0 for the first, and stays within 0..MaxInt64. */
  lemma LedgerIsChain(db: Db, j: nat)
    requires BalancesOk(db) && j < |db.ledger|
    ensures var e := db.ledger[j];
            && e.before.minor == LastAfter(db.ledger[..j], e.walletId)
            && e.after.minor == e.before.minor + e.Delta() && e.money.minor > 0
            && 0 <= e.before.minor <= MAX_INT64 && 0 <= e.after.minor <= MAX_INT64
  {
    var openings := Openings(db.wagers);
    ChainPrefix(openings, db.ledger, j + 1);
    assert db.ledger[..j + 1][..j] == db.ledger[..j];
    SumIsLastAfter(openings, db.ledger[..j], db.ledger[j].walletId);
  }

  /** The chain ends at the stored balance, and the version counts its entries that are not openings. */
  lemma ChainEndsAtBalance(db: Db, wallet: Uuid)
    requires BalancesOk(db) && wallet in db.wallets
    ensures db.wallets[wallet].balance.minor == LastAfter(db.ledger, wallet)
    ensures db.wallets[wallet].version ==
            1 + |set i | 0 <= i < |db.ledger| && db.ledger[i].walletId == wallet
                         && db.ledger[i].transactionId !in Openings(db.wagers)|
  {
    SumIsLastAfter(Openings(db.wagers), db.ledger, wallet);
    MovesCount(Openings(db.wagers), db.ledger, wallet);
  }

  lemma {:induction false} MovesCount(openings: set<Uuid>, ledger: seq<LedgerEntry>, wallet: Uuid)
    ensures Moves(openings, ledger, wallet) ==
            |set i | 0 <= i < |ledger| && ledger[i].walletId == wallet && ledger[i].transactionId !in openings|
  {
    if ledger != [] {
      MovesCount(openings, ledger[..|ledger| - 1], wallet);
      MovesGrow(openings, ledger, wallet);
    }
  }

  lemma MovesGrow(openings: set<Uuid>, ledger: seq<LedgerEntry>, wallet: Uuid)
    requires ledger != []
    ensures var init, n := ledger[..|ledger| - 1], |ledger| - 1;
            (set i | 0 <= i < |ledger| && ledger[i].walletId == wallet && ledger[i].transactionId !in openings) ==
            (set i | 0 <= i < |init| && init[i].walletId == wallet && init[i].transactionId !in openings) +
            (if ledger[n].walletId == wallet && ledger[n].transactionId !in openings then {n} else {})
  {
  }

  // --- the balance events -------------------------------------------------

  /** The balance events of one wallet. */
  ghost function WalletFeed(feed: seq<EventData>, wallet: Uuid): seq<EventData> {
    if feed == [] then []
    else
      var d := feed[|feed| - 1];
      WalletFeed(feed[..|feed| - 1], wallet) +
      (if d.WalletBalanceChanged? && d.walletId == wallet then [d] else [])
  }

  /** What a consumer rebuilds from the events in order: None when one does not continue the previous. */
  ghost function Rebuilt(feed: seq<EventData>): Option<int> {
    if feed == [] then Some(0)
    else
      var d, prior := feed[|feed| - 1], Rebuilt(feed[..|feed| - 1]);
      if prior.None? || !d.WalletBalanceChanged? || d.before.minor != prior.value ||
         d.after.minor != d.before.minor + d.direction.Signed(d.money.minor) then None
      else Some(d.after.minor)
  }

  /** Versions rise by one from event to event. */
  ghost predicate Contiguous(feed: seq<EventData>) {
    && (forall i :: 0 <= i < |feed| ==> feed[i].WalletBalanceChanged?)
    && (forall i :: 0 < i < |feed| ==> feed[i].walletVersion == feed[i - 1].walletVersion + 1)
  }

  lemma WalletFeedAppend(feed: seq<EventData>, d: EventData, wallet: Uuid)
    ensures WalletFeed(feed + [d], wallet) ==
            WalletFeed(feed, wallet) + (if d.WalletBalanceChanged? && d.walletId == wallet then [d] else [])
  {
    assert (feed + [d])[..|feed|] == feed;
  }

  /** A wallet's events, up to some entry: what they rebuild and which version they reach. */
  ghost predicate FeedTells(feed: seq<EventData>, balance: int, version: int) {
    && Rebuilt(feed) == Some(balance) && Contiguous(feed)
    && (feed != [] ==> feed[|feed| - 1].walletVersion == version)
  }

  lemma FeedGoesOn(feed: seq<EventData>, balance: int, version: int, d: EventData)
    requires FeedTells(feed, balance, version) && d.WalletBalanceChanged?
    requires d.before.minor == balance && d.after.minor == balance + d.direction.Signed(d.money.minor)
    requires feed != [] ==> d.walletVersion == version + 1
    ensures FeedTells(feed + [d], d.after.minor, d.walletVersion)
  {
    assert (feed + [d])[..|feed|] == feed;
  }

  lemma TouchesAppend(ledger: seq<LedgerEntry>, e: LedgerEntry, wallet: Uuid)
    ensures Touches(ledger + [e], wallet) <==> Touches(ledger, wallet) || e.walletId == wallet
  {
    assert (ledger + [e])[|ledger|] == e;
    if Touches(ledger, wallet) {
      var i :| 0 <= i < |ledger| && ledger[i].walletId == wallet;
      assert (ledger + [e])[i].walletId == wallet;
    }
  }

  /** A wallet has events exactly when it has entries. */
  lemma {:induction false} FeedWhenTouched(openings: set<Uuid>, ledger: seq<LedgerEntry>, wallet: Uuid)
    ensures WalletFeed(Announced(openings, ledger), wallet) == [] <==> !Touches(ledger, wallet)
    ensures !Touches(ledger, wallet) ==> Moves(openings, ledger, wallet) == 0
  {
    if ledger != [] {
      var init, last := ledger[..|ledger| - 1], ledger[|ledger| - 1];
      assert ledger == init + [last];
      FeedWhenTouched(openings, init, wallet);
      TouchesAppend(init, last, wallet);
      MovesAppend(openings, init, last, wallet);
      AnnouncedAppend(openings, init, last);
      WalletFeedAppend(Announced(openings, init), ChangedData(last, 1 + Moves(openings, ledger, last.walletId)), wallet);
    }
  }

  lemma AnnouncementStep(openings: set<Uuid>, ledger: seq<LedgerEntry>, e: LedgerEntry, wallet: Uuid)
    requires ChainOk(openings, ledger + [e])
    requires FeedTells(WalletFeed(Announced(openings, ledger), wallet), Sum(ledger, wallet), 1 + Moves(openings,
             ledger, wallet))
    ensures FeedTells(WalletFeed(Announced(openings, ledger + [e]), wallet), Sum(ledger + [e], wallet),
                      1 + Moves(openings, ledger + [e], wallet))
  {
    NextAnnouncement(openings, ledger, e, wallet);
    if e.walletId == wallet {
      OwnEntryFollows(openings, ledger, e);
      FeedGoesOn(WalletFeed(Announced(openings, ledger), wallet), Sum(ledger, wallet), 1 + Moves(openings, ledger, wallet),
                 ChangedData(e, 1 + Moves(openings, ledger + [e], wallet)));
    } else {
      SumAppend(ledger, e, wallet);
      MovesAppend(openings, ledger, e, wallet);
    }
  }

  /** An entry is announced to its own wallet and to no other. */
  lemma NextAnnouncement(openings: set<Uuid>, ledger: seq<LedgerEntry>, e: LedgerEntry, wallet: Uuid)
    ensures WalletFeed(Announced(openings, ledger + [e]), wallet) ==
            if e.walletId == wallet
            then WalletFeed(Announced(openings, ledger), wallet) + [ChangedData(e, 1 + Moves(openings, ledger + [e], wallet))]
            else WalletFeed(Announced(openings, ledger), wallet)
  {
    AnnouncedAppend(openings, ledger, e);
    WalletFeedAppend(Announced(openings, ledger), ChangedData(e, 1 + Moves(openings, ledger + [e], e.walletId)), wallet);
  }

  /** An entry of a wallet goes on where its announcements ended; openings come first. */
  lemma OwnEntryFollows(openings: set<Uuid>, ledger: seq<LedgerEntry>, e: LedgerEntry)
    requires ChainOk(openings, ledger + [e])
    ensures e.before.minor == Sum(ledger, e.walletId) && e.after.minor == e.before.minor + e.Delta()
    ensures e.after.minor == Sum(ledger + [e], e.walletId)
    ensures WalletFeed(Announced(openings, ledger), e.walletId) != [] ==>
              Moves(openings, ledger + [e], e.walletId) == Moves(openings, ledger, e.walletId) + 1
  {
    ChainAppend(openings, ledger, e);
    SumAppend(ledger, e, e.walletId);
    MovesAppend(openings, ledger, e, e.walletId);
    FeedWhenTouched(openings, ledger, e.walletId);
  }

  lemma {:induction false} AnnouncementsRebuild(openings: set<Uuid>, ledger: seq<LedgerEntry>, wallet: Uuid)
    requires ChainOk(openings, ledger)
    ensures FeedTells(WalletFeed(Announced(openings, ledger), wallet), Sum(ledger, wallet), 1 + Moves(openings, ledger, wallet))
  {
    if ledger != [] {
      AnnouncementsRebuild(openings, ledger[..|ledger| - 1], wallet);
      assert ledger == ledger[..|ledger| - 1] + [ledger[|ledger| - 1]];
      AnnouncementStep(openings, ledger[..|ledger| - 1], ledger[|ledger| - 1], wallet);
    }
  }

  /** The balance events of a wallet carry contiguous versions that end at the current one, and fold to its balance. */
  lemma FeedRebuildsBalance(db: Db, wallet: Uuid)
    requires BalancesOk(db) && OutboxOk(db) && wallet in db.wallets
    ensures var feed := WalletFeed(Feed(db.outbox), wallet);
            && Rebuilt(feed) == Some(db.wallets[wallet].balance.minor)
            && Contiguous(feed)
            && (feed != [] ==> feed[|feed| - 1].walletVersion == db.wallets[wallet].version)
            && (feed == [] ==> db.wallets[wallet].version == 1 && db.wallets[wallet].balance.minor == 0)
  {
    AnnouncementsRebuild(Openings(db.wagers), db.ledger, wallet);
    FeedWhenTouched(Openings(db.wagers), db.ledger, wallet);
  }

  // --- the events of a transaction ----------------------------------------

  /** The positions of the terminal (or pending) events about a transaction. */
  ghost function Positions(outbox: seq<Event>, id: Uuid, terminal: bool): set<int> {
    set i | 0 <= i < |outbox| && Counts(outbox[i].data, id, terminal)
  }

  lemma PositionsAppend(outbox: seq<Event>, e: Event, id: Uuid, terminal: bool)
    ensures Positions(outbox + [e], id, terminal) ==
            Positions(outbox, id, terminal) + (if Counts(e.data, id, terminal) then {|outbox|} else {})
  {
  }

  lemma {:induction false} EventsCount(outbox: seq<Event>, id: Uuid, terminal: bool)
    ensures CountEvents(outbox, id, terminal) == |Positions(outbox, id, terminal)|
  {
    if outbox == [] {
      assert Positions(outbox, id, terminal) == {};
    } else {
      var init, e := outbox[..|outbox| - 1], outbox[|outbox| - 1];
      assert outbox == init + [e];
      EventsCount(init, id, terminal);
      EventAppend(init, e, id, terminal);
      PositionsAppend(init, e, id, terminal);
    }
  }

  /**
   A terminal transaction has exactly one terminal event and any other none; a transaction that
   ever waited has exactly one pending event; and these events repeat the columns of the row.
   */
  lemma EventsAreComplete(db: Db, id: Uuid)
    requires OutboxOk(db) && id in db.wagers && db.wagers[id].id == id
    ensures |Positions(db.outbox, id, true)| == if db.wagers[id].status.Terminal() then 1 else 0
    ensures |Positions(db.outbox, id, false)| == if db.wagers[id].attempts >= 1 then 1 else 0
    ensures forall i :: 0 <= i < |db.outbox| && Counts(db.outbox[i].data, id, true) ==>
              db.outbox[i].aggregateId == id && TellsTerminal(db.outbox[i].data, db.wagers[id])
    ensures forall i :: 0 <= i < |db.outbox| && Counts(db.outbox[i].data, id, false) ==>
              && db.outbox[i].aggregateId == id && TellsPending(db.outbox[i].data, db.wagers[id])
              && db.outbox[i].data.nextAttempt.Some?
  {
    assert CountsOk(db, id);
    EventsCount(db.outbox, id, true);
    EventsCount(db.outbox, id, false);
    forall i | 0 <= i < |db.outbox| && (Counts(db.outbox[i].data, id, true) || Counts(db.outbox[i].data, id, false))
      ensures db.outbox[i].aggregateId == id
      ensures Counts(db.outbox[i].data, id, true) ==> TellsTerminal(db.outbox[i].data, db.wagers[id])
      ensures Counts(db.outbox[i].data, id, false) ==>
                TellsPending(db.outbox[i].data, db.wagers[id]) && db.outbox[i].data.nextAttempt.Some?
    {
      EventRepeatsRow(db.wagers, id, db.outbox[i]);
    }
  }

  lemma EventRepeatsRow(wagers: map<Uuid, WagerState>, id: Uuid, e: Event)
    requires Faithful(wagers, e) && id in wagers && wagers[id].id == id
    ensures Counts(e.data, id, true) ==> e.aggregateId == id && TellsTerminal(e.data, wagers[id])
    ensures Counts(e.data, id, false) ==>
              e.aggregateId == id && TellsPending(e.data, wagers[id]) && e.data.nextAttempt.Some?
  {
  }

  // --- the events of an entry ---------------------------------------------

  lemma {:induction false} AnnouncedAt(openings: set<Uuid>, ledger: seq<LedgerEntry>, i: nat)
    requires i < |ledger|
    ensures |Announced(openings, ledger)| == |ledger| && TellsEntry(Announced(openings, ledger)[i], ledger[i])
  {
    var n := |ledger| - 1;
    if i < n {
      AnnouncedAt(openings, ledger[..n], i);
    } else if n > 0 {
      AnnouncedAt(openings, ledger[..n], 0);
    }
  }

  /** The positions of the balance events. */
  ghost function BalancePositions(outbox: seq<Event>): set<int> {
    set j | 0 <= j < |outbox| && outbox[j].data.WalletBalanceChanged?
  }

  /** The data is that of some balance event. */
  ghost predicate IsBalanceData(outbox: seq<Event>, d: EventData) {
    d.WalletBalanceChanged? && exists j :: 0 <= j < |outbox| && outbox[j].data == d
  }

  lemma {:induction false} FeedCounts(outbox: seq<Event>)
    ensures |BalancePositions(outbox)| == |Feed(outbox)|
  {
    if outbox == [] {
      assert BalancePositions(outbox) == {};
    } else {
      FeedCounts(outbox[..|outbox| - 1]);
      PositionsGrow(outbox);
    }
  }

  lemma {:induction false} FeedHolds(outbox: seq<Event>, d: EventData)
    ensures d in Feed(outbox) <==> IsBalanceData(outbox, d)
  {
    if outbox != [] {
      var last := outbox[|outbox| - 1];
      FeedHolds(outbox[..|outbox| - 1], d);
      assert outbox == outbox[..|outbox| - 1] + [last];
      BalanceDataGrows(outbox[..|outbox| - 1], last, d);
    }
  }

  lemma BalanceDataGrows(outbox: seq<Event>, last: Event, d: EventData)
    ensures IsBalanceData(outbox + [last], d) <==> IsBalanceData(outbox, d) || (d.WalletBalanceChanged? && last.data == d)
  {
    assert (outbox + [last])[|outbox|] == last;
    if IsBalanceData(outbox, d) {
      var j :| 0 <= j < |outbox| && outbox[j].data == d;
      assert (outbox + [last])[j] == outbox[j];
    }
  }

  lemma PositionsGrow(outbox: seq<Event>)
    requires outbox != []
    ensures var n := |outbox| - 1;
            BalancePositions(outbox) ==
            BalancePositions(outbox[..n]) + if outbox[n].data.WalletBalanceChanged? then {n} else {}
  {
  }

  ghost predicate IsEntryOf(ledger: seq<LedgerEntry>, d: EventData) {
    exists i :: 0 <= i < |ledger| && TellsEntry(d, ledger[i])
  }

  ghost predicate IsTold(outbox: seq<Event>, e: LedgerEntry) {
    exists j :: 0 <= j < |outbox| && TellsEntry(outbox[j].data, e)
  }

  /** There are as many balance events as entries, each repeats an entry, and each entry has one. */
  lemma BalanceEventsAreEntries(db: Db)
    requires OutboxOk(db)
    ensures |BalancePositions(db.outbox)| == |db.ledger|
    ensures forall j :: 0 <= j < |db.outbox| && db.outbox[j].data.WalletBalanceChanged? ==>
              db.outbox[j].aggregateId == db.outbox[j].data.walletId && IsEntryOf(db.ledger, db.outbox[j].data)
    ensures forall i :: 0 <= i < |db.ledger| ==> IsTold(db.outbox, db.ledger[i])
  {
    var openings := Openings(db.wagers);
    FeedCounts(db.outbox);
    if db.ledger != [] { AnnouncedAt(openings, db.ledger, 0); }
    forall j | 0 <= j < |db.outbox| && db.outbox[j].data.WalletBalanceChanged?
      ensures db.outbox[j].aggregateId == db.outbox[j].data.walletId && IsEntryOf(db.ledger, db.outbox[j].data)
    {
      assert Faithful(db.wagers, db.outbox[j]);
      EventHasEntry(openings, db.ledger, db.outbox, j);
    }
    forall i | 0 <= i < |db.ledger|
      ensures IsTold(db.outbox, db.ledger[i])
    {
      EntryHasEvent(openings, db.ledger, db.outbox, i);
    }
  }

  lemma EventHasEntry(openings: set<Uuid>, ledger: seq<LedgerEntry>, outbox: seq<Event>, j: nat)
    requires Feed(outbox) == Announced(openings, ledger) && j < |outbox| && outbox[j].data.WalletBalanceChanged?
    ensures IsEntryOf(ledger, outbox[j].data)
  {
    FeedHolds(outbox, outbox[j].data);
    if ledger != [] { AnnouncedAt(openings, ledger, 0); }
    var i :| 0 <= i < |Announced(openings, ledger)| && Announced(openings, ledger)[i] == outbox[j].data;
    AnnouncedAt(openings, ledger, i);
  }

  lemma EntryHasEvent(openings: set<Uuid>, ledger: seq<LedgerEntry>, outbox: seq<Event>, i: nat)
    requires Feed(outbox) == Announced(openings, ledger) && i < |ledger|
    ensures IsTold(outbox, ledger[i])
  {
    AnnouncedAt(openings, ledger, i);
    var d := Announced(openings, ledger)[i];
    FeedHolds(outbox, d);
    assert d in Feed(outbox);
  }

  // --- one movement per transaction ---------------------------------------

  /** A transaction is in the ledger exactly when it is processed and no loss, and then once. */
  lemma MovesMoneyOnce(db: Db, id: Uuid)
    requires EntriesOk(db) && ProcessedOk(db) && id in db.wagers
    ensures var entries := set i | 0 <= i < |db.ledger| && db.ledger[i].transactionId == id;
            |entries| == if db.wagers[id].status.Processed? && !db.wagers[id].kind.Loss? then 1 else 0
  {
    var entries := set i | 0 <= i < |db.ledger| && db.ledger[i].transactionId == id;
    assert ProcessedHasEntry(db, id);
    if HasEntry(db.ledger, id) {
      var i :| 0 <= i < |db.ledger| && db.ledger[i].transactionId == id;
      assert EntryMatches(db.wagers, db.ledger[i]);
      assert entries == {i};
    } else {
      assert entries == {};
    }
  }

  /** At most one processed refund or rollback per transaction, and none of itself. */
  lemma OneReversal(db: Db, a: Uuid, b: Uuid, id: Uuid)
    requires Valid(db) && a in db.wagers && b in db.wagers
    requires IsReversalOf(db.wagers[a], id) && IsReversalOf(db.wagers[b], id)
    ensures a == b && id in db.wagers && db.wagers[id].status.Processed?
    ensures db.wagers[a].walletId == db.wagers[id].walletId && db.wagers[a].money == db.wagers[id].money
  {
    ValidMeans(db);
    ReversalFacts(db, a);
    ReversalFacts(db, b);
    ReversalsClash(db.wagers[a], db.wagers[b], id);
  }

  lemma ReversalsClash(w: WagerState, v: WagerState, id: Uuid)
    requires IsReversalOf(w, id) && IsReversalOf(v, id) && id != NO_ID
    ensures !NoClash(w, v)
  {
  }

  lemma ReversalFacts(db: Db, a: Uuid)
    requires WagersOk(db) && ReferencesOk(db) && a in db.wagers && IsReversal(db.wagers[a])
    ensures db.wagers[a].referenceId != NO_ID && ReferenceHonoured(db.wagers, db.wagers[a])
  {
    assert WagerOk(db.wallets, db.wagers[a]);
  }

  // --- references ---------------------------------------------------------

  /** The commit position of a transaction in the ledger. */
  ghost predicate At(ledger: seq<LedgerEntry>, id: Uuid, i: int) {
    0 <= i < |ledger| && ledger[i].transactionId == id
  }

  ghost predicate AtBefore(ledger: seq<LedgerEntry>, id: Uuid, j: int) {
    exists i :: At(ledger, id, i) && i < j
  }

  /** A processed transaction refers to one that was processed by a strictly earlier commit. */
  lemma ReferenceIsEarlier(db: Db, id: Uuid, j: int)
    requires EntriesOk(db) && OrderOk(db) && At(db.ledger, id, j) && id in db.wagers && db.wagers[id].referenceId != NO_ID
    ensures AtBefore(db.ledger, db.wagers[id].referenceId, j)
  {
    var i :| 0 <= i < |db.ledger[..j]| && db.ledger[..j][i].transactionId == db.wagers[id].referenceId;
    assert At(db.ledger, db.wagers[id].referenceId, i);
  }

  /** A path of references from one processed transaction to the next. */
  ghost predicate ReferencePath(db: Db, path: seq<Uuid>) {
    && path != [] && path[0] in db.wagers && db.wagers[path[0]].status.Processed?
    && (|path| > 1 ==> path[1] != NO_ID && db.wagers[path[0]].referenceId == path[1] && ReferencePath(db, path[1..]))
  }

  lemma {:induction false} PathDescends(db: Db, path: seq<Uuid>, j: int)
    requires EntriesOk(db) && OrderOk(db) && ReferencePath(db, path) && |path| >= 2 && At(db.ledger, path[0], j)
    ensures AtBefore(db.ledger, path[|path| - 1], j)
    decreases |path|
  {
    ReferenceIsEarlier(db, path[0], j);
    var i :| i < j && At(db.ledger, path[1], i);
    if |path| > 2 {
      PathDescends(db, path[1..], i);
    }
  }

  /** A processed transaction with a reference is in the ledger: a loss has none. */
  lemma ReferringIsLedgered(db: Db, id: Uuid)
    requires WagersOk(db) && ProcessedOk(db) && id in db.wagers
    requires db.wagers[id].status.Processed? && db.wagers[id].referenceId != NO_ID
    ensures exists j :: At(db.ledger, id, j)
  {
    assert WagerOk(db.wallets, db.wagers[id]) && ProcessedHasEntry(db, id);
    var j :| 0 <= j < |db.ledger| && db.ledger[j].transactionId == id;
    assert At(db.ledger, id, j);
  }

  lemma SamePosition(db: Db, id: Uuid, i: int, j: int)
    requires EntriesOk(db) && At(db.ledger, id, i) && At(db.ledger, id, j)
    ensures i == j
  {
  }

  /** No processed transaction refers to itself, directly or through others. */
  lemma NoReferenceCycle(db: Db, path: seq<Uuid>)
    requires Valid(db) && ReferencePath(db, path) && |path| >= 2
    ensures path[0] != path[|path| - 1]
  {
    ValidMeans(db);
    ReferringIsLedgered(db, path[0]);
    var j :| At(db.ledger, path[0], j);
    PathDescends(db, path, j);
    var i :| i < j && At(db.ledger, path[|path| - 1], i);
    if At(db.ledger, path[0], i) {
      SamePosition(db, path[0], i, j);
    }
  }
}
