/**
 What WalletService.Create does to the database: a wallet and, unless its initial
 balance is zero, an internal opening transaction with its ledger entry and its two
 events. The invariant survives (internal/application/wallet_service.go).
 */
module Creation {
  import opened Base
  import opened MoneyValue
  import opened Domain
  import opened Contracts
  import opened Database
  import opened Decisions
  import opened Invariants
  import opened Preservation
  import opened Storage

  datatype CreateCommand = CreateCommand(playerId: Uuid, initial: Money, correlationId: string)

  /** The clock reading and the identifiers generated for one call. */
  datatype CreateEnv = CreateEnv(
    now: Time, walletId: Uuid, transactionId: Uuid, entryId: Uuid, firstEvent: Uuid, secondEvent: Uuid, correlationId: Uuid)

  ghost predicate CreateEnvOk(db: Db, env: CreateEnv) {
    && env.now != ZERO_TIME && env.walletId != NO_ID && env.transactionId != NO_ID && env.entryId != NO_ID
    && env.firstEvent != NO_ID && env.secondEvent != NO_ID && env.firstEvent != env.secondEvent
    && env.walletId !in db.wallets && env.transactionId !in db.wagers
    && (forall i :: 0 <= i < |db.ledger| ==> db.ledger[i].id != env.entryId)
    && (forall i :: 0 <= i < |db.outbox| ==> db.outbox[i].id != env.firstEvent && db.outbox[i].id != env.secondEvent)
  }

  predicate CreateValid(c: CreateCommand) {
    c.playerId != NO_ID && c.initial.Valid() && |c.correlationId| <= 256
  }

  /** The row that InsertOpening writes. */
  function OpeningOf(wallet: WalletState, env: CreateEnv): WagerState {
    WagerState(env.transactionId, "", "", "", None, wallet.id, wallet.playerId, "", "", Opening, wallet.balance, "", NO_ID,
               Processed, NoFailure, Some(wallet.balance), 0, None, env.now, env.now)
  }

  function OpeningEntry(wallet: WalletState, env: CreateEnv): LedgerEntry {
    LedgerEntry(env.entryId, wallet.id, env.transactionId, Credit, wallet.balance,
                Money(0, wallet.balance.currency), wallet.balance, env.now)
  }

  function OpeningEvents(wallet: WalletState, c: CreateCommand, env: CreateEnv): seq<Event> {
    var correlation := if c.correlationId == "" then FromId(env.correlationId) else FromCaller(c.correlationId);
    [Event(env.firstEvent, env.transactionId, correlation, NoTrace, env.now, ProcessedData(OpeningOf(wallet, env),
        wallet.balance)),
     Event(env.secondEvent, wallet.id, correlation, FromId(env.transactionId), env.now,
           ChangedData(OpeningEntry(wallet, env), wallet.version))]
  }

  /** The database with the new wallet, and with its opening. */
  function WithWallet(db: Db, wallet: WalletState, c: CreateCommand, env: CreateEnv): Db {
    var inserted := db.(wallets := db.wallets[wallet.id := wallet]);
    if wallet.balance.IsZero() then inserted
    else inserted.(wagers := db.wagers[env.transactionId := OpeningOf(wallet, env)],
                   ledger := db.ledger + [OpeningEntry(wallet, env)],
                   outbox := db.outbox + OpeningEvents(wallet, c, env))
  }

  function CreateOutcome(db: Db, c: CreateCommand, env: CreateEnv): Result<(Db, WalletState)> {
    if !CreateValid(c) || c.initial.IsNegative() then Err(InvalidWallet)
    else
      var wallet :- NewWallet(env.walletId, c.playerId, c.initial, env.now);
      if WalletTaken(db, wallet.playerId, wallet.balance.currency) then Err(Conflict)
      else Ok((WithWallet(db, wallet, c, env), wallet))
  }

  // --- the invariant survives ---------------------------------------------

  /** A wallet as NewWallet makes it, with a free identifier, player and currency. */
  ghost predicate Fresh(db: Db, wallet: WalletState, env: CreateEnv) {
    && CreateEnvOk(db, env) && wallet.id == env.walletId && wallet.playerId != NO_ID && wallet.version == 1
    && SoundWallet(wallet) && wallet.createdAt == wallet.updatedAt == env.now
    && !WalletTaken(db, wallet.playerId, wallet.balance.currency)
  }

  lemma WalletsGrow(db: Db, after: Db, wallet: WalletState, env: CreateEnv)
    requires WalletsOk(db) && Fresh(db, wallet, env) && after.wallets == db.wallets[wallet.id := wallet]
    ensures WalletsOk(after)
  {
  }

  lemma RowsGrow(db: Db, after: Db, wallet: WalletState, env: CreateEnv)
    requires WagersOk(db) && Fresh(db, wallet, env) && after.wallets == db.wallets[wallet.id := wallet]
    requires after.wagers == if wallet.balance.IsZero() then db.wagers else db.wagers[env.transactionId := OpeningOf(wallet, env)]
    ensures WagersOk(after)
  {
    forall id | id in db.wagers
      ensures WagerOk(after.wallets, db.wagers[id])
    {
      SameOwners(db.wallets, after.wallets, db.wagers[id]);
    }
    if !wallet.balance.IsZero() { OpeningRowOk(db, after.wallets, wallet, env); }
  }

  lemma OpeningRowOk(db: Db, wallets: map<Uuid, WalletState>, wallet: WalletState, env: CreateEnv)
    requires Fresh(db, wallet, env) && !wallet.balance.IsZero() && wallet.id in wallets && wallets[wallet.id] == wallet
    ensures WagerOk(wallets, OpeningOf(wallet, env))
  {
  }

  lemma KeysGrow(db: Db, after: Db, wallet: WalletState, env: CreateEnv)
    requires WagersOk(db) && KeysOk(db) && Fresh(db, wallet, env)
    requires after.wagers == db.wagers[env.transactionId := OpeningOf(wallet, env)]
    ensures KeysOk(after)
  {
    forall id | id in db.wagers
      ensures NoClash(OpeningOf(wallet, env), db.wagers[id]) && NoClash(db.wagers[id], OpeningOf(wallet, env))
    {
      assert WagerOk(db.wallets, db.wagers[id]);
    }
  }

  /** Openings carry no hash. */
  lemma HashesGrow(db: Db, after: Db, wallet: WalletState, env: CreateEnv)
    requires HashesOk(db) && env.transactionId !in db.wagers
    requires after.wagers == db.wagers[env.transactionId := OpeningOf(wallet, env)]
    ensures HashesOk(after)
  {
  }

  lemma ReferencesGrow(db: Db, after: Db, wallet: WalletState, env: CreateEnv)
    requires ReferencesOk(db) && Fresh(db, wallet, env)
    requires after.wagers == db.wagers[env.transactionId := OpeningOf(wallet, env)]
    ensures ReferencesOk(after)
  {
    forall id | id in after.wagers
      ensures NamesTerminal(after.wagers, after.wagers[id])
      ensures after.wagers[id].status.Processed? ==> ReferenceHonoured(after.wagers, after.wagers[id])
    {
      if id in db.wagers { KeepReference(db.wagers, after.wagers, env.transactionId, after.wagers[id]); }
    }
  }

  /** A new row does not change what an entry says about another. */
  lemma EntryStaysMatched(wagers: map<Uuid, WagerState>, id: Uuid, w: WagerState, e: LedgerEntry)
    requires EntryMatches(wagers, e) && NamesTerminal(wagers, wagers[e.transactionId]) && id !in wagers && id != NO_ID
    ensures EntryMatches(wagers[id := w], e) && e.transactionId != id
  {
  }

  lemma EntriesGrow(db: Db, after: Db, wallet: WalletState, env: CreateEnv)
    requires EntriesOk(db) && ReferencesOk(db) && Fresh(db, wallet, env) && !wallet.balance.IsZero()
    requires after.wagers == db.wagers[env.transactionId := OpeningOf(wallet, env)]
    requires after.ledger == db.ledger + [OpeningEntry(wallet, env)]
    ensures EntriesOk(after)
    ensures forall i :: 0 <= i < |db.ledger| ==> db.ledger[i].transactionId != env.transactionId
  {
    forall i | 0 <= i < |db.ledger|
      ensures EntryMatches(after.wagers, db.ledger[i]) && db.ledger[i].transactionId != env.transactionId
    {
      EntryStaysMatched(db.wagers, env.transactionId, OpeningOf(wallet, env), db.ledger[i]);
    }
    EntriesAppend(db, after, OpeningEntry(wallet, env));
  }

  lemma ProcessedGrow(db: Db, after: Db, wallet: WalletState, env: CreateEnv)
    requires ProcessedOk(db) && Fresh(db, wallet, env)
    requires after.wagers == db.wagers[env.transactionId := OpeningOf(wallet, env)]
    requires after.ledger == db.ledger + [OpeningEntry(wallet, env)]
    ensures ProcessedOk(after)
  {
    forall id | id in after.wagers
      ensures ProcessedHasEntry(after, id)
    {
      HasEntryAppend(db.ledger, OpeningEntry(wallet, env), id);
      if id != env.transactionId { assert ProcessedHasEntry(db, id); }
    }
  }

  lemma OrderGrows(db: Db, after: Db, wallet: WalletState, env: CreateEnv)
    requires OrderOk(db) && Fresh(db, wallet, env)
    requires forall i :: 0 <= i < |db.ledger| ==> db.ledger[i].transactionId in db.wagers
    requires after.wagers == db.wagers[env.transactionId := OpeningOf(wallet, env)]
    requires after.ledger == db.ledger + [OpeningEntry(wallet, env)]
    ensures OrderOk(after)
  {
    forall j | 0 <= j < |after.ledger| && after.ledger[j].transactionId in after.wagers &&
               after.wagers[after.ledger[j].transactionId].referenceId != NO_ID
      ensures HasEntry(after.ledger[..j], after.wagers[after.ledger[j].transactionId].referenceId)
    {
      assert j < |db.ledger| && after.ledger[..j] == db.ledger[..j];
    }
  }

  // --- one more opening ---------------------------------------------------

  /** An opening that no entry speaks of changes neither versions, nor the chain, nor the announcements. */
  lemma {:induction false} UnusedOpening(openings: set<Uuid>, more: set<Uuid>, ledger: seq<LedgerEntry>, wallet: Uuid)
    requires openings <= more
    requires forall i :: 0 <= i < |ledger| ==> ledger[i].transactionId !in more - openings
    ensures Moves(more, ledger, wallet) == Moves(openings, ledger, wallet)
    ensures ChainOk(more, ledger) <==> ChainOk(openings, ledger)
    ensures Announced(more, ledger) == Announced(openings, ledger)
  {
    if ledger != [] {
      var init, last := ledger[..|ledger| - 1], ledger[|ledger| - 1];
      UnusedOpening(openings, more, init, wallet);
      UnusedOpening(openings, more, init, last.walletId);
      assert Moves(more, ledger, last.walletId) == Moves(openings, ledger, last.walletId);
    }
  }

  lemma {:induction false} NothingTouches(openings: set<Uuid>, ledger: seq<LedgerEntry>, wallet: Uuid)
    requires forall i :: 0 <= i < |ledger| ==> ledger[i].walletId != wallet
    ensures Sum(ledger, wallet) == 0 && Moves(openings, ledger, wallet) == 0 && !Touches(ledger, wallet)
  {
    if ledger != [] { NothingTouches(openings, ledger[..|ledger| - 1], wallet); }
  }

  lemma OpeningsGrow(db: Db, after: Db, wallet: WalletState, env: CreateEnv)
    requires EntriesOk(db) && Fresh(db, wallet, env)
    requires after.wagers == db.wagers[env.transactionId := OpeningOf(wallet, env)]
    ensures Openings(after.wagers) == Openings(db.wagers) + {env.transactionId}
    ensures forall i :: 0 <= i < |db.ledger| ==> db.ledger[i].transactionId !in Openings(after.wagers) - Openings(db.wagers)
  {
    forall i | 0 <= i < |db.ledger|
      ensures db.ledger[i].transactionId in db.wagers
    {
      assert EntryMatches(db.wagers, db.ledger[i]);
    }
  }

  lemma BalancesGrow(db: Db, after: Db, wallet: WalletState, env: CreateEnv)
    requires EntriesOk(db) && BalancesOk(db) && Fresh(db, wallet, env) && !wallet.balance.IsZero()
    requires after.wallets == db.wallets[wallet.id := wallet]
    requires after.wagers == db.wagers[env.transactionId := OpeningOf(wallet, env)]
    requires after.ledger == db.ledger + [OpeningEntry(wallet, env)]
    ensures BalancesOk(after)
  {
    var e, openings := OpeningEntry(wallet, env), Openings(after.wagers);
    OpeningsGrow(db, after, wallet, env);
    UnusedOpening(Openings(db.wagers), openings, db.ledger, wallet.id);
    NothingTouches(openings, db.ledger, wallet.id);
    ChainAppend(openings, db.ledger, e);
    forall id | id in after.wallets
      ensures after.wallets[id].balance.minor == Sum(after.ledger, id)
      ensures after.wallets[id].version == 1 + Moves(openings, after.ledger, id)
    {
      UnusedOpening(Openings(db.wagers), openings, db.ledger, id);
      OpeningCounts(openings, db.ledger, e, id);
    }
    OpeningIsOwned(db, after, wallet, e);
  }

  lemma OpeningIsOwned(db: Db, after: Db, wallet: WalletState, e: LedgerEntry)
    requires wallet.id !in db.wallets && after.wallets == db.wallets[wallet.id := wallet] && after.ledger == db.ledger + [e]
    requires e.walletId == wallet.id && e.money.currency == wallet.balance.currency
    requires forall i :: 0 <= i < |db.ledger| ==>
               && db.ledger[i].walletId in db.wallets
               && db.ledger[i].money.currency == db.wallets[db.ledger[i].walletId].balance.currency
    ensures forall i :: 0 <= i < |after.ledger| ==>
              && after.ledger[i].walletId in after.wallets
              && after.ledger[i].money.currency == after.wallets[after.ledger[i].walletId].balance.currency
  {
  }

  /** The entry of an opening adds to the sum of its wallet and to no count of movements. */
  lemma OpeningCounts(openings: set<Uuid>, ledger: seq<LedgerEntry>, e: LedgerEntry, wallet: Uuid)
    requires e.transactionId in openings
    ensures Sum(ledger + [e], wallet) == Sum(ledger, wallet) + (if e.walletId == wallet then e.Delta() else 0)
    ensures Moves(openings, ledger + [e], wallet) == Moves(openings, ledger, wallet)
  {
    SumAppend(ledger, e, wallet);
    MovesAppend(openings, ledger, e, wallet);
  }

  lemma BalancesGrowEmpty(db: Db, after: Db, wallet: WalletState, env: CreateEnv)
    requires BalancesOk(db) && Fresh(db, wallet, env) && wallet.balance.IsZero()
    requires after == db.(wallets := db.wallets[wallet.id := wallet])
    ensures BalancesOk(after)
  {
    NothingTouches(Openings(db.wagers), db.ledger, wallet.id);
  }

  // --- outbox -------------------------------------------------------------

  lemma EventsGrow(outbox: seq<Event>, events: seq<Event>, id: Uuid, terminal: bool)
    requires |events| == 2 && !events[0].data.WalletBalanceChanged? && events[1].data.WalletBalanceChanged?
    ensures CountEvents(outbox + events, id, terminal) ==
            CountEvents(outbox, id, terminal) + (if Counts(events[0].data, id, terminal) then 1 else 0)
    ensures Feed(outbox + events) == Feed(outbox) + [events[1].data]
  {
    EventsAppend(outbox, [events[0]], [events[1]], id, terminal);
    assert events == [events[0]] + [events[1]];
  }

  lemma CountsGrow(db: Db, after: Db, wallet: WalletState, c: CreateCommand, env: CreateEnv, id: Uuid)
    requires OutboxOk(db) && Fresh(db, wallet, env)
    requires after.wagers == db.wagers[env.transactionId := OpeningOf(wallet, env)]
    requires after.outbox == db.outbox + OpeningEvents(wallet, c, env)
    requires id in after.wagers
    ensures CountsOk(after, id)
  {
    if id in db.wagers { assert CountsOk(db, id); } else { NoEarlierEvents(db, id); }
    EventsGrow(db.outbox, OpeningEvents(wallet, c, env), id, true);
    EventsGrow(db.outbox, OpeningEvents(wallet, c, env), id, false);
  }

  lemma FaithfulGrows(wagers: map<Uuid, WagerState>, id: Uuid, w: WagerState, e: Event)
    requires Faithful(wagers, e) && id !in wagers
    ensures Faithful(wagers[id := w], e)
  {
  }

  lemma EventsStayFaithful(db: Db, after: Db, wallet: WalletState, c: CreateCommand, env: CreateEnv)
    requires OutboxOk(db) && Fresh(db, wallet, env) && !wallet.balance.IsZero()
    requires after.wagers == db.wagers[env.transactionId := OpeningOf(wallet, env)]
    requires after.outbox == db.outbox + OpeningEvents(wallet, c, env)
    ensures forall i :: 0 <= i < |after.outbox| ==> Faithful(after.wagers, after.outbox[i]) && after.outbox[i].id != NO_ID
    ensures forall i, j :: 0 <= i < j < |after.outbox| ==> after.outbox[i].id != after.outbox[j].id
  {
    var events := OpeningEvents(wallet, c, env);
    forall i | 0 <= i < |db.outbox|
      ensures Faithful(after.wagers, db.outbox[i])
    {
      FaithfulGrows(db.wagers, env.transactionId, OpeningOf(wallet, env), db.outbox[i]);
    }
    assert after.outbox == db.outbox + ([events[0]] + [events[1]]);
    EventsJoin(db.outbox, after.wagers, [events[0]], [events[1]]);
  }

  lemma OutboxGrows(db: Db, after: Db, wallet: WalletState, c: CreateCommand, env: CreateEnv)
    requires EntriesOk(db) && BalancesOk(db) && OutboxOk(db) && Fresh(db, wallet, env) && !wallet.balance.IsZero()
    requires after.wagers == db.wagers[env.transactionId := OpeningOf(wallet, env)]
    requires after.ledger == db.ledger + [OpeningEntry(wallet, env)]
    requires after.outbox == db.outbox + OpeningEvents(wallet, c, env)
    ensures OutboxOk(after)
  {
    EventsStayFaithful(db, after, wallet, c, env);
    forall id | id in after.wagers
      ensures CountsOk(after, id)
    {
      CountsGrow(db, after, wallet, c, env, id);
    }
    FeedGrows(db, after, wallet, c, env);
  }

  lemma FeedGrows(db: Db, after: Db, wallet: WalletState, c: CreateCommand, env: CreateEnv)
    requires EntriesOk(db) && BalancesOk(db) && Feed(db.outbox) == Announced(Openings(db.wagers), db.ledger)
    requires Fresh(db, wallet, env)
    requires after.wagers == db.wagers[env.transactionId := OpeningOf(wallet, env)]
    requires after.ledger == db.ledger + [OpeningEntry(wallet, env)]
    requires after.outbox == db.outbox + OpeningEvents(wallet, c, env)
    ensures Feed(after.outbox) == Announced(Openings(after.wagers), after.ledger)
  {
    var openings, e := Openings(after.wagers), OpeningEntry(wallet, env);
    OpeningsGrow(db, after, wallet, env);
    UnusedOpening(Openings(db.wagers), openings, db.ledger, wallet.id);
    NothingTouches(openings, db.ledger, wallet.id);
    MovesAppend(openings, db.ledger, e, wallet.id);
    AnnouncedAppend(openings, db.ledger, e);
    EventsGrow(db.outbox, OpeningEvents(wallet, c, env), env.transactionId, true);
  }

  // --- the whole ----------------------------------------------------------

  lemma EmptyWalletKeepsValid(db: Db, after: Db, wallet: WalletState, env: CreateEnv)
    requires Valid(db) && Fresh(db, wallet, env) && wallet.balance.IsZero()
    requires after == db.(wallets := db.wallets[wallet.id := wallet])
    ensures Valid(after)
  {
    ValidMeans(db);
    WalletsGrow(db, after, wallet, env);
    RowsGrow(db, after, wallet, env);
    BalancesGrowEmpty(db, after, wallet, env);
    SameHistory(db, after);
    RulesMakeValid(after);
  }

  /** Rules that do not speak of wallets. */
  lemma SameHistory(db: Db, after: Db)
    requires ProcessedOk(db) && OutboxOk(db)
    requires after.wagers == db.wagers && after.ledger == db.ledger && after.outbox == db.outbox
    ensures ProcessedOk(after) && OutboxOk(after)
  {
    forall id | id in db.wagers
      ensures ProcessedHasEntry(after, id) && CountsOk(after, id)
    {
      assert ProcessedHasEntry(db, id) && CountsOk(db, id);
    }
  }

  lemma OpenedWalletKeepsValid(db: Db, after: Db, wallet: WalletState, c: CreateCommand, env: CreateEnv)
    requires Valid(db) && Fresh(db, wallet, env) && !wallet.balance.IsZero() && after == WithWallet(db, wallet, c, env)
    ensures Valid(after)
  {
    ValidMeans(db);
    WalletsGrow(db, after, wallet, env);
    RowsGrow(db, after, wallet, env);
    KeysGrow(db, after, wallet, env);
    HashesGrow(db, after, wallet, env);
    ReferencesGrow(db, after, wallet, env);
    EntriesGrow(db, after, wallet, env);
    ProcessedGrow(db, after, wallet, env);
    LedgerIsKnown(db);
    OrderGrows(db, after, wallet, env);
    BalancesGrow(db, after, wallet, env);
    OutboxGrows(db, after, wallet, c, env);
    RulesMakeValid(after);
  }

  /** Create keeps the invariant of the database. */
  lemma CreateKeepsValid(db: Db, c: CreateCommand, env: CreateEnv)
    requires Valid(db) && CreateEnvOk(db, env)
    ensures CreateOutcome(db, c, env).Ok? ==> Valid(CreateOutcome(db, c, env).value.0)
  {
    var outcome := CreateOutcome(db, c, env);
    if outcome.Ok? {
      if outcome.value.1.balance.IsZero() {
        EmptyWalletKeepsValid(db, outcome.value.0, outcome.value.1, env);
      } else {
        OpenedWalletKeepsValid(db, outcome.value.0, outcome.value.1, c, env);
      }
    }
  }
}
