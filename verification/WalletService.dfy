/**
 The wallet service: creation statement by statement, and reconciliation of a wallet
 with its ledger (internal/application/wallet_service.go).
 */
module WalletService {
  import opened Base
  import opened MoneyValue
  import opened Domain
  import opened Contracts
  import opened Database
  import opened Decisions
  import opened Invariants
  import opened Preservation
  import opened Admission
  import opened Storage
  import opened Creation

  // --- creation -----------------------------------------------------------

  /** The opening row and its entry pass every guard of the database that already holds the wallet. */
  lemma OpeningAccepted(db: Db, wallet: WalletState, env: CreateEnv)
    requires WagersOk(db) && KeysOk(db) && ReferencesOk(db) && EntriesOk(db) && Fresh(db, wallet, env) &&
             !wallet.balance.IsZero()
    ensures var inserted := db.(wallets := db.wallets[wallet.id := wallet]);
            var opening := OpeningOf(wallet, env);
            var withOpening := inserted.(wagers := db.wagers[env.transactionId := opening]);
            && RowAccepted(inserted, opening, true)
            && LedgerUnique(withOpening, OpeningEntry(wallet, env)) && LedgerGuards(withOpening, OpeningEntry(wallet, env))
  {
    var after := db.(wagers := db.wagers[env.transactionId := OpeningOf(wallet, env)],
                     ledger := db.ledger + [OpeningEntry(wallet, env)]);
    KeysGrow(db, after, wallet, env);
    EntriesGrow(db, after, wallet, env);
    forall id | id in db.wagers && id != env.transactionId
      ensures NoClash(OpeningOf(wallet, env), db.wagers[id])
    {
      assert NoClash(after.wagers[env.transactionId], after.wagers[id]);
    }
  }

  // --- reconciliation -----------------------------------------------------

  /** The credits, or the debits, of a wallet in its currency. */
  function SideSum(ledger: seq<LedgerEntry>, wallet: Uuid, currency: string, side: Direction): (sum: int)
  {
    if ledger == [] then 0
    else
      var last := ledger[|ledger| - 1];
      SideSum(ledger[..|ledger| - 1], wallet, currency, side) +
      (if last.walletId == wallet && last.money.currency == currency && last.direction == side then last.money.minor else 0)
  }

  function CountEntries(ledger: seq<LedgerEntry>, wallet: Uuid, currency: string): nat {
    if ledger == [] then 0
    else
      var last := ledger[|ledger| - 1];
      CountEntries(ledger[..|ledger| - 1], wallet, currency) +
      (if last.walletId == wallet && last.money.currency == currency then 1 else 0)
  }

  datatype Reconciliation = Reconciliation(
    walletId: Uuid, stored: Money, calculated: Money, difference: Money, consistent: bool, checkedEntries: nat)

  /** Credits and debits each pass through a bigint. */
  predicate SumsFit(ledger: seq<LedgerEntry>, wallet: WalletState) {
    && SideSum(ledger, wallet.id, wallet.balance.currency, Credit) <= MAX_INT64
    && SideSum(ledger, wallet.id, wallet.balance.currency, Debit) <= MAX_INT64
  }

  lemma {:induction false} SidesMakeSum(ledger: seq<LedgerEntry>, wallet: Uuid, currency: string)
    requires forall i :: 0 <= i < |ledger| && ledger[i].walletId == wallet ==> ledger[i].money.currency == currency
    requires forall i :: 0 <= i < |ledger| ==> ledger[i].money.minor > 0
    ensures SideSum(ledger, wallet, currency, Credit) - SideSum(ledger, wallet, currency, Debit) == Sum(ledger, wallet)
    ensures SideSum(ledger, wallet, currency, Credit) >= 0 && SideSum(ledger, wallet, currency, Debit) >= 0
  {
    if ledger != [] { SidesMakeSum(ledger[..|ledger| - 1], wallet, currency); }
  }

  /** The positions of the entries of a wallet in a currency. */
  ghost function EntriesOf(ledger: seq<LedgerEntry>, wallet: Uuid, currency: string): set<int> {
    set i | 0 <= i < |ledger| && ledger[i].walletId == wallet && ledger[i].money.currency == currency
  }

  lemma PositionsStep(ledger: seq<LedgerEntry>, e: LedgerEntry, wallet: Uuid, currency: string)
    ensures EntriesOf(ledger + [e], wallet, currency) ==
            EntriesOf(ledger, wallet, currency) +
            if e.walletId == wallet && e.money.currency == currency then {|ledger|} else {}
  {
  }

  /** Each entry of the wallet in its currency counts once. */
  lemma {:induction false} CountIsExact(ledger: seq<LedgerEntry>, wallet: Uuid, currency: string)
    ensures CountEntries(ledger, wallet, currency) == |EntriesOf(ledger, wallet, currency)|
  {
    if ledger == [] {
      assert EntriesOf(ledger, wallet, currency) == {};
    } else {
      var n := |ledger| - 1;
      CountIsExact(ledger[..n], wallet, currency);
      PositionsStep(ledger[..n], ledger[n], wallet, currency);
      assert ledger == ledger[..n] + [ledger[n]];
    }
  }

  lemma {:induction false} ChainIsPositive(openings: set<Uuid>, ledger: seq<LedgerEntry>)
    requires ChainOk(openings, ledger)
    ensures forall i :: 0 <= i < |ledger| ==> ledger[i].money.minor > 0
  {
    if ledger != [] { ChainIsPositive(openings, ledger[..|ledger| - 1]); }
  }

  /** In a valid database the credits exceed the debits by exactly the stored balance. */
  lemma LedgerExplainsBalance(db: Db, id: Uuid)
    requires WalletsOk(db) && BalancesOk(db) && id in db.wallets
    ensures var w := db.wallets[id];
            && w.id == id && IsCurrency(w.balance.currency)
            && var credits, debits :=
                 SideSum(db.ledger, id, w.balance.currency, Credit), SideSum(db.ledger, id, w.balance.currency, Debit);
               credits >= 0 && debits >= 0 && w.balance.minor == credits - debits
  {
    ChainIsPositive(Openings(db.wagers), db.ledger);
    SidesMakeSum(db.ledger, id, db.wallets[id].balance.currency);
  }

  class Service {
    const store: Store

    constructor (store: Store)
      ensures this.store == store
    {
      this.store := store;
    }

    /** The statements after the wallet is inserted. */
    method InsertOpening(tx: TxStore, wallet: WalletState, c: CreateCommand, env: CreateEnv, ghost db: Db)
        returns (err: Option<Error>)
      requires WagersOk(db) && KeysOk(db) && ReferencesOk(db) && EntriesOk(db) && Fresh(db, wallet, env) &&
               !wallet.balance.IsZero()
      requires tx.db == db.(wallets := db.wallets[wallet.id := wallet])
      modifies tx
      ensures err == None && tx.db == WithWallet(db, wallet, c, env)
    {
      OpeningAccepted(db, wallet, env);
      err := tx.InsertTransaction(OpeningOf(wallet, env));
      if err != None { return; }
      var entry := NewLedgerEntry(env.entryId, wallet.id, env.transactionId, Credit, wallet.balance,
                                  Money(0, wallet.balance.currency), wallet.balance, env.now);
      if entry.Err? {
        return Some(InvalidLedgerEntry);
      }
      err := tx.InsertLedger(entry.value);
      if err != None { return; }
      var events := OpeningEvents(wallet, c, env);
      err := tx.InsertOutbox(events[0]);
      if err != None { return; }
      err := tx.InsertOutbox(events[1]);
      assert events == [events[0]] + [events[1]];
    }

    /** Create: wallet, opening, entry and events together, or nothing. */
    method Create(c: CreateCommand, env: CreateEnv) returns (r: Result<WalletState>)
      requires Valid(store.db) && CreateEnvOk(store.db, env)
      modifies store
      ensures match CreateOutcome(old(store.db), c, env)
              case Err(e) => r == Err(e) && store.db == old(store.db)
              case Ok((db, wallet)) => r == Ok(wallet) && store.db == db
      ensures Valid(store.db)
    {
      ValidMeans(store.db);
      if !CreateValid(c) || c.initial.IsNegative() {
        return Err(InvalidWallet);
      }
      var made := NewWallet(env.walletId, c.playerId, c.initial, env.now);
      if made.Err? {
        return Err(InvalidWallet);
      }
      var wallet := made.value;
      var tx := new TxStore(store.db);
      var err := tx.InsertWallet(wallet);
      if err.Some? {
        return Err(err.value);
      }
      if !c.initial.IsZero() {
        err := InsertOpening(tx, wallet, c, env, store.db);
        if err.Some? {
          return Err(SchemaGuard);
        }
      }
      CreateKeepsValid(store.db, c, env);
      err := store.CommitWork(tx);
      if err.Some? {
        return Err(SchemaGuard);
      }
      return Ok(wallet);
    }

    /** The aggregate query over the ledger. */
    method SumLedger(ledger: seq<LedgerEntry>, wallet: Uuid, currency: string) returns (credits: int, debits: int, count: nat)
      ensures credits == SideSum(ledger, wallet, currency, Credit)
      ensures debits == SideSum(ledger, wallet, currency, Debit)
      ensures count == CountEntries(ledger, wallet, currency)
    {
      credits, debits, count := 0, 0, 0;
      var i := 0;
      while i < |ledger|
        invariant 0 <= i <= |ledger|
        invariant credits == SideSum(ledger[..i], wallet, currency, Credit)
        invariant debits == SideSum(ledger[..i], wallet, currency, Debit)
        invariant count == CountEntries(ledger[..i], wallet, currency)
      {
        var e := ledger[i];
        assert ledger[..i + 1][..i] == ledger[..i] && ledger[..i + 1][i] == e;
        if e.walletId == wallet && e.money.currency == currency {
          count := count + 1;
          if e.direction == Credit {
            credits := credits + e.money.minor;
          } else {
            debits := debits + e.money.minor;
          }
        }
        i := i + 1;
      }
      assert ledger[..i] == ledger;
    }

    /** The comparison of a wallet with its ledger. */
    method Compare(wallet: WalletState, ledger: seq<LedgerEntry>) returns (r: Result<Reconciliation>)
      requires IsCurrency(wallet.balance.currency)
      requires var credits, debits := SideSum(ledger, wallet.id, wallet.balance.currency, Credit),
                                      SideSum(ledger, wallet.id, wallet.balance.currency, Debit);
               credits >= 0 && debits >= 0 && wallet.balance.minor == credits - debits
      ensures if SumsFit(ledger, wallet)
              then r == Ok(Reconciliation(wallet.id, wallet.balance, wallet.balance, Money(0, wallet.balance.currency), true,
                                          CountEntries(ledger, wallet.id, wallet.balance.currency)))
              else r == Err(IntegerOutOfRange)
    {
      var credits, debits, count := SumLedger(ledger, wallet.id, wallet.balance.currency);
      if credits > MAX_INT64 || debits > MAX_INT64 {
        return Err(IntegerOutOfRange);
      }
      var calculated := Money(credits - debits, wallet.balance.currency);
      var difference := wallet.balance.Subtract(calculated);
      if difference.Err? {
        return Err(MoneyOverflow);
      }
      return Ok(Reconciliation(wallet.id, wallet.balance, calculated, difference.value, difference.value.IsZero(), count));
    }

    /** Reconcile finds difference 0 in every wallet whose credits and debits each fit a bigint, and fails for no other. */
    method Reconcile(id: Uuid) returns (r: Result<Reconciliation>)
      requires Valid(store.db)
      ensures id !in store.db.wallets ==> r == Err(NotFound)
      ensures id in store.db.wallets ==>
                var w := store.db.wallets[id];
                if SumsFit(store.db.ledger, w)
                then r == Ok(Reconciliation(id, w.balance, w.balance, Money(0, w.balance.currency), true,
                                            CountEntries(store.db.ledger, id, w.balance.currency)))
                else r == Err(IntegerOutOfRange)
    {
      ValidMeans(store.db);
      if id !in store.db.wallets {
        return Err(NotFound);
      }
      LedgerExplainsBalance(store.db, id);
      r := Compare(store.db.wallets[id], store.db.ledger);
    }
  }
}
