/**
 The store as the services see it: a committed database and, for each call, a
 transaction over a working copy whose statements evaluate the schema's guards
 (internal/infrastructure/postgres/store.go). A failed statement aborts the call.
 */
module Storage {
  import opened Base
  import opened MoneyValue
  import opened Domain
  import opened Contracts
  import opened Database
  import opened Decisions
  import opened Invariants
  import opened Admission
  import opened Aggregates

  /** The disposition of an inbox claim. */
  datatype Disposition = InboxInserted | InboxAlreadyCompleted

  predicate InboxConflicts(db: Db, input: InboxInput) {
    input.key in db.inbox && db.inbox[input.key].body != input.body
  }

  predicate InboxCompleted(db: Db, input: InboxInput) {
    input.key in db.inbox && db.inbox[input.key].body == input.body && db.inbox[input.key].completedAt.Some?
  }

  /** The database after the claim of an input that neither conflicts nor is completed. */
  function Claimed(db: Db, input: InboxInput, now: Time): Db {
    if input.key in db.inbox then db else db.(inbox := db.inbox[input.key := InboxRow(input.body, now, None)])
  }

  function Completed(db: Db, input: InboxInput, now: Time): Db
    requires input.key in db.inbox
  {
    db.(inbox := db.inbox[input.key := db.inbox[input.key].(completedAt := Some(now))])
  }

  class TxStore {
    var db: Db
    // The rows that the deferred constraint triggers will look at.
    var touchedWallets: set<Uuid>
    var touchedWagers: set<Uuid>

    constructor (db: Db)
      ensures this.db == db && touchedWallets == {} && touchedWagers == {}
    {
      this.db := db;
      touchedWallets, touchedWagers := {}, {};
    }

    // --- inbox ------------------------------------------------------------

    method ClaimInbox(input: InboxInput, now: Time) returns (r: Result<Disposition>)
      modifies this`db
      ensures InboxConflicts(old(db), input) ==> r == Err(InboxPayloadConflict) && db == old(db)
      ensures InboxCompleted(old(db), input) ==> r == Ok(InboxAlreadyCompleted) && db == old(db)
      ensures !InboxConflicts(old(db), input) && !InboxCompleted(old(db), input) ==>
                r == Ok(InboxInserted) && db == Claimed(old(db), input, now)
    {
      if input.key !in db.inbox {
        db := db.(inbox := db.inbox[input.key := InboxRow(input.body, now, None)]);
        return Ok(InboxInserted);
      }
      var row := db.inbox[input.key];
      if row.body != input.body {
        return Err(InboxPayloadConflict);
      }
      if row.completedAt.Some? {
        return Ok(InboxAlreadyCompleted);
      }
      return Ok(InboxInserted);
    }

    method CompleteInbox(input: InboxInput, now: Time) returns (err: Option<Error>)
      modifies this`db
      ensures input.key in old(db).inbox && old(db).inbox[input.key].body == input.body ==>
                err == None && db == Completed(old(db), input, now)
      ensures !(input.key in old(db).inbox && old(db).inbox[input.key].body == input.body) ==>
                err == Some(InboxPayloadConflict) && db == old(db)
    {
      if input.key !in db.inbox || db.inbox[input.key].body != input.body {
        return Some(InboxPayloadConflict);
      }
      db := db.(inbox := db.inbox[input.key := db.inbox[input.key].(completedAt := Some(now))]);
      return None;
    }

    // --- reads ------------------------------------------------------------

    method LockWallet(id: Uuid) returns (r: Result<Wallet>)
      ensures id !in db.wallets ==> r == Err(NotFound)
      ensures WalletsOk(db) && id in db.wallets ==> r.Ok?
      ensures r.Ok? ==> id in db.wallets && fresh(r.value) && r.value.State() == db.wallets[id]
    {
      if id !in db.wallets {
        return Err(NotFound);
      }
      var row := db.wallets[id];
      if !IsCurrency(row.balance.currency) {
        return Err(InvalidMoney);
      }
      if row.id == NO_ID || row.playerId == NO_ID || row.version < 1 || row.createdAt == ZERO_TIME || row.updatedAt == ZERO_TIME ||
         row.balance.IsNegative() {
        return Err(InvalidWallet);
      }
      var wallet := new Wallet(row);
      return Ok(wallet);
    }

    /** scanTransaction on a row of the table. */
    method Scan(row: WagerState) returns (r: Result<WagerTransaction>)
      ensures match FromColumns(ToColumns(row))
              case Ok(state) => r.Ok? && fresh(r.value) && r.value.State() == state
              case Err(e) => r == Err(e)
    {
      var scanned := FromColumns(ToColumns(row));
      if scanned.Err? {
        return Err(scanned.error);
      }
      var transaction := new WagerTransaction(scanned.value);
      return Ok(transaction);
    }

    method FindByIdempotency(provider: string, key: string) returns (r: Result<Option<WagerTransaction>>)
      ensures WagersOk(db) && KeysOk(db) ==>
                && r.Ok?
                && (r.value.None? <==> ByKey(db.wagers, provider, key).None?)
                && (r.value.Some? ==> fresh(r.value.value) && r.value.value.State() == ByKey(db.wagers, provider, key).value)
    {
      var found := set id | id in db.wagers && HasKey(db.wagers[id], provider, key);
      if found == {} {
        assert forall id :: id in db.wagers && HasKey(db.wagers[id], provider, key) ==> id in found;
        return Ok(None);
      }
      var id :| id in found;
      if KeysOk(db) { KeyIsUnique(db, provider, key, id); }
      var scanned := Scan(db.wagers[id]);
      return if scanned.Ok? then Ok(Some(scanned.value)) else Err(scanned.error);
    }

    method FindByExternalId(provider: string, externalId: string) returns (r: Result<Option<WagerTransaction>>)
      ensures WagersOk(db) && KeysOk(db) ==>
                && r.Ok?
                && (r.value.None? <==> ByExternalId(db.wagers, provider, externalId).None?)
                && (r.value.Some? ==> fresh(r.value.value) && r.value.value.State() == ByExternalId(db.wagers,
                    provider, externalId).value)
    {
      var found := set id | id in db.wagers && HasExternalId(db.wagers[id], provider, externalId);
      if found == {} {
        assert forall id :: id in db.wagers && HasExternalId(db.wagers[id], provider, externalId) ==> id in found;
        return Ok(None);
      }
      var id :| id in found;
      if KeysOk(db) { ExternalIdIsUnique(db, provider, externalId, id); }
      var scanned := Scan(db.wagers[id]);
      return if scanned.Ok? then Ok(Some(scanned.value)) else Err(scanned.error);
    }

    /** The values of the reference, for the checks of the service. */
    method FindReference(provider: string, externalId: string) returns (r: Result<Option<WagerState>>)
      ensures WagersOk(db) && KeysOk(db) ==> r == Ok(ByExternalId(db.wagers, provider, externalId))
    {
      var found := FindByExternalId(provider, externalId);
      if found.Err? {
        return Err(found.error);
      }
      return Ok(if found.value.Some? then Some(found.value.value.State()) else None);
    }

    method LockTransaction(id: Uuid) returns (r: Result<WagerTransaction>)
      ensures id !in db.wagers ==> r == Err(NotFound)
      ensures WagersOk(db) && id in db.wagers ==>
                r.Ok? && fresh(r.value) && r.value.State() == db.wagers[id]
    {
      if id !in db.wagers {
        return Err(NotFound);
      }
      r := Scan(db.wagers[id]);
    }

    method SuccessfulReversalExists(reference: Uuid) returns (exists_: bool)
      ensures exists_ == ReversalExists(db.wagers, reference)
    {
      exists_ := exists r :: r in db.wagers && IsReversalOf(db.wagers[r], reference);
    }

    // --- triggers ---------------------------------------------------------

    /** enforce_wager_wallet_identity. */
    method EnforceWalletIdentity(t: WagerState) returns (ok: bool)
      ensures ok <==> t.status.Rejected? || (t.walletId in db.wallets && IdentityMatches(t, db.wallets[t.walletId]))
    {
      if t.status != Rejected {
        if t.walletId !in db.wallets {
          return false;
        }
        var wallet := db.wallets[t.walletId];
        if wallet.playerId != t.playerId || wallet.balance.currency != t.money.currency {
          return false;
        }
      }
      return true;
    }

    /** enforce_ledger_transaction; a comparison with an absent result does not raise. */
    method EnforceLedgerTransaction(e: LedgerEntry) returns (ok: bool)
      ensures e.transactionId !in db.wagers ==> !ok
      ensures e.transactionId in db.wagers && LedgerTrigger(db, e) ==> ok
      ensures ok && WagerChecks(db.wagers[e.transactionId]) ==> LedgerTrigger(db, e)
    {
      if e.transactionId !in db.wagers {
        return false;
      }
      var t := db.wagers[e.transactionId];
      if t.status != Processed || t.kind == Loss {
        return false;
      }
      if e.walletId != t.walletId || e.money.currency != t.money.currency || e.money.minor != t.money.minor ||
         (t.result.Some? && e.after.minor != t.result.value.minor) {
        return false;
      }
      var expected: Option<Direction> := None;
      match t.kind {
        case Bet => expected := Some(Debit);
        case Opening => expected := Some(Credit);
        case Win => expected := Some(Credit);
        case Refund => expected := Some(Credit);
        case Rollback =>
          if t.referenceId !in db.wagers {
            return false;
          }
          expected := if db.wagers[t.referenceId].kind == Bet then Some(Credit) else Some(Debit);
        case _ =>
      }
      return expected == Some(e.direction) || (expected == None && t.kind.UnknownKind?);
    }

    /** The credits minus the debits of a wallet. */
    method LedgerBalance(wallet: Uuid) returns (balance: int)
      ensures balance == Sum(db.ledger, wallet)
    {
      balance := 0;
      var i := 0;
      while i < |db.ledger|
        invariant 0 <= i <= |db.ledger|
        invariant balance == Sum(db.ledger[..i], wallet)
      {
        var e := db.ledger[i];
        assert db.ledger[..i + 1] == db.ledger[..i] + [e];
        SumAppend(db.ledger[..i], e, wallet);
        if e.walletId == wallet {
          balance := balance + if e.direction == Credit then e.money.minor else 0 - (e.money.minor as int);
        }
        i := i + 1;
      }
      assert db.ledger[..i] == db.ledger;
    }

    /** enforce_wallet_balance_ledger_consistency, for the final value of a row. */
    method EnforceWalletBalance(wallet: Uuid) returns (ok: bool)
      ensures ok <==> BalanceMatchesLedger(db, wallet)
    {
      if wallet !in db.wallets {
        return true;
      }
      var balance := LedgerBalance(wallet);
      return balance == db.wallets[wallet].balance.minor;
    }

    /** enforce_processed_transaction_ledger. */
    method EnforceProcessedLedger(id: Uuid) returns (ok: bool)
      ensures ok <==> ProcessedHasEntry(db, id)
    {
      if id !in db.wagers || db.wagers[id].status != Processed || db.wagers[id].kind == Loss {
        return true;
      }
      var i := 0;
      while i < |db.ledger|
        invariant 0 <= i <= |db.ledger|
        invariant forall k :: 0 <= k < i ==> db.ledger[k].transactionId != id
      {
        if db.ledger[i].transactionId == id {
          return true;
        }
        i := i + 1;
      }
      return false;
    }

    // --- writes -----------------------------------------------------------

    method InsertTransaction(t: WagerState) returns (err: Option<Error>)
      modifies this`db, this`touchedWagers
      ensures err == None <==> t.id !in old(db).wagers && WagerChecks(t) && WagerLinks(old(db), t) && UniqueIndexes(old(db), t)
      ensures err == None ==> db == old(db).(wagers := old(db).wagers[t.id := t])
      ensures err == None ==> touchedWagers == old(touchedWagers) + {t.id}
      ensures err != None ==> db == old(db)
    {
      var identified := EnforceWalletIdentity(t);
      if !identified || t.walletId !in db.wallets || (t.referenceId != NO_ID &&
          t.referenceId !in db.wagers) || !WagerChecks(t) {
        return Some(SchemaGuard);
      }
      if t.id in db.wagers || !UniqueIndexes(db, t) {
        return Some(Conflict);
      }
      db := db.(wagers := db.wagers[t.id := t]);
      touchedWagers := touchedWagers + {t.id};
      return None;
    }

    method UpdateTransaction(t: WagerState) returns (err: Option<Error>)
      modifies this`db, this`touchedWagers
      ensures err == None <==> t.id in old(db).wagers && WagerChecks(t) && WagerLinks(old(db), t) && UniqueIndexes(old(db), t)
      ensures err == None ==> db == old(db).(wagers := old(db).wagers[t.id := t])
      ensures err == None ==> touchedWagers == old(touchedWagers) + {t.id}
      ensures err != None ==> db == old(db)
    {
      if t.id !in db.wagers {
        return Some(NotFound);
      }
      var identified := EnforceWalletIdentity(t);
      if !identified || t.walletId !in db.wallets || (t.referenceId != NO_ID &&
          t.referenceId !in db.wagers) || !WagerChecks(t) {
        return Some(SchemaGuard);
      }
      if !UniqueIndexes(db, t) {
        return Some(Conflict);
      }
      db := db.(wagers := db.wagers[t.id := t]);
      touchedWagers := touchedWagers + {t.id};
      return None;
    }

    /** The update is guarded by the version that precedes the new one, a bigint expression. */
    method UpdateWallet(wallet: Wallet) returns (err: Option<Error>)
      modifies this`db, this`touchedWallets
      ensures var w := wallet.State();
              if w.version == MIN_INT64 then err == Some(IntegerOutOfRange)
              else if w.id in old(db).wallets && old(db).wallets[w.id].version == w.version - 1 then
                err == if w.balance.minor >= 0 && w.version >= 1 then None else Some(SchemaGuard)
              else err == Some(Conflict)
      ensures err == None ==>
                && wallet.id in old(db).wallets
                && touchedWallets == old(touchedWallets) + {wallet.id}
                && db == old(db).(wallets := old(db).wallets[wallet.id :=
                     old(db).wallets[wallet.id].(balance := Money(wallet.balance.minor,
                         old(db).wallets[wallet.id].balance.currency),
                                                 version := wallet.version, updatedAt := wallet.updatedAt)])
      ensures err != None ==> db == old(db)
    {
      if wallet.version == MIN_INT64 {
        return Some(IntegerOutOfRange);
      }
      if wallet.id !in db.wallets || db.wallets[wallet.id].version != wallet.version - 1 {
        return Some(Conflict);
      }
      if wallet.balance.minor < 0 || wallet.version < 1 {
        return Some(SchemaGuard);
      }
      var row := db.wallets[wallet.id].(balance := Money(wallet.balance.minor, db.wallets[wallet.id].balance.currency),
                                        version := wallet.version, updatedAt := wallet.updatedAt);
      db := db.(wallets := db.wallets[wallet.id := row]);
      touchedWallets := touchedWallets + {wallet.id};
      return None;
    }

    method InsertWallet(w: WalletState) returns (err: Option<Error>)
      modifies this`db, this`touchedWallets
      ensures err == (if !WalletChecks(w) then Some(SchemaGuard)
                      else if w.id in old(db).wallets || WalletTaken(old(db), w.playerId,
                          w.balance.currency) then Some(Conflict)
                      else None)
      ensures err == None ==> db == old(db).(wallets := old(db).wallets[w.id := w])
      ensures err == None ==> touchedWallets == old(touchedWallets) + {w.id}
      ensures err != None ==> db == old(db)
    {
      if !WalletChecks(w) {
        return Some(SchemaGuard);
      }
      if w.id in db.wallets || WalletTaken(db, w.playerId, w.balance.currency) {
        return Some(Conflict);
      }
      db := db.(wallets := db.wallets[w.id := w]);
      touchedWallets := touchedWallets + {w.id};
      return None;
    }

    method InsertLedger(e: LedgerEntry) returns (err: Option<Error>)
      modifies this`db
      ensures LedgerUnique(old(db), e) && LedgerGuards(old(db), e) ==> err == None
      ensures err == None ==> db == old(db).(ledger := old(db).ledger + [e]) && LedgerUnique(old(db), e)
      ensures err == None && e.transactionId in old(db).wagers && WagerChecks(old(db).wagers[e.transactionId]) ==>
                LedgerGuards(old(db), e)
      ensures err != None ==> db == old(db)
    {
      var consistent := EnforceLedgerTransaction(e);
      if !consistent || e.money.minor <= 0 || e.before.minor < 0 || e.after.minor < 0 ||
         e.after.minor != e.before.minor + e.Delta() ||
         e.walletId !in db.wallets || db.wallets[e.walletId].balance.currency != e.money.currency {
        return Some(SchemaGuard);
      }
      if !LedgerUnique(db, e) {
        return Some(Conflict);
      }
      db := db.(ledger := db.ledger + [e]);
      return None;
    }

    method InsertOutbox(e: Event) returns (err: Option<Error>)
      modifies this`db
      ensures err == None <==> forall i :: 0 <= i < |old(db).outbox| ==> old(db).outbox[i].id != e.id
      ensures err == None ==> db == old(db).(outbox := old(db).outbox + [e])
      ensures err != None ==> db == old(db)
    {
      if exists i :: 0 <= i < |db.outbox| && db.outbox[i].id == e.id {
        return Some(Conflict);
      }
      db := db.(outbox := db.outbox + [e]);
      return None;
    }

    /** The deferred triggers run at commit, on the rows as they are then. */
    method Deferred() returns (ok: bool)
      ensures ok <==> (forall id :: id in touchedWallets ==> BalanceMatchesLedger(db, id)) &&
                      (forall id :: id in touchedWagers ==> ProcessedHasEntry(db, id))
    {
      var wallets, wagers := touchedWallets, touchedWagers;
      ok := true;
      while wallets != {}
        invariant wallets <= touchedWallets
        invariant ok <==> forall id :: id in touchedWallets - wallets ==> BalanceMatchesLedger(db, id)
        decreases wallets
      {
        var id :| id in wallets;
        var matches := EnforceWalletBalance(id);
        wallets := wallets - {id};
        ok := ok && matches;
      }
      while wagers != {}
        invariant wagers <= touchedWagers
        invariant ok <==> (forall id :: id in touchedWallets ==> BalanceMatchesLedger(db, id)) &&
                          (forall id :: id in touchedWagers - wagers ==> ProcessedHasEntry(db, id))
        decreases wagers
      {
        var id :| id in wagers;
        var entered := EnforceProcessedLedger(id);
        wagers := wagers - {id};
        ok := ok && entered;
      }
    }
  }

  /** One wallet per player and currency. */
  predicate WalletTaken(db: Db, player: Uuid, currency: string) {
    exists id :: id in db.wallets && db.wallets[id].playerId == player && db.wallets[id].balance.currency == currency
  }

  lemma KeyIsUnique(db: Db, provider: string, key: string, id: Uuid)
    requires KeysOk(db) && id in db.wagers && HasKey(db.wagers[id], provider, key)
    ensures ByKey(db.wagers, provider, key) == Some(db.wagers[id])
  {
    var other :| other in db.wagers && db.wagers[other] == ByKey(db.wagers, provider, key).value &&
        HasKey(db.wagers[other], provider, key);
  }

  lemma ExternalIdIsUnique(db: Db, provider: string, externalId: string, id: Uuid)
    requires KeysOk(db) && id in db.wagers && HasExternalId(db.wagers[id], provider, externalId)
    ensures ByExternalId(db.wagers, provider, externalId) == Some(db.wagers[id])
  {
    var other :| other in db.wagers && db.wagers[other] == ByExternalId(db.wagers, provider, externalId).value &&
                 HasExternalId(db.wagers[other], provider, externalId);
  }

  class Store {
    var db: Db

    constructor ()
      ensures db == EMPTY
    {
      db := EMPTY;
    }

    /** Commit a transaction: the deferred triggers run, then its database becomes the committed one. */
    method CommitWork(tx: TxStore) returns (err: Option<Error>)
      modifies this
      ensures err == None <==> (forall id :: id in tx.touchedWallets ==> BalanceMatchesLedger(tx.db, id)) &&
                               (forall id :: id in tx.touchedWagers ==> ProcessedHasEntry(tx.db, id))
      ensures Valid(tx.db) ==> err == None
      ensures db == if err == None then tx.db else old(db)
    {
      var ok := tx.Deferred();
      if Valid(tx.db) { ValidMeetsDeferred(tx.db); }
      if !ok {
        return Some(SchemaGuard);
      }
      db := tx.db;
      return None;
    }
  }

  /** The deferred triggers find nothing to refuse in a valid database. */
  lemma ValidMeetsDeferred(db: Db)
    requires Valid(db)
    ensures forall id :: BalanceMatchesLedger(db, id) && ProcessedHasEntry(db, id)
  {
    ValidMeans(db);
  }
}
