/**
 The committed database: wallets, wager transactions, the append-only ledger, the
 inbox and the outbox, each in commit order, with the constraints of the schema.
 A service call writes to it through the write sets defined here.
 */
module Database {
  import opened Base
  import opened MoneyValue
  import opened Domain
  import opened Contracts

  datatype InboxRow = InboxRow(body: Body, receivedAt: Time, completedAt: Option<Time>)

  datatype Db = Db(
    wallets: map<Uuid, WalletState>,
    wagers: map<Uuid, WagerState>,
    ledger: seq<LedgerEntry>,
    inbox: map<InboxKey, InboxRow>,
    outbox: seq<Event>)

  const EMPTY: Db := Db(map[], map[], [], map[], [])

  // --- queries ------------------------------------------------------------

  predicate HasKey(w: WagerState, provider: string, key: string) {
    w.kind.External() && w.providerId == provider && w.idempotencyKey == key
  }

  predicate HasExternalId(w: WagerState, provider: string, externalId: string) {
    w.kind.External() && w.providerId == provider && w.externalId == externalId
  }

  ghost function ByKey(wagers: map<Uuid, WagerState>, provider: string, key: string): (r: Option<WagerState>)
    ensures r.Some? ==> exists id :: id in wagers && wagers[id] == r.value && HasKey(wagers[id], provider, key)
    ensures r.None? ==> forall id :: id in wagers ==> !HasKey(wagers[id], provider, key)
  {
    if exists id :: id in wagers && HasKey(wagers[id], provider, key) then
      var id :| id in wagers && HasKey(wagers[id], provider, key);
      Some(wagers[id])
    else None
  }

  ghost function ByExternalId(wagers: map<Uuid, WagerState>, provider: string, externalId: string): (r: Option<WagerState>)
    ensures r.Some? ==> exists id :: id in wagers && wagers[id] == r.value && HasExternalId(wagers[id], provider, externalId)
    ensures r.None? ==> forall id :: id in wagers ==> !HasExternalId(wagers[id], provider, externalId)
  {
    if exists id :: id in wagers && HasExternalId(wagers[id], provider, externalId) then
      var id :| id in wagers && HasExternalId(wagers[id], provider, externalId);
      Some(wagers[id])
    else None
  }

  /** A processed refund or rollback. */
  predicate IsReversal(w: WagerState) {
    w.status.Processed? && w.kind.Reversing()
  }

  predicate IsReversalOf(w: WagerState, id: Uuid) {
    IsReversal(w) && w.referenceId == id
  }

  /** SuccessfulReversalExists. */
  predicate ReversalExists(wagers: map<Uuid, WagerState>, id: Uuid) {
    exists r :: r in wagers && IsReversalOf(wagers[r], id)
  }

  /** Which way a processed transaction moves money; losses move none. */
  function DirectionFor(w: WagerState, reference: Option<WagerState>): Option<Direction> {
    match w.kind
    case Bet => Some(Debit)
    case Opening => Some(Credit)
    case Win => Some(Credit)
    case Refund => Some(Credit)
    case Rollback => if reference.None? then None else if reference.value.kind.Bet? then Some(Credit) else Some(Debit)
    case Loss => None
    case UnknownKind(_) => None
  }

  function Lookup(wagers: map<Uuid, WagerState>, id: Uuid): Option<WagerState> {
    if id in wagers then Some(wagers[id]) else None
  }

  // --- ledger sums --------------------------------------------------------

  /** Credits minus debits of a wallet. */
  function Sum(ledger: seq<LedgerEntry>, wallet: Uuid): int {
    if ledger == [] then 0
    else
      var last := ledger[|ledger| - 1];
      Sum(ledger[..|ledger| - 1], wallet) + (if last.walletId == wallet then last.Delta() else 0)
  }

  lemma SumAppend(ledger: seq<LedgerEntry>, e: LedgerEntry, wallet: Uuid)
    ensures Sum(ledger + [e], wallet) == Sum(ledger, wallet) + (if e.walletId == wallet then e.Delta() else 0)
  {
    assert (ledger + [e])[..|ledger|] == ledger;
  }

  // --- constraints of the schema ------------------------------------------

  predicate WalletChecks(w: WalletState) {
    IsCurrencyPattern(w.balance.currency) && w.balance.minor >= 0 && w.version >= 1
  }

  /** The CHECKs, and a currency that can be read back. */
  predicate SoundWallet(w: WalletState) {
    WalletChecks(w) && IsCurrency(w.balance.currency)
  }

  /** The row CHECKs of wager_transactions, with the result currency guard. */
  predicate WagerChecks(w: WagerState) {
    && IsCurrencyPattern(w.money.currency)
    && (w.result.Some? ==> w.result.value.minor >= 0 && IsCurrencyPattern(w.result.value.currency))
    && (if w.kind.Opening?
        then w.providerId == "" && w.externalId == "" && w.idempotencyKey == "" && w.payloadHash == None &&
             w.roundId == "" && w.gameId == "" && w.referenceExternalId == "" && w.referenceId == NO_ID
        else w.kind.External() && w.payloadHash.Some?)
    && (if w.kind.Loss? then w.money.minor == 0 else w.money.minor > 0)
    && (w.kind.Reversing() ==> w.referenceExternalId != "")
    && (!w.kind.Win? && !w.kind.Reversing() ==> w.referenceExternalId == "" && w.referenceId == NO_ID)
    && (w.status.Terminal() <==> w.result.Some?)
    && ((w.status.Rejected? || w.status.Failed?) <==> !w.failureCode.NoFailure?)
    && (w.result.Some? ==> w.status.Rejected? || w.result.value.currency == w.money.currency)
  }

  predicate IdentityMatches(w: WagerState, wallet: WalletState) {
    wallet.playerId == w.playerId && wallet.balance.currency == w.money.currency
  }

  /** Foreign keys and the wallet identity trigger. */
  predicate WagerLinks(db: Db, w: WagerState) {
    && w.walletId in db.wallets
    && (!w.status.Rejected? ==> IdentityMatches(w, db.wallets[w.walletId]))
    && (w.referenceId != NO_ID ==> w.referenceId in db.wagers)
  }

  /** The four partial unique indexes, against another row. */
  predicate NoClash(a: WagerState, b: WagerState) {
    && (a.kind.External() ==> !HasKey(b, a.providerId, a.idempotencyKey) && !HasExternalId(b, a.providerId, a.externalId))
    && !(a.kind.Opening? && b.kind.Opening? && a.walletId == b.walletId)
    && !(IsReversal(a) && IsReversal(b) && a.referenceId == b.referenceId && a.referenceId != NO_ID)
  }

  predicate UniqueIndexes(db: Db, w: WagerState) {
    forall id :: id in db.wagers && id != w.id ==> NoClash(w, db.wagers[id])
  }

  /** CHECKs, foreign keys and uniqueness of wallet_ledger_entries, then the trigger of the third migration. */
  predicate LedgerUnique(db: Db, e: LedgerEntry) {
    forall i :: 0 <= i < |db.ledger| ==>
      db.ledger[i].id != e.id && !(db.ledger[i].walletId == e.walletId && db.ledger[i].transactionId == e.transactionId)
  }

  predicate LedgerGuards(db: Db, e: LedgerEntry) {
    && e.money.minor > 0 && e.before.minor >= 0 && e.after.minor >= 0
    && e.after.minor == e.before.minor + e.Delta()
    && e.walletId in db.wallets && db.wallets[e.walletId].balance.currency == e.money.currency
    && e.transactionId in db.wagers
    && LedgerTrigger(db, e)
  }

  /** What the trigger demands of an entry: the movement of a processed transaction, in the right direction. */
  predicate LedgerTrigger(db: Db, e: LedgerEntry)
    requires e.transactionId in db.wagers
  {
    var w := db.wagers[e.transactionId];
    && w.status.Processed? && !w.kind.Loss?
    && e.walletId == w.walletId && e.money == w.money && w.result.Some? && e.after.minor == w.result.value.minor
    && DirectionFor(w, Lookup(db.wagers, w.referenceId)) == Some(e.direction)
  }

  /** The deferred trigger on wallets. */
  predicate BalanceMatchesLedger(db: Db, wallet: Uuid) {
    wallet in db.wallets ==> db.wallets[wallet].balance.minor == Sum(db.ledger, wallet)
  }

  predicate HasEntry(ledger: seq<LedgerEntry>, transaction: Uuid) {
    exists i :: 0 <= i < |ledger| && ledger[i].transactionId == transaction
  }

  /** The deferred trigger on wager transactions. */
  predicate ProcessedHasEntry(db: Db, id: Uuid) {
    id in db.wagers && db.wagers[id].status.Processed? && !db.wagers[id].kind.Loss? ==> HasEntry(db.ledger, id)
  }

  // --- write sets ---------------------------------------------------------

  datatype Movement = Movement(wallet: WalletState, entry: LedgerEntry)

  /** What one wager commit writes, besides its inbox row. */
  datatype Write = Write(wager: WagerState, movement: Option<Movement>, events: seq<Event>)

  function Apply(db: Db, w: Write): Db {
    Db(if w.movement.Some? then db.wallets[w.movement.value.wallet.id := w.movement.value.wallet] else db.wallets,
       db.wagers[w.wager.id := w.wager],
       if w.movement.Some? then db.ledger + [w.movement.value.entry] else db.ledger,
       db.inbox,
       db.outbox + w.events)
  }
}
