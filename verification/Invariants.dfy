/**
 The invariant of the committed database, and the conditions under which a decision
 may be committed. Module Preservation proves that such commits keep the invariant.
 */
module Invariants {
  import opened Base
  import opened MoneyValue
  import opened Domain
  import opened Contracts
  import opened Database
  import opened Decisions

  // --- wallets and rows ---------------------------------------------------

  ghost predicate WalletsOk(db: Db) {
    && (forall id :: id in db.wallets ==>
          && var w := db.wallets[id];
          && w.id == id && id != NO_ID && w.playerId != NO_ID && SoundWallet(w)
          && w.createdAt != ZERO_TIME && w.updatedAt != ZERO_TIME)
    && (forall a, b :: a in db.wallets && b in db.wallets && a != b ==>
          !(db.wallets[a].playerId == db.wallets[b].playerId
            && db.wallets[a].balance.currency == db.wallets[b].balance.currency))
  }

  ghost predicate WagerOk(wallets: map<Uuid, WalletState>, w: WagerState) {
    && Rehydratable(w) && WagerChecks(w)
    && !w.status.Pending?
    && (w.kind.External() ==> w.roundId != "" && w.gameId != "")
    && w.walletId in wallets
    && (!w.status.Rejected? ==> IdentityMatches(w, wallets[w.walletId]))
    && (w.status.Rejected? ==> w.result.value.currency == wallets[w.walletId].balance.currency)
    && (w.status.PendingReference? || w.status.Failed? ==> w.referenceId == NO_ID)
    && (w.status.Failed? ==> w.attempts >= 1)
  }

  ghost predicate WagersOk(db: Db) {
    forall id :: id in db.wagers ==> db.wagers[id].id == id && WagerOk(db.wallets, db.wagers[id])
  }

  /** The stored hash is that of the business fields stored beside it. */
  ghost predicate SelfHashed(w: WagerState) {
    w.payloadHash == Some(Payload(w.money.Amount(), w.money.currency, w.externalId, w.gameId, w.kind, w.playerId,
                                  w.providerId, w.referenceExternalId, w.roundId, w.walletId))
  }

  ghost predicate HashesOk(db: Db) {
    forall id :: id in db.wagers && db.wagers[id].kind.External() ==> SelfHashed(db.wagers[id])
  }

  /** The unique indexes: one transaction per key, per external id, per opened wallet, one reversal per reference. */
  ghost predicate KeysOk(db: Db) {
    forall a, b :: a in db.wagers && b in db.wagers && a != b ==> NoClash(db.wagers[a], db.wagers[b])
  }

  /** Attempts never pass the configured maximum. */
  ghost predicate AttemptsOk(db: Db, maxAttempts: nat) {
    forall id :: id in db.wagers ==> db.wagers[id].attempts <= maxAttempts
  }

  // --- references ---------------------------------------------------------

  /** A resolved reference names a terminal transaction with the external identity asked for. */
  ghost predicate NamesTerminal(wagers: map<Uuid, WagerState>, w: WagerState) {
    w.referenceId != NO_ID ==>
      && w.referenceId in wagers && wagers[w.referenceId].status.Terminal()
      && HasExternalId(wagers[w.referenceId], w.providerId, w.referenceExternalId)
  }

  /** What a processed transaction has in common with its reference. */
  ghost predicate ReferenceHonoured(wagers: map<Uuid, WagerState>, w: WagerState) {
    && (w.referenceExternalId != "" <==> w.referenceId != NO_ID)
    && (w.referenceId != NO_ID ==>
          && w.referenceId in wagers
          && var r := wagers[w.referenceId];
          && r.status.Processed? && SameContext(w, r) && KindAllows(w.kind, r.kind)
          && (w.kind.Reversing() ==> r.money == w.money))
  }

  ghost predicate ReferencesOk(db: Db) {
    forall id :: id in db.wagers ==>
      && NamesTerminal(db.wagers, db.wagers[id])
      && (db.wagers[id].status.Processed? ==> ReferenceHonoured(db.wagers, db.wagers[id]))
  }

  // --- ledger -------------------------------------------------------------

  /** An entry states the movement of a processed transaction. */
  ghost predicate EntryMatches(wagers: map<Uuid, WagerState>, e: LedgerEntry) {
    && e.transactionId in wagers
    && var w := wagers[e.transactionId];
    && w.status.Processed? && !w.kind.Loss?
    && e.walletId == w.walletId && e.money == w.money && w.result == Some(e.after)
    && DirectionFor(w, Lookup(wagers, w.referenceId)) == Some(e.direction)
    && e.id != NO_ID && e.before.currency == e.money.currency && e.after.currency == e.money.currency
  }

  ghost predicate EntriesOk(db: Db) {
    && (forall i :: 0 <= i < |db.ledger| ==> EntryMatches(db.wagers, db.ledger[i]))
    && (forall i, j :: 0 <= i < j < |db.ledger| ==>
          db.ledger[i].transactionId != db.ledger[j].transactionId && db.ledger[i].id != db.ledger[j].id)
  }

  ghost predicate ProcessedOk(db: Db) {
    forall id :: id in db.wagers ==> ProcessedHasEntry(db, id)
  }

  /** The reference of a ledgered transaction was ledgered by an earlier commit. */
  ghost predicate OrderOk(db: Db) {
    forall j :: 0 <= j < |db.ledger| && db.ledger[j].transactionId in db.wagers &&
                db.wagers[db.ledger[j].transactionId].referenceId != NO_ID ==>
      HasEntry(db.ledger[..j], db.wagers[db.ledger[j].transactionId].referenceId)
  }

  ghost function Openings(wagers: map<Uuid, WagerState>): set<Uuid> {
    set id | id in wagers && wagers[id].kind.Opening?
  }

  /** Entries of a wallet that raised its version. */
  ghost function Moves(openings: set<Uuid>, ledger: seq<LedgerEntry>, wallet: Uuid): nat {
    if ledger == [] then 0
    else
      var last := ledger[|ledger| - 1];
      Moves(openings, ledger[..|ledger| - 1], wallet) +
      (if last.walletId == wallet && last.transactionId !in openings then 1 else 0)
  }

  ghost predicate Touches(ledger: seq<LedgerEntry>, wallet: Uuid) {
    exists i :: 0 <= i < |ledger| && ledger[i].walletId == wallet
  }

  /** Each entry starts at the sum of the earlier ones, stays in 0..MaxInt64, and an opening comes first. */
  ghost predicate ChainOk(openings: set<Uuid>, ledger: seq<LedgerEntry>) {
    ledger == [] ||
    var init, last := ledger[..|ledger| - 1], ledger[|ledger| - 1];
    && ChainOk(openings, init)
    && last.before.minor == Sum(init, last.walletId)
    && last.after.minor == last.before.minor + last.Delta()
    && 0 <= last.before.minor <= MAX_INT64 && 0 <= last.after.minor <= MAX_INT64 && last.money.minor > 0
    && (last.transactionId in openings ==> !Touches(init, last.walletId))
  }

  ghost predicate BalancesOk(db: Db) {
    && ChainOk(Openings(db.wagers), db.ledger)
    && (forall id :: id in db.wallets ==>
          && db.wallets[id].balance.minor == Sum(db.ledger, id)
          && db.wallets[id].version == 1 + Moves(Openings(db.wagers), db.ledger, id))
    && (forall i :: 0 <= i < |db.ledger| ==>
          && db.ledger[i].walletId in db.wallets
          && db.ledger[i].money.currency == db.wallets[db.ledger[i].walletId].balance.currency)
  }

  // --- outbox -------------------------------------------------------------

  predicate IsTerminalEvent(d: EventData) {
    d.WagerProcessed? || d.WagerRejected? || d.WagerFailed?
  }

  /** A terminal (or pending) event about a transaction. */
  predicate Counts(d: EventData, id: Uuid, terminal: bool) {
    (if terminal then IsTerminalEvent(d) else d.WagerPendingReference?) && d.transactionId == id
  }

  /** How many terminal (or pending) events speak of a transaction. */
  ghost function CountEvents(outbox: seq<Event>, id: Uuid, terminal: bool): nat {
    if outbox == [] then 0
    else
      CountEvents(outbox[..|outbox| - 1], id, terminal) +
      (if Counts(outbox[|outbox| - 1].data, id, terminal) then 1 else 0)
  }

  /** An event about a transaction says what its row says. */
  ghost predicate Faithful(wagers: map<Uuid, WagerState>, e: Event) {
    && (!e.data.WalletBalanceChanged? ==>
          && e.data.transactionId in wagers
          && e.aggregateId == e.data.transactionId
          && var w := wagers[e.data.transactionId];
          && (IsTerminalEvent(e.data) ==>
                w.status.Terminal() && w.result.Some? && e.data == TerminalData(w, w.result.value))
          && (e.data.WagerPendingReference? ==>
                e.data == PendingData(w).(status := PendingReference, nextAttempt := e.data.nextAttempt)
                && e.data.nextAttempt.Some?))
    && (e.data.WalletBalanceChanged? ==> e.aggregateId == e.data.walletId)
  }

  /** The balance events, in outbox order. */
  ghost function Feed(outbox: seq<Event>): seq<EventData> {
    if outbox == [] then []
    else
      var d := outbox[|outbox| - 1].data;
      Feed(outbox[..|outbox| - 1]) + (if d.WalletBalanceChanged? then [d] else [])
  }

  /** What the balance events should be: one per ledger entry, with the version it gave the wallet. */
  ghost function Announced(openings: set<Uuid>, ledger: seq<LedgerEntry>): seq<EventData> {
    if ledger == [] then []
    else
      var last := ledger[|ledger| - 1];
      Announced(openings, ledger[..|ledger| - 1]) + [ChangedData(last, 1 + Moves(openings, ledger, last.walletId))]
  }

  /** One terminal event for a terminal transaction, one pending event for one that ever waited. */
  ghost predicate CountsOk(db: Db, id: Uuid)
    requires id in db.wagers
  {
    && CountEvents(db.outbox, id, true) == (if db.wagers[id].status.Terminal() then 1 else 0)
    && CountEvents(db.outbox, id, false) == (if db.wagers[id].attempts >= 1 then 1 else 0)
  }

  ghost predicate OutboxOk(db: Db) {
    && (forall i :: 0 <= i < |db.outbox| ==> Faithful(db.wagers, db.outbox[i]) && db.outbox[i].id != NO_ID)
    && (forall i, j :: 0 <= i < j < |db.outbox| ==> db.outbox[i].id != db.outbox[j].id)
    && (forall id :: id in db.wagers ==> CountsOk(db, id))
    && Feed(db.outbox) == Announced(Openings(db.wagers), db.ledger)
  }

  // --- the whole ----------------------------------------------------------

  /** What every call takes for granted about the rows it reads. */
  ghost predicate Readable(db: Db) {
    && (forall id :: id in db.wallets ==> db.wallets[id].id == id && db.wallets[id].balance.minor >= 0)
    && (forall id :: id in db.wagers ==>
          && db.wagers[id].id == id && db.wagers[id].walletId in db.wallets
          && (db.wagers[id].status.Terminal() ==> db.wagers[id].result.Some?))
  }

  /** The rules of the database, by what they speak of. */
  datatype Rule =
    | WalletRule | WagerRule | HashRule | KeyRule | ReferenceRule
    | EntryRule | ProcessedRule | OrderRule | BalanceRule | OutboxRule

  ghost predicate Obeys(db: Db, rule: Rule) {
    match rule
    case WalletRule => WalletsOk(db)
    case WagerRule => WagersOk(db)
    case HashRule => HashesOk(db)
    case KeyRule => KeysOk(db)
    case ReferenceRule => ReferencesOk(db)
    case EntryRule => EntriesOk(db)
    case ProcessedRule => ProcessedOk(db)
    case OrderRule => OrderOk(db)
    case BalanceRule => BalancesOk(db)
    case OutboxRule => OutboxOk(db)
  }

  /** The database obeys every rule. */
  ghost predicate Valid(db: Db) {
    Readable(db) && forall rule: Rule :: Obeys(db, rule)
  }

  lemma ValidMeans(db: Db)
    requires Valid(db)
    ensures WalletsOk(db) && WagersOk(db) && HashesOk(db) && KeysOk(db) && ReferencesOk(db)
    ensures EntriesOk(db) && ProcessedOk(db) && OrderOk(db) && BalancesOk(db) && OutboxOk(db)
  {
    assert Obeys(db, HashRule);
    RowsMean(db);
    LedgerMeans(db);
  }

  lemma RowsMean(db: Db)
    requires forall rule: Rule :: Obeys(db, rule)
    ensures WalletsOk(db) && WagersOk(db) && KeysOk(db) && ReferencesOk(db)
  {
    assert Obeys(db, WalletRule) && Obeys(db, WagerRule) && Obeys(db, KeyRule) && Obeys(db, ReferenceRule);
  }

  lemma LedgerMeans(db: Db)
    requires forall rule: Rule :: Obeys(db, rule)
    ensures EntriesOk(db) && ProcessedOk(db) && OrderOk(db) && BalancesOk(db) && OutboxOk(db)
  {
    assert Obeys(db, EntryRule) && Obeys(db, ProcessedRule) && Obeys(db, OrderRule);
    assert Obeys(db, BalanceRule) && Obeys(db, OutboxRule);
  }

  lemma RulesMakeValid(db: Db)
    requires WalletsOk(db) && WagersOk(db) && HashesOk(db) && KeysOk(db) && ReferencesOk(db)
    requires EntriesOk(db) && ProcessedOk(db) && OrderOk(db) && BalancesOk(db) && OutboxOk(db)
    ensures Valid(db)
  {
    forall id | id in db.wagers
      ensures db.wagers[id].id == id && db.wagers[id].walletId in db.wallets
      ensures db.wagers[id].status.Terminal() ==> db.wagers[id].result.Some?
    {
      assert WagerOk(db.wallets, db.wagers[id]);
    }
    forall rule: Rule
      ensures Obeys(db, rule)
    {
      match rule
      case _ =>
    }
  }

  // --- what may be committed ----------------------------------------------

  /** The shape that NewWagerTransaction gives. */
  ghost predicate NewlyMade(w: WagerState) {
    && w.kind.External() && w.id != NO_ID && w.walletId != NO_ID && w.playerId != NO_ID
    && w.providerId != "" && w.externalId != "" && w.idempotencyKey != "" && w.payloadHash.Some?
    && w.roundId != "" && w.gameId != ""
    && ValidateAmountForKind(w.kind, w.money) == None
    && (w.kind.Reversing() ==> w.referenceExternalId != "")
    && (!w.kind.Win? && !w.kind.Reversing() ==> w.referenceExternalId == "")
    && w.referenceId == NO_ID && w.status.Pending? && w.failureCode.NoFailure? && w.result == None
    && w.attempts == 0 && w.nextAttempt == None && w.createdAt != ZERO_TIME && w.updatedAt != ZERO_TIME
  }

  ghost predicate KeysFree(wagers: map<Uuid, WagerState>, w: WagerState) {
    forall id :: id in wagers ==>
      !HasKey(wagers[id], w.providerId, w.idempotencyKey) && !HasExternalId(wagers[id], w.providerId, w.externalId)
  }

  /** The transaction is new with free keys, or it is the pending row as stored. */
  ghost predicate Admissible(db: Db, w: WagerState, insert: bool) {
    && w.walletId in db.wallets
    && (if insert then w.id !in db.wagers && NewlyMade(w) && SelfHashed(w) && KeysFree(db.wagers, w)
        else w.id in db.wagers && db.wagers[w.id] == w && w.status.PendingReference?)
  }

  ghost predicate IdsFree(db: Db, meta: Meta) {
    && meta.now != ZERO_TIME && meta.entryId != NO_ID && meta.firstEvent != NO_ID && meta.secondEvent != NO_ID
    && meta.firstEvent != meta.secondEvent
    && (forall i :: 0 <= i < |db.ledger| ==> db.ledger[i].id != meta.entryId)
    && (forall i :: 0 <= i < |db.outbox| ==> db.outbox[i].id != meta.firstEvent && db.outbox[i].id != meta.secondEvent)
  }

  /** The reference that a decision links, as the transaction asked for it. */
  ghost predicate LinkOk(db: Db, w: WagerState, referenceId: Uuid) {
    referenceId != NO_ID ==> w.referenceExternalId != "" && NamesTerminal(db.wagers, w.(referenceId := referenceId))
  }

  ghost predicate Justified(db: Db, w: WagerState, d: Decision, meta: Meta)
    requires w.walletId in db.wallets
  {
    var wallet := db.wallets[w.walletId];
    match d
    case Hold(next) => w.referenceExternalId != "" && IdentityMatches(w, wallet)
    case Refuse(referenceId, code) => !code.NoFailure? && LinkOk(db, w, referenceId)
    case Exhaust => !meta.insert
    case Settle(referenceId, direction) =>
      && IdentityMatches(w, wallet)
      && LinkOk(db, w, referenceId)
      && ReferenceHonoured(db.wagers, w.(referenceId := referenceId))
      && (w.kind.Reversing() ==> !ReversalExists(db.wagers, referenceId))
      && direction == DirectionFor(w, Lookup(db.wagers, referenceId))
      && 0 <= Target(w, wallet, direction) <= MAX_INT64
  }

  /** The row of a decision may be written. */
  ghost predicate LegalRow(db: Db, w: WagerState, d: Decision, meta: Meta) {
    Admissible(db, w, meta.insert) && IdsFree(db, meta) && Justified(db, w, d, meta)
  }

  /** So may its movement: the version of the wallet can still be raised. */
  ghost predicate Legal(db: Db, w: WagerState, d: Decision, meta: Meta) {
    LegalRow(db, w, d, meta) && VersionFits(db.wallets[w.walletId], d)
  }

  /** The database after the decision. */
  ghost function Commit(db: Db, w: WagerState, d: Decision, meta: Meta): Db
    requires w.walletId in db.wallets && Feasible(w, db.wallets[w.walletId], d)
  {
    Apply(db, Effect(w, db.wallets[w.walletId], d, meta))
  }
}
