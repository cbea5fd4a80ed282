/**
 What every decision leaves, column by column and event by event, and what is decided
 in each case, both in terms of the stored columns alone.
 */
module Contents {
  import opened Base
  import opened Backoff
  import opened MoneyValue
  import opened Domain
  import opened Contracts
  import opened Database
  import opened Decisions
  import opened Invariants

  // --- rows ---------------------------------------------------------------

  /** What a request said, and when it came. */
  predicate SameRequest(a: WagerState, b: WagerState) {
    && a.id == b.id && a.providerId == b.providerId && a.externalId == b.externalId
    && a.idempotencyKey == b.idempotencyKey && a.payloadHash == b.payloadHash
    && a.walletId == b.walletId && a.playerId == b.playerId && a.roundId == b.roundId && a.gameId == b.gameId
    && a.kind == b.kind && a.money == b.money && a.referenceExternalId == b.referenceExternalId
    && a.createdAt == b.createdAt
  }

  ghost predicate OtherRowsStay(db: Db, after: Db, id: Uuid) {
    && after.wagers.Keys == db.wagers.Keys + {id}
    && forall other :: other in db.wagers && other != id ==> after.wagers[other] == db.wagers[other]
  }

  ghost predicate MoneyStays(db: Db, after: Db) {
    after.wallets == db.wallets && after.ledger == db.ledger
  }

  // --- events -------------------------------------------------------------

  /** The terminal event of a row repeats its columns. */
  predicate TellsTerminal(d: EventData, w: WagerState) {
    match w.status
    case Processed =>
      && d.WagerProcessed? && d.transactionId == w.id && d.externalId == w.externalId && d.providerId == w.providerId
      && d.walletId == w.walletId && d.playerId == w.playerId && d.roundId == w.roundId && d.gameId == w.gameId
      && d.kind == w.kind && d.money == w.money && d.status == w.status && w.result == Some(d.balance)
      && d.referenceId == w.referenceId && d.referenceExternalId == w.referenceExternalId
    case Rejected =>
      && d.WagerRejected? && d.transactionId == w.id && d.externalId == w.externalId && d.providerId == w.providerId
      && d.walletId == w.walletId && d.kind == w.kind && d.status == w.status
      && d.failureCode == w.failureCode && w.result == Some(d.balance)
    case Failed =>
      && d.WagerFailed? && d.transactionId == w.id && d.externalId == w.externalId && d.providerId == w.providerId
      && d.walletId == w.walletId && d.kind == w.kind && d.status == w.status
      && d.failureCode == w.failureCode && w.result == Some(d.balance)
    case _ => false
  }

  /** The pending event of a row repeats what it waits for. */
  predicate TellsPending(d: EventData, w: WagerState) {
    && d.WagerPendingReference? && d.transactionId == w.id && d.externalId == w.externalId && d.providerId == w.providerId
    && d.walletId == w.walletId && d.referenceExternalId == w.referenceExternalId && d.status.PendingReference?
  }

  /** The balance event of an entry repeats its columns. */
  predicate TellsEntry(d: EventData, e: LedgerEntry) {
    && d.WalletBalanceChanged? && d.walletId == e.walletId && d.transactionId == e.transactionId
    && d.direction == e.direction && d.money == e.money && d.before == e.before && d.after == e.after
  }

  predicate Stamped(e: Event, id: Uuid, aggregate: Uuid, correlation: Trace, causation: Trace, now: Time) {
    && e.id == id && e.aggregateId == aggregate && e.correlation == correlation && e.causation == causation
    && e.occurredAt == now
  }

  /** One more event, in last place. */
  ghost predicate AddsEvents(db: Db, after: Db, n: nat) {
    |after.outbox| == |db.outbox| + n && after.outbox[..|db.outbox|] == db.outbox
  }

  // --- what a decision leaves ---------------------------------------------

  ghost predicate LeftWaiting(db: Db, after: Db, w: WagerState, next: Time, meta: Meta) {
    && OtherRowsStay(db, after, w.id) && MoneyStays(db, after)
    && var row := after.wagers[w.id];
    && SameRequest(row, w) && row.status.PendingReference? && row.attempts == w.attempts + 1
    && row.nextAttempt == Some(next) && row.failureCode == w.failureCode && row.result == w.result
    && row.referenceId == w.referenceId && row.updatedAt == meta.now
    && (!meta.insert ==> after.outbox == db.outbox)
    && (meta.insert ==>
          && AddsEvents(db, after, 1)
          && var e := after.outbox[|db.outbox|];
          && Stamped(e, meta.firstEvent, w.id, meta.correlation, meta.causation, meta.now)
          && TellsPending(e.data, row) && e.data.nextAttempt == Some(next))
  }

  /** The row is terminal without a movement: rejected or failed, with the balance of its wallet. */
  ghost predicate LeftRefused(
      db: Db, after: Db, w: WagerState, status: Status, code: FailureCode, referenceId: Uuid, meta: Meta) {
    && OtherRowsStay(db, after, w.id) && MoneyStays(db, after)
    && w.walletId in db.wallets
    && var row := after.wagers[w.id];
    && SameRequest(row, w) && row.status == status && row.failureCode == code
    && row.result == Some(db.wallets[w.walletId].balance) && row.attempts == w.attempts && row.nextAttempt == None
    && row.referenceId == (if referenceId == NO_ID then w.referenceId else referenceId) && row.updatedAt == meta.now
    && AddsEvents(db, after, 1)
    && var e := after.outbox[|db.outbox|];
    && Stamped(e, meta.firstEvent, w.id, meta.correlation, meta.causation, meta.now) && TellsTerminal(e.data, row)
  }

  /** The wallet after a movement, or the same wallet. */
  predicate Moved(before: WalletState, after: WalletState, direction: Option<Direction>, amount: Money, now: Time) {
    if direction.None? then after == before
    else
      && after.id == before.id && after.playerId == before.playerId && after.createdAt == before.createdAt
      && after.balance.currency == before.balance.currency
      && after.balance.minor == (if direction.value.Credit? then before.balance.minor + amount.minor
                                 else before.balance.minor - amount.minor)
      && after.version == before.version + 1 && after.updatedAt == now
  }

  ghost predicate LeftProcessed(
      db: Db, after: Db, w: WagerState, referenceId: Uuid, direction: Option<Direction>, meta: Meta) {
    && OtherRowsStay(db, after, w.id) && w.walletId in db.wallets
    && var row, n := after.wagers[w.id], |db.outbox|;
    && after.wallets.Keys == db.wallets.Keys
    && (forall id :: id in db.wallets && id != w.walletId ==> after.wallets[id] == db.wallets[id])
    && var before, wallet := db.wallets[w.walletId], after.wallets[w.walletId];
    && Moved(before, wallet, direction, w.money, meta.now)
    && SameRequest(row, w) && row.status.Processed? && row.failureCode.NoFailure? && row.result == Some(wallet.balance)
    && row.attempts == w.attempts && row.nextAttempt == None
    && row.referenceId == (if referenceId == NO_ID then w.referenceId else referenceId) && row.updatedAt == meta.now
    && (direction.None? ==> after.ledger == db.ledger && AddsEvents(db, after, 1))
    && (direction.Some? ==>
          && |after.ledger| == |db.ledger| + 1 && after.ledger[..|db.ledger|] == db.ledger
          && var e := after.ledger[|db.ledger|];
          && e.id == meta.entryId && e.walletId == w.walletId && e.transactionId == w.id && e.direction == direction.value
          && e.money == w.money && e.before == before.balance && e.after == wallet.balance && e.createdAt == meta.now
          && AddsEvents(db, after, 2)
          && Stamped(after.outbox[n + 1], meta.secondEvent, w.walletId, meta.correlation, FromId(w.id), meta.now)
          && TellsEntry(after.outbox[n + 1].data, e) && after.outbox[n + 1].data.walletVersion == wallet.version)
    && Stamped(after.outbox[n], meta.firstEvent, w.id, meta.correlation, meta.causation, meta.now)
    && TellsTerminal(after.outbox[n].data, row)
  }

  ghost predicate Left(db: Db, after: Db, w: WagerState, d: Decision, meta: Meta) {
    match d
    case Hold(next) => LeftWaiting(db, after, w, next, meta)
    case Refuse(referenceId, code) => LeftRefused(db, after, w, Rejected, code, referenceId, meta)
    case Exhaust => LeftRefused(db, after, w, Failed, ProcessingAttemptsExhausted, NO_ID, meta)
    case Settle(referenceId, direction) => LeftProcessed(db, after, w, referenceId, direction, meta)
  }

  lemma HoldLeaves(db: Db, w: WagerState, next: Time, meta: Meta)
    requires w.walletId in db.wallets
    ensures LeftWaiting(db, Commit(db, w, Hold(next), meta), w, next, meta)
  {
  }

  lemma RefuseLeaves(db: Db, w: WagerState, referenceId: Uuid, code: FailureCode, meta: Meta)
    requires w.walletId in db.wallets
    ensures LeftRefused(db, Commit(db, w, Refuse(referenceId, code), meta), w, Rejected, code, referenceId, meta)
  {
  }

  lemma ExhaustLeaves(db: Db, w: WagerState, meta: Meta)
    requires w.walletId in db.wallets && w.referenceId == NO_ID
    ensures LeftRefused(db, Commit(db, w, Exhaust, meta), w, Failed, ProcessingAttemptsExhausted, NO_ID, meta)
  {
  }

  lemma SettleLeaves(db: Db, w: WagerState, referenceId: Uuid, direction: Option<Direction>, meta: Meta)
    requires w.walletId in db.wallets && db.wallets[w.walletId].id == w.walletId && w.failureCode.NoFailure?
    requires Feasible(w, db.wallets[w.walletId], Settle(referenceId, direction))
    requires VersionFits(db.wallets[w.walletId], Settle(referenceId, direction))
    ensures LeftProcessed(db, Commit(db, w, Settle(referenceId, direction), meta), w, referenceId, direction, meta)
  {
  }

  /** A commit leaves its row, wallet, entry and events with exactly these columns, and everything else alone. */
  lemma CommitLeaves(db: Db, w: WagerState, d: Decision, meta: Meta)
    requires w.walletId in db.wallets && db.wallets[w.walletId].id == w.walletId
    requires w.failureCode.NoFailure? && w.referenceId == NO_ID
    requires Feasible(w, db.wallets[w.walletId], d) && VersionFits(db.wallets[w.walletId], d)
    ensures Left(db, Commit(db, w, d, meta), w, d, meta) && Commit(db, w, d, meta).inbox == db.inbox
  {
    match d
    case Hold(next) => HoldLeaves(db, w, next, meta);
    case Refuse(referenceId, code) => RefuseLeaves(db, w, referenceId, code, meta);
    case Exhaust => ExhaustLeaves(db, w, meta);
    case Settle(referenceId, direction) => SettleLeaves(db, w, referenceId, direction, meta);
  }

  // --- what is decided ----------------------------------------------------

  function Smaller(a: int, b: int): int {
    if a < b then a else b
  }

  /** A movement of positive money, with its reference if it has one. */
  predicate CanMove(w: WagerState, wallet: WalletState) {
    w.money.minor > 0 && w.money.Valid() && wallet.balance.currency == w.money.currency && wallet.balance.minor >= 0
  }

  /** A bet, or the rollback of anything but a bet, takes money from the wallet. */
  predicate Takes(w: WagerState, reference: Option<WagerState>) {
    w.kind.Bet? || (w.kind.Rollback? && reference.Some? && !reference.value.kind.Bet?)
  }

  /** The movement step, in figures. */
  lemma MovementTable(w: WagerState, wallet: WalletState, reference: Option<WagerState>, now: Time)
    requires w.kind.Bet? || w.kind.Win? || w.kind.Loss? || w.kind.Refund? || w.kind.Rollback?
    requires w.kind.Rollback? ==> reference.Some?
    requires !w.kind.Loss? ==> CanMove(w, wallet)
    requires wallet.balance.minor >= 0 && now != ZERO_TIME
    ensures var balance, amount, id := wallet.balance.minor, w.money.minor, if reference.Some? then reference.value.id else NO_ID;
            Movable(w, wallet, reference, now) ==
            if w.kind.Loss? then Ok(Settle(id, None))
            else if Takes(w, reference) then
              if amount > balance then Ok(Refuse(id, if w.kind.Bet? then InsufficientFundsForBet else InsufficientFundsReversal))
              else if wallet.version == MAX_INT64 then Err(IntegerOutOfRange)
              else Ok(Settle(id, Some(Debit)))
            else if balance + amount > MAX_INT64 then Err(MoneyOverflow)
            else if wallet.version == MAX_INT64 then Err(IntegerOutOfRange)
            else Ok(Settle(id, Some(Credit)))
  {
  }

  /** What the reference is checked for, in this order. */
  lemma ReferenceTable(w: WagerState, r: WagerState, reversed: bool)
    ensures ReferenceFailure(w, Some(r), reversed) ==
            if r.providerId != w.providerId || r.playerId != w.playerId || r.walletId != w.walletId
               || r.roundId != w.roundId || r.money.currency != w.money.currency then ReferenceMismatch
            else if (w.kind.Refund? || w.kind.Rollback?) && r.money != w.money then ReferenceAmountMismatch
            else if (w.kind.Win? && !r.kind.Bet?) || (w.kind.Refund? && !r.kind.Bet?)
                    || (w.kind.Rollback? && !r.kind.Bet? && !r.kind.Win? && !r.kind.Refund?) then InvalidReferenceKind
            else if (w.kind.Refund? || w.kind.Rollback?) && reversed then ReferenceAlreadyReversed
            else NoFailure
  {
  }

  /** The decision about a transaction whose reference has been read, by the columns of both rows. */
  lemma DecisionTable(
      w: WagerState, wallet: WalletState, reference: Option<WagerState>, reversed: bool, waited: bool,
      policy: Policy, now: Time)
    requires policy.Valid() && wallet.balance.minor >= 0
    ensures var delay := Smaller(policy.base as int * Pow2(w.attempts), policy.maximum as int);
            DecideWithReference(w, wallet, reference, reversed, waited, policy, now) ==
            if reference.None? || reference.value.status.Pending? || reference.value.status.PendingReference? then
              if waited && w.attempts >= policy.maxAttempts then Ok(Refuse(NO_ID, ReferenceNotFound))
              else Ok(Hold(now + delay))
            else if reference.value.status.Rejected? || reference.value.status.Failed? then
              Ok(Refuse(reference.value.id, ReferenceNotProcessed))
            else if ReferenceFailure(w, reference, reversed) != NoFailure then
              Ok(Refuse(reference.value.id, ReferenceFailure(w, reference, reversed)))
            else Movable(w, wallet, reference, now)
  {
    DoubledIsPower(policy.base as int, w.attempts);
  }

  /** The decision of the first call. */
  lemma FirstTable(
      w: WagerState, wallet: WalletState, reference: Option<WagerState>, reversed: bool, policy: Policy, now: Time)
    requires policy.Valid() && wallet.balance.minor >= 0
    ensures Decide(w, wallet, reference, reversed, policy, now) ==
            if wallet.playerId != w.playerId || wallet.balance.currency != w.money.currency then
              Ok(Refuse(NO_ID, WalletOwnershipOrCurrencyMismatch))
            else if w.referenceExternalId != "" then DecideWithReference(w, wallet, reference, reversed, false, policy, now)
            else if w.kind.Refund? || w.kind.Rollback? then Ok(Refuse(NO_ID, ReferenceNotFound))
            else Movable(w, wallet, None, now)
  {
  }
}
