/**
 What a wager transaction turns into: the decision that the service takes from the
 wallet, the reference and the reversal query it has read, and the write set of
 each decision (internal/application/wager_service.go).
 */
module Decisions {
  import opened Base
  import opened Backoff
  import opened MoneyValue
  import opened Domain
  import opened Contracts
  import opened Database

  datatype Decision =
      // Wait, or keep waiting, for the reference.
    | Hold(next: Time)
      // Reject, with the reference if it was resolved first.
    | Refuse(referenceId: Uuid, code: FailureCode)
      // Fail after exhausted processing attempts.
    | Exhaust
      // Process, moving money unless the direction is absent.
    | Settle(referenceId: Uuid, direction: Option<Direction>)

  function Target(w: WagerState, wallet: WalletState, direction: Option<Direction>): int {
    wallet.balance.minor + if direction.None? then 0 else direction.value.Signed(w.money.minor)
  }

  /** A settlement leaves a balance in 0..MaxInt64. */
  predicate Feasible(w: WagerState, wallet: WalletState, d: Decision) {
    d.Settle? ==> 0 <= Target(w, wallet, d.direction) <= MAX_INT64
  }

  /** A movement can raise the version of the wallet. */
  predicate VersionFits(wallet: WalletState, d: Decision) {
    d.Settle? && d.direction.Some? ==> wallet.version < MAX_INT64
  }

  predicate ReferenceIsPending(reference: Option<WagerState>) {
    reference.None? || reference.value.status.Pending? || reference.value.status.PendingReference?
  }

  /** The provider, player, wallet, round and currency of a reference. */
  predicate SameContext(w: WagerState, reference: WagerState) {
    && reference.providerId == w.providerId && reference.playerId == w.playerId && reference.walletId == w.walletId
    && reference.roundId == w.roundId && reference.money.currency == w.money.currency
  }

  /** Which kinds may refer to which. */
  predicate KindAllows(kind: Kind, reference: Kind) {
    match kind
    case Win => reference.Bet?
    case Refund => reference.Bet?
    case Rollback => reference.Bet? || reference.Win? || reference.Refund?
    case _ => true
  }

  function ReferenceFailure(w: WagerState, reference: Option<WagerState>, reversed: bool): FailureCode {
    if reference.None? then
      if w.kind.Reversing() then ReferenceNotFound else NoFailure
    else if !SameContext(w, reference.value) then ReferenceMismatch
    else if w.kind.Reversing() && reference.value.money != w.money then ReferenceAmountMismatch
    else if !KindAllows(w.kind, reference.value.kind) then InvalidReferenceKind
    else if w.kind.Reversing() && reversed then ReferenceAlreadyReversed
    else NoFailure
  }

  /** The movement step of finalize, as a decision. */
  function Movable(w: WagerState, wallet: WalletState, reference: Option<WagerState>, now: Time): (r: Result<Decision>)
    requires wallet.balance.minor >= 0
    ensures r.Ok? ==> Feasible(w, wallet, r.value) && VersionFits(wallet, r.value)
  {
    var referenceId := if reference.Some? then reference.value.id else NO_ID;
    if !w.kind.External() then Err(InvalidTransaction)
    else if w.kind.Loss? then Ok(Settle(referenceId, None))
    else if DirectionFor(w, reference).None? then Err(ReferenceNotProcessedError)
    else
      var direction := DirectionFor(w, reference).value;
      match MoveWallet(wallet, direction, w.money, now)
      case Err(InsufficientFunds) =>
        Ok(Refuse(referenceId, if w.kind.Rollback? then InsufficientFundsReversal else InsufficientFundsForBet))
      case Err(e) => Err(e)
      case Ok(_) => if wallet.version == MAX_INT64 then Err(IntegerOutOfRange) else Ok(Settle(referenceId, Some(direction)))
  }

  /** A transaction with its reference read: wait, reject or settle. `waited` tells the worker from the first call. */
  function DecideWithReference(
      w: WagerState, wallet: WalletState, reference: Option<WagerState>, reversed: bool, waited: bool,
      policy: Policy, now: Time): (r: Result<Decision>)
    requires policy.Valid() && wallet.balance.minor >= 0
    ensures r.Ok? ==> Feasible(w, wallet, r.value) && VersionFits(wallet, r.value)
  {
    if ReferenceIsPending(reference) then
      if waited && w.attempts >= policy.maxAttempts then Ok(Refuse(NO_ID, ReferenceNotFound))
      else Ok(Hold(now + ReferenceDelay(policy, w.attempts)))
    else if !reference.value.status.Processed? then Ok(Refuse(reference.value.id, ReferenceNotProcessed))
    else if ReferenceFailure(w, reference, reversed) != NoFailure then
      Ok(Refuse(reference.value.id, ReferenceFailure(w, reference, reversed)))
    else Movable(w, wallet, reference, now)
  }

  /** The decision of the first call. */
  function Decide(
      w: WagerState, wallet: WalletState, reference: Option<WagerState>, reversed: bool,
      policy: Policy, now: Time): (r: Result<Decision>)
    requires policy.Valid() && wallet.balance.minor >= 0
    ensures r.Ok? ==> Feasible(w, wallet, r.value) && VersionFits(wallet, r.value)
  {
    if !IdentityMatches(w, wallet) then Ok(Refuse(NO_ID, WalletOwnershipOrCurrencyMismatch))
    else if w.referenceExternalId != "" then DecideWithReference(w, wallet, reference, reversed, false, policy, now)
    else if ReferenceFailure(w, None, false) != NoFailure then Ok(Refuse(NO_ID, ReferenceFailure(w, None, false)))
    else Movable(w, wallet, None, now)
  }

  /** RecordPendingReferenceFailure. */
  function DecideFailure(w: WagerState, policy: Policy, now: Time): Decision
    requires policy.Valid()
  {
    if w.attempts < policy.maxAttempts then Hold(now + ReferenceDelay(policy, w.attempts)) else Exhaust
  }

  // --- what the decisions mean --------------------------------------------

  /** Positive money in the currency of a wallet that is not overdrawn. */
  predicate Fundable(w: WagerState, wallet: WalletState) {
    wallet.balance.Compatible(w.money) && wallet.balance.minor >= 0 && w.money.IsPositive()
  }

  function Opposite(direction: Option<Direction>): Option<Direction> {
    if direction.None? then None else if direction.value.Debit? then Some(Credit) else Some(Debit)
  }

  /** The settlement that moves the money of w is within the range of balance and version. */
  predicate Payable(w: WagerState, wallet: WalletState, direction: Option<Direction>) {
    0 <= Target(w, wallet, direction) <= MAX_INT64 && (direction.Some? ==> wallet.version < MAX_INT64)
  }

  /**
   A transaction is settled exactly when it moves nothing or the new balance is in
   0..MaxInt64 and the version can rise; it is refused exactly when a debit exceeds the
   balance; the only errors are a rollback of nothing, an overflow and the last version.
   */
  lemma MovableExact(w: WagerState, wallet: WalletState, reference: Option<WagerState>, now: Time)
    requires w.kind.External() && Fundable(w, wallet) && now != ZERO_TIME
    ensures var direction, id := DirectionFor(w, reference), if reference.Some? then reference.value.id else NO_ID;
            var target := Target(w, wallet, direction);
            match Movable(w, wallet, reference, now)
            case Ok(Settle(referenceId, moved)) =>
              referenceId == id && moved == direction && (moved.None? <==> w.kind.Loss?) && Payable(w, wallet, moved)
            case Ok(Refuse(referenceId, code)) =>
              && referenceId == id && direction == Some(Debit) && wallet.balance.minor < w.money.minor
              && code == if w.kind.Rollback? then InsufficientFundsReversal else InsufficientFundsForBet
            case Ok(_) => false
            case Err(ReferenceNotProcessedError) => w.kind.Rollback? && reference.None?
            case Err(MoneyOverflow) => direction == Some(Credit) && target > MAX_INT64
            case Err(IntegerOutOfRange) => direction.Some? && 0 <= target <= MAX_INT64 && wallet.version == MAX_INT64
            case Err(_) => false
  {
    var direction := DirectionFor(w, reference);
    if direction.Some? { MoveWalletExact(wallet, direction.value, w.money, now); }
  }

  /** The reference was processed, is of an allowed kind in the same context, and has not been undone. */
  predicate Acceptable(w: WagerState, reference: WagerState, reversed: bool) {
    && reference.status.Processed? && SameContext(w, reference) && KindAllows(w.kind, reference.kind)
    && (w.kind.Reversing() ==> reference.money == w.money && !reversed)
  }

  /**
   With a reference, a transaction waits exactly while the reference is missing or
   undecided and attempts are left, and it is settled exactly when the reference is
   acceptable and the movement is within range; a reversal moves its amount against the
   transaction that it undoes.
   */
  lemma DecisionExact(
      w: WagerState, wallet: WalletState, reference: Option<WagerState>, reversed: bool, waited: bool,
      policy: Policy, now: Time)
    requires policy.Valid() && w.kind.External() && Fundable(w, wallet) && now != ZERO_TIME
    ensures var r := DecideWithReference(w, wallet, reference, reversed, waited, policy, now);
            var pending, last := ReferenceIsPending(reference), waited && w.attempts >= policy.maxAttempts;
            && (r.Ok? && r.value.Hold? <==> pending && !last)
            && (r.Ok? && r.value.Hold? ==> r.value.next > now)
            && (pending && last ==> r == Ok(Refuse(NO_ID, ReferenceNotFound)))
            && (r.Ok? && r.value.Settle? <==>
                  !pending && Acceptable(w, reference.value, reversed) && Payable(w, wallet, DirectionFor(w, reference)))
            && (r.Ok? && r.value.Settle? ==> r.value == Settle(reference.value.id, DirectionFor(w, reference)))
            && (r.Ok? && r.value.Settle? && w.kind.Reversing() ==>
                  r.value.direction == Opposite(DirectionFor(reference.value, None)))
            && (!pending && !Acceptable(w, reference.value, reversed) ==>
                  r.Ok? && r.value.Refuse? && r.value.referenceId == reference.value.id)
  {
    if !ReferenceIsPending(reference) { MovableExact(w, wallet, reference, now); }
  }

  // --- effects ------------------------------------------------------------

  /** The circumstances of a commit: trace identifiers, the clock, the generated identifiers, first write or update. */
  datatype Meta = Meta(
    correlation: Trace, causation: Trace, now: Time, entryId: Uuid, firstEvent: Uuid, secondEvent: Uuid, insert: bool)

  function Linked(w: WagerState, referenceId: Uuid, now: Time): WagerState {
    if referenceId == NO_ID then w
    else w.(referenceId := referenceId, status := Pending, nextAttempt := None, updatedAt := now)
  }

  /** The row that a decision leaves. */
  function Final(w: WagerState, wallet: WalletState, d: Decision, now: Time): WagerState
    requires Feasible(w, wallet, d)
  {
    match d
    case Hold(next) =>
      w.(status := PendingReference, attempts := w.attempts + 1, nextAttempt := Some(next), updatedAt := now)
    case Refuse(referenceId, code) =>
      Linked(w, referenceId, now).(status := Rejected, failureCode := code, result := Some(wallet.balance),
                                   nextAttempt := None, updatedAt := now)
    case Exhaust =>
      w.(status := Failed, failureCode := ProcessingAttemptsExhausted, result := Some(wallet.balance),
         nextAttempt := None, updatedAt := now)
    case Settle(referenceId, direction) =>
      Linked(w, referenceId, now).(status := Processed, failureCode := NoFailure,
                                   result := Some(Money(Target(w, wallet, direction), wallet.balance.currency)),
                                   nextAttempt := None, updatedAt := now)
  }

  function MovementOf(w: WagerState, wallet: WalletState, d: Decision, meta: Meta): Option<Movement>
    requires Feasible(w, wallet, d)
  {
    if d.Settle? && d.direction.Some? then
      var after := Money(Target(w, wallet, d.direction), wallet.balance.currency);
      Some(Movement(WithBalance(wallet, after, meta.now),
                    LedgerEntry(meta.entryId, wallet.id, w.id, d.direction.value, w.money, wallet.balance, after, meta.now)))
    else None
  }

  function TerminalData(t: WagerState, balance: Money): EventData {
    match t.status
    case Rejected => RejectedData(t, balance)
    case Failed => FailedData(t, balance)
    case _ => ProcessedData(t, balance)
  }

  /** The event about the transaction itself: its terminal event, or the pending event of its first wait. */
  function OwnEvents(w: WagerState, wallet: WalletState, d: Decision, meta: Meta): seq<Event>
    requires Feasible(w, wallet, d)
  {
    var final := Final(w, wallet, d, meta.now);
    if d.Hold? then
      if meta.insert then [Event(meta.firstEvent, w.id, meta.correlation, meta.causation, meta.now, PendingData(final))] else []
    else
      [Event(meta.firstEvent, w.id, meta.correlation, meta.causation, meta.now, TerminalData(final, final.result.value))]
  }

  function BalanceEvents(w: WagerState, wallet: WalletState, d: Decision, meta: Meta): seq<Event>
    requires Feasible(w, wallet, d)
  {
    var movement := MovementOf(w, wallet, d, meta);
    if movement.None? then []
    else [Event(meta.secondEvent, wallet.id, meta.correlation, FromId(w.id), meta.now,
                ChangedData(movement.value.entry, movement.value.wallet.version))]
  }

  function Effect(w: WagerState, wallet: WalletState, d: Decision, meta: Meta): Write
    requires Feasible(w, wallet, d)
  {
    Write(Final(w, wallet, d, meta.now), MovementOf(w, wallet, d, meta),
          OwnEvents(w, wallet, d, meta) + BalanceEvents(w, wallet, d, meta))
  }
}
