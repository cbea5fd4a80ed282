/**
 The values of the domain: wallets, wager transactions and ledger entries, with
 every constructor and transition as a function on values (internal/domain).
 The classes of module Aggregates update their fields as these functions say.
 */
module Domain {
  import opened Base
  import opened MoneyValue

  datatype Kind = Opening | Bet | Win | Loss | Refund | Rollback | UnknownKind(text: string) {
    predicate External() {
      Bet? || Win? || Loss? || Refund? || Rollback?
    }

    /** Refunds and rollbacks undo another transaction. */
    predicate Reversing() {
      Refund? || Rollback?
    }
  }

  datatype Status = Pending | PendingReference | Processed | Rejected | Failed {
    predicate Terminal() {
      Processed? || Rejected? || Failed?
    }
  }

  datatype FailureCode =
    | NoFailure
    | WalletOwnershipOrCurrencyMismatch
    | ReferenceNotProcessed
    | ReferenceNotFound
    | ReferenceMismatch
    | ReferenceAmountMismatch
    | InvalidReferenceKind
    | ReferenceAlreadyReversed
    | InsufficientFundsForBet
    | InsufficientFundsReversal
    | ProcessingAttemptsExhausted

  datatype Direction = Debit | Credit {
    function Signed(amount: int): int {
      if Credit? then amount else -amount
    }
  }

  /** The business fields under the payload hash. The hash is taken to be injective, so it is its own preimage. */
  datatype Payload = Payload(
    amount: string, currency: string, externalId: string, gameId: string, kind: Kind, playerId: Uuid,
    providerId: string, referenceExternalId: string, roundId: string, walletId: Uuid)

  // --- wallets ------------------------------------------------------------

  datatype WalletState = WalletState(
    id: Uuid, playerId: Uuid, balance: Money, version: Int64, createdAt: Time, updatedAt: Time)

  function NewWallet(id: Uuid, playerId: Uuid, initial: Money, now: Time): Result<WalletState> {
    if id == NO_ID || playerId == NO_ID || now == ZERO_TIME || initial.IsNegative() then Err(InvalidWallet)
    else if !initial.Valid() then Err(InvalidWallet)
    else Ok(WalletState(id, playerId, initial, 1, now, now))
  }

  /** The increment of an int64 in Go wraps around. */
  function NextVersion(version: Int64): Int64 {
    if version == MAX_INT64 then MIN_INT64 else version + 1
  }

  function WithBalance(w: WalletState, balance: Money, now: Time): WalletState {
    w.(balance := balance, version := NextVersion(w.version), updatedAt := now)
  }

  function DebitWallet(w: WalletState, amount: Money, now: Time): Result<WalletState> {
    if !amount.IsPositive() || now == ZERO_TIME then Err(InvalidMoney)
    else
      var after :- w.balance.Subtract(amount);
      if after.IsNegative() then Err(InsufficientFunds) else Ok(WithBalance(w, after, now))
  }

  function CreditWallet(w: WalletState, amount: Money, now: Time): Result<WalletState> {
    if !amount.IsPositive() || now == ZERO_TIME then Err(InvalidMoney)
    else
      var after :- w.balance.Add(amount);
      Ok(WithBalance(w, after, now))
  }

  function MoveWallet(w: WalletState, direction: Direction, amount: Money, now: Time): Result<WalletState> {
    if direction.Debit? then DebitWallet(w, amount, now) else CreditWallet(w, amount, now)
  }

  /** A movement succeeds exactly when the new balance lies in 0..MaxInt64; only a debit can run out of funds. */
  lemma MoveWalletExact(w: WalletState, direction: Direction, amount: Money, now: Time)
    requires w.balance.Compatible(amount) && w.balance.minor >= 0 && amount.IsPositive() && now != ZERO_TIME
    ensures var target := w.balance.minor + direction.Signed(amount.minor);
            match MoveWallet(w, direction, amount, now)
            case Ok(w') => 0 <= target <= MAX_INT64 && w' == WithBalance(w, Money(target, w.balance.currency), now)
            case Err(e) =>
              && (target < 0 || target > MAX_INT64)
              && (e == InsufficientFunds <==> target < 0)
              && (e == MoneyOverflow <==> target > MAX_INT64)
              && (target < 0 ==> direction.Debit?) && (target > MAX_INT64 ==> direction.Credit?)
  {
  }

  // --- ledger entries -----------------------------------------------------

  datatype LedgerEntry = LedgerEntry(
    id: Uuid, walletId: Uuid, transactionId: Uuid, direction: Direction,
    money: Money, before: Money, after: Money, createdAt: Time) {

    function Delta(): int {
      direction.Signed(money.minor)
    }
  }

  function NewLedgerEntry(
      id: Uuid, walletId: Uuid, transactionId: Uuid, direction: Direction,
      money: Money, before: Money, after: Money, now: Time): Result<LedgerEntry> {
    if id == NO_ID || walletId == NO_ID || transactionId == NO_ID || now == ZERO_TIME || !money.IsPositive() then
      Err(InvalidLedgerEntry)
    else
      var expected := if direction.Debit? then before.Subtract(money) else before.Add(money);
      if expected.Err? || expected.value != after || after.IsNegative() then Err(InvalidLedgerEntry)
      else Ok(LedgerEntry(id, walletId, transactionId, direction, money, before, after, now))
  }

  // --- wager transactions -------------------------------------------------

  datatype WagerState = WagerState(
    id: Uuid, providerId: string, externalId: string, idempotencyKey: string, payloadHash: Option<Payload>,
    walletId: Uuid, playerId: Uuid, roundId: string, gameId: string,
    kind: Kind, money: Money, referenceExternalId: string, referenceId: Uuid,
    status: Status, failureCode: FailureCode, result: Option<Money>,
    attempts: nat, nextAttempt: Option<Time>, createdAt: Time, updatedAt: Time)

  function ValidateAmountForKind(kind: Kind, amount: Money): Option<Error> {
    if !amount.Valid() then Some(InvalidMoney)
    else if kind.Loss? && !amount.IsZero() then Some(InvalidTransaction)
    else if !kind.Loss? && !amount.IsPositive() then Some(InvalidTransaction)
    else None
  }

  /** The input of NewWagerTransaction. */
  datatype NewExternal = NewExternal(
    id: Uuid, providerId: string, externalId: string, idempotencyKey: string, payloadHash: Option<Payload>,
    walletId: Uuid, playerId: Uuid, roundId: string, gameId: string,
    kind: Kind, money: Money, referenceExternalId: string, now: Time)

  function NewWager(n: NewExternal): Result<WagerState> {
    if n.id == NO_ID || n.providerId == "" || n.externalId == "" || n.idempotencyKey == "" ||
       n.payloadHash == None || n.walletId == NO_ID || n.playerId == NO_ID ||
       n.roundId == "" || n.gameId == "" || n.now == ZERO_TIME then Err(InvalidTransaction)
    else if !n.kind.External() then Err(InvalidTransaction)
    else if ValidateAmountForKind(n.kind, n.money).Some? then Err(ValidateAmountForKind(n.kind, n.money).value)
    else if n.kind.Reversing() && n.referenceExternalId == "" then Err(InvalidTransaction)
    else if n.referenceExternalId != "" && !n.kind.Win? && !n.kind.Reversing() then Err(InvalidTransaction)
    else Ok(WagerState(
              n.id, n.providerId, n.externalId, n.idempotencyKey, n.payloadHash, n.walletId, n.playerId,
              n.roundId, n.gameId, n.kind, n.money, n.referenceExternalId, NO_ID,
              Pending, NoFailure, None, 0, None, n.now, n.now))
  }

  function MarkPendingReference(t: WagerState, next: Time, now: Time): Result<WagerState> {
    if t.status.Terminal() || t.referenceExternalId == "" || now == ZERO_TIME || next <= now then Err(InvalidTransition)
    else Ok(t.(status := PendingReference, attempts := t.attempts + 1, nextAttempt := Some(next), updatedAt := now))
  }

  function ResolveReference(t: WagerState, referenceId: Uuid, now: Time): Result<WagerState> {
    if t.status.Terminal() || t.referenceExternalId == "" || referenceId == NO_ID || now == ZERO_TIME then
      Err(InvalidTransition)
    else Ok(t.(referenceId := referenceId, status := Pending, nextAttempt := None, updatedAt := now))
  }

  function MarkProcessed(t: WagerState, balance: Money, now: Time): Result<WagerState> {
    if !t.status.Pending? || now == ZERO_TIME || balance.IsNegative() || !balance.Valid() ||
       balance.currency != t.money.currency then Err(InvalidTransition)
    else Ok(t.(status := Processed, result := Some(balance), failureCode := NoFailure, nextAttempt := None, updatedAt := now))
  }

  function Reject(t: WagerState, code: FailureCode, balance: Money, now: Time): Result<WagerState> {
    if t.status.Terminal() || code.NoFailure? || now == ZERO_TIME || balance.IsNegative() || !balance.Valid() then
      Err(InvalidTransition)
    else Ok(t.(status := Rejected, failureCode := code, result := Some(balance), nextAttempt := None, updatedAt := now))
  }

  function Fail(t: WagerState, code: FailureCode, balance: Money, now: Time): Result<WagerState> {
    if t.status.Terminal() || code.NoFailure? || now == ZERO_TIME || balance.IsNegative() || !balance.Valid() ||
       balance.currency != t.money.currency then Err(InvalidTransition)
    else Ok(t.(status := Failed, failureCode := code, result := Some(balance), nextAttempt := None, updatedAt := now))
  }

  // --- rehydration --------------------------------------------------------

  /** What RehydrateWagerTransaction demands of a persisted row. */
  predicate Rehydratable(s: WagerState) {
    && s.id != NO_ID && s.walletId != NO_ID && s.playerId != NO_ID && s.createdAt != ZERO_TIME && s.updatedAt != ZERO_TIME
    && (s.kind.External() || s.kind.Opening?)
    && (s.kind.Opening? ==> s.providerId == "" && s.externalId == "" && s.status.Processed? && s.money.IsPositive())
    && (s.kind.External() ==>
          s.providerId != "" && s.externalId != "" && s.idempotencyKey != "" && s.payloadHash.Some?)
    && s.money.Valid()
    && (s.kind.External() ==> ValidateAmountForKind(s.kind, s.money) == None)
    && (s.status.Terminal() <==> s.result.Some?)
    && (s.result.Some? ==> s.result.value.Valid() && !s.result.value.IsNegative())
    && (s.status.Processed? || s.status.Failed? ==> s.result.Some? && s.result.value.currency == s.money.currency)
    && ((s.status.Rejected? || s.status.Failed?) <==> !s.failureCode.NoFailure?)
    && (if s.status.PendingReference?
        then s.referenceExternalId != "" && s.nextAttempt.Some? && s.attempts >= 1
        else s.nextAttempt == None)
    && (s.referenceId != NO_ID ==> s.referenceExternalId != "")
  }

  /** The columns of a row: absent texts and identifiers are NULL, the result is a pair of nullable columns. */
  datatype WagerColumns = WagerColumns(
    id: Uuid, origin: string, providerId: Option<string>, externalId: Option<string>, idempotencyKey: Option<string>,
    payloadHash: Option<Payload>, walletId: Uuid, playerId: Uuid, roundId: Option<string>, gameId: Option<string>,
    kind: Kind, moneyMinor: Int64, currency: string, referenceExternalId: Option<string>, referenceId: Option<Uuid>,
    status: Status, failureCode: Option<FailureCode>, resultMinor: Option<Int64>, resultCurrency: Option<string>,
    attempts: nat, nextAttempt: Option<Time>, createdAt: Time, updatedAt: Time)

  function NullIfEmpty(s: string): Option<string> {
    if s == "" then None else Some(s)
  }

  function Coalesce(s: Option<string>): string {
    if s.Some? then s.value else ""
  }

  /** What InsertTransaction and UpdateTransaction write, and InsertOpening for openings. */
  function ToColumns(t: WagerState): WagerColumns {
    var external := (text: string) => if t.kind.Opening? then None else Some(text);
    WagerColumns(
      t.id, if t.kind.Opening? then "INTERNAL" else "EXTERNAL",
      external(t.providerId), external(t.externalId), external(t.idempotencyKey), t.payloadHash,
      t.walletId, t.playerId, external(t.roundId), external(t.gameId), t.kind, t.money.minor, t.money.currency,
      NullIfEmpty(t.referenceExternalId), if t.referenceId == NO_ID then None else Some(t.referenceId),
      t.status, if t.failureCode.NoFailure? then None else Some(t.failureCode),
      if t.result.Some? then Some(t.result.value.minor) else None,
      if t.result.Some? then Some(t.result.value.currency) else None,
      t.attempts, t.nextAttempt, t.createdAt, t.updatedAt)
  }

  /** scanTransaction: read the columns, then rehydrate. */
  function FromColumns(c: WagerColumns): Result<WagerState> {
    var result := if c.resultMinor.Some? && c.resultCurrency.Some?
                  then Some(Money(c.resultMinor.value, c.resultCurrency.value)) else None;
    if !IsCurrency(c.currency) then Err(InvalidMoney)
    else if result.Some? && !result.value.Valid() then Err(InvalidMoney)
    else
      var s := WagerState(
                 c.id, Coalesce(c.providerId), Coalesce(c.externalId), Coalesce(c.idempotencyKey), c.payloadHash,
                 c.walletId, c.playerId, Coalesce(c.roundId), Coalesce(c.gameId), c.kind, Money(c.moneyMinor, c.currency),
                 Coalesce(c.referenceExternalId), if c.referenceId.Some? then c.referenceId.value else NO_ID,
                 c.status, if c.failureCode.Some? then c.failureCode.value else NoFailure, result,
                 c.attempts, c.nextAttempt, c.createdAt, c.updatedAt);
      if Rehydratable(s) then Ok(s) else Err(InvalidTransaction)
  }

  /** The transitions of an aggregate, as values, so that histories can be quantified over. */
  datatype Transition =
    | ToPendingReference(next: Time)
    | ToResolved(referenceId: Uuid)
    | ToProcessed(balance: Money)
    | ToRejected(code: FailureCode, balance: Money)
    | ToFailed(code: FailureCode, balance: Money)

  function Take(t: WagerState, step: Transition, now: Time): Result<WagerState> {
    match step
    case ToPendingReference(next) => MarkPendingReference(t, next, now)
    case ToResolved(referenceId) => ResolveReference(t, referenceId, now)
    case ToProcessed(balance) => MarkProcessed(t, balance, now)
    case ToRejected(code, balance) => Reject(t, code, balance, now)
    case ToFailed(code, balance) => Fail(t, code, balance, now)
  }

  function TakeAll(t: WagerState, steps: seq<(Transition, Time)>): Result<WagerState>
    decreases |steps|
  {
    if steps == [] then Ok(t)
    else
      var t' :- Take(t, steps[0].0, steps[0].1);
      TakeAll(t', steps[1..])
  }

  lemma {:induction false} TransitionsKeepRehydratable(t: WagerState, steps: seq<(Transition, Time)>)
    requires Rehydratable(t) && t.kind.External()
    ensures TakeAll(t, steps).Ok? ==>
              Rehydratable(TakeAll(t, steps).value) && TakeAll(t, steps).value.kind.External()
    decreases |steps|
  {
    if steps != [] && Take(t, steps[0].0, steps[0].1).Ok? {
      TransitionsKeepRehydratable(Take(t, steps[0].0, steps[0].1).value, steps[1..]);
    }
  }

  /** Whatever transitions an aggregate went through since its construction, its columns read back as itself. */
  lemma PersistenceRoundTrip(n: NewExternal, steps: seq<(Transition, Time)>)
    requires NewWager(n).Ok? && TakeAll(NewWager(n).value, steps).Ok?
    ensures var t := TakeAll(NewWager(n).value, steps).value;
            FromColumns(ToColumns(t)) == Ok(t)
  {
    TransitionsKeepRehydratable(NewWager(n).value, steps);
  }

  /** No transition leaves a terminal state. */
  lemma {:induction false} TerminalIsFinal(t: WagerState, steps: seq<(Transition, Time)>)
    requires t.status.Terminal()
    ensures TakeAll(t, steps).Ok? ==> TakeAll(t, steps).value == t && steps == []
  {
  }
}
