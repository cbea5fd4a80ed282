/**
 The aggregates of the domain as objects that update their fields in place. Each
 method does to its object what the function of module Domain does to its value.
 */
module Aggregates {
  import opened Base
  import opened MoneyValue
  import opened Domain

  /** A method that may fail either takes the object to the specified value or reports the error and changes nothing. */
  ghost predicate Outcome<T>(before: T, spec: Result<T>, after: T, err: Option<Error>) {
    match spec
    case Ok(value) => err == None && after == value
    case Err(e) => err == Some(e) && after == before
  }

  class Wallet {
    const id: Uuid
    const playerId: Uuid
    const createdAt: Time
    var balance: Money
    var version: Int64
    var updatedAt: Time

    function State(): WalletState
      reads this
    {
      WalletState(id, playerId, balance, version, createdAt, updatedAt)
    }

    /** Both construction and rehydration only copy; module Storage validates first. */
    constructor (s: WalletState)
      ensures State() == s
    {
      id, playerId, balance, version, createdAt, updatedAt :=
        s.id, s.playerId, s.balance, s.version, s.createdAt, s.updatedAt;
    }

    method Apply(after: Money, now: Time)
      modifies this
      ensures State() == WithBalance(old(State()), after, now)
    {
      balance := after;
      version := if version == MAX_INT64 then MIN_INT64 else version + 1;
      updatedAt := now;
    }

    method Debit(amount: Money, now: Time) returns (before: Money, after: Money, err: Option<Error>)
      modifies this
      ensures Outcome(old(State()), DebitWallet(old(State()), amount, now), State(), err)
      ensures err == None ==> before == old(balance) && after == balance
    {
      before, after, err := balance, balance, None;
      if !amount.IsPositive() || now == ZERO_TIME {
        return before, after, Some(InvalidMoney);
      }
      var difference := balance.Subtract(amount);
      if difference.Err? {
        return before, after, Some(difference.error);
      }
      if difference.value.IsNegative() {
        return before, after, Some(InsufficientFunds);
      }
      after := difference.value;
      Apply(after, now);
    }

    method Credit(amount: Money, now: Time) returns (before: Money, after: Money, err: Option<Error>)
      modifies this
      ensures Outcome(old(State()), CreditWallet(old(State()), amount, now), State(), err)
      ensures err == None ==> before == old(balance) && after == balance
    {
      before, after, err := balance, balance, None;
      if !amount.IsPositive() || now == ZERO_TIME {
        return before, after, Some(InvalidMoney);
      }
      var sum := balance.Add(amount);
      if sum.Err? {
        return before, after, Some(sum.error);
      }
      after := sum.value;
      Apply(after, now);
    }
  }

  class WagerTransaction {
    const id: Uuid
    const providerId: string
    const externalId: string
    const idempotencyKey: string
    const payloadHash: Option<Payload>
    const walletId: Uuid
    const playerId: Uuid
    const roundId: string
    const gameId: string
    const kind: Kind
    const money: Money
    const referenceExternalId: string
    const createdAt: Time
    var referenceId: Uuid
    var status: Status
    var failureCode: FailureCode
    var result: Option<Money>
    var attempts: nat
    var nextAttempt: Option<Time>
    var updatedAt: Time

    function State(): WagerState
      reads this
    {
      WagerState(id, providerId, externalId, idempotencyKey, payloadHash, walletId, playerId, roundId, gameId,
                 kind, money, referenceExternalId, referenceId, status, failureCode, result,
                 attempts, nextAttempt, createdAt, updatedAt)
    }

    constructor (s: WagerState)
      ensures State() == s
    {
      id, providerId, externalId, idempotencyKey, payloadHash := s.id, s.providerId, s.externalId, s.idempotencyKey,
          s.payloadHash;
      walletId, playerId, roundId, gameId := s.walletId, s.playerId, s.roundId, s.gameId;
      kind, money, referenceExternalId, referenceId := s.kind, s.money, s.referenceExternalId, s.referenceId;
      status, failureCode, result, attempts, nextAttempt := s.status, s.failureCode, s.result, s.attempts, s.nextAttempt;
      createdAt, updatedAt := s.createdAt, s.updatedAt;
    }

    method MarkPendingReference(next: Time, now: Time) returns (err: Option<Error>)
      modifies this
      ensures Outcome(old(State()), Domain.MarkPendingReference(old(State()), next, now), State(), err)
    {
      if status.Terminal() || (!status.Pending? && !status.PendingReference?) ||
         referenceExternalId == "" || now == ZERO_TIME || next <= now {
        return Some(InvalidTransition);
      }
      status := PendingReference;
      attempts := attempts + 1;
      nextAttempt := Some(next);
      updatedAt := now;
      return None;
    }

    method ResolveReference(reference: Uuid, now: Time) returns (err: Option<Error>)
      modifies this
      ensures Outcome(old(State()), Domain.ResolveReference(old(State()), reference, now), State(), err)
    {
      if (!status.Pending? && !status.PendingReference?) || referenceExternalId == "" || reference == NO_ID || now == ZERO_TIME {
        return Some(InvalidTransition);
      }
      referenceId := reference;
      status := Pending;
      nextAttempt := None;
      updatedAt := now;
      return None;
    }

    method MarkProcessed(balance: Money, now: Time) returns (err: Option<Error>)
      modifies this
      ensures Outcome(old(State()), Domain.MarkProcessed(old(State()), balance, now), State(), err)
    {
      if !status.Pending? || now == ZERO_TIME || balance.IsNegative() || !balance.Valid() || balance.currency != money.currency {
        return Some(InvalidTransition);
      }
      status := Processed;
      result := Some(balance);
      failureCode := NoFailure;
      nextAttempt := None;
      updatedAt := now;
      return None;
    }

    method Reject(code: FailureCode, balance: Money, now: Time) returns (err: Option<Error>)
      modifies this
      ensures Outcome(old(State()), Domain.Reject(old(State()), code, balance, now), State(), err)
    {
      if status.Terminal() || code.NoFailure? || now == ZERO_TIME || balance.IsNegative() || !balance.Valid() {
        return Some(InvalidTransition);
      }
      status := Rejected;
      failureCode := code;
      result := Some(balance);
      nextAttempt := None;
      updatedAt := now;
      return None;
    }

    method Fail(code: FailureCode, balance: Money, now: Time) returns (err: Option<Error>)
      modifies this
      ensures Outcome(old(State()), Domain.Fail(old(State()), code, balance, now), State(), err)
    {
      if status.Terminal() || code.NoFailure? || now == ZERO_TIME || balance.IsNegative() || !balance.Valid() ||
         balance.currency != money.currency {
        return Some(InvalidTransition);
      }
      status := Failed;
      failureCode := code;
      result := Some(balance);
      nextAttempt := None;
      updatedAt := now;
      return None;
    }
  }
}
