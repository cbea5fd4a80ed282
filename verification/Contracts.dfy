/** Commands, queue messages, results and integration events of the application layer. */
module Contracts {
  import opened Base
  import opened MoneyValue
  import opened Domain

  // --- commands -----------------------------------------------------------

  datatype InboxKey = InboxKey(consumer: string, messageId: string)

  /** The body stands for its own hash, which is taken to be injective. */
  datatype InboxInput = InboxInput(key: InboxKey, body: Body)

  datatype ProcessCommand = ProcessCommand(
    providerId: string, externalId: string, idempotencyKey: string, playerId: Uuid, walletId: Uuid,
    roundId: string, gameId: string, kind: Kind, money: Money, referenceExternalId: string,
    correlationId: string, inbox: Option<InboxInput>)

  predicate IsSpace(c: char) {
    || c in " \t\n\r" || c == 0xB as char || c == 0xC as char || c == 0x85 as char || c == 0xA0 as char
    || c == 0x1680 as char || 0x2000 as char <= c <= 0x200A as char
    || c == 0x2028 as char || c == 0x2029 as char || c == 0x202F as char || c == 0x205F as char || c == 0x3000 as char
  }

  /** The custom "notblank" validation: something is left after trimming white space. */
  predicate NotBlank(s: string) {
    exists i :: 0 <= i < |s| && !IsSpace(s[i])
  }

  predicate CommandValid(c: ProcessCommand) {
    && NotBlank(c.providerId) && |c.providerId| <= 128
    && NotBlank(c.externalId) && |c.externalId| <= 256
    && NotBlank(c.idempotencyKey) && |c.idempotencyKey| <= 256
    && c.playerId != NO_ID && c.walletId != NO_ID
    && NotBlank(c.roundId) && |c.roundId| <= 256
    && NotBlank(c.gameId) && |c.gameId| <= 256
    && c.kind.External()
    && c.money.Valid()
    && (c.kind.Reversing() ==> c.referenceExternalId != "") && |c.referenceExternalId| <= 256
    && |c.correlationId| <= 256
    && (c.inbox.Some? ==>
          && NotBlank(c.inbox.value.key.consumer) && |c.inbox.value.key.consumer| <= 128
          && NotBlank(c.inbox.value.key.messageId) && |c.inbox.value.key.messageId| <= 256)
  }

  /** The preimage of wagerPayloadHash. */
  function PayloadOf(c: ProcessCommand): Payload {
    Payload(c.money.Amount(), c.money.currency, c.externalId, c.gameId, c.kind, c.playerId,
            c.providerId, c.referenceExternalId, c.roundId, c.walletId)
  }

  /** Equal payload hashes mean equal business fields, the amount included, whatever the transport metadata. */
  lemma PayloadDistinguishes(a: ProcessCommand, b: ProcessCommand)
    ensures PayloadOf(a) == PayloadOf(b) <==>
            a == b.(idempotencyKey := a.idempotencyKey, correlationId := a.correlationId, inbox := a.inbox)
  {
    if PayloadOf(a) == PayloadOf(b) {
      AmountInjective(a.money, b.money);
    }
  }

  // --- queue messages -----------------------------------------------------

  const CONSUMER_NAME := "wager-transaction-consumer-v1"

  datatype Envelope = Envelope(
    messageId: string, messageType: string, occurredAt: Time,
    providerId: string, externalId: string, idempotencyKey: string, playerId: Uuid, walletId: Uuid,
    roundId: string, gameId: string, kind: Kind, amount: string, currency: string, referenceExternalId: string)

  /** A message body with what decoding it as an envelope gives, if it decodes. */
  datatype Body = Body(raw: string, envelope: Option<Envelope>)

  predicate EnvelopeValid(e: Envelope) {
    && NotBlank(e.messageId) && |e.messageId| <= 256
    && e.messageType == "WagerTransactionRequested"
    && e.occurredAt != ZERO_TIME
    && e.amount != "" && e.currency != ""
  }

  /** The command that handleMessage derives from a body; None leaves the message for redrive. */
  function CommandOf(body: Body): Option<ProcessCommand> {
    if body.envelope.None? || !EnvelopeValid(body.envelope.value) then None
    else
      var e := body.envelope.value;
      match ParseMoney(e.amount, e.currency)
      case Err(_) => None
      case Ok(money) =>
        Some(ProcessCommand(
               e.providerId, e.externalId, e.idempotencyKey, e.playerId, e.walletId, e.roundId, e.gameId, e.kind, money,
               e.referenceExternalId, e.messageId, Some(InboxInput(InboxKey(CONSUMER_NAME, e.messageId), body))))
  }

  /** HTTP commands carry no inbox; queue commands carry the body they were decoded from. */
  predicate FromTransport(c: ProcessCommand) {
    c.inbox.Some? ==> CommandOf(c.inbox.value.body) == Some(c)
  }

  // --- results ------------------------------------------------------------

  datatype ProcessResult = ProcessResult(
    transactionId: Uuid, status: Status, balance: Money, failureCode: FailureCode, replay: bool)

  function ResultFrom(t: WagerState, balance: Money, replay: bool): ProcessResult {
    ProcessResult(t.id, t.status, balance, t.failureCode, replay)
  }

  // --- integration events -------------------------------------------------

  /** A correlation or causation identifier: absent, a text of the caller, or a generated identifier. */
  datatype Trace = NoTrace | FromCaller(text: string) | FromId(id: Uuid)

  datatype EventData =
    | WagerProcessed(
        transactionId: Uuid, externalId: string, providerId: string, walletId: Uuid, playerId: Uuid,
        roundId: string, gameId: string, kind: Kind, money: Money, status: Status, balance: Money,
        referenceId: Uuid, referenceExternalId: string)
    | WagerRejected(
        transactionId: Uuid, externalId: string, providerId: string, walletId: Uuid, kind: Kind,
        status: Status, failureCode: FailureCode, balance: Money)
    | WagerFailed(
        transactionId: Uuid, externalId: string, providerId: string, walletId: Uuid, kind: Kind,
        status: Status, failureCode: FailureCode, balance: Money)
    | WagerPendingReference(
        transactionId: Uuid, externalId: string, providerId: string, walletId: Uuid,
        referenceExternalId: string, status: Status, nextAttempt: Option<Time>)
    | WalletBalanceChanged(
        walletId: Uuid, transactionId: Uuid, direction: Direction, money: Money,
        before: Money, after: Money, walletVersion: int)

  datatype Event = Event(
    id: Uuid, aggregateId: Uuid, correlation: Trace, causation: Trace, occurredAt: Time, data: EventData)

  function ProcessedData(t: WagerState, balance: Money): EventData {
    WagerProcessed(t.id, t.externalId, t.providerId, t.walletId, t.playerId, t.roundId, t.gameId, t.kind, t.money,
                   t.status, balance, t.referenceId, t.referenceExternalId)
  }

  function RejectedData(t: WagerState, balance: Money): EventData {
    WagerRejected(t.id, t.externalId, t.providerId, t.walletId, t.kind, t.status, t.failureCode, balance)
  }

  function FailedData(t: WagerState, balance: Money): EventData {
    WagerFailed(t.id, t.externalId, t.providerId, t.walletId, t.kind, t.status, t.failureCode, balance)
  }

  function PendingData(t: WagerState): EventData {
    WagerPendingReference(t.id, t.externalId, t.providerId, t.walletId, t.referenceExternalId, t.status, t.nextAttempt)
  }

  function ChangedData(entry: LedgerEntry, version: int): EventData {
    WalletBalanceChanged(entry.walletId, entry.transactionId, entry.direction, entry.money,
                         entry.before, entry.after, version)
  }
}
