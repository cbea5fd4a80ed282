/**
 Queue messages by the fields of their envelopes: which of them are requests, what is
 asked for, and what is stored once they were handled
 (internal/infrastructure/messaging/consumer.go).
 */
module Envelopes {
  import opened Base
  import opened Backoff
  import opened MoneyValue
  import opened Domain
  import opened Contracts
  import opened Database
  import opened Decisions
  import opened Invariants
  import opened Storage
  import opened Calls
  import opened Contents
  import opened Requests

  /** The business fields of a request are those of the envelope. */
  predicate SaysTheSame(c: ProcessCommand, e: Envelope) {
    && c.providerId == e.providerId && c.externalId == e.externalId && c.idempotencyKey == e.idempotencyKey
    && c.playerId == e.playerId && c.walletId == e.walletId && c.roundId == e.roundId && c.gameId == e.gameId
    && c.kind == e.kind && c.referenceExternalId == e.referenceExternalId
    && c.money.Amount() == e.amount && c.money.currency == e.currency
  }

  /** The request of a message: its fields, traced to the message, whose body guards its inbox row. */
  predicate AsksFor(body: Body, c: ProcessCommand) {
    && body.envelope.Some?
    && var e := body.envelope.value;
    && SaysTheSame(c, e) && c.correlationId == e.messageId
    && c.inbox.Some? && c.inbox.value.key.consumer == "wager-transaction-consumer-v1"
    && c.inbox.value.key.messageId == e.messageId && c.inbox.value.body == body
  }

  /** The envelope is accepted: an identified request with an occurrence and a non-negative amount of money. */
  predicate Accepted(e: Envelope, money: Money) {
    && NotBlank(e.messageId) && |e.messageId| <= 256 && e.messageType == "WagerTransactionRequested"
    && e.occurredAt != ZERO_TIME
    && IsCurrency(money.currency) && money.minor >= 0 && money.Amount() == e.amount && money.currency == e.currency
  }

  /** A body becomes a request exactly when its envelope is accepted, and then asks for what the envelope says. */
  lemma EnvelopeBecomesCommand(body: Body, c: ProcessCommand)
    ensures CommandOf(body) == Some(c) <==>
            body.envelope.Some? && Accepted(body.envelope.value, c.money) && AsksFor(body, c)
  {
    if body.envelope.Some? {
      AmountIsAccepted(body.envelope.value, c.money);
    }
  }

  lemma AmountIsAccepted(e: Envelope, money: Money)
    ensures ParseMoney(e.amount, e.currency) == Ok(money) <==>
            IsCurrency(money.currency) && money.minor >= 0 && money.Amount() == e.amount && money.currency == e.currency
    ensures money.Amount() != ""
  {
    ParseMoneyExact(e.amount, e.currency, money);
    AmountSign(money);
  }

  // --- what is stored -----------------------------------------------------

  /** The row holds what the envelope said. */
  predicate RowFrom(w: WagerState, e: Envelope) {
    && w.providerId == e.providerId && w.externalId == e.externalId && w.idempotencyKey == e.idempotencyKey
    && w.playerId == e.playerId && w.walletId == e.walletId && w.roundId == e.roundId && w.gameId == e.gameId
    && w.kind == e.kind && w.referenceExternalId == e.referenceExternalId
    && w.money.Amount() == e.amount && w.money.currency == e.currency
  }

  /** A row holds what the envelope of the message said, and the inbox row of the message is complete. */
  ghost predicate StoredFrom(db: Db, body: Body) {
    && body.envelope.Some?
    && var e := body.envelope.value;
    && (exists id :: id in db.wagers && db.wagers[id].id == id && RowFrom(db.wagers[id], e))
    && var key := InboxKey("wager-transaction-consumer-v1", e.messageId);
    && key in db.inbox && db.inbox[key].body == body && db.inbox[key].completedAt.Some?
  }

  lemma RowIsStored(db: Db, body: Body, c: ProcessCommand, id: Uuid)
    requires Valid(db) && AsksFor(body, c) && InboxCompleted(db, c.inbox.value)
    requires id in db.wagers && HasKey(db.wagers[id], c.providerId, c.idempotencyKey)
    requires db.wagers[id].payloadHash == Some(PayloadOf(c))
    ensures StoredFrom(db, body)
  {
    assert Obeys(db, WagerRule) && Obeys(db, HashRule);
    assert WagerOk(db.wallets, db.wagers[id]);
    HashCompares(db, id, c);
    assert RowFrom(db.wagers[id], body.envelope.value);
  }

  // --- repetitions --------------------------------------------------------

  /** The request of a stored message, repeated by HTTP, is answered from its row, and changes nothing. */
  lemma HttpRepeats(db: Db, body: Body, c: ProcessCommand, policy: Policy, env: Env)
    requires Valid(db) && policy.Valid() && StoredFrom(db, body)
    requires Wellformed(c) && c.inbox.None? && SaysTheSame(c, body.envelope.value)
    ensures ProcessOutcome(db, c, policy, env).Ok?
    ensures var (after, r) := ProcessOutcome(db, c, policy, env).value;
            && after == db && r.replay && r.transactionId in db.wagers
            && RowFrom(db.wagers[r.transactionId], body.envelope.value)
            && r.status == db.wagers[r.transactionId].status && r.failureCode == db.wagers[r.transactionId].failureCode
  {
    var id :| id in db.wagers && db.wagers[id].id == id && RowFrom(db.wagers[id], body.envelope.value);
    AmountInjective(c.money, db.wagers[id].money);
    RepeatIsExact(db, id, c, policy, env);
  }

  // --- new messages -------------------------------------------------------

  /** A new message commits what is decided about its request; its events are traced to the message. */
  lemma MessageLeaves(db: Db, body: Body, c: ProcessCommand, w: WagerState, policy: Policy, env: Env)
    requires Valid(db) && policy.Valid() && EnvOk(db, env) && AsksFor(body, c)
    requires NotBlank(body.envelope.value.messageId)
    requires Wellformed(c) && FitsKind(c) && IsRequest(w, c, env)
    requires KeyIsFree(db, c) && ExternalIdIsFree(db, c) && MessageIsOpen(db, c) && c.walletId in db.wallets
    ensures var outcome, message := ProcessOutcome(db, c, policy, env), FromCaller(body.envelope.value.messageId);
            match Decide(w, db.wallets[c.walletId], ReferenceOf(db, w), ReversedOf(db, ReferenceOf(db, w)), policy, env.now)
            case Err(e) => outcome == Err(e)
            case Ok(d) =>
              && outcome.Ok? && InboxCompletedFor(db, outcome.value.0, c, env.now)
              && Left(db, outcome.value.0, w, d,
                      Meta(message, message, env.now, env.entryId, env.firstEvent, env.secondEvent, true))
  {
    ProcessLeaves(db, c, w, policy, env);
  }
}
