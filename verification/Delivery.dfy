/**
 At-least-once delivery: queue messages are received, handled, committed and deleted by
 consumers that may crash at any point, and may be delivered again at any time. A
 message is deleted only when its transaction is durable, and handling it again
 changes nothing (internal/infrastructure/messaging/consumer.go).
 */
module Delivery {
  import opened Base
  import opened Backoff
  import opened MoneyValue
  import opened Domain
  import opened Contracts
  import opened Database
  import opened Decisions
  import opened Invariants
  import opened Storage
  import opened Calls
  import opened Creation
  import opened History
  import opened Contents
  import opened Requests
  import opened Envelopes
  import Waiting
  import WagerService

  // --- handled messages ---------------------------------------------------

  /** Some row carries the key and the payload of the command. */
  ghost predicate HasTransaction(db: Db, c: ProcessCommand) {
    exists id :: id in db.wagers && HasKey(db.wagers[id], c.providerId, c.idempotencyKey)
                 && db.wagers[id].payloadHash == Some(PayloadOf(c))
  }

  /** The message of a command was handled: its inbox row is complete and its transaction is durable. */
  ghost predicate Durable(db: Db, c: ProcessCommand) {
    && CommandValid(c) && c.inbox.Some?
    && InboxCompleted(db, c.inbox.value)
    && HasTransaction(db, c)
  }

  /** Every committed inbox row is complete, and is the trace of a durable command that its body decodes to. */
  ghost predicate InboxOk(db: Db) {
    forall key :: key in db.inbox ==>
      && CommandOf(db.inbox[key].body).Some?
      && CommandOf(db.inbox[key].body).value.inbox.value.key == key
      && Durable(db, CommandOf(db.inbox[key].body).value)
  }

  lemma DurableLasts(db: Db, after: Db, c: ProcessCommand)
    requires Durable(db, c) && Extends(db, after)
    ensures Durable(after, c)
  {
    var id :| id in db.wagers && HasKey(db.wagers[id], c.providerId, c.idempotencyKey)
              && db.wagers[id].payloadHash == Some(PayloadOf(c));
    assert HasKey(after.wagers[id], c.providerId, c.idempotencyKey);
  }

  /** A call without a message leaves the inbox in order. */
  lemma InboxOkLasts(db: Db, after: Db)
    requires InboxOk(db) && Extends(db, after) && after.inbox == db.inbox
    ensures InboxOk(after)
  {
    forall key | key in after.inbox
      ensures Durable(after, CommandOf(after.inbox[key].body).value)
    {
      DurableLasts(db, after, CommandOf(db.inbox[key].body).value);
    }
  }

  /** Handling a message leaves the inbox in order, with the message durable. */
  lemma HandlingKeepsInbox(db: Db, c: ProcessCommand, policy: Policy, env: Env)
    requires Valid(db) && policy.Valid() && EnvOk(db, env) && InboxOk(db) &&
             FromTransport(c)
    requires ProcessOutcome(db, c, policy, env).Ok?
    ensures InboxOk(ProcessOutcome(db, c, policy, env).value.0)
    ensures c.inbox.Some? ==> Durable(ProcessOutcome(db, c, policy, env).value.0, c)
  {
    var after := ProcessOutcome(db, c, policy, env).value.0;
    ProcessExtends(db, c, policy, env);
    ProcessAnswers(db, c, policy, env);
    InboxAfter(db, c, policy, env);
    if c.inbox.Some? {
      assert HasTransaction(after, c);
    }
    forall key | key in after.inbox
      ensures CommandOf(after.inbox[key].body).Some?
      ensures CommandOf(after.inbox[key].body).value.inbox.value.key == key
      ensures Durable(after, CommandOf(after.inbox[key].body).value)
    {
      if !(c.inbox.Some? && key == c.inbox.value.key) {
        DurableLasts(db, after, CommandOf(db.inbox[key].body).value);
      }
    }
  }

  /** Only the row of the message is written, and it is completed with the body received. */
  lemma InboxAfter(db: Db, c: ProcessCommand, policy: Policy, env: Env)
    requires Readable(db) && policy.Valid() && ProcessOutcome(db, c, policy, env).Ok?
    ensures var after := ProcessOutcome(db, c, policy, env).value.0;
            && CommandValid(c)
            && (forall key :: (c.inbox.None? || key != c.inbox.value.key) ==>
                  (key in after.inbox <==> key in db.inbox) && (key in db.inbox ==> after.inbox[key] == db.inbox[key]))
            && (c.inbox.Some? ==> InboxCompleted(after, c.inbox.value))
  {
  }

  /** A message that was handled is replayed: nothing changes, and no conflict is reported. */
  lemma RedeliveryReplays(db: Db, c: ProcessCommand, policy: Policy, env: Env)
    requires Readable(db) && KeysOk(db) && policy.Valid() && Durable(db, c)
    ensures ProcessOutcome(db, c, policy, env).Ok?
    ensures ProcessOutcome(db, c, policy, env).value.0 == db
    ensures ProcessOutcome(db, c, policy, env).value.1.replay
  {
    var id :| id in db.wagers && HasKey(db.wagers[id], c.providerId, c.idempotencyKey)
              && db.wagers[id].payloadHash == Some(PayloadOf(c));
    KeyIsUnique(db, c.providerId, c.idempotencyKey, id);
  }

  /** The inbox reports a conflict exactly when another body was handled under the same message identifier. */
  lemma ConflictMeansOtherBody(db: Db, c: ProcessCommand, policy: Policy, env: Env)
    requires Readable(db) && KeysOk(db) && policy.Valid() && InboxOk(db) && FromTransport(c) && CommandValid(c)
    ensures ProcessOutcome(db, c, policy, env) == Err(InboxPayloadConflict) <==>
            c.inbox.Some? && c.inbox.value.key in db.inbox && db.inbox[c.inbox.value.key].body != c.inbox.value.body
  {
    if c.inbox.Some? && c.inbox.value.key in db.inbox && db.inbox[c.inbox.value.key].body == c.inbox.value.body {
      RedeliveryReplays(db, c, policy, env);
    } else if c.inbox.None? || c.inbox.value.key !in db.inbox {
      NoConflictFromHandling(ClaimedBy(db, c.inbox, env.now), c, policy, env);
    }
  }

  lemma NoConflictFromHandling(db: Db, c: ProcessCommand, policy: Policy, env: Env)
    requires Readable(db) && policy.Valid()
    ensures HandleOutcome(db, c, policy, env) != Err(InboxPayloadConflict)
  {
    if IsNew(db, c, env) {
      var w := NewWager(NewExternalOf(c, env)).value;
      NoConflictFromDeciding(w, db.wallets[w.walletId], ReferenceOf(db, w), ReversedOf(db, ReferenceOf(db, w)), policy,
                             env.now);
    }
  }

  lemma NoConflictFromDeciding(
      w: WagerState, wallet: WalletState, reference: Option<WagerState>, reversed: bool, policy: Policy, now: Time)
    requires policy.Valid() && wallet.balance.minor >= 0
    ensures Decide(w, wallet, reference, reversed, policy, now) != Err(InboxPayloadConflict)
  {
  }

  // --- one delivery -------------------------------------------------------

  /** Errors that another delivery cannot cure. */
  predicate Permanent(e: Error) {
    || e == InboxPayloadConflict || e == IdempotencyPayloadConflict || e == ExternalTransactionConflict
    || e == InvalidTransaction || e == InvalidMoney
  }

  /** One delivery: the database it leaves, and whether it must be retried, permanently failed or not. */
  ghost function Delivered(db: Db, body: Body, policy: Policy, env: Env): (Db, Option<bool>)
    requires Readable(db) && policy.Valid()
  {
    if CommandOf(body).None? then (db, Some(true))
    else match ProcessOutcome(db, CommandOf(body).value, policy, env)
         case Err(e) => (db, Some(Permanent(e)))
         case Ok((after, _)) => (after, None)
  }

  /** An accepted message is a call about what its envelope says; any other body fails for good. */
  lemma DeliveredExact(db: Db, body: Body, c: ProcessCommand, policy: Policy, env: Env)
    requires Readable(db) && policy.Valid()
    ensures body.envelope.Some? && Accepted(body.envelope.value, c.money) && AsksFor(body, c) ==>
              Delivered(db, body, policy, env) ==
              match ProcessOutcome(db, c, policy, env)
              case Err(e) => (db, Some(Permanent(e)))
              case Ok((after, _)) => (after, None)
    ensures (body.envelope.None? || forall money: Money :: !Accepted(body.envelope.value, money)) ==>
              Delivered(db, body, policy, env) == (db, Some(true))
  {
    EnvelopeBecomesCommand(body, c);
    if CommandOf(body).Some? { EnvelopeBecomesCommand(body, CommandOf(body).value); }
  }

  /** Only an unknown wallet, a credit past the greatest balance and the last version are worth another delivery. */
  lemma TransientErrors(db: Db, c: ProcessCommand, policy: Policy, env: Env)
    requires Valid(db) && policy.Valid() && EnvOk(db, env) && ProcessOutcome(db, c, policy, env).Err?
    ensures Transience(db, c, ProcessOutcome(db, c, policy, env).error)
  {
    RefusalTable(db, c, policy, env);
    RefusedIsTransient(db, c, ProcessOutcome(db, c, policy, env));
  }

  ghost predicate Transience(db: Db, c: ProcessCommand, e: Error) {
    && (!Permanent(e) <==> e == NotFound || e == MoneyOverflow || e == IntegerOutOfRange)
    && (e == NotFound ==> c.walletId !in db.wallets)
    && (e == MoneyOverflow ==>
          c.walletId in db.wallets && db.wallets[c.walletId].balance.minor + c.money.minor > MAX_INT64)
    && (e == IntegerOutOfRange ==> c.walletId in db.wallets && db.wallets[c.walletId].version == MAX_INT64)
  }

  lemma RefusedIsTransient(db: Db, c: ProcessCommand, outcome: Result<(Db, ProcessResult)>)
    requires Refusals(db, c, outcome) && outcome.Err?
    ensures Transience(db, c, outcome.error)
  {
  }

  // --- lasting failures ---------------------------------------------------

  /** The key of the request belongs to a row that says something else. */
  ghost predicate KeyMisused(db: Db, c: ProcessCommand) {
    exists id :: id in db.wagers && HasKey(db.wagers[id], c.providerId, c.idempotencyKey) && !SameBusiness(db.wagers[id], c)
  }

  /** The external identifier of the request belongs to a row with another key. */
  ghost predicate ExternalIdMisused(db: Db, c: ProcessCommand) {
    exists id :: id in db.wagers && HasExternalId(db.wagers[id], c.providerId, c.externalId) &&
                 db.wagers[id].idempotencyKey != c.idempotencyKey
  }

  /** Another body was handled under the message identifier of the request. */
  predicate OtherBody(db: Db, c: ProcessCommand) {
    c.inbox.Some? && c.inbox.value.key in db.inbox && db.inbox[c.inbox.value.key].body != c.inbox.value.body
  }

  /** The request is malformed, or at odds with what is stored. */
  ghost predicate Hopeless(db: Db, c: ProcessCommand) {
    || !Wellformed(c)
    || OtherBody(db, c)
    || KeyMisused(db, c) || ExternalIdMisused(db, c)
    || (c.walletId in db.wallets && !FitsKind(c))
  }

  /** The failures that are called permanent are exactly those of hopeless requests. */
  lemma PermanentExact(db: Db, c: ProcessCommand, policy: Policy, env: Env)
    requires Valid(db) && policy.Valid() && EnvOk(db, env) && InboxOk(db) && FromTransport(c)
    ensures ProcessOutcome(db, c, policy, env).Err? && Permanent(ProcessOutcome(db, c, policy, env).error) <==> Hopeless(db, c)
  {
    RefusalTable(db, c, policy, env);
    if Wellformed(c) {
      ConflictIsExact(db, c, policy, env);
      if OtherBody(db, c) {
        assert Permanent(InboxPayloadConflict);
      } else if !KeyIsFree(db, c) {
        var id := RowOfKey(db, c);
        RepeatIsExact(db, id, c, policy, env);
        KnownKeyIsPermanent(db, id, c, ProcessOutcome(db, c, policy, env));
      } else {
        FreeKeyIsUnused(db, c);
        FreeKeyIsPermanent(db, c, ProcessOutcome(db, c, policy, env));
      }
    }
  }

  lemma ConflictIsExact(db: Db, c: ProcessCommand, policy: Policy, env: Env)
    requires Valid(db) && policy.Valid() && InboxOk(db) && FromTransport(c) && Wellformed(c)
    ensures ProcessOutcome(db, c, policy, env) == Err(InboxPayloadConflict) <==> OtherBody(db, c)
  {
    assert Obeys(db, KeyRule);
    WellformedIsValid(c);
    ConflictMeansOtherBody(db, c, policy, env);
  }

  lemma RowOfKey(db: Db, c: ProcessCommand) returns (id: Uuid)
    requires Valid(db) && !KeyIsFree(db, c)
    ensures id in db.wagers && HasKey(db.wagers[id], c.providerId, c.idempotencyKey) && !db.wagers[id].kind.Opening?
    ensures SameBusiness(db.wagers[id], c) ==> FitsKind(c)
    ensures forall other :: other in db.wagers && other != id ==>
              && !HasKey(db.wagers[other], c.providerId, c.idempotencyKey)
              && !HasExternalId(db.wagers[other], c.providerId, db.wagers[id].externalId)
  {
    assert Obeys(db, WagerRule) && Obeys(db, KeyRule);
    id :| id in db.wagers && !db.wagers[id].kind.Opening? && db.wagers[id].providerId == c.providerId
          && db.wagers[id].idempotencyKey == c.idempotencyKey;
    assert WagerOk(db.wallets, db.wagers[id]);
    forall other | other in db.wagers && other != id
      ensures !HasKey(db.wagers[other], c.providerId, c.idempotencyKey)
      ensures !HasExternalId(db.wagers[other], c.providerId, db.wagers[id].externalId)
    {
      assert NoClash(db.wagers[id], db.wagers[other]);
    }
  }

  lemma KnownKeyIsPermanent(db: Db, id: Uuid, c: ProcessCommand, outcome: Result<(Db, ProcessResult)>)
    requires Refusals(db, c, outcome) && Wellformed(c) && !OtherBody(db, c) && !KeyIsFree(db, c)
    requires id in db.wagers && HasKey(db.wagers[id], c.providerId, c.idempotencyKey)
    requires SameBusiness(db.wagers[id], c) ==> FitsKind(c)
    requires forall other :: other in db.wagers && other != id ==>
               && !HasKey(db.wagers[other], c.providerId, c.idempotencyKey)
               && !HasExternalId(db.wagers[other], c.providerId, db.wagers[id].externalId)
    requires outcome.Ok? <==> SameBusiness(db.wagers[id], c)
    ensures outcome.Err? && Permanent(outcome.error) <==> Hopeless(db, c)
  {
  }

  lemma FreeKeyIsPermanent(db: Db, c: ProcessCommand, outcome: Result<(Db, ProcessResult)>)
    requires Refusals(db, c, outcome) && Wellformed(c) && KeyIsFree(db, c)
    requires outcome == Err(InboxPayloadConflict) <==> OtherBody(db, c)
    requires ExternalIdMisused(db, c) <==> !ExternalIdIsFree(db, c)
    requires !KeyMisused(db, c)
    ensures outcome.Err? && Permanent(outcome.error) <==> Hopeless(db, c)
  {
  }

  lemma FreeKeyIsUnused(db: Db, c: ProcessCommand)
    requires Valid(db) && KeyIsFree(db, c)
    ensures ExternalIdMisused(db, c) <==> !ExternalIdIsFree(db, c)
    ensures !KeyMisused(db, c)
  {
    assert Obeys(db, WagerRule);
    forall id | id in db.wagers
      ensures db.wagers[id].kind.Opening? <==> !db.wagers[id].kind.External()
    {
      assert WagerOk(db.wallets, db.wagers[id]);
    }
    if !ExternalIdIsFree(db, c) {
      var id :| id in db.wagers && !db.wagers[id].kind.Opening? && db.wagers[id].providerId == c.providerId
                && db.wagers[id].externalId == c.externalId;
      assert HasExternalId(db.wagers[id], c.providerId, c.externalId);
    }
  }

  /** What is hopeless stays so, whatever is committed afterwards. */
  lemma HopelessLasts(db: Db, after: Db, c: ProcessCommand)
    requires Extends(db, after) && Hopeless(db, c)
    ensures Hopeless(after, c)
  {
    if KeyMisused(db, c) {
      var id :| id in db.wagers && HasKey(db.wagers[id], c.providerId, c.idempotencyKey) && !SameBusiness(db.wagers[id], c);
      assert HasKey(after.wagers[id], c.providerId, c.idempotencyKey) && !SameBusiness(after.wagers[id], c);
    }
    if ExternalIdMisused(db, c) {
      var id :| id in db.wagers && HasExternalId(db.wagers[id], c.providerId, c.externalId) &&
                db.wagers[id].idempotencyKey != c.idempotencyKey;
      assert HasExternalId(after.wagers[id], c.providerId, c.externalId);
    }
  }

  // --- the protocol -------------------------------------------------------

  /** What a consumer is doing: nothing, handling a received body, or about to delete a handled message. */
  datatype Worker = Idle | Handling(message: nat, body: Body) | Handled(message: nat, body: Body)

  /** The queue, its dead letters, what was deleted so far, and the consumers. */
  datatype State = State(
    db: Db, queue: map<nat, Body>, dead: map<nat, Body>, deleted: map<nat, Body>, workers: map<nat, Worker>) {

    function Now(worker: nat, doing: Worker): State {
      this.(workers := workers[worker := doing])
    }
  }

  ghost predicate Send(s: State, s': State, message: nat, body: Body) {
    && message !in s.queue && message !in s.dead && message !in s.deleted
    && (forall w :: w in s.workers && !s.workers[w].Idle? ==> s.workers[w].message != message)
    && s' == s.(queue := s.queue[message := body])
  }

  /** Delivery, for the first time or again, perhaps while another consumer is at work on the same message. */
  ghost predicate Receive(s: State, s': State, worker: nat, message: nat) {
    && worker in s.workers && s.workers[worker].Idle? && message in s.queue
    && s' == s.Now(worker, Handling(message, s.queue[message]))
  }

  /** A body that does not decode, or whose command fails, is left in the queue for another delivery. */
  ghost predicate Handle(s: State, s': State, worker: nat, policy: Policy, env: Env) {
    && worker in s.workers && s.workers[worker].Handling? && Readable(s.db) && policy.Valid() && EnvOk(s.db, env)
    && var doing := s.workers[worker];
    && var (after, retry) := Delivered(s.db, doing.body, policy, env);
    && s' == s.(db := after).Now(worker, if retry == None then Handled(doing.message, doing.body) else Idle)
  }

  /** The delete request reaches the queue, or not. */
  ghost predicate Delete(s: State, s': State, worker: nat, arrives: bool) {
    && worker in s.workers && s.workers[worker].Handled?
    && var doing := s.workers[worker];
    && s' == (if arrives && doing.message in s.queue
              then s.(queue := s.queue - {doing.message}, deleted := s.deleted[doing.message := doing.body])
              else s).Now(worker, Idle)
  }

  /** Before its commit or after it. */
  ghost predicate Crash(s: State, s': State, worker: nat) {
    s' == s.Now(worker, Idle)
  }

  /** The queue gives up on a message that was received too often. */
  ghost predicate DeadLetter(s: State, s': State, message: nat) {
    && message in s.queue
    && s' == s.(queue := s.queue - {message}, dead := s.dead[message := s.queue[message]])
  }

  /** HTTP requests and the reference worker. */
  ghost predicate Other(s: State, s': State, op: Op, policy: Policy) {
    && Valid(s.db) && policy.Valid() && (op.ProcessOp? ==> op.command.inbox.None?)
    && s' == s.(db := RunStep(s.db, op, policy))
  }

  datatype Action =
    | SendAction(message: nat, body: Body)
    | ReceiveAction(worker: nat, message: nat)
    | HandleAction(worker: nat, env: Env)
    | DeleteAction(worker: nat, arrives: bool)
    | CrashAction(worker: nat)
    | DeadLetterAction(message: nat)
    | OtherAction(op: Op)

  ghost predicate Next(s: State, s': State, action: Action, policy: Policy) {
    match action
    case SendAction(message, body) => Send(s, s', message, body)
    case ReceiveAction(worker, message) => Receive(s, s', worker, message)
    case HandleAction(worker, env) => Handle(s, s', worker, policy, env)
    case DeleteAction(worker, arrives) => Delete(s, s', worker, arrives)
    case CrashAction(worker) => Crash(s, s', worker)
    case DeadLetterAction(message) => DeadLetter(s, s', message)
    case OtherAction(op) => Other(s, s', op, policy)
  }

  ghost predicate BodyDurable(db: Db, body: Body) {
    CommandOf(body).Some? && Durable(db, CommandOf(body).value)
  }

  ghost function DurableBodies(db: Db): iset<Body> {
    iset body: Body | BodyDurable(db, body)
  }

  /** Deleted messages, and those about to be deleted, are durable; bodies are not confused. */
  ghost predicate Settled(s: State, durable: iset<Body>) {
    && (forall m :: m in s.deleted ==> s.deleted[m] in durable)
    && (forall w :: w in s.workers && s.workers[w].Handled? ==> s.workers[w].body in durable)
    && (forall w :: w in s.workers && !s.workers[w].Idle? && s.workers[w].message in s.queue ==>
          s.workers[w].body == s.queue[s.workers[w].message])
  }

  ghost predicate Inv(s: State) {
    Valid(s.db) && InboxOk(s.db) && Settled(s, DurableBodies(s.db))
  }

  lemma DurableBodiesGrow(db: Db, after: Db)
    requires Extends(db, after)
    ensures DurableBodies(db) <= DurableBodies(after)
  {
    forall body: Body | BodyDurable(db, body)
      ensures BodyDurable(after, body)
    {
      DurableLasts(db, after, CommandOf(body).value);
    }
  }

  lemma GrowthKeepsSettled(s: State, after: Db)
    requires Settled(s, DurableBodies(s.db)) && Extends(s.db, after)
    ensures Settled(s.(db := after), DurableBodies(after))
  {
    DurableBodiesGrow(s.db, after);
    LargerKeepsSettled(s, s.(db := after), DurableBodies(s.db), DurableBodies(after));
  }

  lemma LargerKeepsSettled(s: State, s': State, durable: iset<Body>, more: iset<Body>)
    requires Settled(s, durable) && durable <= more && s' == s.(db := s'.db)
    ensures Settled(s', more)
  {
  }

  lemma CommandCarriesBody(body: Body)
    ensures CommandOf(body).Some? ==>
              FromTransport(CommandOf(body).value) && CommandOf(body).value.inbox.Some? &&
                  CommandOf(body).value.inbox.value.body == body
  {
  }

  lemma DoneKeepsSettled(s: State, durable: iset<Body>, worker: nat, doing: Worker)
    requires Settled(s, durable) && worker in s.workers && s.workers[worker].Handling?
    requires doing.Idle? || (doing == Handled(s.workers[worker].message, s.workers[worker].body) && doing.body in durable)
    ensures Settled(s.Now(worker, doing), durable)
  {
  }

  lemma HandleKeepsInv(s: State, s': State, worker: nat, policy: Policy, env: Env)
    requires Inv(s) && Handle(s, s', worker, policy, env)
    ensures Inv(s')
  {
    var (after, retry) := Delivered(s.db, s.workers[worker].body, policy, env);
    DeliveredDb(s.db, s.workers[worker].body, policy, env);
    DeliveryKeepsSettled(s, after, worker, retry == None);
  }

  lemma DeliveryKeepsSettled(s: State, after: Db, worker: nat, handled: bool)
    requires Settled(s, DurableBodies(s.db)) && Extends(s.db, after) && worker in s.workers && s.workers[worker].Handling?
    requires handled ==> s.workers[worker].body in DurableBodies(after)
    ensures var doing := s.workers[worker];
            Settled(s.(db := after).Now(worker, if handled then Handled(doing.message, doing.body) else Idle),
                    DurableBodies(after))
  {
    var doing := s.workers[worker];
    GrowthKeepsSettled(s, after);
    DoneKeepsSettled(s.(db := after), DurableBodies(after), worker,
                     if handled then Handled(doing.message, doing.body) else Idle);
  }

  /** A delivery that must be retried changes nothing. */
  lemma DeliveredIs(db: Db, body: Body, policy: Policy, env: Env)
    requires Readable(db) && policy.Valid()
    ensures var (after, retry) := Delivered(db, body, policy, env);
            if retry.Some? then after == db
            else CommandOf(body).Some? && ProcessOutcome(db, CommandOf(body).value, policy, env).Ok? &&
                 after == ProcessOutcome(db, CommandOf(body).value, policy, env).value.0
  {
  }

  lemma HandledBody(db: Db, body: Body, policy: Policy, env: Env) returns (after: Db)
    requires Valid(db) && policy.Valid() && EnvOk(db, env) && InboxOk(db)
    requires CommandOf(body).Some? && ProcessOutcome(db, CommandOf(body).value, policy, env).Ok?
    ensures after == ProcessOutcome(db, CommandOf(body).value, policy, env).value.0
    ensures Valid(after) && InboxOk(after) && Extends(db, after) && body in DurableBodies(after)
  {
    CommandCarriesBody(body);
    after := HandledDb(db, CommandOf(body).value, policy, env);
    DurableBody(after, body);
  }

  lemma DurableBody(db: Db, body: Body)
    requires CommandOf(body).Some? && Durable(db, CommandOf(body).value)
    ensures body in DurableBodies(db)
  {
  }

  lemma DeliveredDb(db: Db, body: Body, policy: Policy, env: Env)
    requires Valid(db) && policy.Valid() && EnvOk(db, env) && InboxOk(db)
    ensures var (after, retry) := Delivered(db, body, policy, env);
            && Valid(after) && InboxOk(after) && Extends(db, after)
            && (retry == None ==> body in DurableBodies(after))
  {
    DeliveredIs(db, body, policy, env);
    if Delivered(db, body, policy, env).1.Some? {
      ExtendsItself(db);
    } else {
      var after := HandledBody(db, body, policy, env);
    }
  }

  /** The database after a handled message: valid, larger, with the message durable. */
  lemma HandledDb(db: Db, c: ProcessCommand, policy: Policy, env: Env) returns (after: Db)
    requires Valid(db) && policy.Valid() && EnvOk(db, env) && InboxOk(db) && FromTransport(c) && c.inbox.Some?
    requires ProcessOutcome(db, c, policy, env).Ok?
    ensures after == ProcessOutcome(db, c, policy, env).value.0
    ensures Valid(after) && InboxOk(after) && Extends(db, after) && Durable(after, c)
  {
    after := ProcessOutcome(db, c, policy, env).value.0;
    ProcessKeepsValid(db, c, policy, env);
    ProcessExtends(db, c, policy, env);
    HandlingKeepsInbox(db, c, policy, env);
  }

  lemma OtherKeepsInbox(db: Db, op: Op, policy: Policy)
    requires Valid(db) && policy.Valid() && Possible(db, op)
    requires op.ProcessOp? ==> op.command.inbox.None?
    ensures Called(db, op, policy).inbox == db.inbox
  {
    match op
    case CreateOp(c, env) =>
    case ProcessOp(c, env) =>
    case ResolveOp(id, env) =>
      ResolveSteps(db, id, policy, env);
      StepExtends(db, Called(db, op, policy));
    case RecordOp(id, env) =>
      RecordSteps(db, id, policy, env);
      StepExtends(db, Called(db, op, policy));
    case CrashOp =>
  }

  lemma OtherKeepsInv(s: State, s': State, op: Op, policy: Policy)
    requires Inv(s) && Other(s, s', op, policy)
    ensures Inv(s')
  {
    if Readable(s.db) && Possible(s.db, op) { OtherKeepsInbox(s.db, op, policy); }
    RunStepKeepsValid(s.db, op, policy);
    RunStepExtends(s.db, op, policy);
    InboxOkLasts(s.db, s'.db);
    GrowthKeepsSettled(s, s'.db);
  }

  lemma QueueStepsKeepSettled(s: State, s': State, durable: iset<Body>, worker: nat, message: nat, body: Body)
    requires Settled(s, durable)
    requires Send(s, s', message, body) || Receive(s, s', worker, message) || DeadLetter(s, s', message)
    ensures Settled(s', durable) && s'.db == s.db
  {
  }

  lemma WorkerStepsKeepSettled(s: State, s': State, durable: iset<Body>, worker: nat, arrives: bool)
    requires Settled(s, durable) && (Delete(s, s', worker, arrives) || Crash(s, s', worker))
    ensures Settled(s', durable) && s'.db == s.db
  {
  }

  lemma NextKeepsInv(s: State, s': State, action: Action, policy: Policy)
    requires Inv(s) && Next(s, s', action, policy)
    ensures Inv(s')
  {
    if action.HandleAction? || action.OtherAction? {
      TablesKeepInv(s, s', action, policy);
    } else {
      QueueKeepsInv(s, s', action, policy);
    }
  }

  lemma TablesKeepInv(s: State, s': State, action: Action, policy: Policy)
    requires Inv(s) && Next(s, s', action, policy) && (action.HandleAction? || action.OtherAction?)
    ensures Inv(s')
  {
    if action.HandleAction? {
      HandleKeepsInv(s, s', action.worker, policy, action.env);
    } else {
      OtherKeepsInv(s, s', action.op, policy);
    }
  }

  lemma QueueKeepsInv(s: State, s': State, action: Action, policy: Policy)
    requires Inv(s) && Next(s, s', action, policy) && !action.HandleAction? && !action.OtherAction?
    ensures Inv(s')
  {
    QueueKeepsSettled(s, s', DurableBodies(s.db), action, policy);
  }

  /** The steps of the queue and its consumers touch no table. */
  lemma QueueKeepsSettled(s: State, s': State, durable: iset<Body>, action: Action, policy: Policy)
    requires Settled(s, durable) && Next(s, s', action, policy) && !action.HandleAction? && !action.OtherAction?
    ensures Settled(s', durable) && s'.db == s.db
  {
    match action
    case SendAction(message, body) => QueueStepsKeepSettled(s, s', durable, 0, message, body);
    case ReceiveAction(worker, message) => QueueStepsKeepSettled(s, s', durable, worker, message, s.queue[message]);
    case DeadLetterAction(message) => QueueStepsKeepSettled(s, s', durable, 0, message, s.queue[message]);
    case DeleteAction(worker, arrives) => WorkerStepsKeepSettled(s, s', durable, worker, arrives);
    case CrashAction(worker) => WorkerStepsKeepSettled(s, s', durable, worker, true);
  }

  ghost predicate SomeStep(s: State, s': State, policy: Policy) {
    exists action :: Next(s, s', action, policy)
  }

  /** The k-th state follows from the one before. */
  ghost predicate Follows(states: seq<State>, k: nat, policy: Policy)
    requires 0 < k < |states|
  {
    SomeStep(states[k - 1], states[k], policy)
  }

  /** States that follow one another from an empty system. */
  ghost predicate Trace(states: seq<State>, policy: Policy) {
    && states != []
    && states[0].db == EMPTY && states[0].deleted == map[]
    && (forall w :: w in states[0].workers ==> states[0].workers[w].Idle?)
    && (forall k: nat :: 0 < k < |states| ==> Follows(states, k, policy))
  }

  /** In every reachable state, a deleted message has a complete inbox row and a durable transaction. */
  lemma {:induction false} DeletedIsDurable(states: seq<State>, policy: Policy, k: nat)
    requires Trace(states, policy) && k < |states|
    ensures Inv(states[k])
    decreases k
  {
    if k == 0 {
      EmptyIsValid();
    } else {
      DeletedIsDurable(states, policy, k - 1);
      assert Follows(states, k, policy);
      var action :| Next(states[k - 1], states[k], action, policy);
      NextKeepsInv(states[k - 1], states[k], action, policy);
    }
  }

  lemma DurableIsReplayed(db: Db, body: Body, policy: Policy, env: Env)
    requires Valid(db) && policy.Valid() && BodyDurable(db, body)
    ensures Delivered(db, body, policy, env) == (db, None)
  {
    assert Obeys(db, KeyRule);
    RedeliveryReplays(db, CommandOf(body).value, policy, env);
  }

  /**
   In every reachable state, handling a message whose body was handled before, say after a crash
   or a lost deletion, changes no table and ends with the message ready for deletion.
   */
  lemma HandlingAgainIsHarmless(states: seq<State>, policy: Policy, k: nat, worker: nat, env: Env)
    requires Trace(states, policy) && k + 1 < |states| && Handle(states[k], states[k + 1], worker, policy, env)
    requires BodyDurable(states[k].db, states[k].workers[worker].body)
    ensures states[k + 1] ==
            states[k].Now(worker, Handled(states[k].workers[worker].message, states[k].workers[worker].body))
  {
    DeletedIsDurable(states, policy, k);
    DurableIsReplayed(states[k].db, states[k].workers[worker].body, policy, env);
  }

  /** A durable message is stored: the columns of its row, and its inbox row, are what its envelope says. */
  lemma DurableIsStored(db: Db, body: Body)
    requires Valid(db) && BodyDurable(db, body)
    ensures StoredFrom(db, body)
  {
    var c := CommandOf(body).value;
    EnvelopeBecomesCommand(body, c);
    var id :| id in db.wagers && HasKey(db.wagers[id], c.providerId, c.idempotencyKey)
              && db.wagers[id].payloadHash == Some(PayloadOf(c));
    RowIsStored(db, body, c, id);
  }

  /** The bodies with a row that holds what their envelope says. */
  ghost function StoredBodies(db: Db): iset<Body> {
    iset body: Body | StoredFrom(db, body)
  }

  lemma StoredBody(db: Db, body: Body)
    requires Valid(db) && body in DurableBodies(db)
    ensures body in StoredBodies(db)
  {
    DurableIsStored(db, body);
  }

  /** The same request by HTTP, with any correlation, is a replay of the message. */
  lemma DurableByHttp(db: Db, body: Body, c: ProcessCommand, policy: Policy, env: Env)
    requires Valid(db) && policy.Valid() && BodyDurable(db, body)
    requires c.inbox.None? && |c.correlationId| <= 256 && SaysTheSame(c, body.envelope.value)
    ensures ProcessOutcome(db, c, policy, env).Ok?
    ensures var (after, r) := ProcessOutcome(db, c, policy, env).value;
            && after == db && r.replay && r.transactionId in db.wagers
            && RowFrom(db.wagers[r.transactionId], body.envelope.value)
            && r.status == db.wagers[r.transactionId].status && r.failureCode == db.wagers[r.transactionId].failureCode
  {
    EnvelopeBecomesCommand(body, CommandOf(body).value);
    WellformedIsValid(CommandOf(body).value);
    DurableIsStored(db, body);
    HttpRepeats(db, body, c, policy, env);
  }

  /**
   In every reachable state, what was deleted is stored with the columns of its envelope, and
   the same request by HTTP is a replay that changes nothing.
   */
  lemma DeletedIsStored(states: seq<State>, policy: Policy, k: nat, message: nat, c: ProcessCommand, env: Env)
    requires Trace(states, policy) && k < |states| && message in states[k].deleted && policy.Valid()
    ensures var db, body := states[k].db, states[k].deleted[message];
            && StoredFrom(db, body) && Valid(db)
            && (c.inbox.None? && |c.correlationId| <= 256 && SaysTheSame(c, body.envelope.value) ==>
                  && ProcessOutcome(db, c, policy, env).Ok?
                  && ProcessOutcome(db, c, policy, env).value.0 == db
                  && ProcessOutcome(db, c, policy, env).value.1.replay)
  {
    DeletedIsDurable(states, policy, k);
    var db, body := states[k].db, states[k].deleted[message];
    assert body in DurableBodies(db);
    DurableIsStored(db, body);
    if c.inbox.None? && |c.correlationId| <= 256 && SaysTheSame(c, body.envelope.value) {
      DurableByHttp(db, body, c, policy, env);
    }
  }

  lemma StateExtends(s: State, s': State, action: Action, policy: Policy)
    requires Inv(s) && Next(s, s', action, policy)
    ensures Extends(s.db, s'.db)
  {
    if action.HandleAction? {
      DeliveredDb(s.db, s.workers[action.worker].body, policy, action.env);
    } else if action.OtherAction? {
      RunStepExtends(s.db, action.op, policy);
    } else {
      QueueKeepsSettled(s, s', DurableBodies(s.db), action, policy);
      ExtendsItself(s.db);
    }
  }

  lemma {:induction false} RunExtends(states: seq<State>, policy: Policy, j: nat, k: nat)
    requires Trace(states, policy) && j <= k < |states|
    ensures Extends(states[j].db, states[k].db)
    decreases k
  {
    if j == k {
      ExtendsItself(states[j].db);
    } else {
      RunExtends(states, policy, j, k - 1);
      DeletedIsDurable(states, policy, k - 1);
      assert Follows(states, k, policy);
      var action :| Next(states[k - 1], states[k], action, policy);
      StateExtends(states[k - 1], states[k], action, policy);
      ExtendsTransitive(states[j].db, states[k - 1].db, states[k].db);
    }
  }

  /** A message that failed permanently fails permanently whenever it is handled again, and never changes a table. */
  lemma PermanentIsForGood(states: seq<State>, policy: Policy, j: nat, k: nat, body: Body, env: Env, again: Env)
    requires Trace(states, policy) && j <= k < |states| && policy.Valid()
    requires EnvOk(states[j].db, env) && EnvOk(states[k].db, again)
    requires Readable(states[j].db) && Readable(states[k].db) && Delivered(states[j].db, body, policy, env).1 == Some(true)
    ensures Delivered(states[k].db, body, policy, again) == (states[k].db, Some(true))
  {
    if CommandOf(body).Some? {
      var c := CommandOf(body).value;
      CommandCarriesBody(body);
      DeletedIsDurable(states, policy, j);
      DeletedIsDurable(states, policy, k);
      RunExtends(states, policy, j, k);
      PermanentExact(states[j].db, c, policy, env);
      HopelessLasts(states[j].db, states[k].db, c);
      PermanentExact(states[k].db, c, policy, again);
    }
  }

  // --- the consumer -------------------------------------------------------

  /** Go's conversions of the retry delay to whole seconds. */
  function Wrap(x: int, half: int): int
    requires half > 0
  {
    (x + half) % (2 * half) - half
  }

  function Quotient(x: int, y: int): int
    requires y > 0
  {
    if x < 0 then -(-x / y) else x / y
  }

  function RetrySeconds(delay: Duration): int {
    Wrap(Quotient(Wrap(delay as int + SECOND as int - 1, 0x8000_0000_0000_0000), SECOND as int), 0x8000_0000)
  }

  /** The visibility is the delay rounded up exactly when that many seconds fit 32 bits. */
  lemma RetrySecondsExact(delay: Duration)
    requires delay >= 0
    ensures RetrySeconds(delay) == (delay as int + SECOND as int - 1) / SECOND as int <==> delay as int <= 0x7fff_ffff * SECOND as int
  {
  }

  function Visibility(base: Duration, maximum: Duration, receives: nat, maxReceives: nat, permanent: bool): int
    requires 0 < base <= maximum
  {
    if permanent || receives >= maxReceives then 0
    else
      var delay := Capped(base as int, maximum as int, receives);
      CappedMonotone(base as int, maximum as int, receives, receives);
      RetrySeconds(delay as Duration)
  }

  /**
   Until the last receive, a transient failure hides the message for its doubled and capped
   delay, rounded up to seconds; other failures show it at once.
   */
  lemma VisibilityIsExact(base: Duration, maximum: Duration, receives: nat, maxReceives: nat, permanent: bool)
    requires 0 < base <= maximum && maximum as int <= 0x7fff_ffff * 1_000_000_000 && receives >= 1
    ensures var seconds, exact := Visibility(base, maximum, receives, maxReceives, permanent), base as int * Pow2(receives - 1);
            if permanent || receives >= maxReceives then seconds == 0
            else
              var delay := if exact < maximum as int then exact else maximum as int;
              delay <= seconds * 1_000_000_000 < delay + 1_000_000_000
  {
    CappedIsExact(base as int, maximum as int, receives);
    CappedMonotone(base as int, maximum as int, receives, receives);
    RetrySecondsExact(Capped(base as int, maximum as int, receives) as Duration);
  }

  class InputQueue {
    var messages: map<nat, Body>

    method Remove(receipt: nat)
      modifies this
      ensures messages == old(messages) - {receipt}
    {
      messages := messages - {receipt};
    }
  }

  class Consumer {
    const service: WagerService.Service
    const queue: InputQueue
    const base: Duration
    const maximum: Duration
    const maxReceives: nat

    constructor (service: WagerService.Service, queue: InputQueue, base: Duration, maximum: Duration, maxReceives: nat)
      ensures this.service == service && this.queue == queue && this.base == base && this.maximum == maximum
      ensures this.maxReceives == maxReceives
    {
      this.service, this.queue, this.base, this.maximum, this.maxReceives := service, queue, base, maximum, maxReceives;
    }

    /** The new visibility timeout of a message that was not handled. */
    method ScheduleRetry(receives: nat, permanent: bool) returns (seconds: int)
      requires 0 < base <= maximum
      ensures seconds == Visibility(base, maximum, receives, maxReceives, permanent)
    {
      var delay := Delay(base, maximum, receives);
      if permanent || receives >= maxReceives {
        delay := 0;
      }
      seconds := RetrySeconds(delay);
    }

    /** The call of the service; a handled message is durable. */
    method HandleCommand(c: ProcessCommand, env: Env, ghost body: Body) returns (r: Result<ProcessResult>)
      requires Valid(service.store.db) && Readable(service.store.db) && InboxOk(service.store.db)
      requires service.policy.Valid() && EnvOk(service.store.db, env) && CommandOf(body) == Some(c)
      modifies service.store
      ensures Valid(service.store.db) && InboxOk(service.store.db)
      ensures (service.store.db, if r.Ok? then None else Some(Permanent(r.error))) ==
              Delivered(old(service.store.db), body, service.policy, env)
      ensures r.Ok? ==> body in DurableBodies(service.store.db) && body in StoredBodies(service.store.db)
    {
      DeliveredIs(service.store.db, body, service.policy, env);
      if ProcessOutcome(service.store.db, c, service.policy, env).Ok? {
        ghost var after := HandledBody(service.store.db, body, service.policy, env);
        StoredBody(after, body);
      }
      r := service.Process(c, env);
    }

    /** Decode, handle and commit. */
    method Attempt(body: Body, env: Env) returns (retry: Option<bool>)
      requires Valid(service.store.db) && InboxOk(service.store.db) && service.policy.Valid() && EnvOk(service.store.db, env)
      modifies service.store
      ensures Valid(service.store.db) && InboxOk(service.store.db)
      ensures (service.store.db, retry) == Delivered(old(service.store.db), body, service.policy, env)
      ensures retry == None ==> body in DurableBodies(service.store.db) && body in StoredBodies(service.store.db)
    {
      var command := CommandOf(body);
      if command.None? {
        return Some(true);
      }
      var result := HandleCommand(command.value, env, body);
      return if result.Ok? then None else Some(Permanent(result.error));
    }

    /**
     Handle, commit, then delete, unless the consumer is stopped after the commit or the delete
     request fails. A message is deleted only when it is durable; otherwise it stays. After a
     failure it becomes visible again at once if the consumer was cancelled meanwhile, and
     after the retry delay if not.
     */
    method HandleMessage(receipt: nat, body: Body, receives: nat, env: Env, cancelled: bool, stopped: bool, failed: bool)
      returns (retry: Option<bool>, visibility: Option<int>)
      requires Valid(service.store.db) && InboxOk(service.store.db) && service.policy.Valid() && EnvOk(service.store.db, env)
      requires 0 < base <= maximum
      modifies queue, service.store
      ensures Valid(service.store.db) && InboxOk(service.store.db)
      ensures (service.store.db, retry) == Delivered(old(service.store.db), body, service.policy, env)
      ensures retry == None ==> body in DurableBodies(service.store.db) && body in StoredBodies(service.store.db)
      ensures visibility ==
              if retry == None then None
              else if cancelled && CommandOf(body).Some? then Some(0)
              else Some(Visibility(base, maximum, receives, maxReceives, retry.value))
      ensures queue.messages ==
              if retry == None && !stopped && !failed then old(queue.messages) - {receipt} else old(queue.messages)
    {
      retry := Attempt(body, env);
      visibility := None;
      if retry == None {
        if !stopped && !failed {
          queue.Remove(receipt);
        }
      } else if cancelled && CommandOf(body).Some? {
        visibility := Some(0);
      } else {
        var seconds := ScheduleRetry(receives, retry.value);
        visibility := Some(seconds);
      }
    }
  }
}
