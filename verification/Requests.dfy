/**
 What the calls of the wager service do, by the columns of the request and of the
 stored rows: what is stored, answered, refused and retried, and where rows come from
 (internal/application/wager_service.go).
 */
module Requests {
  import opened Base
  import opened Backoff
  import opened MoneyValue
  import opened Domain
  import opened Contracts
  import opened Database
  import opened Decisions
  import opened Invariants
  import opened Preservation
  import opened Storage
  import opened Calls
  import opened Creation
  import opened History
  import opened Contents
  import Waiting

  // --- requests -----------------------------------------------------------

  /** The transport accepts the request: its texts are given and not too long. */
  predicate Wellformed(c: ProcessCommand) {
    && NotBlank(c.providerId) && |c.providerId| <= 128
    && NotBlank(c.externalId) && |c.externalId| <= 256
    && NotBlank(c.idempotencyKey) && |c.idempotencyKey| <= 256
    && NotBlank(c.roundId) && |c.roundId| <= 256 && NotBlank(c.gameId) && |c.gameId| <= 256
    && c.playerId != NO_ID && c.walletId != NO_ID
    && (c.kind.Bet? || c.kind.Win? || c.kind.Loss? || c.kind.Refund? || c.kind.Rollback?)
    && IsCurrency(c.money.currency)
    && |c.referenceExternalId| <= 256 && (c.kind.Refund? || c.kind.Rollback? ==> c.referenceExternalId != "")
    && |c.correlationId| <= 256
    && (c.inbox.Some? ==>
          && NotBlank(c.inbox.value.key.consumer) && |c.inbox.value.key.consumer| <= 128
          && NotBlank(c.inbox.value.key.messageId) && |c.inbox.value.key.messageId| <= 256)
  }

  /** Losses carry no money and every other kind does; bets and losses refer to nothing. */
  predicate FitsKind(c: ProcessCommand) {
    && (if c.kind.Loss? then c.money.minor == 0 else c.money.minor > 0)
    && (c.kind.Bet? || c.kind.Loss? ==> c.referenceExternalId == "")
  }

  /** The row holds what the request said. */
  predicate CameFrom(w: WagerState, c: ProcessCommand, env: Env) {
    && w.id == env.wagerId && w.providerId == c.providerId && w.externalId == c.externalId
    && w.idempotencyKey == c.idempotencyKey && w.walletId == c.walletId && w.playerId == c.playerId
    && w.roundId == c.roundId && w.gameId == c.gameId && w.kind == c.kind && w.money == c.money
    && w.referenceExternalId == c.referenceExternalId && w.createdAt == env.now
  }

  /** The row as it is before anything was decided. */
  predicate IsRequest(w: WagerState, c: ProcessCommand, env: Env) {
    && CameFrom(w, c, env) && w.payloadHash == Some(PayloadOf(c))
    && w.referenceId == NO_ID && w.status.Pending? && w.failureCode.NoFailure? && w.result == None
    && w.attempts == 0 && w.nextAttempt == None && w.updatedAt == env.now
  }

  /** No stored row has the key, or the external identifier, of the request. */
  ghost predicate KeyIsFree(db: Db, c: ProcessCommand) {
    forall id :: id in db.wagers && !db.wagers[id].kind.Opening? && db.wagers[id].providerId == c.providerId ==>
      db.wagers[id].idempotencyKey != c.idempotencyKey
  }

  ghost predicate ExternalIdIsFree(db: Db, c: ProcessCommand) {
    forall id :: id in db.wagers && !db.wagers[id].kind.Opening? && db.wagers[id].providerId == c.providerId ==>
      db.wagers[id].externalId != c.externalId
  }

  /** The message of the request has not arrived before, or is still open with the same body. */
  predicate MessageIsOpen(db: Db, c: ProcessCommand) {
    c.inbox.Some? && c.inbox.value.key in db.inbox ==>
      db.inbox[c.inbox.value.key].body == c.inbox.value.body && db.inbox[c.inbox.value.key].completedAt == None
  }

  lemma WellformedIsValid(c: ProcessCommand)
    ensures CommandValid(c) <==> Wellformed(c)
  {
  }

  lemma RequestIsMade(c: ProcessCommand, env: Env, w: WagerState)
    requires Wellformed(c) && env.now != ZERO_TIME && env.wagerId != NO_ID && IsRequest(w, c, env)
    ensures NewWager(NewExternalOf(c, env)) == if FitsKind(c) then Ok(w) else Err(InvalidTransaction)
  {
    NotBlankIsNotEmpty(c.providerId);
    NotBlankIsNotEmpty(c.externalId);
    NotBlankIsNotEmpty(c.idempotencyKey);
    NotBlankIsNotEmpty(c.roundId);
    NotBlankIsNotEmpty(c.gameId);
  }

  /** Rows that are no openings came from outside, so the queries find them. */
  lemma RowsAreFound(db: Db, c: ProcessCommand)
    requires WagersOk(db)
    ensures KeyIsFree(db, c) <==> ByKey(db.wagers, c.providerId, c.idempotencyKey).None?
    ensures ExternalIdIsFree(db, c) <==> ByExternalId(db.wagers, c.providerId, c.externalId).None?
  {
    forall id | id in db.wagers
      ensures db.wagers[id].kind.Opening? <==> !db.wagers[id].kind.External()
    {
      assert WagerOk(db.wallets, db.wagers[id]);
    }
  }

  // --- a new request ------------------------------------------------------

  /** Only the inbox row of the message is written: completed, with the body received. */
  ghost predicate InboxCompletedFor(db: Db, after: Db, c: ProcessCommand, now: Time) {
    if c.inbox.None? then after.inbox == db.inbox
    else
      var key := c.inbox.value.key;
      && after.inbox.Keys == db.inbox.Keys + {key}
      && after.inbox[key].body == c.inbox.value.body && after.inbox[key].completedAt == Some(now)
      && after.inbox[key].receivedAt == (if key in db.inbox then db.inbox[key].receivedAt else now)
      && forall other :: other in db.inbox && other != key ==> after.inbox[other] == db.inbox[other]
  }

  /** A new request commits what is decided about it, and is answered with the row and the wallet it leaves. */
  lemma ProcessLeaves(db: Db, c: ProcessCommand, w: WagerState, policy: Policy, env: Env)
    requires Valid(db) && policy.Valid() && EnvOk(db, env)
    requires Wellformed(c) && FitsKind(c) && IsRequest(w, c, env)
    requires KeyIsFree(db, c) && ExternalIdIsFree(db, c) && MessageIsOpen(db, c) && c.walletId in db.wallets
    ensures var outcome := ProcessOutcome(db, c, policy, env);
            match Decide(w, db.wallets[c.walletId], ReferenceOf(db, w), ReversedOf(db, ReferenceOf(db, w)), policy, env.now)
            case Err(e) => outcome == Err(e)
            case Ok(d) =>
              && outcome.Ok?
              && var (after, r) := outcome.value;
              && Left(db, after, w, d,
                      Meta(if c.correlationId == "" then FromId(env.correlationId) else FromCaller(c.correlationId),
                           if c.inbox.Some? then FromCaller(c.inbox.value.key.messageId) else NoTrace,
                           env.now, env.entryId, env.firstEvent, env.secondEvent, true))
              && InboxCompletedFor(db, after, c, env.now)
              && r.transactionId == env.wagerId && r.status == after.wagers[env.wagerId].status
              && r.failureCode == after.wagers[env.wagerId].failureCode && !r.replay
              && r.balance == after.wallets[c.walletId].balance
  {
    ProcessDecides(db, c, w, policy, env);
    var d := Decide(w, db.wallets[c.walletId], ReferenceOf(db, w), ReversedOf(db, ReferenceOf(db, w)), policy, env.now);
    if d.Ok? {
      HandledLeaves(db, ClaimedBy(db, c.inbox, env.now), w, d.value, ProcessMeta(c, env), c.inbox);
      InboxIsCompleted(db, c, Commit(ClaimedBy(db, c.inbox, env.now), w, d.value, ProcessMeta(c, env)), env.now);
    }
  }

  /** The decision is committed between the claim and the completion of the message. */
  lemma ProcessDecides(db: Db, c: ProcessCommand, w: WagerState, policy: Policy, env: Env)
    requires Valid(db) && policy.Valid() && EnvOk(db, env)
    requires Wellformed(c) && FitsKind(c) && IsRequest(w, c, env)
    requires KeyIsFree(db, c) && ExternalIdIsFree(db, c) && MessageIsOpen(db, c) && c.walletId in db.wallets
    ensures var outcome, wallet := ProcessOutcome(db, c, policy, env), db.wallets[c.walletId];
            var claimed := ClaimedBy(db, c.inbox, env.now);
            match Decide(w, wallet, ReferenceOf(db, w), ReversedOf(db, ReferenceOf(db, w)), policy, env.now)
            case Err(e) => outcome == Err(e)
            case Ok(d) =>
              && claimed.wallets == db.wallets
              && outcome == Ok((CompletedBy(Commit(claimed, w, d, ProcessMeta(c, env)), c.inbox, env.now),
                                ResultFrom(Final(w, wallet, d, env.now), BalanceAfter(w, wallet, d), false)))
  {
    WellformedIsValid(c);
    RequestIsMade(c, env, w);
    assert Obeys(db, WagerRule);
    RowsAreFound(db, c);
    NewOutcome(db, c, w, policy, env);
  }

  lemma NewOutcome(db: Db, c: ProcessCommand, w: WagerState, policy: Policy, env: Env)
    requires Readable(db) && policy.Valid() && CommandValid(c) && MessageIsOpen(db, c) && c.walletId in db.wallets
    requires ByKey(db.wagers, c.providerId, c.idempotencyKey).None? && ByExternalId(db.wagers, c.providerId, c.externalId).None?
    requires NewWager(NewExternalOf(c, env)) == Ok(w) && w.walletId == c.walletId
    ensures var outcome, wallet := ProcessOutcome(db, c, policy, env), db.wallets[c.walletId];
            var claimed := ClaimedBy(db, c.inbox, env.now);
            match Decide(w, wallet, ReferenceOf(db, w), ReversedOf(db, ReferenceOf(db, w)), policy, env.now)
            case Err(e) => outcome == Err(e)
            case Ok(d) =>
              && claimed.wallets == db.wallets
              && outcome == Ok((CompletedBy(Commit(claimed, w, d, ProcessMeta(c, env)), c.inbox, env.now),
                                ResultFrom(Final(w, wallet, d, env.now), BalanceAfter(w, wallet, d), false)))
  {
    NewDecision(db, ClaimedBy(db, c.inbox, env.now), w, policy, env.now);
  }

  /** What is left, and the answer, when a decision is committed about a new row. */
  lemma HandledLeaves(db: Db, claimed: Db, w: WagerState, d: Decision, meta: Meta, inbox: Option<InboxInput>)
    requires claimed == ClaimedBy(db, inbox, meta.now) && w.walletId in db.wallets && db.wallets[w.walletId].id == w.walletId
    requires w.failureCode.NoFailure? && w.referenceId == NO_ID
    requires Feasible(w, db.wallets[w.walletId], d) && VersionFits(db.wallets[w.walletId], d)
    ensures claimed.wallets == db.wallets
    ensures var after, wallet := CompletedBy(Commit(claimed, w, d, meta), inbox, meta.now), db.wallets[w.walletId];
            && Left(db, after, w, d, meta) && w.id in after.wagers && w.walletId in after.wallets
            && ResultFrom(Final(w, wallet, d, meta.now), BalanceAfter(w, wallet, d), false) ==
               ProcessResult(w.id, after.wagers[w.id].status, after.wallets[w.walletId].balance,
                             after.wagers[w.id].failureCode, false)
  {
    var handled := Commit(claimed, w, d, meta);
    CommitLeaves(claimed, w, d, meta);
    LeftDespiteInbox(db, claimed, handled, w, d, meta, CompletedBy(handled, inbox, meta.now));
    AnswerIs(claimed, w, d, meta);
  }

  lemma InboxIsCompleted(db: Db, c: ProcessCommand, handled: Db, now: Time)
    requires handled.inbox == ClaimedBy(db, c.inbox, now).inbox && MessageIsOpen(db, c)
    ensures InboxCompletedFor(db, CompletedBy(handled, c.inbox, now), c, now)
  {
  }

  /** The claim of a message changes nothing that is decided upon. */
  lemma NewDecision(db: Db, claimed: Db, w: WagerState, policy: Policy, now: Time)
    requires Readable(db) && policy.Valid() && w.walletId in db.wallets && claimed == db.(inbox := claimed.inbox)
    ensures FirstDecision(claimed, w, policy, now) ==
            Decide(w, db.wallets[w.walletId], ReferenceOf(db, w), ReversedOf(db, ReferenceOf(db, w)), policy, now)
  {
  }

  /** What a decision leaves does not depend on the inbox. */
  lemma LeftDespiteInbox(db: Db, claimed: Db, handled: Db, w: WagerState, d: Decision, meta: Meta, after: Db)
    requires claimed == db.(inbox := claimed.inbox) && after == handled.(inbox := after.inbox)
    requires Left(claimed, handled, w, d, meta)
    ensures Left(db, after, w, d, meta)
  {
  }

  /** The answer states the row and the balance of the wallet as the call leaves them. */
  lemma AnswerIs(db: Db, w: WagerState, d: Decision, meta: Meta)
    requires w.walletId in db.wallets && db.wallets[w.walletId].id == w.walletId && Feasible(w, db.wallets[w.walletId], d)
    ensures var after, wallet := Commit(db, w, d, meta), db.wallets[w.walletId];
            && w.id in after.wagers && w.walletId in after.wallets
            && ResultFrom(Final(w, wallet, d, meta.now), BalanceAfter(w, wallet, d), false) ==
               ProcessResult(w.id, after.wagers[w.id].status, after.wallets[w.walletId].balance,
                             after.wagers[w.id].failureCode, false)
  {
  }

  /** The row at the answered transaction is new, and says what the request said. */
  lemma RequestIsStored(db: Db, c: ProcessCommand, policy: Policy, env: Env)
    requires Valid(db) && policy.Valid() && EnvOk(db, env) && KeyIsFree(db, c) && ProcessOutcome(db, c, policy, env).Ok?
    ensures var (after, r) := ProcessOutcome(db, c, policy, env).value;
            && r.transactionId !in db.wagers && r.transactionId in after.wagers && r.transactionId == env.wagerId && !r.replay
            && var w := after.wagers[r.transactionId];
            && w.id == r.transactionId && w.providerId == c.providerId && w.externalId == c.externalId
            && w.idempotencyKey == c.idempotencyKey && w.walletId == c.walletId && w.playerId == c.playerId
            && w.roundId == c.roundId && w.gameId == c.gameId && w.kind == c.kind && w.money == c.money
            && w.referenceExternalId == c.referenceExternalId && w.createdAt == env.now && w.updatedAt == env.now
            && w.status == r.status && w.failureCode == r.failureCode
            && c.walletId in after.wallets && r.balance == after.wallets[c.walletId].balance
            && forall id :: id in db.wagers ==> id in after.wagers && after.wagers[id] == db.wagers[id]
  {
    FreshOutcome(db, c, policy, env);
    NewRowIs(ClaimedBy(db, c.inbox, env.now), c, policy, env);
  }

  /** Under a free key, success means that a new row was decided. */
  lemma FreshOutcome(db: Db, c: ProcessCommand, policy: Policy, env: Env)
    requires Valid(db) && policy.Valid() && KeyIsFree(db, c) && ProcessOutcome(db, c, policy, env).Ok?
    ensures var claimed := ClaimedBy(db, c.inbox, env.now);
            && claimed == db.(inbox := claimed.inbox) && IsNew(claimed, c, env)
            && var w := NewWager(NewExternalOf(c, env)).value;
            && FirstDecision(claimed, w, policy, env.now).Ok?
            && var d, wallet := FirstDecision(claimed, w, policy, env.now).value, claimed.wallets[w.walletId];
            ProcessOutcome(db, c, policy, env).value ==
              (CompletedBy(Commit(claimed, w, d, ProcessMeta(c, env)), c.inbox, env.now),
               ResultFrom(Final(w, wallet, d, env.now), BalanceAfter(w, wallet, d), false))
  {
    assert Obeys(db, WagerRule);
    RowsAreFound(db, c);
    ProcessIsHandled(db, c, policy, env);
    HandledOutcome(ClaimedBy(db, c.inbox, env.now), c, policy, env);
  }

  lemma NewRowIs(db: Db, c: ProcessCommand, policy: Policy, env: Env)
    requires Readable(db) && policy.Valid() && EnvOk(db, env) && IsNew(db, c, env)
    requires FirstDecision(db, NewWager(NewExternalOf(c, env)).value, policy, env.now).Ok?
    ensures var w := NewWager(NewExternalOf(c, env)).value;
            var d := FirstDecision(db, w, policy, env.now).value;
            var after, wallet := Commit(db, w, d, ProcessMeta(c, env)), db.wallets[c.walletId];
            && w.id == env.wagerId && w.id in after.wagers && c.walletId in after.wallets
            && CameFrom(after.wagers[w.id], c, env) && after.wagers[w.id].updatedAt == env.now
            && ResultFrom(Final(w, wallet, d, env.now), BalanceAfter(w, wallet, d), false) ==
               ProcessResult(env.wagerId, after.wagers[w.id].status, after.wallets[c.walletId].balance,
                             after.wagers[w.id].failureCode, false)
            && forall id :: id in db.wagers ==> id in after.wagers && after.wagers[id] == db.wagers[id]
  {
    var w := NewWager(NewExternalOf(c, env)).value;
    AnswerIs(db, w, FirstDecision(db, w, policy, env.now).value, ProcessMeta(c, env));
    FinalKeepsRequest(w, db.wallets[c.walletId], FirstDecision(db, w, policy, env.now).value, env.now);
  }

  lemma FinalKeepsRequest(w: WagerState, wallet: WalletState, d: Decision, now: Time)
    requires Feasible(w, wallet, d)
    ensures SameRequest(Final(w, wallet, d, now), w) && Final(w, wallet, d, now).updatedAt == now
  {
  }

  // --- references ---------------------------------------------------------

  /** The reference is the row of the provider with the external identifier asked for, if there is one. */
  lemma ReferenceIs(db: Db, w: WagerState, id: Uuid)
    requires Valid(db) && w.referenceExternalId != "" && id in db.wagers
    requires !db.wagers[id].kind.Opening? && db.wagers[id].providerId == w.providerId
    requires db.wagers[id].externalId == w.referenceExternalId
    ensures ReferenceOf(db, w) == Some(db.wagers[id])
    ensures ReversedOf(db, ReferenceOf(db, w)) <==>
            exists r :: r in db.wagers && (db.wagers[r].kind.Refund? || db.wagers[r].kind.Rollback?)
                        && db.wagers[r].status.Processed? && db.wagers[r].referenceId == id
  {
    assert Obeys(db, WagerRule) && Obeys(db, KeyRule);
    assert WagerOk(db.wallets, db.wagers[id]);
    ExternalIdIsUnique(db, w.providerId, w.referenceExternalId, id);
    forall r | r in db.wagers
      ensures IsReversalOf(db.wagers[r], id) <==>
              && (db.wagers[r].kind.Refund? || db.wagers[r].kind.Rollback?)
              && db.wagers[r].status.Processed? && db.wagers[r].referenceId == id
    {
    }
  }

  lemma NoReference(db: Db, w: WagerState)
    requires forall id :: id in db.wagers && db.wagers[id].providerId == w.providerId ==>
               db.wagers[id].externalId != w.referenceExternalId
    ensures ReferenceOf(db, w) == None && !ReversedOf(db, ReferenceOf(db, w))
  {
  }

  // --- the worker ---------------------------------------------------------

  /** A resolution commits what is decided about the waiting row, under its own identifier as correlation. */
  lemma ResolveLeaves(db: Db, id: Uuid, policy: Policy, env: Env)
    requires Valid(db) && policy.Valid() && EnvOk(db, env) && id in db.wagers && db.wagers[id].status.PendingReference?
    ensures var w, outcome := db.wagers[id], ResolveOutcome(db, id, policy, env);
            && w.walletId in db.wallets && db.wallets[w.walletId].balance.minor >= 0
            && match DecideWithReference(w, db.wallets[w.walletId], ReferenceOf(db, w), ReversedOf(db, ReferenceOf(db, w)),
                                         true, policy, env.now)
               case Err(e) => outcome == Err(e)
               case Ok(d) =>
                 && outcome.Ok? && outcome.value.inbox == db.inbox
                 && Left(db, outcome.value, w, d,
                         Meta(FromId(id), NoTrace, env.now, env.entryId, env.firstEvent, env.secondEvent, false))
  {
    assert Obeys(db, WagerRule);
    WaitingIsAdmissible(db, id);
    var w := db.wagers[id];
    var d := ResolveDecision(db, w, policy, env.now);
    if d.Ok? { CommitLeaves(db, w, d.value, WorkerMeta(id, env)); }
  }

  /** Recording a failure retries later exactly while attempts are left, and then fails the row. */
  lemma RecordExact(db: Db, id: Uuid, policy: Policy, env: Env)
    requires Valid(db) && policy.Valid() && EnvOk(db, env) && id in db.wagers && db.wagers[id].status.PendingReference?
    ensures RecordOutcome(db, id, policy, env).Ok?
    ensures var w, after := db.wagers[id], RecordOutcome(db, id, policy, env).value;
            && OtherRowsStay(db, after, id) && after.wallets == db.wallets && after.ledger == db.ledger
            && after.inbox == db.inbox
            && var row := after.wagers[id];
            && SameRequest(row, w) && row.updatedAt == env.now && row.referenceId == NO_ID
            && (w.attempts < policy.maxAttempts ==>
                  && row.status.PendingReference? && row.attempts == w.attempts + 1
                  && row.nextAttempt == Some(env.now + Smaller(policy.base as int * Pow2(w.attempts), policy.maximum as int))
                  && row.failureCode.NoFailure? && row.result == None && after.outbox == db.outbox)
            && (w.attempts >= policy.maxAttempts ==>
                  && row.status.Failed? && row.failureCode.ProcessingAttemptsExhausted? && row.attempts == w.attempts
                  && row.nextAttempt == None && w.walletId in db.wallets
                  && row.result == Some(db.wallets[w.walletId].balance)
                  && AddsEvents(db, after, 1)
                  && var e := after.outbox[|db.outbox|];
                  && Stamped(e, env.firstEvent, id, FromId(id), NoTrace, env.now)
                  && e.data.WagerFailed? && e.data.transactionId == id && e.data.externalId == w.externalId
                  && e.data.providerId == w.providerId && e.data.walletId == w.walletId && e.data.kind == w.kind
                  && e.data.status.Failed? && e.data.failureCode.ProcessingAttemptsExhausted?
                  && e.data.balance == db.wallets[w.walletId].balance)
  {
    RecordCommits(db, id, policy, env);
    FailureTable(db.wagers[id], policy, env.now);
    var w := db.wagers[id];
    if w.attempts < policy.maxAttempts {
      RetryLeaves(db, w, env.now + Smaller(policy.base as int * Pow2(w.attempts), policy.maximum as int), id, env);
    } else {
      FailureLeaves(db, w, id, env);
    }
  }

  lemma RecordCommits(db: Db, id: Uuid, policy: Policy, env: Env)
    requires Valid(db) && policy.Valid() && id in db.wagers && db.wagers[id].status.PendingReference?
    ensures var w := db.wagers[id];
            && w.id == id && w.walletId in db.wallets && w.failureCode.NoFailure? && w.result == None && w.referenceId == NO_ID
            && RecordOutcome(db, id, policy, env) == Ok(Commit(db, w, DecideFailure(w, policy, env.now), WorkerMeta(id, env)))
  {
    assert Obeys(db, WagerRule);
    WaitingIsAdmissible(db, id);
  }

  lemma FailureTable(w: WagerState, policy: Policy, now: Time)
    requires policy.Valid()
    ensures DecideFailure(w, policy, now) ==
            if w.attempts < policy.maxAttempts
            then Hold(now + Smaller(policy.base as int * Pow2(w.attempts), policy.maximum as int))
            else Exhaust
  {
  }

  lemma RetryLeaves(db: Db, w: WagerState, next: Time, id: Uuid, env: Env)
    requires w.id == id && w.walletId in db.wallets
    ensures var after := Commit(db, w, Hold(next), WorkerMeta(id, env));
            && OtherRowsStay(db, after, id) && after == db.(wagers := after.wagers)
            && var row := after.wagers[id];
            && SameRequest(row, w) && row.updatedAt == env.now && row.referenceId == w.referenceId
            && row.status.PendingReference? && row.attempts == w.attempts + 1 && row.nextAttempt == Some(next)
            && row.failureCode == w.failureCode && row.result == w.result
  {
    HoldLeaves(db, w, next, WorkerMeta(id, env));
  }

  lemma FailureLeaves(db: Db, w: WagerState, id: Uuid, env: Env)
    requires w.id == id && w.walletId in db.wallets && w.referenceId == NO_ID
    ensures var after := Commit(db, w, Exhaust, WorkerMeta(id, env));
            && OtherRowsStay(db, after, id) && MoneyStays(db, after) && after.inbox == db.inbox
            && var row := after.wagers[id];
            && SameRequest(row, w) && row.updatedAt == env.now && row.referenceId == NO_ID
            && row.status.Failed? && row.failureCode.ProcessingAttemptsExhausted? && row.attempts == w.attempts
            && row.nextAttempt == None && row.result == Some(db.wallets[w.walletId].balance)
            && AddsEvents(db, after, 1)
            && var e := after.outbox[|db.outbox|];
            && Stamped(e, env.firstEvent, id, FromId(id), NoTrace, env.now)
            && e.data.WagerFailed? && e.data.transactionId == id && e.data.externalId == w.externalId
            && e.data.providerId == w.providerId && e.data.walletId == w.walletId && e.data.kind == w.kind
            && e.data.status.Failed? && e.data.failureCode.ProcessingAttemptsExhausted?
            && e.data.balance == db.wallets[w.walletId].balance
  {
    ExhaustLeaves(db, w, WorkerMeta(id, env));
  }

  // --- repeated and refused requests --------------------------------------

  /** The request says what the stored row says. */
  predicate SameBusiness(w: WagerState, c: ProcessCommand) {
    && w.externalId == c.externalId && w.walletId == c.walletId && w.playerId == c.playerId
    && w.roundId == c.roundId && w.gameId == c.gameId && w.kind == c.kind && w.money == c.money
    && w.providerId == c.providerId && w.referenceExternalId == c.referenceExternalId
  }

  /** The hashes agree exactly when the columns and the request do. */
  lemma HashCompares(db: Db, id: Uuid, c: ProcessCommand)
    requires HashesOk(db) && id in db.wagers && db.wagers[id].kind.External()
    ensures db.wagers[id].payloadHash == Some(PayloadOf(c)) <==> SameBusiness(db.wagers[id], c)
  {
    var w := db.wagers[id];
    assert SelfHashed(w);
    if w.payloadHash == Some(PayloadOf(c)) { AmountInjective(w.money, c.money); }
  }

  /** A request under a known key is answered from the stored row, or refused, by comparing columns. */
  lemma RepeatIsExact(db: Db, id: Uuid, c: ProcessCommand, policy: Policy, env: Env)
    requires Valid(db) && policy.Valid() && Wellformed(c) && id in db.wagers && !db.wagers[id].kind.Opening?
    requires db.wagers[id].providerId == c.providerId && db.wagers[id].idempotencyKey == c.idempotencyKey
    requires c.inbox.Some? && c.inbox.value.key in db.inbox ==> db.inbox[c.inbox.value.key].body == c.inbox.value.body
    ensures var outcome, w := ProcessOutcome(db, c, policy, env), db.wagers[id];
            if SameBusiness(w, c) then
              && outcome.Ok? && outcome.value.0 == db.(inbox := outcome.value.0.inbox)
              && (if MessageIsOpen(db, c) then InboxCompletedFor(db, outcome.value.0, c, env.now)
                  else outcome.value.0 == db)
              && w.walletId in db.wallets
              && outcome.value.1 == ProcessResult(id, w.status, if w.result.Some? then w.result.value
                                                                else db.wallets[w.walletId].balance, w.failureCode, true)
            else outcome == Err(if MessageIsOpen(db, c) then IdempotencyPayloadConflict else InboxPayloadConflict)
  {
    RowUnderKey(db, id, c);
    HashDecides(db, id, c, policy, env);
    if MessageIsOpen(db, c) { InboxIsCompleted(db, c, ClaimedBy(db, c.inbox, env.now), env.now); }
  }

  lemma RowUnderKey(db: Db, id: Uuid, c: ProcessCommand)
    requires Valid(db) && id in db.wagers && !db.wagers[id].kind.Opening?
    requires db.wagers[id].providerId == c.providerId && db.wagers[id].idempotencyKey == c.idempotencyKey
    ensures ByKey(db.wagers, c.providerId, c.idempotencyKey) == Some(db.wagers[id])
    ensures db.wagers[id].id == id && db.wagers[id].walletId in db.wallets
    ensures db.wagers[id].payloadHash == Some(PayloadOf(c)) <==> SameBusiness(db.wagers[id], c)
  {
    assert Obeys(db, WagerRule) && Obeys(db, KeyRule) && Obeys(db, HashRule);
    assert WagerOk(db.wallets, db.wagers[id]);
    HashCompares(db, id, c);
    KeyIsUnique(db, c.providerId, c.idempotencyKey, id);
  }

  lemma HashDecides(db: Db, id: Uuid, c: ProcessCommand, policy: Policy, env: Env)
    requires Readable(db) && policy.Valid() && Wellformed(c) && id in db.wagers
    requires ByKey(db.wagers, c.providerId, c.idempotencyKey) == Some(db.wagers[id])
    requires c.inbox.Some? && c.inbox.value.key in db.inbox ==> db.inbox[c.inbox.value.key].body == c.inbox.value.body
    ensures ProcessOutcome(db, c, policy, env) ==
            if db.wagers[id].payloadHash != Some(PayloadOf(c)) then
              Err(if MessageIsOpen(db, c) then IdempotencyPayloadConflict else InboxPayloadConflict)
            else
              Ok((if MessageIsOpen(db, c) then CompletedBy(ClaimedBy(db, c.inbox, env.now), c.inbox, env.now) else db,
                  ReplayOf(db, db.wagers[id])))
  {
    WellformedIsValid(c);
  }

  /**
   The refusals of Process, in this order, and the errors that remain for a request that is
   decided: a credit past the greatest balance, and the last version.
   */
  ghost predicate Refusals(db: Db, c: ProcessCommand, outcome: Result<(Db, ProcessResult)>) {
    if !Wellformed(c) then outcome == Err(InvalidTransaction)
    else if c.inbox.Some? && c.inbox.value.key in db.inbox && db.inbox[c.inbox.value.key].body != c.inbox.value.body then
      outcome == Err(InboxPayloadConflict)
    else if !KeyIsFree(db, c) then
      outcome.Err? ==> outcome == Err(if MessageIsOpen(db, c) then IdempotencyPayloadConflict else InboxPayloadConflict)
    else if !MessageIsOpen(db, c) then outcome == Err(InboxPayloadConflict)
    else if !ExternalIdIsFree(db, c) then outcome == Err(ExternalTransactionConflict)
    else if c.walletId !in db.wallets then outcome == Err(NotFound)
    else if !FitsKind(c) then outcome == Err(InvalidTransaction)
    else
      outcome.Err? ==>
        || (outcome.error == MoneyOverflow && db.wallets[c.walletId].balance.minor + c.money.minor > MAX_INT64)
        || (outcome.error == IntegerOutOfRange && db.wallets[c.walletId].version == MAX_INT64)
  }

  /** Process refuses exactly so. */
  lemma RefusalTable(db: Db, c: ProcessCommand, policy: Policy, env: Env)
    requires Valid(db) && policy.Valid() && EnvOk(db, env)
    ensures Refusals(db, c, ProcessOutcome(db, c, policy, env))
  {
    WellformedIsValid(c);
    assert Obeys(db, WagerRule);
    RowsAreFound(db, c);
    if Wellformed(c) {
      var w := WagerState(
        env.wagerId, c.providerId, c.externalId, c.idempotencyKey, Some(PayloadOf(c)), c.walletId, c.playerId,
        c.roundId, c.gameId, c.kind, c.money, c.referenceExternalId, NO_ID, Pending, NoFailure, None, 0, None,
        env.now, env.now);
      RequestIsMade(c, env, w);
      if KeyIsFree(db, c) && ExternalIdIsFree(db, c) && MessageIsOpen(db, c) && c.walletId in db.wallets && FitsKind(c) {
        DecidedErrors(db, c, w, policy, env);
      } else {
        EarlyRefusals(db, c, policy, env);
      }
    }
  }

  lemma DecidedErrors(db: Db, c: ProcessCommand, w: WagerState, policy: Policy, env: Env)
    requires Valid(db) && policy.Valid() && EnvOk(db, env)
    requires Wellformed(c) && FitsKind(c) && IsRequest(w, c, env) && NewWager(NewExternalOf(c, env)) == Ok(w)
    requires KeyIsFree(db, c) && ExternalIdIsFree(db, c) && MessageIsOpen(db, c) && c.walletId in db.wallets
    ensures Refusals(db, c, ProcessOutcome(db, c, policy, env))
  {
    assert Obeys(db, WalletRule);
    ProcessDecides(db, c, w, policy, env);
    Waiting.DecideErrors(w, db.wallets[c.walletId], ReferenceOf(db, w), ReversedOf(db, ReferenceOf(db, w)), policy, env.now);
  }

  lemma EarlyRefusals(db: Db, c: ProcessCommand, policy: Policy, env: Env)
    requires Readable(db) && policy.Valid() && CommandValid(c) && Wellformed(c)
    requires KeyIsFree(db, c) <==> ByKey(db.wagers, c.providerId, c.idempotencyKey).None?
    requires ExternalIdIsFree(db, c) <==> ByExternalId(db.wagers, c.providerId, c.externalId).None?
    requires NewWager(NewExternalOf(c, env)).Err? <==> !FitsKind(c)
    requires NewWager(NewExternalOf(c, env)).Err? ==> NewWager(NewExternalOf(c, env)).error == InvalidTransaction
    requires !(KeyIsFree(db, c) && ExternalIdIsFree(db, c) && MessageIsOpen(db, c) && c.walletId in db.wallets && FitsKind(c))
    ensures Refusals(db, c, ProcessOutcome(db, c, policy, env))
  {
    if MessageIsOpen(db, c) {
      OpenIsHandled(db, c, policy, env);
      HandleRefuses(ClaimedBy(db, c.inbox, env.now), c, policy, env);
      HandledRefusals(db, c, HandleOutcome(ClaimedBy(db, c.inbox, env.now), c, policy, env),
                      ProcessOutcome(db, c, policy, env), NewWager(NewExternalOf(c, env)));
    }
  }

  /** An open message is claimed, handled, and completed on success. */
  lemma OpenIsHandled(db: Db, c: ProcessCommand, policy: Policy, env: Env)
    requires Readable(db) && policy.Valid() && CommandValid(c) && MessageIsOpen(db, c)
    ensures var claimed, outcome := ClaimedBy(db, c.inbox, env.now), ProcessOutcome(db, c, policy, env);
            && claimed == db.(inbox := claimed.inbox) && Readable(claimed)
            && (outcome.Err? <==> HandleOutcome(claimed, c, policy, env).Err?)
            && (outcome.Err? ==> outcome.error == HandleOutcome(claimed, c, policy, env).error)
  {
  }

  lemma HandledRefusals(db: Db, c: ProcessCommand, handled: Result<(Db, ProcessResult)>, outcome: Result<(Db, ProcessResult)>,
      made: Result<WagerState>)
    requires Wellformed(c) && MessageIsOpen(db, c)
    requires outcome.Err? <==> handled.Err?
    requires outcome.Err? ==> outcome.error == handled.error
    requires made.Err? <==> !FitsKind(c)
    requires made.Err? ==> made.error == InvalidTransaction
    requires if !KeyIsFree(db, c) then handled.Ok? || handled == Err(IdempotencyPayloadConflict)
             else if !ExternalIdIsFree(db, c) then handled == Err(ExternalTransactionConflict)
             else if c.walletId !in db.wallets then handled == Err(NotFound)
             else made.Err? ==> handled == Err(made.error)
    requires !(KeyIsFree(db, c) && ExternalIdIsFree(db, c) && c.walletId in db.wallets && FitsKind(c))
    ensures Refusals(db, c, outcome)
  {
  }

  lemma HandleRefuses(db: Db, c: ProcessCommand, policy: Policy, env: Env)
    requires Readable(db) && policy.Valid() && CommandValid(c)
    ensures var outcome, key := HandleOutcome(db, c, policy, env), ByKey(db.wagers, c.providerId, c.idempotencyKey);
            if key.Some? then outcome.Ok? || outcome == Err(IdempotencyPayloadConflict)
            else if ByExternalId(db.wagers, c.providerId, c.externalId).Some? then outcome == Err(ExternalTransactionConflict)
            else if c.walletId !in db.wallets then outcome == Err(NotFound)
            else NewWager(NewExternalOf(c, env)).Err? ==> outcome == Err(NewWager(NewExternalOf(c, env)).error)
  {
  }

  // --- a new wallet -------------------------------------------------------

  /** What a creation is asked for can be created. */
  predicate Creatable(c: CreateCommand) {
    c.playerId != NO_ID && IsCurrency(c.initial.currency) && |c.correlationId| <= 256 && c.initial.minor >= 0
  }

  /** The opening of a wallet: its row, its entry and its two events, all of the initial balance. */
  ghost predicate OpenedWith(db: Db, after: Db, c: CreateCommand, env: CreateEnv) {
    && OtherRowsStay(db, after, env.transactionId)
    && var w := after.wagers[env.transactionId];
    && w.id == env.transactionId && w.kind.Opening? && w.status.Processed? && w.failureCode.NoFailure?
    && w.walletId == env.walletId && w.playerId == c.playerId && w.money == c.initial && w.result == Some(c.initial)
    && w.providerId == "" && w.externalId == "" && w.idempotencyKey == "" && w.roundId == "" && w.gameId == ""
    && w.referenceExternalId == "" && w.referenceId == NO_ID && w.payloadHash == None
    && w.attempts == 0 && w.nextAttempt == None && w.createdAt == env.now && w.updatedAt == env.now
    && |after.ledger| == |db.ledger| + 1 && after.ledger[..|db.ledger|] == db.ledger
    && var e := after.ledger[|db.ledger|];
    && e.id == env.entryId && e.walletId == env.walletId && e.transactionId == env.transactionId && e.direction.Credit?
    && e.money == c.initial && e.before == Money(0, c.initial.currency) && e.after == c.initial && e.createdAt == env.now
    && AddsEvents(db, after, 2)
    && var first, second := after.outbox[|db.outbox|], after.outbox[|db.outbox| + 1];
    && var correlation := if c.correlationId == "" then FromId(env.correlationId) else FromCaller(c.correlationId);
    && Stamped(first, env.firstEvent, env.transactionId, correlation, NoTrace, env.now) && TellsTerminal(first.data, w)
    && Stamped(second, env.secondEvent, env.walletId, correlation, FromId(env.transactionId), env.now)
    && TellsEntry(second.data, e) && second.data.walletVersion == 1
  }

  /**
   Creation succeeds exactly when what is asked for is valid and the player has no wallet of
   that currency; it stores the wallet with the initial balance, and its opening unless that is zero.
   */
  lemma CreateExact(db: Db, c: CreateCommand, env: CreateEnv)
    requires CreateEnvOk(db, env)
    ensures var outcome := CreateOutcome(db, c, env);
            var taken := exists id :: id in db.wallets && db.wallets[id].playerId == c.playerId
                                      && db.wallets[id].balance.currency == c.initial.currency;
            && (!Creatable(c) ==> outcome == Err(InvalidWallet))
            && (Creatable(c) && taken ==> outcome == Err(Conflict))
            && (Creatable(c) && !taken ==>
                  && outcome.Ok?
                  && var (after, wallet) := outcome.value;
                  && wallet.id == env.walletId && wallet.playerId == c.playerId && wallet.balance == c.initial
                  && wallet.version == 1 && wallet.createdAt == env.now && wallet.updatedAt == env.now
                  && after.wallets == db.wallets[env.walletId := wallet] && after.inbox == db.inbox
                  && (c.initial.minor == 0 ==>
                        after.wagers == db.wagers && after.ledger == db.ledger && after.outbox == db.outbox)
                  && (c.initial.minor > 0 ==> OpenedWith(db, after, c, env)))
  {
  }

  // --- where rows come from -----------------------------------------------

  /** Of all calls, only Process adds rows from outside, and they say what its request said. */
  lemma NewRowHasRequest(db: Db, op: Op, policy: Policy, id: Uuid)
    requires Valid(db) && policy.Valid() && Possible(db, op)
    requires id !in db.wagers && id in Called(db, op, policy).wagers && !Called(db, op, policy).wagers[id].kind.Opening?
    ensures op.ProcessOp? && CameFrom(Called(db, op, policy).wagers[id], op.command, op.env)
  {
    match op
    case CreateOp(c, env) =>
    case ProcessOp(c, env) => NewRowOfProcess(db, c, policy, env, id);
    case ResolveOp(row, env) => ResolveAddsNothing(db, row, policy, env);
    case RecordOp(row, env) => RecordAddsNothing(db, row, policy, env);
    case CrashOp =>
  }

  lemma NewRowOfProcess(db: Db, c: ProcessCommand, policy: Policy, env: Env, id: Uuid)
    requires Readable(db) && policy.Valid() && EnvOk(db, env) && ProcessOutcome(db, c, policy, env).Ok?
    requires id !in db.wagers && id in ProcessOutcome(db, c, policy, env).value.0.wagers
    ensures CameFrom(ProcessOutcome(db, c, policy, env).value.0.wagers[id], c, env)
  {
    ProcessIsHandled(db, c, policy, env);
    NewRowOfHandling(ClaimedBy(db, c.inbox, env.now), c, policy, env, id);
  }

  lemma NewRowOfHandling(db: Db, c: ProcessCommand, policy: Policy, env: Env, id: Uuid)
    requires Readable(db) && policy.Valid() && EnvOk(db, env) && HandleOutcome(db, c, policy, env).Ok?
    requires id !in db.wagers && id in HandleOutcome(db, c, policy, env).value.0.wagers
    ensures CameFrom(HandleOutcome(db, c, policy, env).value.0.wagers[id], c, env)
  {
    HandledOutcome(db, c, policy, env);
    var w := NewWager(NewExternalOf(c, env)).value;
    NewRowIs(db, c, policy, env);
    OnlyOwnRow(db, w, FirstDecision(db, w, policy, env.now).value, ProcessMeta(c, env), id);
  }

  lemma OnlyOwnRow(db: Db, w: WagerState, d: Decision, meta: Meta, id: Uuid)
    requires w.walletId in db.wallets && Feasible(w, db.wallets[w.walletId], d)
    requires id in Commit(db, w, d, meta).wagers && id !in db.wagers
    ensures id == w.id
  {
  }

  lemma ResolveAddsNothing(db: Db, id: Uuid, policy: Policy, env: Env)
    requires Readable(db) && policy.Valid()
    ensures ResolveOutcome(db, id, policy, env).Ok? ==> ResolveOutcome(db, id, policy, env).value.wagers.Keys == db.wagers.Keys
  {
  }

  lemma RecordAddsNothing(db: Db, id: Uuid, policy: Policy, env: Env)
    requires Readable(db) && policy.Valid()
    ensures RecordOutcome(db, id, policy, env).Ok? ==> RecordOutcome(db, id, policy, env).value.wagers.Keys == db.wagers.Keys
  {
  }

  lemma IdentityLasts(w: WagerState, after: WagerState, c: ProcessCommand, env: Env)
    requires RowExtends(w, after) && CameFrom(w, c, env)
    ensures CameFrom(after, c, env)
  {
  }

  /** In every run, each row that is no opening says what some request of the run said, which is found. */
  lemma {:induction false} EveryRowHasRequest(ops: seq<Op>, policy: Policy, id: Uuid) returns (k: nat)
    requires policy.Valid()
    requires id in Execute(EMPTY, ops, policy).wagers && !Execute(EMPTY, ops, policy).wagers[id].kind.Opening?
    ensures k < |ops| && ops[k].ProcessOp?
    ensures CameFrom(Execute(EMPTY, ops, policy).wagers[id], ops[k].command, ops[k].env)
    decreases |ops|
  {
    if ops == [] {
      assert false;
    } else {
      var before, op := Execute(EMPTY, ops[..|ops| - 1], policy), ops[|ops| - 1];
      RunIsValid(ops[..|ops| - 1], policy);
      if id in before.wagers {
        RunStepExtends(before, op, policy);
        k := EveryRowHasRequest(ops[..|ops| - 1], policy, id);
        IdentityLasts(before.wagers[id], RunStep(before, op, policy).wagers[id], ops[k].command, ops[k].env);
      } else {
        NewRowHasRequest(before, op, policy, id);
        k := |ops| - 1;
      }
    }
  }

  /**
   In every run, a processed win, refund or rollback that refers to a transaction, and the
   transaction, came from requests with the same provider, player, wallet, round and currency;
   a reversal came with the same money, and each kind refers to the kinds it may.
   */
  lemma ReferenceSharesContext(ops: seq<Op>, policy: Policy, id: Uuid) returns (j: nat, k: nat)
    requires policy.Valid() && id in Execute(EMPTY, ops, policy).wagers
    requires var w := Execute(EMPTY, ops, policy).wagers[id];
             w.status.Processed? && !w.kind.Opening? && w.referenceExternalId != ""
    ensures j < |ops| && k < |ops| && ops[j].ProcessOp? && ops[k].ProcessOp?
    ensures var db, c, r := Execute(EMPTY, ops, policy), ops[j].command, ops[k].command;
            && CameFrom(db.wagers[id], c, ops[j].env)
            && db.wagers[id].referenceId in db.wagers && CameFrom(db.wagers[db.wagers[id].referenceId], r, ops[k].env)
            && db.wagers[db.wagers[id].referenceId].status.Processed?
            && c.providerId == r.providerId && c.playerId == r.playerId && c.walletId == r.walletId
            && c.roundId == r.roundId && c.money.currency == r.money.currency && c.referenceExternalId == r.externalId
            && (c.kind.Refund? || c.kind.Rollback? ==> c.money == r.money)
            && (c.kind.Win? || c.kind.Refund? ==> r.kind.Bet?)
            && (c.kind.Rollback? ==> r.kind.Bet? || r.kind.Win? || r.kind.Refund?)
  {
    var db := Execute(EMPTY, ops, policy);
    RunIsValid(ops, policy);
    assert Obeys(db, ReferenceRule);
    var reference := db.wagers[id].referenceId;
    assert ReferenceHonoured(db.wagers, db.wagers[id]) && NamesTerminal(db.wagers, db.wagers[id]);
    j := EveryRowHasRequest(ops, policy, id);
    k := EveryRowHasRequest(ops, policy, reference);
  }
}
