/**
 What each call of the wager service does to the database, as one function of the
 committed state, and why its decision is legal (internal/application/wager_service.go).
 */
module Calls {
  import opened Base
  import opened Backoff
  import opened MoneyValue
  import opened Domain
  import opened Contracts
  import opened Database
  import opened Decisions
  import opened Invariants
  import opened Preservation
  import opened Admission
  import opened Storage

  /** The clock reading and the identifiers generated for one call. */
  datatype Env = Env(now: Time, wagerId: Uuid, entryId: Uuid, firstEvent: Uuid, secondEvent: Uuid, correlationId: Uuid)

  /** The clock runs and generated identifiers are new. */
  ghost predicate EnvOk(db: Db, env: Env) {
    && env.now != ZERO_TIME && env.wagerId != NO_ID && env.entryId != NO_ID
    && env.firstEvent != NO_ID && env.secondEvent != NO_ID && env.firstEvent != env.secondEvent
    && env.wagerId !in db.wagers
    && (forall i :: 0 <= i < |db.ledger| ==> db.ledger[i].id != env.entryId)
    && (forall i :: 0 <= i < |db.outbox| ==> db.outbox[i].id != env.firstEvent && db.outbox[i].id != env.secondEvent)
  }

  // --- what the calls do --------------------------------------------------

  function NewExternalOf(c: ProcessCommand, env: Env): NewExternal {
    NewExternal(env.wagerId, c.providerId, c.externalId, c.idempotencyKey, Some(PayloadOf(c)), c.walletId, c.playerId,
                c.roundId, c.gameId, c.kind, c.money, c.referenceExternalId, env.now)
  }

  function ProcessMeta(c: ProcessCommand, env: Env): Meta {
    Meta(if c.correlationId == "" then FromId(env.correlationId) else FromCaller(c.correlationId),
         if c.inbox.Some? then FromCaller(c.inbox.value.key.messageId) else NoTrace,
         env.now, env.entryId, env.firstEvent, env.secondEvent, true)
  }

  function WorkerMeta(id: Uuid, env: Env): Meta {
    Meta(FromId(id), NoTrace, env.now, env.entryId, env.firstEvent, env.secondEvent, false)
  }

  /** The reference that a transaction asks for, as committed. */
  ghost function ReferenceOf(db: Db, w: WagerState): Option<WagerState> {
    if w.referenceExternalId == "" then None else ByExternalId(db.wagers, w.providerId, w.referenceExternalId)
  }

  ghost predicate ReversedOf(db: Db, reference: Option<WagerState>) {
    reference.Some? && ReversalExists(db.wagers, reference.value.id)
  }

  /** The answer to a repeated request: the frozen balance of a terminal row, the current one otherwise. */
  function ReplayOf(db: Db, t: WagerState): ProcessResult
    requires t.walletId in db.wallets
  {
    ResultFrom(t, if t.result.Some? then t.result.value else db.wallets[t.walletId].balance, true)
  }

  function BalanceAfter(w: WagerState, wallet: WalletState, d: Decision): Money
    requires Feasible(w, wallet, d)
  {
    if d.Settle? then Money(Target(w, wallet, d.direction), wallet.balance.currency) else wallet.balance
  }

  /** A queue message is claimed before it is handled, and completed in the same commit. */
  function ClaimedBy(db: Db, inbox: Option<InboxInput>, now: Time): Db {
    if inbox.None? then db else Claimed(db, inbox.value, now)
  }

  function CompletedBy(db: Db, inbox: Option<InboxInput>, now: Time): Db
    requires inbox.Some? ==> inbox.value.key in db.inbox
  {
    if inbox.None? then db else Completed(db, inbox.value, now)
  }

  /** The decision of the first call about a transaction. */
  ghost function FirstDecision(db: Db, w: WagerState, policy: Policy, now: Time): (r: Result<Decision>)
    requires w.walletId in db.wallets && db.wallets[w.walletId].balance.minor >= 0 && policy.Valid()
    ensures r.Ok? ==> Feasible(w, db.wallets[w.walletId], r.value)
  {
    Decide(w, db.wallets[w.walletId], ReferenceOf(db, w), ReversedOf(db, ReferenceOf(db, w)), policy, now)
  }

  /** The first call about a transaction, the message aside: a replay, a conflict, or a new row. */
  ghost function HandleOutcome(db: Db, c: ProcessCommand, policy: Policy, env: Env): (r: Result<(Db, ProcessResult)>)
    requires Readable(db) && policy.Valid()
    ensures r.Ok? ==> r.value.0.inbox == db.inbox
  {
    var existing := ByKey(db.wagers, c.providerId, c.idempotencyKey);
    if existing.Some? then
      if existing.value.payloadHash == Some(PayloadOf(c)) then Ok((db, ReplayOf(db, existing.value)))
      else Err(IdempotencyPayloadConflict)
    else if ByExternalId(db.wagers, c.providerId, c.externalId).Some? then Err(ExternalTransactionConflict)
    else if c.walletId !in db.wallets then Err(NotFound)
    else
      var w :- NewWager(NewExternalOf(c, env));
      var wallet := db.wallets[c.walletId];
      var d :- FirstDecision(db, w, policy, env.now);
      Ok((Commit(db, w, d, ProcessMeta(c, env)),
          ResultFrom(Final(w, wallet, d, env.now), BalanceAfter(w, wallet, d), false)))
  }

  /** Process: the new database with the result, or the error of a call that leaves the database alone. */
  ghost function ProcessOutcome(db: Db, c: ProcessCommand, policy: Policy, env: Env): Result<(Db, ProcessResult)>
    requires Readable(db) && policy.Valid()
  {
    if !CommandValid(c) then Err(InvalidTransaction)
    else if c.inbox.Some? && InboxConflicts(db, c.inbox.value) then Err(InboxPayloadConflict)
    else if c.inbox.Some? && InboxCompleted(db, c.inbox.value) then
      var existing := ByKey(db.wagers, c.providerId, c.idempotencyKey);
      if existing.Some? && existing.value.payloadHash == Some(PayloadOf(c)) then Ok((db, ReplayOf(db, existing.value)))
      else Err(InboxPayloadConflict)
    else
      var handled :- HandleOutcome(ClaimedBy(db, c.inbox, env.now), c, policy, env);
      Ok((CompletedBy(handled.0, c.inbox, env.now), handled.1))
  }

  /** The decision of the worker about a waiting transaction. */
  ghost function ResolveDecision(db: Db, w: WagerState, policy: Policy, now: Time): (r: Result<Decision>)
    requires w.walletId in db.wallets && db.wallets[w.walletId].balance.minor >= 0 && policy.Valid()
    ensures r.Ok? ==> Feasible(w, db.wallets[w.walletId], r.value)
  {
    var reference := ByExternalId(db.wagers, w.providerId, w.referenceExternalId);
    DecideWithReference(w, db.wallets[w.walletId], reference, ReversedOf(db, reference), true, policy, now)
  }

  ghost function ResolveOutcome(db: Db, id: Uuid, policy: Policy, env: Env): Result<Db>
    requires Readable(db) && policy.Valid()
  {
    if id !in db.wagers then Err(NotFound)
    else if !db.wagers[id].status.PendingReference? then Ok(db)
    else
      var d :- ResolveDecision(db, db.wagers[id], policy, env.now);
      Ok(Commit(db, db.wagers[id], d, WorkerMeta(id, env)))
  }

  ghost function RecordOutcome(db: Db, id: Uuid, policy: Policy, env: Env): Result<Db>
    requires Readable(db) && policy.Valid()
  {
    if id !in db.wagers then Err(NotFound)
    else if !db.wagers[id].status.PendingReference? then Ok(db)
    else Ok(Commit(db, db.wagers[id], DecideFailure(db.wagers[id], policy, env.now), WorkerMeta(id, env)))
  }

  // --- the decisions are legal --------------------------------------------

  lemma AtomicView(db: Db, w: WagerState)
    requires WagersOk(db)
    ensures ViewOk(db.wagers, w, ReferenceOf(db, w), ReversedOf(db, ReferenceOf(db, w)))
  {
    if ReferenceOf(db, w).Some? {
      var id :| id in db.wagers && db.wagers[id] == ReferenceOf(db, w).value &&
                HasExternalId(db.wagers[id], w.providerId, w.referenceExternalId);
      assert WagerOk(db.wallets, db.wagers[id]);
    }
  }

  /** A new transaction with free keys may be decided. */
  lemma NewIsAdmissible(db: Db, c: ProcessCommand, env: Env)
    requires EnvOk(db, env) && NewWager(NewExternalOf(c, env)).Ok? && c.walletId in db.wallets
    requires ByKey(db.wagers, c.providerId, c.idempotencyKey).None? && ByExternalId(db.wagers, c.providerId, c.externalId).None?
    ensures Admissible(db, NewWager(NewExternalOf(c, env)).value, true)
    ensures IdsFree(db, ProcessMeta(c, env))
  {
  }

  lemma ProcessLegal(db: Db, c: ProcessCommand, policy: Policy, env: Env)
    requires WalletsOk(db) && WagersOk(db) && policy.Valid() && EnvOk(db, env) &&
             NewWager(NewExternalOf(c, env)).Ok? && c.walletId in db.wallets
    requires ByKey(db.wagers, c.providerId, c.idempotencyKey).None? && ByExternalId(db.wagers, c.providerId, c.externalId).None?
    ensures var w := NewWager(NewExternalOf(c, env)).value;
            var d := FirstDecision(db, w, policy, env.now);
            d.Ok? ==> Legal(db, w, d.value, ProcessMeta(c, env))
  {
    var w := NewWager(NewExternalOf(c, env)).value;
    NewIsAdmissible(db, c, env);
    AtomicView(db, w);
    FirstDecisionJustified(db, w, ReferenceOf(db, w), ReversedOf(db, ReferenceOf(db, w)), policy, ProcessMeta(c, env));
  }

  lemma WaitingIsAdmissible(db: Db, id: Uuid)
    requires WagersOk(db) && id in db.wagers && db.wagers[id].status.PendingReference?
    ensures Admissible(db, db.wagers[id], false) && Undecided(db.wagers[id])
    ensures IdentityMatches(db.wagers[id], db.wallets[db.wagers[id].walletId])
    ensures db.wagers[id].referenceExternalId != "" && db.wagers[id].attempts >= 1
  {
    assert WagerOk(db.wallets, db.wagers[id]);
  }

  lemma ResolveLegal(db: Db, id: Uuid, policy: Policy, env: Env)
    requires WalletsOk(db) && WagersOk(db) && policy.Valid() && EnvOk(db, env) && id in db.wagers &&
             db.wagers[id].status.PendingReference?
    ensures WagerOk(db.wallets, db.wagers[id])
    ensures var d := ResolveDecision(db, db.wagers[id], policy, env.now);
            d.Ok? ==> Legal(db, db.wagers[id], d.value, WorkerMeta(id, env))
  {
    var w := db.wagers[id];
    WaitingIsAdmissible(db, id);
    AtomicView(db, w);
    ViewedLegal(db, id, ReferenceOf(db, w), ReversedOf(db, ReferenceOf(db, w)), policy, env);
  }

  /** So is the decision from a reference and a reversal query that were read earlier. */
  lemma ViewedLegal(db: Db, id: Uuid, reference: Option<WagerState>, reversed: bool, policy: Policy, env: Env)
    requires WalletsOk(db) && WagersOk(db) && policy.Valid() && EnvOk(db, env) && id in db.wagers &&
             db.wagers[id].status.PendingReference?
    requires ViewOk(db.wagers, db.wagers[id], reference, reversed)
    ensures db.wagers[id].walletId in db.wallets && db.wallets[db.wagers[id].walletId].balance.minor >= 0
    ensures var d := DecideWithReference(db.wagers[id], db.wallets[db.wagers[id].walletId], reference, reversed, true, policy,
                                         env.now);
            d.Ok? ==> Legal(db, db.wagers[id], d.value, WorkerMeta(id, env))
  {
    WaitingIsAdmissible(db, id);
    DecisionJustified(db, db.wagers[id], reference, reversed, true, policy, WorkerMeta(id, env));
  }

  lemma RecordLegal(db: Db, id: Uuid, policy: Policy, env: Env)
    requires WalletsOk(db) && WagersOk(db) && policy.Valid() && EnvOk(db, env) && id in db.wagers &&
             db.wagers[id].status.PendingReference?
    ensures Legal(db, db.wagers[id], DecideFailure(db.wagers[id], policy, env.now), WorkerMeta(id, env))
  {
    WaitingIsAdmissible(db, id);
    FailureJustified(db, db.wagers[id], policy, WorkerMeta(id, env));
  }

  // --- the calls keep the invariant ---------------------------------------

  /** Nothing happened, or one legal decision was committed. */
  ghost predicate Steps(db: Db, after: Db) {
    after == db || exists w, d, meta :: Legal(db, w, d, meta) && after == Commit(db, w, d, meta)
  }

  lemma StepKeepsValid(db: Db, after: Db)
    requires Valid(db) && Steps(db, after)
    ensures Valid(after)
  {
    if after != db {
      var w, d, meta :| Legal(db, w, d, meta) && after == Commit(db, w, d, meta);
      CommittedIsValid(db, after, w, d, meta);
    }
  }

  lemma CommittedIsValid(db: Db, after: Db, w: WagerState, d: Decision, meta: Meta)
    requires Valid(db) && Legal(db, w, d, meta) && after == Commit(db, w, d, meta)
    ensures Valid(after)
  {
    CommitKeepsValid(db, w, d, meta);
  }

  lemma CommitSteps(db: Db, w: WagerState, d: Decision, meta: Meta)
    requires Legal(db, w, d, meta)
    ensures Steps(db, Commit(db, w, d, meta))
  {
  }

  /** No row carries the key or the external identifier, the wallet exists, and the command makes a transaction. */
  ghost predicate IsNew(db: Db, c: ProcessCommand, env: Env) {
    && ByKey(db.wagers, c.providerId, c.idempotencyKey).None? && ByExternalId(db.wagers, c.providerId, c.externalId).None?
    && c.walletId in db.wallets && NewWager(NewExternalOf(c, env)).Ok?
  }

  /** A handled call commits the decision about a new transaction, or repeats what a stored row says. */
  lemma HandledOutcome(db: Db, c: ProcessCommand, policy: Policy, env: Env)
    requires Readable(db) && policy.Valid()
    ensures var r, existing := HandleOutcome(db, c, policy, env), ByKey(db.wagers, c.providerId, c.idempotencyKey);
            r.Ok? ==>
              if IsNew(db, c, env) then
                var w := NewWager(NewExternalOf(c, env)).value;
                var d := FirstDecision(db, w, policy, env.now);
                && d.Ok? && r.value.0 == Commit(db, w, d.value, ProcessMeta(c, env))
                && var wallet := db.wallets[w.walletId];
                   r.value.1 == ResultFrom(Final(w, wallet, d.value, env.now), BalanceAfter(w, wallet, d.value), false)
              else
                && existing.Some? && existing.value.payloadHash == Some(PayloadOf(c))
                && r.value == (db, ReplayOf(db, existing.value))
  {
  }

  lemma HandleSteps(db: Db, c: ProcessCommand, policy: Policy, env: Env)
    requires Valid(db) && policy.Valid() && EnvOk(db, env)
    ensures HandleOutcome(db, c, policy, env).Ok? ==> Steps(db, HandleOutcome(db, c, policy, env).value.0)
  {
    HandledOutcome(db, c, policy, env);
    if HandleOutcome(db, c, policy, env).Ok? && IsNew(db, c, env) {
      var w := NewWager(NewExternalOf(c, env)).value;
      assert Obeys(db, WalletRule) && Obeys(db, WagerRule);
      ProcessLegal(db, c, policy, env);
      CommitSteps(db, w, FirstDecision(db, w, policy, env.now).value, ProcessMeta(c, env));
    }
  }

  lemma ResolveSteps(db: Db, id: Uuid, policy: Policy, env: Env)
    requires Valid(db) && policy.Valid() && EnvOk(db, env)
    ensures ResolveOutcome(db, id, policy, env).Ok? ==> Steps(db, ResolveOutcome(db, id, policy, env).value)
  {
    if id in db.wagers && db.wagers[id].status.PendingReference? {
      ResolveStep(db, id, policy, env);
    }
  }

  lemma ResolveStep(db: Db, id: Uuid, policy: Policy, env: Env)
    requires Valid(db) && policy.Valid() && EnvOk(db, env) && id in db.wagers && db.wagers[id].status.PendingReference?
    ensures var d := ResolveDecision(db, db.wagers[id], policy, env.now);
            d.Ok? ==> Steps(db, Commit(db, db.wagers[id], d.value, WorkerMeta(id, env)))
  {
    assert Obeys(db, WalletRule) && Obeys(db, WagerRule);
    ResolveLegal(db, id, policy, env);
    var d := ResolveDecision(db, db.wagers[id], policy, env.now);
    if d.Ok? { CommitSteps(db, db.wagers[id], d.value, WorkerMeta(id, env)); }
  }

  lemma RecordSteps(db: Db, id: Uuid, policy: Policy, env: Env)
    requires Valid(db) && policy.Valid() && EnvOk(db, env)
    ensures RecordOutcome(db, id, policy, env).Ok? ==> Steps(db, RecordOutcome(db, id, policy, env).value)
  {
    assert Obeys(db, WalletRule) && Obeys(db, WagerRule);
    if id in db.wagers && db.wagers[id].status.PendingReference? {
      RecordLegal(db, id, policy, env);
      CommitSteps(db, db.wagers[id], DecideFailure(db.wagers[id], policy, env.now), WorkerMeta(id, env));
    }
  }

  /** The invariant does not speak of the inbox. */
  lemma InboxFrame(db: Db, other: Db)
    requires Valid(db) && other == db.(inbox := other.inbox)
    ensures Valid(other)
  {
    ValidMeans(db);
    forall id | id in db.wagers
      ensures ProcessedHasEntry(other, id) && CountsOk(other, id)
    {
      assert ProcessedHasEntry(db, id) && CountsOk(db, id);
    }
    RulesMakeValid(other);
  }

  /** A call of Process changes nothing, or it is one step between the claim and the completion of its message. */
  ghost predicate Receives(db: Db, after: Db, inbox: Option<InboxInput>, now: Time) {
    || after == db
    || (&& (inbox.Some? ==> !InboxConflicts(db, inbox.value) && !InboxCompleted(db, inbox.value))
        && exists handled ::
             && Steps(ClaimedBy(db, inbox, now), handled) && (inbox.Some? ==> inbox.value.key in handled.inbox)
             && after == CompletedBy(handled, inbox, now))
  }

  lemma ProcessSteps(db: Db, c: ProcessCommand, policy: Policy, env: Env)
    requires Valid(db) && policy.Valid() && EnvOk(db, env)
    ensures ProcessOutcome(db, c, policy, env).Ok? ==>
              Receives(db, ProcessOutcome(db, c, policy, env).value.0, c.inbox, env.now)
  {
    var claimed := ClaimedBy(db, c.inbox, env.now);
    InboxFrame(db, claimed);
    HandleSteps(claimed, c, policy, env);
    HandledIsReceived(db, c, policy, env);
  }

  /** A successful Process replays a stored row, or it is the handled call with its message completed. */
  lemma ProcessIsHandled(db: Db, c: ProcessCommand, policy: Policy, env: Env)
    requires Readable(db) && policy.Valid()
    ensures var r := ProcessOutcome(db, c, policy, env);
            var handled := HandleOutcome(ClaimedBy(db, c.inbox, env.now), c, policy, env);
            var existing := ByKey(db.wagers, c.providerId, c.idempotencyKey);
            r.Ok? ==>
              || (&& existing.Some? && existing.value.payloadHash == Some(PayloadOf(c))
                  && r.value == (db, ReplayOf(db, existing.value)))
              || (handled.Ok? && r.value == (CompletedBy(handled.value.0, c.inbox, env.now), handled.value.1))
  {
  }

  lemma HandledIsReceived(db: Db, c: ProcessCommand, policy: Policy, env: Env)
    requires Readable(db) && policy.Valid()
    requires var claimed := ClaimedBy(db, c.inbox, env.now);
             HandleOutcome(claimed, c, policy, env).Ok? ==> Steps(claimed, HandleOutcome(claimed, c, policy, env).value.0)
    ensures ProcessOutcome(db, c, policy, env).Ok? ==>
              Receives(db, ProcessOutcome(db, c, policy, env).value.0, c.inbox, env.now)
  {
  }

  lemma ReceiptKeepsValid(db: Db, after: Db, inbox: Option<InboxInput>, now: Time)
    requires Valid(db) && Receives(db, after, inbox, now)
    ensures Valid(after)
  {
    if after != db {
      var claimed := ClaimedBy(db, inbox, now);
      var handled :| Steps(claimed, handled) && (inbox.Some? ==> inbox.value.key in handled.inbox) &&
                     after == CompletedBy(handled, inbox, now);
      InboxFrame(db, claimed);
      StepKeepsValid(claimed, handled);
      InboxFrame(handled, after);
    }
  }

  lemma ProcessKeepsValid(db: Db, c: ProcessCommand, policy: Policy, env: Env)
    requires Valid(db) && policy.Valid() && EnvOk(db, env)
    ensures ProcessOutcome(db, c, policy, env).Ok? ==> Valid(ProcessOutcome(db, c, policy, env).value.0)
  {
    ProcessSteps(db, c, policy, env);
    if ProcessOutcome(db, c, policy, env).Ok? {
      ReceiptKeepsValid(db, ProcessOutcome(db, c, policy, env).value.0, c.inbox, env.now);
    }
  }

  lemma ResolveKeepsValid(db: Db, id: Uuid, policy: Policy, env: Env)
    requires Valid(db) && policy.Valid() && EnvOk(db, env)
    ensures ResolveOutcome(db, id, policy, env).Ok? ==> Valid(ResolveOutcome(db, id, policy, env).value)
  {
    ResolveSteps(db, id, policy, env);
    if ResolveOutcome(db, id, policy, env).Ok? {
      StepKeepsValid(db, ResolveOutcome(db, id, policy, env).value);
    }
  }

  lemma RecordKeepsValid(db: Db, id: Uuid, policy: Policy, env: Env)
    requires Valid(db) && policy.Valid() && EnvOk(db, env)
    ensures RecordOutcome(db, id, policy, env).Ok? ==> Valid(RecordOutcome(db, id, policy, env).value)
  {
    RecordSteps(db, id, policy, env);
    if RecordOutcome(db, id, policy, env).Ok? {
      StepKeepsValid(db, RecordOutcome(db, id, policy, env).value);
    }
  }

  // --- a new bet ----------------------------------------------------------

  /** A well-formed new bet on the player's own wallet is processed exactly when the funds suffice, and else rejected. */
  lemma BetIsExact(db: Db, c: ProcessCommand, policy: Policy, env: Env)
    requires Readable(db) && policy.Valid() && EnvOk(db, env) && CommandValid(c) && c.inbox.None?
    requires c.kind.Bet? && c.money.IsPositive() && c.referenceExternalId == ""
    requires ByKey(db.wagers, c.providerId, c.idempotencyKey).None? && ByExternalId(db.wagers, c.providerId, c.externalId).None?
    requires c.walletId in db.wallets
    requires var wallet := db.wallets[c.walletId];
             && wallet.id == c.walletId && SoundWallet(wallet) && wallet.version < MAX_INT64
             && wallet.playerId == c.playerId && wallet.balance.currency == c.money.currency
    ensures ProcessOutcome(db, c, policy, env).Ok?
    ensures var wallet, (after, result) := db.wallets[c.walletId], ProcessOutcome(db, c, policy, env).value;
            if c.money.minor <= wallet.balance.minor then
              && result.status.Processed? && result.balance.minor == wallet.balance.minor - c.money.minor
              && after.wallets[c.walletId].balance == result.balance && |after.ledger| == |db.ledger| + 1
            else
              && result.status.Rejected? && result.failureCode == InsufficientFundsForBet && result.balance == wallet.balance
              && after.wallets == db.wallets && after.ledger == db.ledger
  {
    var made := NewWager(NewExternalOf(c, env));
    BetIsMade(c, env);
    MoveWalletExact(db.wallets[c.walletId], Debit, c.money, env.now);
    assert FirstDecision(db, made.value, policy, env.now) == Movable(made.value, db.wallets[c.walletId], None, env.now);
  }

  lemma NotBlankIsNotEmpty(s: string)
    requires NotBlank(s)
    ensures s != ""
  {
  }

  lemma BetIsMade(c: ProcessCommand, env: Env)
    requires CommandValid(c) && c.kind.Bet? && c.money.IsPositive() && c.referenceExternalId == ""
    requires env.now != ZERO_TIME && env.wagerId != NO_ID
    ensures NewWager(NewExternalOf(c, env)).Ok?
  {
    NotBlankIsNotEmpty(c.providerId);
    NotBlankIsNotEmpty(c.externalId);
    NotBlankIsNotEmpty(c.idempotencyKey);
    NotBlankIsNotEmpty(c.roundId);
    NotBlankIsNotEmpty(c.gameId);
  }
}
