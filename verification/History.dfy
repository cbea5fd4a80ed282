/**
 Whole runs: any sequence of calls by HTTP clients, queue consumers and the reference
 worker, from the empty database. What was answered once stays answered that way,
 and every waiting transaction comes to an end.
 */
module History {
  import opened Base
  import opened Backoff
  import opened MoneyValue
  import opened Domain
  import opened Contracts
  import opened Database
  import opened Decisions
  import opened Invariants
  import opened Preservation
  import opened Admission
  import opened Storage
  import opened Calls
  import opened Creation

  // --- runs ---------------------------------------------------------------

  /** A call of the services. A crash before the commit leaves no trace. */
  datatype Op =
    | CreateOp(wallet: CreateCommand, created: CreateEnv)
    | ProcessOp(command: ProcessCommand, env: Env)
    | ResolveOp(id: Uuid, env: Env)
    | RecordOp(id: Uuid, env: Env)
    | CrashOp

  /** The clock runs and identifiers are generated anew. */
  ghost predicate Possible(db: Db, op: Op) {
    match op
    case CreateOp(_, env) => CreateEnvOk(db, env)
    case ProcessOp(_, env) => EnvOk(db, env)
    case ResolveOp(_, env) => EnvOk(db, env)
    case RecordOp(_, env) => EnvOk(db, env)
    case CrashOp => true
  }

  /** What a call leaves; one that fails leaves the database alone. */
  ghost function Called(db: Db, op: Op, policy: Policy): Db
    requires Readable(db) && policy.Valid()
  {
    match op
    case CreateOp(c, env) => (match CreateOutcome(db, c, env) case Ok(r) => r.0 case Err(_) => db)
    case ProcessOp(c, env) => (match ProcessOutcome(db, c, policy, env) case Ok(r) => r.0 case Err(_) => db)
    case ResolveOp(id, env) => (match ResolveOutcome(db, id, policy, env) case Ok(after) => after case Err(_) => db)
    case RecordOp(id, env) => (match RecordOutcome(db, id, policy, env) case Ok(after) => after case Err(_) => db)
    case CrashOp => db
  }

  lemma CalledKeepsValid(db: Db, op: Op, policy: Policy)
    requires Valid(db) && policy.Valid() && Possible(db, op)
    ensures Valid(Called(db, op, policy))
  {
    match op
    case CreateOp(c, env) => CreateKeepsValid(db, c, env);
    case ProcessOp(c, env) => ProcessKeepsValid(db, c, policy, env);
    case ResolveOp(id, env) => ResolveKeepsValid(db, id, policy, env);
    case RecordOp(id, env) => RecordKeepsValid(db, id, policy, env);
    case CrashOp =>
  }

  /** One step of a run. */
  ghost function RunStep(db: Db, op: Op, policy: Policy): Db
    requires policy.Valid()
  {
    if Readable(db) && Possible(db, op) then Called(db, op, policy) else db
  }

  ghost function Execute(db: Db, ops: seq<Op>, policy: Policy): Db
    requires policy.Valid()
    decreases |ops|
  {
    if ops == [] then db else RunStep(Execute(db, ops[..|ops| - 1], policy), ops[|ops| - 1], policy)
  }

  lemma RunStepKeepsValid(db: Db, op: Op, policy: Policy)
    requires Valid(db) && policy.Valid()
    ensures Valid(RunStep(db, op, policy))
  {
    if Readable(db) && Possible(db, op) { CalledKeepsValid(db, op, policy); }
  }

  /** The invariant of the database holds after any calls. */
  lemma {:induction false} ExecuteKeepsValid(db: Db, ops: seq<Op>, policy: Policy)
    requires Valid(db) && policy.Valid()
    ensures Valid(Execute(db, ops, policy))
    decreases |ops|
  {
    if ops != [] {
      ExecuteKeepsValid(db, ops[..|ops| - 1], policy);
      RunStepKeepsValid(Execute(db, ops[..|ops| - 1], policy), ops[|ops| - 1], policy);
    }
  }

  lemma EmptyIsValid()
    ensures Valid(EMPTY)
  {
    assert Openings(EMPTY.wagers) == {};
    RulesMakeValid(EMPTY);
  }

  /** Every run, from the empty database, ends in a valid one. */
  lemma RunIsValid(ops: seq<Op>, policy: Policy)
    requires policy.Valid()
    ensures Valid(Execute(EMPTY, ops, policy))
  {
    EmptyIsValid();
    ExecuteKeepsValid(EMPTY, ops, policy);
  }

  // --- what only grows ----------------------------------------------------

  ghost predicate WalletExtends(w: WalletState, after: WalletState) {
    && after.id == w.id && after.playerId == w.playerId && after.balance.currency == w.balance.currency
    && after.createdAt == w.createdAt && w.version <= after.version
    && (after.version == w.version ==> after == w)
  }

  /** A terminal row is frozen; a waiting one keeps its identity and its attempts only rise. */
  ghost predicate RowExtends(w: WagerState, after: WagerState) {
    SameIdentity(w, after) && (w.status.Terminal() ==> after == w) && w.attempts <= after.attempts
  }

  /** Ledger and outbox are append-only, rows stay, a completed message stays as it is. */
  ghost predicate Extends(db: Db, after: Db) {
    && (forall id :: id in db.wallets ==> id in after.wallets && WalletExtends(db.wallets[id], after.wallets[id]))
    && (forall id :: id in db.wagers ==> id in after.wagers && RowExtends(db.wagers[id], after.wagers[id]))
    && db.ledger <= after.ledger && db.outbox <= after.outbox
    && (forall k :: k in db.inbox ==>
          && k in after.inbox && after.inbox[k].body == db.inbox[k].body
          && (db.inbox[k].completedAt.Some? ==> after.inbox[k] == db.inbox[k]))
  }

  lemma ExtendsItself(db: Db)
    ensures Extends(db, db)
  {
  }

  lemma ExtendsTransitive(a: Db, b: Db, c: Db)
    requires Extends(a, b) && Extends(b, c)
    ensures Extends(a, c)
  {
  }

  lemma CommitExtends(db: Db, w: WagerState, d: Decision, meta: Meta)
    requires Readable(db) && Legal(db, w, d, meta)
    ensures Extends(db, Commit(db, w, d, meta))
  {
    RowsExtend(db, w, d, meta);
  }

  lemma RowsExtend(db: Db, w: WagerState, d: Decision, meta: Meta)
    requires w.walletId in db.wallets && db.wallets[w.walletId].id == w.walletId && Feasible(w, db.wallets[w.walletId], d)
    requires VersionFits(db.wallets[w.walletId], d)
    requires w.id in db.wagers ==> db.wagers[w.id] == w && !w.status.Terminal()
    ensures Extends(db, Commit(db, w, d, meta))
  {
  }

  lemma StepExtends(db: Db, after: Db)
    requires Readable(db) && Steps(db, after)
    ensures Extends(db, after) && after.inbox == db.inbox
  {
    if after != db {
      var w, d, meta :| Legal(db, w, d, meta) && after == Commit(db, w, d, meta);
      CommitExtends(db, w, d, meta);
    }
  }

  lemma ReceiptExtends(db: Db, after: Db, inbox: Option<InboxInput>, now: Time)
    requires Readable(db) && Receives(db, after, inbox, now)
    ensures Extends(db, after)
  {
    if after != db {
      var claimed := ClaimedBy(db, inbox, now);
      var handled :| Steps(claimed, handled) && (inbox.Some? ==> inbox.value.key in handled.inbox) &&
                     after == CompletedBy(handled, inbox, now);
      ClaimExtends(db, inbox, now);
      StepExtends(claimed, handled);
      ExtendsTransitive(db, claimed, handled);
      CompletionExtends(db, handled, inbox, now);
    }
  }

  lemma ClaimExtends(db: Db, inbox: Option<InboxInput>, now: Time)
    ensures Extends(db, ClaimedBy(db, inbox, now))
  {
  }

  lemma CompletionExtends(db: Db, handled: Db, inbox: Option<InboxInput>, now: Time)
    requires Extends(db, handled) && (inbox.Some? ==> inbox.value.key in handled.inbox && !InboxCompleted(db, inbox.value))
    requires inbox.Some? ==> !InboxConflicts(db, inbox.value)
    ensures Extends(db, CompletedBy(handled, inbox, now))
  {
  }

  lemma CreateExtends(db: Db, c: CreateCommand, env: CreateEnv)
    requires CreateEnvOk(db, env)
    ensures CreateOutcome(db, c, env).Ok? ==> Extends(db, CreateOutcome(db, c, env).value.0)
  {
  }

  lemma RunStepExtends(db: Db, op: Op, policy: Policy)
    requires Valid(db) && policy.Valid()
    ensures Extends(db, RunStep(db, op, policy))
  {
    ExtendsItself(db);
    if Readable(db) && Possible(db, op) { CalledExtends(db, op, policy); }
  }

  lemma CalledExtends(db: Db, op: Op, policy: Policy)
    requires Valid(db) && policy.Valid() && Possible(db, op)
    ensures Extends(db, Called(db, op, policy))
  {
    ExtendsItself(db);
    match op
    case CreateOp(c, env) => CreateExtends(db, c, env);
    case ProcessOp(c, env) => ProcessExtends(db, c, policy, env);
    case ResolveOp(id, env) => ResolveExtends(db, id, policy, env);
    case RecordOp(id, env) => RecordExtends(db, id, policy, env);
    case CrashOp =>
  }

  lemma ProcessExtends(db: Db, c: ProcessCommand, policy: Policy, env: Env)
    requires Valid(db) && policy.Valid() && EnvOk(db, env)
    ensures ProcessOutcome(db, c, policy, env).Ok? ==> Extends(db, ProcessOutcome(db, c, policy, env).value.0)
  {
    ProcessSteps(db, c, policy, env);
    if ProcessOutcome(db, c, policy, env).Ok? {
      ReceiptExtends(db, ProcessOutcome(db, c, policy, env).value.0, c.inbox, env.now);
    }
  }

  lemma ResolveExtends(db: Db, id: Uuid, policy: Policy, env: Env)
    requires Valid(db) && policy.Valid() && EnvOk(db, env)
    ensures ResolveOutcome(db, id, policy, env).Ok? ==> Extends(db, ResolveOutcome(db, id, policy, env).value)
  {
    ResolveSteps(db, id, policy, env);
    if ResolveOutcome(db, id, policy, env).Ok? { StepExtends(db, ResolveOutcome(db, id, policy, env).value); }
  }

  lemma RecordExtends(db: Db, id: Uuid, policy: Policy, env: Env)
    requires Valid(db) && policy.Valid() && EnvOk(db, env)
    ensures RecordOutcome(db, id, policy, env).Ok? ==> Extends(db, RecordOutcome(db, id, policy, env).value)
  {
    RecordSteps(db, id, policy, env);
    if RecordOutcome(db, id, policy, env).Ok? { StepExtends(db, RecordOutcome(db, id, policy, env).value); }
  }

  lemma LastStepExtends(db: Db, ops: seq<Op>, policy: Policy)
    requires Valid(db) && policy.Valid() && ops != []
    ensures Extends(Execute(db, ops[..|ops| - 1], policy), Execute(db, ops, policy))
  {
    ExecuteKeepsValid(db, ops[..|ops| - 1], policy);
    RunStepExtends(Execute(db, ops[..|ops| - 1], policy), ops[|ops| - 1], policy);
  }

  /** Whatever calls follow, nothing that was committed is lost or rewritten. */
  lemma {:induction false} ExecuteExtends(db: Db, ops: seq<Op>, policy: Policy)
    requires Valid(db) && policy.Valid()
    ensures Extends(db, Execute(db, ops, policy))
    decreases |ops|
  {
    if ops == [] {
      ExtendsItself(db);
    } else {
      ExecuteExtends(db, ops[..|ops| - 1], policy);
      LastStepExtends(db, ops, policy);
      ExtendsTransitive(db, Execute(db, ops[..|ops| - 1], policy), Execute(db, ops, policy));
    }
  }

  // --- what was answered stays answered -----------------------------------

  /** The row that a result speaks of carries the key and the payload of the request, and says the same. */
  ghost predicate Answered(db: Db, c: ProcessCommand, r: ProcessResult) {
    && r.transactionId in db.wagers
    && var w := db.wagers[r.transactionId];
    && HasKey(w, c.providerId, c.idempotencyKey) && w.payloadHash == Some(PayloadOf(c))
    && w.status == r.status && w.failureCode == r.failureCode
    && (w.status.Terminal() ==> w.result == Some(r.balance))
  }

  lemma CommitAnswers(db: Db, c: ProcessCommand, w: WagerState, d: Decision, meta: Meta)
    requires w.walletId in db.wallets && Feasible(w, db.wallets[w.walletId], d) && !d.Exhaust?
    requires HasKey(w, c.providerId, c.idempotencyKey) && w.payloadHash == Some(PayloadOf(c))
    ensures var wallet := db.wallets[w.walletId];
            Answered(Commit(db, w, d, meta), c, ResultFrom(Final(w, wallet, d, meta.now), BalanceAfter(w, wallet, d), false))
  {
  }

  lemma ReplayAnswers(db: Db, c: ProcessCommand, t: WagerState)
    requires Readable(db) && ByKey(db.wagers, c.providerId, c.idempotencyKey) == Some(t) && t.payloadHash == Some(PayloadOf(c))
    ensures t.walletId in db.wallets && Answered(db, c, ReplayOf(db, t))
  {
    var id :| id in db.wagers && db.wagers[id] == t && HasKey(db.wagers[id], c.providerId, c.idempotencyKey);
  }

  lemma HandleAnswers(db: Db, c: ProcessCommand, policy: Policy, env: Env)
    requires Readable(db) && policy.Valid()
    ensures HandleOutcome(db, c, policy, env).Ok? ==>
              Answered(HandleOutcome(db, c, policy, env).value.0, c, HandleOutcome(db, c, policy, env).value.1)
  {
    var existing := ByKey(db.wagers, c.providerId, c.idempotencyKey);
    if existing.Some? && existing.value.payloadHash == Some(PayloadOf(c)) {
      ReplayAnswers(db, c, existing.value);
    }
    HandledOutcome(db, c, policy, env);
    if HandleOutcome(db, c, policy, env).Ok? && IsNew(db, c, env) {
      NewAnswers(db, c, policy, env);
    }
  }

  lemma NewAnswers(db: Db, c: ProcessCommand, policy: Policy, env: Env)
    requires Readable(db) && policy.Valid() && IsNew(db, c, env)
    requires FirstDecision(db, NewWager(NewExternalOf(c, env)).value, policy, env.now).Ok?
    ensures var w := NewWager(NewExternalOf(c, env)).value;
            var d, wallet := FirstDecision(db, w, policy, env.now).value, db.wallets[w.walletId];
            Answered(Commit(db, w, d, ProcessMeta(c, env)), c,
                     ResultFrom(Final(w, wallet, d, env.now), BalanceAfter(w, wallet, d), false))
  {
    var w := NewWager(NewExternalOf(c, env)).value;
    CommitAnswers(db, c, w, FirstDecision(db, w, policy, env.now).value, ProcessMeta(c, env));
  }

  lemma ProcessAnswers(db: Db, c: ProcessCommand, policy: Policy, env: Env)
    requires Readable(db) && policy.Valid()
    ensures ProcessOutcome(db, c, policy, env).Ok? ==>
              Answered(ProcessOutcome(db, c, policy, env).value.0, c, ProcessOutcome(db, c, policy, env).value.1)
  {
    ProcessIsHandled(db, c, policy, env);
    HandleAnswers(ClaimedBy(db, c.inbox, env.now), c, policy, env);
    var existing := ByKey(db.wagers, c.providerId, c.idempotencyKey);
    if existing.Some? && existing.value.payloadHash == Some(PayloadOf(c)) {
      ReplayAnswers(db, c, existing.value);
    }
  }

  /** The row of an answer keeps its key and payload, and a terminal answer stays the answer. */
  lemma AnswerLasts(db: Db, after: Db, c: ProcessCommand, r: ProcessResult)
    requires Answered(db, c, r) && Extends(db, after)
    ensures r.transactionId in after.wagers
    ensures HasKey(after.wagers[r.transactionId], c.providerId, c.idempotencyKey)
    ensures after.wagers[r.transactionId].payloadHash == Some(PayloadOf(c))
    ensures r.status.Terminal() ==> Answered(after, c, r)
  {
  }

  /** A request whose key is known either repeats the stored payload and is replayed, or is refused; no row changes. */
  lemma KnownKey(db: Db, id: Uuid, again: ProcessCommand, policy: Policy, env: Env)
    requires Readable(db) && KeysOk(db) && policy.Valid() && CommandValid(again)
    requires id in db.wagers && HasKey(db.wagers[id], again.providerId, again.idempotencyKey)
    ensures var outcome := ProcessOutcome(db, again, policy, env);
            if db.wagers[id].payloadHash == Some(PayloadOf(again)) && !(again.inbox.Some? &&
                InboxConflicts(db, again.inbox.value))
            then outcome.Ok? && outcome.value.1 == ReplayOf(db, db.wagers[id]) &&
                 outcome.value.0 == db.(inbox := outcome.value.0.inbox)
            else outcome == Err(InboxPayloadConflict) || outcome == Err(IdempotencyPayloadConflict)
  {
    KeyIsUnique(db, again.providerId, again.idempotencyKey, id);
  }

  /** Is this the same business request under the same key? */
  predicate Repeats(again: ProcessCommand, first: ProcessCommand) {
    && again.providerId == first.providerId && again.idempotencyKey == first.idempotencyKey
    && PayloadOf(again) == PayloadOf(first)
  }

  /** What is known of an answered request after any later calls. */
  lemma AnsweredLater(db: Db, first: ProcessCommand, env: Env, later: seq<Op>, policy: Policy)
    requires Valid(db) && policy.Valid() && EnvOk(db, env) && ProcessOutcome(db, first, policy, env).Ok?
    ensures var answer := ProcessOutcome(db, first, policy, env).value.1;
            var now := Execute(ProcessOutcome(db, first, policy, env).value.0, later, policy);
            && Valid(now)
            && answer.transactionId in now.wagers
            && HasKey(now.wagers[answer.transactionId], first.providerId, first.idempotencyKey)
            && now.wagers[answer.transactionId].payloadHash == Some(PayloadOf(first))
            && (answer.status.Terminal() ==> Answered(now, first, answer))
  {
    var after, answer := ProcessOutcome(db, first, policy, env).value.0, ProcessOutcome(db, first, policy, env).value.1;
    var now := Execute(after, later, policy);
    ProcessAnswers(db, first, policy, env);
    ProcessKeepsValid(db, first, policy, env);
    LaterFacts(after, later, policy);
    AnswerLasts(after, now, first, answer);
  }

  lemma LaterFacts(db: Db, later: seq<Op>, policy: Policy)
    requires Valid(db) && policy.Valid()
    ensures Valid(Execute(db, later, policy)) && Extends(db, Execute(db, later, policy))
  {
    ExecuteKeepsValid(db, later, policy);
    ExecuteExtends(db, later, policy);
  }

  /**
   After any later calls, repeating an answered request returns the same transaction, marked
   as a replay, and the very same result if it was terminal; nothing but the inbox changes.
   */
  lemma ReplaysForever(
      db: Db, first: ProcessCommand, env: Env, later: seq<Op>, again: ProcessCommand, env': Env, policy: Policy)
    requires Valid(db) && policy.Valid() && EnvOk(db, env) && ProcessOutcome(db, first, policy, env).Ok?
    requires CommandValid(again) && Repeats(again, first)
    ensures var answer := ProcessOutcome(db, first, policy, env).value.1;
            var now := Execute(ProcessOutcome(db, first, policy, env).value.0, later, policy);
            && Readable(now)
            && var outcome := ProcessOutcome(now, again, policy, env');
               if again.inbox.Some? && InboxConflicts(now, again.inbox.value) then outcome == Err(InboxPayloadConflict)
               else
                 && outcome.Ok? && outcome.value.0 == now.(inbox := outcome.value.0.inbox)
                 && outcome.value.1.replay && outcome.value.1.transactionId == answer.transactionId
                 && (answer.status.Terminal() ==> outcome.value.1 == answer.(replay := true))
  {
    AnsweredLater(db, first, env, later, policy);
    var answer := ProcessOutcome(db, first, policy, env).value.1;
    AnswerReplays(Execute(ProcessOutcome(db, first, policy, env).value.0, later, policy), first, answer, again, policy, env');
  }

  lemma AnswerReplays(now: Db, first: ProcessCommand, answer: ProcessResult, again: ProcessCommand, policy: Policy, env: Env)
    requires Valid(now) && policy.Valid() && CommandValid(again) && Repeats(again, first)
    requires answer.transactionId in now.wagers
    requires HasKey(now.wagers[answer.transactionId], first.providerId, first.idempotencyKey)
    requires now.wagers[answer.transactionId].payloadHash == Some(PayloadOf(first))
    requires answer.status.Terminal() ==> Answered(now, first, answer)
    ensures var outcome := ProcessOutcome(now, again, policy, env);
            if again.inbox.Some? && InboxConflicts(now, again.inbox.value) then outcome == Err(InboxPayloadConflict)
            else
              && outcome.Ok? && outcome.value.0 == now.(inbox := outcome.value.0.inbox)
              && outcome.value.1.replay && outcome.value.1.transactionId == answer.transactionId
              && (answer.status.Terminal() ==> outcome.value.1 == answer.(replay := true))
  {
    assert Obeys(now, KeyRule);
    KnownKey(now, answer.transactionId, again, policy, env);
  }

  /** The same key with another payload is refused for ever, and the refusal changes nothing. */
  lemma OtherPayloadRefused(
      db: Db, first: ProcessCommand, env: Env, later: seq<Op>, again: ProcessCommand, env': Env, policy: Policy)
    requires Valid(db) && policy.Valid() && EnvOk(db, env) && ProcessOutcome(db, first, policy, env).Ok?
    requires CommandValid(again) && again.providerId == first.providerId && again.idempotencyKey == first.idempotencyKey
    requires PayloadOf(again) != PayloadOf(first)
    ensures var now := Execute(ProcessOutcome(db, first, policy, env).value.0, later, policy);
            && Readable(now)
            && (|| ProcessOutcome(now, again, policy, env') == Err(InboxPayloadConflict)
                || ProcessOutcome(now, again, policy, env') == Err(IdempotencyPayloadConflict))
            && RunStep(now, ProcessOp(again, env'), policy) == now
  {
    AnsweredLater(db, first, env, later, policy);
    OtherRefused(Execute(ProcessOutcome(db, first, policy, env).value.0, later, policy),
                 ProcessOutcome(db, first, policy, env).value.1.transactionId, first, again, policy, env');
  }

  lemma OtherRefused(now: Db, id: Uuid, first: ProcessCommand, again: ProcessCommand, policy: Policy, env: Env)
    requires Valid(now) && policy.Valid() && CommandValid(again)
    requires again.providerId == first.providerId && again.idempotencyKey == first.idempotencyKey
    requires PayloadOf(again) != PayloadOf(first)
    requires id in now.wagers && HasKey(now.wagers[id], first.providerId, first.idempotencyKey)
    requires now.wagers[id].payloadHash == Some(PayloadOf(first))
    ensures || ProcessOutcome(now, again, policy, env) == Err(InboxPayloadConflict)
            || ProcessOutcome(now, again, policy, env) == Err(IdempotencyPayloadConflict)
  {
    assert Obeys(now, KeyRule);
    KnownKey(now, id, again, policy, env);
  }
}
