/**
 The life of a transaction that waits for its reference: its attempts are bounded, each
 committed visit of the worker uses one up, and its final balance is fixed at its own
 commit (internal/application/wager_service.go, internal/infrastructure/messaging/reference_worker.go).
 */
module Waiting {
  import opened Base
  import opened Backoff
  import opened MoneyValue
  import opened Domain
  import opened Contracts
  import opened Database
  import opened Decisions
  import opened Invariants
  import opened Preservation
  import opened Storage
  import opened Calls
  import opened Creation
  import opened History
  import WagerService

  // --- attempts are bounded -----------------------------------------------

  lemma CommitAttempts(db: Db, w: WagerState, d: Decision, meta: Meta, maximum: nat)
    requires AttemptsOk(db, maximum) && w.walletId in db.wallets && Feasible(w, db.wallets[w.walletId], d)
    requires w.attempts <= maximum && (d.Hold? ==> w.attempts < maximum)
    ensures AttemptsOk(Commit(db, w, d, meta), maximum)
  {
  }

  lemma HandleAttempts(db: Db, c: ProcessCommand, policy: Policy, env: Env)
    requires Readable(db) && policy.Valid() && AttemptsOk(db, policy.maxAttempts)
    ensures HandleOutcome(db, c, policy, env).Ok? ==> AttemptsOk(HandleOutcome(db, c, policy, env).value.0, policy.maxAttempts)
  {
    if c.walletId in db.wallets && NewWager(NewExternalOf(c, env)).Ok? {
      var w := NewWager(NewExternalOf(c, env)).value;
      var d := FirstDecision(db, w, policy, env.now);
      if d.Ok? { CommitAttempts(db, w, d.value, ProcessMeta(c, env), policy.maxAttempts); }
    }
  }

  lemma ResolveAttempts(db: Db, id: Uuid, policy: Policy, env: Env)
    requires Readable(db) && policy.Valid() && AttemptsOk(db, policy.maxAttempts)
    ensures ResolveOutcome(db, id, policy, env).Ok? ==> AttemptsOk(ResolveOutcome(db, id, policy, env).value,
            policy.maxAttempts)
  {
    if id in db.wagers {
      var d := ResolveDecision(db, db.wagers[id], policy, env.now);
      if d.Ok? && (d.value.Hold? ==> db.wagers[id].attempts < policy.maxAttempts) {
        CommitAttempts(db, db.wagers[id], d.value, WorkerMeta(id, env), policy.maxAttempts);
      }
    }
  }

  lemma RecordAttempts(db: Db, id: Uuid, policy: Policy, env: Env)
    requires Readable(db) && policy.Valid() && AttemptsOk(db, policy.maxAttempts)
    ensures RecordOutcome(db, id, policy, env).Ok? ==> AttemptsOk(RecordOutcome(db, id, policy, env).value, policy.maxAttempts)
  {
    if id in db.wagers {
      CommitAttempts(db, db.wagers[id], DecideFailure(db.wagers[id], policy, env.now), WorkerMeta(id, env), policy.maxAttempts);
    }
  }

  lemma ProcessAttempts(db: Db, c: ProcessCommand, policy: Policy, env: Env)
    requires Readable(db) && policy.Valid() && AttemptsOk(db, policy.maxAttempts)
    ensures ProcessOutcome(db, c, policy, env).Ok? ==> AttemptsOk(ProcessOutcome(db, c, policy, env).value.0,
            policy.maxAttempts)
  {
    HandleAttempts(ClaimedBy(db, c.inbox, env.now), c, policy, env);
  }

  lemma CalledAttempts(db: Db, op: Op, policy: Policy)
    requires Readable(db) && policy.Valid() && AttemptsOk(db, policy.maxAttempts)
    ensures AttemptsOk(Called(db, op, policy), policy.maxAttempts)
  {
    match op
    case CreateOp(c, env) =>
    case ProcessOp(c, env) => ProcessAttempts(db, c, policy, env);
    case ResolveOp(id, env) => ResolveAttempts(db, id, policy, env);
    case RecordOp(id, env) => RecordAttempts(db, id, policy, env);
    case CrashOp =>
  }

  lemma {:induction false} AttemptsStay(db: Db, ops: seq<Op>, policy: Policy)
    requires policy.Valid() && AttemptsOk(db, policy.maxAttempts)
    ensures AttemptsOk(Execute(db, ops, policy), policy.maxAttempts)
    decreases |ops|
  {
    if ops != [] {
      var before := Execute(db, ops[..|ops| - 1], policy);
      AttemptsStay(db, ops[..|ops| - 1], policy);
      if Readable(before) { CalledAttempts(before, ops[|ops| - 1], policy); }
    }
  }

  /** In every run, attempts stay within 0..MaxAttempts, and within 1..MaxAttempts for a waiting row; no PENDING row is committed. */
  lemma AttemptsBounded(ops: seq<Op>, policy: Policy, id: Uuid)
    requires policy.Valid() && id in Execute(EMPTY, ops, policy).wagers
    ensures var w := Execute(EMPTY, ops, policy).wagers[id];
            && !w.status.Pending? && 0 <= w.attempts <= policy.maxAttempts
            && (w.status.PendingReference? ==> 1 <= w.attempts)
  {
    AttemptsStay(EMPTY, ops, policy);
    RunIsValid(ops, policy);
    CommittedRow(Execute(EMPTY, ops, policy), id);
  }

  lemma CommittedRow(db: Db, id: Uuid)
    requires Valid(db) && id in db.wagers
    ensures !db.wagers[id].status.Pending?
    ensures db.wagers[id].status.PendingReference? ==> db.wagers[id].attempts >= 1
  {
    assert Obeys(db, WagerRule);
    assert WagerOk(db.wallets, db.wagers[id]);
  }

  // --- every committed visit counts ---------------------------------------

  ghost predicate Waits(db: Db, id: Uuid) {
    id in db.wagers && db.wagers[id].status.PendingReference?
  }

  ghost predicate Ended(db: Db, id: Uuid) {
    id in db.wagers && db.wagers[id].status.Terminal()
  }

  /** A call of the worker about a waiting row, resolve or record, that commits. */
  ghost predicate CommittedVisit(db: Db, op: Op, id: Uuid, policy: Policy)
    requires Readable(db) && policy.Valid()
  {
    && Possible(db, op) && Waits(db, id)
    && match op
       case ResolveOp(visited, env) => visited == id && ResolveOutcome(db, id, policy, env).Ok?
       case RecordOp(visited, env) => visited == id && RecordOutcome(db, id, policy, env).Ok?
       case _ => false
  }

  /** A decision leaves its row waiting with one more attempt, or ends it; other rows stay. */
  lemma CommitVisit(db: Db, w: WagerState, d: Decision, meta: Meta, id: Uuid)
    requires w.walletId in db.wallets && Feasible(w, db.wallets[w.walletId], d) && Waits(db, id)
    requires w.id == id ==> db.wagers[id] == w
    ensures var after := Commit(db, w, d, meta);
            if w.id == id then
              Ended(after, id) || (Waits(after, id) && after.wagers[id].attempts == db.wagers[id].attempts + 1)
            else id in after.wagers && after.wagers[id] == db.wagers[id]
  {
  }

  lemma HandleLeavesWaiting(db: Db, c: ProcessCommand, policy: Policy, env: Env, id: Uuid)
    requires Readable(db) && policy.Valid() && EnvOk(db, env) && Waits(db, id)
    ensures HandleOutcome(db, c, policy, env).Ok? ==>
              var after := HandleOutcome(db, c, policy, env).value.0;
              id in after.wagers && after.wagers[id] == db.wagers[id]
  {
    HandledOutcome(db, c, policy, env);
    if HandleOutcome(db, c, policy, env).Ok? && IsNew(db, c, env) {
      var w := NewWager(NewExternalOf(c, env)).value;
      CommitVisit(db, w, FirstDecision(db, w, policy, env.now).value, ProcessMeta(c, env), id);
    }
  }

  lemma WorkerVisit(db: Db, op: Op, policy: Policy, id: Uuid)
    requires Readable(db) && policy.Valid() && Waits(db, id) && (op.ResolveOp? || op.RecordOp?)
    ensures var after := if op.ResolveOp? then ResolveOutcome(db, op.id, policy, op.env) else RecordOutcome(db,
            op.id, policy, op.env);
            after.Ok? ==>
              if op.id == id then
                Ended(after.value, id) || (Waits(after.value, id) &&
                    after.value.wagers[id].attempts == db.wagers[id].attempts + 1)
              else id in after.value.wagers && after.value.wagers[id] == db.wagers[id]
  {
    if Waits(db, op.id) {
      var w := db.wagers[op.id];
      var d := if op.ResolveOp? then ResolveDecision(db, w, policy, op.env.now) else Ok(DecideFailure(w, policy, op.env.now));
      if d.Ok? { CommitVisit(db, w, d.value, WorkerMeta(op.id, op.env), id); }
    }
  }

  lemma ProcessLeavesWaiting(db: Db, c: ProcessCommand, policy: Policy, env: Env, id: Uuid)
    requires Readable(db) && policy.Valid() && EnvOk(db, env) && Waits(db, id)
    ensures ProcessOutcome(db, c, policy, env).Ok? ==>
              var after := ProcessOutcome(db, c, policy, env).value.0;
              id in after.wagers && after.wagers[id] == db.wagers[id]
  {
    ProcessIsHandled(db, c, policy, env);
    HandleLeavesWaiting(ClaimedBy(db, c.inbox, env.now), c, policy, env, id);
  }

  lemma CalledProgress(db: Db, op: Op, policy: Policy, id: Uuid)
    requires Readable(db) && policy.Valid() && Waits(db, id) && Possible(db, op)
    ensures var after := Called(db, op, policy);
            if CommittedVisit(db, op, id, policy) then
              Ended(after, id) || (Waits(after, id) && after.wagers[id].attempts == db.wagers[id].attempts + 1)
            else id in after.wagers && after.wagers[id] == db.wagers[id]
  {
    match op
    case CreateOp(c, env) =>
    case ProcessOp(c, env) => ProcessLeavesWaiting(db, c, policy, env, id);
    case ResolveOp(visited, env) => WorkerVisit(db, op, policy, id);
    case RecordOp(visited, env) => WorkerVisit(db, op, policy, id);
    case CrashOp =>
  }

  /** A committed visit uses up an attempt or ends the row; no other call touches a waiting row. */
  lemma VisitProgress(db: Db, op: Op, policy: Policy, id: Uuid)
    requires Readable(db) && policy.Valid() && Waits(db, id)
    ensures var after := RunStep(db, op, policy);
            if CommittedVisit(db, op, id, policy) then
              Ended(after, id) || (Waits(after, id) && after.wagers[id].attempts == db.wagers[id].attempts + 1)
            else id in after.wagers && after.wagers[id] == db.wagers[id]
  {
    if Possible(db, op) { CalledProgress(db, op, policy, id); }
  }

  /** How many committed visits a run pays to a waiting row. */
  ghost function Visits(db: Db, ops: seq<Op>, policy: Policy, id: Uuid): nat
    requires policy.Valid()
    decreases |ops|
  {
    if ops == [] then 0
    else
      var before := Execute(db, ops[..|ops| - 1], policy);
      Visits(db, ops[..|ops| - 1], policy, id) +
      (if Readable(before) && CommittedVisit(before, ops[|ops| - 1], id, policy) then 1 else 0)
  }

  /** The row has ended, or waits with so many attempts. */
  ghost predicate WaitedFor(db: Db, id: Uuid, attempts: nat) {
    Ended(db, id) || (Waits(db, id) && db.wagers[id].attempts == attempts)
  }

  ghost predicate OneStep(before: Db, after: Db, id: Uuid, attempts: nat, visit: nat) {
    WaitedFor(before, id, attempts) ==> WaitedFor(after, id, attempts + visit)
  }

  lemma OneMoreStep(before: Db, op: Op, policy: Policy, id: Uuid, attempts: nat)
    requires Valid(before) && policy.Valid()
    ensures OneStep(before, RunStep(before, op, policy), id, attempts, if CommittedVisit(before, op, id, policy) then 1 else 0)
  {
    if Ended(before, id) {
      RunStepExtends(before, op, policy);
    } else if Waits(before, id) {
      VisitProgress(before, op, policy, id);
    }
  }

  /** The last step of a run, as one more visit or none. */
  lemma LastStep(db: Db, ops: seq<Op>, policy: Policy, id: Uuid, attempts: nat) returns (visit: nat)
    requires Valid(db) && policy.Valid() && ops != []
    ensures Visits(db, ops, policy, id) == Visits(db, ops[..|ops| - 1], policy, id) + visit
    ensures OneStep(Execute(db, ops[..|ops| - 1], policy), Execute(db, ops, policy), id, attempts, visit)
  {
    var before, op := Execute(db, ops[..|ops| - 1], policy), ops[|ops| - 1];
    ExecuteKeepsValid(db, ops[..|ops| - 1], policy);
    visit := if CommittedVisit(before, op, id, policy) then 1 else 0;
    OneMoreStep(before, op, policy, id, attempts);
  }

  /** As long as a row waits, every committed visit has used up one attempt. */
  lemma {:induction false} VisitsAreAttempts(db: Db, ops: seq<Op>, policy: Policy, id: Uuid)
    requires Valid(db) && policy.Valid() && Waits(db, id)
    ensures WaitedFor(Execute(db, ops, policy), id, db.wagers[id].attempts + Visits(db, ops, policy, id))
    decreases |ops|
  {
    if ops != [] {
      var attempts := db.wagers[id].attempts + Visits(db, ops[..|ops| - 1], policy, id);
      VisitsAreAttempts(db, ops[..|ops| - 1], policy, id);
      var visit := LastStep(db, ops, policy, id, attempts);
      assert WaitedFor(Execute(db, ops, policy), id, attempts + visit);
    }
  }

  /** Waiting ends: after as many committed visits as attempts were left, and one more, the row is terminal. */
  lemma WaitingEnds(db: Db, ops: seq<Op>, policy: Policy, id: Uuid)
    requires Valid(db) && policy.Valid() && AttemptsOk(db, policy.maxAttempts) && Waits(db, id)
    requires Visits(db, ops, policy, id) > policy.maxAttempts - db.wagers[id].attempts
    ensures Ended(Execute(db, ops, policy), id)
  {
    VisitsAreAttempts(db, ops, policy, id);
    AttemptsStay(db, ops, policy);
  }

  // --- the worker ---------------------------------------------------------

  /** One visit of the worker: resolve, and record the failure of a resolution that did not commit. */
  method Visit(service: WagerService.Service, id: Uuid, first: Env, second: Env)
    requires Valid(service.store.db) && service.policy.Valid() && EnvOk(service.store.db, first) &&
             EnvOk(service.store.db, second)
    modifies service.store
    ensures Valid(service.store.db)
    ensures var db := old(service.store.db);
            match ResolveOutcome(db, id, service.policy, first)
            case Ok(after) => service.store.db == after
            case Err(_) =>
              RecordOutcome(db, id, service.policy, second) == if id in db.wagers then Ok(service.store.db) else Err(NotFound)
    ensures var db := old(service.store.db);
            Waits(db, id) ==>
              || Ended(service.store.db, id)
              || (Waits(service.store.db, id) && service.store.db.wagers[id].attempts == db.wagers[id].attempts + 1)
  {
    ghost var db := service.store.db;
    if Waits(db, id) {
      WorkerVisit(db, ResolveOp(id, first), service.policy, id);
      WorkerVisit(db, RecordOp(id, second), service.policy, id);
    }
    var err := service.ResolvePendingReference(id, first);
    if err != None {
      err := service.RecordPendingReferenceFailure(id, second);
    }
  }

  // --- when calls fail ----------------------------------------------------

  /** A movement that cannot be represented: the credit passes MaxInt64 or the version cannot rise. */
  ghost predicate Overflows(w: WagerState, wallet: WalletState, e: Error) {
    || (e == MoneyOverflow && wallet.balance.minor + w.money.minor > MAX_INT64)
    || (e == IntegerOutOfRange && wallet.version == MAX_INT64)
  }

  lemma MovableErrors(w: WagerState, wallet: WalletState, reference: Option<WagerState>, now: Time)
    requires Undecided(w) && SoundWallet(wallet) && IdentityMatches(w, wallet) && now != ZERO_TIME
    requires w.kind.Rollback? ==> reference.Some?
    ensures var r := Movable(w, wallet, reference, now);
            r.Err? ==> Overflows(w, wallet, r.error)
  {
    if !w.kind.Loss? {
      MoveWalletExact(wallet, DirectionFor(w, reference).value, w.money, now);
    }
  }

  lemma ReferredErrors(w: WagerState, wallet: WalletState, reference: Option<WagerState>, reversed: bool,
      policy: Policy, now: Time)
    requires Undecided(w) && SoundWallet(wallet) && IdentityMatches(w, wallet) && policy.Valid() && now != ZERO_TIME
    ensures var r := DecideWithReference(w, wallet, reference, reversed, true, policy, now);
            r.Err? ==> Overflows(w, wallet, r.error)
  {
    if reference.Some? { MovableErrors(w, wallet, reference, now); }
  }

  /** The worker fails only on an unknown row or a movement that overflows: never on a transition, a reference or a guard. */
  lemma ResolveErrors(db: Db, id: Uuid, policy: Policy, env: Env)
    requires Valid(db) && policy.Valid() && env.now != ZERO_TIME
    ensures match ResolveOutcome(db, id, policy, env)
            case Err(e) =>
              || (id !in db.wagers && e == NotFound)
              || (Waits(db, id) && Overflows(db.wagers[id], db.wallets[db.wagers[id].walletId], e))
            case Ok(_) => id in db.wagers
  {
    if Waits(db, id) {
      var w := db.wagers[id];
      var reference := ByExternalId(db.wagers, w.providerId, w.referenceExternalId);
      assert Obeys(db, WagerRule) && Obeys(db, WalletRule);
      WaitingIsAdmissible(db, id);
      ReferredErrors(w, db.wallets[w.walletId], reference, ReversedOf(db, reference), policy, env.now);
    }
  }

  /** The errors of a first call: a malformed or conflicting request, an unknown wallet, or a movement that overflows. */
  predicate RequestError(e: Error) {
    || e == InvalidTransaction || e == InboxPayloadConflict || e == IdempotencyPayloadConflict
    || e == ExternalTransactionConflict || e == NotFound
  }

  lemma DecideErrors(w: WagerState, wallet: WalletState, reference: Option<WagerState>, reversed: bool,
      policy: Policy, now: Time)
    requires Undecided(w) && SoundWallet(wallet) && policy.Valid() && now != ZERO_TIME
    ensures var r := Decide(w, wallet, reference, reversed, policy, now);
            r.Err? ==> IdentityMatches(w, wallet) && Overflows(w, wallet, r.error)
  {
    if IdentityMatches(w, wallet) && (w.referenceExternalId != "" ==> reference.Some?) {
      MovableErrors(w, wallet, if w.referenceExternalId == "" then None else reference, now);
    }
  }

  lemma HandleErrors(db: Db, c: ProcessCommand, policy: Policy, env: Env)
    requires Readable(db) && policy.Valid() && EnvOk(db, env) && CommandValid(c)
    requires forall id :: id in db.wallets ==> SoundWallet(db.wallets[id])
    ensures var r := HandleOutcome(db, c, policy, env);
            r.Err? && !RequestError(r.error) ==>
              && c.walletId in db.wallets && NewWager(NewExternalOf(c, env)).Ok?
              && Overflows(NewWager(NewExternalOf(c, env)).value, db.wallets[c.walletId], r.error)
  {
    var made := NewWager(NewExternalOf(c, env));
    if made.Ok? && c.walletId in db.wallets {
      DecideErrors(made.value, db.wallets[c.walletId], ReferenceOf(db, made.value), ReversedOf(db, ReferenceOf(db, made.value)),
                   policy, env.now);
    }
  }

  /** Process never ends in an invalid transition, an unprocessed reference, a lost update or a refused guard. */
  lemma ProcessErrors(db: Db, c: ProcessCommand, policy: Policy, env: Env)
    requires Readable(db) && policy.Valid() && EnvOk(db, env)
    requires forall id :: id in db.wallets ==> SoundWallet(db.wallets[id])
    ensures var r := ProcessOutcome(db, c, policy, env);
            r.Err? && !RequestError(r.error) ==>
              && c.walletId in db.wallets && NewWager(NewExternalOf(c, env)).Ok?
              && Overflows(NewWager(NewExternalOf(c, env)).value, db.wallets[c.walletId], r.error)
  {
    if CommandValid(c) { HandleErrors(ClaimedBy(db, c.inbox, env.now), c, policy, env); }
  }

  // --- frozen balances ----------------------------------------------------

  /** The row is terminal with the balance that its wallet has now. */
  ghost predicate EndsWithBalance(db: Db, id: Uuid) {
    && Ended(db, id) && db.wagers[id].walletId in db.wallets
    && db.wagers[id].result == Some(db.wallets[db.wagers[id].walletId].balance)
  }

  lemma CommitEnds(db: Db, w: WagerState, d: Decision, meta: Meta, id: Uuid)
    requires w.walletId in db.wallets && db.wallets[w.walletId].id == w.walletId && Feasible(w, db.wallets[w.walletId], d)
    requires !Ended(db, id) && Ended(Commit(db, w, d, meta), id)
    ensures EndsWithBalance(Commit(db, w, d, meta), id)
  {
  }

  lemma StepEnds(db: Db, after: Db, id: Uuid)
    requires Readable(db) && Steps(db, after) && !Ended(db, id) && Ended(after, id)
    ensures EndsWithBalance(after, id)
  {
    var w, d, meta :| Legal(db, w, d, meta) && after == Commit(db, w, d, meta);
    LegalEnds(db, w, d, meta, id);
  }

  lemma LegalEnds(db: Db, w: WagerState, d: Decision, meta: Meta, id: Uuid)
    requires Legal(db, w, d, meta) && db.wallets[w.walletId].id == w.walletId
    requires !Ended(db, id) && Ended(Commit(db, w, d, meta), id)
    ensures EndsWithBalance(Commit(db, w, d, meta), id)
  {
    CommitEnds(db, w, d, meta, id);
  }

  lemma ReceiptEnds(db: Db, after: Db, inbox: Option<InboxInput>, now: Time, id: Uuid)
    requires Readable(db) && Receives(db, after, inbox, now) &&
             !Ended(db, id) && Ended(after, id)
    ensures EndsWithBalance(after, id)
  {
    var handled :| Steps(ClaimedBy(db, inbox, now), handled) && (inbox.Some? ==> inbox.value.key in handled.inbox) &&
                   after == CompletedBy(handled, inbox, now);
    StepEnds(ClaimedBy(db, inbox, now), handled, id);
  }

  lemma CalledEnds(db: Db, op: Op, policy: Policy, id: Uuid)
    requires Valid(db) && policy.Valid() && Possible(db, op)
    requires !Ended(db, id) && Ended(Called(db, op, policy), id)
    ensures EndsWithBalance(Called(db, op, policy), id)
  {
    var after := Called(db, op, policy);
    match op
    case CreateOp(c, env) =>
    case ProcessOp(c, env) =>
      ProcessSteps(db, c, policy, env);
      ReceiptEnds(db, after, c.inbox, env.now, id);
    case ResolveOp(visited, env) =>
      ResolveSteps(db, visited, policy, env);
      StepEnds(db, after, id);
    case RecordOp(visited, env) =>
      RecordSteps(db, visited, policy, env);
      StepEnds(db, after, id);
    case CrashOp =>
  }

  lemma RunStepEnds(db: Db, op: Op, policy: Policy, id: Uuid)
    requires Valid(db) && policy.Valid() && !Ended(db, id) && Ended(RunStep(db, op, policy), id)
    ensures EndsWithBalance(RunStep(db, op, policy), id)
  {
    CalledEnds(db, op, policy, id);
  }

  lemma RowStays(before: Db, op: Op, policy: Policy, id: Uuid)
    requires Valid(before) && policy.Valid() && Ended(before, id)
    ensures id in RunStep(before, op, policy).wagers && RunStep(before, op, policy).wagers[id] == before.wagers[id]
  {
    RunStepExtends(before, op, policy);
  }

  /** The last step of a run either ended a row, with the balance of its wallet, or left the ended row as it was. */
  lemma LastStepEnds(db: Db, ops: seq<Op>, policy: Policy, id: Uuid)
    requires Valid(db) && policy.Valid() && ops != [] && Ended(Execute(db, ops, policy), id)
    ensures var before, after := Execute(db, ops[..|ops| - 1], policy), Execute(db, ops, policy);
            if Ended(before, id) then after.wagers[id] == before.wagers[id] else EndsWithBalance(after, id)
  {
    var before, op := Execute(db, ops[..|ops| - 1], policy), ops[|ops| - 1];
    ExecuteKeepsValid(db, ops[..|ops| - 1], policy);
    if Ended(before, id) { RowStays(before, op, policy, id); } else { RunStepEnds(before, op, policy, id); }
  }

  /** In every run, a terminal row states the balance of its wallet right after its own commit, which is found. */
  lemma {:induction false} ResultIsBalanceAtCommit(ops: seq<Op>, policy: Policy, id: Uuid) returns (earlier: seq<Op>, own: Op)
    requires policy.Valid() && Ended(Execute(EMPTY, ops, policy), id)
    ensures earlier + [own] <= ops && !Ended(Execute(EMPTY, earlier, policy), id)
    ensures EndsWithBalance(RunStep(Execute(EMPTY, earlier, policy), own, policy), id)
    ensures RunStep(Execute(EMPTY, earlier, policy), own, policy).wagers[id] == Execute(EMPTY, ops, policy).wagers[id]
    decreases |ops|
  {
    var init, last := ops[..|ops| - 1], ops[|ops| - 1];
    assert ops == init + [last];
    EmptyIsValid();
    LastStepEnds(EMPTY, ops, policy, id);
    if Ended(Execute(EMPTY, init, policy), id) {
      earlier, own := ResultIsBalanceAtCommit(init, policy, id);
    } else {
      earlier, own := init, last;
    }
  }
}
