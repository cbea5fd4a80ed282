/**
 What no sequence of whole calls does: reject two transactions for a missing reference
 that refer to each other.
 */
module Serial {
  import opened Base
  import opened Backoff
  import opened MoneyValue
  import opened Domain
  import opened Contracts
  import opened Database
  import opened Decisions
  import opened Invariants
  import opened Preservation
  import opened Storage
  import opened Calls
  import opened Creation
  import opened History

  ghost predicate RejectedAs(db: Db, id: Uuid, code: FailureCode) {
    id in db.wagers && db.wagers[id].status.Rejected? && db.wagers[id].failureCode == code
  }

  /** The reference that the first row asks for is the second row. */
  ghost predicate RefersTo(db: Db, a: Uuid, b: Uuid) {
    && a in db.wagers && b in db.wagers
    && HasExternalId(db.wagers[b], db.wagers[a].providerId, db.wagers[a].referenceExternalId)
  }

  /** Two rows that refer to each other are both rejected since their references were not found. */
  ghost predicate Crossed(db: Db, a: Uuid, b: Uuid) {
    && a != b && RefersTo(db, a, b) && RefersTo(db, b, a)
    && RejectedAs(db, a, ReferenceNotFound) && RejectedAs(db, b, ReferenceNotFound)
  }

  // --- one decision -------------------------------------------------------

  /** A reference is reported as not found only if it is missing or waiting, or was not asked for. */
  lemma MissingIsPending(
      w: WagerState, wallet: WalletState, reference: Option<WagerState>, reversed: bool, waited: bool,
      policy: Policy, now: Time)
    requires policy.Valid() && wallet.balance.minor >= 0
    ensures var d := DecideWithReference(w, wallet, reference, reversed, waited, policy, now);
            d.Ok? && d.value.Refuse? && d.value.code == ReferenceNotFound ==> ReferenceIsPending(reference)
  {
  }

  lemma FirstMissing(
      w: WagerState, wallet: WalletState, reference: Option<WagerState>, reversed: bool, policy: Policy, now: Time)
    requires policy.Valid() && wallet.balance.minor >= 0
    ensures var d := Decide(w, wallet, reference, reversed, policy, now);
            d.Ok? && d.value.Refuse? && d.value.code == ReferenceNotFound ==>
              w.referenceExternalId == "" || ReferenceIsPending(reference)
  {
    MissingIsPending(w, wallet, reference, reversed, false, policy, now);
  }

  /** The reference of the row is missing or waiting, or the row asks for none. */
  ghost predicate Unsettled(db: Db, w: WagerState) {
    w.referenceExternalId == "" || ReferenceIsPending(ReferenceOf(db, w))
  }

  /** A step that changed at most one row: if that row was rejected as not found, its reference was not terminal before. */
  ghost predicate RejectsFairly(db: Db, after: Db, a: Uuid) {
    RejectedAs(after, a, ReferenceNotFound) && !RejectedAs(db, a, ReferenceNotFound) ==>
      && Unsettled(db, after.wagers[a])
      && forall id :: id in after.wagers && id != a ==> id in db.wagers && after.wagers[id] == db.wagers[id]
  }

  lemma CommitRejects(db: Db, w: WagerState, d: Decision, meta: Meta, a: Uuid)
    requires w.walletId in db.wallets && Feasible(w, db.wallets[w.walletId], d)
    requires d.Refuse? && d.code == ReferenceNotFound ==> Unsettled(db, w)
    ensures RejectsFairly(db, Commit(db, w, d, meta), a)
  {
  }

  lemma ResolveRejects(db: Db, id: Uuid, policy: Policy, env: Env, a: Uuid)
    requires Readable(db) && policy.Valid() && ResolveOutcome(db, id, policy, env).Ok?
    ensures RejectsFairly(db, ResolveOutcome(db, id, policy, env).value, a)
  {
    if db.wagers[id].status.PendingReference? {
      var w := db.wagers[id];
      var reference := ByExternalId(db.wagers, w.providerId, w.referenceExternalId);
      MissingIsPending(w, db.wallets[w.walletId], reference, ReversedOf(db, reference), true, policy, env.now);
      CommitRejects(db, w, ResolveDecision(db, w, policy, env.now).value, WorkerMeta(id, env), a);
    }
  }

  lemma RecordRejects(db: Db, id: Uuid, policy: Policy, env: Env, a: Uuid)
    requires Readable(db) && policy.Valid() && RecordOutcome(db, id, policy, env).Ok?
    ensures RejectsFairly(db, RecordOutcome(db, id, policy, env).value, a)
  {
    if db.wagers[id].status.PendingReference? {
      CommitRejects(db, db.wagers[id], DecideFailure(db.wagers[id], policy, env.now), WorkerMeta(id, env), a);
    }
  }

  lemma HandleRejects(db: Db, c: ProcessCommand, policy: Policy, env: Env, a: Uuid)
    requires Readable(db) && policy.Valid() && HandleOutcome(db, c, policy, env).Ok?
    ensures RejectsFairly(db, HandleOutcome(db, c, policy, env).value.0, a)
  {
    HandledOutcome(db, c, policy, env);
    if IsNew(db, c, env) {
      var w := NewWager(NewExternalOf(c, env)).value;
      FirstMissing(w, db.wallets[w.walletId], ReferenceOf(db, w), ReversedOf(db, ReferenceOf(db, w)), policy, env.now);
      CommitRejects(db, w, FirstDecision(db, w, policy, env.now).value, ProcessMeta(c, env), a);
    }
  }

  lemma ProcessRejects(db: Db, c: ProcessCommand, policy: Policy, env: Env, a: Uuid)
    requires Readable(db) && policy.Valid() && ProcessOutcome(db, c, policy, env).Ok?
    ensures RejectsFairly(db, ProcessOutcome(db, c, policy, env).value.0, a)
  {
    ProcessIsHandled(db, c, policy, env);
    var claimed := ClaimedBy(db, c.inbox, env.now);
    if HandleOutcome(claimed, c, policy, env).Ok? {
      HandleRejects(claimed, c, policy, env, a);
      SameRejections(claimed, HandleOutcome(claimed, c, policy, env).value.0,
                     db, ProcessOutcome(db, c, policy, env).value.0, a);
    }
  }

  /** Rejections do not depend on the inbox. */
  lemma SameRejections(db: Db, after: Db, db': Db, after': Db, a: Uuid)
    requires RejectsFairly(db, after, a) && db'.wagers == db.wagers
    requires after'.wagers == after.wagers || after'.wagers == db.wagers
    ensures RejectsFairly(db', after', a)
  {
  }

  lemma CreateRejects(db: Db, c: CreateCommand, env: CreateEnv, a: Uuid)
    requires CreateOutcome(db, c, env).Ok?
    ensures RejectsFairly(db, CreateOutcome(db, c, env).value.0, a)
  {
  }

  lemma CalledRejects(db: Db, op: Op, policy: Policy, a: Uuid)
    requires Readable(db) && policy.Valid()
    ensures RejectsFairly(db, Called(db, op, policy), a)
  {
    match op
    case CreateOp(c, env) => if CreateOutcome(db, c, env).Ok? { CreateRejects(db, c, env, a); }
    case ProcessOp(c, env) => if ProcessOutcome(db, c, policy, env).Ok? { ProcessRejects(db, c, policy, env, a); }
    case ResolveOp(id, env) => if ResolveOutcome(db, id, policy, env).Ok? { ResolveRejects(db, id, policy, env, a); }
    case RecordOp(id, env) => if RecordOutcome(db, id, policy, env).Ok? { RecordRejects(db, id, policy, env, a); }
    case CrashOp =>
  }

  // --- every sequence of calls --------------------------------------------

  /** Of two rows that refer to each other, the one rejected later finds the other one terminal. */
  lemma LaterFindsEarlier(db: Db, after: Db, a: Uuid, b: Uuid)
    requires Valid(db) && RejectsFairly(db, after, a) && Crossed(after, a, b)
    ensures RejectedAs(db, a, ReferenceNotFound)
  {
    if !RejectedAs(db, a, ReferenceNotFound) {
      var w := after.wagers[a];
      assert Obeys(db, WagerRule) && Obeys(db, KeyRule);
      assert WagerOk(db.wallets, db.wagers[b]);
      ExternalIdIsUnique(db, w.providerId, w.referenceExternalId, b);
      assert false;
    }
  }

  lemma CrossedBefore(db: Db, after: Db, a: Uuid, b: Uuid)
    requires Crossed(after, a, b) && Extends(db, after)
    requires RejectedAs(db, a, ReferenceNotFound) && RejectedAs(db, b, ReferenceNotFound)
    ensures Crossed(db, a, b)
  {
  }

  lemma RunStepNeverCrosses(db: Db, op: Op, policy: Policy, a: Uuid, b: Uuid)
    requires Valid(db) && policy.Valid() && !Crossed(db, a, b)
    ensures !Crossed(RunStep(db, op, policy), a, b)
  {
    var after := RunStep(db, op, policy);
    if Crossed(after, a, b) {
      CalledRejects(db, op, policy, a);
      CalledRejects(db, op, policy, b);
      LaterFindsEarlier(db, after, a, b);
      LaterFindsEarlier(db, after, b, a);
      RunStepExtends(db, op, policy);
      CrossedBefore(db, after, a, b);
    }
  }

  /**
   No sequence of whole calls, successful or not, rejects two rows that refer to each other
   both as not found: the later of the two finds the earlier one rejected.
   */
  lemma {:induction false} NeverCrossed(db: Db, ops: seq<Op>, policy: Policy, a: Uuid, b: Uuid)
    requires Valid(db) && policy.Valid() && !Crossed(db, a, b)
    ensures !Crossed(Execute(db, ops, policy), a, b)
    decreases |ops|
  {
    if ops != [] {
      NeverCrossed(db, ops[..|ops| - 1], policy, a, b);
      ExecuteKeepsValid(db, ops[..|ops| - 1], policy);
      RunStepNeverCrosses(Execute(db, ops[..|ops| - 1], policy), ops[|ops| - 1], policy, a, b);
    }
  }
}
