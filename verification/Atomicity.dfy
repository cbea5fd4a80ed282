/**
 Interleaved commits and atomic calls: when a call commits exactly what the whole call
 would commit alone at that moment, and when it does not.
 */
module Atomicity {
  import opened Base
  import opened Backoff
  import opened MoneyValue
  import opened Domain
  import opened Contracts
  import opened Database
  import opened Decisions
  import opened Invariants
  import opened Preservation
  import opened Admission
  import opened Storage
  import opened Calls
  import opened Interleaving
  import opened Locking

  /** The reference was missing or waiting when it was read, and has become terminal since. */
  ghost predicate Overtaken(db: Db, c: Client)
    requires c.Ready()
  {
    && !c.job.RecordJob? && c.pc.w.referenceExternalId != ""
    && ReferenceIsPending(c.pc.reference) && !ReferenceIsPending(ReferenceOf(db, c.pc.w))
    && (c.job.ProcessJob? ==> IdentityMatches(c.pc.w, c.pc.wallet))
  }

  /** Reversals matter only to a reversal of the same wallet. */
  lemma ReversalsMatter(w: WagerState, reference: WagerState, a: bool, b: bool)
    requires w.kind.Reversing() && reference.walletId == w.walletId ==> a == b
    ensures ReferenceFailure(w, Some(reference), a) == ReferenceFailure(w, Some(reference), b)
  {
  }

  /** A terminal reference is still the committed one, and leads to the same decision. */
  lemma SameDecision(db: Db, w: WagerState, wallet: WalletState, reference: WagerState, reversed: bool, waited: bool,
      policy: Policy, now: Time)
    requires KeysOk(db) && ViewOk(db.wagers, w, Some(reference), reversed) && reference.status.Terminal()
    requires w.referenceExternalId != "" && policy.Valid() && wallet.balance.minor >= 0
    ensures ReferenceOf(db, w) == Some(reference)
    ensures DecideWithReference(w, wallet, Some(reference), reversed, waited, policy, now) ==
            DecideWithReference(w, wallet, ReferenceOf(db, w), ReversedOf(db, ReferenceOf(db, w)), waited, policy, now)
  {
    ExternalIdIsUnique(db, w.providerId, w.referenceExternalId, reference.id);
    ReversalsMatter(w, reference, reversed, ReversedOf(db, Some(reference)));
  }

  lemma PendingOrTerminal(reference: Option<WagerState>)
    ensures !ReferenceIsPending(reference) <==> reference.Some? && reference.value.status.Terminal()
  {
  }

  /** All references that are missing or waiting lead to the same decision. */
  lemma PendingDecision(
      w: WagerState, wallet: WalletState, a: Option<WagerState>, b: Option<WagerState>, r: bool, q: bool, waited: bool,
      policy: Policy, now: Time)
    requires ReferenceIsPending(a) && ReferenceIsPending(b) && policy.Valid() && wallet.balance.minor >= 0
    ensures DecideWithReference(w, wallet, a, r, waited, policy, now) == DecideWithReference(w, wallet, b, q, waited, policy, now)
  {
  }

  /** What is decided about a terminal reference links it. */
  lemma TerminalLinks(
      w: WagerState, wallet: WalletState, reference: WagerState, reversed: bool, waited: bool, policy: Policy, now: Time)
    requires !ReferenceIsPending(Some(reference)) && policy.Valid() && wallet.balance.minor >= 0
    ensures var d := DecideWithReference(w, wallet, Some(reference), reversed, waited, policy, now);
            d.Ok? ==> (d.value.Refuse? || d.value.Settle?) && d.value.referenceId == reference.id
  {
  }

  /** The decision that the whole call would take alone. */
  ghost function Alone(db: Db, c: Client, policy: Policy): (d: Result<Decision>)
    requires c.Ready() && !c.job.RecordJob? && policy.Valid()
    requires c.pc.w.walletId in db.wallets && db.wallets[c.pc.w.walletId].balance.minor >= 0
    ensures d.Ok? ==> Feasible(c.pc.w, db.wallets[c.pc.w.walletId], d.value)
  {
    if c.job.ProcessJob? then FirstDecision(db, c.pc.w, policy, c.env.now) else ResolveDecision(db, c.pc.w, policy, c.env.now)
  }

  lemma RefersWhenResolving(db: Db, c: Client)
    requires Valid(db) && ClientOk(db, c) && c.Ready() && c.job.ResolveJob?
    ensures c.pc.w.referenceExternalId != ""
  {
    assert Obeys(db, WagerRule);
    WaitingIsAdmissible(db, c.job.id);
  }

  /** A call that was not overtaken decides as it would alone. */
  lemma SteadyDecision(db: Db, c: Client, policy: Policy)
    requires Valid(db) && ClientOk(db, c) && c.Ready() && !c.job.RecordJob? && policy.Valid() && !Overtaken(db, c)
    ensures c.pc.w.walletId in db.wallets && db.wallets[c.pc.w.walletId] == c.pc.wallet && c.pc.wallet.balance.minor >= 0
    ensures c.Decided(policy) == Alone(db, c, policy)
  {
    ReadyReads(db, c);
    var w, waited := c.pc.w, c.job.ResolveJob?;
    if c.job.ResolveJob? { RefersWhenResolving(db, c); }
    if w.referenceExternalId != "" && (!ReferenceIsPending(c.pc.reference) || ReferenceIsPending(ReferenceOf(db, w))) {
      SteadyReference(db, c, waited, policy);
    }
  }

  /** The reference is terminal as read, or pending both as read and as committed. */
  lemma SteadyReference(db: Db, c: Client, waited: bool, policy: Policy)
    requires Valid(db) && c.Ready() && !c.job.RecordJob? && policy.Valid() && c.pc.wallet.balance.minor >= 0
    requires ViewOk(db.wagers, c.pc.w, c.pc.reference, c.pc.reversed) && c.pc.w.referenceExternalId != ""
    requires !ReferenceIsPending(c.pc.reference) || ReferenceIsPending(ReferenceOf(db, c.pc.w))
    ensures var w, committed := c.pc.w, ReferenceOf(db, c.pc.w);
            DecideWithReference(w, c.pc.wallet, c.pc.reference, c.pc.reversed, waited, policy, c.env.now) ==
            DecideWithReference(w, c.pc.wallet, committed, ReversedOf(db, committed), waited, policy, c.env.now)
  {
    var w, committed := c.pc.w, ReferenceOf(db, c.pc.w);
    if !ReferenceIsPending(c.pc.reference) {
      assert Obeys(db, KeyRule);
      PendingOrTerminal(c.pc.reference);
      SameDecision(db, w, c.pc.wallet, c.pc.reference.value, c.pc.reversed, waited, policy, c.env.now);
    } else {
      PendingDecision(w, c.pc.wallet, c.pc.reference, committed, c.pc.reversed, ReversedOf(db, committed), waited, policy,
                      c.env.now);
    }
  }

  /** A first call or a resolution that read a missing or waiting reference links nothing. */
  lemma GivesUpOrWaits(c: Client, policy: Policy)
    requires c.Ready() && !c.job.RecordJob? && policy.Valid() && c.pc.wallet.balance.minor >= 0
    requires c.pc.w.referenceExternalId != "" && ReferenceIsPending(c.pc.reference)
    requires c.job.ProcessJob? ==> IdentityMatches(c.pc.w, c.pc.wallet)
    ensures c.Decided(policy).Ok?
    ensures c.Decided(policy).value.Hold? || c.Decided(policy).value == Refuse(NO_ID, ReferenceNotFound)
  {
  }

  /** Alone, a call with a terminal reference links it, or fails. */
  lemma AloneLinks(db: Db, c: Client, policy: Policy)
    requires c.Ready() && !c.job.RecordJob? && policy.Valid()
    requires c.pc.w.walletId in db.wallets && db.wallets[c.pc.w.walletId].balance.minor >= 0
    requires c.pc.w.referenceExternalId != "" && !ReferenceIsPending(ReferenceOf(db, c.pc.w))
    requires c.job.ProcessJob? ==> IdentityMatches(c.pc.w, db.wallets[c.pc.w.walletId])
    ensures var alone := Alone(db, c, policy);
            alone.Ok? ==>
              (alone.value.Refuse? || alone.value.Settle?) && alone.value.referenceId == ReferenceOf(db, c.pc.w).value.id
  {
    var reference := ReferenceOf(db, c.pc.w).value;
    TerminalLinks(c.pc.w, db.wallets[c.pc.w.walletId], reference, ReversedOf(db, Some(reference)), c.job.ResolveJob?, policy,
                  c.env.now);
  }

  /** A call that was overtaken links nothing, and alone it would link the reference or fail. */
  lemma OvertakenDecision(db: Db, c: Client, policy: Policy)
    requires Valid(db) && ClientOk(db, c) && c.Ready() && policy.Valid() && Overtaken(db, c)
    ensures c.pc.w.walletId in db.wallets && db.wallets[c.pc.w.walletId] == c.pc.wallet && c.pc.wallet.balance.minor >= 0
    ensures c.Decided(policy).Ok?
    ensures c.Decided(policy).value.Hold? || c.Decided(policy).value == Refuse(NO_ID, ReferenceNotFound)
    ensures var alone := Alone(db, c, policy);
            alone.Ok? ==>
              (alone.value.Refuse? || alone.value.Settle?) && alone.value.referenceId == ReferenceOf(db, c.pc.w).value.id
    ensures ReferenceOf(db, c.pc.w).value.id != NO_ID
  {
    ReadyReads(db, c);
    GivesUpOrWaits(c, policy);
    AloneLinks(db, c, policy);
    assert Obeys(db, WagerRule);
    TerminalIsSet(db, c.pc.w);
  }

  lemma TerminalIsSet(db: Db, w: WagerState)
    requires WagersOk(db) && !ReferenceIsPending(ReferenceOf(db, w))
    ensures ReferenceOf(db, w).value.id != NO_ID
  {
    RefReadOk(db, w);
    PendingOrTerminal(ReferenceOf(db, w));
  }

  lemma FinalReference(w: WagerState, wallet: WalletState, d: Decision, now: Time)
    requires Feasible(w, wallet, d)
    ensures Final(w, wallet, d, now).referenceId ==
            if (d.Refuse? || d.Settle?) && d.referenceId != NO_ID then d.referenceId else w.referenceId
  {
  }

  /** Two decisions that link different references leave different databases. */
  lemma LinksDiffer(db: Db, c: Client, d: Decision, alone: Decision)
    requires c.Ready() && c.pc.w.walletId in db.wallets && db.wallets[c.pc.w.walletId] == c.pc.wallet
    requires Feasible(c.pc.w, c.pc.wallet, d) && Feasible(c.pc.w, c.pc.wallet, alone) && c.pc.w.referenceId == NO_ID
    requires d.Hold? || d == Refuse(NO_ID, ReferenceNotFound)
    requires (alone.Refuse? || alone.Settle?) && alone.referenceId != NO_ID
    ensures Written(db, c, d).wagers != Commit(db, c.pc.w, alone, c.CommitMeta()).wagers
  {
    FinalReference(c.pc.w, c.pc.wallet, d, c.CommitMeta().now);
    FinalReference(c.pc.w, c.pc.wallet, alone, c.CommitMeta().now);
    assert Written(db, c, d).wagers[c.pc.w.id] == Final(c.pc.w, c.pc.wallet, d, c.CommitMeta().now);
    assert Commit(db, c.pc.w, alone, c.CommitMeta()).wagers[c.pc.w.id] == Final(c.pc.w, c.pc.wallet, alone, c.CommitMeta().now);
  }

  lemma ReadyIsUnlinked(db: Db, c: Client)
    requires Valid(db) && ClientOk(db, c) && c.Ready()
    ensures c.pc.w.referenceId == NO_ID
  {
    assert Obeys(db, WagerRule);
    if !c.job.ProcessJob? { WaitingIsAdmissible(db, c.job.id); }
  }

  // --- the worker ---------------------------------------------------------

  /** The call of the worker, alone. */
  ghost function WorkerOutcome(db: Db, job: Job, policy: Policy, env: Env): Result<Db>
    requires Readable(db) && policy.Valid() && !job.ProcessJob?
  {
    if job.ResolveJob? then ResolveOutcome(db, job.id, policy, env) else RecordOutcome(db, job.id, policy, env)
  }

  lemma ResolveAlone(db: Db, c: Client, policy: Policy)
    requires Readable(db) && ClientOk(db, c) && c.Ready() && c.job.ResolveJob? && policy.Valid()
    ensures c.pc.w.walletId in db.wallets
    ensures ResolveOutcome(db, c.job.id, policy, c.env) ==
            match Alone(db, c, policy)
            case Ok(d) => Ok(Commit(db, c.pc.w, d, c.CommitMeta()))
            case Err(e) => Err(e)
  {
  }

  lemma WorkerWrites(db: Db, c: Client, d: Decision)
    requires c.Ready() && !c.job.ProcessJob? && Feasible(c.pc.w, c.pc.wallet, d)
    requires c.pc.w.walletId in db.wallets && db.wallets[c.pc.w.walletId] == c.pc.wallet
    ensures Written(db, c, d) == Commit(db, c.pc.w, d, c.CommitMeta())
  {
  }

  /** A call of the worker commits exactly what it would commit alone if and only if it was not overtaken. */
  lemma WorkerIsAtomic(db: Db, c: Client, policy: Policy)
    requires Valid(db) && ClientOk(db, c) && c.Ready() && !c.job.ProcessJob? && policy.Valid()
    requires c.pc.wallet.balance.minor >= 0 && c.Decided(policy).Ok?
    ensures WorkerOutcome(db, c.job, policy, c.env) == Ok(Written(db, c, c.Decided(policy).value)) <==> !Overtaken(db, c)
  {
    var d := c.Decided(policy).value;
    ReadyReads(db, c);
    WorkerWrites(db, c, d);
    if c.job.RecordJob? {
      RecordAlone(db, c, policy);
    } else {
      ResolveAlone(db, c, policy);
      if Overtaken(db, c) {
        OvertakenDecision(db, c, policy);
        ReadyIsUnlinked(db, c);
        if Alone(db, c, policy).Ok? { LinksDiffer(db, c, d, Alone(db, c, policy).value); }
      } else {
        SteadyDecision(db, c, policy);
      }
    }
  }

  lemma RecordAlone(db: Db, c: Client, policy: Policy)
    requires Readable(db) && ClientOk(db, c) && c.Ready() && c.job.RecordJob? && policy.Valid()
    ensures c.pc.w.walletId in db.wallets && db.wallets[c.pc.w.walletId] == c.pc.wallet && c.pc.wallet.balance.minor >= 0
    ensures RecordOutcome(db, c.job.id, policy, c.env) == Ok(Commit(db, c.pc.w, c.Decided(policy).value, c.CommitMeta()))
  {
  }

  // --- the first call -----------------------------------------------------

  lemma PlacedIsUnknown(db: Db, c: Client)
    requires ClientOk(db, c) && c.job.ProcessJob? && c.pc.Placed?
    ensures ByKey(db.wagers, c.job.command.providerId, c.job.command.idempotencyKey).None?
    ensures ByExternalId(db.wagers, c.job.command.providerId, c.job.command.externalId).None?
    ensures CommandValid(c.job.command) && MessageOpen(db, c.Inbox()) && c.job.command.walletId in db.wallets
    ensures NewWager(NewExternalOf(c.job.command, c.env)) == Ok(c.pc.w)
  {
  }

  lemma DecisionAfterClaim(db: Db, other: Db, w: WagerState, policy: Policy, now: Time)
    requires w.walletId in db.wallets && db.wallets[w.walletId].balance.minor >= 0 && policy.Valid()
    requires other == db.(inbox := other.inbox)
    ensures FirstDecision(other, w, policy, now) == FirstDecision(db, w, policy, now)
  {
  }

  /** What Process would commit alone: the decision, between the claim and the completion of its message. */
  lemma ProcessAlone(db: Db, c: Client, policy: Policy)
    requires Readable(db) && ClientOk(db, c) && c.Ready() && c.job.ProcessJob? && policy.Valid()
    ensures c.pc.w.walletId in db.wallets && db.wallets[c.pc.w.walletId] == c.pc.wallet
    ensures var outcome, alone := ProcessOutcome(db, c.job.command, policy, c.env), Alone(db, c, policy);
            if alone.Err? then outcome == Err(alone.error)
            else outcome.Ok? && outcome.value.0 == Written(db, c, alone.value)
  {
    PlacedIsUnknown(db, c);
    DecisionAfterClaim(db, ClaimedBy(db, c.Inbox(), c.env.now), c.pc.w, policy, c.env.now);
  }

  lemma WrittenRows(db: Db, c: Client, d: Decision)
    requires c.Ready() && Feasible(c.pc.w, c.pc.wallet, d)
    requires c.pc.w.walletId in db.wallets && db.wallets[c.pc.w.walletId] == c.pc.wallet
    ensures Written(db, c, d).wagers == Commit(db, c.pc.w, d, c.CommitMeta()).wagers
  {
    WrittenTables(db, c, d);
  }

  /** A call of Process commits exactly what it would commit alone if and only if it was not overtaken. */
  lemma ProcessIsAtomic(db: Db, c: Client, policy: Policy)
    requires Valid(db) && ClientOk(db, c) && c.Ready() && c.job.ProcessJob? && policy.Valid()
    requires c.pc.wallet.balance.minor >= 0 && c.Decided(policy).Ok?
    ensures var outcome := ProcessOutcome(db, c.job.command, policy, c.env);
            outcome.Ok? && outcome.value.0 == Written(db, c, c.Decided(policy).value) <==> !Overtaken(db, c)
  {
    ProcessAlone(db, c, policy);
    if Overtaken(db, c) {
      OvertakenDecision(db, c, policy);
      ReadyIsUnlinked(db, c);
      var alone := Alone(db, c, policy);
      if alone.Ok? {
        LinksDiffer(db, c, c.Decided(policy).value, alone.value);
        WrittenRows(db, c, alone.value);
      }
    } else {
      SteadyDecision(db, c, policy);
    }
  }

  /** A call that was overtaken can only wait, or give up on a missing reference: whatever moves money is atomic. */
  lemma MoneyIsSteady(db: Db, c: Client, policy: Policy)
    requires Valid(db) && ClientOk(db, c) && c.Ready() && policy.Valid() && c.pc.wallet.balance.minor >= 0
    requires c.Decided(policy).Ok?
    ensures c.Decided(policy).value.Settle? ==> !Overtaken(db, c)
    ensures Overtaken(db, c) ==> c.Decided(policy).value.Hold? || c.Decided(policy).value == Refuse(NO_ID, ReferenceNotFound)
  {
    if Overtaken(db, c) { OvertakenDecision(db, c, policy); }
  }
}
