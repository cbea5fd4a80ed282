/**
 The wager service: methods that work step by step on aggregates and a transaction,
 proved to do exactly what module Calls says (internal/application/wager_service.go).
 */
module WagerService {
  import opened Base
  import opened Backoff
  import opened MoneyValue
  import opened Domain
  import opened Contracts
  import opened Database
  import opened Decisions
  import opened Invariants
  import opened Preservation
  import opened Admission
  import opened Aggregates
  import opened Storage
  import opened Calls

  lemma FoundIsOk(db: Db, t: WagerState)
    requires WagersOk(db) && t.id in db.wagers && db.wagers[t.id] == t
    ensures t.walletId in db.wallets
  {
    assert WagerOk(db.wallets, t);
  }

  lemma UnreferencedIsReady(db: Db, w: WagerState, meta: Meta)
    requires Valid(db)
    requires Admissible(db, w, true) && meta.insert && IdsFree(db, meta) && IdentityMatches(w, db.wallets[w.walletId])
    requires w.referenceExternalId == ""
    ensures FinalizeReady(db, w, None, meta)
  {
    assert Obeys(db, WagerRule);
    NoUnsetId(db);
    FinalizeIsReady(db, w, None, meta);
  }

  /** A movement that fails for lack of funds leads to a rejection; any other failure is the failure of the call. */
  lemma MoveFails(w: WagerState, wallet: WalletState, reference: Option<WagerState>, now: Time)
    requires w.kind.External() && wallet.balance.minor >= 0 && DirectionFor(w, reference).Some?
    requires MoveWallet(wallet, DirectionFor(w, reference).value, w.money, now).Err?
    ensures var e := MoveWallet(wallet, DirectionFor(w, reference).value, w.money, now).error;
            Movable(w, wallet, reference, now) ==
            if e == InsufficientFunds
            then Ok(Refuse(IdOf(reference), if w.kind.Rollback? then InsufficientFundsReversal else InsufficientFundsForBet))
            else Err(e)
  {
  }

  /** A movement that succeeds lands on the target of the settlement. */
  lemma SettleFacts(w: WagerState, wallet: WalletState, reference: Option<WagerState>, now: Time)
    requires IdentityMatches(w, wallet) && SoundWallet(wallet) && now != ZERO_TIME && w.kind.External()
    requires DirectionFor(w, reference).Some? || w.kind.Loss?
    requires DirectionFor(w, reference).Some? ==>
               w.money.IsPositive() && MoveWallet(wallet, DirectionFor(w, reference).value, w.money, now).Ok?
    ensures Feasible(w, wallet, Settlement(w, reference))
    ensures Movable(w, wallet, reference, now) ==
            if VersionFits(wallet, Settlement(w, reference)) then Ok(Settlement(w, reference)) else Err(IntegerOutOfRange)
    ensures DirectionFor(w, reference).Some? ==>
              MoveWallet(wallet, DirectionFor(w, reference).value, w.money, now).value ==
              WithBalance(wallet, Money(Target(w, wallet, DirectionFor(w, reference)), wallet.balance.currency), now)
  {
    if DirectionFor(w, reference).Some? {
      MoveWalletExact(wallet, DirectionFor(w, reference).value, w.money, now);
    }
  }

  // --- what the steps write -----------------------------------------------

  function RejectedRow(s: WagerState, balance: Money, code: FailureCode, now: Time): WagerState {
    s.(status := Rejected, failureCode := code, result := Some(balance), nextAttempt := None, updatedAt := now)
  }

  /** A row with the event about it. */
  function Closed(db: Db, row: WagerState, data: EventData, meta: Meta): Db {
    db.(wagers := db.wagers[row.id := row],
        outbox := db.outbox + [Event(meta.firstEvent, row.id, meta.correlation, meta.causation, meta.now, data)])
  }

  ghost predicate EventIsNew(db: Db, id: Uuid) {
    forall i :: 0 <= i < |db.outbox| ==> db.outbox[i].id != id
  }

  ghost predicate RejectReady(db: Db, s: WagerState, balance: Money, code: FailureCode, meta: Meta) {
    && Domain.Reject(s, code, balance, meta.now).Ok?
    && RowAccepted(db, RejectedRow(s, balance, code, meta.now), meta.insert)
    && EventIsNew(db, meta.firstEvent)
  }

  lemma RefuseEffect(db: Db, w: WagerState, referenceId: Uuid, code: FailureCode, meta: Meta)
    requires w.walletId in db.wallets
    ensures var wallet := db.wallets[w.walletId];
            var row := RejectedRow(Linked(w, referenceId, meta.now), wallet.balance, code, meta.now);
            && row == Final(w, wallet, Refuse(referenceId, code), meta.now)
            && Closed(db, row, RejectedData(row, wallet.balance), meta) == Commit(db, w, Refuse(referenceId, code), meta)
  {
  }

  lemma RowIsAccepted(db: Db, w: WagerState, d: Decision, meta: Meta)
    requires Valid(db) && LegalRow(db, w, d, meta)
    ensures RowAccepted(db, Final(w, db.wallets[w.walletId], d, meta.now), meta.insert)
  {
    assert Obeys(db, WalletRule) && Obeys(db, WagerRule) && Obeys(db, KeyRule);
    RowGuardsAccept(db, w, d, meta);
  }

  lemma RowFacts(db: Db, w: WagerState, d: Decision, meta: Meta)
    requires Valid(db) && LegalRow(db, w, d, meta)
    ensures SoundWallet(db.wallets[w.walletId]) && !w.status.Terminal()
    ensures d.Hold? ==> w.referenceExternalId != ""
    ensures d.Exhaust? ==> !meta.insert && IdentityMatches(w, db.wallets[w.walletId])
  {
    assert Obeys(db, WalletRule) && Obeys(db, WagerRule);
    AdmissibleIsUndecided(db, w, meta.insert);
  }

  lemma RefusalIsReady(db: Db, w: WagerState, referenceId: Uuid, code: FailureCode, meta: Meta)
    requires w.walletId in db.wallets && SoundWallet(db.wallets[w.walletId]) && IdsFree(db, meta)
    requires !w.status.Terminal() && !code.NoFailure?
    requires RowAccepted(db, Final(w, db.wallets[w.walletId], Refuse(referenceId, code), meta.now), meta.insert)
    ensures RejectReady(db, Linked(w, referenceId, meta.now), db.wallets[w.walletId].balance, code, meta)
  {
    RefuseEffect(db, w, referenceId, code, meta);
  }

  lemma LegalRefusal(db: Db, w: WagerState, referenceId: Uuid, code: FailureCode, meta: Meta)
    requires Valid(db) && LegalRow(db, w, Refuse(referenceId, code), meta)
    ensures RejectReady(db, Linked(w, referenceId, meta.now), db.wallets[w.walletId].balance, code, meta)
  {
    RowIsAccepted(db, w, Refuse(referenceId, code), meta);
    RowFacts(db, w, Refuse(referenceId, code), meta);
    RefusalIsReady(db, w, referenceId, code, meta);
  }

  /** The guards stand ready for a settlement. */
  ghost predicate SettleReady(db: Db, w: WagerState, goal: Decision, meta: Meta)
    requires w.walletId in db.wallets
  {
    var wallet := db.wallets[w.walletId];
    && Feasible(w, wallet, goal) && IdentityMatches(w, wallet) && SoundWallet(wallet) && wallet.id == w.walletId
    && IdsFree(db, meta)
    && RowAccepted(db, Final(w, wallet, goal, meta.now), meta.insert)
    && (goal.Settle? && goal.direction.Some? && wallet.version < MAX_INT64 ==> MovementAccepted(db, Effect(w, wallet,
        goal, meta)))
    && (goal.Settle? && goal.direction.Some? ==> w.money.IsPositive() && w.id != NO_ID && w.walletId != NO_ID)
  }

  /** The guards stand ready for whatever finalize will write. */
  ghost predicate FinalizeReady(db: Db, w: WagerState, reference: Option<WagerState>, meta: Meta)
    requires w.walletId in db.wallets && db.wallets[w.walletId].balance.minor >= 0
  {
    var wallet := db.wallets[w.walletId];
    var d := Movable(w, wallet, reference, meta.now);
    var goal := Settlement(w, reference);
    && w.kind.External() && (w.status.Pending? || reference.Some?) && meta.now != ZERO_TIME
    && IdentityMatches(w, wallet) && SoundWallet(wallet)
    && (reference.Some? ==> reference.value.id != NO_ID)
    && (goal.direction.Some? ==> w.money.IsPositive())
    && (d.Ok? && d.value.Refuse? ==> RejectReady(db, Linked(w, d.value.referenceId, meta.now), wallet.balance,
        d.value.code, meta))
    && (Feasible(w, wallet, goal) ==> SettleReady(db, w, goal, meta))
  }

  /** A terminal reference found by external id may be linked. */
  lemma TerminalReference(db: Db, w: WagerState, reference: WagerState)
    requires Valid(db) && ReferenceOf(db, w) == Some(reference) && !ReferenceIsPending(Some(reference))
    ensures reference.id != NO_ID && reference.id in db.wagers && db.wagers[reference.id] == reference
    ensures reference.status.Terminal() && HasExternalId(reference, w.providerId, w.referenceExternalId)
    ensures LinkOk(db, w, reference.id)
  {
    var id :| id in db.wagers && db.wagers[id] == reference && HasExternalId(db.wagers[id], w.providerId,
        w.referenceExternalId);
    assert Obeys(db, WagerRule) && WagerOk(db.wallets, db.wagers[id]);
  }

  /** The guards stand ready for whatever is decided about a terminal reference. */
  ghost predicate TerminalReady(db: Db, w: WagerState, reference: WagerState, meta: Meta)
    requires w.walletId in db.wallets && db.wallets[w.walletId].balance.minor >= 0
  {
    var balance := db.wallets[w.walletId].balance;
    var code := if !reference.status.Processed? then ReferenceNotProcessed
                else ReferenceFailure(w, Some(reference), ReversedOf(db, Some(reference)));
    && !ReferenceIsPending(Some(reference)) && reference.id != NO_ID
    && !w.status.Terminal() && w.referenceExternalId != "" && meta.now != ZERO_TIME
    && (if code != NoFailure then RejectReady(db, Linked(w, reference.id, meta.now), balance, code, meta)
        else FinalizeReady(db, w, Some(reference), meta))
  }

  lemma SettlementAccepted(db: Db, w: WagerState, goal: Decision, meta: Meta)
    requires Valid(db) && Legal(db, w, goal, meta) && goal.Settle? && goal.direction.Some?
    ensures MovementAccepted(db, Effect(w, db.wallets[w.walletId], goal, meta))
  {
    RowsMean(db);
    LedgerMeans(db);
    CommitRow(db, w, goal, meta);
    CommitMoney(db, w, goal, meta);
    NoUnsetId(db);
    MovementGuardsAccept(db, Commit(db, w, goal, meta), Effect(w, db.wallets[w.walletId], goal, meta), w);
  }

  lemma SettleIsReady(db: Db, w: WagerState, goal: Decision, meta: Meta)
    requires Valid(db) && LegalRow(db, w, goal, meta) && goal.Settle?
    ensures SettleReady(db, w, goal, meta)
  {
    RowIsAccepted(db, w, goal, meta);
    if goal.direction.Some? && db.wallets[w.walletId].version < MAX_INT64 {
      SettlementAccepted(db, w, goal, meta);
    }
    SettleFits(db, w, goal, meta);
  }

  lemma SettleFits(db: Db, w: WagerState, goal: Decision, meta: Meta)
    requires Valid(db) && LegalRow(db, w, goal, meta) && goal.Settle?
    ensures var wallet := db.wallets[w.walletId];
            && Feasible(w, wallet, goal) && IdentityMatches(w, wallet) && SoundWallet(wallet) && wallet.id == w.walletId
            && (goal.direction.Some? ==> w.money.IsPositive() && w.id != NO_ID && w.walletId != NO_ID)
  {
    assert Obeys(db, WalletRule) && Obeys(db, WagerRule);
    AdmissibleIsUndecided(db, w, meta.insert);
    if goal.direction.Some? { MovesPositive(w, Lookup(db.wagers, goal.referenceId)); }
  }

  /** Only losses have an amount of zero, and they move nothing. */
  lemma MovesPositive(w: WagerState, reference: Option<WagerState>)
    requires Undecided(w) && DirectionFor(w, reference).Some?
    ensures w.money.IsPositive()
  {
  }

  /** A terminal reference leads to a rejection or a settlement that the guards accept. */
  lemma TerminalIsReady(db: Db, w: WagerState, reference: WagerState, meta: Meta)
    requires Valid(db)
    requires Admissible(db, w, meta.insert) && IdsFree(db, meta)
    requires IdentityMatches(w, db.wallets[w.walletId]) && w.referenceExternalId != ""
    requires ReferenceOf(db, w) == Some(reference) && !ReferenceIsPending(Some(reference))
    ensures TerminalReady(db, w, reference, meta)
  {
    TerminalReference(db, w, reference);
    var code := if !reference.status.Processed? then ReferenceNotProcessed
                else ReferenceFailure(w, Some(reference), ReversedOf(db, Some(reference)));
    if code != NoFailure {
      TerminalRefusal(db, w, reference, code, meta);
    } else {
      AtomicReferenceInOrder(db, w, reference, meta);
      FinalizeIsReady(db, w, Some(reference), meta);
    }
  }

  lemma TerminalRefusal(db: Db, w: WagerState, reference: WagerState, code: FailureCode, meta: Meta)
    requires Valid(db) && Admissible(db, w, meta.insert) && IdsFree(db, meta)
    requires LinkOk(db, w, reference.id) && !code.NoFailure?
    ensures RejectReady(db, Linked(w, reference.id, meta.now), db.wallets[w.walletId].balance, code, meta)
  {
    LegalRefusal(db, w, reference.id, code, meta);
  }

  /** A processed reference that passes the checks, as read within the transaction. */
  lemma AtomicReferenceInOrder(db: Db, w: WagerState, reference: WagerState, meta: Meta)
    requires Valid(db) && Admissible(db, w, meta.insert) && w.referenceExternalId != ""
    requires ReferenceOf(db, w) == Some(reference) && reference.status.Processed?
    requires ReferenceFailure(w, Some(reference), ReversedOf(db, Some(reference))) == NoFailure
    ensures ReferenceInOrder(db.wagers, w, Some(reference))
  {
    assert Obeys(db, WagerRule);
    AtomicView(db, w);
    AdmissibleIsUndecided(db, w, meta.insert);
    ProcessedReferenceInOrder(db, w, reference, ReversedOf(db, Some(reference)));
  }

  /** With its reference in order, whatever finalize writes will be accepted. */
  lemma FinalizeIsReady(db: Db, w: WagerState, reference: Option<WagerState>, meta: Meta)
    requires Valid(db)
    requires Admissible(db, w, meta.insert) && IdsFree(db, meta) && IdentityMatches(w, db.wallets[w.walletId])
    requires ReferenceInOrder(db.wagers, w, reference) && (w.status.Pending? || reference.Some?)
    ensures FinalizeReady(db, w, reference, meta)
  {
    FinalizeFits(db, w, reference, meta);
    var d := Movable(w, db.wallets[w.walletId], reference, meta.now);
    if d.Ok? && d.value.Refuse? {
      LegalRefusal(db, w, d.value.referenceId, d.value.code, meta);
    }
    if Feasible(w, db.wallets[w.walletId], Settlement(w, reference)) {
      SettleIsReady(db, w, Settlement(w, reference), meta);
    }
  }

  /** Both the settlement and the decision of the movement step are justified. */
  lemma FinalizeFits(db: Db, w: WagerState, reference: Option<WagerState>, meta: Meta)
    requires Valid(db) && Admissible(db, w, meta.insert) && meta.now != ZERO_TIME
    requires IdentityMatches(w, db.wallets[w.walletId]) && ReferenceInOrder(db.wagers, w, reference)
    ensures w.kind.External() && SoundWallet(db.wallets[w.walletId])
    ensures DirectionFor(w, reference).Some? ==> w.money.IsPositive()
    ensures var d := Movable(w, db.wallets[w.walletId], reference, meta.now);
            d.Ok? ==> Justified(db, w, d.value, meta)
    ensures Feasible(w, db.wallets[w.walletId], Settlement(w, reference)) ==> Justified(db, w, Settlement(w, reference), meta)
  {
    assert Obeys(db, WalletRule) && Obeys(db, WagerRule);
    AdmissibleIsUndecided(db, w, meta.insert);
    MovableJustified(db, w, reference, meta);
    SettlementJustified(db, w, reference, meta);
  }

  /** The guards stand ready for a row that moves no money. */
  ghost predicate RowReady(db: Db, w: WagerState, d: Decision, meta: Meta) {
    && w.walletId in db.wallets && Feasible(w, db.wallets[w.walletId], d)
    && RowAccepted(db, Final(w, db.wallets[w.walletId], d, meta.now), meta.insert)
    && EventIsNew(db, meta.firstEvent) && meta.now != ZERO_TIME && !w.status.Terminal()
    && (d.Hold? ==> w.referenceExternalId != "")
    && (d.Exhaust? ==> !meta.insert && IdentityMatches(w, db.wallets[w.walletId]) && SoundWallet(db.wallets[w.walletId]))
  }

  lemma RowIsReady(db: Db, w: WagerState, d: Decision, meta: Meta)
    requires Valid(db) && LegalRow(db, w, d, meta)
    ensures RowReady(db, w, d, meta)
  {
    RowIsAccepted(db, w, d, meta);
    RowFacts(db, w, d, meta);
  }

  lemma RecordIsReady(db: Db, id: Uuid, policy: Policy, env: Env)
    requires Valid(db) && policy.Valid() && EnvOk(db, env)
    requires id in db.wagers && db.wagers[id].status.PendingReference?
    ensures RowReady(db, db.wagers[id], DecideFailure(db.wagers[id], policy, env.now), WorkerMeta(id, env))
  {
    assert Obeys(db, WalletRule) && Obeys(db, WagerRule);
    RecordLegal(db, id, policy, env);
    RowIsReady(db, db.wagers[id], DecideFailure(db.wagers[id], policy, env.now), WorkerMeta(id, env));
  }

  /** The guards stand ready for whatever the worker decides. */
  ghost predicate ResumeReady(db: Db, w: WagerState, reference: Option<WagerState>, policy: Policy, meta: Meta)
    requires w.walletId in db.wallets && db.wallets[w.walletId].balance.minor >= 0 && policy.Valid()
  {
    if !ReferenceIsPending(reference) then TerminalReady(db, w, reference.value, meta)
    else if w.attempts >= policy.maxAttempts then
      RejectReady(db, Linked(w, NO_ID, meta.now), db.wallets[w.walletId].balance, ReferenceNotFound, meta)
    else RowReady(db, w, Hold(meta.now + ReferenceDelay(policy, w.attempts)), meta)
  }

  lemma ResumeIsReady(db: Db, w: WagerState, policy: Policy, meta: Meta)
    requires Valid(db)
    requires policy.Valid() && Admissible(db, w, false) && !meta.insert && IdsFree(db, meta)
    requires IdentityMatches(w, db.wallets[w.walletId]) && w.referenceExternalId != ""
    ensures ResumeReady(db, w, ReferenceOf(db, w), policy, meta)
  {
    if !ReferenceIsPending(ReferenceOf(db, w)) {
      TerminalIsReady(db, w, ReferenceOf(db, w).value, meta);
    } else if w.attempts >= policy.maxAttempts {
      LegalRefusal(db, w, NO_ID, ReferenceNotFound, meta);
    } else {
      RowIsReady(db, w, Hold(meta.now + ReferenceDelay(policy, w.attempts)), meta);
    }
  }

  /** The guards stand ready for whatever is decided about a new transaction. */
  ghost predicate NewReady(db: Db, w: WagerState, policy: Policy, meta: Meta)
    requires w.walletId in db.wallets && db.wallets[w.walletId].balance.minor >= 0 && policy.Valid()
  {
    if !IdentityMatches(w, db.wallets[w.walletId]) then
      RejectReady(db, w, db.wallets[w.walletId].balance, WalletOwnershipOrCurrencyMismatch, meta)
    else if w.referenceExternalId == "" then !w.kind.Reversing() && w.status.Pending? && FinalizeReady(db, w, None, meta)
    else if ReferenceIsPending(ReferenceOf(db, w)) then
      RowReady(db, w, Hold(meta.now + ReferenceDelay(policy, w.attempts)), meta)
    else TerminalReady(db, w, ReferenceOf(db, w).value, meta)
  }

  lemma NewIsReady(db: Db, w: WagerState, policy: Policy, meta: Meta)
    requires Valid(db) && policy.Valid() && Admissible(db, w, true) && meta.insert && IdsFree(db, meta)
    ensures NewReady(db, w, policy, meta)
  {
    if !IdentityMatches(w, db.wallets[w.walletId]) {
      LegalRefusal(db, w, NO_ID, WalletOwnershipOrCurrencyMismatch, meta);
    } else if w.referenceExternalId == "" {
      UnreferencedIsReady(db, w, meta);
    } else if ReferenceIsPending(ReferenceOf(db, w)) {
      RowIsReady(db, w, Hold(meta.now + ReferenceDelay(policy, w.attempts)), meta);
    } else {
      TerminalIsReady(db, w, ReferenceOf(db, w).value, meta);
    }
  }

  /** A settlement, statement by statement: the row, the movement, the events. */
  lemma SettleApplies(db: Db, w: WagerState, goal: Decision, meta: Meta)
    requires w.walletId in db.wallets && Feasible(w, db.wallets[w.walletId], goal) && goal.Settle?
    ensures var write := Effect(w, db.wallets[w.walletId], goal, meta);
            && write.wager == Final(w, db.wallets[w.walletId], goal, meta.now) && write.wager.id == w.id
            && (write.movement.Some? <==> goal.direction.Some?)
            && Apply(db, write) ==
               (if write.movement.None? then db.(wagers := db.wagers[w.id := write.wager])
                else Stored(db, write).(ledger := db.ledger + [write.movement.value.entry]))
               .(outbox := db.outbox + write.events)
  {
  }

  /** What finalize does when the movement fails. */
  lemma FinalizeFails(db: Db, w: WagerState, reference: Option<WagerState>, meta: Meta)
    requires w.walletId in db.wallets && db.wallets[w.walletId].balance.minor >= 0 && FinalizeReady(db, w, reference, meta)
    requires DirectionFor(w, reference).Some?
    requires MoveWallet(db.wallets[w.walletId], DirectionFor(w, reference).value, w.money, meta.now).Err?
    ensures var wallet := db.wallets[w.walletId];
            var e := MoveWallet(wallet, DirectionFor(w, reference).value, w.money, meta.now).error;
            var code := if w.kind.Rollback? then InsufficientFundsReversal else InsufficientFundsForBet;
            if e == InsufficientFunds then
              && Movable(w, wallet, reference, meta.now) == Ok(Refuse(IdOf(reference), code))
              && RejectReady(db, Linked(w, IdOf(reference), meta.now), wallet.balance, code, meta)
            else Movable(w, wallet, reference, meta.now) == Err(e)
  {
    MoveFails(w, db.wallets[w.walletId], reference, meta.now);
  }

  /** What finalize does when the movement succeeds, or there is none. */
  lemma FinalizeSettles(db: Db, w: WagerState, reference: Option<WagerState>, meta: Meta)
    requires w.walletId in db.wallets && db.wallets[w.walletId].balance.minor >= 0 && FinalizeReady(db, w, reference, meta)
    requires if DirectionFor(w, reference).None? then w.kind.Loss?
             else MoveWallet(db.wallets[w.walletId], DirectionFor(w, reference).value, w.money, meta.now).Ok?
    ensures var wallet, goal := db.wallets[w.walletId], Settlement(w, reference);
            && SettleReady(db, w, goal, meta)
            && Movable(w, wallet, reference, meta.now) ==
               (if VersionFits(wallet, goal) then Ok(goal) else Err(IntegerOutOfRange))
            && (goal.direction.Some? ==>
                  MoveWallet(wallet, goal.direction.value, w.money, meta.now).value ==
                  WithBalance(wallet, BalanceAfter(w, wallet, goal), meta.now))
  {
    SettleFacts(w, db.wallets[w.walletId], reference, meta.now);
  }

  /** The entry of a settlement is one that NewWalletLedgerEntry makes. */
  lemma SettleEntry(db: Db, w: WagerState, goal: Decision, meta: Meta)
    requires w.walletId in db.wallets && SettleReady(db, w, goal, meta) && goal.Settle? && goal.direction.Some?
    ensures var first := db.wallets[w.walletId];
            var e := Effect(w, first, goal, meta).movement.value.entry;
            NewLedgerEntry(meta.entryId, first.id, w.id, goal.direction.value, w.money, first.balance,
                           BalanceAfter(w, first, goal), meta.now) == Ok(e)
  {
  }

  // --- the service --------------------------------------------------------

  class Service {
    const store: Store
    const policy: Policy

    constructor (store: Store, policy: Policy)
      ensures this.store == store && this.policy == policy
    {
      this.store := store;
      this.policy := policy;
    }

    /** The delay before the next attempt, by the loop of module Backoff. */
    method NextAttempt(attempts: nat, now: Time) returns (next: Time)
      requires policy.Valid()
      ensures next == now + ReferenceDelay(policy, attempts)
    {
      var delay := Delay(policy.base, policy.maximum, attempts + 1);
      next := now + delay as int;
    }

    method PersistRow(tx: TxStore, t: WagerTransaction, insert: bool) returns (err: Option<Error>)
      modifies tx`db, tx`touchedWagers
      ensures RowAccepted(old(tx.db), t.State(), insert) ==> err == None
      ensures err == None ==> tx.db == old(tx.db).(wagers := old(tx.db).wagers[t.id := t.State()])
      ensures err == None ==> tx.touchedWagers == old(tx.touchedWagers) + {t.id}
    {
      if insert {
        err := tx.InsertTransaction(t.State());
      } else {
        err := tx.UpdateTransaction(t.State());
      }
    }

    /** reject: the row turns terminal with the current balance, and its event is stored. */
    method RejectIn(tx: TxStore, t: WagerTransaction, wallet: Wallet, code: FailureCode, meta: Meta)
        returns (err: Option<Error>)
      requires RejectReady(tx.db, t.State(), wallet.balance, code, meta)
      modifies tx`db, tx`touchedWagers, t
      ensures err == None && t.State() == RejectedRow(old(t.State()), wallet.balance, code, meta.now)
      ensures tx.db == Closed(old(tx.db), t.State(), RejectedData(t.State(), wallet.balance), meta)
      ensures tx.touchedWagers == old(tx.touchedWagers) + {t.id}
    {
      err := t.Reject(code, wallet.balance, meta.now);
      if err != None { return; }
      err := PersistRow(tx, t, meta.insert);
      if err != None { return; }
      err := tx.InsertOutbox(Event(meta.firstEvent, t.id, meta.correlation, meta.causation, meta.now,
                                   RejectedData(t.State(), wallet.balance)));
    }

    /** A rejection, as a decision about the undecided transaction `w`. */
    method RefuseIn(tx: TxStore, t: WagerTransaction, wallet: Wallet, code: FailureCode, meta: Meta,
                    ghost w: WagerState, ghost referenceId: Uuid) returns (err: Option<Error>)
      requires w.walletId in tx.db.wallets && tx.db.wallets[w.walletId].balance == wallet.balance
      requires t.State() == Linked(w, referenceId, meta.now)
      requires RejectReady(tx.db, t.State(), wallet.balance, code, meta)
      modifies tx`db, tx`touchedWagers, t
      ensures var first, d := old(tx.db).wallets[w.walletId], Refuse(referenceId, code);
              && err == None && tx.db == Apply(old(tx.db), Effect(w, first, d, meta))
              && t.State() == Final(w, first, d, meta.now)
              && tx.touchedWagers == old(tx.touchedWagers) + {w.id}
    {
      RefuseEffect(tx.db, w, referenceId, code, meta);
      err := RejectIn(tx, t, wallet, code, meta);
    }

    /** The wallet step of finalize: which way the money goes, and what the wallet says. */
    method Move(t: WagerTransaction, wallet: Wallet, reference: Option<WagerState>, now: Time)
      returns (direction: Option<Direction>, before: Money, after: Money, err: Option<Error>)
      modifies wallet
      ensures !t.kind.External() ==> err == Some(InvalidTransaction)
      ensures t.kind.External() ==> direction == DirectionFor(t.State(), reference)
      ensures t.kind.External() && direction.None? && !t.kind.Loss? ==> err == Some(ReferenceNotProcessedError)
      ensures t.kind.Loss? ==> err == None && before == after == wallet.balance && wallet.State() == old(wallet.State())
      ensures t.kind.External() && direction.Some? ==>
                && Outcome(old(wallet.State()), MoveWallet(old(wallet.State()), direction.value, t.money, now),
                    wallet.State(), err)
                && (err == None ==> before == old(wallet.balance) && after == wallet.balance)
    {
      direction, before, after, err := None, wallet.balance, wallet.balance, None;
      match t.kind
      case Bet =>
        direction := Some(Direction.Debit);
        before, after, err := wallet.Debit(t.money, now);
      case Win =>
        direction := Some(Direction.Credit);
        before, after, err := wallet.Credit(t.money, now);
      case Refund =>
        direction := Some(Direction.Credit);
        before, after, err := wallet.Credit(t.money, now);
      case Rollback =>
        if reference.None? {
          err := Some(ReferenceNotProcessedError);
        } else if reference.value.kind.Bet? {
          direction := Some(Direction.Credit);
          before, after, err := wallet.Credit(t.money, now);
        } else {
          direction := Some(Direction.Debit);
          before, after, err := wallet.Debit(t.money, now);
        }
      case Loss =>
      case Opening => err := Some(InvalidTransaction);
      case UnknownKind(_) => err := Some(InvalidTransaction);
    }

    /** The wallet and ledger statements of finalize. */
    method PersistMovement(tx: TxStore, t: WagerTransaction, wallet: Wallet, direction: Direction, before: Money, after: Money,
                           meta: Meta, ghost db: Db, ghost write: Write) returns (err: Option<Error>)
      requires write.movement.Some? && write.wager == t.State() && write.movement.value.wallet == wallet.State()
      requires write.movement.value.entry == LedgerEntry(meta.entryId, wallet.id, t.id, direction, t.money, before,
               after, meta.now)
      requires wallet.version != MIN_INT64 ==> MovementAccepted(db, write)
      requires wallet.version != MIN_INT64 ==>
                 NewLedgerEntry(meta.entryId, wallet.id, t.id, direction, t.money, before, after,
                     meta.now) == Ok(write.movement.value.entry)
      requires wallet.id in db.wallets
      requires wallet.State() == db.wallets[wallet.id].(balance := wallet.balance, version := wallet.version,
               updatedAt := wallet.updatedAt)
      requires wallet.balance.currency == db.wallets[wallet.id].balance.currency
      requires tx.db == db.(wagers := db.wagers[t.id := t.State()])
      modifies tx`db, tx`touchedWallets
      ensures wallet.version == MIN_INT64 ==> err == Some(IntegerOutOfRange)
      ensures wallet.version != MIN_INT64 ==>
                && err == None
                && tx.db == Stored(db, write).(ledger := db.ledger + [write.movement.value.entry])
                && tx.touchedWallets == old(tx.touchedWallets) + {wallet.id}
    {
      err := tx.UpdateWallet(wallet);
      if err != None { return; }
      assert tx.db == Stored(db, write);
      var entry := NewLedgerEntry(meta.entryId, wallet.id, t.id, direction, t.money, before, after, meta.now);
      if entry.Err? { return Some(InvalidLedgerEntry); }
      err := tx.InsertLedger(entry.value);
    }

    /** finalize: the movement, or a rejection when it lacks funds. */
    method Finalize(tx: TxStore, t: WagerTransaction, wallet: Wallet, reference: Option<WagerState>, meta: Meta,
                    ghost w: WagerState) returns (err: Option<Error>)
      requires w.walletId in tx.db.wallets && tx.db.wallets[w.walletId].balance.minor >= 0
      requires FinalizeReady(tx.db, w, reference, meta)
      requires wallet.State() == tx.db.wallets[w.walletId] && t.State() == Linked(w, IdOf(reference), meta.now)
      modifies tx, t, wallet
      ensures var first, spec := old(wallet.State()), Movable(w, old(wallet.State()), reference, meta.now);
              match spec
              case Err(e) => err == Some(e)
              case Ok(d) =>
                && err == None && tx.db == Apply(old(tx.db), Effect(w, first, d, meta))
                && t.State() == Final(w, first, d, meta.now) && wallet.balance == BalanceAfter(w, first, d)
                && tx.touchedWagers == old(tx.touchedWagers) + {w.id}
                && tx.touchedWallets <= old(tx.touchedWallets) + {w.walletId}
    {
      ghost var db, first := tx.db, wallet.State();
      ghost var goal := Settlement(w, reference);
      var direction, before, after, failure := Move(t, wallet, reference, meta.now);
      if failure != None {
        if direction.Some? { FinalizeFails(db, w, reference, meta); }
        if failure == Some(InsufficientFunds) {
          var code := if t.kind.Rollback? then InsufficientFundsReversal else InsufficientFundsForBet;
          err := RefuseIn(tx, t, wallet, code, meta, w, IdOf(reference));
          return;
        }
        return failure;
      }
      FinalizeSettles(db, w, reference, meta);
      err := SettleIn(tx, t, wallet, direction, before, after, meta, w, goal);
    }

    /** The statements of finalize after a successful movement. */
    method SettleIn(tx: TxStore, t: WagerTransaction, wallet: Wallet, direction: Option<Direction>, before: Money, after: Money,
                    meta: Meta, ghost w: WagerState, ghost goal: Decision) returns (err: Option<Error>)
      requires w.walletId in tx.db.wallets && goal.Settle? && goal.direction == direction
      requires var first := tx.db.wallets[w.walletId];
               && SettleReady(tx.db, w, goal, meta) && before == first.balance && after == BalanceAfter(w, first, goal)
               && wallet.State() == if direction.Some? then WithBalance(first, after, meta.now) else first
      requires t.State() == Linked(w, goal.referenceId, meta.now) && t.status.Pending?
      modifies tx, t
      ensures var first := old(tx.db).wallets[w.walletId];
              if VersionFits(first, goal) then
                && err == None && tx.db == Apply(old(tx.db), Effect(w, first, goal, meta))
                && t.State() == Final(w, first, goal, meta.now)
                && tx.touchedWagers == old(tx.touchedWagers) + {w.id}
                && tx.touchedWallets <= old(tx.touchedWallets) + {w.walletId}
              else err == Some(IntegerOutOfRange)
    {
      ghost var db, first := tx.db, tx.db.wallets[w.walletId];
      SettleApplies(db, w, goal, meta);
      err := t.MarkProcessed(after, meta.now);
      if err != None { return; }
      assert t.State() == Final(w, first, goal, meta.now);
      err := PersistRow(tx, t, meta.insert);
      if err != None { return; }
      if direction.Some? {
        SettleEntry(db, w, goal, meta);
        err := PersistMovement(tx, t, wallet, direction.value, before, after, meta, db, Effect(w, first, goal, meta));
        if err != None { return; }
      }
      err := Announce(tx, t, wallet, direction, before, after, meta, Effect(w, first, goal, meta).events);
    }

    /** The events of finalize. */
    method Announce(tx: TxStore, t: WagerTransaction, wallet: Wallet, direction: Option<Direction>, before: Money, after: Money,
                    meta: Meta, ghost events: seq<Event>) returns (err: Option<Error>)
      requires EventIsNew(tx.db, meta.firstEvent) && EventIsNew(tx.db, meta.secondEvent) && meta.firstEvent != meta.secondEvent
      requires events == [Event(meta.firstEvent, t.id, meta.correlation, meta.causation, meta.now,
               ProcessedData(t.State(), after))] +
                         (if direction.None? then []
                          else [Event(meta.secondEvent, wallet.id, meta.correlation, FromId(t.id), meta.now,
                                      WalletBalanceChanged(wallet.id, t.id, direction.value, t.money, before, after,
                                          wallet.version))])
      modifies tx`db
      ensures err == None && tx.db == old(tx.db).(outbox := old(tx.db).outbox + events)
    {
      err := tx.InsertOutbox(
        Event(meta.firstEvent, t.id, meta.correlation, meta.causation, meta.now, ProcessedData(t.State(), after)));
      if err != None { return; }
      if direction.Some? {
        err := tx.InsertOutbox(
          Event(meta.secondEvent, wallet.id, meta.correlation, FromId(t.id), meta.now,
                WalletBalanceChanged(wallet.id, t.id, direction.value, t.money, before, after, wallet.version)));
      }
    }

    // --- the calls ------------------------------------------------------------

    method ReferenceFailureOf(tx: TxStore, t: WagerTransaction, reference: Option<WagerState>) returns (code: FailureCode)
      ensures code == ReferenceFailure(t.State(), reference, ReversedOf(tx.db, reference))
    {
      if reference.None? {
        return if t.kind.Refund? || t.kind.Rollback? then ReferenceNotFound else NoFailure;
      }
      var r := reference.value;
      if r.providerId != t.providerId || r.playerId != t.playerId || r.walletId != t.walletId || r.roundId != t.roundId ||
         r.money.currency != t.money.currency {
        return ReferenceMismatch;
      }
      if (t.kind.Refund? || t.kind.Rollback?) && r.money != t.money {
        return ReferenceAmountMismatch;
      }
      match t.kind {
        case Win => if !r.kind.Bet? { return InvalidReferenceKind; }
        case Refund => if !r.kind.Bet? { return InvalidReferenceKind; }
        case Rollback => if !r.kind.Bet? && !r.kind.Win? && !r.kind.Refund? { return InvalidReferenceKind; }
        case _ =>
      }
      if t.kind.Refund? || t.kind.Rollback? {
        var exists_ := tx.SuccessfulReversalExists(r.id);
        if exists_ { return ReferenceAlreadyReversed; }
      }
      return NoFailure;
    }

    /** The part that the first call and the worker share, once the reference is terminal. */
    method SettleReference(tx: TxStore, t: WagerTransaction, wallet: Wallet, reference: WagerState, meta: Meta,
                           ghost w: WagerState, ghost waited: bool) returns (err: Option<Error>)
      requires w.walletId in tx.db.wallets && tx.db.wallets[w.walletId].balance.minor >= 0 && policy.Valid()
      requires TerminalReady(tx.db, w, reference, meta)
      requires t.State() == w && wallet.State() == tx.db.wallets[w.walletId]
      modifies tx, t, wallet
      ensures var first := old(tx.db).wallets[w.walletId];
              match DecideWithReference(w, first, Some(reference), ReversedOf(old(tx.db), Some(reference)), waited,
                  policy, meta.now)
              case Err(e) => err == Some(e)
              case Ok(d) =>
                && err == None && tx.db == Apply(old(tx.db), Effect(w, first, d, meta))
                && t.State() == Final(w, first, d, meta.now) && wallet.balance == BalanceAfter(w, first, d)
                && tx.touchedWagers == old(tx.touchedWagers) + {w.id}
                && tx.touchedWallets <= old(tx.touchedWallets) + {w.walletId}
    {
      err := t.ResolveReference(reference.id, meta.now);
      if err != None { return; }
      assert t.State() == Linked(w, reference.id, meta.now);
      if !reference.status.Processed? {
        err := RefuseIn(tx, t, wallet, ReferenceNotProcessed, meta, w, reference.id);
        return;
      }
      var code := ReferenceFailureOf(tx, t, Some(reference));
      assert code == ReferenceFailure(w, Some(reference), ReversedOf(tx.db, Some(reference)));
      if code != NoFailure {
        err := RefuseIn(tx, t, wallet, code, meta, w, reference.id);
        return;
      }
      err := Finalize(tx, t, wallet, Some(reference), meta, w);
    }

    /** Wait for the reference: the first time the row and its event are inserted, later the row is updated. */
    method HoldIn(tx: TxStore, t: WagerTransaction, meta: Meta, ghost w: WagerState) returns (err: Option<Error>)
      requires policy.Valid() && RowReady(tx.db, w, Hold(meta.now + ReferenceDelay(policy, w.attempts)), meta)
      requires t.State() == w
      modifies tx`db, tx`touchedWagers, t
      ensures var first, d := old(tx.db).wallets[w.walletId], Hold(meta.now + ReferenceDelay(policy, w.attempts));
              && err == None && tx.db == Apply(old(tx.db), Effect(w, first, d, meta))
              && t.State() == Final(w, first, d, meta.now)
    {
      var next := NextAttempt(t.attempts, meta.now);
      err := t.MarkPendingReference(next, meta.now);
      if err != None { return; }
      err := PersistRow(tx, t, meta.insert);
      if err != None || !meta.insert { return; }
      err := tx.InsertOutbox(
        Event(meta.firstEvent, t.id, meta.correlation, meta.causation, meta.now, PendingData(t.State())));
    }

    /** A new transaction with its reference read: wait, reject or settle. */
    method DecideReferred(tx: TxStore, t: WagerTransaction, wallet: Wallet, reference: Option<WagerState>, meta: Meta,
                          ghost w: WagerState) returns (err: Option<Error>)
      requires policy.Valid() && w.walletId in tx.db.wallets && tx.db.wallets[w.walletId].balance.minor >= 0
      requires if ReferenceIsPending(reference)
               then RowReady(tx.db, w, Hold(meta.now + ReferenceDelay(policy, w.attempts)), meta)
               else TerminalReady(tx.db, w, reference.value, meta)
      requires t.State() == w && wallet.State() == tx.db.wallets[w.walletId]
      modifies tx, t, wallet
      ensures var db := old(tx.db);
              var first := db.wallets[w.walletId];
              match DecideWithReference(w, first, reference, ReversedOf(db, reference), false, policy, meta.now)
              case Err(e) => err == Some(e)
              case Ok(d) =>
                && err == None && tx.db == Apply(db, Effect(w, first, d, meta))
                && t.State() == Final(w, first, d, meta.now) && wallet.balance == BalanceAfter(w, first, d)
    {
      if ReferenceIsPending(reference) {
        err := HoldIn(tx, t, meta, w);
        return;
      }
      err := SettleReference(tx, t, wallet, reference.value, meta, w, false);
    }

    /** A new transaction, from the wallet and reference that the transaction reads. */
    method DecideNew(tx: TxStore, t: WagerTransaction, wallet: Wallet, meta: Meta, ghost w: WagerState)
      returns (err: Option<Error>)
      requires Valid(tx.db) && policy.Valid() && w.walletId in tx.db.wallets
      requires NewReady(tx.db, w, policy, meta)
      requires t.State() == w && wallet.State() == tx.db.wallets[w.walletId]
      modifies tx, t, wallet
      ensures var db := old(tx.db);
              var first := db.wallets[w.walletId];
              match FirstDecision(db, w, policy, meta.now)
              case Err(e) => err == Some(e)
              case Ok(d) =>
                && err == None && tx.db == Apply(db, Effect(w, first, d, meta))
                && t.State() == Final(w, first, d, meta.now) && wallet.balance == BalanceAfter(w, first, d)
    {
      if wallet.playerId != t.playerId || wallet.balance.currency != t.money.currency {
        err := RefuseIn(tx, t, wallet, WalletOwnershipOrCurrencyMismatch, meta, w, NO_ID);
        return;
      }
      if t.referenceExternalId != "" {
        assert Obeys(tx.db, WagerRule) && Obeys(tx.db, KeyRule);
        var found := tx.FindReference(t.providerId, t.referenceExternalId);
        err := DecideReferred(tx, t, wallet, found.value, meta, w);
        return;
      }
      var code := ReferenceFailureOf(tx, t, None);
      if code != NoFailure {
        // The rejection is dead code: a refund or rollback without a reference was refused on construction.
        assert false;
      }
      err := Finalize(tx, t, wallet, None, meta, w);
    }

    method Replay(tx: TxStore, t: WagerTransaction) returns (r: ProcessResult)
      requires WalletsOk(tx.db) && t.walletId in tx.db.wallets
      ensures r == ReplayOf(tx.db, t.State())
    {
      if t.result.Some? {
        return ResultFrom(t.State(), t.result.value, true);
      }
      var wallet := tx.LockWallet(t.walletId);
      return ResultFrom(t.State(), wallet.value.balance, true);
    }

    /** The body of Process once the message is claimed. */
    method Handle(tx: TxStore, c: ProcessCommand, env: Env) returns (r: Result<ProcessResult>)
      requires Valid(tx.db) && policy.Valid() && EnvOk(tx.db, env)
      modifies tx
      ensures match HandleOutcome(old(tx.db), c, policy, env)
              case Err(e) => r == Err(e)
              case Ok((db, result)) => r == Ok(result) && tx.db == db
    {
      RowsMean(tx.db);
      ghost var db := tx.db;
      var existing := tx.FindByIdempotency(c.providerId, c.idempotencyKey);
      if existing.value.Some? {
        var t := existing.value.value;
        if t.payloadHash != Some(PayloadOf(c)) {
          return Err(IdempotencyPayloadConflict);
        }
        FoundIsOk(db, t.State());
        var result := Replay(tx, t);
        return Ok(result);
      }
      var byExternal := tx.FindByExternalId(c.providerId, c.externalId);
      if byExternal.value.Some? {
        return Err(ExternalTransactionConflict);
      }
      var locked := tx.LockWallet(c.walletId);
      if locked.Err? {
        return Err(locked.error);
      }
      var made := NewWager(NewExternalOf(c, env));
      if made.Err? {
        return Err(made.error);
      }
      NewIsAdmissible(db, c, env);
      r := HandleNew(tx, locked.value, made.value, ProcessMeta(c, env));
    }

    /** A new transaction becomes an aggregate, is decided, and is answered. */
    method HandleNew(tx: TxStore, wallet: Wallet, made: WagerState, meta: Meta) returns (r: Result<ProcessResult>)
      requires Valid(tx.db) && policy.Valid() && Admissible(tx.db, made, true) && meta.insert && IdsFree(tx.db, meta)
      requires wallet.State() == tx.db.wallets[made.walletId]
      modifies tx, wallet
      ensures var db := old(tx.db);
              match FirstDecision(db, made, policy, meta.now)
              case Err(e) => r == Err(e)
              case Ok(d) =>
                && tx.db == Commit(db, made, d, meta)
                && var first := db.wallets[made.walletId];
                   r == Ok(ResultFrom(Final(made, first, d, meta.now), BalanceAfter(made, first, d), false))
    {
      NewIsReady(tx.db, made, policy, meta);
      var t := new WagerTransaction(made);
      var err := DecideNew(tx, t, wallet, meta, made);
      if err.Some? {
        return Err(err.value);
      }
      return Ok(ResultFrom(t.State(), wallet.balance, false));
    }

    /** The transaction of Process. */
    method ProcessIn(tx: TxStore, c: ProcessCommand, env: Env) returns (r: Result<ProcessResult>)
      requires Valid(tx.db) && policy.Valid() && EnvOk(tx.db, env) && CommandValid(c)
      modifies tx
      ensures match ProcessOutcome(old(tx.db), c, policy, env)
              case Err(e) => r == Err(e)
              case Ok((db, result)) => r == Ok(result) && tx.db == db
    {
      RowsMean(tx.db);
      ghost var db := tx.db;
      if c.inbox.Some? {
        var claim := tx.ClaimInbox(c.inbox.value, env.now);
        if claim.Err? {
          return Err(claim.error);
        }
        if claim.value == InboxAlreadyCompleted {
          r := ReplayMessage(tx, c);
          return;
        }
      }
      InboxFrame(db, tx.db);
      r := Handle(tx, c, env);
      if r.Err? || c.inbox.None? { return; }
      var err := tx.CompleteInbox(c.inbox.value, env.now);
      if err.Some? {
        return Err(InboxPayloadConflict);
      }
    }

    /** A message that was completed before must match the stored transaction. */
    method ReplayMessage(tx: TxStore, c: ProcessCommand) returns (r: Result<ProcessResult>)
      requires WalletsOk(tx.db) && WagersOk(tx.db) && KeysOk(tx.db)
      ensures var existing := ByKey(tx.db.wagers, c.providerId, c.idempotencyKey);
              if existing.Some? && existing.value.payloadHash == Some(PayloadOf(c))
              then existing.value.walletId in tx.db.wallets && r == Ok(ReplayOf(tx.db, existing.value))
              else r == Err(InboxPayloadConflict)
    {
      var existing := tx.FindByIdempotency(c.providerId, c.idempotencyKey);
      if existing.value.None? || existing.value.value.payloadHash != Some(PayloadOf(c)) {
        return Err(InboxPayloadConflict);
      }
      FoundIsOk(tx.db, existing.value.value.State());
      var result := Replay(tx, existing.value.value);
      return Ok(result);
    }

    /** Process: the whole call commits, or changes nothing. */
    method Process(c: ProcessCommand, env: Env) returns (r: Result<ProcessResult>)
      requires Valid(store.db) && policy.Valid() && EnvOk(store.db, env)
      modifies store
      ensures match ProcessOutcome(old(store.db), c, policy, env)
              case Err(e) => r == Err(e) && store.db == old(store.db)
              case Ok((db, result)) => r == Ok(result) && store.db == db
      ensures Valid(store.db)
    {
      if !CommandValid(c) {
        return Err(InvalidTransaction);
      }
      var tx := new TxStore(store.db);
      r := ProcessIn(tx, c, env);
      if r.Err? { return; }
      ProcessKeepsValid(store.db, c, policy, env);
      var err := store.CommitWork(tx);
      if err.Some? {
        return Err(SchemaGuard);
      }
    }

    /** The transaction of ResolvePendingReference. */
    method ResolveIn(tx: TxStore, id: Uuid, env: Env) returns (err: Option<Error>)
      requires Valid(tx.db) && policy.Valid() && EnvOk(tx.db, env)
      modifies tx
      ensures match ResolveOutcome(old(tx.db), id, policy, env)
              case Err(e) => err == Some(e)
              case Ok(db) => err == None && tx.db == db
    {
      RowsMean(tx.db);
      ghost var db := tx.db;
      var locked := tx.LockTransaction(id);
      if locked.Err? {
        return Some(locked.error);
      }
      var t := locked.value;
      if !t.status.PendingReference? {
        return None;
      }
      WaitingIsAdmissible(db, id);
      var wallet := tx.LockWallet(t.walletId);
      var reference := tx.FindReference(t.providerId, t.referenceExternalId);
      ResumeIsReady(db, db.wagers[id], policy, WorkerMeta(id, env));
      err := Resume(tx, t, wallet.value, reference.value, WorkerMeta(id, env), db.wagers[id]);
    }

    /** The cases of ResolvePendingReference. */
    method Resume(tx: TxStore, t: WagerTransaction, wallet: Wallet, reference: Option<WagerState>, meta: Meta,
        ghost w: WagerState)
      returns (err: Option<Error>)
      requires policy.Valid() && w.walletId in tx.db.wallets && tx.db.wallets[w.walletId].balance.minor >= 0
      requires t.State() == w && wallet.State() == tx.db.wallets[w.walletId]
      requires ResumeReady(tx.db, w, reference, policy, meta)
      modifies tx, t, wallet
      ensures var db := old(tx.db);
              var first := db.wallets[w.walletId];
              match DecideWithReference(w, first, reference, ReversedOf(db, reference), true, policy, meta.now)
              case Err(e) => err == Some(e)
              case Ok(d) => err == None && tx.db == Apply(db, Effect(w, first, d, meta))
    {
      if ReferenceIsPending(reference) {
        if t.attempts >= policy.maxAttempts {
          err := RefuseIn(tx, t, wallet, ReferenceNotFound, meta, w, NO_ID);
          return;
        }
        err := HoldIn(tx, t, meta, w);
        return;
      }
      err := SettleReference(tx, t, wallet, reference.value, meta, w, true);
    }

    method ResolvePendingReference(id: Uuid, env: Env) returns (err: Option<Error>)
      requires Valid(store.db) && policy.Valid() && EnvOk(store.db, env)
      modifies store
      ensures match ResolveOutcome(old(store.db), id, policy, env)
              case Err(e) => err == Some(e) && store.db == old(store.db)
              case Ok(db) => err == None && store.db == db
      ensures Valid(store.db)
    {
      var tx := new TxStore(store.db);
      err := ResolveIn(tx, id, env);
      if err.Some? { return; }
      ResolveKeepsValid(store.db, id, policy, env);
      err := store.CommitWork(tx);
    }

    /** Fail the row after exhausted attempts, and store its event. */
    method FailIn(tx: TxStore, t: WagerTransaction, wallet: Wallet, meta: Meta, ghost w: WagerState)
        returns (err: Option<Error>)
      requires RowReady(tx.db, w, Exhaust, meta) && t.State() == w && wallet.State() == tx.db.wallets[w.walletId]
      modifies tx`db, tx`touchedWagers, t
      ensures err == None && tx.db == Apply(old(tx.db), Effect(w, old(tx.db).wallets[w.walletId], Exhaust, meta))
    {
      err := t.Fail(ProcessingAttemptsExhausted, wallet.balance, meta.now);
      if err != None { return; }
      assert t.State() == Final(w, tx.db.wallets[w.walletId], Exhaust, meta.now);
      err := PersistRow(tx, t, false);
      if err != None { return; }
      err := tx.InsertOutbox(Event(meta.firstEvent, t.id, meta.correlation, meta.causation, meta.now,
                                   FailedData(t.State(), wallet.balance)));
    }

    /** The cases of RecordPendingReferenceFailure. */
    method Postpone(tx: TxStore, t: WagerTransaction, wallet: Wallet, meta: Meta, ghost w: WagerState)
        returns (err: Option<Error>)
      requires policy.Valid() && RowReady(tx.db, w, DecideFailure(w, policy, meta.now), meta)
      requires t.State() == w && wallet.State() == tx.db.wallets[w.walletId]
      modifies tx`db, tx`touchedWagers, t
      ensures var db, d := old(tx.db), DecideFailure(w, policy, meta.now);
              err == None && tx.db == Apply(db, Effect(w, db.wallets[w.walletId], d, meta))
    {
      if t.attempts < policy.maxAttempts {
        err := HoldIn(tx, t, meta, w);
      } else {
        err := FailIn(tx, t, wallet, meta, w);
      }
    }

    /** The transaction of RecordPendingReferenceFailure. */
    method RecordIn(tx: TxStore, id: Uuid, env: Env) returns (err: Option<Error>)
      requires Valid(tx.db) && policy.Valid() && EnvOk(tx.db, env)
      modifies tx
      ensures match RecordOutcome(old(tx.db), id, policy, env)
              case Err(e) => err == Some(e)
              case Ok(db) => err == None && tx.db == db
    {
      RowsMean(tx.db);
      ghost var db := tx.db;
      var locked := tx.LockTransaction(id);
      if locked.Err? {
        return Some(locked.error);
      }
      var t := locked.value;
      if !t.status.PendingReference? {
        return None;
      }
      WaitingIsAdmissible(db, id);
      RecordIsReady(db, id, policy, env);
      var wallet := tx.LockWallet(t.walletId);
      err := Postpone(tx, t, wallet.value, WorkerMeta(id, env), db.wagers[id]);
    }

    method RecordPendingReferenceFailure(id: Uuid, env: Env) returns (err: Option<Error>)
      requires Valid(store.db) && policy.Valid() && EnvOk(store.db, env)
      modifies store
      ensures match RecordOutcome(old(store.db), id, policy, env)
              case Err(e) => err == Some(e) && store.db == old(store.db)
              case Ok(db) => err == None && store.db == db
      ensures Valid(store.db)
    {
      var tx := new TxStore(store.db);
      err := RecordIn(tx, id, env);
      if err.Some? { return; }
      RecordKeepsValid(store.db, id, policy, env);
      err := store.CommitWork(tx);
    }
  }
}
