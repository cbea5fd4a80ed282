/**
 Two calls that overtake each other: an interleaving, from an empty database, whose
 outcome no sequence of whole calls gives.
 */
module Overtaking {
  import opened Base
  import opened Backoff
  import opened MoneyValue
  import opened Domain
  import opened Contracts
  import opened Database
  import opened Decisions
  import opened Invariants
  import opened Preservation
  import opened Storage
  import opened Calls
  import opened Creation
  import opened Interleaving
  import opened Locking
  import opened Atomicity
  import opened Serial
  import opened WholeCalls
  import History

  // --- two resolutions at once --------------------------------------------

  /** Two waiting rows of different wallets that refer to each other, both with their attempts used up. */
  ghost predicate MutualPair(db: Db, a: Uuid, b: Uuid, policy: Policy) {
    && a in db.wagers && b in db.wagers && a != b
    && db.wagers[a].status.PendingReference? && db.wagers[b].status.PendingReference?
    && db.wagers[a].attempts >= policy.maxAttempts && db.wagers[b].attempts >= policy.maxAttempts
    && db.wagers[a].walletId != db.wagers[b].walletId
    && HasExternalId(db.wagers[b], db.wagers[a].providerId, db.wagers[a].referenceExternalId)
    && HasExternalId(db.wagers[a], db.wagers[b].providerId, db.wagers[b].referenceExternalId)
  }

  lemma MutualReference(db: Db, a: Uuid, b: Uuid, policy: Policy, now: Time)
    requires WagersOk(db) && KeysOk(db) && MutualPair(db, a, b, policy) && policy.Valid()
    requires db.wagers[a].walletId in db.wallets && db.wallets[db.wagers[a].walletId].balance.minor >= 0
    ensures ReferenceOf(db, db.wagers[a]) == Some(db.wagers[b])
    ensures ResolveDecision(db, db.wagers[a], policy, now) == Ok(Refuse(NO_ID, ReferenceNotFound))
  {
    WaitingIsAdmissible(db, a);
    ExternalIdIsUnique(db, db.wagers[a].providerId, db.wagers[a].referenceExternalId, b);
  }

  /** The second of two resolutions, one after the other, finds the first row rejected. */
  lemma SecondRefusal(db: Db, after: Db, a: Uuid, b: Uuid, policy: Policy, env: Env, now: Time)
    requires Readable(db) && KeysOk(after) && MutualPair(db, a, b, policy) && policy.Valid()
    requires ResolveDecision(db, db.wagers[a], policy, env.now) == Ok(Refuse(NO_ID, ReferenceNotFound))
    requires ResolveOutcome(db, a, policy, env) == Ok(after) && db.wagers[b].referenceExternalId != ""
    ensures b in after.wagers && after.wagers[b] == db.wagers[b]
    ensures after.wagers[b].walletId in after.wallets && after.wallets[after.wagers[b].walletId].balance.minor >= 0
    ensures ResolveDecision(after, after.wagers[b], policy, now) == Ok(Refuse(a, ReferenceNotProcessed))
  {
    assert HasExternalId(after.wagers[a], db.wagers[b].providerId, db.wagers[b].referenceExternalId);
    ExternalIdIsUnique(after, db.wagers[b].providerId, db.wagers[b].referenceExternalId, a);
  }

  /** One after the other, in this order, the first row is rejected as not found and the second as not processed. */
  lemma SerialRefusals(db: Db, a: Uuid, b: Uuid, policy: Policy, env: Env, env': Env)
    requires Valid(db) && MutualPair(db, a, b, policy) && policy.Valid() && EnvOk(db, env)
    ensures ResolveOutcome(db, a, policy, env).Ok? && Valid(ResolveOutcome(db, a, policy, env).value)
    ensures var last := ResolveOutcome(ResolveOutcome(db, a, policy, env).value, b, policy, env');
            last.Ok? && RejectedAs(last.value, a, ReferenceNotFound) && RejectedAs(last.value, b, ReferenceNotProcessed)
  {
    var after := FirstRefusal(db, a, b, policy, env);
    assert Obeys(after, KeyRule);
    SecondRefusal(db, after, a, b, policy, env, env'.now);
  }

  lemma FirstRefusal(db: Db, a: Uuid, b: Uuid, policy: Policy, env: Env) returns (after: Db)
    requires Valid(db) && MutualPair(db, a, b, policy) && policy.Valid() && EnvOk(db, env)
    ensures ResolveOutcome(db, a, policy, env) == Ok(after) && Valid(after) && RejectedAs(after, a, ReferenceNotFound)
    ensures ResolveDecision(db, db.wagers[a], policy, env.now) == Ok(Refuse(NO_ID, ReferenceNotFound))
    ensures db.wagers[b].referenceExternalId != ""
  {
    PairDecision(db, a, b, policy, env.now);
    ResolveKeepsValid(db, a, policy, env);
    after := ResolveOutcome(db, a, policy, env).value;
  }

  lemma PairDecision(db: Db, a: Uuid, b: Uuid, policy: Policy, now: Time)
    requires Valid(db) && MutualPair(db, a, b, policy) && policy.Valid()
    ensures ResolveDecision(db, db.wagers[a], policy, now) == Ok(Refuse(NO_ID, ReferenceNotFound))
    ensures db.wagers[b].referenceExternalId != ""
  {
    assert Obeys(db, WagerRule) && Obeys(db, KeyRule);
    MutualReference(db, a, b, policy, now);
    WaitingIsAdmissible(db, b);
  }

  function Duo(db: Db, a: Client, b: Client): State {
    State(db, map[0 := a, 1 := b])
  }

  lemma DuoGoes(db: Db, a: Client, b: Client, pc: Pc)
    ensures Duo(db, a, b).Go(0, pc) == Duo(db, a.(pc := pc), b)
    ensures Duo(db, a, b).Go(1, pc) == Duo(db, a, b.(pc := pc))
    ensures forall lock: Lock :: Duo(db, a, b).Free(0, Some(lock)) <==> lock !in b.Held()
    ensures forall lock: Lock :: Duo(db, a, b).Free(1, Some(lock)) <==> lock !in a.Held()
    ensures Duo(db, a, b).Free(0, None) && Duo(db, a, b).Free(1, None)
  {
    var s := Duo(db, a, b);
    assert map[0 := a, 1 := b][0 := a.(pc := pc)] == map[0 := a.(pc := pc), 1 := b];
    assert map[0 := a, 1 := b][1 := b.(pc := pc)] == map[0 := a, 1 := b.(pc := pc)];
    assert s.clients[0] == a && s.clients[1] == b;
  }

  function Resolving(id: Uuid, env: Env, pc: Pc): Client {
    Client(ResolveJob(id), env, pc)
  }

  /** A resolution when its reads are done. */
  ghost function ViewedCall(db: Db, id: Uuid, env: Env): Client
    requires id in db.wagers && db.wagers[id].walletId in db.wallets
  {
    var w := db.wagers[id];
    Resolving(id, env, Viewed(w, db.wallets[w.walletId], ReferenceOf(db, w), ReversedOf(db, ReferenceOf(db, w))))
  }

  lemma BothBegin(db: Db, a: Uuid, b: Uuid, envA: Env, envB: Env, policy: Policy)
    requires EnvOk(db, envA) && EnvOk(db, envB) && Apart(envB, envA)
    ensures Leads(Quiet(db), Duo(db, Resolving(a, envA, Begun), Resolving(b, envB, Begun)), policy)
  {
    var first, second := Resolving(a, envA, Begun), Resolving(b, envB, Begun);
    SoloBegins(db, first.job, envA, policy);
    assert map[0 := first][1 := second] == map[0 := first, 1 := second];
    StepLeads(Quiet(db), Solo(db, first), Duo(db, first, second), 1, BeginAction(second.job, envB), policy);
  }

  /** A resolution that holds its row and its wallet. */
  function HeldCall(db: Db, id: Uuid, env: Env): Client
    requires id in db.wagers && db.wagers[id].walletId in db.wallets
  {
    Resolving(id, env, WalletHeld(db.wagers[id], db.wallets[db.wagers[id].walletId]))
  }

  /** One of two calls locks its row, and then its wallet. */
  lemma FirstLocks(db: Db, id: Uuid, env: Env, other: Client, policy: Policy)
    requires Waiting(db, id) && RowLock(id) !in other.Held() && WalletLock(db.wagers[id].walletId) !in other.Held()
    requires Leads(Quiet(db), Duo(db, Resolving(id, env, Begun), other), policy)
    ensures Leads(Quiet(db), Duo(db, HeldCall(db, id, env), other), policy)
  {
    var begun, row := Resolving(id, env, Begun), RowHeld(db.wagers[id]);
    DuoGoes(db, begun, other, row);
    StepLeads(Quiet(db), Duo(db, begun, other), Duo(db, begun.(pc := row), other), 0,
              StatementAction(LockTransactionRow), policy);
    DuoGoes(db, begun.(pc := row), other, HeldCall(db, id, env).pc);
    StepLeads(Quiet(db), Duo(db, begun.(pc := row), other), Duo(db, HeldCall(db, id, env), other), 0,
                StatementAction(LockWalletOfRow), policy);
  }

  lemma SecondLocks(db: Db, id: Uuid, env: Env, other: Client, policy: Policy)
    requires Waiting(db, id) && RowLock(id) !in other.Held() && WalletLock(db.wagers[id].walletId) !in other.Held()
    requires Leads(Quiet(db), Duo(db, other, Resolving(id, env, Begun)), policy)
    ensures Leads(Quiet(db), Duo(db, other, HeldCall(db, id, env)), policy)
  {
    var begun, row := Resolving(id, env, Begun), RowHeld(db.wagers[id]);
    DuoGoes(db, other, begun, row);
    StepLeads(Quiet(db), Duo(db, other, begun), Duo(db, other, begun.(pc := row)), 1,
              StatementAction(LockTransactionRow), policy);
    DuoGoes(db, other, begun.(pc := row), HeldCall(db, id, env).pc);
    StepLeads(Quiet(db), Duo(db, other, begun.(pc := row)), Duo(db, other, HeldCall(db, id, env)), 1,
                StatementAction(LockWalletOfRow), policy);
  }

  /** One of two calls reads its reference, and then its reversals. */
  lemma FirstReads(db: Db, id: Uuid, env: Env, other: Client, policy: Policy)
    requires Waiting(db, id)
    requires Leads(Quiet(db), Duo(db, HeldCall(db, id, env), other), policy)
    ensures Leads(Quiet(db), Duo(db, ViewedCall(db, id, env), other), policy)
  {
    var w, wallet, reference := db.wagers[id], db.wallets[db.wagers[id].walletId], ReferenceOf(db, db.wagers[id]);
    var held, read := HeldCall(db, id, env), RefRead(w, wallet, reference);
    DuoGoes(db, held, other, read);
    StepLeads(Quiet(db), Duo(db, held, other), Duo(db, held.(pc := read), other), 0, StatementAction(FindReference), policy);
    DuoGoes(db, held.(pc := read), other, ViewedCall(db, id, env).pc);
    StepLeads(Quiet(db), Duo(db, held.(pc := read), other), Duo(db, ViewedCall(db, id, env), other), 0,
                StatementAction(FindReversal), policy);
  }

  lemma SecondReads(db: Db, id: Uuid, env: Env, other: Client, policy: Policy)
    requires Waiting(db, id)
    requires Leads(Quiet(db), Duo(db, other, HeldCall(db, id, env)), policy)
    ensures Leads(Quiet(db), Duo(db, other, ViewedCall(db, id, env)), policy)
  {
    var w, wallet, reference := db.wagers[id], db.wallets[db.wagers[id].walletId], ReferenceOf(db, db.wagers[id]);
    var held, read := HeldCall(db, id, env), RefRead(w, wallet, reference);
    DuoGoes(db, other, held, read);
    StepLeads(Quiet(db), Duo(db, other, held), Duo(db, other, held.(pc := read)), 1, StatementAction(FindReference), policy);
    DuoGoes(db, other, held.(pc := read), ViewedCall(db, id, env).pc);
    StepLeads(Quiet(db), Duo(db, other, held.(pc := read)), Duo(db, other, ViewedCall(db, id, env)), 1,
                StatementAction(FindReversal), policy);
  }

  lemma BothView(db: Db, a: Uuid, b: Uuid, envA: Env, envB: Env, policy: Policy)
    requires Waiting(db, a) && Waiting(db, b) && a != b && db.wagers[a].walletId != db.wagers[b].walletId
    requires EnvOk(db, envA) && EnvOk(db, envB) && Apart(envB, envA)
    ensures Leads(Quiet(db), Duo(db, ViewedCall(db, a, envA), ViewedCall(db, b, envB)), policy)
  {
    BothBegin(db, a, b, envA, envB, policy);
    FirstLocks(db, a, envA, Resolving(b, envB, Begun), policy);
    FirstReads(db, a, envA, Resolving(b, envB, Begun), policy);
    SecondLocks(db, b, envB, ViewedCall(db, a, envA), policy);
    SecondReads(db, b, envB, ViewedCall(db, a, envA), policy);
  }

  /** A row of a mutual pair, with all its attempts used up, is decided from what its call has read. */
  lemma ViewedGivesUp(db: Db, a: Uuid, b: Uuid, env: Env, policy: Policy)
    requires Valid(db) && MutualPair(db, a, b, policy) && policy.Valid() && Waiting(db, a)
    ensures ViewedCall(db, a, env).pc.wallet.balance.minor >= 0
    ensures ViewedCall(db, a, env).Decided(policy) == Ok(Refuse(NO_ID, ReferenceNotFound))
  {
    PairDecision(db, a, b, policy, env.now);
    assert db.wagers[a].referenceExternalId != "" by {
      assert Obeys(db, WagerRule);
      WaitingIsAdmissible(db, a);
    }
  }

  /** What a refusal leaves: its row rejected, every other row as it was. */
  lemma RefusalLeaves(db: Db, c: Client, code: FailureCode)
    requires c.Ready() && c.pc.w.id in db.wagers
    ensures RejectedAs(Written(db, c, Refuse(NO_ID, code)), c.pc.w.id, code)
    ensures forall id :: id in db.wagers && id != c.pc.w.id ==>
              && id in Written(db, c, Refuse(NO_ID, code)).wagers
              && Written(db, c, Refuse(NO_ID, code)).wagers[id] == db.wagers[id]
  {
  }

  lemma RowIds(db: Db)
    requires Valid(db)
    ensures forall id :: id in db.wagers ==> db.wagers[id].id == id
  {
  }

  /** The database after a resolution that gave up on what it had read. */
  ghost function GivenUp(db: Db, c: Client): Db
    requires c.Ready()
  {
    Written(db, c, Refuse(NO_ID, ReferenceNotFound))
  }

  /** The first of the two has committed, and the second is about to. */
  ghost function Between(db: Db, a: Uuid, b: Uuid, envA: Env, envB: Env): State
    requires Waiting(db, a) && Waiting(db, b)
  {
    State(GivenUp(db, ViewedCall(db, a, envA)), map[1 := ViewedCall(db, b, envB)])
  }

  lemma FirstCommits(db: Db, a: Uuid, b: Uuid, envA: Env, envB: Env, policy: Policy)
    requires Valid(db) && MutualPair(db, a, b, policy) && policy.Valid() && Waiting(db, a) && Waiting(db, b)
    requires Leads(Quiet(db), Duo(db, ViewedCall(db, a, envA), ViewedCall(db, b, envB)), policy)
    ensures Leads(Duo(db, ViewedCall(db, a, envA), ViewedCall(db, b, envB)), Between(db, a, b, envA, envB), policy)
  {
    var x, y := ViewedCall(db, a, envA), ViewedCall(db, b, envB);
    var both := Duo(db, x, y);
    assert both.clients[0] == x && both.clients - {0} == map[1 := y];
    LeadsKeepsInv(Quiet(db), both, policy);
    ViewedGivesUp(db, a, b, envA, policy);
    LeadsItself(both, policy);
    ReadyCommits(both, both, 0, policy);
  }

  lemma SecondCommits(db: Db, a: Uuid, b: Uuid, envA: Env, envB: Env, policy: Policy)
    requires Valid(db) && MutualPair(db, a, b, policy) && policy.Valid() && Waiting(db, a) && Waiting(db, b)
    requires Leads(Quiet(db), Between(db, a, b, envA, envB), policy)
    ensures var middle := Between(db, a, b, envA, envB);
            Leads(middle, Quiet(GivenUp(middle.db, ViewedCall(db, b, envB))), policy)
  {
    var middle := Between(db, a, b, envA, envB);
    assert middle.clients[1] == ViewedCall(db, b, envB) && middle.clients - {1} == map[];
    LeadsKeepsInv(Quiet(db), middle, policy);
    ViewedGivesUp(db, b, a, envB, policy);
    LeadsItself(middle, policy);
    ReadyCommits(middle, middle, 1, policy);
  }

  /** Both rows are rejected as not found, and refer to each other as before. */
  lemma BothAreCrossed(db: Db, a: Uuid, b: Uuid, envA: Env, envB: Env, policy: Policy)
    requires Valid(db) && MutualPair(db, a, b, policy) && Waiting(db, a) && Waiting(db, b)
    ensures Crossed(GivenUp(Between(db, a, b, envA, envB).db, ViewedCall(db, b, envB)), a, b)
  {
    var x, y := ViewedCall(db, a, envA), ViewedCall(db, b, envB);
    RowIds(db);
    RefusalLeaves(db, x, ReferenceNotFound);
    RefusalLeaves(GivenUp(db, x), y, ReferenceNotFound);
  }

  /** Between the two commits, the reference that the second call read as waiting is rejected. */
  lemma SecondIsOvertaken(db: Db, a: Uuid, b: Uuid, envA: Env, envB: Env, policy: Policy)
    requires Valid(db) && MutualPair(db, a, b, policy) && policy.Valid() && Waiting(db, a) && Waiting(db, b)
    requires KeysOk(Between(db, a, b, envA, envB).db)
    ensures ViewedCall(db, b, envB).Ready() && Overtaken(Between(db, a, b, envA, envB).db, ViewedCall(db, b, envB))
  {
    var x, w := ViewedCall(db, a, envA), db.wagers[b];
    assert Obeys(db, WagerRule) && Obeys(db, KeyRule);
    MutualReference(db, b, a, policy, envB.now);
    WaitingIsAdmissible(db, b);
    RowIds(db);
    RefusalLeaves(db, x, ReferenceNotFound);
    ExternalIdIsUnique(GivenUp(db, x), w.providerId, w.referenceExternalId, a);
  }

  /**
   From any database with two exhausted rows that refer to each other, two resolutions
   interleave: both read, the first commits, the second is overtaken and commits as well. Both
   rows are rejected as not found, which no sequence of whole calls ever does.
   */
  lemma CrossedRefusals(db: Db, a: Uuid, b: Uuid, envA: Env, envB: Env, policy: Policy) returns (middle: State, last: Db)
    requires Valid(db) && MutualPair(db, a, b, policy) && policy.Valid()
    requires EnvOk(db, envA) && EnvOk(db, envB) && Apart(envB, envA)
    ensures Waiting(db, a) && Waiting(db, b) && ViewedCall(db, b, envB).Ready()
    ensures Leads(Quiet(db), Duo(db, ViewedCall(db, a, envA), ViewedCall(db, b, envB)), policy)
    ensures middle == State(GivenUp(db, ViewedCall(db, a, envA)), map[1 := ViewedCall(db, b, envB)])
    ensures Leads(Duo(db, ViewedCall(db, a, envA), ViewedCall(db, b, envB)), middle, policy)
    ensures Overtaken(middle.db, ViewedCall(db, b, envB))
    ensures last == GivenUp(middle.db, ViewedCall(db, b, envB)) && Leads(middle, Quiet(last), policy)
    ensures Crossed(last, a, b) && forall ops :: History.Execute(db, ops, policy) != last
  {
    middle := Between(db, a, b, envA, envB);
    last := GivenUp(middle.db, ViewedCall(db, b, envB));
    BothView(db, a, b, envA, envB, policy);
    FirstCommits(db, a, b, envA, envB, policy);
    LeadsTransitive(Quiet(db), Duo(db, ViewedCall(db, a, envA), ViewedCall(db, b, envB)), middle, policy);
    SecondCommits(db, a, b, envA, envB, policy);
    LeadsKeepsInv(Quiet(db), middle, policy);
    assert Obeys(middle.db, KeyRule);
    SecondIsOvertaken(db, a, b, envA, envB, policy);
    BothAreCrossed(db, a, b, envA, envB, policy);
    NoSequenceGives(db, last, a, b, policy);
  }

  lemma NoSequenceGives(db: Db, last: Db, a: Uuid, b: Uuid, policy: Policy)
    requires Valid(db) && policy.Valid() && !Crossed(db, a, b) && Crossed(last, a, b)
    ensures forall ops :: History.Execute(db, ops, policy) != last
  {
    forall ops
      ensures History.Execute(db, ops, policy) != last
    {
      NeverCrossed(db, ops, policy, a, b);
    }
  }

  // --- the pair exists ----------------------------------------------------

  /** A new request that refers to a missing or waiting transaction waits; it adds its row and one event. */
  lemma NewWaits(db: Db, c: ProcessCommand, env: Env, policy: Policy)
    requires Readable(db) && policy.Valid() && IsFirst(db, c, env) && c.inbox.None? && c.referenceExternalId != ""
    requires var w := NewWager(NewExternalOf(c, env)).value;
             IdentityMatches(w, db.wallets[c.walletId]) && ReferenceIsPending(ReferenceOf(db, w))
    ensures ProcessOutcome(db, c, policy, env).Ok?
    ensures var w, after := NewWager(NewExternalOf(c, env)).value, ProcessOutcome(db, c, policy, env).value.0;
            && after.wallets == db.wallets && after.ledger == db.ledger
            && after.wagers == db.wagers[w.id := w.(status := PendingReference, attempts := 1,
                                                    nextAttempt := Some(env.now + ReferenceDelay(policy, 0)),
                                                    updatedAt := env.now)]
            && |after.outbox| == |db.outbox| + 1 && after.outbox[..|db.outbox|] == db.outbox
            && after.outbox[|db.outbox|].id == env.firstEvent
  {
    var w := NewWager(NewExternalOf(c, env)).value;
    assert FirstDecision(db, w, policy, env.now) == Ok(Hold(env.now + ReferenceDelay(policy, 0)));
  }

  function WitnessWallet(code: string, id: Uuid): WalletState
    requires IsCurrency(code)
  {
    WalletState(id, id, Money(0, code), 1, 1, 1)
  }

  function WitnessEnv(id: Uuid): Env {
    Env(1, id, id + 1, id + 2, id + 3, id + 4)
  }

  /** A win on a wallet that refers to another transaction of the same provider. */
  function WitnessCommand(code: string, wallet: Uuid, externalId: string, reference: string): ProcessCommand
    requires IsCurrency(code)
  {
    ProcessCommand("p", externalId, externalId, wallet, wallet, "r", "g", Win, Money(1, code), reference, "", None)
  }

  const WITNESS_POLICY: Policy := Policy(1, 1, 1)

  lemma TwoWallets(code: string) returns (db: Db)
    requires IsCurrency(code)
    ensures Reachable(Quiet(db), WITNESS_POLICY)
    ensures db == Db(map[10 := WitnessWallet(code, 10), 20 := WitnessWallet(code, 20)], map[], [], map[], [])
  {
    var first, second := CreateCommand(10, Money(0, code), ""), CreateCommand(20, Money(0, code), "");
    var envA, envB := CreateEnv(1, 10, 11, 12, 13, 14, 15), CreateEnv(1, 20, 21, 22, 23, 24, 25);
    LeadsItself(Quiet(EMPTY), WITNESS_POLICY);
    var one := EMPTY.(wallets := map[10 := WitnessWallet(code, 10)]);
    assert CreateOutcome(EMPTY, first, envA) == Ok((one, WitnessWallet(code, 10)));
    SoloCreate(EMPTY, first, envA, WITNESS_POLICY);
    db := one.(wallets := map[10 := WitnessWallet(code, 10), 20 := WitnessWallet(code, 20)]);
    assert one.wallets[20 := WitnessWallet(code, 20)] == db.wallets;
    assert CreateOutcome(one, second, envB) == Ok((db, WitnessWallet(code, 20)));
    SoloCreate(one, second, envB, WITNESS_POLICY);
    LeadsTransitive(Quiet(EMPTY), Quiet(one), Quiet(db), WITNESS_POLICY);
  }

  lemma WitnessIsMade(code: string, wallet: Uuid, externalId: string, reference: string, env: Env)
    requires IsCurrency(code) && wallet != NO_ID && env.wagerId != NO_ID && env.now != ZERO_TIME
    requires NotBlank(externalId) && |externalId| <= 256 && 0 < |reference| <= 256
    ensures var c := WitnessCommand(code, wallet, externalId, reference);
            && CommandValid(c) && NewWager(NewExternalOf(c, env)).Ok?
  {
    assert !IsSpace("p"[0]) && !IsSpace("r"[0]) && !IsSpace("g"[0]);
    NotBlankIsNotEmpty(externalId);
  }

  /** A waiting row of the witness. */
  ghost predicate WitnessRow(db: Db, id: Uuid, wallet: Uuid, externalId: string, reference: string) {
    && id in db.wagers
    && var w := db.wagers[id];
    && w.id == id && w.kind.Win? && w.status.PendingReference? && w.attempts == 1 && w.walletId == wallet
    && w.providerId == "p" && w.externalId == externalId && w.idempotencyKey == externalId
    && w.referenceExternalId == reference
  }

  /** All identifiers in use lie below a bound. */
  ghost predicate Below(db: Db, n: nat) {
    && (forall id :: id in db.wagers ==> id < n)
    && (forall i :: 0 <= i < |db.ledger| ==> db.ledger[i].id < n)
    && (forall i :: 0 <= i < |db.outbox| ==> db.outbox[i].id < n)
  }

  lemma BelowIsNew(db: Db, n: nat, m: nat)
    requires Below(db, n) && n <= m && m != NO_ID
    ensures EnvOk(db, WitnessEnv(m))
  {
  }

  lemma BelowGrows(db: Db, after: Db, n: nat)
    requires Below(db, n) && after.wagers.Keys == db.wagers.Keys + {n} && after.ledger == db.ledger
    requires |after.outbox| == |db.outbox| + 1 && after.outbox[..|db.outbox|] == db.outbox
    requires after.outbox[|db.outbox|].id == WitnessEnv(n).firstEvent
    ensures Below(after, n + 5)
  {
    forall i | 0 <= i < |after.outbox|
      ensures after.outbox[i].id < n + 5
    {
      assert i < |db.outbox| ==> after.outbox[i] == after.outbox[..|db.outbox|][i];
    }
  }

  /** Waiting rows under other keys and external identifiers. */
  ghost predicate OthersWait(db: Db, text: string) {
    forall id :: id in db.wagers ==>
      db.wagers[id].externalId != text && db.wagers[id].idempotencyKey != text && db.wagers[id].status.PendingReference?
  }

  lemma WitnessIsNew(db: Db, code: string, wallet: Uuid, externalId: string, reference: string, env: Env)
    requires IsCurrency(code) && EnvOk(db, env) && OthersWait(db, externalId)
    requires wallet != NO_ID && wallet in db.wallets
    requires NotBlank(externalId) && |externalId| <= 256 && 0 < |reference| <= 256
    ensures IsFirst(db, WitnessCommand(code, wallet, externalId, reference), env)
  {
    WitnessIsMade(code, wallet, externalId, reference, env);
  }

  /** The conditions under which one more waiting row is made, numbered n. */
  ghost predicate RoomFor(db: Db, code: string, wallet: Uuid, externalId: string, reference: string, n: nat) {
    && Readable(db) && Below(db, n) && n != NO_ID && IsCurrency(code)
    && wallet != NO_ID && wallet in db.wallets && db.wallets[wallet] == WitnessWallet(code, wallet)
    && NotBlank(externalId) && |externalId| <= 256 && 0 < |reference| <= 256 && OthersWait(db, externalId)
  }

  lemma RowIsAdded(db: Db, code: string, wallet: Uuid, externalId: string, reference: string, n: nat)
    requires RoomFor(db, code, wallet, externalId, reference, n)
    ensures var c, env := WitnessCommand(code, wallet, externalId, reference), WitnessEnv(n);
            && IsFirst(db, c, env) && ProcessOutcome(db, c, WITNESS_POLICY, env).Ok?
            && var after := ProcessOutcome(db, c, WITNESS_POLICY, env).value.0;
            && after.wallets == db.wallets && Below(after, n + 5)
            && WitnessRow(after, n, wallet, externalId, reference) && after.wagers == db.wagers[n := after.wagers[n]]
  {
    var c, env := WitnessCommand(code, wallet, externalId, reference), WitnessEnv(n);
    BelowIsNew(db, n, n);
    WitnessIsNew(db, code, wallet, externalId, reference, env);
    NewWaits(db, c, env, WITNESS_POLICY);
    BelowGrows(db, ProcessOutcome(db, c, WITNESS_POLICY, env).value.0, n);
  }

  /** One more waiting row, made by a call of its own. */
  lemma OneMoreWaits(db: Db, code: string, wallet: Uuid, externalId: string, reference: string, n: nat) returns (after: Db)
    requires Reachable(Quiet(db), WITNESS_POLICY) && RoomFor(db, code, wallet, externalId, reference, n)
    ensures Reachable(State(after, map[]), WITNESS_POLICY)
    ensures after.wallets == db.wallets && Below(after, n + 5)
    ensures WitnessRow(after, n, wallet, externalId, reference) && after.wagers == db.wagers[n := after.wagers[n]]
  {
    var c, env := WitnessCommand(code, wallet, externalId, reference), WitnessEnv(n);
    RowIsAdded(db, code, wallet, externalId, reference, n);
    ReachableInv(Quiet(db), WITNESS_POLICY);
    SoloProcess(db, c, env, WITNESS_POLICY);
    LeadsTransitive(Quiet(EMPTY), Quiet(db), Quiet(ProcessOutcome(db, c, WITNESS_POLICY, env).value.0), WITNESS_POLICY);
    after := ProcessOutcome(db, c, WITNESS_POLICY, env).value.0;
  }

  lemma FirstOfPair(code: string) returns (db: Db)
    requires IsCurrency(code)
    ensures Reachable(Quiet(db), WITNESS_POLICY) && Readable(db) && Below(db, 35)
    ensures WitnessRow(db, 30, 10, "a", "b") && db.wagers.Keys == {30}
    ensures 20 in db.wallets && db.wallets[20] == WitnessWallet(code, 20)
  {
    var empty := TwoWallets(code);
    RoomInEmpty(empty, code);
    db := OneMoreWaits(empty, code, 10, "a", "b", 30);
    ReachableInv(Quiet(db), WITNESS_POLICY);
  }

  lemma RoomInEmpty(db: Db, code: string)
    requires IsCurrency(code)
    requires db == Db(map[10 := WitnessWallet(code, 10), 20 := WitnessWallet(code, 20)], map[], [], map[], [])
    ensures RoomFor(db, code, 10, "a", "b", 30)
  {
    assert !IsSpace("a"[0]);
  }

  lemma RowsArePair(db: Db)
    requires WitnessRow(db, 30, 10, "a", "b") && WitnessRow(db, 40, 20, "b", "a")
    ensures MutualPair(db, 30, 40, WITNESS_POLICY)
  {
  }

  /** A database with a mutual pair is reached from the empty one, whatever the currency. */
  lemma PairExists(code: string) returns (db: Db)
    requires IsCurrency(code)
    ensures Reachable(Quiet(db), WITNESS_POLICY) && MutualPair(db, 30, 40, WITNESS_POLICY) && Below(db, 45)
  {
    var one := FirstOfPair(code);
    assert !IsSpace("b"[0]);
    db := OneMoreWaits(one, code, 20, "b", "a", 40);
    RowsArePair(db);
  }

  /**
   Refusals for a missing reference are not serializable. From an empty database two wallets and
   two waiting rows that refer to each other are reached; from there two resolutions interleave,
   the second overtaken by the first, and leave a database with both rows rejected as not found.
   No sequence of whole calls leaves it: neither the two resolutions, in either order and
   whatever the clocks and identifiers, nor any other calls, from the pair or from the start.
   */
  lemma RefusalsAreNotSerializable(code: string) returns (db: Db, second: Client, middle: State, last: Db)
    requires IsCurrency(code)
    ensures Reachable(Quiet(db), WITNESS_POLICY) && Valid(db) && MutualPair(db, 30, 40, WITNESS_POLICY)
    ensures middle.clients == map[1 := second] && second.job == ResolveJob(40)
    ensures second.Ready() && Overtaken(middle.db, second)
    ensures Leads(Quiet(db), middle, WITNESS_POLICY) && Leads(middle, Quiet(last), WITNESS_POLICY)
    ensures last == GivenUp(middle.db, second)
    ensures last.wagers.Keys == db.wagers.Keys && last.wallets == db.wallets && last.ledger == db.ledger
    ensures Crossed(last, 30, 40)
    ensures forall env, env' :: EnvOk(db, env) ==>
              && SecondIsNotProcessed(db, 30, 40, WITNESS_POLICY, env, env')
              && SecondIsNotProcessed(db, 40, 30, WITNESS_POLICY, env, env')
    ensures forall ops :: History.Execute(db, ops, WITNESS_POLICY) != last
    ensures forall ops :: History.Execute(EMPTY, ops, WITNESS_POLICY) != last
  {
    db := PairExists(code);
    ReachableInv(Quiet(db), WITNESS_POLICY);
    BelowIsNew(db, 45, 50);
    BelowIsNew(db, 45, 60);
    var first := ViewedCall(db, 30, WitnessEnv(50));
    second := ViewedCall(db, 40, WitnessEnv(60));
    middle, last := CrossedRefusals(db, 30, 40, WitnessEnv(50), WitnessEnv(60), WITNESS_POLICY);
    LeadsTransitive(Quiet(db), Duo(db, first, second), middle, WITNESS_POLICY);
    RowIds(db);
    RefusalTables(db, first);
    RefusalTables(middle.db, second);
    NeverSerial(db, last, 30, 40, WITNESS_POLICY);
  }

  /** A refusal writes its row, its event and nothing else. */
  lemma RefusalTables(db: Db, c: Client)
    requires c.job.ResolveJob? && c.Ready() && c.pc.w.id in db.wagers
    ensures GivenUp(db, c).wagers.Keys == db.wagers.Keys
    ensures GivenUp(db, c).wallets == db.wallets && GivenUp(db, c).ledger == db.ledger
  {
  }

  lemma NeverSerial(db: Db, last: Db, a: Uuid, b: Uuid, policy: Policy)
    requires Valid(db) && policy.Valid() && MutualPair(db, a, b, policy) && Crossed(last, a, b)
    ensures forall env, env' :: EnvOk(db, env) ==>
              SecondIsNotProcessed(db, a, b, policy, env, env') && SecondIsNotProcessed(db, b, a, policy, env, env')
    ensures forall ops :: History.Execute(EMPTY, ops, policy) != last
  {
    forall env, env' | EnvOk(db, env)
      ensures SecondIsNotProcessed(db, a, b, policy, env, env') && SecondIsNotProcessed(db, b, a, policy, env, env')
    {
      SerialRefusals(db, a, b, policy, env, env');
      SerialRefusals(db, b, a, policy, env, env');
    }
    History.EmptyIsValid();
    NoSequenceGives(EMPTY, last, a, b, policy);
  }

  /** In this order the second row is not rejected as not found. */
  ghost predicate SecondIsNotProcessed(db: Db, first: Uuid, second: Uuid, policy: Policy, env: Env, env': Env)
    requires Readable(db) && policy.Valid()
  {
    && ResolveOutcome(db, first, policy, env).Ok? && Readable(ResolveOutcome(db, first, policy, env).value)
    && var last := ResolveOutcome(ResolveOutcome(db, first, policy, env).value, second, policy, env');
    && last.Ok? && RejectedAs(last.value, second, ReferenceNotProcessed)
  }
}
