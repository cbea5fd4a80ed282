/**
 What locks earn: the interleaving of module Interleaving keeps the database valid in
 every reachable state, no guard ever refuses a commit, a call whose reference was
 terminal commits exactly what it would do alone, and locks never form a cycle.
 */
module Locking {
  import opened Base
  import opened Backoff
  import opened MoneyValue
  import opened Domain
  import opened Contracts
  import opened Database
  import opened Decisions
  import opened Invariants
  import opened Preservation
  import opened Admission
  import opened Storage
  import opened Calls
  import opened Creation
  import opened History
  import opened Interleaving

  // --- lock order ---------------------------------------------------------

  /** Every lock is acquired in rank order. */
  lemma RanksRise(c: Client)
    ensures c.Wants().Some? ==> forall lock :: lock in c.Held() ==> lock.Rank() < c.Wants().value.Rank()
  {
  }

  /** At most one lock of each class. */
  lemma OnePerRank(c: Client, a: Lock, b: Lock)
    requires a in c.Held() && b in c.Held() && a.Rank() == b.Rank()
    ensures a == b
  {
  }

  /** The call i wants a lock that j holds. */
  ghost predicate WaitsFor(s: State, i: nat, j: nat) {
    && i in s.clients && j in s.clients && i != j && s.clients[i].Wants().Some?
    && s.clients[i].Wants().value in s.clients[j].Held()
  }

  ghost predicate WaitPath(s: State, path: seq<nat>) {
    |path| > 1 ==> WaitsFor(s, path[0], path[1]) && WaitPath(s, path[1..])
  }

  lemma {:induction false} RanksRiseAlong(s: State, path: seq<nat>)
    requires |path| >= 2 && WaitPath(s, path)
    requires path[|path| - 1] in s.clients && s.clients[path[|path| - 1]].Wants().Some?
    ensures path[0] in s.clients && s.clients[path[0]].Wants().Some?
    ensures s.clients[path[0]].Wants().value.Rank() < s.clients[path[|path| - 1]].Wants().value.Rank()
    decreases |path|
  {
    assert WaitsFor(s, path[0], path[1]);
    RanksRise(s.clients[path[1]]);
    if |path| > 2 { RanksRiseAlong(s, path[1..]); }
  }

  /** No chain of waiting calls, however long, ever closes. */
  lemma NoWaitCycle(s: State, path: seq<nat>)
    requires |path| >= 2 && WaitPath(s, path)
    ensures path[0] != path[|path| - 1]
  {
    assert WaitsFor(s, path[0], path[1]);
    if path[|path| - 1] == path[0] { RanksRiseAlong(s, path); }
  }

  /** From any call, following the locks leads to one that nobody blocks. */
  lemma {:induction false} SomeoneMoves(s: State, i: nat) returns (k: nat)
    requires i in s.clients
    ensures k in s.clients && s.Free(k, s.clients[k].Wants())
    decreases 5 - (if s.clients[i].Wants().Some? then s.clients[i].Wants().value.Rank() else 5)
  {
    if s.Free(i, s.clients[i].Wants()) {
      k := i;
    } else {
      var j :| j in s.clients && j != i && s.clients[i].Wants().value in s.clients[j].Held();
      RanksRise(s.clients[j]);
      k := SomeoneMoves(s, j);
    }
  }

  // --- what a commit leaves to the others ---------------------------------

  lemma StableKey(wagers: map<Uuid, WagerState>, after: map<Uuid, WagerState>, w: WagerState, final: WagerState,
      provider: string, key: string)
    requires RowEvolves(wagers, after, w, final) && KeyFree(wagers, provider, key)
    requires w.id !in wagers ==> !HasKey(w, provider, key)
    ensures KeyFree(after, provider, key)
  {
  }

  lemma StableExternal(wagers: map<Uuid, WagerState>, after: map<Uuid, WagerState>, w: WagerState, final: WagerState,
      provider: string, externalId: string)
    requires RowEvolves(wagers, after, w, final) && ExternalFree(wagers, provider, externalId)
    requires w.id !in wagers ==> !HasExternalId(w, provider, externalId)
    ensures ExternalFree(after, provider, externalId)
  {
  }

  lemma StableRef(wagers: map<Uuid, WagerState>, after: map<Uuid, WagerState>, w: WagerState, final: WagerState,
                  other: WagerState, reference: Option<WagerState>)
    requires RowEvolves(wagers, after, w, final) && RefOk(wagers, other, reference)
    ensures RefOk(after, other, reference)
  {
  }

  /** Reversals of a transaction are committed under the lock of its wallet. */
  lemma StableReversal(wagers: map<Uuid, WagerState>, after: map<Uuid, WagerState>, w: WagerState, final: WagerState, id: Uuid)
    requires RowEvolves(wagers, after, w, final) && id in wagers && id != NO_ID && wagers[id].walletId != w.walletId
    ensures ReversalExists(after, id) <==> ReversalExists(wagers, id)
  {
    if ReversalExists(wagers, id) {
      var r :| r in wagers && IsReversalOf(wagers[r], id);
      assert IsReversalOf(after[r], id);
    }
    if ReversalExists(after, id) {
      var r :| r in after && IsReversalOf(after[r], id);
      assert r != w.id;
    }
  }

  lemma StableView(wagers: map<Uuid, WagerState>, after: map<Uuid, WagerState>, w: WagerState, final: WagerState,
                   other: WagerState, reference: Option<WagerState>, reversed: bool)
    requires RowEvolves(wagers, after, w, final) && ViewOk(wagers, other, reference, reversed) && other.walletId != w.walletId
    ensures ViewOk(after, other, reference, reversed)
  {
    if reference.Some? && reference.value.status.Terminal() && reference.value.walletId == other.walletId {
      StableReversal(wagers, after, w, final, reference.value.id);
    }
  }

  /** The writes of a call, and the locks under which it made them. */
  ghost predicate Commits(db: Db, after: Db, a: Client, w: WagerState, final: WagerState, m: Option<Movement>) {
    && RowEvolves(db.wagers, after.wagers, w, final) && MoneyEvolves(db, after, w, final, m)
    && WalletLock(w.walletId) in a.Held()
    && (if w.id in db.wagers then RowLock(w.id) in a.Held()
        else && w.id == a.env.wagerId
             && KeyLock(w.providerId, w.idempotencyKey) in a.Held() && EntryLock(w.providerId, w.externalId) in a.Held())
    && OnlyIdsOf(db, after, a.env) && OnlyMessageOf(db, after, a)
  }

  /** New entries and events carry the identifiers generated for the call. */
  ghost predicate OnlyIdsOf(db: Db, after: Db, env: Env) {
    && (forall i :: 0 <= i < |after.ledger| ==>
          (i < |db.ledger| && after.ledger[i] == db.ledger[i]) || after.ledger[i].id == env.entryId)
    && (forall i :: 0 <= i < |after.outbox| ==>
          || (i < |db.outbox| && after.outbox[i] == db.outbox[i])
          || after.outbox[i].id == env.firstEvent || after.outbox[i].id == env.secondEvent)
  }

  ghost predicate OnlyMessageOf(db: Db, after: Db, a: Client) {
    && (forall k :: k in db.inbox && InboxLock(k) !in a.Held() ==> k in after.inbox && after.inbox[k] == db.inbox[k])
    && (forall k :: k in after.inbox && InboxLock(k) !in a.Held() ==> k in db.inbox)
  }

  lemma StableMessage(db: Db, after: Db, a: Client, inbox: Option<InboxInput>)
    requires OnlyMessageOf(db, after, a) && MessageOpen(db, inbox)
    requires inbox.Some? ==> InboxLock(inbox.value.key) !in a.Held()
    ensures MessageOpen(after, inbox)
  {
  }

  lemma StableReads(db: Db, after: Db, w: WagerState, final: WagerState, m: Option<Movement>, pc: Pc)
    requires RowEvolves(db.wagers, after.wagers, w, final) && MoneyEvolves(db, after, w, final, m)
    requires pc.WalletHeld? || pc.RefRead? || pc.Viewed? || pc.Placed?
    requires ReadsOk(db, pc) && pc.w.walletId != w.walletId
    ensures ReadsOk(after, pc)
  {
    if !pc.WalletHeld? { StableRef(db.wagers, after.wagers, w, final, pc.w, pc.reference); }
    if pc.Viewed? || pc.Placed? { StableView(db.wagers, after.wagers, w, final, pc.w, pc.reference, pc.reversed); }
  }

  lemma StableEnv(db: Db, after: Db, a: Client, b: Client, w: WagerState, final: WagerState, m: Option<Movement>)
    requires Commits(db, after, a, w, final, m) && EnvOk(db, b.env) && Apart(a.env, b.env)
    ensures EnvOk(after, b.env)
  {
  }

  lemma KeyStays(db: Db, after: Db, a: Client, w: WagerState, final: WagerState, m: Option<Movement>, c: ProcessCommand)
    requires Commits(db, after, a, w, final, m) && KeyLock(c.providerId, c.idempotencyKey) !in a.Held()
    requires KeyFree(db.wagers, c.providerId, c.idempotencyKey)
    ensures KeyFree(after.wagers, c.providerId, c.idempotencyKey)
  {
    StableKey(db.wagers, after.wagers, w, final, c.providerId, c.idempotencyKey);
  }

  lemma ExternalStays(db: Db, after: Db, a: Client, w: WagerState, final: WagerState, m: Option<Movement>, c: ProcessCommand)
    requires Commits(db, after, a, w, final, m) && EntryLock(c.providerId, c.externalId) !in a.Held()
    requires ExternalFree(db.wagers, c.providerId, c.externalId)
    ensures ExternalFree(after.wagers, c.providerId, c.externalId)
  {
    StableExternal(db.wagers, after.wagers, w, final, c.providerId, c.externalId);
  }

  /** The locks that protect what a call of Process knows. */
  lemma ProcessHolds(b: Client)
    requires b.job.ProcessJob?
    ensures b.Inbox().Some? && !b.pc.Begun? && !b.pc.RowHeld? ==> InboxLock(b.Inbox().value.key) in b.Held()
    ensures b.pc.Unknown? || b.pc.Distinct? || b.pc.WalletHeld? || b.pc.RefRead? || b.pc.Viewed? || b.pc.Placed? ==>
              KeyLock(b.job.command.providerId, b.job.command.idempotencyKey) in b.Held()
    ensures b.pc.WalletHeld? || b.pc.RefRead? || b.pc.Viewed? || b.pc.Placed? ==> WalletLock(b.pc.w.walletId) in b.Held()
    ensures b.pc.Placed? ==> EntryLock(b.pc.w.providerId, b.pc.w.externalId) in b.Held()
  {
  }

  /** Another call of Process keeps what it knows. */
  lemma ProcessStays(db: Db, after: Db, a: Client, b: Client, w: WagerState, final: WagerState, m: Option<Movement>)
    requires Commits(db, after, a, w, final, m) && a.Held() !! b.Held()
    requires b.job.ProcessJob? && ProcessOk(db, b.job.command, b.env, b.pc)
    ensures ProcessOk(after, b.job.command, b.env, b.pc)
  {
    var c, pc := b.job.command, b.pc;
    ProcessHolds(b);
    if MessageOpen(db, c.inbox) && !pc.Begun? {
      StableMessage(db, after, a, c.inbox);
    }
    if pc.Unknown? || pc.Distinct? || pc.WalletHeld? || pc.RefRead? || pc.Viewed? || pc.Placed? {
      KeyStays(db, after, a, w, final, m, c);
    }
    if pc.WalletHeld? || pc.RefRead? || pc.Viewed? || pc.Placed? {
      StableReads(db, after, w, final, m, pc);
    }
    if pc.Placed? {
      ExternalStays(db, after, a, w, final, m, c);
    }
  }

  /** So does another call of the worker. */
  lemma WorkerStays(db: Db, after: Db, a: Client, b: Client, w: WagerState, final: WagerState, m: Option<Movement>)
    requires Commits(db, after, a, w, final, m) && a.Held() !! b.Held()
    requires !b.job.ProcessJob? && WorkerOk(db, b.job.id, b.pc)
    ensures WorkerOk(after, b.job.id, b.pc)
  {
    var pc := b.pc;
    if !pc.Begun? {
      assert RowLock(b.job.id) in b.Held();
    }
    if pc.WalletHeld? || pc.RefRead? || pc.Viewed? {
      assert WalletLock(pc.w.walletId) in b.Held();
      StableReads(db, after, w, final, m, pc);
    }
  }

  lemma OtherStays(db: Db, after: Db, a: Client, b: Client, w: WagerState, final: WagerState, m: Option<Movement>)
    requires Commits(db, after, a, w, final, m) && a.Held() !! b.Held() && Apart(a.env, b.env) && ClientOk(db, b)
    ensures ClientOk(after, b)
  {
    StableEnv(db, after, a, b, w, final, m);
    if b.job.ProcessJob? {
      ProcessStays(db, after, a, b, w, final, m);
    } else {
      WorkerStays(db, after, a, b, w, final, m);
    }
  }

  // --- what a call may commit ---------------------------------------------

  lemma NewRowAdmissible(db: Db, c: Client)
    requires c.job.ProcessJob? && c.pc.Placed? && EnvOk(db, c.env) && ProcessOk(db, c.job.command, c.env, c.pc)
    ensures Admissible(db, c.pc.w, true) && IdsFree(db, c.CommitMeta())
  {
  }

  lemma ReadyReads(db: Db, c: Client)
    requires Readable(db) && ClientOk(db, c) && c.Ready()
    ensures c.pc.w.walletId in db.wallets && db.wallets[c.pc.w.walletId] == c.pc.wallet && c.pc.wallet.balance.minor >= 0
    ensures !c.job.RecordJob? ==> ViewOk(db.wagers, c.pc.w, c.pc.reference, c.pc.reversed)
    ensures !c.job.ProcessJob? ==> c.job.id in db.wagers && db.wagers[c.job.id] == c.pc.w && c.pc.w.status.PendingReference?
  {
  }

  /** With the locks that a call holds, its decision is legal on the rows committed now. */
  lemma ReadyIsLegal(db: Db, c: Client, policy: Policy)
    requires Valid(db) && ClientOk(db, c) && c.Ready() && policy.Valid()
    ensures c.pc.w.walletId in db.wallets && db.wallets[c.pc.w.walletId] == c.pc.wallet && c.pc.wallet.balance.minor >= 0
    ensures var d := c.Decided(policy);
            d.Ok? ==> Legal(db, c.pc.w, d.value, c.CommitMeta())
  {
    ReadyReads(db, c);
    match c.job
    case ProcessJob(command) => ReadyProcessIsLegal(db, c, policy);
    case ResolveJob(id) => ReadyResolveIsLegal(db, c, policy);
    case RecordJob(id) => ReadyRecordIsLegal(db, c, policy);
  }

  lemma ReadyRecordIsLegal(db: Db, c: Client, policy: Policy)
    requires Valid(db) && ClientOk(db, c) && c.Ready() && policy.Valid() && c.job.RecordJob?
    requires c.pc.w.walletId in db.wallets && db.wallets[c.pc.w.walletId] == c.pc.wallet && c.pc.wallet.balance.minor >= 0
    ensures c.Decided(policy).Ok? ==> Legal(db, c.pc.w, c.Decided(policy).value, c.CommitMeta())
  {
    assert Obeys(db, WalletRule) && Obeys(db, WagerRule);
    RecordLegal(db, c.job.id, policy, c.env);
  }

  lemma ReadyProcessIsLegal(db: Db, c: Client, policy: Policy)
    requires Valid(db) && ClientOk(db, c) && c.Ready() && policy.Valid() && c.job.ProcessJob?
    requires c.pc.w.walletId in db.wallets && db.wallets[c.pc.w.walletId] == c.pc.wallet && c.pc.wallet.balance.minor >= 0
    requires ViewOk(db.wagers, c.pc.w, c.pc.reference, c.pc.reversed)
    ensures c.Decided(policy).Ok? ==> Legal(db, c.pc.w, c.Decided(policy).value, c.CommitMeta())
  {
    assert Obeys(db, WalletRule) && Obeys(db, WagerRule);
    NewRowAdmissible(db, c);
    FirstDecisionJustified(db, c.pc.w, c.pc.reference, c.pc.reversed, policy, c.CommitMeta());
  }

  lemma ReadyResolveIsLegal(db: Db, c: Client, policy: Policy)
    requires Valid(db) && ClientOk(db, c) && c.Ready() && policy.Valid() && c.job.ResolveJob?
    requires c.pc.w.walletId in db.wallets && db.wallets[c.pc.w.walletId] == c.pc.wallet && c.pc.wallet.balance.minor >= 0
    requires ViewOk(db.wagers, c.pc.w, c.pc.reference, c.pc.reversed)
    ensures c.Decided(policy).Ok? ==> Legal(db, c.pc.w, c.Decided(policy).value, c.CommitMeta())
  {
    assert Obeys(db, WalletRule) && Obeys(db, WagerRule);
    ViewedLegal(db, c.job.id, c.pc.reference, c.pc.reversed, policy, c.env);
  }

  lemma LegalAfterClaim(db: Db, w: WagerState, d: Decision, meta: Meta, inbox: Option<InboxInput>, now: Time)
    requires Legal(db, w, d, meta)
    ensures Legal(ClaimedBy(db, inbox, now), w, d, meta)
  {
  }

  /** No guard ever refuses a commit: not the version of the wallet, not the reversal index, no CHECK and no trigger. */
  lemma NoCommitRefused(s: State, i: nat, policy: Policy)
    requires Inv(s) && i in s.clients && s.clients[i].Ready() && policy.Valid()
    ensures s.clients[i].pc.wallet.balance.minor >= 0
    ensures var c := s.clients[i];
            var d := c.Decided(policy);
            d.Ok? ==> GuardsAccept(ClaimedBy(s.db, c.Inbox(), c.env.now), WriteOf(c, d.value), c.CommitMeta().insert)
  {
    var c := s.clients[i];
    ReadyIsLegal(s.db, c, policy);
    if c.Decided(policy).Ok? {
      var claimed, d := ClaimedBy(s.db, c.Inbox(), c.env.now), c.Decided(policy).value;
      InboxFrame(s.db, claimed);
      LegalAfterClaim(s.db, c.pc.w, d, c.CommitMeta(), c.Inbox(), c.env.now);
      GuardsNeverFire(claimed, c.pc.w, d, c.CommitMeta());
    }
  }

  /** The database after the writes of a ready call. */
  ghost function Written(db: Db, c: Client, d: Decision): Db
    requires c.Ready() && Feasible(c.pc.w, c.pc.wallet, d)
  {
    CompletedBy(Apply(ClaimedBy(db, c.Inbox(), c.env.now), WriteOf(c, d)), c.Inbox(), c.env.now)
  }

  lemma WrittenIds(db: Db, c: Client, d: Decision)
    requires c.Ready() && Feasible(c.pc.w, c.pc.wallet, d)
    ensures OnlyIdsOf(db, Written(db, c, d), c.env) && OnlyMessageOf(db, Written(db, c, d), c)
  {
    EffectIds(db, c.pc.w, c.pc.wallet, d, c.CommitMeta(), c.env);
    WrittenRows(db, c, d);
    WrittenMessage(db, c, d);
  }

  lemma WrittenRows(db: Db, c: Client, d: Decision)
    requires c.Ready() && Feasible(c.pc.w, c.pc.wallet, d)
    ensures Written(db, c, d).ledger == Apply(db, Effect(c.pc.w, c.pc.wallet, d, c.CommitMeta())).ledger
    ensures Written(db, c, d).outbox == Apply(db, Effect(c.pc.w, c.pc.wallet, d, c.CommitMeta())).outbox
  {
  }

  lemma EffectIds(db: Db, w: WagerState, wallet: WalletState, d: Decision, meta: Meta, env: Env)
    requires Feasible(w, wallet, d)
    requires meta.entryId == env.entryId && meta.firstEvent == env.firstEvent && meta.secondEvent == env.secondEvent
    ensures OnlyIdsOf(db, Apply(db, Effect(w, wallet, d, meta)), env)
  {
  }

  lemma WrittenMessage(db: Db, c: Client, d: Decision)
    requires c.Ready() && Feasible(c.pc.w, c.pc.wallet, d)
    ensures OnlyMessageOf(db, Written(db, c, d), c)
  {
  }

  /** A ready call holds the locks of everything it will write. */
  lemma ReadyHolds(db: Db, c: Client)
    requires ClientOk(db, c) && c.Ready() && forall id :: id in db.wagers ==> db.wagers[id].id == id
    ensures WalletLock(c.pc.w.walletId) in c.Held()
    ensures if c.pc.w.id in db.wagers then RowLock(c.pc.w.id) in c.Held()
            else && c.pc.w.id == c.env.wagerId
                 && KeyLock(c.pc.w.providerId, c.pc.w.idempotencyKey) in c.Held()
                 && EntryLock(c.pc.w.providerId, c.pc.w.externalId) in c.Held()
  {
  }

  /** Apart from the inbox, a call writes what the decision commits. */
  lemma WrittenTables(db: Db, c: Client, d: Decision)
    requires c.Ready() && Feasible(c.pc.w, c.pc.wallet, d)
    requires c.pc.w.walletId in db.wallets && db.wallets[c.pc.w.walletId] == c.pc.wallet
    ensures Written(db, c, d) == Commit(db, c.pc.w, d, c.CommitMeta()).(inbox := Written(db, c, d).inbox)
    ensures c.CommitMeta().now == c.env.now
  {
  }

  lemma WrittenEvolves(db: Db, c: Client, d: Decision)
    requires Valid(db) && c.Ready() && Feasible(c.pc.w, c.pc.wallet, d)
    requires c.pc.w.walletId in db.wallets && db.wallets[c.pc.w.walletId] == c.pc.wallet
    requires Legal(db, c.pc.w, d, c.CommitMeta())
    ensures var w, wallet, after := c.pc.w, c.pc.wallet, Written(db, c, d);
            var final, m := Final(w, wallet, d, c.env.now), MovementOf(w, wallet, d, c.CommitMeta());
            RowEvolves(db.wagers, after.wagers, w, final) && MoneyEvolves(db, after, w, final, m)
  {
    assert Obeys(db, WalletRule) && Obeys(db, WagerRule);
    CommitRow(db, c.pc.w, d, c.CommitMeta());
    CommitMoney(db, c.pc.w, d, c.CommitMeta());
    WrittenTables(db, c, d);
    SameTables(Commit(db, c.pc.w, d, c.CommitMeta()), Written(db, c, d), db, c.pc.w,
               Final(c.pc.w, c.pc.wallet, d, c.env.now), MovementOf(c.pc.w, c.pc.wallet, d, c.CommitMeta()));
  }

  lemma WrittenCommits(db: Db, c: Client, d: Decision)
    requires Valid(db) && ClientOk(db, c) && c.Ready() && Feasible(c.pc.w, c.pc.wallet, d)
    requires c.pc.w.walletId in db.wallets && db.wallets[c.pc.w.walletId] == c.pc.wallet
    requires Legal(db, c.pc.w, d, c.CommitMeta())
    ensures Commits(db, Written(db, c, d), c, c.pc.w, Final(c.pc.w, c.pc.wallet, d, c.env.now),
                    MovementOf(c.pc.w, c.pc.wallet, d, c.CommitMeta()))
  {
    WrittenEvolves(db, c, d);
    ReadyHolds(db, c);
    WrittenIds(db, c, d);
  }

  lemma SameTables(a: Db, b: Db, db: Db, w: WagerState, final: WagerState, m: Option<Movement>)
    requires a.wallets == b.wallets && a.wagers == b.wagers && a.ledger == b.ledger
    requires RowEvolves(db.wagers, a.wagers, w, final) && MoneyEvolves(db, a, w, final, m)
    ensures RowEvolves(db.wagers, b.wagers, w, final) && MoneyEvolves(db, b, w, final, m)
  {
  }

  lemma WrittenIsValid(db: Db, c: Client, d: Decision)
    requires Valid(db) && c.Ready() && Feasible(c.pc.w, c.pc.wallet, d)
    requires c.pc.w.walletId in db.wallets && db.wallets[c.pc.w.walletId] == c.pc.wallet
    requires Legal(db, c.pc.w, d, c.CommitMeta())
    ensures Valid(Written(db, c, d))
  {
    CommitKeepsValid(db, c.pc.w, d, c.CommitMeta());
    WrittenTables(db, c, d);
    InboxFrame(Commit(db, c.pc.w, d, c.CommitMeta()), Written(db, c, d));
  }

  // --- every statement keeps the invariant --------------------------------

  /** The next position is known to be right, and takes no lock but the one wanted. */
  ghost predicate Advances(db: Db, c: Client, pc: Pc) {
    && ClientOk(db, c.(pc := pc))
    && (forall lock :: lock in c.(pc := pc).Held() ==> lock in c.Held() || c.Wants() == Some(lock))
  }

  /** A statement that writes nothing: the call ends, or advances while nobody holds the lock it wants. */
  ghost predicate Moved(s: State, s': State, i: nat) {
    && i in s.clients
    && (s' == s.Gone(i) ||
        (i in s'.clients && s' == s.Go(i, s'.clients[i].pc) && s.Free(i, s.clients[i].Wants()) &&
         Advances(s.db, s.clients[i], s'.clients[i].pc)))
  }

  lemma MovedKeepsInv(s: State, s': State, i: nat)
    requires Inv(s) && Moved(s, s', i)
    ensures Inv(s')
  {
    forall a, b | a in s'.clients && b in s'.clients && a != b
      ensures s'.clients[a].Held() !! s'.clients[b].Held() && Apart(s'.clients[a].env, s'.clients[b].env)
    {
      assert s.clients[a].Held() !! s.clients[b].Held();
    }
  }

  lemma GoneKeepsInv(s: State, i: nat)
    requires Inv(s)
    ensures Inv(s.Gone(i))
  {
  }

  lemma CommitKeepsOthers(s: State, i: nat, after: Db, w: WagerState, final: WagerState, m: Option<Movement>)
    requires (forall j :: j in s.clients ==> ClientOk(s.db, s.clients[j])) && Exclusive(s.clients) && i in s.clients
    requires Commits(s.db, after, s.clients[i], w, final, m)
    ensures forall j :: j in s.clients && j != i ==> ClientOk(after, s.clients[j])
  {
    forall j | j in s.clients && j != i
      ensures ClientOk(after, s.clients[j])
    {
      OtherStays(s.db, after, s.clients[i], s.clients[j], w, final, m);
    }
  }

  /** A commit keeps the invariant, for the database and for every other call. */
  lemma CommitKeepsInv(s: State, s': State, i: nat, policy: Policy)
    requires Inv(s) && CommitWrites(s, s', i, policy)
    ensures Inv(s')
  {
    var c := s.clients[i];
    var d := c.Decided(policy);
    GoneKeepsInv(s, i);
    if s' != s.Gone(i) {
      ReadyIsLegal(s.db, c, policy);
      WrittenIsValid(s.db, c, d.value);
      WrittenCommits(s.db, c, d.value);
      CommitKeepsOthers(s, i, Written(s.db, c, d.value), c.pc.w, Final(c.pc.w, c.pc.wallet, d.value, c.env.now),
                        MovementOf(c.pc.w, c.pc.wallet, d.value, c.CommitMeta()));
    }
  }

  lemma BeginKeepsInv(s: State, s': State, i: nat, job: Job, env: Env)
    requires Inv(s) && Begin(s, s', i, job, env)
    ensures Inv(s')
  {
    BeginIsExclusive(s.clients, i, Client(job, env, Begun));
  }

  lemma BeginIsExclusive(clients: map<nat, Client>, i: nat, c: Client)
    requires Exclusive(clients) && i !in clients && c.pc.Begun?
    requires forall j :: j in clients ==> Apart(c.env, clients[j].env)
    ensures Exclusive(clients[i := c])
  {
    assert c.Held() == {};
  }

  lemma ClaimMoves(s: State, s': State, i: nat)
    requires ClaimInbox(s, s', i) && ClientOk(s.db, s.clients[i])
    ensures Moved(s, s', i)
  {
  }

  lemma LockKeyMoves(s: State, s': State, i: nat)
    requires LockKey(s, s', i) && ClientOk(s.db, s.clients[i])
    ensures Moved(s, s', i)
  {
  }

  lemma FindKeyMoves(s: State, s': State, i: nat)
    requires FindKey(s, s', i) && ClientOk(s.db, s.clients[i])
    ensures Moved(s, s', i)
  {
    if s' != s.Gone(i) { KeyAdvances(s.db, s.clients[i], s'.clients[i].pc); }
  }

  lemma KeyAdvances(db: Db, c: Client, pc: Pc)
    requires c.job.ProcessJob? && (c.pc.Keyed? || c.pc.Repeated?) && ClientOk(db, c)
    requires pc.Replaying? || (pc.Unknown? && KeyFree(db.wagers, c.job.command.providerId, c.job.command.idempotencyKey))
    requires if pc.Replaying? then pc.completes == c.pc.Keyed? else c.pc.Keyed?
    ensures Advances(db, c, pc)
  {
  }

  lemma FindExternalMoves(s: State, s': State, i: nat)
    requires FindExternal(s, s', i) && ClientOk(s.db, s.clients[i])
    ensures Moved(s, s', i)
  {
  }

  lemma LockWalletMoves(s: State, s': State, i: nat)
    requires LockWallet(s, s', i) && ClientOk(s.db, s.clients[i])
    ensures Moved(s, s', i)
  {
  }

  lemma LockRowMoves(s: State, s': State, i: nat)
    requires LockRow(s, s', i) && ClientOk(s.db, s.clients[i])
    ensures Moved(s, s', i)
  {
  }

  lemma LockRowWalletMoves(s: State, s': State, i: nat)
    requires LockRowWallet(s, s', i) && ClientOk(s.db, s.clients[i])
    ensures Moved(s, s', i)
  {
  }

  /** A terminal reference is read as committed. */
  lemma RefReadOk(db: Db, w: WagerState)
    requires WagersOk(db)
    ensures RefOk(db.wagers, w, ReferenceOf(db, w))
  {
    AtomicView(db, w);
  }

  lemma ReadReferenceMoves(s: State, s': State, i: nat)
    requires ReadReference(s, s', i) && ClientOk(s.db, s.clients[i])
    requires RefOk(s.db.wagers, s.clients[i].pc.w, ReferenceOf(s.db, s.clients[i].pc.w))
    ensures Moved(s, s', i)
  {
  }

  lemma ReadReversalMoves(s: State, s': State, i: nat)
    requires ReadReversal(s, s', i) && ClientOk(s.db, s.clients[i])
    ensures Moved(s, s', i)
  {
  }

  lemma PlaceMoves(s: State, s': State, i: nat)
    requires Place(s, s', i) && ClientOk(s.db, s.clients[i])
    ensures Moved(s, s', i)
  {
  }

  lemma LockReplayMoves(s: State, s': State, i: nat)
    requires LockReplay(s, s', i) && ClientOk(s.db, s.clients[i])
    ensures Moved(s, s', i)
  {
  }

  /** Every statement before the writes ends its call or advances it. */
  lemma StatementMoves(s: State, s': State, i: nat, statement: Statement)
    requires i in s.clients && Valid(s.db) && ClientOk(s.db, s.clients[i]) && Proceeds(s, s', i, statement)
    ensures Moved(s, s', i)
  {
    match statement
    case ClaimInboxRow => ClaimMoves(s, s', i);
    case AcquireKey => LockKeyMoves(s, s', i);
    case FindByKey => FindKeyMoves(s, s', i);
    case FindByExternal => FindExternalMoves(s, s', i);
    case LockWalletRow => LockWalletMoves(s, s', i);
    case LockTransactionRow => LockRowMoves(s, s', i);
    case LockWalletOfRow => LockRowWalletMoves(s, s', i);
    case FindReference =>
      assert Obeys(s.db, WagerRule);
      RefReadOk(s.db, s.clients[i].pc.w);
      ReadReferenceMoves(s, s', i);
    case FindReversal => ReadReversalMoves(s, s', i);
    case InsertRow => PlaceMoves(s, s', i);
    case LockReplayWallet => LockReplayMoves(s, s', i);
  }

  // --- replays and creations ----------------------------------------------

  lemma MessageStays(db: Db, after: Db, a: Client, b: Client)
    requires after == db.(inbox := after.inbox) && OnlyMessageOf(db, after, a) && a.Held() !! b.Held() && ClientOk(db, b)
    ensures ClientOk(after, b)
  {
    if b.job.ProcessJob? && b.Inbox().Some? && !b.pc.Begun? && MessageOpen(db, b.Inbox()) {
      assert b.pc.RowHeld? || InboxLock(b.Inbox().value.key) in b.Held();
      if !b.pc.RowHeld? { StableMessage(db, after, a, b.Inbox()); }
    }
  }

  lemma ReplayKeepsInv(s: State, s': State, i: nat)
    requires Inv(s) && CommitReplay(s, s', i)
    ensures Inv(s')
  {
    var c := s.clients[i];
    GoneKeepsInv(s, i);
    if c.pc.completes {
      InboxFrame(s.db, s'.db);
      ReplayTouchesMessage(s.db, s'.db, c);
      forall j | j in s.clients && j != i
        ensures ClientOk(s'.db, s.clients[j])
      {
        MessageStays(s.db, s'.db, c, s.clients[j]);
      }
    }
  }

  lemma ReplayTouchesMessage(db: Db, after: Db, c: Client)
    requires c.job.ProcessJob? && (c.pc.Replaying? || c.pc.ReplayHeld?)
    requires after == CompletedBy(ClaimedBy(db, c.Inbox(), c.env.now), c.Inbox(), c.env.now)
    ensures OnlyMessageOf(db, after, c)
  {
    assert c.Inbox().Some? ==> InboxLock(c.Inbox().value.key) in c.Held();
  }

  lemma OpeningIsNoReversal(wagers: map<Uuid, WagerState>, opening: WagerState, id: Uuid)
    requires opening.kind.Opening? && opening.id !in wagers
    ensures ReversalExists(wagers[opening.id := opening], id) <==> ReversalExists(wagers, id)
  {
    var after := wagers[opening.id := opening];
    if ReversalExists(wagers, id) {
      var r :| r in wagers && IsReversalOf(wagers[r], id);
      assert IsReversalOf(after[r], id);
    }
  }

  lemma ReadsSurviveOpening(db: Db, after: Db, pc: Pc)
    requires (pc.WalletHeld? || pc.RefRead? || pc.Viewed? || pc.Placed?) && ReadsOk(db, pc)
    requires forall id :: id in db.wallets ==> id in after.wallets && after.wallets[id] == db.wallets[id]
    requires forall id :: id in db.wagers ==> id in after.wagers && after.wagers[id] == db.wagers[id]
    requires forall id :: ReversalExists(after.wagers, id) <==> ReversalExists(db.wagers, id)
    ensures ReadsOk(after, pc)
  {
  }

  ghost predicate ApartFromCreate(env: Env, created: CreateEnv) {
    && env.wagerId != created.transactionId && env.entryId != created.entryId
    && env.firstEvent !in {created.firstEvent, created.secondEvent}
    && env.secondEvent !in {created.firstEvent, created.secondEvent}
  }

  /** Creation adds a wallet and an opening; it changes and reverses nothing. */
  ghost predicate Adds(db: Db, after: Db) {
    && (forall id :: id in db.wallets ==> id in after.wallets && after.wallets[id] == db.wallets[id])
    && (forall id :: id in db.wagers ==> id in after.wagers && after.wagers[id] == db.wagers[id])
    && (forall id :: id in after.wagers && id !in db.wagers ==> after.wagers[id].kind.Opening?)
    && (forall id :: ReversalExists(after.wagers, id) <==> ReversalExists(db.wagers, id))
    && after.inbox == db.inbox
  }

  lemma CreationAdds(db: Db, after: Db, wallet: WalletState, c: CreateCommand, created: CreateEnv)
    requires CreateEnvOk(db, created) && wallet.id !in db.wallets && after == WithWallet(db, wallet, c, created)
    ensures Adds(db, after)
  {
    forall id
      ensures ReversalExists(after.wagers, id) <==> ReversalExists(db.wagers, id)
    {
      if !wallet.balance.IsZero() { OpeningIsNoReversal(db.wagers, OpeningOf(wallet, created), id); }
    }
  }

  lemma EnvAfterCreation(db: Db, after: Db, wallet: WalletState, c: CreateCommand, created: CreateEnv, env: Env)
    requires CreateEnvOk(db, created) && after == WithWallet(db, wallet, c, created)
    requires EnvOk(db, env) && ApartFromCreate(env, created)
    ensures EnvOk(after, env)
  {
  }

  lemma AdditionStays(db: Db, after: Db, b: Client)
    requires Adds(db, after) && ClientOk(db, b) && EnvOk(after, b.env)
    ensures ClientOk(after, b)
  {
    if b.job.ProcessJob? {
      AdditionKeepsProcess(db, after, b.job.command, b.env, b.pc);
    } else {
      AdditionKeepsWorker(db, after, b.job.id, b.pc);
    }
  }

  /** Openings carry no key and no external identifier. */
  lemma OpeningsTakeNoKeys(db: Db, after: Db, c: ProcessCommand)
    requires Adds(db, after)
    ensures KeyFree(db.wagers, c.providerId, c.idempotencyKey) ==> KeyFree(after.wagers, c.providerId, c.idempotencyKey)
    ensures ExternalFree(db.wagers, c.providerId, c.externalId) ==> ExternalFree(after.wagers, c.providerId, c.externalId)
  {
  }

  lemma AdditionKeepsProcess(db: Db, after: Db, c: ProcessCommand, env: Env, pc: Pc)
    requires Adds(db, after) && ProcessOk(db, c, env, pc)
    ensures ProcessOk(after, c, env, pc)
  {
    OpeningsTakeNoKeys(db, after, c);
    if pc.WalletHeld? || pc.RefRead? || pc.Viewed? || pc.Placed? {
      ReadsSurviveOpening(db, after, pc);
    }
  }

  lemma AdditionKeepsWorker(db: Db, after: Db, id: Uuid, pc: Pc)
    requires Adds(db, after) && WorkerOk(db, id, pc)
    ensures WorkerOk(after, id, pc)
  {
    if pc.WalletHeld? || pc.RefRead? || pc.Viewed? {
      ReadsSurviveOpening(db, after, pc);
    }
  }

  lemma CreationStays(db: Db, after: Db, wallet: WalletState, c: CreateCommand, created: CreateEnv, b: Client)
    requires CreateEnvOk(db, created) && wallet.id !in db.wallets && after == WithWallet(db, wallet, c, created)
    requires ClientOk(db, b) && ApartFromCreate(b.env, created)
    ensures ClientOk(after, b)
  {
    CreationAdds(db, after, wallet, c, created);
    EnvAfterCreation(db, after, wallet, c, created, b.env);
    AdditionStays(db, after, b);
  }

  lemma CreatedWallet(db: Db, c: CreateCommand, env: CreateEnv)
    requires CreateOutcome(db, c, env).Ok?
    ensures CreateOutcome(db, c, env).value.1.id == env.walletId
    ensures CreateOutcome(db, c, env).value.0 == WithWallet(db, CreateOutcome(db, c, env).value.1, c, env)
  {
  }

  lemma CreateKeepsInv(s: State, s': State, c: CreateCommand, env: CreateEnv)
    requires Inv(s) && CreateWallet(s, s', c, env)
    ensures Inv(s')
  {
    var outcome := CreateOutcome(s.db, c, env);
    if outcome.Ok? {
      CreateKeepsValid(s.db, c, env);
      CreatedWallet(s.db, c, env);
      CreationKeepsOthers(s, outcome.value.0, outcome.value.1, c, env);
      SameClients(s, s');
    }
  }

  lemma SameClients(s: State, s': State)
    requires Exclusive(s.clients) && s'.clients == s.clients && Valid(s'.db)
    requires forall j :: j in s.clients ==> ClientOk(s'.db, s.clients[j])
    ensures Inv(s')
  {
  }

  lemma CreationKeepsOthers(s: State, after: Db, wallet: WalletState, c: CreateCommand, env: CreateEnv)
    requires CreateEnvOk(s.db, env) && wallet.id !in s.db.wallets && after == WithWallet(s.db, wallet, c, env)
    requires forall j :: j in s.clients ==> ClientOk(s.db, s.clients[j]) && ApartFromCreate(s.clients[j].env, env)
    ensures forall j :: j in s.clients ==> ClientOk(after, s.clients[j])
  {
    forall j | j in s.clients
      ensures ClientOk(after, s.clients[j])
    {
      CreationStays(s.db, after, wallet, c, env, s.clients[j]);
    }
  }

  // --- the whole ----------------------------------------------------------

  lemma NextKeepsInv(s: State, s': State, i: nat, action: Action, policy: Policy)
    requires Inv(s) && Next(s, s', i, action, policy)
    ensures Inv(s')
  {
    match action
    case BeginAction(job, env) => BeginKeepsInv(s, s', i, job, env);
    case StatementAction(statement) => StatementKeepsInv(s, s', i, statement);
    case CommitAction => CommitKeepsInv(s, s', i, policy);
    case ReplayAction => ReplayKeepsInv(s, s', i);
    case VanishAction => GoneKeepsInv(s, i);
    case CreateAction(c, env) => CreateKeepsInv(s, s', c, env);
  }

  lemma ProceedingClient(s: State, s': State, i: nat, statement: Statement)
    requires Proceeds(s, s', i, statement)
    ensures i in s.clients
  {
  }

  /** A statement that writes nothing keeps the invariant. */
  lemma StatementKeepsInv(s: State, s': State, i: nat, statement: Statement)
    requires Inv(s) && Proceeds(s, s', i, statement)
    ensures Inv(s')
  {
    ProceedingClient(s, s', i, statement);
    assert ClientOk(s.db, s.clients[i]);
    StatementMoves(s, s', i, statement);
    MovedKeepsInv(s, s', i);
  }

  ghost predicate SomeStep(s: State, s': State, policy: Policy) {
    exists i, action :: Next(s, s', i, action, policy)
  }

  /** The k-th state follows from the one before. */
  ghost predicate Follows(states: seq<State>, k: nat, policy: Policy)
    requires 0 < k < |states|
  {
    SomeStep(states[k - 1], states[k], policy)
  }

  /** States that follow one another from an empty database without calls. */
  ghost predicate Trace(states: seq<State>, policy: Policy) {
    && states != [] && states[0] == State(EMPTY, map[])
    && (forall k: nat :: 0 < k < |states| ==> Follows(states, k, policy))
  }

  /** Every reachable state of the interleaving has a valid database. */
  lemma {:induction false} ReachableIsValid(states: seq<State>, policy: Policy, k: nat)
    requires Trace(states, policy) && k < |states|
    ensures Inv(states[k])
    decreases k
  {
    if k == 0 {
      EmptyIsValid();
    } else {
      ReachableIsValid(states, policy, k - 1);
      assert Follows(states, k, policy);
      SomeStepKeepsInv(states[k - 1], states[k], policy);
    }
  }

  lemma SomeStepKeepsInv(s: State, s': State, policy: Policy)
    requires Inv(s) && SomeStep(s, s', policy)
    ensures Inv(s')
  {
    var i, action :| Next(s, s', i, action, policy);
    NextKeepsInv(s, s', i, action, policy);
  }
}
