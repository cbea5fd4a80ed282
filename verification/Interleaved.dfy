/**
 Whole interleavings: what module History, Waiting and Delivery prove of calls in
 sequence holds for calls that overlap statement by statement. Nothing committed is
 lost, waiting ends, answers stay, and every completed message has its transaction.
 */
module Interleaved {
  import opened Base
  import opened Backoff
  import opened MoneyValue
  import opened Domain
  import opened Contracts
  import opened Database
  import opened Decisions
  import opened Invariants
  import opened Preservation
  import opened Storage
  import opened Calls
  import opened Creation
  import opened History
  import opened Interleaving
  import opened Locking
  import Waiting
  import Delivery

  // --- one step -----------------------------------------------------------

  lemma StatementKeepsDb(s: State, s': State, i: nat, statement: Statement)
    requires Proceeds(s, s', i, statement)
    ensures s'.db == s.db
  {
  }

  /** Calls begin, read, lock and vanish without a trace in the database. */
  lemma QuietStep(s: State, s': State, i: nat, action: Action, policy: Policy)
    requires Next(s, s', i, action, policy) && (action.BeginAction? || action.StatementAction? || action.VanishAction?)
    ensures s'.db == s.db
  {
    if action.StatementAction? { StatementKeepsDb(s, s', i, action.statement); }
  }

  /** A replay writes to the inbox alone. */
  lemma ReplayTables(s: State, s': State, i: nat)
    requires CommitReplay(s, s', i)
    ensures s'.db == s.db.(inbox := s'.db.inbox)
  {
  }

  /** A creation does nothing, or adds a wallet with its opening. */
  lemma CreationTables(s: State, s': State, c: CreateCommand, env: CreateEnv)
    requires CreateWallet(s, s', c, env)
    ensures || s'.db == s.db
            || (&& CreateEnvOk(s.db, env) && CreateOutcome(s.db, c, env).Ok?
                && s'.db == WithWallet(s.db, CreateOutcome(s.db, c, env).value.1, c, env))
  {
    if CreateOutcome(s.db, c, env).Ok? { CreatedWallet(s.db, c, env); }
  }

  /** A commit adds to the database; terminal rows and completed messages stay. */
  lemma WrittenExtends(db: Db, c: Client, d: Decision)
    requires Valid(db) && ClientOk(db, c) && c.Ready() && Feasible(c.pc.w, c.pc.wallet, d)
    requires c.pc.w.walletId in db.wallets && db.wallets[c.pc.w.walletId] == c.pc.wallet
    requires Legal(db, c.pc.w, d, c.CommitMeta())
    ensures Extends(db, Written(db, c, d))
  {
    CommitExtends(db, c.pc.w, d, c.CommitMeta());
    WrittenTables(db, c, d);
    ReadyMessage(db, c);
    WrittenInbox(db, c, d);
    SameButInbox(db, Commit(db, c.pc.w, d, c.CommitMeta()), Written(db, c, d));
  }

  lemma ReadyMessage(db: Db, c: Client)
    requires ClientOk(db, c) && c.Ready()
    ensures MessageOpen(db, c.Inbox())
  {
  }

  /** Other messages stay, and the call's own message was not completed before. */
  ghost predicate InboxExtends(db: Db, after: Db) {
    forall k :: k in db.inbox ==>
      && k in after.inbox && after.inbox[k].body == db.inbox[k].body
      && (db.inbox[k].completedAt.Some? ==> after.inbox[k] == db.inbox[k])
  }

  lemma WrittenInbox(db: Db, c: Client, d: Decision)
    requires c.Ready() && Feasible(c.pc.w, c.pc.wallet, d) && MessageOpen(db, c.Inbox())
    ensures InboxExtends(db, Written(db, c, d))
  {
  }

  lemma SameButInbox(db: Db, plain: Db, after: Db)
    requires Extends(db, plain) && after == plain.(inbox := after.inbox) && InboxExtends(db, after)
    ensures Extends(db, after)
  {
  }

  lemma CommitExtendsDb(s: State, s': State, i: nat, policy: Policy)
    requires Inv(s) && CommitWrites(s, s', i, policy)
    ensures Extends(s.db, s'.db)
  {
    var c := s.clients[i];
    var d := c.Decided(policy);
    ExtendsItself(s.db);
    if s' != s.Gone(i) {
      ReadyIsLegal(s.db, c, policy);
      WrittenExtends(s.db, c, d.value);
    }
  }

  lemma ReplayExtendsDb(s: State, s': State, i: nat)
    requires Inv(s) && CommitReplay(s, s', i)
    ensures Extends(s.db, s'.db)
  {
    var c := s.clients[i];
    ExtendsItself(s.db);
    if c.pc.completes {
      assert ClientOk(s.db, c);
      ClaimExtends(s.db, c.Inbox(), c.env.now);
      CompletionExtends(s.db, ClaimedBy(s.db, c.Inbox(), c.env.now), c.Inbox(), c.env.now);
    }
  }

  /** No step of an interleaving loses or rewrites what was committed. */
  lemma NextExtends(s: State, s': State, i: nat, action: Action, policy: Policy)
    requires Inv(s) && Next(s, s', i, action, policy)
    ensures Extends(s.db, s'.db)
  {
    ExtendsItself(s.db);
    match action
    case BeginAction(job, env) =>
    case StatementAction(statement) => StatementKeepsDb(s, s', i, statement);
    case CommitAction => CommitExtendsDb(s, s', i, policy);
    case ReplayAction => ReplayExtendsDb(s, s', i);
    case VanishAction =>
    case CreateAction(c, env) => CreateExtends(s.db, c, env);
  }

  // --- attempts -----------------------------------------------------------

  /** A call holds only while attempts are left. */
  lemma DecidedAttempts(db: Db, c: Client, policy: Policy)
    requires ClientOk(db, c) && c.Ready() && policy.Valid() && c.pc.wallet.balance.minor >= 0
    requires AttemptsOk(db, policy.maxAttempts)
    ensures c.pc.w.attempts <= policy.maxAttempts
    ensures c.Decided(policy).Ok? && c.Decided(policy).value.Hold? ==> c.pc.w.attempts < policy.maxAttempts
  {
  }

  lemma CommitKeepsAttempts(s: State, s': State, i: nat, policy: Policy)
    requires Inv(s) && CommitWrites(s, s', i, policy) && AttemptsOk(s.db, policy.maxAttempts)
    ensures AttemptsOk(s'.db, policy.maxAttempts)
  {
    var c := s.clients[i];
    var d := c.Decided(policy);
    if s' != s.Gone(i) {
      ReadyReads(s.db, c);
      DecidedAttempts(s.db, c, policy);
      Waiting.CommitAttempts(s.db, c.pc.w, d.value, c.CommitMeta(), policy.maxAttempts);
      WrittenTables(s.db, c, d.value);
    }
  }

  lemma NextKeepsAttempts(s: State, s': State, i: nat, action: Action, policy: Policy)
    requires Inv(s) && Next(s, s', i, action, policy) && policy.Valid() && AttemptsOk(s.db, policy.maxAttempts)
    ensures AttemptsOk(s'.db, policy.maxAttempts)
  {
    match action
    case CommitAction => CommitKeepsAttempts(s, s', i, policy);
    case ReplayAction => ReplayTables(s, s', i);
    case CreateAction(c, env) => CreateKeepsAttempts(s, s', c, env, policy.maxAttempts);
    case _ => QuietStep(s, s', i, action, policy);
  }

  lemma CreateKeepsAttempts(s: State, s': State, c: CreateCommand, env: CreateEnv, most: nat)
    requires CreateWallet(s, s', c, env) && AttemptsOk(s.db, most)
    ensures AttemptsOk(s'.db, most)
  {
    CreationTables(s, s', c, env);
  }

  // --- waiting rows -------------------------------------------------------

  /** A step leaves a waiting row alone, or ends it, or uses up one attempt. */
  ghost predicate RowProgress(db: Db, after: Db, id: Uuid) {
    && id in db.wagers && id in after.wagers
    && (|| after.wagers[id] == db.wagers[id]
        || Waiting.Ended(after, id)
        || (Waiting.Waits(after, id) && after.wagers[id].attempts == db.wagers[id].attempts + 1))
  }

  lemma CommitProgress(s: State, s': State, i: nat, policy: Policy, id: Uuid)
    requires Inv(s) && CommitWrites(s, s', i, policy) && Waiting.Waits(s.db, id)
    ensures RowProgress(s.db, s'.db, id)
  {
    var c := s.clients[i];
    var d := c.Decided(policy);
    if s' != s.Gone(i) {
      ReadyReads(s.db, c);
      WrittenTables(s.db, c, d.value);
      ReadyRow(s.db, c, id);
      Waiting.CommitVisit(s.db, c.pc.w, d.value, c.CommitMeta(), id);
    }
  }

  lemma ReadyRow(db: Db, c: Client, id: Uuid)
    requires Readable(db) && ClientOk(db, c) && c.Ready() && id in db.wagers
    ensures c.pc.w.id == id ==> db.wagers[id] == c.pc.w
  {
  }

  lemma NextProgress(s: State, s': State, i: nat, action: Action, policy: Policy, id: Uuid)
    requires Inv(s) && Next(s, s', i, action, policy) && Waiting.Waits(s.db, id)
    ensures RowProgress(s.db, s'.db, id)
  {
    match action
    case CommitAction => CommitProgress(s, s', i, policy, id);
    case ReplayAction => ReplayTables(s, s', i);
    case CreateAction(c, env) => CreateLeavesRow(s, s', c, env, id);
    case _ => QuietStep(s, s', i, action, policy);
  }

  lemma CreateLeavesRow(s: State, s': State, c: CreateCommand, env: CreateEnv, id: Uuid)
    requires CreateWallet(s, s', c, env) && id in s.db.wagers
    ensures id in s'.db.wagers && s'.db.wagers[id] == s.db.wagers[id]
  {
    CreationTables(s, s', c, env);
  }

  // --- frozen balances ----------------------------------------------------

  lemma CommitEndsRow(s: State, s': State, i: nat, policy: Policy, id: Uuid)
    requires Inv(s) && CommitWrites(s, s', i, policy) && !Waiting.Ended(s.db, id) && Waiting.Ended(s'.db, id)
    ensures Waiting.EndsWithBalance(s'.db, id)
  {
    var c := s.clients[i];
    var d := c.Decided(policy).value;
    ReadyReads(s.db, c);
    WrittenTables(s.db, c, d);
    Waiting.CommitEnds(s.db, c.pc.w, d, c.CommitMeta(), id);
  }

  lemma CreateEndsRow(db: Db, c: CreateCommand, env: CreateEnv, id: Uuid)
    requires CreateEnvOk(db, env) && CreateOutcome(db, c, env).Ok?
    requires !Waiting.Ended(db, id) && Waiting.Ended(CreateOutcome(db, c, env).value.0, id)
    ensures Waiting.EndsWithBalance(CreateOutcome(db, c, env).value.0, id)
  {
  }

  /** The step that ends a row states the balance of its wallet as it leaves it. */
  lemma NextEnds(s: State, s': State, i: nat, action: Action, policy: Policy, id: Uuid)
    requires Inv(s) && Next(s, s', i, action, policy) && !Waiting.Ended(s.db, id) && Waiting.Ended(s'.db, id)
    ensures Waiting.EndsWithBalance(s'.db, id)
  {
    match action
    case CommitAction => CommitEndsRow(s, s', i, policy, id);
    case ReplayAction => ReplayTables(s, s', i);
    case CreateAction(c, env) => CreateEndsRow(s.db, c, env, id);
    case _ => QuietStep(s, s', i, action, policy);
  }

  // --- whole interleavings ------------------------------------------------

  /** One step of a trace, with its invariant. */
  lemma TraceStep(states: seq<State>, policy: Policy, k: nat) returns (i: nat, action: Action)
    requires Locking.Trace(states, policy) && k + 1 < |states|
    ensures Inv(states[k]) && Next(states[k], states[k + 1], i, action, policy)
  {
    ReachableIsValid(states, policy, k);
    assert Follows(states, k + 1, policy);
    i, action :| Next(states[k], states[k + 1], i, action, policy);
  }

  lemma ExtendsAt(states: seq<State>, policy: Policy, k: nat)
    requires Locking.Trace(states, policy) && k + 1 < |states|
    ensures Extends(states[k].db, states[k + 1].db)
  {
    var i, action := TraceStep(states, policy, k);
    NextExtends(states[k], states[k + 1], i, action, policy);
  }

  /** From any state of an interleaving to any later one, nothing committed is lost or rewritten. */
  lemma {:induction false} TraceExtends(states: seq<State>, policy: Policy, j: nat, k: nat)
    requires Locking.Trace(states, policy) && j <= k < |states|
    ensures Extends(states[j].db, states[k].db)
    decreases k
  {
    if j == k {
      ExtendsItself(states[j].db);
    } else {
      TraceExtends(states, policy, j, k - 1);
      ExtendsAt(states, policy, k - 1);
      ExtendsTransitive(states[j].db, states[k - 1].db, states[k].db);
    }
  }

  /** In every interleaving, attempts stay within the configured maximum. */
  lemma {:induction false} TraceAttempts(states: seq<State>, policy: Policy, k: nat)
    requires Locking.Trace(states, policy) && policy.Valid() && k < |states|
    ensures AttemptsOk(states[k].db, policy.maxAttempts)
    decreases k
  {
    if k > 0 {
      TraceAttempts(states, policy, k - 1);
      var i, action := TraceStep(states, policy, k - 1);
      NextKeepsAttempts(states[k - 1], states[k], i, action, policy);
    }
  }

  /** How often a row changed between two states. */
  ghost function Changes(states: seq<State>, id: Uuid, j: nat, k: nat): nat
    requires j <= k < |states|
    decreases k
  {
    if j == k then 0
    else Changes(states, id, j, k - 1) +
         (if Lookup(states[k].db.wagers, id) != Lookup(states[k - 1].db.wagers, id) then 1 else 0)
  }

  lemma ProgressCounts(db: Db, after: Db, id: Uuid, attempts: nat)
    requires Waiting.Waits(db, id) && db.wagers[id].attempts == attempts && RowProgress(db, after, id)
    ensures Waiting.WaitedFor(after, id, attempts + if Lookup(after.wagers, id) != Lookup(db.wagers, id) then 1 else 0)
  {
  }

  lemma EndedStays(db: Db, after: Db, id: Uuid)
    requires Waiting.Ended(db, id) && Extends(db, after)
    ensures Waiting.Ended(after, id) && after.wagers[id] == db.wagers[id]
  {
  }

  lemma ProgressAt(states: seq<State>, policy: Policy, id: Uuid, k: nat, attempts: nat)
    requires Locking.Trace(states, policy) && k + 1 < |states| && Waiting.WaitedFor(states[k].db, id, attempts)
    ensures Waiting.WaitedFor(states[k + 1].db, id,
                              attempts + if Lookup(states[k + 1].db.wagers, id) != Lookup(states[k].db.wagers, id) then 1 else 0)
  {
    var i, action := TraceStep(states, policy, k);
    if Waiting.Ended(states[k].db, id) {
      NextExtends(states[k], states[k + 1], i, action, policy);
      EndedStays(states[k].db, states[k + 1].db, id);
    } else {
      NextProgress(states[k], states[k + 1], i, action, policy, id);
      ProgressCounts(states[k].db, states[k + 1].db, id, attempts);
    }
  }

  /** While a row waits, each of its changes has used up one attempt. */
  lemma {:induction false} TraceVisits(states: seq<State>, policy: Policy, id: Uuid, j: nat, k: nat)
    requires Locking.Trace(states, policy) && j <= k < |states| && Waiting.Waits(states[j].db, id)
    ensures Waiting.WaitedFor(states[k].db, id, states[j].db.wagers[id].attempts + Changes(states, id, j, k))
    decreases k
  {
    if j < k {
      TraceVisits(states, policy, id, j, k - 1);
      ProgressAt(states, policy, id, k - 1, states[j].db.wagers[id].attempts + Changes(states, id, j, k - 1));
    }
  }

  /** In every interleaving, waiting ends: a row that changed more often than attempts were left is terminal. */
  lemma WaitingEndsInTrace(states: seq<State>, policy: Policy, id: Uuid, j: nat, k: nat)
    requires Locking.Trace(states, policy) && policy.Valid() && j <= k < |states| && Waiting.Waits(states[j].db, id)
    requires Changes(states, id, j, k) > policy.maxAttempts - states[j].db.wagers[id].attempts
    ensures Waiting.Ended(states[k].db, id)
  {
    TraceVisits(states, policy, id, j, k);
    TraceAttempts(states, policy, k);
  }

  /** A step either ended a row, with the balance of its wallet, or left the ended row as it was. */
  lemma EndsAt(states: seq<State>, policy: Policy, id: Uuid, k: nat)
    requires Locking.Trace(states, policy) && k + 1 < |states| && Waiting.Ended(states[k + 1].db, id)
    ensures if Waiting.Ended(states[k].db, id) then states[k + 1].db.wagers[id] == states[k].db.wagers[id]
            else Waiting.EndsWithBalance(states[k + 1].db, id)
  {
    var i, action := TraceStep(states, policy, k);
    if Waiting.Ended(states[k].db, id) {
      NextExtends(states[k], states[k + 1], i, action, policy);
    } else {
      NextEnds(states[k], states[k + 1], i, action, policy, id);
    }
  }

  /** In every interleaving, a terminal row states the balance of its wallet right after its own commit, which is found. */
  lemma {:induction false} TraceResult(states: seq<State>, policy: Policy, id: Uuid, k: nat) returns (n: nat)
    requires Locking.Trace(states, policy) && k < |states| && Waiting.Ended(states[k].db, id)
    ensures 0 < n <= k && !Waiting.Ended(states[n - 1].db, id) && Waiting.EndsWithBalance(states[n].db, id)
    ensures states[n].db.wagers[id] == states[k].db.wagers[id]
    decreases k
  {
    if k == 0 {
      assert false;
    } else {
      EndsAt(states, policy, id, k - 1);
      if Waiting.Ended(states[k - 1].db, id) {
        n := TraceResult(states, policy, id, k - 1);
      } else {
        n := k;
      }
    }
  }

  // --- replays and messages -----------------------------------------------

  /** The row a replay answers from carries the key and payload, and a terminal one is the committed row. */
  ghost predicate Known(db: Db, c: ProcessCommand, t: WagerState) {
    && t.id in db.wagers
    && HasKey(db.wagers[t.id], c.providerId, c.idempotencyKey) && db.wagers[t.id].payloadHash == Some(PayloadOf(c))
    && (t.status.Terminal() ==> db.wagers[t.id] == t)
  }

  ghost predicate IsReplay(c: Client) {
    c.job.ProcessJob? && (c.pc.Replaying? || c.pc.ReplayHeld?)
  }

  ghost predicate ReplaysOk(s: State) {
    forall i :: i in s.clients && IsReplay(s.clients[i]) ==> Known(s.db, s.clients[i].job.command, s.clients[i].pc.t)
  }

  lemma KnownLasts(db: Db, after: Db, c: ProcessCommand, t: WagerState)
    requires Known(db, c, t) && Extends(db, after)
    ensures Known(after, c, t)
  {
  }

  /** Only the search by key starts a replay, with the row it found. */
  lemma StatementReplays(s: State, s': State, i: nat, statement: Statement, j: nat)
    requires Readable(s.db) && ReplaysOk(s) && Proceeds(s, s', i, statement) && j in s'.clients && IsReplay(s'.clients[j])
    ensures Known(s.db, s'.clients[j].job.command, s'.clients[j].pc.t)
  {
    if j in s.clients && s'.clients[j] == s.clients[j] {
      assert IsReplay(s.clients[j]);
    } else if statement.FindByKey? {
      var c := s.clients[i].job.command;
      FoundIsKnown(s.db, c);
    }
  }

  lemma FoundIsKnown(db: Db, c: ProcessCommand)
    requires Readable(db)
    ensures var t := ByKey(db.wagers, c.providerId, c.idempotencyKey);
            t.Some? && t.value.payloadHash == Some(PayloadOf(c)) ==> Known(db, c, t.value)
  {
  }

  lemma NextKeepsReplays(s: State, s': State, i: nat, action: Action, policy: Policy)
    requires Inv(s) && ReplaysOk(s) && Next(s, s', i, action, policy)
    ensures ReplaysOk(s')
  {
    NextExtends(s, s', i, action, policy);
    forall j | j in s'.clients && IsReplay(s'.clients[j])
      ensures Known(s'.db, s'.clients[j].job.command, s'.clients[j].pc.t)
    {
      if action.StatementAction? {
        StatementReplays(s, s', i, action.statement, j);
      } else {
        SameReplay(s, s', i, action, policy, j);
      }
      KnownLasts(s.db, s'.db, s'.clients[j].job.command, s'.clients[j].pc.t);
    }
  }

  lemma SameReplay(s: State, s': State, i: nat, action: Action, policy: Policy, j: nat)
    requires Next(s, s', i, action, policy) && !action.StatementAction? && j in s'.clients && IsReplay(s'.clients[j])
    ensures j in s.clients && s.clients[j] == s'.clients[j]
  {
  }

  lemma ReplaysAt(states: seq<State>, policy: Policy, k: nat)
    requires Locking.Trace(states, policy) && k + 1 < |states| && ReplaysOk(states[k])
    ensures ReplaysOk(states[k + 1])
  {
    var i, action := TraceStep(states, policy, k);
    NextKeepsReplays(states[k], states[k + 1], i, action, policy);
  }

  lemma {:induction false} TraceReplays(states: seq<State>, policy: Policy, k: nat)
    requires Locking.Trace(states, policy) && k < |states|
    ensures ReplaysOk(states[k])
    decreases k
  {
    if k > 0 {
      TraceReplays(states, policy, k - 1);
      ReplaysAt(states, policy, k - 1);
    }
  }

  /** In every interleaving, a replay that found a terminal row answers with it, and every later state still has that row. */
  lemma ReplayAnswersForever(states: seq<State>, policy: Policy, j: nat, k: nat, i: nat)
    requires Locking.Trace(states, policy) && j <= k < |states| && i in states[j].clients && IsReplay(states[j].clients[i])
    requires states[j].clients[i].pc.t.status.Terminal()
    ensures var c, t := states[j].clients[i].job.command, states[j].clients[i].pc.t;
            && t.id in states[k].db.wagers && states[k].db.wagers[t.id] == t && t.walletId in states[k].db.wallets
            && HasKey(t, c.providerId, c.idempotencyKey) && t.payloadHash == Some(PayloadOf(c)) && t.result.Some?
            && ReplayOf(states[k].db, t) == ResultFrom(t, t.result.value, true)
  {
    TraceReplays(states, policy, j);
    TraceExtends(states, policy, j, k);
    ReachableIsValid(states, policy, k);
    KnownLasts(states[j].db, states[k].db, states[j].clients[i].job.command, states[j].clients[i].pc.t);
  }

  /** A call whose key is stored with another payload neither writes nor answers. */
  lemma OtherPayloadStops(db: Db, c: Client, id: Uuid)
    requires Valid(db) && ClientOk(db, c) && c.job.ProcessJob? && id in db.wagers
    requires IsReplay(c) ==> Known(db, c.job.command, c.pc.t)
    requires HasKey(db.wagers[id], c.job.command.providerId, c.job.command.idempotencyKey)
    requires db.wagers[id].payloadHash != Some(PayloadOf(c.job.command))
    ensures !c.Ready() && !IsReplay(c)
  {
    if IsReplay(c) {
      assert Obeys(db, KeyRule);
      KeyIsUnique(db, c.job.command.providerId, c.job.command.idempotencyKey, id);
      KeyIsUnique(db, c.job.command.providerId, c.job.command.idempotencyKey, c.pc.t.id);
    }
  }

  /**
   In every interleaving, once a row is stored, a call under its key with another payload is
   refused: at every later moment it is not about to write or answer, and its steps change no table.
   */
  lemma OtherPayloadRefusedForever(states: seq<State>, policy: Policy, j: nat, k: nat, i: nat, id: Uuid)
    requires Locking.Trace(states, policy) && j <= k < |states| && id in states[j].db.wagers && i in states[k].clients
    requires states[k].clients[i].job.ProcessJob?
    requires var c := states[k].clients[i].job.command;
             && HasKey(states[j].db.wagers[id], c.providerId, c.idempotencyKey)
             && states[j].db.wagers[id].payloadHash != Some(PayloadOf(c))
    ensures !states[k].clients[i].Ready() && !IsReplay(states[k].clients[i])
    ensures forall s', action :: Next(states[k], s', i, action, policy) && !action.CreateAction? ==> s'.db == states[k].db
  {
    TraceReplays(states, policy, k);
    TraceExtends(states, policy, j, k);
    ReachableIsValid(states, policy, k);
    var s := states[k];
    OtherPayloadStops(s.db, s.clients[i], id);
    forall s', action | Next(s, s', i, action, policy) && !action.CreateAction?
      ensures s'.db == s.db
    {
      IdleStep(s, s', i, action, policy);
    }
  }

  /** A call that is neither ready nor replaying writes nothing. */
  lemma IdleStep(s: State, s': State, i: nat, action: Action, policy: Policy)
    requires Next(s, s', i, action, policy) && !action.CreateAction?
    requires i in s.clients ==> !s.clients[i].Ready() && !IsReplay(s.clients[i])
    ensures s'.db == s.db
  {
    if action.BeginAction? || action.StatementAction? || action.VanishAction? { QuietStep(s, s', i, action, policy); }
  }

  /** Queue commands carry the body they were decoded from. */
  ghost predicate Transported(s: State) {
    forall i :: i in s.clients && s.clients[i].job.ProcessJob? ==> FromTransport(s.clients[i].job.command)
  }

  /** A message completed with its transaction leaves the inbox in order. */
  lemma CompletionKeepsInbox(db: Db, after: Db, c: ProcessCommand)
    requires Delivery.InboxOk(db) && Extends(db, after)
    requires CommandValid(c) && FromTransport(c) && Delivery.HasTransaction(after, c)
    requires c.inbox.Some? ==> InboxCompleted(after, c.inbox.value)
    requires forall key :: (c.inbox.None? || key != c.inbox.value.key) ==>
               (key in after.inbox <==> key in db.inbox) && (key in db.inbox ==> after.inbox[key] == db.inbox[key])
    ensures Delivery.InboxOk(after)
  {
    forall key | key in after.inbox
      ensures CommandOf(after.inbox[key].body).Some?
      ensures CommandOf(after.inbox[key].body).value.inbox.value.key == key
      ensures Delivery.Durable(after, CommandOf(after.inbox[key].body).value)
    {
      if !(c.inbox.Some? && key == c.inbox.value.key) {
        Delivery.DurableLasts(db, after, CommandOf(db.inbox[key].body).value);
      }
    }
  }

  lemma WrittenMessage(db: Db, c: Client, d: Decision)
    requires c.Ready() && Feasible(c.pc.w, c.pc.wallet, d) && MessageOpen(db, c.Inbox())
    ensures c.Inbox().Some? ==> InboxCompleted(Written(db, c, d), c.Inbox().value)
    ensures forall key :: (c.Inbox().None? || key != c.Inbox().value.key) ==>
              (key in Written(db, c, d).inbox <==> key in db.inbox) &&
              (key in db.inbox ==> Written(db, c, d).inbox[key] == db.inbox[key])
  {
  }

  lemma WrittenTransaction(db: Db, c: Client, d: Decision)
    requires c.Ready() && c.job.ProcessJob? && Feasible(c.pc.w, c.pc.wallet, d) && ClientOk(db, c)
    ensures Delivery.HasTransaction(Written(db, c, d), c.job.command)
  {
    var id := c.pc.w.id;
    assert id in Written(db, c, d).wagers;
    assert HasKey(Written(db, c, d).wagers[id], c.job.command.providerId, c.job.command.idempotencyKey);
  }

  lemma CommitKeepsInbox(s: State, s': State, i: nat, policy: Policy)
    requires Inv(s) && CommitWrites(s, s', i, policy) && Delivery.InboxOk(s.db) && Transported(s)
    ensures Delivery.InboxOk(s'.db)
  {
    var c := s.clients[i];
    CommitExtendsDb(s, s', i, policy);
    if s' != s.Gone(i) {
      var d := c.Decided(policy).value;
      ReadyMessage(s.db, c);
      WrittenMessage(s.db, c, d);
      if c.job.ProcessJob? {
        WrittenTransaction(s.db, c, d);
        CompletionKeepsInbox(s.db, s'.db, c.job.command);
      } else {
        Delivery.InboxOkLasts(s.db, s'.db);
      }
    }
  }

  lemma ReplayMessage(db: Db, inbox: Option<InboxInput>, now: Time)
    requires MessageOpen(db, inbox)
    ensures var after := CompletedBy(ClaimedBy(db, inbox, now), inbox, now);
            && after == db.(inbox := after.inbox)
            && (inbox.Some? ==> InboxCompleted(after, inbox.value))
            && (forall key :: (inbox.None? || key != inbox.value.key) ==>
                  (key in after.inbox <==> key in db.inbox) && (key in db.inbox ==> after.inbox[key] == db.inbox[key]))
  {
  }

  lemma KnownHasTransaction(db: Db, after: Db, c: ProcessCommand, t: WagerState)
    requires Known(db, c, t) && after.wagers == db.wagers
    ensures Delivery.HasTransaction(after, c)
  {
  }

  lemma ReplayKnows(s: State, i: nat)
    requires Inv(s) && ReplaysOk(s) && i in s.clients && IsReplay(s.clients[i])
    ensures Known(s.db, s.clients[i].job.command, s.clients[i].pc.t) && CommandValid(s.clients[i].job.command)
    ensures s.clients[i].pc.completes ==> MessageOpen(s.db, s.clients[i].Inbox())
  {
    assert ClientOk(s.db, s.clients[i]);
  }

  lemma ReplayKeepsInbox(s: State, s': State, i: nat)
    requires Inv(s) && ReplaysOk(s) && CommitReplay(s, s', i) && Delivery.InboxOk(s.db) && Transported(s)
    ensures Delivery.InboxOk(s'.db)
  {
    var c := s.clients[i];
    ReplayExtendsDb(s, s', i);
    ReplayKnows(s, i);
    if c.pc.completes {
      ReplayMessage(s.db, c.Inbox(), c.env.now);
      KnownHasTransaction(s.db, s'.db, c.job.command, c.pc.t);
      CompletionKeepsInbox(s.db, s'.db, c.job.command);
    }
  }

  /** No step leaves an inbox row that is incomplete or without its transaction. */
  lemma NextKeepsInbox(s: State, s': State, i: nat, action: Action, policy: Policy)
    requires Inv(s) && ReplaysOk(s) && Next(s, s', i, action, policy) && Delivery.InboxOk(s.db) && Transported(s)
    ensures Delivery.InboxOk(s'.db)
  {
    match action
    case CommitAction => CommitKeepsInbox(s, s', i, policy);
    case ReplayAction => ReplayKeepsInbox(s, s', i);
    case CreateAction(c, env) => CreateKeepsInbox(s, s', c, env);
    case _ => QuietStep(s, s', i, action, policy);
  }

  lemma CreateKeepsInbox(s: State, s': State, c: CreateCommand, env: CreateEnv)
    requires Inv(s) && CreateWallet(s, s', c, env) && Delivery.InboxOk(s.db)
    ensures Delivery.InboxOk(s'.db)
  {
    CreateExtends(s.db, c, env);
    ExtendsItself(s.db);
    Delivery.InboxOkLasts(s.db, s'.db);
  }

  lemma InboxAt(states: seq<State>, policy: Policy, k: nat)
    requires Locking.Trace(states, policy) && k + 1 < |states| && ReplaysOk(states[k]) && Transported(states[k])
    requires Delivery.InboxOk(states[k].db)
    ensures Delivery.InboxOk(states[k + 1].db)
  {
    var i, action := TraceStep(states, policy, k);
    NextKeepsInbox(states[k], states[k + 1], i, action, policy);
  }

  /** In every interleaving, each committed inbox row is complete and has its transaction. */
  lemma {:induction false} TraceInbox(states: seq<State>, policy: Policy, k: nat)
    requires Locking.Trace(states, policy) && k < |states| && forall n :: 0 <= n < |states| ==> Transported(states[n])
    ensures Delivery.InboxOk(states[k].db)
    decreases k
  {
    if k > 0 {
      TraceInbox(states, policy, k - 1);
      TraceReplays(states, policy, k - 1);
      InboxAt(states, policy, k - 1);
    }
  }
}
