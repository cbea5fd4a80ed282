/**
 Runs of the interleaving, and the calls that are interleaved with nobody: whatever a
 whole call does to the database, its statements do one after the other.
 */
module WholeCalls {
  import opened Base
  import opened Backoff
  import opened MoneyValue
  import opened Domain
  import opened Contracts
  import opened Database
  import opened Decisions
  import opened Invariants
  import opened Preservation
  import opened Storage
  import opened Calls
  import opened Creation
  import opened History
  import opened Interleaving
  import opened Locking
  import opened Atomicity

  // --- runs ---------------------------------------------------------------

  /** States that follow one another, from any state. */
  ghost predicate IsRun(states: seq<State>, policy: Policy) {
    states != [] && forall k: nat :: 0 < k < |states| ==> Follows(states, k, policy)
  }

  /** Some run goes from one state to another. */
  ghost predicate Leads(s: State, s': State, policy: Policy) {
    exists states :: IsRun(states, policy) && states[0] == s && states[|states| - 1] == s'
  }

  ghost predicate Reachable(s: State, policy: Policy) {
    Leads(State(EMPTY, map[]), s, policy)
  }

  lemma LeadsItself(s: State, policy: Policy)
    ensures Leads(s, s, policy)
  {
    assert IsRun([s], policy);
  }

  lemma StepLeads(from: State, s: State, s': State, i: nat, action: Action, policy: Policy)
    requires Leads(from, s, policy) && Next(s, s', i, action, policy)
    ensures Leads(from, s', policy)
  {
    var states :| IsRun(states, policy) && states[0] == from && states[|states| - 1] == s;
    var longer := states + [s'];
    assert SomeStep(s, s', policy);
    forall k: nat | 0 < k < |longer|
      ensures Follows(longer, k, policy)
    {
      if k < |states| { assert Follows(states, k, policy); }
    }
    assert IsRun(longer, policy) && longer[0] == from && longer[|longer| - 1] == s';
  }

  lemma LeadsTransitive(a: State, b: State, c: State, policy: Policy)
    requires Leads(a, b, policy) && Leads(b, c, policy)
    ensures Leads(a, c, policy)
  {
    var first :| IsRun(first, policy) && first[0] == a && first[|first| - 1] == b;
    var second :| IsRun(second, policy) && second[0] == b && second[|second| - 1] == c;
    var both := first + second[1..];
    forall k: nat | 0 < k < |both|
      ensures Follows(both, k, policy)
    {
      if k < |first| { assert Follows(first, k, policy); } else { assert Follows(second, k - |first| + 1, policy); }
    }
    assert IsRun(both, policy) && both[0] == a && both[|both| - 1] == c;
  }

  lemma {:induction false} RunKeepsInv(states: seq<State>, policy: Policy, k: nat)
    requires IsRun(states, policy) && Inv(states[0]) && k < |states|
    ensures Inv(states[k])
    decreases k
  {
    if k > 0 {
      RunKeepsInv(states, policy, k - 1);
      assert Follows(states, k, policy);
      SomeStepKeepsInv(states[k - 1], states[k], policy);
    }
  }

  lemma LeadsKeepsInv(s: State, s': State, policy: Policy)
    requires Leads(s, s', policy) && Inv(s)
    ensures Inv(s')
  {
    var states :| IsRun(states, policy) && states[0] == s && states[|states| - 1] == s';
    RunKeepsInv(states, policy, |states| - 1);
  }

  lemma ReachableInv(s: State, policy: Policy)
    requires Reachable(s, policy)
    ensures Inv(s)
  {
    EmptyIsValid();
    LeadsKeepsInv(State(EMPTY, map[]), s, policy);
  }

  // --- a call alone -------------------------------------------------------

  /** Nobody is at work. */
  function Quiet(db: Db): State {
    State(db, map[])
  }

  /** One call, and nobody else. */
  function Solo(db: Db, c: Client): State {
    State(db, map[0 := c])
  }

  lemma SoloGoes(db: Db, c: Client, pc: Pc)
    ensures Solo(db, c).Go(0, pc) == Solo(db, c.(pc := pc))
    ensures Solo(db, c).Gone(0) == Quiet(db)
    ensures forall lock :: Solo(db, c).Free(0, lock)
  {
    assert map[0 := c][0 := c.(pc := pc)] == map[0 := c.(pc := pc)];
    assert map[0 := c] - {0} == map[];
  }

  lemma SoloBegins(db: Db, job: Job, env: Env, policy: Policy)
    requires EnvOk(db, env) && (job.ProcessJob? ==> CommandValid(job.command))
    ensures Leads(Quiet(db), Solo(db, Client(job, env, Begun)), policy)
  {
    LeadsItself(Quiet(db), policy);
    StepLeads(Quiet(db), Quiet(db), Solo(db, Client(job, env, Begun)), 0, BeginAction(job, env), policy);
  }

  /** One statement of the call. */
  lemma SoloStep(db: Db, c: Client, pc: Pc, statement: Statement, policy: Policy)
    requires Leads(Quiet(db), Solo(db, c), policy)
    requires Proceeds(Solo(db, c), Solo(db, c).Go(0, pc), 0, statement)
    ensures Leads(Quiet(db), Solo(db, c.(pc := pc)), policy)
  {
    SoloGoes(db, c, pc);
    StepLeads(Quiet(db), Solo(db, c), Solo(db, c).Go(0, pc), 0, StatementAction(statement), policy);
  }

  /** Whatever a ready call decides, it can commit next. */
  lemma ReadyCommits(from: State, s: State, i: nat, policy: Policy)
    requires Leads(from, s, policy) && Inv(s) && policy.Valid() && i in s.clients && s.clients[i].Ready()
    ensures s.clients[i].pc.wallet.balance.minor >= 0
    ensures s.clients[i].Decided(policy).Ok? ==>
              Leads(from, State(Written(s.db, s.clients[i], s.clients[i].Decided(policy).value), s.clients - {i}), policy)
  {
    NoCommitRefused(s, i, policy);
    var d := s.clients[i].Decided(policy);
    if d.Ok? {
      var next := State(Written(s.db, s.clients[i], d.value), s.clients - {i});
      assert CommitWrites(s, next, i, policy);
      StepLeads(from, s, next, i, CommitAction, policy);
    }
  }

  /** A ready call that is alone commits what it decided. */
  lemma SoloCommits(db: Db, c: Client, policy: Policy)
    requires Leads(Quiet(db), Solo(db, c), policy) && Valid(db) && policy.Valid() && c.Ready()
    ensures ClientOk(db, c) && c.pc.wallet.balance.minor >= 0
    ensures c.Decided(policy).Ok? ==> Leads(Quiet(db), Quiet(Written(db, c, c.Decided(policy).value)), policy)
  {
    LeadsKeepsInv(Quiet(db), Solo(db, c), policy);
    assert ClientOk(db, Solo(db, c).clients[0]);
    ReadyCommits(Quiet(db), Solo(db, c), 0, policy);
    SoloGoes(db, c, c.pc);
  }

  // --- a new request ------------------------------------------------------

  /** A well-formed request about which nothing is stored yet, on a message that is still open. */
  ghost predicate IsFirst(db: Db, c: ProcessCommand, env: Env) {
    EnvOk(db, env) && CommandValid(c) && MessageOpen(db, c.inbox) && IsNew(db, c, env)
  }

  /** The statements up to the lock of the key. */
  lemma SoloKeys(db: Db, c: ProcessCommand, env: Env, policy: Policy)
    requires EnvOk(db, env) && CommandValid(c) && MessageOpen(db, c.inbox)
    ensures Leads(Quiet(db), Solo(db, Client(ProcessJob(c), env, Keyed)), policy)
  {
    var begun := Client(ProcessJob(c), env, Begun);
    SoloBegins(db, ProcessJob(c), env, policy);
    SoloGoes(db, begun, Open);
    SoloStep(db, begun, Open, ClaimInboxRow, policy);
    SoloGoes(db, begun.(pc := Open), Keyed);
    SoloStep(db, begun.(pc := Open), Keyed, AcquireKey, policy);
  }

  /** The statements up to the lock of the wallet. */
  lemma SoloLocks(db: Db, c: ProcessCommand, env: Env, policy: Policy)
    requires IsFirst(db, c, env)
    ensures var w := NewWager(NewExternalOf(c, env)).value;
            Leads(Quiet(db), Solo(db, Client(ProcessJob(c), env, WalletHeld(w, db.wallets[c.walletId]))), policy)
  {
    var keyed := Client(ProcessJob(c), env, Keyed);
    var held := WalletHeld(NewWager(NewExternalOf(c, env)).value, db.wallets[c.walletId]);
    SoloKeys(db, c, env, policy);
    SoloStep(db, keyed, Unknown, FindByKey, policy);
    SoloStep(db, keyed.(pc := Unknown), Distinct, FindByExternal, policy);
    SoloGoes(db, keyed.(pc := Distinct), held);
    SoloStep(db, keyed.(pc := Distinct), held, LockWalletRow, policy);
  }

  /** The call when its reads are done and its row is placed. */
  ghost function PlacedCall(db: Db, c: ProcessCommand, env: Env): Client
    requires IsFirst(db, c, env)
  {
    var w := NewWager(NewExternalOf(c, env)).value;
    var reference := ReferenceOf(db, w);
    Client(ProcessJob(c), env, Placed(w, db.wallets[c.walletId], reference, ReversedOf(db, reference)))
  }

  /** The two reads that a first call and a resolution share. */
  lemma SoloReads(db: Db, job: Job, env: Env, w: WagerState, wallet: WalletState, policy: Policy)
    requires !job.RecordJob? && Leads(Quiet(db), Solo(db, Client(job, env, WalletHeld(w, wallet))), policy)
    ensures var reference := ReferenceOf(db, w);
            Leads(Quiet(db), Solo(db, Client(job, env, Viewed(w, wallet, reference, ReversedOf(db, reference)))), policy)
  {
    var reference := ReferenceOf(db, w);
    var held, read := Client(job, env, WalletHeld(w, wallet)), RefRead(w, wallet, reference);
    SoloStep(db, held, read, FindReference, policy);
    SoloStep(db, held.(pc := read), Viewed(w, wallet, reference, ReversedOf(db, reference)), FindReversal, policy);
  }

  lemma SoloPlaces(db: Db, c: ProcessCommand, env: Env, policy: Policy)
    requires IsFirst(db, c, env)
    ensures Leads(Quiet(db), Solo(db, PlacedCall(db, c, env)), policy)
  {
    var placed := PlacedCall(db, c, env);
    var viewed := placed.(pc := Viewed(placed.pc.w, placed.pc.wallet, placed.pc.reference, placed.pc.reversed));
    SoloLocks(db, c, env, policy);
    SoloReads(db, ProcessJob(c), env, placed.pc.w, placed.pc.wallet, policy);
    SoloGoes(db, viewed, placed.pc);
    SoloStep(db, viewed, placed.pc, InsertRow, policy);
  }

  lemma NobodyOvertakes(db: Db, c: ProcessCommand, env: Env)
    requires IsFirst(db, c, env)
    ensures PlacedCall(db, c, env).Ready() && !Overtaken(db, PlacedCall(db, c, env))
  {
  }

  /** A new request, interleaved with nobody, commits what the whole call commits. */
  lemma SoloProcess(db: Db, c: ProcessCommand, env: Env, policy: Policy)
    requires Valid(db) && policy.Valid() && IsFirst(db, c, env) && ProcessOutcome(db, c, policy, env).Ok?
    ensures Leads(Quiet(db), Quiet(ProcessOutcome(db, c, policy, env).value.0), policy)
  {
    var call := PlacedCall(db, c, env);
    SoloPlaces(db, c, env, policy);
    NobodyOvertakes(db, c, env);
    SoloCommits(db, call, policy);
    ProcessAlone(db, call, policy);
    SteadyDecision(db, call, policy);
  }

  // --- a repeated request -------------------------------------------------

  /** A request whose transaction is stored, on a message that is still open. */
  ghost predicate IsRepeated(db: Db, c: ProcessCommand, env: Env) {
    && EnvOk(db, env) && CommandValid(c) && MessageOpen(db, c.inbox)
    && var existing := ByKey(db.wagers, c.providerId, c.idempotencyKey);
    && existing.Some? && existing.value.payloadHash == Some(PayloadOf(c))
    && (existing.value.result.None? ==> existing.value.walletId in db.wallets)
  }

  /** A repeated request completes its message and writes nothing else. */
  lemma SoloReplay(db: Db, c: ProcessCommand, env: Env, policy: Policy)
    requires IsRepeated(db, c, env)
    ensures Leads(Quiet(db), Quiet(CompletedBy(ClaimedBy(db, c.inbox, env.now), c.inbox, env.now)), policy)
  {
    var t := ByKey(db.wagers, c.providerId, c.idempotencyKey).value;
    var keyed := Client(ProcessJob(c), env, Keyed);
    var found := keyed.(pc := Replaying(t, true));
    SoloKeys(db, c, env, policy);
    SoloStep(db, keyed, found.pc, FindByKey, policy);
    if t.result.None? {
      var held := found.(pc := ReplayHeld(t, true, db.wallets[t.walletId]));
      SoloGoes(db, found, held.pc);
      SoloStep(db, found, held.pc, LockReplayWallet, policy);
      ReplayCommits(db, held, policy);
    } else {
      ReplayCommits(db, found, policy);
    }
  }

  lemma ReplayCommits(db: Db, c: Client, policy: Policy)
    requires Leads(Quiet(db), Solo(db, c), policy) && c.job.ProcessJob?
    requires (c.pc.Replaying? && c.pc.t.result.Some?) || c.pc.ReplayHeld?
    requires c.pc.completes
    ensures Leads(Quiet(db), Quiet(CompletedBy(ClaimedBy(db, c.Inbox(), c.env.now), c.Inbox(), c.env.now)), policy)
  {
    SoloGoes(db, c, c.pc);
    StepLeads(Quiet(db), Solo(db, c), Quiet(CompletedBy(ClaimedBy(db, c.Inbox(), c.env.now), c.Inbox(), c.env.now)), 0,
              ReplayAction, policy);
  }

  // --- the worker ---------------------------------------------------------

  ghost predicate Waiting(db: Db, id: Uuid) {
    id in db.wagers && db.wagers[id].status.PendingReference? && db.wagers[id].walletId in db.wallets
  }

  /** The statements up to the lock of the wallet. */
  lemma SoloHolds(db: Db, job: Job, env: Env, policy: Policy)
    requires !job.ProcessJob? && EnvOk(db, env) && Waiting(db, job.id)
    ensures var w := db.wagers[job.id];
            Leads(Quiet(db), Solo(db, Client(job, env, WalletHeld(w, db.wallets[w.walletId]))), policy)
  {
    var begun, w := Client(job, env, Begun), db.wagers[job.id];
    SoloBegins(db, job, env, policy);
    SoloGoes(db, begun, RowHeld(w));
    SoloStep(db, begun, RowHeld(w), LockTransactionRow, policy);
    SoloGoes(db, begun.(pc := RowHeld(w)), WalletHeld(w, db.wallets[w.walletId]));
    SoloStep(db, begun.(pc := RowHeld(w)), WalletHeld(w, db.wallets[w.walletId]), LockWalletOfRow, policy);
  }

  /** A resolution, interleaved with nobody, commits what the whole call commits. */
  lemma SoloResolve(db: Db, id: Uuid, env: Env, policy: Policy)
    requires Valid(db) && policy.Valid() && EnvOk(db, env) && Waiting(db, id) && ResolveOutcome(db, id, policy, env).Ok?
    ensures Leads(Quiet(db), Quiet(ResolveOutcome(db, id, policy, env).value), policy)
  {
    var w, wallet := db.wagers[id], db.wallets[db.wagers[id].walletId];
    var reference := ReferenceOf(db, w);
    var viewed := Client(ResolveJob(id), env, Viewed(w, wallet, reference, ReversedOf(db, reference)));
    SoloHolds(db, ResolveJob(id), env, policy);
    SoloReads(db, ResolveJob(id), env, w, wallet, policy);
    SoloCommits(db, viewed, policy);
    ResolveAlone(db, viewed, policy);
    SteadyDecision(db, viewed, policy);
    WorkerWrites(db, viewed, viewed.Decided(policy).value);
  }

  /** So does the record of a failure. */
  lemma SoloRecord(db: Db, id: Uuid, env: Env, policy: Policy)
    requires Valid(db) && policy.Valid() && EnvOk(db, env) && Waiting(db, id)
    ensures RecordOutcome(db, id, policy, env).Ok?
    ensures Leads(Quiet(db), Quiet(RecordOutcome(db, id, policy, env).value), policy)
  {
    var w := db.wagers[id];
    var held := Client(RecordJob(id), env, WalletHeld(w, db.wallets[w.walletId]));
    SoloHolds(db, RecordJob(id), env, policy);
    SoloCommits(db, held, policy);
    RecordAlone(db, held, policy);
    WorkerWrites(db, held, held.Decided(policy).value);
  }

  // --- every call ---------------------------------------------------------

  lemma SoloCreate(db: Db, c: CreateCommand, env: CreateEnv, policy: Policy)
    requires CreateEnvOk(db, env) && CreateOutcome(db, c, env).Ok?
    ensures Leads(Quiet(db), Quiet(CreateOutcome(db, c, env).value.0), policy)
  {
    LeadsItself(Quiet(db), policy);
    StepLeads(Quiet(db), Quiet(db), Quiet(CreateOutcome(db, c, env).value.0), 0, CreateAction(c, env), policy);
  }

  /** A successful Process replays, repeats or commits: with an open message, as one of the two runs above. */
  lemma ProcessCases(db: Db, c: ProcessCommand, policy: Policy, env: Env)
    requires Readable(db) && policy.Valid() && EnvOk(db, env) && ProcessOutcome(db, c, policy, env).Ok?
    ensures var after := ProcessOutcome(db, c, policy, env).value.0;
            || after == db || IsFirst(db, c, env)
            || (IsRepeated(db, c, env) && after == CompletedBy(ClaimedBy(db, c.inbox, env.now), c.inbox, env.now))
  {
    ProcessIsHandled(db, c, policy, env);
    if ProcessOutcome(db, c, policy, env).value.0 != db {
      ChangeIsHandled(db, c, policy, env);
      HandledOutcome(ClaimedBy(db, c.inbox, env.now), c, policy, env);
      SameRows(db, ClaimedBy(db, c.inbox, env.now), c, env);
    }
  }

  /** A call that changes the database has a valid command and an open message. */
  lemma ChangeIsHandled(db: Db, c: ProcessCommand, policy: Policy, env: Env)
    requires Readable(db) && policy.Valid() && ProcessOutcome(db, c, policy, env).Ok?
    requires ProcessOutcome(db, c, policy, env).value.0 != db
    ensures CommandValid(c) && MessageOpen(db, c.inbox)
  {
  }

  /** The claim of a message changes no row. */
  lemma SameRows(db: Db, claimed: Db, c: ProcessCommand, env: Env)
    requires Readable(db) && claimed == db.(inbox := claimed.inbox)
    ensures IsNew(claimed, c, env) <==> IsNew(db, c, env)
    ensures var existing := ByKey(db.wagers, c.providerId, c.idempotencyKey);
            existing.Some? ==> existing.value.walletId in db.wallets
  {
  }

  lemma ProcessInterleaves(db: Db, c: ProcessCommand, env: Env, policy: Policy)
    requires Valid(db) && policy.Valid() && EnvOk(db, env) && ProcessOutcome(db, c, policy, env).Ok?
    ensures Leads(Quiet(db), Quiet(ProcessOutcome(db, c, policy, env).value.0), policy)
  {
    ProcessCases(db, c, policy, env);
    if ProcessOutcome(db, c, policy, env).value.0 == db {
      LeadsItself(Quiet(db), policy);
    } else if IsFirst(db, c, env) {
      SoloProcess(db, c, env, policy);
    } else {
      SoloReplay(db, c, env, policy);
    }
  }

  /** Whatever a whole call leaves, its statements can leave. */
  lemma CallInterleaves(db: Db, op: Op, policy: Policy)
    requires Valid(db) && policy.Valid() && Possible(db, op)
    ensures Leads(Quiet(db), Quiet(Called(db, op, policy)), policy)
  {
    LeadsItself(Quiet(db), policy);
    match op
    case CreateOp(c, env) => if CreateOutcome(db, c, env).Ok? { SoloCreate(db, c, env, policy); }
    case ProcessOp(c, env) => if ProcessOutcome(db, c, policy, env).Ok? { ProcessInterleaves(db, c, env, policy); }
    case ResolveOp(id, env) =>
      if Waiting(db, id) && ResolveOutcome(db, id, policy, env).Ok? { SoloResolve(db, id, env, policy); }
    case RecordOp(id, env) => if Waiting(db, id) { SoloRecord(db, id, env, policy); }
    case CrashOp =>
  }

  /** Every sequence of whole calls is an interleaving of their statements. */
  lemma {:induction false} RunInterleaves(db: Db, ops: seq<Op>, policy: Policy)
    requires Valid(db) && policy.Valid()
    ensures Leads(Quiet(db), Quiet(Execute(db, ops, policy)), policy)
    decreases |ops|
  {
    if ops == [] {
      LeadsItself(Quiet(db), policy);
    } else {
      var before, op := Execute(db, ops[..|ops| - 1], policy), ops[|ops| - 1];
      RunInterleaves(db, ops[..|ops| - 1], policy);
      ExecuteKeepsValid(db, ops[..|ops| - 1], policy);
      if Possible(before, op) {
        CallInterleaves(before, op, policy);
        LeadsTransitive(Quiet(db), Quiet(before), Quiet(Called(before, op, policy)), policy);
      }
    }
  }
}
