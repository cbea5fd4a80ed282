/**
 Statement-level interleaving: any number of concurrent calls, each a sequence of
 statements that acquire row, advisory and index locks and read committed rows, with
 writes that become visible at commit. Crashes and errors release the locks
 (internal/application/wager_service.go, internal/infrastructure/postgres/store.go).
 */
module Interleaving {
  import opened Base
  import opened Backoff
  import opened MoneyValue
  import opened Domain
  import opened Contracts
  import opened Database
  import opened Decisions
  import opened Invariants
  import opened Preservation
  import opened Admission
  import opened Storage
  import opened Calls
  import opened Creation

  // --- clients ------------------------------------------------------------

  datatype Lock =
    | InboxLock(message: InboxKey)
    | KeyLock(provider: string, key: string)
    | RowLock(id: Uuid)
    | WalletLock(wallet: Uuid)
      // The entry of the external identifier index that an insert waits for.
    | EntryLock(provider: string, externalId: string)
  {
    function Rank(): nat {
      match this
      case InboxLock(_) => 0
      case KeyLock(_, _) => 1
      case RowLock(_) => 2
      case WalletLock(_) => 3
      case EntryLock(_, _) => 4
    }
  }

  datatype Job = ProcessJob(command: ProcessCommand) | ResolveJob(id: Uuid) | RecordJob(id: Uuid)

  /** Where a call is, with the values it has read so far. */
  datatype Pc =
    | Begun
      // Process: the message was completed before; it is open; the key is locked; no row has it; no row has the external id.
    | Repeated
    | Open
    | Keyed
    | Unknown
    | Distinct
      // Worker: the row is locked.
    | RowHeld(w: WagerState)
      // Both: the wallet is locked; the reference is read; the reversal query is answered.
    | WalletHeld(w: WagerState, wallet: WalletState)
    | RefRead(w: WagerState, wallet: WalletState, reference: Option<WagerState>)
    | Viewed(w: WagerState, wallet: WalletState, reference: Option<WagerState>, reversed: bool)
      // Process: the external identifier index has accepted the insert.
    | Placed(w: WagerState, wallet: WalletState, reference: Option<WagerState>, reversed: bool)
      // Process: the answer is a stored row, with its wallet locked if it is still open; the message may need completion.
    | Replaying(t: WagerState, completes: bool)
    | ReplayHeld(t: WagerState, completes: bool, wallet: WalletState)

  datatype Client = Client(job: Job, env: Env, pc: Pc) {
    function Inbox(): Option<InboxInput> {
      if job.ProcessJob? then job.command.inbox else None
    }

    function CommitMeta(): Meta {
      match job
      case ProcessJob(c) => ProcessMeta(c, env)
      case ResolveJob(id) => WorkerMeta(id, env)
      case RecordJob(id) => WorkerMeta(id, env)
    }

    /** The locks that a call holds. */
    function Held(): set<Lock> {
      match job
      case ProcessJob(c) =>
        var message: set<Lock> := if c.inbox.Some? && !pc.Begun? then {InboxLock(c.inbox.value.key)} else {};
        var key := {KeyLock(c.providerId, c.idempotencyKey)};
        (match pc
         case Begun => {}
         case Repeated => message
         case Open => message
         case RowHeld(_) => {}
         case WalletHeld(w, _) => message + key + {WalletLock(w.walletId)}
         case RefRead(w, _, _) => message + key + {WalletLock(w.walletId)}
         case Viewed(w, _, _, _) => message + key + {WalletLock(w.walletId)}
         case Placed(w, _, _, _) => message + key + {WalletLock(w.walletId), EntryLock(w.providerId, w.externalId)}
         case Replaying(_, completes) => message + if completes then key else {}
         case ReplayHeld(t, completes, _) => message + (if completes then key else {}) + {WalletLock(t.walletId)}
         case _ => message + key)
      case _ => WorkerLocks()
    }

    function WorkerLocks(): set<Lock>
      requires !job.ProcessJob?
    {
      match pc
      case RowHeld(w) => {RowLock(job.id)}
      case WalletHeld(w, _) => {RowLock(job.id), WalletLock(w.walletId)}
      case RefRead(w, _, _) => {RowLock(job.id), WalletLock(w.walletId)}
      case Viewed(w, _, _, _) => {RowLock(job.id), WalletLock(w.walletId)}
      case _ => {}
    }

    /** The lock that the next statement of a call has to acquire. */
    function Wants(): Option<Lock> {
      match job
      case ProcessJob(c) =>
        (match pc
         case Begun => if c.inbox.Some? then Some(InboxLock(c.inbox.value.key)) else None
         case Open => Some(KeyLock(c.providerId, c.idempotencyKey))
         case Distinct => Some(WalletLock(c.walletId))
         case Viewed(w, _, _, _) => Some(EntryLock(w.providerId, w.externalId))
         case Replaying(t, _) => if t.result.None? then Some(WalletLock(t.walletId)) else None
         case _ => None)
      case _ =>
        (match pc
         case Begun => Some(RowLock(job.id))
         case RowHeld(w) => Some(WalletLock(w.walletId))
         case _ => None)
    }

    /** All statements but the writes are done. */
    predicate Ready() {
      match job
      case ProcessJob(_) => pc.Placed?
      case ResolveJob(_) => pc.Viewed?
      case RecordJob(_) => pc.WalletHeld?
    }

    /** The decision from the values read. */
    function Decided(policy: Policy): (d: Result<Decision>)
      requires Ready() && policy.Valid() && pc.wallet.balance.minor >= 0
      ensures d.Ok? ==> Feasible(pc.w, pc.wallet, d.value)
    {
      match job
      case ProcessJob(_) => Decide(pc.w, pc.wallet, pc.reference, pc.reversed, policy, env.now)
      case ResolveJob(_) => DecideWithReference(pc.w, pc.wallet, pc.reference, pc.reversed, true, policy, env.now)
      case RecordJob(_) => Ok(DecideFailure(pc.w, policy, env.now))
    }
  }

  datatype State = State(db: Db, clients: map<nat, Client>) {
    /** Nobody else holds the lock. */
    ghost predicate Free(i: nat, lock: Option<Lock>) {
      lock.Some? ==> forall j :: j in clients && j != i ==> lock.value !in clients[j].Held()
    }

    function Go(i: nat, pc: Pc): State
      requires i in clients
    {
      this.(clients := clients[i := clients[i].(pc := pc)])
    }

    function Gone(i: nat): State {
      this.(clients := clients - {i})
    }
  }

  /** Identifiers are generated anew for every call. */
  predicate Apart(a: Env, b: Env) {
    && a.wagerId != b.wagerId && a.entryId != b.entryId
    && a.firstEvent != b.firstEvent && a.firstEvent != b.secondEvent
    && a.secondEvent != b.firstEvent && a.secondEvent != b.secondEvent
  }

  // --- statements ---------------------------------------------------------

  ghost predicate Begin(s: State, s': State, i: nat, job: Job, env: Env) {
    && i !in s.clients && EnvOk(s.db, env) && (job.ProcessJob? ==> CommandValid(job.command))
    && (forall j :: j in s.clients ==> Apart(env, s.clients[j].env))
    && s' == s.(clients := s.clients[i := Client(job, env, Begun)])
  }

  /** A crash, a cancelled context or a failed statement: locks are released, nothing is written. */
  ghost predicate Vanish(s: State, s': State, i: nat) {
    i in s.clients && s' == s.Gone(i)
  }

  ghost predicate ClaimInbox(s: State, s': State, i: nat) {
    && i in s.clients && s.clients[i].job.ProcessJob? && s.clients[i].pc.Begun?
    && s.Free(i, s.clients[i].Wants())
    && var inbox := s.clients[i].Inbox();
    && s' == if inbox.None? then s.Go(i, Open)
             else if InboxConflicts(s.db, inbox.value) then s.Gone(i)
             else if InboxCompleted(s.db, inbox.value) then s.Go(i, Repeated)
             else s.Go(i, Open)
  }

  ghost predicate LockKey(s: State, s': State, i: nat) {
    && i in s.clients && s.clients[i].job.ProcessJob? && s.clients[i].pc.Open?
    && s.Free(i, s.clients[i].Wants()) && s' == s.Go(i, Keyed)
  }

  ghost predicate FindKey(s: State, s': State, i: nat) {
    && i in s.clients && s.clients[i].job.ProcessJob? && (s.clients[i].pc.Keyed? || s.clients[i].pc.Repeated?)
    && var c := s.clients[i].job.command;
    && var existing := ByKey(s.db.wagers, c.providerId, c.idempotencyKey);
    && s' == if existing.Some? && existing.value.payloadHash == Some(PayloadOf(c))
             then s.Go(i, Replaying(existing.value, s.clients[i].pc.Keyed?))
             else if existing.None? && s.clients[i].pc.Keyed? then s.Go(i, Unknown)
             else s.Gone(i)
  }

  ghost predicate FindExternal(s: State, s': State, i: nat) {
    && i in s.clients && s.clients[i].job.ProcessJob? && s.clients[i].pc.Unknown?
    && var c := s.clients[i].job.command;
    && s' == if ByExternalId(s.db.wagers, c.providerId, c.externalId).None? then s.Go(i, Distinct) else s.Gone(i)
  }

  /** Process locks the wallet and makes its transaction. */
  ghost predicate LockWallet(s: State, s': State, i: nat) {
    && i in s.clients && s.clients[i].job.ProcessJob? && s.clients[i].pc.Distinct?
    && s.Free(i, s.clients[i].Wants())
    && var c := s.clients[i].job.command;
    && var made := NewWager(NewExternalOf(c, s.clients[i].env));
    && s' == if c.walletId in s.db.wallets && made.Ok? then s.Go(i, WalletHeld(made.value,
        s.db.wallets[c.walletId])) else s.Gone(i)
  }

  ghost predicate LockRow(s: State, s': State, i: nat) {
    && i in s.clients && !s.clients[i].job.ProcessJob? && s.clients[i].pc.Begun?
    && s.Free(i, s.clients[i].Wants())
    && var id := s.clients[i].job.id;
    && s' == if id in s.db.wagers && s.db.wagers[id].status.PendingReference? then s.Go(i,
        RowHeld(s.db.wagers[id])) else s.Gone(i)
  }

  ghost predicate LockRowWallet(s: State, s': State, i: nat) {
    && i in s.clients && !s.clients[i].job.ProcessJob? && s.clients[i].pc.RowHeld?
    && s.Free(i, s.clients[i].Wants())
    && var w := s.clients[i].pc.w;
    && s' == if w.walletId in s.db.wallets then s.Go(i, WalletHeld(w, s.db.wallets[w.walletId])) else s.Gone(i)
  }

  ghost predicate ReadReference(s: State, s': State, i: nat) {
    && i in s.clients && !s.clients[i].job.RecordJob? && s.clients[i].pc.WalletHeld?
    && var pc := s.clients[i].pc;
    && s' == s.Go(i, RefRead(pc.w, pc.wallet, ReferenceOf(s.db, pc.w)))
  }

  ghost predicate ReadReversal(s: State, s': State, i: nat) {
    && i in s.clients && s.clients[i].pc.RefRead?
    && var pc := s.clients[i].pc;
    && s' == s.Go(i, Viewed(pc.w, pc.wallet, pc.reference, ReversedOf(s.db, pc.reference)))
  }

  /** The insert passes the external identifier index, or fails with a conflict. */
  ghost predicate Place(s: State, s': State, i: nat) {
    && i in s.clients && s.clients[i].job.ProcessJob? && s.clients[i].pc.Viewed?
    && s.Free(i, s.clients[i].Wants())
    && var pc := s.clients[i].pc;
    && s' == if ByExternalId(s.db.wagers, pc.w.providerId, pc.w.externalId).None?
             then s.Go(i, Placed(pc.w, pc.wallet, pc.reference, pc.reversed)) else s.Gone(i)
  }

  /** The write set of a call, from the values it has read. */
  ghost function WriteOf(c: Client, d: Decision): Write
    requires c.Ready() && Feasible(c.pc.w, c.pc.wallet, d)
  {
    Effect(c.pc.w, c.pc.wallet, d, c.CommitMeta())
  }

  /** The writes, the version guard, the constraints and the deferred triggers; what they refuse is rolled back. */
  ghost predicate CommitWrites(s: State, s': State, i: nat, policy: Policy) {
    && i in s.clients && s.clients[i].Ready() && policy.Valid() && s.clients[i].pc.wallet.balance.minor >= 0
    && var c := s.clients[i];
    && var d := c.Decided(policy);
    && var claimed := ClaimedBy(s.db, c.Inbox(), c.env.now);
    && s' == if d.Ok? && GuardsAccept(claimed, WriteOf(c, d.value), c.CommitMeta().insert)
             then State(CompletedBy(Apply(claimed, WriteOf(c, d.value)), c.Inbox(), c.env.now), s.clients - {i})
             else s.Gone(i)
  }

  ghost predicate LockReplay(s: State, s': State, i: nat) {
    && i in s.clients && s.clients[i].job.ProcessJob? && s.clients[i].pc.Replaying? && s.clients[i].pc.t.result.None?
    && s.Free(i, s.clients[i].Wants())
    && var pc := s.clients[i].pc;
    && s' == if pc.t.walletId in s.db.wallets then s.Go(i, ReplayHeld(pc.t, pc.completes,
        s.db.wallets[pc.t.walletId])) else s.Gone(i)
  }

  /** A replay completes its message, if the message was not completed before. */
  ghost predicate CommitReplay(s: State, s': State, i: nat) {
    && i in s.clients && s.clients[i].job.ProcessJob?
    && var c := s.clients[i];
    && ((c.pc.Replaying? && c.pc.t.result.Some?) || c.pc.ReplayHeld?)
    && s' == if c.pc.completes
             then State(CompletedBy(ClaimedBy(s.db, c.Inbox(), c.env.now), c.Inbox(), c.env.now), s.clients - {i})
             else s.Gone(i)
  }

  /** Wallet creation takes no lock of another call. */
  ghost predicate CreateWallet(s: State, s': State, c: CreateCommand, env: CreateEnv) {
    && CreateEnvOk(s.db, env)
    && (forall j :: j in s.clients ==>
          && s.clients[j].env.wagerId != env.transactionId && s.clients[j].env.entryId != env.entryId
          && s.clients[j].env.firstEvent !in {env.firstEvent, env.secondEvent}
          && s.clients[j].env.secondEvent !in {env.firstEvent, env.secondEvent})
    && s' == if CreateOutcome(s.db, c, env).Ok? then s.(db := CreateOutcome(s.db, c, env).value.0) else s
  }

  /** The statements that write nothing that others could see. */
  datatype Statement =
    | ClaimInboxRow | AcquireKey | FindByKey | FindByExternal | LockWalletRow | LockTransactionRow | LockWalletOfRow
    | FindReference | FindReversal | InsertRow | LockReplayWallet

  ghost predicate Proceeds(s: State, s': State, i: nat, statement: Statement) {
    match statement
    case ClaimInboxRow => ClaimInbox(s, s', i)
    case AcquireKey => LockKey(s, s', i)
    case FindByKey => FindKey(s, s', i)
    case FindByExternal => FindExternal(s, s', i)
    case LockWalletRow => LockWallet(s, s', i)
    case LockTransactionRow => LockRow(s, s', i)
    case LockWalletOfRow => LockRowWallet(s, s', i)
    case FindReference => ReadReference(s, s', i)
    case FindReversal => ReadReversal(s, s', i)
    case InsertRow => Place(s, s', i)
    case LockReplayWallet => LockReplay(s, s', i)
  }

  datatype Action =
    | BeginAction(job: Job, env: Env)
    | StatementAction(statement: Statement)
    | CommitAction
    | ReplayAction
    | VanishAction
    | CreateAction(create: CreateCommand, created: CreateEnv)

  ghost predicate Next(s: State, s': State, i: nat, action: Action, policy: Policy) {
    match action
    case BeginAction(job, env) => Begin(s, s', i, job, env)
    case StatementAction(statement) => Proceeds(s, s', i, statement)
    case CommitAction => CommitWrites(s, s', i, policy)
    case ReplayAction => CommitReplay(s, s', i)
    case VanishAction => Vanish(s, s', i)
    case CreateAction(c, env) => CreateWallet(s, s', c, env)
  }

  // --- what a call knows --------------------------------------------------

  ghost predicate MessageOpen(db: Db, inbox: Option<InboxInput>) {
    inbox.Some? ==> !InboxConflicts(db, inbox.value) && !InboxCompleted(db, inbox.value)
  }

  ghost predicate KeyFree(wagers: map<Uuid, WagerState>, provider: string, key: string) {
    forall id :: id in wagers ==> !HasKey(wagers[id], provider, key)
  }

  ghost predicate ExternalFree(wagers: map<Uuid, WagerState>, provider: string, externalId: string) {
    forall id :: id in wagers ==> !HasExternalId(wagers[id], provider, externalId)
  }

  /** A terminal reference is as it was read. */
  ghost predicate RefOk(wagers: map<Uuid, WagerState>, w: WagerState, reference: Option<WagerState>) {
    reference.Some? && reference.value.status.Terminal() ==>
      && reference.value.id != NO_ID && reference.value.id in wagers && wagers[reference.value.id] == reference.value
      && HasExternalId(reference.value, w.providerId, w.referenceExternalId)
  }

  /** While the wallet is locked, the row read is the committed row, and so are terminal references and their reversals. */
  ghost predicate ReadsOk(db: Db, pc: Pc)
    requires pc.WalletHeld? || pc.RefRead? || pc.Viewed? || pc.Placed?
  {
    && pc.w.walletId in db.wallets && db.wallets[pc.w.walletId] == pc.wallet
    && (!pc.WalletHeld? ==> RefOk(db.wagers, pc.w, pc.reference))
    && (pc.Viewed? || pc.Placed? ==> ViewOk(db.wagers, pc.w, pc.reference, pc.reversed))
  }

  ghost predicate ProcessOk(db: Db, c: ProcessCommand, env: Env, pc: Pc) {
    && CommandValid(c) && !pc.RowHeld?
    && (!pc.Begun? && !pc.Repeated? && !((pc.Replaying? || pc.ReplayHeld?) && !pc.completes) ==> MessageOpen(db, c.inbox))
    && (pc.Unknown? || pc.Distinct? ==> KeyFree(db.wagers, c.providerId, c.idempotencyKey))
    && (pc.WalletHeld? || pc.RefRead? || pc.Viewed? || pc.Placed? ==>
          && KeyFree(db.wagers, c.providerId, c.idempotencyKey)
          && NewWager(NewExternalOf(c, env)) == Ok(pc.w)
          && ReadsOk(db, pc))
    && (pc.Placed? ==> ExternalFree(db.wagers, c.providerId, c.externalId))
  }

  ghost predicate WorkerOk(db: Db, id: Uuid, pc: Pc) {
    && (pc.Begun? || pc.RowHeld? || pc.WalletHeld? || pc.RefRead? || pc.Viewed?)
    && (!pc.Begun? ==> id in db.wagers && db.wagers[id] == pc.w && pc.w.status.PendingReference?)
    && (pc.WalletHeld? || pc.RefRead? || pc.Viewed? ==> ReadsOk(db, pc))
  }

  ghost predicate ClientOk(db: Db, c: Client) {
    && EnvOk(db, c.env)
    && (match c.job
        case ProcessJob(command) => ProcessOk(db, command, c.env, c.pc)
        case ResolveJob(id) => WorkerOk(db, id, c.pc)
        case RecordJob(id) => WorkerOk(db, id, c.pc) && !c.pc.RefRead? && !c.pc.Viewed?)
  }

  /** Locks are exclusive, identifiers are apart, every call knows what it believes, and the database is valid. */
  ghost predicate Inv(s: State) {
    && Valid(s.db)
    && (forall i :: i in s.clients ==> ClientOk(s.db, s.clients[i]))
    && Exclusive(s.clients)
  }

  ghost predicate Exclusive(clients: map<nat, Client>) {
    forall i, j :: i in clients && j in clients && i != j ==>
      clients[i].Held() !! clients[j].Held() && Apart(clients[i].env, clients[j].env)
  }
}
