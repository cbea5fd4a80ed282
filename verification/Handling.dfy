/**
 Delivery when the handling of a message is a call among others, interleaved statement by
 statement: a message is deleted only after its call has committed, and what is deleted
 is durable (internal/infrastructure/messaging/consumer.go, application/wager_service.go).
 */
module Handling {
  import opened Base
  import opened Backoff
  import opened Contracts
  import opened Database
  import opened Decisions
  import opened Invariants
  import opened Storage
  import opened Calls
  import opened Creation
  import opened History
  import opened Interleaving
  import opened Locking
  import opened Interleaved
  import Envelopes
  import Delivery

  // --- the protocol -------------------------------------------------------

  /** What a consumer is doing: nothing, waiting for its call, or about to delete a handled message. */
  datatype Consumer = Idle | Busy(message: nat, body: Body, call: nat) | Done(message: nat, body: Body)

  /** The calls in progress, the queue, its dead letters, what was deleted so far, and the consumers. */
  datatype System = System(
    calls: State, queue: map<nat, Body>, dead: map<nat, Body>, deleted: map<nat, Body>, consumers: map<nat, Consumer>) {

    function Now(consumer: nat, doing: Consumer): System {
      this.(consumers := consumers[consumer := doing])
    }
  }

  ghost predicate Send(s: System, s': System, message: nat, body: Body) {
    && message !in s.queue && message !in s.dead && message !in s.deleted
    && (forall w :: w in s.consumers && !s.consumers[w].Idle? ==> s.consumers[w].message != message)
    && s' == s.(queue := s.queue[message := body])
  }

  /** A delivered body that decodes begins a call; other consumers may be at work on the same message. */
  ghost predicate Receive(s: System, s': System, consumer: nat, message: nat, call: nat, env: Env) {
    && consumer in s.consumers && s.consumers[consumer].Idle? && message in s.queue
    && CommandOf(s.queue[message]).Some?
    && Begin(s.calls, s'.calls, call, ProcessJob(CommandOf(s.queue[message]).value), env)
    && s' == s.(calls := s'.calls).Now(consumer, Busy(message, s.queue[message], call))
  }

  /** The call ends with success: it has committed its writes, or answered from a stored row. */
  ghost predicate Succeeds(before: State, after: State, call: nat, action: Action) {
    call !in after.clients && (action.ReplayAction? || (action.CommitAction? && after.db != before.db))
  }

  /** A consumer hears of the end of its own call. */
  ghost function Told(consumer: Consumer, before: State, after: State, call: nat, action: Action): Consumer {
    if !consumer.Busy? || consumer.call != call || call in after.clients then consumer
    else if Succeeds(before, after, call, action) then Done(consumer.message, consumer.body)
    else Idle
  }

  /** A statement, commit or end of any call; calls that are begun here come from HTTP and from the worker. */
  ghost predicate Advance(s: System, s': System, call: nat, action: Action, policy: Policy) {
    && Next(s.calls, s'.calls, call, action, policy)
    && (action.BeginAction? && action.job.ProcessJob? ==> action.job.command.inbox.None?)
    && s' == s.(calls := s'.calls,
                consumers := map w | w in s.consumers :: Told(s.consumers[w], s.calls, s'.calls, call, action))
  }

  /** The delete request reaches the queue, or not. */
  ghost predicate Delete(s: System, s': System, consumer: nat, arrives: bool) {
    && consumer in s.consumers && s.consumers[consumer].Done?
    && var doing := s.consumers[consumer];
    && s' == (if arrives && doing.message in s.queue
              then s.(queue := s.queue - {doing.message}, deleted := s.deleted[doing.message := doing.body])
              else s).Now(consumer, Idle)
  }

  /** The consumer stops; a call that it had begun may still commit or vanish. */
  ghost predicate Crash(s: System, s': System, consumer: nat) {
    s' == s.Now(consumer, Idle)
  }

  ghost predicate DeadLetter(s: System, s': System, message: nat) {
    && message in s.queue
    && s' == s.(queue := s.queue - {message}, dead := s.dead[message := s.queue[message]])
  }

  datatype Event =
    | SendEvent(message: nat, body: Body)
    | ReceiveEvent(consumer: nat, message: nat, call: nat, env: Env)
    | AdvanceEvent(call: nat, action: Action)
    | DeleteEvent(consumer: nat, arrives: bool)
    | CrashEvent(consumer: nat)
    | DeadLetterEvent(message: nat)

  ghost predicate Step(s: System, s': System, event: Event, policy: Policy) {
    match event
    case SendEvent(message, body) => Send(s, s', message, body)
    case ReceiveEvent(consumer, message, call, env) => Receive(s, s', consumer, message, call, env)
    case AdvanceEvent(call, action) => Advance(s, s', call, action, policy)
    case DeleteEvent(consumer, arrives) => Delete(s, s', consumer, arrives)
    case CrashEvent(consumer) => Crash(s, s', consumer)
    case DeadLetterEvent(message) => DeadLetter(s, s', message)
  }

  // --- what a call about a message knows ----------------------------------

  /** The call has seen that its message was completed before. */
  ghost predicate SawCompletion(c: Client) {
    c.job.ProcessJob? && (c.pc.Repeated? || (IsReplay(c) && !c.pc.completes))
  }

  ghost predicate CompletionsOk(s: State) {
    forall i :: i in s.clients && SawCompletion(s.clients[i]) ==>
      s.clients[i].Inbox().Some? && InboxCompleted(s.db, s.clients[i].Inbox().value)
  }

  /** Only the claim of the message, and then the search by key, let a call know of the completion. */
  lemma StatementCompletions(s: State, s': State, i: nat, statement: Statement, j: nat)
    requires CompletionsOk(s) && Proceeds(s, s', i, statement) && j in s'.clients && SawCompletion(s'.clients[j])
    ensures s'.clients[j].Inbox().Some? && InboxCompleted(s.db, s'.clients[j].Inbox().value)
  {
    if j in s.clients && s'.clients[j] == s.clients[j] {
      assert SawCompletion(s.clients[j]);
    } else {
      assert j == i && s'.clients[i].job == s.clients[i].job;
      assert statement.ClaimInboxRow? || SawCompletion(s.clients[i]);
    }
  }

  lemma SameCompletion(s: State, s': State, i: nat, action: Action, policy: Policy, j: nat)
    requires Next(s, s', i, action, policy) && !action.StatementAction? && j in s'.clients && SawCompletion(s'.clients[j])
    ensures j in s.clients && s.clients[j] == s'.clients[j]
  {
  }

  lemma CompletionLasts(db: Db, after: Db, input: InboxInput)
    requires InboxCompleted(db, input) && Extends(db, after)
    ensures InboxCompleted(after, input)
  {
  }

  lemma NextKeepsCompletions(s: State, s': State, i: nat, action: Action, policy: Policy)
    requires Inv(s) && CompletionsOk(s) && Next(s, s', i, action, policy)
    ensures CompletionsOk(s')
  {
    NextExtends(s, s', i, action, policy);
    forall j | j in s'.clients && SawCompletion(s'.clients[j])
      ensures s'.clients[j].Inbox().Some? && InboxCompleted(s'.db, s'.clients[j].Inbox().value)
    {
      if action.StatementAction? {
        StatementCompletions(s, s', i, action.statement, j);
      } else {
        SameCompletion(s, s', i, action, policy, j);
      }
      CompletionLasts(s.db, s'.db, s'.clients[j].Inbox().value);
    }
  }

  // --- the invariant ------------------------------------------------------

  /** What holds of the calls, whoever began them. */
  ghost predicate CallsOk(s: State) {
    Inv(s) && ReplaysOk(s) && CompletionsOk(s) && Transported(s) && Delivery.InboxOk(s.db)
  }

  /** A busy consumer waits for a call about its body. */
  ghost predicate Linked(s: System) {
    forall w :: w in s.consumers && s.consumers[w].Busy? ==>
      && CommandOf(s.consumers[w].body).Some? && s.consumers[w].call in s.calls.clients
      && s.calls.clients[s.consumers[w].call].job == ProcessJob(CommandOf(s.consumers[w].body).value)
  }

  /** Deleted messages, and those about to be deleted, are durable; bodies are not confused. */
  ghost predicate Settled(s: System, durable: iset<Body>) {
    && (forall m :: m in s.deleted ==> s.deleted[m] in durable)
    && (forall w :: w in s.consumers && s.consumers[w].Done? ==> s.consumers[w].body in durable)
    && (forall w :: w in s.consumers && !s.consumers[w].Idle? && s.consumers[w].message in s.queue ==>
          s.consumers[w].body == s.queue[s.consumers[w].message])
  }

  /** The parts of the invariant, by what they speak of. */
  datatype Part = CallPart | LinkPart | QueuePart

  ghost predicate Holds(s: System, part: Part) {
    match part
    case CallPart => CallsOk(s.calls)
    case LinkPart => Linked(s)
    case QueuePart => Settled(s, Delivery.DurableBodies(s.calls.db))
  }

  ghost predicate SystemOk(s: System) {
    forall part: Part :: Holds(s, part)
  }

  lemma SystemMeans(s: System)
    requires SystemOk(s)
    ensures CallsOk(s.calls) && Linked(s) && Settled(s, Delivery.DurableBodies(s.calls.db))
  {
    assert Holds(s, CallPart) && Holds(s, LinkPart) && Holds(s, QueuePart);
  }

  lemma PartsMakeOk(s: System)
    requires CallsOk(s.calls) && Linked(s) && Settled(s, Delivery.DurableBodies(s.calls.db))
    ensures SystemOk(s)
  {
    forall part: Part
      ensures Holds(s, part)
    {
      match part
      case _ =>
    }
  }

  lemma NextKeepsTransported(s: State, s': State, i: nat, action: Action, policy: Policy)
    requires Transported(s) && Next(s, s', i, action, policy)
    requires action.BeginAction? && action.job.ProcessJob? ==> FromTransport(action.job.command)
    ensures Transported(s')
  {
    forall j | j in s'.clients && s'.clients[j].job.ProcessJob?
      ensures FromTransport(s'.clients[j].job.command)
    {
      SameJob(s, s', i, action, policy, j);
    }
  }

  /** A call keeps its job. */
  lemma SameJob(s: State, s': State, i: nat, action: Action, policy: Policy, j: nat)
    requires Next(s, s', i, action, policy) && j in s'.clients
    ensures if j in s.clients then s'.clients[j].job == s.clients[j].job
            else action.BeginAction? && j == i && s'.clients[j].job == action.job
  {
    if action.StatementAction? { StatementKeepsJobs(s, s', i, action.statement, j); }
  }

  lemma StatementKeepsJobs(s: State, s': State, i: nat, statement: Statement, j: nat)
    requires Proceeds(s, s', i, statement) && j in s'.clients
    ensures j in s.clients && s'.clients[j].job == s.clients[j].job
  {
  }

  lemma NextKeepsCalls(s: State, s': State, i: nat, action: Action, policy: Policy)
    requires CallsOk(s) && Next(s, s', i, action, policy)
    requires action.BeginAction? && action.job.ProcessJob? ==> FromTransport(action.job.command)
    ensures CallsOk(s') && Extends(s.db, s'.db)
  {
    NextKeepsInv(s, s', i, action, policy);
    NextExtends(s, s', i, action, policy);
    NextKeepsReplays(s, s', i, action, policy);
    NextKeepsCompletions(s, s', i, action, policy);
    NextKeepsTransported(s, s', i, action, policy);
    NextKeepsInbox(s, s', i, action, policy);
  }

  // --- the end of a call --------------------------------------------------

  lemma WritesAreDurable(s: State, s': State, i: nat, policy: Policy)
    requires CallsOk(s) && CommitWrites(s, s', i, policy) && s'.db != s.db
    requires s.clients[i].job.ProcessJob? && s.clients[i].job.command.inbox.Some?
    ensures Delivery.Durable(s'.db, s.clients[i].job.command)
  {
    var c := s.clients[i];
    var d := c.Decided(policy).value;
    assert ClientOk(s.db, c);
    ReadyMessage(s.db, c);
    Interleaved.WrittenMessage(s.db, c, d);
    WrittenTransaction(s.db, c, d);
  }

  lemma AnswersAreDurable(s: State, s': State, i: nat)
    requires CallsOk(s) && CommitReplay(s, s', i) && s.clients[i].job.command.inbox.Some?
    ensures Delivery.Durable(s'.db, s.clients[i].job.command)
  {
    var c := s.clients[i];
    ReplayKnows(s, i);
    ReplayTables(s, s', i);
    KnownHasTransaction(s.db, s'.db, c.job.command, c.pc.t);
    if c.pc.completes {
      ReplayMessage(s.db, c.Inbox(), c.env.now);
    } else {
      assert SawCompletion(c);
    }
  }

  /** A call about a message that succeeds leaves the message durable. */
  lemma SuccessIsDurable(s: State, s': State, i: nat, action: Action, policy: Policy, body: Body)
    requires CallsOk(s) && Next(s, s', i, action, policy) && Succeeds(s, s', i, action) && i in s.clients
    requires CommandOf(body).Some? && s.clients[i].job == ProcessJob(CommandOf(body).value)
    ensures body in Delivery.DurableBodies(s'.db)
  {
    Delivery.CommandCarriesBody(body);
    if action.ReplayAction? { AnswersAreDurable(s, s', i); } else { WritesAreDurable(s, s', i, policy); }
    Delivery.DurableBody(s'.db, body);
  }

  // --- every step ---------------------------------------------------------

  lemma AdvanceKeepsLinked(s: System, s': System, call: nat, action: Action, policy: Policy)
    requires Linked(s) && Advance(s, s', call, action, policy)
    ensures Linked(s')
  {
    forall w | w in s'.consumers && s'.consumers[w].Busy?
      ensures s'.consumers[w] == s.consumers[w] && s.consumers[w].call in s'.calls.clients
      ensures s'.calls.clients[s.consumers[w].call].job == s.calls.clients[s.consumers[w].call].job
    {
      ToldBusy(s.consumers[w], s.calls, s'.calls, call, action);
      OthersStayAlive(s.calls, s'.calls, call, action, policy, s.consumers[w].call);
      SameJob(s.calls, s'.calls, call, action, policy, s.consumers[w].call);
    }
  }

  /** A consumer stays busy exactly while its call goes on. */
  lemma ToldBusy(consumer: Consumer, before: State, after: State, call: nat, action: Action)
    ensures Told(consumer, before, after, call, action).Busy? ==>
              && Told(consumer, before, after, call, action) == consumer
              && (consumer.call != call || call in after.clients)
    ensures Told(consumer, before, after, call, action).Done? && consumer.Busy? ==>
              && Told(consumer, before, after, call, action) == Done(consumer.message, consumer.body)
              && consumer.call == call && Succeeds(before, after, call, action)
    ensures !consumer.Busy? ==> Told(consumer, before, after, call, action) == consumer
    ensures var told := Told(consumer, before, after, call, action);
            !told.Idle? ==> !consumer.Idle? && told.message == consumer.message && told.body == consumer.body
  {
  }

  /** A step ends no call but its own. */
  lemma OthersStayAlive(s: State, s': State, i: nat, action: Action, policy: Policy, j: nat)
    requires Next(s, s', i, action, policy) && j in s.clients
    ensures j != i || action.CreateAction? ==> j in s'.clients
  {
    if action.StatementAction? && j != i { StatementEndsOwn(s, s', i, action.statement, j); }
  }

  lemma StatementEndsOwn(s: State, s': State, i: nat, statement: Statement, j: nat)
    requires Proceeds(s, s', i, statement) && j in s.clients && j != i
    ensures j in s'.clients
  {
  }

  lemma AdvanceKeepsSettled(s: System, s': System, call: nat, action: Action, policy: Policy)
    requires CallsOk(s.calls) && Linked(s) && Settled(s, Delivery.DurableBodies(s.calls.db))
    requires Advance(s, s', call, action, policy) && Extends(s.calls.db, s'.calls.db)
    ensures Settled(s', Delivery.DurableBodies(s'.calls.db))
  {
    Delivery.DurableBodiesGrow(s.calls.db, s'.calls.db);
    DonesAreDurable(s, s', call, action, policy);
    ToldKeepsSettled(s, s', call, action, policy, Delivery.DurableBodies(s.calls.db), Delivery.DurableBodies(s'.calls.db));
  }

  lemma DonesAreDurable(s: System, s': System, call: nat, action: Action, policy: Policy)
    requires CallsOk(s.calls) && Linked(s) && Advance(s, s', call, action, policy)
    requires forall w :: w in s.consumers && s.consumers[w].Done? ==> s.consumers[w].body in Delivery.DurableBodies(s'.calls.db)
    ensures forall w :: w in s'.consumers && s'.consumers[w].Done? ==> s'.consumers[w].body in Delivery.DurableBodies(s'.calls.db)
  {
    forall w | w in s'.consumers && s'.consumers[w].Done?
      ensures s'.consumers[w].body in Delivery.DurableBodies(s'.calls.db)
    {
      DoneIsDurable(s, s', call, action, policy, w);
    }
  }

  lemma DoneIsDurable(s: System, s': System, call: nat, action: Action, policy: Policy, w: nat)
    requires CallsOk(s.calls) && Linked(s) && Advance(s, s', call, action, policy) && w in s.consumers
    requires s.consumers[w].Done? ==> s.consumers[w].body in Delivery.DurableBodies(s'.calls.db)
    requires s'.consumers[w].Done?
    ensures s'.consumers[w].body in Delivery.DurableBodies(s'.calls.db)
  {
    ToldBusy(s.consumers[w], s.calls, s'.calls, call, action);
    if s.consumers[w].Busy? {
      SuccessIsDurable(s.calls, s'.calls, call, action, policy, s.consumers[w].body);
    }
  }

  lemma ToldKeepsSettled(
      s: System, s': System, call: nat, action: Action, policy: Policy, durable: iset<Body>, more: iset<Body>)
    requires Settled(s, durable) && durable <= more && Advance(s, s', call, action, policy)
    requires forall w :: w in s'.consumers && s'.consumers[w].Done? ==> s'.consumers[w].body in more
    ensures Settled(s', more)
  {
    forall w | w in s'.consumers && !s'.consumers[w].Idle? && s'.consumers[w].message in s'.queue
      ensures s'.consumers[w].body == s'.queue[s'.consumers[w].message]
    {
      ToldBusy(s.consumers[w], s.calls, s'.calls, call, action);
    }
  }

  lemma AdvanceKeepsOk(s: System, s': System, call: nat, action: Action, policy: Policy)
    requires SystemOk(s) && Advance(s, s', call, action, policy)
    ensures SystemOk(s')
  {
    SystemMeans(s);
    NextKeepsCalls(s.calls, s'.calls, call, action, policy);
    AdvanceKeepsLinked(s, s', call, action, policy);
    AdvanceKeepsSettled(s, s', call, action, policy);
    PartsMakeOk(s');
  }

  lemma ReceiveKeepsOk(s: System, s': System, consumer: nat, message: nat, call: nat, env: Env, policy: Policy)
    requires SystemOk(s) && Receive(s, s', consumer, message, call, env)
    ensures SystemOk(s')
  {
    var job := ProcessJob(CommandOf(s.queue[message]).value);
    Delivery.CommandCarriesBody(s.queue[message]);
    SystemMeans(s);
    NextKeepsCalls(s.calls, s'.calls, call, BeginAction(job, env), policy);
    ReceiveKeepsLinked(s, s', consumer, message, call, env);
    PartsMakeOk(s');
  }

  lemma ReceiveKeepsLinked(s: System, s': System, consumer: nat, message: nat, call: nat, env: Env)
    requires Linked(s) && Receive(s, s', consumer, message, call, env)
    ensures Linked(s') && s'.calls.db == s.calls.db
    ensures forall durable :: Settled(s, durable) ==> Settled(s', durable)
  {
  }

  /** The queue and the consumers, apart from their calls, touch no table. */
  lemma QueueKeepsOk(s: System, s': System, event: Event, policy: Policy)
    requires SystemOk(s) && Step(s, s', event, policy) && !event.ReceiveEvent? && !event.AdvanceEvent?
    ensures SystemOk(s')
  {
    SystemMeans(s);
    QueueKeepsSettled(s, s', Delivery.DurableBodies(s.calls.db), event, policy);
    PartsMakeOk(s');
  }

  lemma QueueKeepsSettled(s: System, s': System, durable: iset<Body>, event: Event, policy: Policy)
    requires Linked(s) && Settled(s, durable) && Step(s, s', event, policy) && !event.ReceiveEvent? && !event.AdvanceEvent?
    ensures Linked(s') && Settled(s', durable) && s'.calls == s.calls
  {
    if event.DeleteEvent? || event.CrashEvent? {
      ConsumerKeepsSettled(s, s', durable, event.consumer, event.DeleteEvent? && event.arrives);
    } else if event.SendEvent? {
      MessageKeepsSettled(s, s', durable, event.message, event.body);
    } else {
      MessageKeepsSettled(s, s', durable, event.message, s.queue[event.message]);
    }
  }

  lemma ConsumerKeepsSettled(s: System, s': System, durable: iset<Body>, consumer: nat, arrives: bool)
    requires Linked(s) && Settled(s, durable) && (Delete(s, s', consumer, arrives) || Crash(s, s', consumer))
    ensures Linked(s') && Settled(s', durable) && s'.calls == s.calls
  {
  }

  lemma MessageKeepsSettled(s: System, s': System, durable: iset<Body>, message: nat, body: Body)
    requires Linked(s) && Settled(s, durable) && (Send(s, s', message, body) || DeadLetter(s, s', message))
    ensures Linked(s') && Settled(s', durable) && s'.calls == s.calls
  {
  }

  lemma StepKeepsOk(s: System, s': System, event: Event, policy: Policy)
    requires SystemOk(s) && Step(s, s', event, policy)
    ensures SystemOk(s')
  {
    match event
    case AdvanceEvent(call, action) => AdvanceKeepsOk(s, s', call, action, policy);
    case ReceiveEvent(consumer, message, call, env) => ReceiveKeepsOk(s, s', consumer, message, call, env, policy);
    case _ => QueueKeepsOk(s, s', event, policy);
  }

  // --- every run ----------------------------------------------------------

  ghost predicate SomeEvent(s: System, s': System, policy: Policy) {
    exists event :: Step(s, s', event, policy)
  }

  ghost predicate Follows(states: seq<System>, k: nat, policy: Policy)
    requires 0 < k < |states|
  {
    SomeEvent(states[k - 1], states[k], policy)
  }

  /** States that follow one another from an empty database, without calls, deleted messages or busy consumers. */
  ghost predicate Trace(states: seq<System>, policy: Policy) {
    && states != []
    && states[0].calls == State(EMPTY, map[]) && states[0].deleted == map[]
    && (forall w :: w in states[0].consumers ==> states[0].consumers[w].Idle?)
    && (forall k: nat :: 0 < k < |states| ==> Follows(states, k, policy))
  }

  lemma SomeEventKeepsOk(s: System, s': System, policy: Policy)
    requires SystemOk(s) && SomeEvent(s, s', policy)
    ensures SystemOk(s')
  {
    var event :| Step(s, s', event, policy);
    StepKeepsOk(s, s', event, policy);
  }

  lemma StartIsOk(s: System)
    requires s.calls == State(EMPTY, map[]) && s.deleted == map[]
    requires forall w :: w in s.consumers ==> s.consumers[w].Idle?
    ensures SystemOk(s)
  {
    EmptyIsValid();
    PartsMakeOk(s);
  }

  lemma {:induction false} TraceIsOk(states: seq<System>, policy: Policy, k: nat)
    requires Trace(states, policy) && k < |states|
    ensures SystemOk(states[k])
    decreases k
  {
    if k == 0 {
      StartIsOk(states[0]);
    } else {
      TraceIsOk(states, policy, k - 1);
      assert Follows(states, k, policy);
      SomeEventKeepsOk(states[k - 1], states[k], policy);
    }
  }

  /**
   However the calls of consumers, HTTP clients and the worker interleave, a message that was
   deleted has a complete inbox row and a durable transaction, then and at every later moment.
   */
  lemma DeletedIsDurable(states: seq<System>, policy: Policy, k: nat, message: nat)
    requires Trace(states, policy) && k < |states| && message in states[k].deleted
    ensures CommandOf(states[k].deleted[message]).Some?
    ensures Delivery.Durable(states[k].calls.db, CommandOf(states[k].deleted[message]).value)
    ensures Valid(states[k].calls.db)
    ensures Envelopes.StoredFrom(states[k].calls.db, states[k].deleted[message])
  {
    TraceIsOk(states, policy, k);
    SystemMeans(states[k]);
    Delivery.DurableIsStored(states[k].calls.db, states[k].deleted[message]);
  }

  /** A call about a durable message is a replay that writes nothing, whatever runs beside it. */
  lemma RedeliveryWritesNothing(states: seq<System>, policy: Policy, k: nat, call: nat, action: Action, after: State)
    requires Trace(states, policy) && k < |states| && call in states[k].calls.clients
    requires states[k].calls.clients[call].job.ProcessJob?
    requires Delivery.Durable(states[k].calls.db, states[k].calls.clients[call].job.command)
    requires Next(states[k].calls, after, call, action, policy) && !action.CreateAction?
    ensures after.db == states[k].calls.db && !states[k].calls.clients[call].Ready()
  {
    TraceIsOk(states, policy, k);
    SystemMeans(states[k]);
    DurableIsClosed(states[k].calls.db, states[k].calls.clients[call]);
    ClosedWritesNothing(states[k].calls, after, call, action, policy);
  }

  lemma ClosedWritesNothing(s: State, s': State, i: nat, action: Action, policy: Policy)
    requires Next(s, s', i, action, policy) && !action.CreateAction? && i in s.clients
    requires !s.clients[i].Ready() && (IsReplay(s.clients[i]) ==> !s.clients[i].pc.completes)
    ensures s'.db == s.db
  {
    if action.ReplayAction? { assert s' == s.Gone(i); } else { NoWrites(s, s', i, action, policy); }
  }

  lemma NoWrites(s: State, s': State, i: nat, action: Action, policy: Policy)
    requires Next(s, s', i, action, policy) && !action.CreateAction? && !action.ReplayAction?
    requires i in s.clients ==> !s.clients[i].Ready()
    ensures s'.db == s.db
  {
    if action.BeginAction? || action.StatementAction? || action.VanishAction? { QuietStep(s, s', i, action, policy); }
  }

  /** A call about a durable message has not begun to read, or has seen that the message is complete. */
  lemma DurableIsClosed(db: Db, c: Client)
    requires ClientOk(db, c) && c.job.ProcessJob? && Delivery.Durable(db, c.job.command)
    ensures !c.Ready() && (IsReplay(c) ==> !c.pc.completes)
  {
  }
}
