/**
 The outbox: workers claim unpublished events under a lease, send them, and mark them
 published or release them for a later attempt, while others may crash, fail or be
 late (internal/infrastructure/messaging/outbox_worker.go, postgres/store.go).
 */
module Leases {
  import opened Base
  import opened Backoff
  import opened Contracts

  /** A row of outbox_events. The event itself never changes. */
  datatype OutboxRow = OutboxRow(
    event: Event, attempts: nat, nextAttempt: Time, lockedBy: Option<Uuid>, lockedUntil: Option<Time>,
        publishedAt: Option<Time>) {

    /** What ClaimOutbox selects. */
    predicate Claimable(now: Time) {
      publishedAt.None? && nextAttempt <= now && (lockedUntil.None? || lockedUntil.value < now)
    }

    predicate HeldBy(worker: Uuid) {
      lockedBy == Some(worker) && publishedAt.None?
    }

    function Claimed(worker: Uuid, until: Time): OutboxRow {
      this.(lockedBy := Some(worker), lockedUntil := Some(until))
    }

    function Published(now: Time): OutboxRow {
      this.(publishedAt := Some(now), lockedBy := None, lockedUntil := None)
    }

    function Released(next: Time): OutboxRow {
      this.(attempts := attempts + 1, nextAttempt := next, lockedBy := None, lockedUntil := None)
    }
  }

  function NewRow(event: Event): OutboxRow {
    OutboxRow(event, 0, event.occurredAt, None, None, None)
  }

  /** An event as a worker holds it, with the attempts and the end of its lease. */
  datatype Lease = Lease(event: Event, attempts: nat, until: Time)

  type Table = map<Uuid, OutboxRow>

  /** Rows are published or released only by the worker that holds them. */
  function Marked(rows: Table, id: Uuid, worker: Uuid, now: Time): Table {
    if id in rows && rows[id].HeldBy(worker) then rows[id := rows[id].Published(now)] else rows
  }

  function ReleasedRows(rows: Table, id: Uuid, worker: Uuid, next: Time): Table {
    if id in rows && rows[id].HeldBy(worker) then rows[id := rows[id].Released(next)] else rows
  }

  function ReleaseDelay(attempts: nat): (d: nat)
    ensures SECOND as int <= d <= FIVE_MINUTES as int
    ensures d == if 1_000_000_000 * Pow2(attempts) < 300_000_000_000 then 1_000_000_000 * Pow2(attempts) else 300_000_000_000
  {
    CappedIsExact(SECOND as int, FIVE_MINUTES as int, attempts + 1);
    CappedMonotone(SECOND as int, FIVE_MINUTES as int, attempts + 1, attempts + 1);
    Capped(SECOND as int, FIVE_MINUTES as int, attempts + 1)
  }

  // --- the statements of the store ----------------------------------------

  /** ORDER BY occurred_at, event_id. */
  predicate Before(a: Event, b: Event) {
    a.occurredAt < b.occurredAt || (a.occurredAt == b.occurredAt && a.id < b.id)
  }

  ghost predicate Took(claims: seq<Lease>, id: Uuid) {
    exists i :: 0 <= i < |claims| && claims[i].event.id == id
  }

  lemma TookAppend(claims: seq<Lease>, lease: Lease)
    ensures forall id :: Took(claims + [lease], id) <==> Took(claims, id) || id == lease.event.id
  {
    forall id
      ensures Took(claims + [lease], id) <==> Took(claims, id) || id == lease.event.id
    {
      assert (claims + [lease])[|claims|] == lease;
      if Took(claims, id) {
        var i :| 0 <= i < |claims| && claims[i].event.id == id;
        assert (claims + [lease])[i] == claims[i];
      }
    }
  }

  /** Leases on different rows, each of which could be claimed. */
  ghost predicate Leased(rows: Table, claims: seq<Lease>, now: Time, until: Time) {
    && (forall i, j :: 0 <= i < j < |claims| ==> claims[i].event.id != claims[j].event.id)
    && (forall i :: 0 <= i < |claims| ==>
          var id := claims[i].event.id;
          && id in rows && rows[id].Claimable(now) && claims[i] == Lease(rows[id].event, rows[id].attempts, until))
  }

  lemma LeasedAppend(rows: Table, claims: seq<Lease>, id: Uuid, now: Time, until: Time)
    requires Leased(rows, claims, now, until) && id in rows && rows[id].Claimable(now) && rows[id].event.id == id
    requires !Took(claims, id)
    ensures Leased(rows, claims + [Lease(rows[id].event, rows[id].attempts, until)], now, until)
  {
  }

  class OutboxTable {
    var rows: Table

    /** The claimable row that comes first, if there is one. */
    method First(now: Time) returns (first: Option<Uuid>)
      requires forall id :: id in rows ==> rows[id].event.id == id
      ensures first == None <==> forall id :: id in rows ==> !rows[id].Claimable(now)
      ensures first.Some? ==>
                && first.value in rows && rows[first.value].Claimable(now)
                && forall id :: id in rows && rows[id].Claimable(now) && id != first.value ==>
                     Before(rows[first.value].event, rows[id].event)
    {
      var left := set id | id in rows && rows[id].Claimable(now);
      first := None;
      if left == {} {
        assert forall id :: id in rows && rows[id].Claimable(now) ==> id in left;
        return;
      }
      var best :| best in left;
      left := left - {best};
      while left != {}
        invariant best in rows && rows[best].Claimable(now) && best !in left
        invariant forall id :: id in left ==> id in rows && rows[id].Claimable(now)
        invariant forall id :: id in rows && rows[id].Claimable(now) && id !in left && id != best ==>
                    Before(rows[best].event, rows[id].event)
        decreases left
      {
        var id :| id in left;
        left := left - {id};
        if Before(rows[id].event, rows[best].event) {
          best := id;
        }
      }
      first := Some(best);
    }

    /**
     ClaimOutbox: at most `limit` claimable rows, the earliest ones, all of them when there
     are fewer, are leased to the worker; no other row changes.
     */
    method Claim(worker: Uuid, limit: nat, duration: nat, now: Time) returns (claims: seq<Lease>)
      requires forall id :: id in rows ==> rows[id].event.id == id
      modifies this
      ensures |claims| <= limit
      ensures forall i, j :: 0 <= i < j < |claims| ==> claims[i].event.id != claims[j].event.id
      ensures forall i :: 0 <= i < |claims| ==>
                var id := claims[i].event.id;
                && id in old(rows) && old(rows)[id].publishedAt == None && old(rows)[id].nextAttempt <= now
                && (old(rows)[id].lockedUntil == None || old(rows)[id].lockedUntil.value < now)
                && claims[i] == Lease(old(rows)[id].event, old(rows)[id].attempts, now + duration)
      ensures rows.Keys == old(rows).Keys
      ensures forall id :: id in rows ==>
                if Took(claims, id)
                then rows[id] == old(rows)[id].(lockedBy := Some(worker), lockedUntil := Some(now + duration))
                else && rows[id] == old(rows)[id]
                     && (rows[id].publishedAt == None && rows[id].nextAttempt <= now
                         && (rows[id].lockedUntil == None || rows[id].lockedUntil.value < now) ==>
                           && |claims| == limit
                           && forall i :: 0 <= i < |claims| ==> Before(claims[i].event, rows[id].event))
    {
      claims := [];
      var done := false;
      ghost var before, taken := rows, {};
      while |claims| < limit && !done
        invariant |claims| <= limit
        invariant rows.Keys == before.Keys
        invariant forall id :: id in taken <==> Took(claims, id)
        invariant Leased(before, claims, now, now + duration)
        invariant forall id :: id in taken ==> id in before && rows[id] == before[id].Claimed(worker, now + duration)
        invariant forall id :: id in rows && id !in taken ==> rows[id] == before[id]
        invariant forall id :: id in rows && rows[id].Claimable(now) ==>
                    && id !in taken && !done
                    && forall i :: 0 <= i < |claims| ==> Before(claims[i].event, rows[id].event)
        decreases limit - |claims|, !done
      {
        var first := First(now);
        if first == None {
          done := true;
        } else {
          var id := first.value;
          TookAppend(claims, Lease(rows[id].event, rows[id].attempts, now + duration));
          LeasedAppend(before, claims, id, now, now + duration);
          claims := claims + [Lease(rows[id].event, rows[id].attempts, now + duration)];
          rows := rows[id := rows[id].Claimed(worker, now + duration)];
          taken := taken + {id};
        }
      }
    }

    /** MarkOutboxPublished. */
    method MarkPublished(id: Uuid, worker: Uuid, now: Time) returns (err: Option<Error>)
      modifies this
      ensures rows == Marked(old(rows), id, worker, now)
      ensures err == None ==>
                && id in old(rows)
                && rows == old(rows)[id := old(rows)[id].(publishedAt := Some(now), lockedBy := None, lockedUntil := None)]
      ensures err != None ==> rows == old(rows)
      ensures err == if id in old(rows) && old(rows)[id].lockedBy == Some(worker) && old(rows)[id].publishedAt == None then None
                     else Some(Conflict)
    {
      if id !in rows || rows[id].lockedBy != Some(worker) || rows[id].publishedAt != None {
        return Some(Conflict);
      }
      rows := rows[id := rows[id].(publishedAt := Some(now), lockedBy := None, lockedUntil := None)];
      return None;
    }

    /** ReleaseOutbox. */
    method Release(id: Uuid, worker: Uuid, next: Time)
      modifies this
      ensures rows == ReleasedRows(old(rows), id, worker, next)
      ensures rows == if id in old(rows) && old(rows)[id].lockedBy == Some(worker) && old(rows)[id].publishedAt == None
                      then old(rows)[id := old(rows)[id].(attempts := old(rows)[id].attempts + 1, nextAttempt := next,
                                                          lockedBy := None, lockedUntil := None)]
                      else old(rows)
    {
      if id in rows && rows[id].lockedBy == Some(worker) && rows[id].publishedAt == None {
        rows := rows[id := rows[id].(attempts := rows[id].attempts + 1, nextAttempt := next, lockedBy := None,
            lockedUntil := None)];
      }
    }
  }

  // --- many workers -------------------------------------------------------

  /** The leases still to be worked through; the event of the first one may have been sent already. */
  datatype Worker = Worker(todo: seq<Lease>, sent: bool)

  /** The table, every event as inserted, what the queue received, the workers alive, all workers so far, the clock. */
  datatype State = State(
    rows: Table, inserted: map<Uuid, Event>, queue: seq<Event>, workers: map<Uuid, Worker>, used: set<Uuid>, now: Time) {

    function Now(id: Uuid, worker: Worker): State {
      this.(workers := workers[id := worker])
    }
  }

  ghost function ClaimedRows(rows: Table, batch: seq<Lease>, worker: Uuid, until: Time): Table {
    map id | id in rows :: if Took(batch, id) then rows[id].Claimed(worker, until) else rows[id]
  }

  ghost predicate Insert(s: State, s': State, event: Event) {
    && event.id !in s.rows
    && s' == s.(rows := s.rows[event.id := NewRow(event)], inserted := s.inserted[event.id := event])
  }

  ghost predicate Tick(s: State, s': State, now: Time) {
    now >= s.now && s' == s.(now := now)
  }

  /** A worker starts with an identifier of its own. */
  ghost predicate Join(s: State, s': State, id: Uuid) {
    id !in s.used && s' == s.(used := s.used + {id}).Now(id, Worker([], false))
  }

  ghost predicate Crash(s: State, s': State, id: Uuid) {
    s' == s.(workers := s.workers - {id})
  }

  /** A worker reads its own clock, which is off by at most `skew`. */
  predicate Reads(s: State, at: Time, skew: nat) {
    at <= s.now + skew && s.now <= at + skew
  }

  /** A batch of claimable rows; rows locked by concurrent claims are skipped. */
  ghost predicate ClaimBatch(s: State, s': State, id: Uuid, batch: seq<Lease>, at: Time, duration: nat) {
    && id in s.workers && s.workers[id].todo == []
    && (forall i, j :: 0 <= i < j < |batch| ==> batch[i].event.id != batch[j].event.id)
    && (forall i :: 0 <= i < |batch| ==>
          && batch[i].event.id in s.rows && s.rows[batch[i].event.id].Claimable(at)
          && batch[i] == Lease(s.rows[batch[i].event.id].event, s.rows[batch[i].event.id].attempts, at + duration))
    && s' == s.(rows := ClaimedRows(s.rows, batch, id, at + duration)).Now(id, Worker(batch, false))
  }

  ghost predicate Send(s: State, s': State, id: Uuid) {
    && id in s.workers && s.workers[id].todo != [] && !s.workers[id].sent
    && s' == s.(queue := s.queue + [s.workers[id].todo[0].event]).Now(id, s.workers[id].(sent := true))
  }

  /** The send reports an error, though the queue may have accepted the event; the release may be lost. */
  ghost predicate SendFails(s: State, s': State, id: Uuid, accepted: bool, released: bool, at: Time) {
    && id in s.workers && s.workers[id].todo != [] && !s.workers[id].sent
    && var lease, rest := s.workers[id].todo[0], s.workers[id].todo[1..];
    && s' == s.(queue := if accepted then s.queue + [lease.event] else s.queue,
                rows := if released then ReleasedRows(s.rows, lease.event.id, id,
                    at + ReleaseDelay(lease.attempts)) else s.rows)
              .Now(id, Worker(rest, false))
  }

  /** The confirmation may be lost, and then the event may be sent again. */
  ghost predicate Confirm(s: State, s': State, id: Uuid, recorded: bool, at: Time) {
    && id in s.workers && s.workers[id].todo != [] && s.workers[id].sent
    && var lease, rest := s.workers[id].todo[0], s.workers[id].todo[1..];
    && s' == s.(rows := if recorded then Marked(s.rows, lease.event.id, id, at) else s.rows).Now(id, Worker(rest, false))
  }

  datatype Action =
    | InsertAction(event: Event)
    | TickAction(now: Time)
    | JoinAction
    | CrashAction
    | ClaimAction(batch: seq<Lease>, at: Time)
    | SendAction
    | FailAction(accepted: bool, released: bool, at: Time)
    | ConfirmAction(recorded: bool, at: Time)

  /** A step, with the length of a lease and the bound on how far the clocks of the workers are off. */
  ghost predicate Next(s: State, s': State, id: Uuid, action: Action, duration: nat, skew: nat) {
    match action
    case InsertAction(event) => Insert(s, s', event)
    case TickAction(now) => Tick(s, s', now)
    case JoinAction => Join(s, s', id)
    case CrashAction => Crash(s, s', id)
    case ClaimAction(batch, at) => Reads(s, at, skew) && ClaimBatch(s, s', id, batch, at, duration)
    case SendAction => Send(s, s', id)
    case FailAction(accepted, released, at) => Reads(s, at, skew) && SendFails(s, s', id, accepted, released, at)
    case ConfirmAction(recorded, at) => Reads(s, at, skew) && Confirm(s, s', id, recorded, at)
  }

  // --- the invariant ------------------------------------------------------

  function Later(a: int, b: int): int {
    if a < b then b else a
  }

  ghost predicate RowOk(s: State, id: Uuid, duration: nat, skew: nat)
    requires id in s.rows
  {
    var row := s.rows[id];
    && id in s.inserted && row.event == s.inserted[id] && row.event.id == id
    && (row.lockedBy.Some? <==> row.lockedUntil.Some?)
    && (row.publishedAt.Some? ==> row.lockedBy.None? && row.event in s.queue)
    && (row.lockedBy.Some? ==> row.lockedBy.value in s.used && row.lockedUntil.value <= s.now + skew + duration)
    && row.nextAttempt <= Later(row.event.occurredAt, s.now + skew + FIVE_MINUTES as int)
  }

  /** A lease that has not expired on any clock is in force; one that is in force is the one the worker knows. */
  ghost predicate LeaseOk(s: State, worker: Uuid, lease: Lease, skew: nat) {
    && lease.event.id in s.rows
    && var row := s.rows[lease.event.id];
    && row.event == lease.event
    && (s.now + skew <= lease.until ==> row.HeldBy(worker))
    && (row.lockedBy == Some(worker) ==> row.lockedUntil == Some(lease.until))
  }

  ghost predicate WorkerOk(s: State, id: Uuid, skew: nat)
    requires id in s.workers
  {
    var worker := s.workers[id];
    && id in s.used
    && (forall i, j :: 0 <= i < j < |worker.todo| ==> worker.todo[i].event.id != worker.todo[j].event.id)
    && (forall i :: 0 <= i < |worker.todo| ==> LeaseOk(s, id, worker.todo[i], skew))
    && (worker.sent ==> worker.todo != [] && worker.todo[0].event in s.queue)
  }

  ghost predicate Inv(s: State, duration: nat, skew: nat) {
    && (forall id :: id in s.rows ==> RowOk(s, id, duration, skew))
    && (forall e :: e in s.queue ==> e.id in s.rows && s.rows[e.id].event == e)
    && (forall id :: id in s.workers ==> WorkerOk(s, id, skew))
  }

  lemma ClaimKeepsOther(
      s: State, s': State, id: Uuid, batch: seq<Lease>, at: Time, duration: nat, skew: nat, other: Uuid)
    requires ClaimBatch(s, s', id, batch, at, duration) && at <= s.now + skew
    requires other in s.workers && other != id && WorkerOk(s, other, skew)
    ensures WorkerOk(s', other, skew)
  {
  }

  lemma ClaimKeepsInv(s: State, s': State, id: Uuid, batch: seq<Lease>, at: Time, duration: nat, skew: nat)
    requires Inv(s, duration, skew) && Reads(s, at, skew) && ClaimBatch(s, s', id, batch, at, duration)
    ensures Inv(s', duration, skew)
  {
    forall other | other in s'.workers
      ensures WorkerOk(s', other, skew)
    {
      if other != id {
        ClaimKeepsOther(s, s', id, batch, at, duration, skew, other);
      } else {
        ClaimKeepsOwn(s, s', id, batch, at, duration, skew);
      }
    }
  }

  lemma ClaimKeepsOwn(s: State, s': State, id: Uuid, batch: seq<Lease>, at: Time, duration: nat, skew: nat)
    requires ClaimBatch(s, s', id, batch, at, duration) && WorkerOk(s, id, skew)
    requires forall i :: 0 <= i < |batch| ==> s.rows[batch[i].event.id].event.id == batch[i].event.id
    ensures WorkerOk(s', id, skew)
  {
    assert forall i :: 0 <= i < |batch| ==> Took(batch, batch[i].event.id);
  }

  lemma SendKeepsInv(s: State, s': State, id: Uuid, duration: nat, skew: nat)
    requires Inv(s, duration, skew) && Send(s, s', id)
    ensures Inv(s', duration, skew)
  {
    assert WorkerOk(s, id, skew) && LeaseOk(s, id, s.workers[id].todo[0], skew);
  }

  /** The holder of a row, and nobody else, has given it back: other workers keep their leases. */
  lemma DoneKeepsWorkers(s: State, s': State, id: Uuid, skew: nat)
    requires id in s.workers && s.workers[id].todo != []
    requires s'.workers == s.workers[id := Worker(s.workers[id].todo[1..], false)]
    requires forall w :: w in s.workers ==> WorkerOk(s, w, skew)
    requires s'.now == s.now && s'.used == s.used && (forall e :: e in s.queue ==> e in s'.queue)
    requires var done := s.workers[id].todo[0].event.id;
             && (forall r :: r in s.rows && (r != done || !s.rows[r].HeldBy(id)) ==> r in s'.rows && s'.rows[r] == s.rows[r])
             && (done in s.rows ==>
                   && done in s'.rows && s'.rows[done].event == s.rows[done].event
                   && (s'.rows[done] == s.rows[done] || s'.rows[done].lockedBy == None))
    ensures forall w :: w in s'.workers ==> WorkerOk(s', w, skew)
  {
    forall w | w in s'.workers
      ensures WorkerOk(s', w, skew)
    {
      assert WorkerOk(s, w, skew);
      forall i | 0 <= i < |s'.workers[w].todo|
        ensures LeaseOk(s', w, s'.workers[w].todo[i], skew)
      {
        assert LeaseOk(s, w, s'.workers[w].todo[i], skew);
      }
    }
  }

  lemma FailKeepsInv(
      s: State, s': State, id: Uuid, accepted: bool, released: bool, at: Time, duration: nat, skew: nat)
    requires Inv(s, duration, skew) && Reads(s, at, skew) && SendFails(s, s', id, accepted, released, at)
    ensures Inv(s', duration, skew)
  {
    assert WorkerOk(s, id, skew) && LeaseOk(s, id, s.workers[id].todo[0], skew);
    DoneKeepsWorkers(s, s', id, skew);
  }

  lemma ConfirmKeepsInv(s: State, s': State, id: Uuid, recorded: bool, at: Time, duration: nat, skew: nat)
    requires Inv(s, duration, skew) && Reads(s, at, skew) && Confirm(s, s', id, recorded, at)
    ensures Inv(s', duration, skew)
  {
    assert WorkerOk(s, id, skew) && LeaseOk(s, id, s.workers[id].todo[0], skew);
    DoneKeepsWorkers(s, s', id, skew);
  }

  lemma InsertKeepsInv(s: State, s': State, event: Event, duration: nat, skew: nat)
    requires Inv(s, duration, skew) && Insert(s, s', event)
    ensures Inv(s', duration, skew)
  {
    assert forall id :: id in s.rows ==> RowOk(s, id, duration, skew);
    forall w | w in s'.workers
      ensures WorkerOk(s', w, skew)
    {
      assert WorkerOk(s, w, skew);
    }
  }

  lemma TickKeepsInv(s: State, s': State, now: Time, duration: nat, skew: nat)
    requires Inv(s, duration, skew) && Tick(s, s', now)
    ensures Inv(s', duration, skew)
  {
    forall w | w in s'.workers
      ensures WorkerOk(s', w, skew)
    {
      assert WorkerOk(s, w, skew);
    }
  }

  /** Workers start and crash without a trace in the table. */
  lemma WorkersKeepInv(s: State, s': State, id: Uuid, duration: nat, skew: nat)
    requires Inv(s, duration, skew) && (Join(s, s', id) || Crash(s, s', id))
    ensures Inv(s', duration, skew)
  {
    forall w | w in s'.workers
      ensures WorkerOk(s', w, skew)
    {
      if w in s.workers { assert WorkerOk(s, w, skew); }
    }
  }

  lemma NextKeepsInv(s: State, s': State, id: Uuid, action: Action, duration: nat, skew: nat)
    requires Inv(s, duration, skew) && Next(s, s', id, action, duration, skew)
    ensures Inv(s', duration, skew)
  {
    match action
    case InsertAction(event) => InsertKeepsInv(s, s', event, duration, skew);
    case TickAction(now) => TickKeepsInv(s, s', now, duration, skew);
    case JoinAction => WorkersKeepInv(s, s', id, duration, skew);
    case CrashAction => WorkersKeepInv(s, s', id, duration, skew);
    case ClaimAction(batch, at) => ClaimKeepsInv(s, s', id, batch, at, duration, skew);
    case SendAction => SendKeepsInv(s, s', id, duration, skew);
    case FailAction(accepted, released, at) => FailKeepsInv(s, s', id, accepted, released, at, duration, skew);
    case ConfirmAction(recorded, at) => ConfirmKeepsInv(s, s', id, recorded, at, duration, skew);
  }

  ghost predicate SomeStep(s: State, s': State, duration: nat, skew: nat) {
    exists id, action :: Next(s, s', id, action, duration, skew)
  }

  /** The k-th state follows from the one before. */
  ghost predicate Follows(states: seq<State>, k: nat, duration: nat, skew: nat)
    requires 0 < k < |states|
  {
    SomeStep(states[k - 1], states[k], duration, skew)
  }

  /** States that follow one another from an empty table without workers. */
  ghost predicate Trace(states: seq<State>, duration: nat, skew: nat) {
    && states != [] && states[0] == State(map[], map[], [], map[], {}, states[0].now)
    && (forall k: nat :: 0 < k < |states| ==> Follows(states, k, duration, skew))
  }

  lemma {:induction false} ReachableIsInv(states: seq<State>, duration: nat, skew: nat, k: nat)
    requires Trace(states, duration, skew) && k < |states|
    ensures Inv(states[k], duration, skew)
    decreases k
  {
    if k > 0 {
      ReachableIsInv(states, duration, skew, k - 1);
      assert Follows(states, k, duration, skew);
      var id, action :| Next(states[k - 1], states[k], id, action, duration, skew);
      NextKeepsInv(states[k - 1], states[k], id, action, duration, skew);
    }
  }

  // --- what it means ------------------------------------------------------

  /** In every reachable state a published row was sent, as inserted, and nothing else was ever sent. */
  lemma PublishedWasSent(states: seq<State>, duration: nat, skew: nat, k: nat)
    requires Trace(states, duration, skew) && k < |states|
    ensures forall id :: id in states[k].rows && states[k].rows[id].publishedAt.Some? ==>
              id in states[k].inserted && states[k].inserted[id] in states[k].queue && states[k].inserted[id].id == id
    ensures forall e :: e in states[k].queue ==> e.id in states[k].inserted && states[k].inserted[e.id] == e
  {
    ReachableIsInv(states, duration, skew, k);
    assert forall id :: id in states[k].rows ==> RowOk(states[k], id, duration, skew);
  }

  /** Published is for ever, and an event is never rewritten. */
  lemma PublishedIsAbsorbing(s: State, s': State, id: Uuid, action: Action, duration: nat, skew: nat, event: Uuid)
    requires Inv(s, duration, skew) && Next(s, s', id, action, duration, skew) && event in s.rows
    ensures event in s'.rows && s'.rows[event].event == s.rows[event].event
    ensures s.rows[event].publishedAt.Some? ==> s'.rows[event] == s.rows[event]
  {
  }

  /** Two workers never hold leases on the same event that no clock within the skew shows as expired. */
  lemma LeasesAreDisjoint(s: State, duration: nat, skew: nat, a: Uuid, i: nat, b: Uuid, j: nat)
    requires Inv(s, duration, skew) && a in s.workers && b in s.workers
    requires i < |s.workers[a].todo| && j < |s.workers[b].todo|
    requires s.workers[a].todo[i].event.id == s.workers[b].todo[j].event.id
    requires s.now + skew <= s.workers[a].todo[i].until && s.now + skew <= s.workers[b].todo[j].until
    ensures a == b && i == j
  {
    assert WorkerOk(s, a, skew) && WorkerOk(s, b, skew);
    assert LeaseOk(s, a, s.workers[a].todo[i], skew) && LeaseOk(s, b, s.workers[b].todo[j], skew);
  }

  /** A worker that reads its own clock has its event to itself until twice the skew before the end of its lease. */
  lemma OwnClockSuffices(
      s: State, duration: nat, skew: nat, a: Uuid, i: nat, atA: Time, b: Uuid, j: nat, atB: Time)
    requires Inv(s, duration, skew) && a in s.workers && b in s.workers
    requires i < |s.workers[a].todo| && j < |s.workers[b].todo|
    requires s.workers[a].todo[i].event.id == s.workers[b].todo[j].event.id
    requires Reads(s, atA, skew) && atA + 2 * skew <= s.workers[a].todo[i].until
    requires Reads(s, atB, skew) && atB + 2 * skew <= s.workers[b].todo[j].until
    ensures a == b && i == j
  {
    LeasesAreDisjoint(s, duration, skew, a, i, b, j);
  }

  /** Rows and workers of the run below, in which b claims while the lease of a is about to end. */
  ghost function Overlap(event: Event, a: Uuid, b: Uuid, duration: nat, skew: nat): (states: seq<State>)
    ensures |states| == 7
  {
    var start := event.occurredAt;
    var first := Lease(event, 0, start + skew + duration);
    var second := Lease(event, 0, start + duration + 1 + skew + duration);
    var s0 := State(map[], map[], [], map[], {}, start);
    var s1 := s0.(rows := map[event.id := NewRow(event)], inserted := map[event.id := event]);
    var s2 := s1.(used := {a}).Now(a, Worker([], false));
    var s3 := s2.(used := {a, b}).Now(b, Worker([], false));
    var s4 := s3.(rows := map[event.id := NewRow(event).Claimed(a, first.until)]).Now(a, Worker([first], false));
    var s5 := s4.(now := start + duration + 1);
    var s6 := s5.(rows := map[event.id := NewRow(event).Claimed(b, second.until)]).Now(b, Worker([second], false));
    [s0, s1, s2, s3, s4, s5, s6]
  }

  lemma OverlapClaims(event: Event, a: Uuid, b: Uuid, duration: nat, skew: nat)
    requires a != b
    ensures var states := Overlap(event, a, b, duration, skew);
            && ClaimBatch(states[3], states[4], a, states[4].workers[a].todo, event.occurredAt + skew, duration)
            && ClaimBatch(states[5], states[6], b, states[6].workers[b].todo,
                          event.occurredAt + duration + 1 + skew, duration)
  {
    var states := Overlap(event, a, b, duration, skew);
    assert Took(states[4].workers[a].todo, event.id) by { assert states[4].workers[a].todo[0].event.id == event.id; }
    assert Took(states[6].workers[b].todo, event.id) by { assert states[6].workers[b].todo[0].event.id == event.id; }
    assert states[4].rows == ClaimedRows(states[3].rows, states[4].workers[a].todo, a, event.occurredAt + skew + duration);
    assert states[6].rows == ClaimedRows(states[5].rows, states[6].workers[b].todo, b,
        event.occurredAt + duration + 1 + skew + duration);
  }

  /** The slack is exact: with one unit less, some run gives two workers a lease on the same event. */
  lemma LeasesOverlap(event: Event, a: Uuid, b: Uuid, duration: nat, skew: nat) returns (states: seq<State>)
    requires a != b
    ensures Trace(states, duration, skew)
    ensures var s := states[|states| - 1];
            && a in s.workers && b in s.workers && |s.workers[a].todo| == |s.workers[b].todo| == 1
            && s.workers[a].todo[0].event == s.workers[b].todo[0].event == event
            && s.now + skew - 1 <= s.workers[a].todo[0].until && s.now + skew - 1 <= s.workers[b].todo[0].until
  {
    states := Overlap(event, a, b, duration, skew);
    OverlapStarts(event, a, b, duration, skew);
    OverlapGoesOn(event, a, b, duration, skew);
  }

  lemma OverlapStarts(event: Event, a: Uuid, b: Uuid, duration: nat, skew: nat)
    requires a != b
    ensures forall k: nat :: 0 < k <= 3 ==> Follows(Overlap(event, a, b, duration, skew), k, duration, skew)
  {
    var states := Overlap(event, a, b, duration, skew);
    assert Next(states[0], states[1], a, InsertAction(event), duration, skew);
    assert Next(states[1], states[2], a, JoinAction, duration, skew);
    assert Next(states[2], states[3], b, JoinAction, duration, skew);
  }

  lemma OverlapGoesOn(event: Event, a: Uuid, b: Uuid, duration: nat, skew: nat)
    requires a != b
    ensures forall k: nat :: 3 < k <= 6 ==> Follows(Overlap(event, a, b, duration, skew), k, duration, skew)
  {
    var states := Overlap(event, a, b, duration, skew);
    OverlapClaims(event, a, b, duration, skew);
    assert Next(states[3], states[4], a, ClaimAction(states[4].workers[a].todo, event.occurredAt + skew), duration, skew);
    assert Next(states[4], states[5], a, TickAction(event.occurredAt + duration + 1), duration, skew);
    assert Next(states[5], states[6], b,
        ClaimAction(states[6].workers[b].todo, event.occurredAt + duration + 1 + skew), duration, skew);
  }

  /** The lease of a worker was taken over by another, or is gone. */
  ghost predicate TakenOver(s: State, worker: Uuid, lease: Lease) {
    && worker in s.workers && lease in s.workers[worker].todo
    && lease.event.id in s.rows && s.rows[lease.event.id].lockedBy != Some(worker)
  }

  /** A worker that lost its lease can neither publish nor release the event, then or at any later step. */
  lemma TakenOverForGood(
      s: State, s': State, id: Uuid, action: Action, duration: nat, skew: nat, worker: Uuid, lease: Lease, at: Time)
    requires Inv(s, duration, skew) && Next(s, s', id, action, duration, skew) && TakenOver(s, worker, lease)
    ensures Marked(s.rows, lease.event.id, worker, at) == s.rows
    ensures ReleasedRows(s.rows, lease.event.id, worker, at) == s.rows
    ensures worker in s'.workers && lease in s'.workers[worker].todo ==> TakenOver(s', worker, lease)
  {
    assert WorkerOk(s, worker, skew);
  }

  /** An unpublished event can be claimed again once its lease and its delay are over, at most the longer of them plus the skew. */
  lemma ClaimableAgain(s: State, duration: nat, skew: nat, id: Uuid, at: Time)
    requires Inv(s, duration, skew) && id in s.rows && s.rows[id].publishedAt.None?
    requires at > s.now + skew + Later(duration, FIVE_MINUTES as int) && at >= s.rows[id].event.occurredAt
    ensures s.rows[id].Claimable(at)
  {
    assert RowOk(s, id, duration, skew);
  }

  // --- the publishing loop ------------------------------------------------

  /** What one pass over a batch leaves, when nobody interferes. */
  function Passed(rows: Table, batch: seq<Lease>, worker: Uuid, sends: seq<bool>, clock: seq<Time>): Table
    requires |sends| == |clock| == |batch|
  {
    if batch == [] then rows
    else
      var n := |batch| - 1;
      var before := Passed(rows, batch[..n], worker, sends[..n], clock[..n]);
      if sends[n] then Marked(before, batch[n].event.id, worker, clock[n])
      else ReleasedRows(before, batch[n].event.id, worker, clock[n] + ReleaseDelay(batch[n].attempts))
  }

  /** The sent events of a pass. */
  function SentOf(batch: seq<Lease>, sends: seq<bool>): seq<Event>
    requires |sends| == |batch|
  {
    if batch == [] then []
    else SentOf(batch[..|batch| - 1], sends[..|batch| - 1]) + if sends[|batch| - 1] then [batch[|batch| - 1].event] else []
  }

  class Publisher {
    const table: OutboxTable
    const id: Uuid
    var queue: seq<Event>

    constructor (table: OutboxTable, id: Uuid)
      ensures this.table == table && this.id == id && queue == []
    {
      this.table, this.id, queue := table, id, [];
    }

    /** publishOutbox, for one claimed batch: send, then confirm or release. */
    method PublishBatch(batch: seq<Lease>, sends: seq<bool>, clock: seq<Time>)
      requires |sends| == |clock| == |batch|
      modifies this, table
      ensures table.rows == Passed(old(table.rows), batch, id, sends, clock)
      ensures queue == old(queue) + SentOf(batch, sends)
    {
      ghost var before := table.rows;
      var i := 0;
      while i < |batch|
        invariant 0 <= i <= |batch|
        invariant table.rows == Passed(before, batch[..i], id, sends[..i], clock[..i])
        invariant queue == old(queue) + SentOf(batch[..i], sends[..i])
      {
        assert batch[..i + 1][..i] == batch[..i] && sends[..i + 1][..i] == sends[..i] && clock[..i + 1][..i] == clock[..i];
        if sends[i] {
          queue := queue + [batch[i].event];
          var err := table.MarkPublished(batch[i].event.id, id, clock[i]);
        } else {
          var delay := OutboxDelay(batch[i].attempts + 1);
          table.Release(batch[i].event.id, id, clock[i] + delay as int);
        }
        i := i + 1;
      }
      assert batch[..i] == batch && sends[..i] == sends && clock[..i] == clock;
    }
  }

  /** A new event can be claimed from its occurrence on, and not before. */
  lemma NewIsClaimable(event: Event, now: Time)
    ensures NewRow(event).Claimable(now) <==> event.occurredAt <= now
    ensures NewRow(event).event == event && NewRow(event).attempts == 0
  {
  }

  /** The sent events are those of the batch that the queue took, in order. */
  lemma {:induction false} SentIsExact(batch: seq<Lease>, sends: seq<bool>, k: nat)
    requires |sends| == |batch| && k < |batch|
    ensures SentOf(batch, sends) ==
            SentOf(batch[..k], sends[..k]) + (if sends[k] then [batch[k].event] else []) + SentOf(batch[k + 1..], sends[k + 1..])
    decreases |batch|
  {
    var n := |batch| - 1;
    if k == n {
      assert SentOf(batch[k + 1..], sends[k + 1..]) == [];
    } else {
      SentIsExact(batch[..n], sends[..n], k);
      assert batch[..n][..k] == batch[..k] && sends[..n][..k] == sends[..k];
      assert batch[k + 1..][..n - k - 1] == batch[..n][k + 1..] && sends[k + 1..][..n - k - 1] == sends[..n][k + 1..];
    }
  }

  lemma {:induction false} PassLeaves(rows: Table, batch: seq<Lease>, worker: Uuid, sends: seq<bool>,
      clock: seq<Time>, id: Uuid)
    requires |sends| == |clock| == |batch|
    ensures Passed(rows, batch, worker, sends, clock).Keys == rows.Keys
    ensures id in rows && !Took(batch, id) ==> Passed(rows, batch, worker, sends, clock)[id] == rows[id]
  {
    if batch != [] {
      var n := |batch| - 1;
      assert batch == batch[..n] + [batch[n]];
      TookAppend(batch[..n], batch[n]);
      PassLeaves(rows, batch[..n], worker, sends[..n], clock[..n], id);
    }
  }

  /** A pass over held leases publishes exactly what it sent, releases the rest for later, and touches nothing else. */
  lemma {:induction false} PassIsExact(
      rows: Table, batch: seq<Lease>, worker: Uuid, sends: seq<bool>, clock: seq<Time>, k: nat)
    requires |sends| == |clock| == |batch| && k < |batch|
    requires forall i, j :: 0 <= i < j < |batch| ==> batch[i].event.id != batch[j].event.id
    requires batch[k].event.id in rows && rows[batch[k].event.id].HeldBy(worker)
    ensures var id := batch[k].event.id;
            && id in Passed(rows, batch, worker, sends, clock)
            && var row, after := rows[id], Passed(rows, batch, worker, sends, clock)[id];
            && after.event == row.event && after.lockedBy == None && after.lockedUntil == None
            && after.publishedAt == (if sends[k] then Some(clock[k]) else None)
            && after.attempts == (if sends[k] then row.attempts else row.attempts + 1)
            && after.nextAttempt == (if sends[k] then row.nextAttempt else
                                     if 1_000_000_000 * Pow2(batch[k].attempts) < 300_000_000_000
                                     then clock[k] + 1_000_000_000 * Pow2(batch[k].attempts)
                                     else clock[k] + 300_000_000_000)
  {
    var n := |batch| - 1;
    if k < n {
      PassIsExact(rows, batch[..n], worker, sends[..n], clock[..n], k);
    } else {
      PassLeaves(rows, batch[..n], worker, sends[..n], clock[..n], batch[k].event.id);
    }
  }
}
