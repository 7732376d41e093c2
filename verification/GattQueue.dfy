/**
  The GATT operations of one connection on Android (`BleGattBridge.kt` with the guards in
  `drivers/android.rs`): completions carry no identity and are matched by queues of ids, while
  busy retries, cancellations and reconnects race them under one lock. A step is one stretch
  under that lock, one step of the platform, or one of the Rust caller.
 */
module GattQueue {
  import opened Basics

  type Id = nat

  const GATT_BUSY_MAX_RETRIES: nat := 6

  /** One queue each for reads and writes, and one per characteristic for subscriptions. */
  datatype Kind = Read | Write | Subscribe(characteristic: nat)

  /** An operation as the caller issued it; its id is its place in the list of all operations. */
  datatype Op = Op(kind: Kind, session: nat)

  /** The operation the current connection's caller waits for, or whose guard is being dropped. */
  datatype Live = Live(id: Id, dropping: bool)

  datatype Report = Report(id: Id, ok: bool)

  /**
    `current` is the session that owns the address. `queues` are the ids awaiting a completion,
    `retries` the scheduled attempts not yet claimed, `runnables` the handler's own, which may
    run after their claim is gone. The platform executes one operation at a time and delivers
    its completions in order. `clearing` is set between the two halves of `closeConnection`.
    `calls` and `reports` are what was asked of the platform and told to the caller.
   */
  datatype State = State(
    ops: seq<Op>, current: Option<nat>, sessions: nat, clearing: bool, queues: map<Kind, seq<Id>>,
    retries: map<Id, nat>, runnables: set<(Id, nat)>, executing: Option<Id>, done: seq<Id>,
    live: Option<Live>, cancelled: set<Id>, calls: seq<Id>, reports: seq<Report>)

  const START := State([], None, 0, false, map[], map[], {}, None, [], None, {}, [], [])

  datatype Step =
    | Issue(kind: Kind, session: nat, found: bool, accepted: bool)
    | Fire(id: Id, attempt: nat, found: bool, accepted: bool)
    | Abandon
    | Cancel(id: Id)
    | PlatformDone
    | Deliver(ok: bool)
    | DeliverStale
    | Connect
    | Disconnected
    | CloseConnection
    | ClearPending

  /** The platform refuses a call while it is busy; it may refuse one for other reasons too. */
  predicate MayAccept(s: State, accepted: bool) {
    accepted ==> s.executing == None
  }

  predicate Enabled(s: State, a: Step) {
    match a
    case Issue(_, session, _, accepted) =>
      && MayAccept(s, accepted)
      && session < s.sessions
      // The caller issues one operation at a time on a connection.
      && (s.current == Some(session) ==> s.live == None)
    case Fire(id, attempt, _, accepted) => (id, attempt) in s.runnables && MayAccept(s, accepted)
    case Abandon => s.live.Some? && !s.live.value.dropping
    case Cancel(id) => id < |s.ops| && (s.live.Some? && s.live.value.id == id ==> s.live.value.dropping)
    case PlatformDone => s.executing.Some?
    case Deliver(_) => s.current.Some? && s.done != []
    case DeliverStale => true
    // Until `closeConnection` has returned, the guard that called it keeps the address's pending
    // slot, and `connect` refuses.
    case Connect => s.current == None && !s.clearing
    case Disconnected => s.current.Some?
    case CloseConnection => s.current.Some?
    case ClearPending => s.clearing
  }

  // ---- Specification ------------------------------------------------------------------

  function Q(queues: map<Kind, seq<Id>>, k: Kind): seq<Id> {
    if k in queues then queues[k] else []
  }

  function QueueOf(s: State, k: Kind): seq<Id> {
    Q(s.queues, k)
  }

  /** `ArrayDeque.remove(element)`: the first occurrence. */
  function Remove(q: seq<Id>, id: Id): seq<Id> {
    if q == [] then [] else if q[0] == id then q[1..] else [q[0]] + Remove(q[1..], id)
  }

  function Without(queues: map<Kind, seq<Id>>, id: Id): map<Kind, seq<Id>> {
    map k | k in queues :: Remove(queues[k], id)
  }

  function Queued(s: State, k: Kind, q: seq<Id>): State {
    s.(queues := s.queues[k := q])
  }

  /** The caller takes a result only for the operation it waits for. */
  function Told(s: State, id: Id, ok: bool): State {
    s.(reports := s.reports + [Report(id, ok)],
       live := if s.live.Some? && s.live.value == Live(id, false) then None else s.live)
  }

  function Dropped(s: State, id: Id): State
    requires id < |s.ops|
  {
    var k := s.ops[id].kind;
    Told(Queued(s, k, Remove(QueueOf(s, k), id)), id, false)
  }

  /** `attemptRead`, `attemptWrite` and `attemptSubscribe`, after a retry has claimed its entry. */
  function Attempted(s: State, id: Id, attempt: nat, found: bool, accepted: bool): State
    requires id < |s.ops|
  {
    var op := s.ops[id];
    if s.current != Some(op.session) then
      if attempt > 0 then Dropped(s, id) else Told(s, id, false)
    else
      var s1 := if attempt == 0 then Queued(s, op.kind, QueueOf(s, op.kind) + [id]) else s;
      if !found then Dropped(s1, id)
      else Put(s1.(calls := s.calls + [id]), id, attempt, accepted)
  }

  /** The platform's answer to one call. */
  function Put(s: State, id: Id, attempt: nat, accepted: bool): State
    requires id < |s.ops|
  {
    if accepted then s.(executing := Some(id))
    else if attempt < GATT_BUSY_MAX_RETRIES then
      s.(retries := s.retries[id := attempt + 1], runnables := s.runnables + {(id, attempt + 1)})
    else Dropped(s, id)
  }

  function OnIssue(s: State, kind: Kind, session: nat, found: bool, accepted: bool): State {
    var id := |s.ops|;
    var s1 := s.(ops := s.ops + [Op(kind, session)], live := if s.current == Some(session) then Some(Live(id, false)) else s.live);
    Attempted(s1, id, 0, found, accepted)
  }

  function OnFire(s: State, id: Id, attempt: nat, found: bool, accepted: bool): State {
    var s1 := s.(runnables := s.runnables - {(id, attempt)});
    if id !in s.retries || id >= |s.ops| then s1
    else Attempted(s1.(retries := s.retries - {id}), id, attempt, found, accepted)
  }

  /** Only a retry that nobody has claimed yet can be cancelled; what the platform has accepted
      keeps its place for the completion to come. */
  function OnCancel(s: State, id: Id): State {
    var s1 := s.(live := if s.live.Some? && s.live.value.id == id then None else s.live);
    if id !in s.retries then s1
    else s1.(retries := s.retries - {id}, cancelled := s.cancelled + {id},
             queues := Without(s.queues, id))
  }

  /** The owner's completion: whatever id is first in the queue of its kind. */
  function OnDeliver(s: State, ok: bool): State
    requires s.done != []
  {
    var id := s.done[0];
    var s1 := s.(done := s.done[1..]);
    if id >= |s.ops| then s1
    else
      var k := s.ops[id].kind;
      var q := QueueOf(s, k);
      if q == [] then s1 else Told(Queued(s1, k, q[1..]), q[0], ok)
  }

  /** The link is gone: later completions of its GATT are ignored, and the caller's waiters fail. */
  function Closed(s: State): State {
    s.(current := None, executing := None, done := [], live := None)
  }

  function Apply(s: State, a: Step): State
    requires Enabled(s, a)
  {
    match a
    case Issue(kind, session, found, accepted) => OnIssue(s, kind, session, found, accepted)
    case Fire(id, attempt, found, accepted) => OnFire(s, id, attempt, found, accepted)
    case Abandon => s.(live := Some(Live(s.live.value.id, true)))
    case Cancel(id) => OnCancel(s, id)
    case PlatformDone => s.(done := s.done + [s.executing.value], executing := None)
    case Deliver(ok) => OnDeliver(s, ok)
    case DeliverStale => s
    case Connect => s.(current := Some(s.sessions), sessions := s.sessions + 1)
    case Disconnected => Closed(s).(queues := map[])
    case CloseConnection => Closed(s).(clearing := true)
    case ClearPending => s.(queues := map[], clearing := false)
  }

  // ---- Invariant ------------------------------------------------------------------------

  function OfKind(ops: seq<Op>, ids: seq<Id>, k: Kind): seq<Id> {
    if ids == [] then []
    else
      (if ids[0] < |ops| && ops[ids[0]].kind == k then [ids[0]] else []) + OfKind(ops, ids[1..], k)
  }

  /** The ids the platform has accepted and not yet completed to us, in the order it will. */
  function Accepted(done: seq<Id>, executing: Option<Id>): seq<Id> {
    done + if executing.Some? then [executing.value] else []
  }

  /** The one operation that waits for its next attempt, if any. */
  function Waiting(live: Option<Live>, retries: map<Id, nat>): seq<Id> {
    if live.Some? && live.value.id in retries then [live.value.id] else []
  }

  /** All that will still complete on the queues. */
  function Pending(s: State): seq<Id> {
    Accepted(s.done, s.executing) + Waiting(s.live, s.retries)
  }

  ghost predicate Distinct(q: seq<Id>) {
    forall i, j | 0 <= i < j < |q| :: q[i] != q[j]
  }

  /** Each queue is, in order, exactly what will complete on it. */
  ghost predicate InOrder(ops: seq<Op>, queues: map<Kind, seq<Id>>, pending: seq<Id>) {
    Distinct(pending) && forall k :: Q(queues, k) == OfKind(ops, pending, k)
  }

  /** After a close and before the queues are cleared, they hold leftovers that nothing completes. */
  ghost predicate Leftover(queues: map<Kind, seq<Id>>, pending: seq<Id>) {
    pending == [] && forall k :: Distinct(Q(queues, k))
  }

  ghost predicate AllOfKind(ops: seq<Op>, q: seq<Id>, k: Kind) {
    forall id <- q :: id < |ops| && ops[id].kind == k
  }

  ghost predicate QueuesKnown(ops: seq<Op>, queues: map<Kind, seq<Id>>) {
    forall k :: AllOfKind(ops, Q(queues, k), k)
  }

  ghost predicate PendingKnown(ops: seq<Op>, current: Option<nat>, pending: seq<Id>) {
    forall id <- pending :: id < |ops| && current == Some(ops[id].session)
  }

  ghost predicate SessionsKnown(ops: seq<Op>, current: Option<nat>, sessions: nat) {
    && (forall op <- ops :: op.session < sessions)
    && (current.Some? ==> current.value < sessions)
  }

  ghost predicate LiveKnown(ops: seq<Op>, current: Option<nat>, live: Option<Live>) {
    live.Some? ==> live.value.id < |ops| && current == Some(ops[live.value.id].session)
  }

  /** A retry of the current session belongs to the operation the caller waits for, and nothing
      the platform has accepted has a retry. */
  ghost predicate RetriesOk(ops: seq<Op>, current: Option<nat>, live: Option<Live>, retries: map<Id, nat>, accepted: seq<Id>) {
    && (forall id <- retries :: id < |ops|)
    && (forall id <- retries :: current == Some(ops[id].session) ==> live.Some? && live.value.id == id)
    && (forall id <- accepted :: id !in retries)
  }

  ghost predicate NoTwice(reports: seq<Report>) {
    forall i, j | 0 <= i < j < |reports| :: reports[i].id != reports[j].id
  }

  function Reported(reports: seq<Report>): set<Id> {
    set r | r in reports :: r.id
  }

  /** What has been reported is out of every queue and will not be attempted again. */
  ghost predicate ReportsOk(n: nat, reports: seq<Report>, queues: map<Kind, seq<Id>>, retries: map<Id, nat>) {
    && NoTwice(reports)
    && (forall id <- Reported(reports) :: id < n && id !in retries)
    && (forall k, id | id in Q(queues, k) :: id !in Reported(reports))
  }

  ghost predicate Inv(s: State) {
    && (if s.clearing then Leftover(s.queues, Pending(s)) else InOrder(s.ops, s.queues, Pending(s)))
    && QueuesKnown(s.ops, s.queues)
    && PendingKnown(s.ops, s.current, Pending(s))
    && SessionsKnown(s.ops, s.current, s.sessions)
    && LiveKnown(s.ops, s.current, s.live)
    && RetriesOk(s.ops, s.current, s.live, s.retries, Accepted(s.done, s.executing))
    && ReportsOk(|s.ops|, s.reports, s.queues, s.retries)
    && (s.clearing ==> s.current == None)
  }

  // ---- Queues ---------------------------------------------------------------------------

  lemma {:induction false} OfKindAppend(ops: seq<Op>, a: seq<Id>, id: Id, k: Kind)
    ensures OfKind(ops, a + [id], k) == OfKind(ops, a, k) + if id < |ops| && ops[id].kind == k then [id] else []
  {
    var b := a + [id];
    var last := if id < |ops| && ops[id].kind == k then [id] else [];
    if a == [] {
      assert b == [id] && b[1..] == [];
      assert OfKind(ops, b, k) == last + OfKind(ops, [], k);
    } else {
      var first := if a[0] < |ops| && ops[a[0]].kind == k then [a[0]] else [];
      assert b[0] == a[0] && b[1..] == a[1..] + [id];
      OfKindAppend(ops, a[1..], id, k);
      assert OfKind(ops, b, k) == first + (OfKind(ops, a[1..], k) + last) == (first + OfKind(ops, a[1..], k)) + last;
    }
  }

  lemma {:induction false} OfKindMembers(ops: seq<Op>, a: seq<Id>, k: Kind)
    ensures forall id :: id in OfKind(ops, a, k) <==> id in a && id < |ops| && ops[id].kind == k
  {
    if a != [] {
      OfKindMembers(ops, a[1..], k);
      assert a == [a[0]] + a[1..];
    }
  }

  lemma {:induction false} OfKindDistinct(ops: seq<Op>, a: seq<Id>, k: Kind)
    requires Distinct(a)
    ensures Distinct(OfKind(ops, a, k))
  {
    if a != [] {
      assert Distinct(a[1..]);
      OfKindDistinct(ops, a[1..], k);
      OfKindMembers(ops, a[1..], k);
      assert a[0] !in a[1..];
    }
  }

  lemma {:induction false} OfKindMoreOps(ops: seq<Op>, op: Op, a: seq<Id>, k: Kind)
    requires forall id <- a :: id < |ops|
    ensures OfKind(ops + [op], a, k) == OfKind(ops, a, k)
  {
    if a != [] {
      assert forall id <- a[1..] :: id in a;
      assert a[0] in a;
      OfKindMoreOps(ops, op, a[1..], k);
    }
  }

  lemma {:induction false} RemoveAbsent(q: seq<Id>, id: Id)
    requires id !in q
    ensures Remove(q, id) == q
  {
    if q != [] {
      RemoveAbsent(q[1..], id);
    }
  }

  lemma {:induction false} RemoveLast(q: seq<Id>, id: Id)
    requires id !in q
    ensures Remove(q + [id], id) == q
  {
    if q == [] {
      assert ([] + [id])[1..] == [];
    } else {
      assert (q + [id])[1..] == q[1..] + [id];
      RemoveLast(q[1..], id);
    }
  }

  lemma {:induction false} RemoveKeeps(q: seq<Id>, id: Id)
    requires Distinct(q)
    ensures Distinct(Remove(q, id)) && forall x :: x in Remove(q, id) <==> x in q && x != id
  {
    if q != [] {
      assert Distinct(q[1..]);
      RemoveKeeps(q[1..], id);
      assert q[0] !in q[1..] && q == [q[0]] + q[1..];
    }
  }

  lemma DistinctLast(a: seq<Id>, id: Id)
    ensures Distinct(a + [id]) <==> Distinct(a) && id !in a
  {
    var b := a + [id];
    assert b[|a|] == id && forall i | 0 <= i < |a| :: b[i] == a[i];
  }

  lemma QueuesDistinct(s: State)
    requires Inv(s)
    ensures forall k :: Distinct(Q(s.queues, k))
  {
    if !s.clearing {
      forall k
        ensures Distinct(Q(s.queues, k))
      {
        OfKindDistinct(s.ops, Pending(s), k);
      }
    }
  }

  /** One more report, of an id that was taken out of its queue. */
  lemma ReportMore(n: nat, reports: seq<Report>, queues: map<Kind, seq<Id>>, queues': map<Kind, seq<Id>>, retries: map<Id, nat>, r: Report)
    requires ReportsOk(n, reports, queues, retries)
    requires r.id < n && r.id !in Reported(reports) && r.id !in retries
    requires forall k, x | x in Q(queues', k) :: x in Q(queues, k) && x != r.id
    ensures ReportsOk(n, reports + [r], queues', retries)
  {
    var reports' := reports + [r];
    assert forall x :: x in reports' <==> x in reports || x == r;
    assert Reported(reports') == Reported(reports) + {r.id};
    forall i | 0 <= i < |reports|
      ensures reports'[i].id != r.id
    {
      assert reports[i] in reports;
    }
  }

  /** One id of a queue is removed. */
  lemma RemovedQueues(ops: seq<Op>, queues: map<Kind, seq<Id>>, id: Id)
    requires id < |ops| && QueuesKnown(ops, queues) && forall k :: Distinct(Q(queues, k))
    ensures var kind := ops[id].kind;
            var queues' := queues[kind := Remove(Q(queues, kind), id)];
            && QueuesKnown(ops, queues')
            && (forall k :: Distinct(Q(queues', k)))
            && (forall k, x | x in Q(queues', k) :: x in Q(queues, k) && x != id)
            && (forall k | k != kind :: Q(queues', k) == Q(queues, k))
  {
    hide Distinct, Remove;
    var kind := ops[id].kind;
    var queues' := queues[kind := Remove(Q(queues, kind), id)];
    RemoveKeeps(Q(queues, kind), id);
    assert forall k :: Q(queues', k) == if k == kind then Remove(Q(queues, kind), id) else Q(queues, k);
    forall k, x | x in Q(queues', k)
      ensures x in Q(queues, k) && x != id
    {
      assert x in Q(queues, k);
    }
  }

  // ---- An attempt --------------------------------------------------------------------------

  /** The current operation has claimed its attempt and is last in its queue. */
  ghost predicate Staged(s: State, id: Id) {
    && !s.clearing && id < |s.ops| && s.current == Some(s.ops[id].session)
    && s.live.Some? && s.live.value.id == id && id !in s.retries && id !in Reported(s.reports)
    && InOrder(s.ops, s.queues, Accepted(s.done, s.executing) + [id])
    && QueuesKnown(s.ops, s.queues)
    && PendingKnown(s.ops, s.current, Accepted(s.done, s.executing))
    && SessionsKnown(s.ops, s.current, s.sessions)
    && RetriesOk(s.ops, s.current, s.live, s.retries, Accepted(s.done, s.executing))
    && ReportsOk(|s.ops|, s.reports, s.queues, s.retries)
  }

  lemma StagedQueues(ops: seq<Op>, queues: map<Kind, seq<Id>>, accepted: seq<Id>, id: Id)
    requires id < |ops| && InOrder(ops, queues, accepted + [id])
    ensures var kind := ops[id].kind;
            InOrder(ops, queues[kind := Remove(Q(queues, kind), id)], accepted)
  {
    var kind := ops[id].kind;
    var queues' := queues[kind := Remove(Q(queues, kind), id)];
    DistinctLast(accepted, id);
    forall k
      ensures Q(queues', k) == OfKind(ops, accepted, k)
    {
      OfKindAppend(ops, accepted, id, k);
      OfKindMembers(ops, accepted, k);
      if k == kind {
        RemoveLast(OfKind(ops, accepted, k), id);
      }
    }
  }

  lemma StagedDistinct(s: State, id: Id)
    requires Staged(s, id)
    ensures forall k :: Distinct(Q(s.queues, k))
  {
    forall k
      ensures Distinct(Q(s.queues, k))
    {
      OfKindDistinct(s.ops, Accepted(s.done, s.executing) + [id], k);
    }
  }

  lemma StagedDrops(s: State, id: Id)
    requires Staged(s, id)
    ensures Inv(Dropped(s, id))
  {
    hide InOrder, QueuesKnown, PendingKnown, SessionsKnown, ReportsOk, Reported, Q, Remove, Distinct;
    var s' := Dropped(s, id);
    StagedDistinct(s, id);
    StagedQueues(s.ops, s.queues, Accepted(s.done, s.executing), id);
    RemovedQueues(s.ops, s.queues, id);
    ReportMore(|s.ops|, s.reports, s.queues, s'.queues, s.retries, Report(id, false));
    assert Pending(s') == Accepted(s.done, s.executing);
  }

  lemma StagedPuts(s: State, id: Id, attempt: nat, accepted: bool)
    requires Staged(s, id) && MayAccept(s, accepted)
    ensures Inv(Put(s, id, attempt, accepted))
  {
    hide QueuesKnown, SessionsKnown, Reported, Q, Dropped, OfKind, NoTwice;
    var s' := Put(s, id, attempt, accepted);
    var before := Accepted(s.done, s.executing);
    DistinctLast(before, id);
    if accepted {
      assert Accepted(s'.done, s'.executing) == before + [id];
      assert Pending(s') == before + [id];
    } else if attempt < GATT_BUSY_MAX_RETRIES {
      assert Pending(s') == before + [id];
    } else {
      StagedDrops(s, id);
    }
  }

  /** An attempt of an operation whose session is gone: at most a leftover is removed. */
  lemma StaleDrops(s: State, id: Id)
    requires Inv(s) && id < |s.ops| && s.current != Some(s.ops[id].session) && id !in s.retries && id !in Reported(s.reports)
    ensures Inv(Dropped(s, id))
  {
    var s' := Dropped(s, id);
    var kind := s.ops[id].kind;
    QueuesDistinct(s);
    RemovedQueues(s.ops, s.queues, id);
    ReportMore(|s.ops|, s.reports, s.queues, s'.queues, s.retries, Report(id, false));
    assert s'.live == s.live;
    if !s.clearing {
      OfKindMembers(s.ops, Pending(s), kind);
      RemoveAbsent(Q(s.queues, kind), id);
      assert forall k :: Q(s'.queues, k) == Q(s.queues, k);
    }
  }

  lemma JustTold(s: State, id: Id)
    requires Inv(s) && id < |s.ops| && id !in s.retries && id !in Reported(s.reports) && forall k :: id !in Q(s.queues, k)
    requires s.live.Some? ==> s.live.value.id != id
    ensures Inv(Told(s, id, false))
  {
    hide InOrder, Leftover, QueuesKnown, PendingKnown, SessionsKnown, LiveKnown, RetriesOk, ReportsOk, Reported, Q;
    ReportMore(|s.ops|, s.reports, s.queues, s.queues, s.retries, Report(id, false));
  }

  lemma KnownMoreOps(ops: seq<Op>, op: Op, queues: map<Kind, seq<Id>>)
    requires QueuesKnown(ops, queues)
    ensures QueuesKnown(ops + [op], queues)
    ensures forall k :: |ops| !in Q(queues, k)
  {}

  lemma MoreOps(s: State, op: Op)
    requires Inv(s) && op.session < s.sessions
    ensures var s' := s.(ops := s.ops + [op]);
            var id := |s.ops|;
            && Inv(s')
            && id !in s.retries && id !in Reported(s.reports) && (forall k :: id !in Q(s.queues, k)) && id !in Pending(s)
  {
    hide Distinct, NoTwice, Reported, Pending, Accepted, QueuesKnown, Q;
    forall k
      ensures OfKind(s.ops + [op], Pending(s), k) == OfKind(s.ops, Pending(s), k)
    {
      OfKindMoreOps(s.ops, op, Pending(s), k);
    }
    var ops' := s.ops + [op];
    var s' := s.(ops := ops');
    SamePending(s, s');
    AcceptedIsPending(s);
    KnownMoreOps(s.ops, op, s.queues);
    assert forall i | 0 <= i < |s.ops| :: ops'[i] == s.ops[i];
    assert PendingKnown(ops', s.current, Pending(s));
    assert SessionsKnown(ops', s.current, s.sessions);
    assert RetriesOk(ops', s.current, s.live, s.retries, Accepted(s.done, s.executing));
  }

  lemma AcceptedIsPending(s: State)
    ensures forall id <- Accepted(s.done, s.executing) :: id in Pending(s)
  {}

  lemma SamePending(s: State, s': State)
    requires s'.done == s.done && s'.executing == s.executing && s'.live == s.live && s'.retries == s.retries
    ensures Pending(s') == Pending(s)
  {}

  /** The new id goes to the end of its queue. */
  lemma Enqueued(ops: seq<Op>, queues: map<Kind, seq<Id>>, accepted: seq<Id>, id: Id)
    requires id < |ops| && QueuesKnown(ops, queues) && InOrder(ops, queues, accepted) && id !in accepted
    ensures var kind := ops[id].kind;
            var queues' := queues[kind := Q(queues, kind) + [id]];
            && QueuesKnown(ops, queues') && InOrder(ops, queues', accepted + [id])
            && (forall k, x | x in Q(queues', k) :: x in Q(queues, k) || x == id)
  {
    hide Distinct, OfKind;
    var kind := ops[id].kind;
    var queues' := queues[kind := Q(queues, kind) + [id]];
    DistinctLast(accepted, id);
    forall k
      ensures Q(queues', k) == OfKind(ops, accepted + [id], k)
      ensures forall x | x in Q(queues', k) :: x in Q(queues, k) || (x == id && k == kind)
    {
      OfKindAppend(ops, accepted, id, k);
    }
  }

  lemma IssueStages(s: State, id: Id)
    requires Inv(s) && id < |s.ops| && s.current == Some(s.ops[id].session) && s.live == None && !s.clearing
    requires id !in s.retries && id !in Reported(s.reports) && (forall k :: id !in Q(s.queues, k)) && id !in Pending(s)
    ensures var k := s.ops[id].kind;
            Staged(Queued(s.(live := Some(Live(id, false))), k, QueueOf(s, k) + [id]), id)
  {
    hide SessionsKnown, NoTwice, Reported, QueuesKnown, InOrder, Q, Accepted;
    var kind := s.ops[id].kind;
    var queues' := s.queues[kind := Q(s.queues, kind) + [id]];
    var accepted := Accepted(s.done, s.executing);
    assert Pending(s) == accepted;
    Enqueued(s.ops, s.queues, accepted, id);
    assert ReportsOk(|s.ops|, s.reports, queues', s.retries);
  }

  lemma IssueKeepsInv(s: State, kind: Kind, session: nat, found: bool, accepted: bool)
    requires Inv(s) && Enabled(s, Issue(kind, session, found, accepted))
    ensures Inv(OnIssue(s, kind, session, found, accepted))
  {
    hide Inv, Staged, Pending, Reported, Dropped, Put, Q;
    var op := Op(kind, session);
    var id := |s.ops|;
    var s0 := s.(ops := s.ops + [op]);
    MoreOps(s, op);
    SamePending(s, s0);
    KnownFacts(s);
    if s.current == Some(session) {
      IssueStages(s0, id);
      var s1 := Queued(s0.(live := Some(Live(id, false))), kind, QueueOf(s0, kind) + [id]);
      if found {
        StagedCalls(s1, id);
        StagedPuts(s1.(calls := s.calls + [id]), id, 0, accepted);
      } else {
        StagedDrops(s1, id);
      }
    } else {
      JustTold(s0, id);
    }
  }

  lemma KnownFacts(s: State)
    requires Inv(s)
    ensures s.live.Some? ==> s.live.value.id < |s.ops| && s.current == Some(s.ops[s.live.value.id].session)
    ensures forall id <- s.retries :: id < |s.ops| && id !in Reported(s.reports)
    ensures s.clearing ==> s.current == None
  {}

  lemma StagedCalls(s: State, id: Id)
    requires Staged(s, id)
    ensures Staged(s.(calls := s.calls + [id]), id)
  {}

  /** A retry of the current session that claims its entry is last in its queue already. */
  lemma FireStages(s: State, id: Id)
    requires Inv(s) && id in s.retries && s.current == Some(s.ops[id].session)
    ensures Staged(s.(retries := s.retries - {id}), id)
  {}

  lemma UnclaimedKeepsInv(s: State, id: Id)
    requires Inv(s) && id in s.retries && s.current != Some(s.ops[id].session)
    ensures Inv(s.(retries := s.retries - {id}))
  {}

  lemma RunnablesDoNotMatter(s: State, runnables: set<(Id, nat)>)
    requires Inv(s)
    ensures Inv(s.(runnables := runnables))
  {}

  lemma FireKeepsInv(s: State, id: Id, attempt: nat, found: bool, accepted: bool)
    requires Inv(s) && MayAccept(s, accepted) && attempt > 0
    ensures Inv(OnFire(s, id, attempt, found, accepted))
  {
    hide Inv, Staged, Reported, Dropped, Put;
    var s1 := s.(runnables := s.runnables - {(id, attempt)});
    RunnablesDoNotMatter(s, s1.runnables);
    KnownFacts(s1);
    if id in s.retries {
      var s2 := s1.(retries := s.retries - {id});
      if s.current == Some(s.ops[id].session) {
        FireStages(s1, id);
        if found {
          StagedCalls(s2, id);
          StagedPuts(s2.(calls := s.calls + [id]), id, attempt, accepted);
        } else {
          StagedDrops(s2, id);
        }
      } else {
        UnclaimedKeepsInv(s1, id);
        StaleDrops(s2, id);
      }
    }
  }

  // ---- Cancellation, completion, connection -----------------------------------------------

  lemma WithoutQueue(queues: map<Kind, seq<Id>>, id: Id, k: Kind)
    ensures Q(Without(queues, id), k) == Remove(Q(queues, k), id)
  {}

  /** Cancelling the waiting operation takes it off the end of its queue and off no other. */
  lemma CancelWaiting(ops: seq<Op>, queues: map<Kind, seq<Id>>, accepted: seq<Id>, id: Id)
    requires id < |ops| && InOrder(ops, queues, accepted + [id])
    ensures InOrder(ops, Without(queues, id), accepted)
  {
    DistinctLast(accepted, id);
    forall k
      ensures Q(Without(queues, id), k) == OfKind(ops, accepted, k)
    {
      WithoutQueue(queues, id, k);
      OfKindAppend(ops, accepted, id, k);
      OfKindMembers(ops, accepted, k);
      if k == ops[id].kind {
        RemoveLast(OfKind(ops, accepted, k), id);
      } else {
        assert OfKind(ops, accepted, k) + [] == OfKind(ops, accepted, k);
        RemoveAbsent(OfKind(ops, accepted, k), id);
      }
    }
  }

  /** Cancelling an operation that waits for nothing here changes no queue. */
  lemma CancelAbsent(ops: seq<Op>, queues: map<Kind, seq<Id>>, pending: seq<Id>, id: Id)
    requires InOrder(ops, queues, pending) && id !in pending
    ensures InOrder(ops, Without(queues, id), pending)
  {
    forall k
      ensures Q(Without(queues, id), k) == OfKind(ops, pending, k)
    {
      WithoutQueue(queues, id, k);
      OfKindMembers(ops, pending, k);
      RemoveAbsent(Q(queues, k), id);
    }
  }

  lemma CancelShrinks(ops: seq<Op>, queues: map<Kind, seq<Id>>, id: Id)
    requires QueuesKnown(ops, queues) && forall k :: Distinct(Q(queues, k))
    ensures QueuesKnown(ops, Without(queues, id))
    ensures forall k :: Distinct(Q(Without(queues, id), k))
    ensures forall k :: id !in Q(Without(queues, id), k)
    ensures forall k, x | x in Q(Without(queues, id), k) :: x in Q(queues, k)
  {
    forall k
      ensures AllOfKind(ops, Q(Without(queues, id), k), k)
      ensures Distinct(Q(Without(queues, id), k)) && id !in Q(Without(queues, id), k)
      ensures forall x | x in Q(Without(queues, id), k) :: x in Q(queues, k)
    {
      assert AllOfKind(ops, Q(queues, k), k);
      WithoutQueue(queues, id, k);
      RemoveKeeps(Q(queues, k), id);
    }
  }

  lemma CancelKeepsInv(s: State, id: Id)
    requires Inv(s)
    ensures Inv(OnCancel(s, id))
    ensures id in s.retries ==> forall k :: id !in Q(OnCancel(s, id).queues, k)
  {
    hide QueuesKnown, SessionsKnown, NoTwice, Reported, Q, Without, Remove, OfKind, Distinct;
    var s' := OnCancel(s, id);
    var accepted := Accepted(s.done, s.executing);
    if id in s.retries {
      QueuesDistinct(s);
      CancelShrinks(s.ops, s.queues, id);
      if s.live.Some? && s.live.value.id == id {
        assert Pending(s) == accepted + [id] && Pending(s') == accepted;
        assert forall x <- accepted :: x in Pending(s);
        if !s.clearing {
          CancelWaiting(s.ops, s.queues, accepted, id);
        }
      } else {
        assert Pending(s') == Pending(s);
        if !s.clearing {
          assert id !in accepted;
          CancelAbsent(s.ops, s.queues, Pending(s), id);
        }
      }
    } else {
      assert Pending(s') == Pending(s);
    }
  }

  /** Every completion pops the id of the operation whose platform call it completes. */
  lemma CompletionIsAttributed(s: State, ok: bool)
    requires Inv(s) && Enabled(s, Deliver(ok))
    ensures !s.clearing && s.done[0] < |s.ops|
    ensures var k := s.ops[s.done[0]].kind;
            && QueueOf(s, k) != [] && QueueOf(s, k)[0] == s.done[0]
            && Apply(s, Deliver(ok)).reports == s.reports + [Report(s.done[0], ok)]
  {
    var id := s.done[0];
    var rest := s.done[1..] + (if s.executing.Some? then [s.executing.value] else []) + Waiting(s.live, s.retries);
    assert Pending(s) == [id] + rest;
    assert id in Pending(s);
    assert OfKind(s.ops, Pending(s), s.ops[id].kind) == [id] + OfKind(s.ops, rest, s.ops[id].kind);
  }

  lemma DistinctRest(id: Id, rest: seq<Id>)
    requires Distinct([id] + rest)
    ensures Distinct(rest) && id !in rest
  {
    var all := [id] + rest;
    forall i | 0 <= i < |rest|
      ensures rest[i] == all[i + 1] && rest[i] != all[0]
    {
    }
  }

  lemma PoppedQueues(ops: seq<Op>, queues: map<Kind, seq<Id>>, id: Id, rest: seq<Id>)
    requires id < |ops| && InOrder(ops, queues, [id] + rest) && QueuesKnown(ops, queues)
    ensures var kind := ops[id].kind;
            && Q(queues, kind) != []
            && var queues' := queues[kind := Q(queues, kind)[1..]];
               && InOrder(ops, queues', rest) && QueuesKnown(ops, queues')
               && forall k, x | x in Q(queues', k) :: x in Q(queues, k) && x != id
  {
    var kind := ops[id].kind;
    var all := [id] + rest;
    assert all[1..] == rest;
    assert Q(queues, kind) == OfKind(ops, all, kind) == [id] + OfKind(ops, rest, kind);
    var queues' := queues[kind := Q(queues, kind)[1..]];
    DistinctRest(id, rest);
    forall k
      ensures Q(queues', k) == OfKind(ops, rest, k) && AllOfKind(ops, Q(queues', k), k)
      ensures forall x | x in Q(queues', k) :: x in Q(queues, k) && x != id
    {
      assert AllOfKind(ops, Q(queues, k), k);
      OfKindMembers(ops, rest, k);
      OfKindMembers(ops, all, k);
    }
  }

  lemma RestKnown(ops: seq<Op>, current: Option<nat>, id: Id, rest: seq<Id>)
    requires PendingKnown(ops, current, [id] + rest)
    ensures PendingKnown(ops, current, rest)
  {}

  /** Once its completion is taken, the caller may go on: it has no retry left. */
  lemma RestRetries(ops: seq<Op>, current: Option<nat>, live: Option<Live>, live': Option<Live>, retries: map<Id, nat>, id: Id, later: seq<Id>)
    requires RetriesOk(ops, current, live, retries, [id] + later)
    requires live' == live || (live' == None && live == Some(Live(id, false)))
    ensures RetriesOk(ops, current, live', retries, later)
    ensures Waiting(live', retries) == Waiting(live, retries)
  {}

  lemma DeliverShape(s: State, ok: bool)
    requires Inv(s) && Enabled(s, Deliver(ok)) && !s.clearing && s.done[0] < |s.ops|
    ensures var (s', k) := (OnDeliver(s, ok), s.ops[s.done[0]].kind);
            && Q(s.queues, k) != []
            && (s'.live == s.live || (s'.live == None && s.live == Some(Live(s.done[0], false))))
            && s' == s.(done := s.done[1..], live := s'.live, queues := s.queues[k := Q(s.queues, k)[1..]],
                        reports := s.reports + [Report(s.done[0], ok)])
  {}

  lemma DeliverKeepsInv(s: State, ok: bool)
    requires Inv(s) && Enabled(s, Deliver(ok))
    ensures Inv(OnDeliver(s, ok))
  {
    hide QueuesKnown, SessionsKnown, Q, InOrder, ReportsOk, RetriesOk, PendingKnown, OnDeliver, Accepted, Reported, Waiting;
    CompletionIsAttributed(s, ok);
    var id := s.done[0];
    var s' := OnDeliver(s, ok);
    var later := Accepted(s.done[1..], s.executing);
    var rest := later + Waiting(s.live, s.retries);
    DeliverShape(s, ok);
    DeliveredFirst(s);
    RestKnown(s.ops, s.current, id, rest);
    RestRetries(s.ops, s.current, s.live, s'.live, s.retries, id, later);
    assert Pending(s') == rest;
    assert LiveKnown(s.ops, s.current, None);
    PoppedQueues(s.ops, s.queues, id, rest);
    DeliveredNotReported(s);
    ReportMore(|s.ops|, s.reports, s.queues, s'.queues, s.retries, Report(id, ok));
  }

  lemma DeliveredFirst(s: State)
    requires s.done != []
    ensures Pending(s) == [s.done[0]] + (Accepted(s.done[1..], s.executing) + Waiting(s.live, s.retries))
    ensures Accepted(s.done, s.executing) == [s.done[0]] + Accepted(s.done[1..], s.executing)
  {}

  lemma DeliveredNotReported(s: State)
    requires Inv(s) && s.done != [] && !s.clearing
    ensures s.done[0] < |s.ops| && s.done[0] !in Reported(s.reports) && s.done[0] !in s.retries
  {
    var id := s.done[0];
    assert id in Accepted(s.done, s.executing) && id in Pending(s);
    OfKindMembers(s.ops, Pending(s), s.ops[id].kind);
    assert id in Q(s.queues, s.ops[id].kind);
  }

  lemma ConnectKeepsInv(s: State)
    requires Inv(s) && Enabled(s, Connect)
    ensures Inv(Apply(s, Connect))
  {}

  lemma EmptyQueues(ops: seq<Op>, reports: seq<Report>, queues: map<Kind, seq<Id>>, retries: map<Id, nat>)
    requires ReportsOk(|ops|, reports, queues, retries)
    ensures InOrder(ops, map[], []) && Leftover(map[], []) && QueuesKnown(ops, map[]) && ReportsOk(|ops|, reports, map[], retries)
  {
    hide NoTwice, Reported;
  }

  lemma CloseKeepsInv(s: State, a: Step)
    requires Inv(s) && Enabled(s, a) && (a.Disconnected? || a.CloseConnection? || a.ClearPending?)
    ensures Inv(Apply(s, a))
  {
    hide InOrder, QueuesKnown, ReportsOk, SessionsKnown;
    QueuesDistinct(s);
    EmptyQueues(s.ops, s.reports, s.queues, s.retries);
    SessionsStay(s, None);
    assert Pending(Apply(s, a)) == [];
  }

  lemma SessionsStay(s: State, current: Option<nat>)
    requires SessionsKnown(s.ops, s.current, s.sessions) && (current == None || current == s.current)
    ensures SessionsKnown(s.ops, current, s.sessions)
  {}

  lemma QuietKeepsInv(s: State, a: Step)
    requires Inv(s) && Enabled(s, a) && (a.Abandon? || a.PlatformDone? || a.DeliverStale?)
    ensures Inv(Apply(s, a))
  {
    hide InOrder, Leftover, QueuesKnown, SessionsKnown, ReportsOk, PendingKnown;
    var s' := Apply(s, a);
    assert Accepted(s'.done, s'.executing) == Accepted(s.done, s.executing);
    assert Pending(s') == Pending(s);
  }

  // ---- Retries, and every run ---------------------------------------------------------------

  function Calls(calls: seq<Id>, id: Id): nat {
    if calls == [] then 0 else Calls(calls[..|calls| - 1], id) + if calls[|calls| - 1] == id then 1 else 0
  }

  lemma OneMoreCall(calls: seq<Id>, x: Id, id: Id)
    ensures Calls(calls + [x], id) == Calls(calls, id) + if x == id then 1 else 0
  {}

  /** A scheduled retry has its runnable, numbered like it, and each number is one call made. */
  ghost predicate BudgetOk(s: State) {
    && (forall id, n | (id, n) in s.runnables :: 0 < n <= GATT_BUSY_MAX_RETRIES && (id in s.retries ==> n == s.retries[id]))
    && (forall id <- s.retries :: id < |s.ops| && (id, s.retries[id]) in s.runnables && Calls(s.calls, id) == s.retries[id])
    && (forall id, n | (id, n) in s.runnables :: id < |s.ops|)
    && (forall id :: Calls(s.calls, id) <= 1 + GATT_BUSY_MAX_RETRIES)
    && (forall id | id >= |s.ops| :: Calls(s.calls, id) == 0)
  }

  lemma DroppedShape(s: State, id: Id)
    requires id < |s.ops|
    ensures var s' := Dropped(s, id);
            s' == s.(queues := s'.queues, reports := s'.reports, live := s'.live) && (s'.live == s.live || s'.live == None)
  {}

  /** What an attempt does to the retries and the calls. */
  lemma AttemptShape(s: State, id: Id, attempt: nat, found: bool, accepted: bool)
    requires id < |s.ops|
    ensures var s' := Attempted(s, id, attempt, found, accepted);
            && s'.ops == s.ops && s'.done == s.done && (s'.executing == s.executing || s'.executing == Some(id))
            && (s'.live == s.live || s'.live == None)
            && (s'.calls == s.calls || s'.calls == s.calls + [id])
            && ((s'.retries == s.retries && s'.runnables == s.runnables)
                || (&& attempt < GATT_BUSY_MAX_RETRIES && s'.calls == s.calls + [id]
                    && s'.retries == s.retries[id := attempt + 1] && s'.runnables == s.runnables + {(id, attempt + 1)}))
  {
    hide Remove, Q, Dropped;
    DroppedShape(s, id);
    var op := s.ops[id];
    var s1 := if attempt == 0 then Queued(s, op.kind, QueueOf(s, op.kind) + [id]) else s;
    DroppedShape(s1, id);
    DroppedShape(s1.(calls := s.calls + [id]), id);
  }

  lemma AttemptKeepsBudget(s: State, id: Id, attempt: nat, found: bool, accepted: bool)
    requires BudgetOk(s) && id < |s.ops| && id !in s.retries && Calls(s.calls, id) == attempt <= GATT_BUSY_MAX_RETRIES
    requires forall n :: (id, n) !in s.runnables
    ensures BudgetOk(Attempted(s, id, attempt, found, accepted))
  {
    hide Attempted, Calls;
    AttemptShape(s, id, attempt, found, accepted);
    forall x
      ensures Calls(s.calls + [id], x) == Calls(s.calls, x) + if x == id then 1 else 0
    {
      OneMoreCall(s.calls, id, x);
    }
  }

  lemma StepKeepsBudget(s: State, a: Step)
    requires BudgetOk(s) && Enabled(s, a)
    ensures BudgetOk(Apply(s, a))
  {
    hide Calls, Attempted, OnDeliver, Closed;
    match a {
      case Issue(kind, session, found, accepted) =>
        var s1 := s.(ops := s.ops + [Op(kind, session)],
                     live := if s.current == Some(session) then Some(Live(|s.ops|, false)) else s.live);
        AttemptKeepsBudget(s1, |s.ops|, 0, found, accepted);
      case Fire(id, attempt, found, accepted) =>
        if id in s.retries {
          var s1 := s.(runnables := s.runnables - {(id, attempt)}, retries := s.retries - {id});
          AttemptKeepsBudget(s1, id, attempt, found, accepted);
        }
      case Deliver(ok) => DeliverKeepsBudget(s, ok);
      case Disconnected => CloseKeepsBudget(s);
      case CloseConnection => CloseKeepsBudget(s);
      case _ =>
    }
  }

  lemma DeliverKeepsBudget(s: State, ok: bool)
    requires s.done != []
    ensures var s' := OnDeliver(s, ok); s' == s.(done := s'.done, queues := s'.queues, reports := s'.reports, live := s'.live)
  {}

  lemma CloseKeepsBudget(s: State)
    ensures var s' := Closed(s); s' == s.(current := None, executing := None, done := [], live := None)
  {}

  ghost predicate AllOk(s: State) {
    Inv(s) && BudgetOk(s)
  }

  lemma StepKeepsInv(s: State, a: Step)
    requires AllOk(s) && Enabled(s, a)
    ensures AllOk(Apply(s, a))
  {
    hide Inv, BudgetOk, OnIssue, OnFire, OnCancel, OnDeliver, Closed;
    StepKeepsBudget(s, a);
    match a {
      case Issue(kind, session, found, accepted) => IssueKeepsInv(s, kind, session, found, accepted);
      case Fire(id, attempt, found, accepted) =>
        RunnableCounts(s, id, attempt);
        FireKeepsInv(s, id, attempt, found, accepted);
      case Cancel(id) => CancelKeepsInv(s, id);
      case Deliver(ok) => DeliverKeepsInv(s, ok);
      case Connect => ConnectKeepsInv(s);
      case Disconnected => CloseKeepsInv(s, a);
      case CloseConnection => CloseKeepsInv(s, a);
      case ClearPending => CloseKeepsInv(s, a);
      case _ => QuietKeepsInv(s, a);
    }
  }

  lemma RunnableCounts(s: State, id: Id, attempt: nat)
    requires BudgetOk(s) && (id, attempt) in s.runnables
    ensures 0 < attempt
  {}

  /** What a step can add to what the platform was asked and to what the caller was told. */
  ghost predicate Untouched(s: State, s': State, id: Id) {
    && Calls(s'.calls, id) == Calls(s.calls, id)
    && (id in Reported(s'.reports) ==> id in Reported(s.reports))
  }

  lemma AttemptTouchesOwn(s: State, x: Id, attempt: nat, found: bool, accepted: bool, id: Id)
    requires x < |s.ops| && x != id
    ensures Untouched(s, Attempted(s, x, attempt, found, accepted), id)
  {}

  /** A cancelled operation is nowhere: not scheduled, not accepted, not queued. */
  ghost predicate Gone(s: State, id: Id) {
    id < |s.ops| && id !in s.retries && (s.live.Some? ==> s.live.value.id != id)
    && id !in Accepted(s.done, s.executing) && forall k :: id !in Q(s.queues, k)
  }

  lemma CancelledIsGone(s: State, id: Id)
    requires Inv(s) && Enabled(s, Cancel(id)) && id in s.retries
    ensures Gone(Apply(s, Cancel(id)), id)
  {
    CancelKeepsInv(s, id);
  }

  lemma AttemptQueues(s: State, x: Id, attempt: nat, found: bool, accepted: bool, k: Kind)
    requires x < |s.ops|
    ensures forall id | id in Q(Attempted(s, x, attempt, found, accepted).queues, k) :: id == x || id in Q(s.queues, k)
  {
    hide Remove;
    var kind := s.ops[x].kind;
    RemoveFewer(Q(s.queues, kind), x);
    RemoveFewer(Q(s.queues, kind) + [x], x);
  }

  lemma AttemptStaysGone(s: State, x: Id, attempt: nat, found: bool, accepted: bool, id: Id)
    requires Gone(s, id) && x < |s.ops| && x != id
    ensures Gone(Attempted(s, x, attempt, found, accepted), id)
  {
    hide Attempted, Q;
    var s' := Attempted(s, x, attempt, found, accepted);
    AttemptShape(s, x, attempt, found, accepted);
    forall k
      ensures id !in Q(s'.queues, k)
    {
      AttemptQueues(s, x, attempt, found, accepted, k);
      assert id !in Q(s.queues, k);
    }
  }

  lemma {:induction false} RemoveFewer(q: seq<Id>, id: Id)
    ensures forall x :: x in Remove(q, id) ==> x in q
  {
    if q != [] {
      RemoveFewer(q[1..], id);
    }
  }

  lemma GoneStep(s: State, a: Step, id: Id)
    requires AllOk(s) && Enabled(s, a) && Gone(s, id)
    ensures Gone(Apply(s, a), id) && Untouched(s, Apply(s, a), id)
  {
    hide Attempted, Inv, BudgetOk, Remove, OnDeliver, OnCancel;
    match a {
      case Issue(kind, session, found, accepted) =>
        var s1 := s.(ops := s.ops + [Op(kind, session)],
                     live := if s.current == Some(session) then Some(Live(|s.ops|, false)) else s.live);
        AttemptTouchesOwn(s1, |s.ops|, 0, found, accepted, id);
        AttemptStaysGone(s1, |s.ops|, 0, found, accepted, id);
      case Fire(x, attempt, found, accepted) =>
        if x in s.retries && x < |s.ops| {
          var s1 := s.(runnables := s.runnables - {(x, attempt)}, retries := s.retries - {x});
          AttemptTouchesOwn(s1, x, attempt, found, accepted, id);
          AttemptStaysGone(s1, x, attempt, found, accepted, id);
        }
      case Cancel(x) => GoneCancel(s, x, id);
      case Deliver(ok) => GoneDeliver(s, ok, id);
      case PlatformDone =>
        assert Accepted(Apply(s, a).done, Apply(s, a).executing) == Accepted(s.done, s.executing);
      case _ =>
    }
  }

  lemma GoneCancel(s: State, x: Id, id: Id)
    requires Gone(s, id)
    ensures Gone(OnCancel(s, x), id) && Untouched(s, OnCancel(s, x), id)
  {
    forall k
      ensures id !in Q(Without(s.queues, x), k)
    {
      WithoutQueue(s.queues, x, k);
      RemoveFewer(Q(s.queues, k), x);
      assert id !in Q(s.queues, k);
    }
  }

  lemma GoneDeliver(s: State, ok: bool, id: Id)
    requires Inv(s) && Enabled(s, Deliver(ok)) && Gone(s, id)
    ensures Gone(OnDeliver(s, ok), id) && Untouched(s, OnDeliver(s, ok), id)
  {
    hide Inv, Remove, OfKind;
    CompletionIsAttributed(s, ok);
    DeliveredFirst(s);
    var s' := OnDeliver(s, ok);
    forall k
      ensures id !in Q(s'.queues, k)
    {
      assert id !in Q(s.queues, k);
    }
  }

  ghost predicate ValidRun(s: State, steps: seq<Step>)
    decreases |steps|
  {
    steps == [] || (Enabled(s, steps[0]) && ValidRun(Apply(s, steps[0]), steps[1..]))
  }

  ghost function After(s: State, steps: seq<Step>): State
    requires ValidRun(s, steps)
    decreases |steps|
  {
    if steps == [] then s else After(Apply(s, steps[0]), steps[1..])
  }

  lemma {:induction false} RunKeepsInv(s: State, steps: seq<Step>)
    requires AllOk(s) && ValidRun(s, steps)
    ensures AllOk(After(s, steps))
    decreases |steps|
  {
    hide AllOk, Apply, Enabled;
    if steps != [] {
      StepKeepsInv(s, steps[0]);
      RunKeepsInv(Apply(s, steps[0]), steps[1..]);
    }
  }

  lemma {:induction false} GoneForGood(s: State, steps: seq<Step>, id: Id)
    requires AllOk(s) && Gone(s, id) && ValidRun(s, steps)
    ensures Gone(After(s, steps), id) && Untouched(s, After(s, steps), id)
    decreases |steps|
  {
    hide AllOk, Apply, Enabled, Gone, Calls, Reported;
    if steps != [] {
      StepKeepsInv(s, steps[0]);
      GoneStep(s, steps[0], id);
      GoneForGood(Apply(s, steps[0]), steps[1..], id);
    }
  }

  /** A scheduled retry that is cancelled never reaches the platform and is never reported,
      whatever happens afterwards and however its dispatch raced the cancellation. */
  lemma CancelledRetryNeverFires(before: seq<Step>, id: Id, after: seq<Step>)
    requires ValidRun(START, before)
    requires var s := After(START, before);
             Enabled(s, Cancel(id)) && id in s.retries && ValidRun(Apply(s, Cancel(id)), after)
    ensures var s := After(START, before);
            var s' := After(Apply(s, Cancel(id)), after);
            Calls(s'.calls, id) == Calls(s.calls, id) && id !in Reported(s'.reports)
  {
    hide Inv, BudgetOk, OnCancel, Gone, Calls;
    StartOk();
    RunKeepsInv(START, before);
    var s := After(START, before);
    StepKeepsInv(s, Cancel(id));
    CancelledIsGone(s, id);
    CancelUntouched(s, id);
    GoneForGood(Apply(s, Cancel(id)), after, id);
    KnownFacts(s);
  }

  lemma CancelUntouched(s: State, id: Id)
    ensures OnCancel(s, id).calls == s.calls && OnCancel(s, id).reports == s.reports
  {}

  lemma StartOk()
    ensures AllOk(START)
  {}

  /** In every reachable state no operation has been reported twice or put to the platform more
      than once plus its retries, and the completion to be delivered next pops, of all ids, that of
      the operation whose platform call it completes. */
  lemma OperationsAreAttributed(steps: seq<Step>)
    requires ValidRun(START, steps)
    ensures var s := After(START, steps);
            && NoTwice(s.reports)
            && (forall id :: Calls(s.calls, id) <= 1 + GATT_BUSY_MAX_RETRIES)
            && (forall ok | Enabled(s, Deliver(ok)) ::
                  && s.done[0] < |s.ops| && QueueOf(s, s.ops[s.done[0]].kind) != []
                  && QueueOf(s, s.ops[s.done[0]].kind)[0] == s.done[0]
                  && Apply(s, Deliver(ok)).reports == s.reports + [Report(s.done[0], ok)])
  {
    hide After, ValidRun;
    StartOk();
    RunKeepsInv(START, steps);
    var s := After(START, steps);
    forall ok | Enabled(s, Deliver(ok))
      ensures s.done[0] < |s.ops| && QueueOf(s, s.ops[s.done[0]].kind) != []
      ensures QueueOf(s, s.ops[s.done[0]].kind)[0] == s.done[0]
      ensures Apply(s, Deliver(ok)).reports == s.reports + [Report(s.done[0], ok)]
    {
      CompletionIsAttributed(s, ok);
    }
  }

  // ---- Answers -------------------------------------------------------------------------------

  /** The operation and the attempt a step makes, if it makes one: a new operation's first, or a
      scheduled retry's that nobody has claimed. */
  predicate Attempts(s: State, a: Step) {
    a.Issue? || (a.Fire? && a.id in s.retries)
  }

  function AttemptId(s: State, a: Step): Id
    requires Attempts(s, a)
  {
    if a.Issue? then |s.ops| else a.id
  }

  function AttemptSession(s: State, a: Step): nat
    requires Attempts(s, a) && (a.Fire? ==> a.id < |s.ops|)
  {
    if a.Issue? then a.session else s.ops[a.id].session
  }

  /** The attempt reaches the platform: its session still owns the address and the characteristic
      is there. */
  predicate Reaches(s: State, a: Step)
    requires Attempts(s, a) && (a.Fire? ==> a.id < |s.ops|)
  {
    s.current == Some(AttemptSession(s, a)) && a.found
  }

  /** What one attempt does: it fails on the spot, is taken by the platform, is refused and
      scheduled again, or is refused for the seventh time and fails. */
  ghost predicate AnsweredTruly(s: State, s': State, id: Id, reaches: bool, accepted: bool) {
    if !reaches then
      s'.calls == s.calls && s'.reports == s.reports + [Report(id, false)] && id !in s'.retries && s'.executing == s.executing
    else
      && s'.calls == s.calls + [id]
      && if accepted then
           s'.executing == Some(id) && s'.reports == s.reports && id !in s'.retries
         else if Calls(s'.calls, id) <= GATT_BUSY_MAX_RETRIES then
           s'.executing == s.executing && s'.reports == s.reports && id in s'.retries && (id, s'.retries[id]) in s'.runnables
         else
           s'.executing == s.executing && s'.reports == s.reports + [Report(id, false)] && id !in s'.retries
  }

  lemma AttemptAnswers(s: State, id: Id, attempt: nat, found: bool, accepted: bool)
    requires id < |s.ops| && id !in s.retries && Calls(s.calls, id) == attempt <= GATT_BUSY_MAX_RETRIES
    ensures AnsweredTruly(s, Attempted(s, id, attempt, found, accepted), id, s.current == Some(s.ops[id].session) && found, accepted)
  {
    hide Remove, Q, Calls;
    OneMoreCall(s.calls, id, id);
  }

  /** In every reachable state, every attempt is answered truly: an operation that cannot start or
      whose session is gone gets exactly one failure; a refused one is tried again until it has
      been refused seven times, and then gets exactly one failure; an accepted one none. A runnable
      whose retry was cancelled does nothing at all. */
  lemma AttemptsAreAnsweredTruly(steps: seq<Step>, a: Step)
    requires ValidRun(START, steps) && Enabled(After(START, steps), a) && (a.Issue? || a.Fire?)
    ensures var s := After(START, steps);
            var s' := Apply(s, a);
            if Attempts(s, a) then
              && (a.Fire? ==> a.id < |s.ops|)
              && AnsweredTruly(s, s', AttemptId(s, a), Reaches(s, a), a.accepted)
            else
              s'.calls == s.calls && s'.reports == s.reports && s'.executing == s.executing
  {
    hide ValidRun, After, Inv, Attempted, AnsweredTruly, Calls;
    StartOk();
    RunKeepsInv(START, steps);
    var s := After(START, steps);
    if a.Issue? {
      var s1 := s.(ops := s.ops + [Op(a.kind, a.session)],
                   live := if s.current == Some(a.session) then Some(Live(|s.ops|, false)) else s.live);
      FreshIsUncalled(s);
      AttemptAnswers(s1, |s.ops|, 0, a.found, a.accepted);
      SameAnswer(s1, s, Apply(s, a), |s.ops|, Reaches(s, a), a.accepted);
    } else if a.id in s.retries {
      RetryIsCounted(s, a.id, a.attempt);
      var s1 := s.(runnables := s.runnables - {(a.id, a.attempt)}, retries := s.retries - {a.id});
      AttemptAnswers(s1, a.id, a.attempt, a.found, a.accepted);
      SameAnswer(s1, s, Apply(s, a), a.id, Reaches(s, a), a.accepted);
    }
  }

  lemma SameAnswer(s1: State, s: State, s': State, id: Id, reaches: bool, accepted: bool)
    requires s1.calls == s.calls && s1.reports == s.reports && s1.executing == s.executing
    ensures AnsweredTruly(s1, s', id, reaches, accepted) <==> AnsweredTruly(s, s', id, reaches, accepted)
  {}

  lemma FreshIsUncalled(s: State)
    requires AllOk(s)
    ensures |s.ops| !in s.retries && Calls(s.calls, |s.ops|) == 0
  {
    hide Inv;
  }

  lemma RetryIsCounted(s: State, id: Id, attempt: nat)
    requires AllOk(s) && (id, attempt) in s.runnables && id in s.retries
    ensures id < |s.ops| && Calls(s.calls, id) == attempt <= GATT_BUSY_MAX_RETRIES
  {
    hide Inv;
  }

  /** In every reachable state a step adds at most one report, and none but the completion of an
      accepted platform call reports success, for the operation it completes. */
  lemma SuccessIsThePlatforms(steps: seq<Step>, a: Step)
    requires ValidRun(START, steps) && Enabled(After(START, steps), a)
    ensures var s := After(START, steps);
            var s' := Apply(s, a);
            if a.Deliver? then s'.reports == s.reports + [Report(s.done[0], a.ok)]
            else s'.reports == s.reports || exists id :: s'.reports == s.reports + [Report(id, false)]
  {
    hide ValidRun, After, Inv, OnIssue, OnFire, Calls, OnDeliver, OnCancel;
    StartOk();
    RunKeepsInv(START, steps);
    var s := After(START, steps);
    if a.Issue? || a.Fire? {
      AttemptsAreAnsweredTruly(steps, a);
    } else if a.Deliver? {
      CompletionIsAttributed(s, a.ok);
    } else if a.Cancel? {
      CancelUntouched(s, a.id);
    }
  }

  /** In every reachable state, a call is under way for an operation only from the attempt of it
      that the platform accepted, and what has completed is that call, in the order of completion. */
  lemma CompletionsAreThePlatforms(steps: seq<Step>, a: Step)
    requires ValidRun(START, steps) && Enabled(After(START, steps), a)
    ensures var s := After(START, steps);
            var s' := Apply(s, a);
            && (s'.executing.Some? && s'.executing != s.executing ==>
                  Attempts(s, a) && a.accepted && s'.executing == Some(AttemptId(s, a)))
            && s'.done == (if a.PlatformDone? then s.done + [s.executing.value]
                           else if a.Deliver? then s.done[1..]
                           else if a.Disconnected? || a.CloseConnection? then []
                           else s.done)
  {
    hide ValidRun, After, Inv, OnIssue, OnFire, Calls;
    StartOk();
    RunKeepsInv(START, steps);
    var s := After(START, steps);
    if a.Issue? || a.Fire? {
      AttemptsAreAnsweredTruly(steps, a);
      AttemptKeepsDone(s, a);
    }
  }

  lemma AttemptKeepsDone(s: State, a: Step)
    requires Enabled(s, a) && (a.Issue? || a.Fire?)
    ensures Apply(s, a).done == s.done
  {
    hide Remove, Q;
  }

  /** The waiting caller gets its answer exactly when its own operation is reported, unless it gives
      up or the link goes first. */
  lemma CallerIsToldItsOwn(steps: seq<Step>, a: Step, id: Id)
    requires ValidRun(START, steps) && Enabled(After(START, steps), a)
    requires After(START, steps).live == Some(Live(id, false))
    requires !a.Abandon? && !a.Disconnected? && !a.CloseConnection?
    ensures var s := After(START, steps);
            var s' := Apply(s, a);
            if exists ok :: s'.reports == s.reports + [Report(id, ok)] then s'.live == None else s'.live == s.live
  {
    hide ValidRun, After, Inv, Calls;
    StartOk();
    RunKeepsInv(START, steps);
    var s := After(START, steps);
    KnownFacts(s);
    if a.Issue? || a.Fire? {
      AttemptTellsOwn(s, a, id);
    } else if a.Deliver? {
      CompletionIsAttributed(s, a.ok);
      DeliverTells(s, a.ok, id);
    } else {
      QuietTells(s, a, id);
    }
  }

  /** Once the guard of an abandoned call is gone, its operation has no retry and the connection is
      free for the next one; the guard of another operation changes nothing for the caller. */
  lemma GuardFreesTheConnection(s: State, id: Id)
    requires Enabled(s, Cancel(id))
    ensures var s' := Apply(s, Cancel(id));
            && id !in s'.retries && s'.calls == s.calls && s'.reports == s.reports
            && s'.live == if s.live.Some? && s.live.value.id == id then None else s.live
  {}

  lemma QuietTells(s: State, a: Step, id: Id)
    requires Enabled(s, a) && s.live == Some(Live(id, false))
    requires !a.Issue? && !a.Fire? && !a.Deliver? && !a.Abandon? && !a.Disconnected? && !a.CloseConnection?
    ensures Apply(s, a).live == s.live && Apply(s, a).reports == s.reports
    ensures forall ok :: Apply(s, a).reports != s.reports + [Report(id, ok)]
  {
    assert forall ok :: |s.reports + [Report(id, ok)]| == |s.reports| + 1;
  }

  lemma DeliverTells(s: State, ok: bool, id: Id)
    requires s.live == Some(Live(id, false)) && s.done != []
    requires OnDeliver(s, ok).reports == s.reports + [Report(s.done[0], ok)]
    ensures OnDeliver(s, ok).live == if s.done[0] == id then None else s.live
    ensures s.done[0] == id <==> exists k :: OnDeliver(s, ok).reports == s.reports + [Report(id, k)]
  {
    var s' := OnDeliver(s, ok);
    assert s'.reports[|s.reports|] == Report(s.done[0], ok);
    forall k | s'.reports == s.reports + [Report(id, k)]
      ensures s.done[0] == id
    {
      assert s'.reports[|s.reports|] == Report(id, k);
    }
  }

  lemma AttemptTellsOwn(s: State, a: Step, id: Id)
    requires Enabled(s, a) && (a.Issue? || a.Fire?) && s.live == Some(Live(id, false)) && id < |s.ops|
    requires a.Issue? ==> s.current != Some(a.session)
    ensures var s' := Apply(s, a);
            if exists ok :: s'.reports == s.reports + [Report(id, ok)] then s'.live == None else s'.live == s.live
  {
    hide Remove, Q;
    var s' := Apply(s, a);
    if s'.reports != s.reports {
      assert s'.reports[|s.reports|].id == if a.Issue? then |s.ops| else a.id;
    }
  }

  // ---- The bridge, in place ----------------------------------------------------------------

  class GattBridge {
    var ops: seq<Op>
    var current: Option<nat>
    var sessions: nat
    var clearing: bool
    var queues: map<Kind, seq<Id>>
    var retries: map<Id, nat>
    var runnables: set<(Id, nat)>
    var executing: Option<Id>
    var done: seq<Id>
    var live: Option<Live>
    var cancelled: set<Id>
    var calls: seq<Id>
    var reports: seq<Report>

    ghost function View(): State
      reads this
    {
      State(ops, current, sessions, clearing, queues, retries, runnables, executing, done, live, cancelled, calls, reports)
    }

    constructor ()
      ensures View() == START
    {
      ops, current, sessions, clearing, queues, retries, runnables := [], None, 0, false, map[], map[], {};
      executing, done, live, cancelled, calls, reports := None, [], None, {}, [], [];
    }

    /** The callback into Rust: it resolves the waiter only if the id is its own. */
    method Tell(id: Id, ok: bool)
      modifies this`reports, this`live
      ensures View() == Told(old(View()), id, ok)
    {
      reports := reports + [Report(id, ok)];
      if live.Some? && live.value == Live(id, false) {
        live := None;
      }
    }

    method RemoveFrom(q: seq<Id>, id: Id) returns (r: seq<Id>)
      ensures r == Remove(q, id)
    {
      var i := 0;
      while i < |q| && q[i] != id
        invariant 0 <= i <= |q|
        invariant Remove(q, id) == q[..i] + Remove(q[i..], id)
      {
        i := i + 1;
      }
      r := if i < |q| then q[..i] + q[i + 1..] else q;
    }

    /** Takes the id out of its own queue, whatever else is queued, and reports the failure. */
    method Fail(id: Id)
      requires id < |ops|
      modifies this`queues, this`reports, this`live
      ensures View() == Dropped(old(View()), id)
    {
      var k := ops[id].kind;
      var q := RemoveFrom(if k in queues then queues[k] else [], id);
      queues := queues[k := q];
      Tell(id, false);
    }

    method Attempt(id: Id, attempt: nat, found: bool, accepted: bool)
      requires id < |ops|
      modifies this`queues, this`reports, this`live, this`calls, this`executing, this`retries, this`runnables
      ensures View() == Attempted(old(View()), id, attempt, found, accepted)
    {
      var k := ops[id].kind;
      if current != Some(ops[id].session) {
        if attempt > 0 {
          Fail(id);
        } else {
          Tell(id, false);
        }
        return;
      }
      if attempt == 0 {
        queues := queues[k := (if k in queues then queues[k] else []) + [id]];
      }
      if !found {
        Fail(id);
        return;
      }
      calls := calls + [id];
      if accepted {
        executing := Some(id);
      } else if attempt < GATT_BUSY_MAX_RETRIES {
        retries := retries[id := attempt + 1];
        runnables := runnables + {(id, attempt + 1)};
      } else {
        Fail(id);
      }
    }

    method Issue(kind: Kind, session: nat, found: bool, accepted: bool) returns (id: Id)
      requires Enabled(View(), Step.Issue(kind, session, found, accepted))
      modifies this
      ensures id == |old(ops)|
      ensures View() == Apply(old(View()), Step.Issue(kind, session, found, accepted))
    {
      id := |ops|;
      ops := ops + [Op(kind, session)];
      if current == Some(session) {
        live := Some(Live(id, false));
      }
      Attempt(id, 0, found, accepted);
    }

    /** A retry's runnable. Claiming its entry is the first thing it does under the lock; without
        one it was cancelled, and there is nothing left to do. */
    method RunRetry(id: Id, attempt: nat, found: bool, accepted: bool)
      requires Enabled(View(), Fire(id, attempt, found, accepted))
      modifies this
      ensures View() == Apply(old(View()), Fire(id, attempt, found, accepted))
    {
      runnables := runnables - {(id, attempt)};
      if id !in retries || id >= |ops| {
        return;
      }
      retries := retries - {id};
      Attempt(id, attempt, found, accepted);
    }

    method CancelPendingOperation(id: Id)
      requires Enabled(View(), Cancel(id))
      modifies this
      ensures View() == Apply(old(View()), Cancel(id))
    {
      if live.Some? && live.value.id == id {
        live := None;
      }
      if id !in retries {
        return;
      }
      retries := retries - {id};
      cancelled := cancelled + {id};
      queues := Without(queues, id);
    }

    /** A completion callback of the GATT that owns the address. */
    method OnCompleted(ok: bool)
      requires Enabled(View(), Deliver(ok))
      modifies this
      ensures View() == Apply(old(View()), Deliver(ok))
    {
      var id := done[0];
      done := done[1..];
      if id >= |ops| {
        return;
      }
      var k := ops[id].kind;
      if k !in queues || queues[k] == [] {
        return;
      }
      var requestId := queues[k][0];
      queues := queues[k := queues[k][1..]];
      Tell(requestId, ok);
    }

    method OnDisconnected()
      requires Enabled(View(), Disconnected)
      modifies this
      ensures View() == Apply(old(View()), Disconnected)
    {
      current, executing, done, live := None, None, [], None;
      queues := map[];
    }
  }
}
