/**
  The bounded reassembler of one peer's fragment stream (`profile/datagram/reassembly.rs`):
  a specification on values and the class that meets it in place.
 */
module Reassembly {
  import opened Basics
  import opened Fragment

  datatype Limits = Limits(maxMessageLen: nat, timeout: nat, maxConcurrent: nat)

  datatype RejectReason = EmptyMessage | IndexOutOfRange | InconsistentTotal | MessageTooLarge

  datatype Accept = Complete(message: Bytes) | Pending | Rejected(reason: RejectReason)

  datatype Partial = Partial(total: u16, fragments: map<u16, Bytes>, cumulativeLen: nat, startedAt: nat)

  type Table = map<u32, Partial>

  // ---- Specification -----------------------------------------------------------

  function Expired(t: Table, timeout: nat, now: nat): Table {
    map id | id in t && Elapsed(now, t[id].startedAt) < timeout :: t[id]
  }

  /** The entry `min_by_key` picks: least start time, and the lowest id among equals. */
  ghost predicate IsOldest(t: Table, id: u32) {
    id in t && forall o <- t :: t[id].startedAt < t[o].startedAt || (t[id].startedAt == t[o].startedAt && id <= o)
  }

  lemma {:induction false} OldestExists(t: Table)
    requires t != map[]
    ensures exists id :: IsOldest(t, id)
  {
    var id :| id in t;
    var rest: Table := t - {id};
    if rest == map[] {
      assert forall o <- t :: o == id || o in rest;
      assert IsOldest(t, id);
    } else {
      OldestExists(rest);
      var o :| IsOldest(rest, o);
      assert forall x <- t :: x == id || x in rest;
      assert IsOldest(t, id) || IsOldest(t, o);
    }
  }

  ghost function Oldest(t: Table): u32
    requires t != map[]
  {
    OldestExists(t);
    var id :| IsOldest(t, id);
    id
  }

  ghost function Evicted(t: Table, maxConcurrent: nat): Table {
    if |t| < maxConcurrent || t == map[] then t else t - {Oldest(t)}
  }

  /** The stored fragments below `n`, rejoined in index order. */
  function Rejoined(fragments: map<u16, Bytes>, n: nat): Bytes {
    if n == 0 then []
    else Rejoined(fragments, n - 1) + if n - 1 in fragments then fragments[n - 1] else []
  }

  /** Rust's `as u16`. */
  function CastToU16(n: nat): u16 {
    n % 0x1_0000
  }

  lemma CastIsExact(n: nat)
    requires n <= 0xFFFF
    ensures CastToU16(n) == n
  {}

  function Inserted(m: Partial, i: u16, payload: Bytes): Partial {
    m.(cumulativeLen := m.cumulativeLen + |payload|, fragments := m.fragments[i := payload])
  }

  /** Storing one fragment in the message's own entry. */
  function StoreSpec(l: Limits, t: Table, h: Header, payload: Bytes, now: nat): (Table, Accept)
    requires h.msgId in t
  {
    var m := t[h.msgId];
    if h.index in m.fragments then
      if m.fragments[h.index] == payload then
        (t, Pending)
      else
        (t[h.msgId := Partial(h.total, map[h.index := payload], |payload|, now)], Pending)
    else if m.cumulativeLen + |payload| > l.maxMessageLen then
      (t - {h.msgId}, Rejected(MessageTooLarge))
    else
      var stored := Inserted(m, h.index, payload);
      if CastToU16(|stored.fragments|) != m.total then
        (t[h.msgId := stored], Pending)
      else
        (t - {h.msgId}, Complete(Rejoined(stored.fragments, stored.total)))
  }

  /** `(total - 1).saturating_mul(payload.len().max(1))`. */
  function DeclaredMin(h: Header, payload: Bytes): nat {
    Min(Max(h.total - 1, 0) * Max(|payload|, 1), USIZE_MAX)
  }

  /** A new entry for a message first seen now, after making room for it. */
  ghost function Opened(l: Limits, t: Table, h: Header, now: nat): Table {
    Evicted(t, l.maxConcurrent)[h.msgId := Partial(h.total, map[], 0, now)]
  }

  /** A fragment of a message of two or more, once expired messages are gone. */
  ghost function AcceptPart(l: Limits, live: Table, h: Header, payload: Bytes, now: nat): (Table, Accept) {
    if h.msgId in live then
      if live[h.msgId].total != h.total then (live - {h.msgId}, Rejected(InconsistentTotal))
      else StoreSpec(l, live, h, payload, now)
    else if DeclaredMin(h, payload) > l.maxMessageLen then (live, Rejected(MessageTooLarge))
    else StoreSpec(l, Opened(l, live, h, now), h, payload, now)
  }

  ghost function AcceptSpec(l: Limits, t: Table, h: Header, payload: Bytes, now: nat): (Table, Accept) {
    if h.total == 0 then (t, Rejected(EmptyMessage))
    else if h.index >= h.total then (t, Rejected(IndexOutOfRange))
    else if |payload| > l.maxMessageLen then (t, Rejected(MessageTooLarge))
    else
      var live := Expired(t, l.timeout, now);
      if h.total == 1 then (live - {h.msgId}, Complete(payload))
      else AcceptPart(l, live, h, payload, now)
  }

  // ---- The class ---------------------------------------------------------------

  class Reassembler {
    const limits: Limits
    var partials: Table

    constructor (limits: Limits)
      ensures this.limits == limits && partials == map[]
    {
      this.limits := limits;
      partials := map[];
    }

    method Expire(now: nat)
      modifies this
      ensures partials == Expired(old(partials), limits.timeout, now)
    {
      partials := map id | id in partials && Elapsed(now, partials[id].startedAt) < limits.timeout :: partials[id];
    }

    method EvictIfAtCapacity()
      modifies this
      ensures partials == Evicted(old(partials), limits.maxConcurrent)
    {
      if |partials| < limits.maxConcurrent {
        return;
      }
      var ids := partials.Keys;
      if ids == {} {
        return;
      }
      var oldest :| oldest in ids;
      ids := ids - {oldest};
      while ids != {}
        invariant oldest in partials && ids <= partials.Keys
        invariant forall o | o in partials.Keys - ids ::
            partials[oldest].startedAt < partials[o].startedAt
            || (partials[oldest].startedAt == partials[o].startedAt && oldest <= o)
        decreases |ids|
      {
        var id :| id in ids;
        ids := ids - {id};
        if partials[id].startedAt < partials[oldest].startedAt
           || (partials[id].startedAt == partials[oldest].startedAt && id < oldest) {
          oldest := id;
        }
      }
      assert IsOldest(partials, oldest);
      partials := partials - {oldest};
    }

    method Accept(h: Header, payload: Bytes, now: nat) returns (r: Accept)
      modifies this
      ensures (partials, r) == AcceptSpec(limits, old(partials), h, payload, now)
    {
      if h.total == 0 {
        return Rejected(EmptyMessage);
      }
      if h.index >= h.total {
        return Rejected(IndexOutOfRange);
      }
      if |payload| > limits.maxMessageLen {
        return Rejected(MessageTooLarge);
      }
      Expire(now);
      if h.total == 1 {
        partials := partials - {h.msgId};
        return Complete(payload);
      }
      if h.msgId in partials {
        if partials[h.msgId].total != h.total {
          partials := partials - {h.msgId};
          return Rejected(InconsistentTotal);
        }
      } else {
        if DeclaredMin(h, payload) > limits.maxMessageLen {
          return Rejected(MessageTooLarge);
        }
        EvictIfAtCapacity();
        partials := partials[h.msgId := Partial(h.total, map[], 0, now)];
      }
      r := Store(h, payload, now);
    }

    /** The second half of `accept`, from the duplicate check on. */
    method Store(h: Header, payload: Bytes, now: nat) returns (r: Accept)
      requires h.msgId in partials
      modifies this
      ensures (partials, r) == StoreSpec(limits, old(partials), h, payload, now)
    {
      var message := partials[h.msgId];
      if h.index in message.fragments {
        if message.fragments[h.index] == payload {
          return Pending;
        }
        partials := partials[h.msgId := Partial(h.total, map[h.index := payload], |payload|, now)];
        return Pending;
      }
      if message.cumulativeLen + |payload| > limits.maxMessageLen {
        partials := partials - {h.msgId};
        return Rejected(MessageTooLarge);
      }
      message := message.(cumulativeLen := message.cumulativeLen + |payload|);
      message := message.(fragments := message.fragments[h.index := payload]);
      assert message == Inserted(old(partials)[h.msgId], h.index, payload);
      partials := partials[h.msgId := message];
      if CastToU16(|message.fragments|) != message.total {
        return Pending;
      }
      partials := partials - {h.msgId};
      assert partials == old(partials) - {h.msgId};
      var out := JoinFragments(message);
      return Complete(out);
    }

    static method JoinFragments(message: Partial) returns (out: Bytes)
      ensures out == Rejoined(message.fragments, message.total)
    {
      out := [];
      for key := 0 to message.total
        invariant out == Rejoined(message.fragments, key)
      {
        if key in message.fragments {
          out := out + message.fragments[key];
        }
      }
    }
  }

  // ---- Bounds under arbitrary input ----------------------------------------------

  /** The summed length of the stored fragments below `n`. */
  function StoredLen(fragments: map<u16, Bytes>, n: nat): nat {
    |Rejoined(fragments, n)|
  }

  ghost predicate EntryBounded(l: Limits, p: Partial) {
    && (forall i <- p.fragments :: i < p.total)
    && 1 <= |p.fragments| <= p.total - 1
    && p.cumulativeLen == StoredLen(p.fragments, p.total) <= l.maxMessageLen
  }

  ghost predicate Bounded(l: Limits, t: Table) {
    && |t| <= Max(1, l.maxConcurrent)
    && forall id <- t :: EntryBounded(l, t[id])
  }

  lemma {:induction false} RejoinedInsert(fragments: map<u16, Bytes>, i: u16, payload: Bytes, n: nat)
    requires i !in fragments
    ensures StoredLen(fragments[i := payload], n) == StoredLen(fragments, n) + if i < n then |payload| else 0
  {
    if n > 0 {
      RejoinedInsert(fragments, i, payload, n - 1);
    }
  }

  lemma KeysBelow(fragments: map<u16, Bytes>, n: nat)
    requires forall i <- fragments :: i < n
    ensures |fragments| <= n
    ensures |fragments| == n <==> fragments.Keys == Below(n)
  {
    var keys: set<nat> := set i | i in fragments.Keys;
    assert keys == fragments.Keys;
    FullWhenAllBelow(keys, n);
  }

  lemma SubmapSize<K, V>(a: map<K, V>, b: map<K, V>)
    requires a.Keys <= b.Keys
    ensures |a| <= |b|
  {
    SubsetSize(a.Keys, b.Keys);
    assert |a| == |a.Keys| && |b| == |b.Keys|;
  }

  lemma InsertKeepsEntry(l: Limits, m: Partial, i: u16, payload: Bytes)
    requires EntryBounded(l, m) || (m.fragments == map[] && m.cumulativeLen == 0)
    requires i !in m.fragments && i < m.total && m.cumulativeLen + |payload| <= l.maxMessageLen
    ensures var m' := Inserted(m, i, payload);
            && |m'.fragments| == |m.fragments| + 1 <= m.total
            && CastToU16(|m'.fragments|) == |m'.fragments|
            && (|m'.fragments| != m.total ==> EntryBounded(l, m'))
  {
    RejoinedInsert(m.fragments, i, payload, m.total);
    RejoinedEmpty(m.total);
    var m' := Inserted(m, i, payload);
    assert m'.fragments.Keys == m.fragments.Keys + {i};
    KeysBelow(m'.fragments, m.total);
    CastIsExact(|m'.fragments|);
  }

  lemma StoreKeepsBounds(l: Limits, t: Table, h: Header, payload: Bytes, now: nat)
    requires h.index < h.total && h.total >= 2 && |payload| <= l.maxMessageLen
    requires h.msgId in t
    requires |t| <= Max(1, l.maxConcurrent)
    requires forall id <- t :: id != h.msgId ==> EntryBounded(l, t[id])
    requires EntryBounded(l, t[h.msgId]) || t[h.msgId] == Partial(h.total, map[], 0, now)
    requires t[h.msgId].total == h.total
    ensures Bounded(l, StoreSpec(l, t, h, payload, now).0)
  {
    var m := t[h.msgId];
    if h.index in m.fragments {
      var restarted := Partial(h.total, map[h.index := payload], |payload|, now);
      InsertKeepsEntry(l, Partial(h.total, map[], 0, now), h.index, payload);
      assert map[][h.index := payload] == map[h.index := payload];
      ReplaceKeepsBounds(l, t, h.msgId, m);
      ReplaceKeepsBounds(l, t, h.msgId, restarted);
      assert t[h.msgId := m] == t;
    } else {
      RemoveKeepsBounds(l, t, h.msgId);
      if m.cumulativeLen + |payload| <= l.maxMessageLen {
        InsertKeepsEntry(l, m, h.index, payload);
        ReplaceKeepsBounds(l, t, h.msgId, Inserted(m, h.index, payload));
      }
    }
  }

  lemma ReplaceKeepsBounds(l: Limits, t: Table, id: u32, p: Partial)
    requires id in t && |t| <= Max(1, l.maxConcurrent)
    requires forall o <- t :: o != id ==> EntryBounded(l, t[o])
    ensures EntryBounded(l, p) ==> Bounded(l, t[id := p])
  {}

  lemma RemoveKeepsBounds(l: Limits, t: Table, id: u32)
    requires |t| <= Max(1, l.maxConcurrent)
    requires forall o <- t :: o != id ==> EntryBounded(l, t[o])
    ensures Bounded(l, t - {id})
  {}

  lemma {:induction false} RejoinedEmpty(n: nat)
    ensures Rejoined(map[], n) == []
  {
    if n > 0 {
      RejoinedEmpty(n - 1);
    }
  }

  lemma PartKeepsBounds(l: Limits, live: Table, h: Header, payload: Bytes, now: nat)
    requires Bounded(l, live) && h.index < h.total && h.total >= 2 && |payload| <= l.maxMessageLen
    ensures Bounded(l, AcceptPart(l, live, h, payload, now).0)
  {
    hide StoreSpec, EntryBounded, Opened, DeclaredMin;
    if h.msgId in live {
      RemoveKeepsBounds(l, live, h.msgId);
      if live[h.msgId].total == h.total {
        StoreKeepsBounds(l, live, h, payload, now);
      }
    } else if DeclaredMin(h, payload) <= l.maxMessageLen {
      OpenedSize(l, live, h, now);
      OpenedEntry(l, live, h, now);
      StoreKeepsBounds(l, Opened(l, live, h, now), h, payload, now);
    }
  }

  lemma OpenedEntry(l: Limits, t: Table, h: Header, now: nat)
    ensures h.msgId in Opened(l, t, h, now) && Opened(l, t, h, now)[h.msgId] == Partial(h.total, map[], 0, now)
  {}

  /** Whatever arrives, `accept` keeps the bounds. */
  lemma AcceptKeepsBounds(l: Limits, t: Table, h: Header, payload: Bytes, now: nat)
    requires Bounded(l, t)
    ensures Bounded(l, AcceptSpec(l, t, h, payload, now).0)
  {
    hide AcceptPart, EntryBounded;
    if h.index < h.total && |payload| <= l.maxMessageLen {
      var live: Table := Expired(t, l.timeout, now);
      SubmapSize(live, t);
      RemoveKeepsBounds(l, live, h.msgId);
      if h.total > 1 {
        PartKeepsBounds(l, live, h, payload, now);
      }
    }
  }

  lemma OpenedSize(l: Limits, t: Table, h: Header, now: nat)
    requires |t| <= Max(1, l.maxConcurrent) && h.msgId !in t
    ensures |Opened(l, t, h, now)| <= Max(1, l.maxConcurrent)
    ensures forall id <- Opened(l, t, h, now) :: id == h.msgId || (id in t && Opened(l, t, h, now)[id] == t[id])
  {}

  /** What drives a reassembler: a fragment, the idle timer, or a reported gap, which replaces
      the reassembler with an empty one. */
  datatype Input = Arrive(h: Header, payload: Bytes, now: nat) | Tick(now: nat) | Gap

  datatype Outcome = Outcome(msgId: u32, accept: Accept)

  ghost function Run(l: Limits, t: Table, inputs: seq<Input>): (Table, seq<Outcome>)
    decreases |inputs|
  {
    if inputs == [] then (t, [])
    else
      var (t1, out) := match inputs[0]
        case Arrive(h, payload, now) =>
          var (t', a) := AcceptSpec(l, t, h, payload, now);
          (t', [Outcome(h.msgId, a)])
        case Tick(now) => (Expired(t, l.timeout, now), [])
        case Gap => (map[], []);
      var (t2, rest) := Run(l, t1, inputs[1..]);
      (t2, out + rest)
  }

  /** The bounds hold after every run from an empty reassembler, whatever a peer sends. */
  lemma {:induction false} RunKeepsBounds(l: Limits, t: Table, inputs: seq<Input>)
    requires Bounded(l, t)
    ensures Bounded(l, Run(l, t, inputs).0)
    decreases |inputs|
  {
    if inputs != [] {
      var t1 := match inputs[0]
        case Arrive(h, payload, now) => AcceptSpec(l, t, h, payload, now).0
        case Tick(now) => Expired(t, l.timeout, now)
        case Gap => map[];
      match inputs[0] {
        case Arrive(h, payload, now) => AcceptKeepsBounds(l, t, h, payload, now);
        case Tick(now) => SubmapSize(t1, t);
        case Gap =>
      }
      RunKeepsBounds(l, t1, inputs[1..]);
    }
  }

  /** In every reachable table a message has room for one more fragment at least, and the 16-bit
      count that decides completion is the true number of fragments once it is stored. */
  lemma CountNeverTruncates(l: Limits, inputs: seq<Input>, id: u32, i: u16, payload: Bytes)
    requires id in Run(l, map[], inputs).0
    requires var p := Run(l, map[], inputs).0[id]; i < p.total && i !in p.fragments
    ensures var p := Run(l, map[], inputs).0[id];
            var n := |Inserted(p, i, payload).fragments|;
            CastToU16(n) == n <= p.total && n == |p.fragments| + 1
  {
    hide Run;
    RunKeepsBounds(l, map[], inputs);
    var p := Run(l, map[], inputs).0[id];
    assert EntryBounded(l, p);
    CastIsExact(|p.fragments| + 1);
  }

  // ---- Answers to arbitrary input ----------------------------------------------------

  /** Each refusal, in terms of the fragment and of the message still open under its id. */
  lemma RefusalsAreExact(l: Limits, t: Table, h: Header, payload: Bytes, now: nat)
    ensures var r := AcceptSpec(l, t, h, payload, now).1;
            var open := h.msgId in t && Elapsed(now, t[h.msgId].startedAt) < l.timeout;
            && (r == Rejected(EmptyMessage) <==> h.total == 0)
            && (r == Rejected(IndexOutOfRange) <==> h.total > 0 && h.index >= h.total)
            && (r == Rejected(InconsistentTotal) <==>
                  h.index < h.total && h.total > 1 && |payload| <= l.maxMessageLen && open && t[h.msgId].total != h.total)
            && (r == Rejected(InconsistentTotal) ==> h.msgId !in AcceptSpec(l, t, h, payload, now).0)
  {
    hide Evicted, Rejoined;
  }

  /** The last refusal: the fragment alone, what its message declares, or what is held of it with the
      fragment exceeds the limit; then nothing of the message stays, unless it was the fragment alone. */
  lemma TooLargeIsExact(l: Limits, t: Table, h: Header, payload: Bytes, now: nat)
    ensures var r := AcceptSpec(l, t, h, payload, now).1;
            var open := h.msgId in t && Elapsed(now, t[h.msgId].startedAt) < l.timeout;
            && (r == Rejected(MessageTooLarge) <==>
                  h.index < h.total
                  && (|payload| > l.maxMessageLen
                      || (h.total > 1 && if open then t[h.msgId].total == h.total && h.index !in t[h.msgId].fragments
                                                      && t[h.msgId].cumulativeLen + |payload| > l.maxMessageLen
                                         else DeclaredMin(h, payload) > l.maxMessageLen)))
            && (r == Rejected(MessageTooLarge) && |payload| <= l.maxMessageLen ==> h.msgId !in AcceptSpec(l, t, h, payload, now).0)
  {
    hide Evicted, Rejoined;
  }

  /** Once the reassembler has looked at the clock, everything it still holds is within its timeout
      or has just been started. */
  lemma NothingOutlivesItsTimeout(l: Limits, t: Table, h: Header, payload: Bytes, now: nat)
    requires h.index < h.total && |payload| <= l.maxMessageLen
    ensures var t' := AcceptSpec(l, t, h, payload, now).0;
            forall id <- t' :: Elapsed(now, t'[id].startedAt) < l.timeout || (id == h.msgId && t'[id].startedAt == now)
  {
    hide StoreSpec, Opened;
    var live: Table := Expired(t, l.timeout, now);
    assert forall id <- live :: Elapsed(now, live[id].startedAt) < l.timeout;
    if h.total > 1 && h.msgId in live {
      StoreStarts(l, live, h, payload, now);
    } else if h.total > 1 {
      OpenedFromLive(l, live, h, now);
      OpenedEntry(l, live, h, now);
      StoreStarts(l, Opened(l, live, h, now), h, payload, now);
    }
  }

  lemma StoreStarts(l: Limits, t: Table, h: Header, payload: Bytes, now: nat)
    requires h.msgId in t
    ensures var t' := StoreSpec(l, t, h, payload, now).0;
            forall id <- t' :: id in t && (t'[id].startedAt == t[id].startedAt || (id == h.msgId && t'[id].startedAt == now))
  {
    hide Rejoined;
  }

  /** A message keeps the time it was started: what arrives for it does not prolong it, unless a
      differing copy of a held fragment starts it over. */
  lemma ArrivalsProlongNothing(l: Limits, t: Table, h: Header, payload: Bytes, now: nat, id: u32)
    requires var t' := AcceptSpec(l, t, h, payload, now).0; id in t && id in t' && t'[id].startedAt != t[id].startedAt
    ensures id == h.msgId && AcceptSpec(l, t, h, payload, now).0[id].startedAt == now
    ensures Elapsed(now, t[id].startedAt) < l.timeout ==>
              h.index in t[id].fragments && t[id].fragments[h.index] != payload
              && AcceptSpec(l, t, h, payload, now).0[id].fragments == map[h.index := payload]
  {
    hide Rejoined;
    var live: Table := Expired(t, l.timeout, now);
    if h.index < h.total && h.total > 1 && |payload| <= l.maxMessageLen && h.msgId !in live {
      OpenedFromLive(l, live, h, now);
    }
  }

  lemma OpenedFromLive(l: Limits, t: Table, h: Header, now: nat)
    ensures var o := Opened(l, t, h, now);
            && h.msgId in o && o[h.msgId].startedAt == now
            && forall id <- o :: id == h.msgId || (id in t && o[id] == t[id])
  {}

  ghost predicate Lost(l: Limits, t: Table, h: Header, payload: Bytes, now: nat, id: u32) {
    id in t && Elapsed(now, t[id].startedAt) < l.timeout && id != h.msgId && id !in AcceptSpec(l, t, h, payload, now).0
  }

  /** A fragment costs another message its place only when it opens a new one at capacity; then it
      costs one, and no survivor was started before it. */
  lemma EvictionSparesTheYounger(l: Limits, t: Table, h: Header, payload: Bytes, now: nat, x: u32)
    requires Lost(l, t, h, payload, now, x)
    ensures h.total > 1 && h.msgId !in Expired(t, l.timeout, now) && |Expired(t, l.timeout, now)| >= l.maxConcurrent
    ensures forall y | Lost(l, t, h, payload, now, y) :: y == x
    ensures forall y <- AcceptSpec(l, t, h, payload, now).0 :: y != h.msgId ==> y in t && t[x].startedAt <= t[y].startedAt
  {
    hide StoreSpec, DeclaredMin, Evicted;
    var live: Table := Expired(t, l.timeout, now);
    if h.msgId in live {
      StoreTouchesOwn(l, live, h, payload, now);
    } else {
      EvictedIsOldest(live, l.maxConcurrent);
      OpenedEntry(l, live, h, now);
      StoreTouchesOwn(l, Opened(l, live, h, now), h, payload, now);
    }
  }

  lemma StoreTouchesOwn(l: Limits, t: Table, h: Header, payload: Bytes, now: nat)
    requires h.msgId in t
    ensures var t' := StoreSpec(l, t, h, payload, now).0;
            forall o | o != h.msgId :: (o in t' <==> o in t) && (o in t ==> t'[o] == t[o])
  {}

  lemma EvictedIsOldest(t: Table, maxConcurrent: nat)
    ensures forall x | x in t && x !in Evicted(t, maxConcurrent) ::
              |t| >= maxConcurrent && Evicted(t, maxConcurrent) == t - {x} && forall y <- t :: t[x].startedAt <= t[y].startedAt
    ensures forall x <- Evicted(t, maxConcurrent) :: x in t && Evicted(t, maxConcurrent)[x] == t[x]
  {}

  // ---- Reused ids ----------------------------------------------------------------------

  /** The copy of a fragment that arrived last and was not refused, with the total it declared. */
  datatype Copy = Copy(total: u16, payload: Bytes)

  type Copies = map<(u32, u16), Copy>

  /** Everything stored is the last copy of its fragment. */
  ghost predicate HoldsLastCopies(t: Table, copies: Copies) {
    forall id, i | id in t && i in t[id].fragments ::
      (id, i) in copies && copies[(id, i)] == Copy(t[id].total, t[id].fragments[i])
  }

  function Concatenated(copies: Copies, id: u32, n: nat): Bytes
    requires n <= 0xFFFF
  {
    if n == 0 then []
    else Concatenated(copies, id, n - 1) + if (id, n - 1) in copies then copies[(id, n - 1)].payload else []
  }

  function Heard(copies: Copies, h: Header, payload: Bytes, r: Accept): Copies {
    if r.Rejected? then copies else copies[(h.msgId, h.index) := Copy(h.total, payload)]
  }

  /** A message is complete when each index below its total has a last copy that declared this
      total; the message is those copies in order. */
  ghost predicate MadeOfLastCopies(copies: Copies, h: Header, message: Bytes) {
    && (forall i: u16 | i < h.total :: (h.msgId, i) in copies && copies[(h.msgId, i)].total == h.total)
    && message == Concatenated(copies, h.msgId, h.total)
  }

  lemma {:induction false} ConcatenatedIsRejoined(copies: Copies, id: u32, fragments: map<u16, Bytes>, n: nat)
    requires n <= 0xFFFF
    requires forall i: u16 | i < n :: i in fragments && (id, i) in copies && copies[(id, i)].payload == fragments[i]
    ensures Concatenated(copies, id, n) == Rejoined(fragments, n)
  {
    if n > 0 {
      ConcatenatedIsRejoined(copies, id, fragments, n - 1);
    }
  }

  lemma StoreCompletesFromCopies(l: Limits, t: Table, h: Header, payload: Bytes, now: nat, copies: Copies)
    requires h.msgId in t && t[h.msgId].total == h.total && h.index < h.total && HoldsLastCopies(t, copies)
    requires forall i <- t[h.msgId].fragments :: i < h.total
    requires StoreSpec(l, t, h, payload, now).1.Complete?
    ensures MadeOfLastCopies(Heard(copies, h, payload, StoreSpec(l, t, h, payload, now).1), h, StoreSpec(l, t, h, payload, now).1.message)
  {
    hide Concatenated, Rejoined;
    var m := t[h.msgId];
    var fragments := Inserted(m, h.index, payload).fragments;
    var copies' := Heard(copies, h, payload, StoreSpec(l, t, h, payload, now).1);
    StoredIsFull(m, h.index, payload);
    forall i: u16 | i < h.total
      ensures (h.msgId, i) in copies' && copies'[(h.msgId, i)] == Copy(h.total, fragments[i])
    {
      assert i in fragments;
    }
    ConcatenatedIsRejoined(copies', h.msgId, fragments, h.total);
  }

  lemma StoreKeepsCopies(l: Limits, t: Table, h: Header, payload: Bytes, now: nat, copies: Copies)
    requires h.msgId in t && t[h.msgId].total == h.total && h.index < h.total && HoldsLastCopies(t, copies)
    requires forall i <- t[h.msgId].fragments :: i < h.total
    ensures var (t', r) := StoreSpec(l, t, h, payload, now);
            && HoldsLastCopies(t', Heard(copies, h, payload, r))
            && (r.Complete? ==> MadeOfLastCopies(Heard(copies, h, payload, r), h, r.message))
  {
    hide MadeOfLastCopies, Rejoined, CastToU16;
    if StoreSpec(l, t, h, payload, now).1.Complete? {
      StoreCompletesFromCopies(l, t, h, payload, now, copies);
    }
  }

  /** With all indices below the total, the count reaches it only when every one is held. */
  lemma StoredIsFull(m: Partial, i: u16, payload: Bytes)
    requires i < m.total && i !in m.fragments && forall j <- m.fragments :: j < m.total
    requires CastToU16(|Inserted(m, i, payload).fragments|) == m.total
    ensures forall j: u16 | j < m.total :: j in Inserted(m, i, payload).fragments
  {
    var fragments := Inserted(m, i, payload).fragments;
    KeysBelow(fragments, m.total);
    CastIsExact(|fragments|);
    assert forall j: u16 | j < m.total :: j in Below(m.total);
  }

  /** One answer, and the table and last copies after it. */
  ghost predicate KeepsCopies(copies: Copies, h: Header, payload: Bytes, t: Table, r: Accept) {
    && HoldsLastCopies(t, Heard(copies, h, payload, r))
    && (r.Complete? ==> MadeOfLastCopies(Heard(copies, h, payload, r), h, r.message))
  }

  lemma FewerHold(t: Table, t': Table, copies: Copies)
    requires HoldsLastCopies(t, copies) && forall id <- t' :: id in t && t'[id] == t[id]
    ensures HoldsLastCopies(t', copies)
  {}

  lemma WithoutHolds(t: Table, id: u32, i: u16, c: Copy, copies: Copies)
    requires HoldsLastCopies(t, copies)
    ensures HoldsLastCopies(t - {id}, copies[(id, i) := c])
  {}

  lemma OpenedHolds(l: Limits, t: Table, h: Header, now: nat, copies: Copies)
    requires HoldsLastCopies(t, copies) && h.msgId !in t
    ensures HoldsLastCopies(Opened(l, t, h, now), copies)
  {
    OpenedFromLive(l, t, h, now);
  }

  lemma PartKeepsCopies(l: Limits, t: Table, h: Header, payload: Bytes, now: nat, copies: Copies)
    requires Bounded(l, t) && HoldsLastCopies(t, copies) && h.index < h.total
    ensures var (t', r) := AcceptPart(l, t, h, payload, now); KeepsCopies(copies, h, payload, t', r)
  {
    hide StoreSpec, HoldsLastCopies, MadeOfLastCopies, Opened;
    if h.msgId in t {
      if t[h.msgId].total == h.total {
        assert EntryBounded(l, t[h.msgId]);
        StoreKeepsCopies(l, t, h, payload, now, copies);
      } else {
        FewerHold(t, t - {h.msgId}, copies);
      }
    } else if DeclaredMin(h, payload) <= l.maxMessageLen {
      OpenedHolds(l, t, h, now, copies);
      OpenedEntry(l, t, h, now);
      StoreKeepsCopies(l, Opened(l, t, h, now), h, payload, now, copies);
    }
  }

  lemma AcceptKeepsCopies(l: Limits, t: Table, h: Header, payload: Bytes, now: nat, copies: Copies)
    requires Bounded(l, t) && HoldsLastCopies(t, copies)
    ensures var (t', r) := AcceptSpec(l, t, h, payload, now); KeepsCopies(copies, h, payload, t', r)
  {
    hide AcceptPart, HoldsLastCopies, MadeOfLastCopies, EntryBounded;
    if h.index < h.total && |payload| <= l.maxMessageLen {
      var live: Table := Expired(t, l.timeout, now);
      FewerHold(t, live, copies);
      if h.total == 1 {
        OneCopy(Heard(copies, h, payload, Complete(payload)), h, payload);
        WithoutHolds(live, h.msgId, h.index, Copy(h.total, payload), copies);
      } else {
        SubmapSize(live, t);
        PartKeepsCopies(l, live, h, payload, now, copies);
      }
    }
  }

  lemma OneCopy(copies: Copies, h: Header, payload: Bytes)
    requires h.total == 1 && h.index == 0 && (h.msgId, 0) in copies && copies[(h.msgId, 0)] == Copy(1, payload)
    ensures MadeOfLastCopies(copies, h, payload)
  {
    assert Concatenated(copies, h.msgId, 0) == [];
    assert Concatenated(copies, h.msgId, 1) == [] + payload == payload;
  }

  ghost predicate CompletesFromLastCopies(l: Limits, t: Table, copies: Copies, inputs: seq<Input>)
    decreases |inputs|
  {
    inputs == [] ||
    match inputs[0]
    case Tick(now) => CompletesFromLastCopies(l, Expired(t, l.timeout, now), copies, inputs[1..])
    case Gap => CompletesFromLastCopies(l, map[], map[], inputs[1..])
    case Arrive(h, payload, now) =>
      var (t', r) := AcceptSpec(l, t, h, payload, now);
      && (r.Complete? ==> MadeOfLastCopies(Heard(copies, h, payload, r), h, r.message))
      && CompletesFromLastCopies(l, t', Heard(copies, h, payload, r), inputs[1..])
  }

  /** Whatever arrives, ids reused at will: every message that completes is made, index by index,
      of the copy that arrived last, all of them declaring the message's total and none from before
      the last gap. No stale copy of a superseded message ever gets into it. */
  lemma {:induction false} NoStaleCopies(l: Limits, t: Table, copies: Copies, inputs: seq<Input>)
    requires Bounded(l, t) && HoldsLastCopies(t, copies)
    ensures CompletesFromLastCopies(l, t, copies, inputs)
    decreases |inputs|
  {
    hide AcceptSpec, MadeOfLastCopies;
    if inputs != [] {
      match inputs[0] {
        case Tick(now) =>
          var t1: Table := Expired(t, l.timeout, now);
          SubmapSize(t1, t);
          NoStaleCopies(l, t1, copies, inputs[1..]);
        case Gap =>
          NoStaleCopies(l, map[], map[], inputs[1..]);
        case Arrive(h, payload, now) =>
          var (t', r) := AcceptSpec(l, t, h, payload, now);
          AcceptKeepsBounds(l, t, h, payload, now);
          AcceptKeepsCopies(l, t, h, payload, now, copies);
          NoStaleCopies(l, t', Heard(copies, h, payload, r), inputs[1..]);
      }
    }
  }
}
