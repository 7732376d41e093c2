/**
  What the reassembler does with genuine fragments: fragments that were split from messages
  with distinct ids. No loss, duplication, reordering, eviction or expiry can blend two
  messages, and any order of a message's fragments completes it on the last missing one.
 */
module Messages {
  import opened Basics
  import opened Fragment
  import opened Reassembly

  datatype Message = Message(payload: Bytes, budget: nat)

  /** A message the sender could split. */
  type Sent = m: Message | m.budget > 0 && |Chunks(m.payload, m.budget)| <= MAX_FRAGMENTS
    witness Message([], 1)

  function Pieces(m: Sent): (r: seq<Bytes>)
    ensures 1 <= |r| <= MAX_FRAGMENTS
  {
    Chunks(m.payload, m.budget)
  }

  /** Fragment `i` of message `m` sent under `id`. */
  function HeaderOf(id: u32, m: Sent, i: u16): Header {
    Header(id, i, |Pieces(m)|)
  }

  /** An entry that holds nothing but pieces of `m`. */
  ghost predicate Genuine(p: Partial, m: Sent) {
    && p.total == |Pieces(m)|
    && forall i <- p.fragments :: i < p.total && p.fragments[i] == Pieces(m)[i]
  }

  // ---- Joining genuine pieces -----------------------------------------------------

  lemma {:induction false} JoinAppend(a: seq<Bytes>, x: Bytes)
    ensures Join(a + [x]) == Join(a) + x
  {
    if a == [] {
      assert Join([x]) == x + Join([]);
    } else {
      assert (a + [x])[1..] == a[1..] + [x];
      JoinAppend(a[1..], x);
      assert Join(a + [x]) == a[0] + (Join(a[1..]) + x) == (a[0] + Join(a[1..])) + x;
    }
  }

  /** Genuine pieces rejoin to at most the prefix of the payload they cover, and exactly to it
      when none is missing. */
  lemma {:induction false} GenuineRejoins(p: Partial, m: Sent, n: nat)
    requires Genuine(p, m) && n <= p.total
    ensures |Rejoined(p.fragments, n)| <= |Join(Pieces(m)[..n])|
    ensures (forall i: nat | i < n :: i in p.fragments) ==> Rejoined(p.fragments, n) == Join(Pieces(m)[..n])
  {
    if n > 0 {
      GenuineRejoins(p, m, n - 1);
      assert Pieces(m)[..n] == Pieces(m)[..n - 1] + [Pieces(m)[n - 1]];
      JoinAppend(Pieces(m)[..n - 1], Pieces(m)[n - 1]);
    }
  }

  lemma WholeJoin(m: Sent)
    ensures Join(Pieces(m)[..|Pieces(m)|]) == m.payload
  {
    ChunksRejoin(m.payload, m.budget);
    assert Pieces(m)[..|Pieces(m)|] == Pieces(m);
  }

  /** The declared-size check never refuses a genuine fragment of a message within the limit,
      not even the short last one. */
  lemma DeclaredSizeAccepts(l: Limits, id: u32, m: Sent, i: u16)
    requires i < |Pieces(m)| && |m.payload| <= l.maxMessageLen
    ensures |Pieces(m)[i]| <= l.maxMessageLen
    ensures DeclaredMin(HeaderOf(id, m, i), Pieces(m)[i]) <= l.maxMessageLen
  {
    PieceWithinPayload(m, i);
    var n := |Pieces(m)|;
    var piece := Pieces(m)[i];
    assert piece in Pieces(m);
    if n > 1 {
      NoEmptyChunk(m.payload, m.budget);
      ChunksRejoin(m.payload, m.budget);
      ChunkCountIsCeiling(m.payload, m.budget);
      DeclaredAtMost(HeaderOf(id, m, i), piece, m.budget, |m.payload|);
    }
  }

  lemma DeclaredAtMost(h: Header, piece: Bytes, budget: nat, len: nat)
    requires h.total > 1 && 1 <= |piece| <= budget && (h.total - 1) * budget < len
    ensures DeclaredMin(h, piece) <= len
  {
    MulOrder(|piece|, budget, h.total - 1);
    assert (h.total - 1) * |piece| <= (h.total - 1) * budget;
    assert Max(h.total - 1, 0) == h.total - 1 && Max(|piece|, 1) == |piece|;
  }

  lemma PieceWithinPayload(m: Sent, i: u16)
    requires i < |Pieces(m)|
    ensures |Pieces(m)[i]| <= |m.payload|
  {
    var only := Partial(|Pieces(m)|, map[i := Pieces(m)[i]], 0, 0);
    GenuineRejoins(only, m, |Pieces(m)|);
    WholeJoin(m);
    RejoinedEmpty(|Pieces(m)|);
    RejoinedInsert(map[], i, Pieces(m)[i], |Pieces(m)|);
    assert map[][i := Pieces(m)[i]] == map[i := Pieces(m)[i]];
  }

  // ---- One genuine fragment -------------------------------------------------------

  /** Accepting a genuine fragment touches no other message, keeps the message's own entry
      genuine, and can only ever complete with the payload that was sent. */
  lemma GenuineStep(l: Limits, t: Table, id: u32, m: Sent, i: u16, now: nat)
    requires i < |Pieces(m)|
    requires id in t ==> Genuine(t[id], m)
    ensures var (t', r) := AcceptSpec(l, t, HeaderOf(id, m, i), Pieces(m)[i], now);
            && (forall o <- t' :: o != id ==> o in t && t'[o] == t[o])
            && (id in t' ==> Genuine(t'[id], m))
            && (r.Complete? ==> r.message == m.payload)
            && (r.Rejected? ==> r.reason == MessageTooLarge)
  {
    var h := HeaderOf(id, m, i);
    var live: Table := Expired(t, l.timeout, now);
    if h.total == 1 {
      WholeJoin(m);
      assert Pieces(m)[..1] == [Pieces(m)[0]];
      JoinAppend([], Pieces(m)[0]);
    } else {
      GenuinePart(l, live, id, m, i, now);
    }
  }

  lemma GenuinePart(l: Limits, live: Table, id: u32, m: Sent, i: u16, now: nat)
    requires i < |Pieces(m)|
    requires id in live ==> Genuine(live[id], m)
    ensures var (t', r) := AcceptPart(l, live, HeaderOf(id, m, i), Pieces(m)[i], now);
            && (forall o <- t' :: o != id ==> o in live && t'[o] == live[o])
            && (id in t' ==> Genuine(t'[id], m))
            && (r.Complete? ==> r.message == m.payload)
            && (r.Rejected? ==> r.reason == MessageTooLarge)
  {
    hide DeclaredMin, Chunks, StoreSpec;
    if id in live {
      GenuineStore(l, live, id, m, i, now);
    } else {
      GenuineStore(l, Opened(l, live, HeaderOf(id, m, i), now), id, m, i, now);
    }
  }

  lemma GenuineStore(l: Limits, t: Table, id: u32, m: Sent, i: u16, now: nat)
    requires i < |Pieces(m)|
    requires id in t && Genuine(t[id], m)
    ensures var (t', r) := StoreSpec(l, t, HeaderOf(id, m, i), Pieces(m)[i], now);
            && (forall o <- t' :: o in t && (o != id ==> t'[o] == t[o]))
            && (forall o <- t :: o != id ==> o in t')
            && (id in t' ==> Genuine(t'[id], m))
            && (r.Complete? ==> r.message == m.payload)
            && (r.Rejected? ==> r.reason == MessageTooLarge)
  {
    if i !in t[id].fragments {
      GenuineInsert(t[id], m, i);
    }
  }

  /** Storing a missing genuine piece: the entry is full exactly when every index is held, and
      a full entry rejoins to the payload. */
  lemma GenuineInsert(p: Partial, m: Sent, i: u16)
    requires i < |Pieces(m)| && Genuine(p, m) && i !in p.fragments
    ensures var p' := Inserted(p, i, Pieces(m)[i]);
            && Genuine(p', m)
            && |p'.fragments| <= p'.total && CastToU16(|p'.fragments|) == |p'.fragments|
            && (|p'.fragments| == p'.total <==> p'.fragments.Keys == Below(p'.total))
            && (|p'.fragments| == p'.total ==> Rejoined(p'.fragments, p'.total) == m.payload)
            && StoredLen(p'.fragments, p'.total) == StoredLen(p.fragments, p.total) + |Pieces(m)[i]| <= |m.payload|
  {
    var p' := Inserted(p, i, Pieces(m)[i]);
    KeysBelow(p'.fragments, p'.total);
    CastIsExact(|p'.fragments|);
    GenuineRejoins(p', m, p'.total);
    WholeJoin(m);
    RejoinedInsert(p.fragments, i, Pieces(m)[i], p.total);
  }

  // ---- No blending ----------------------------------------------------------------

  type Outbox = map<u32, Sent>

  /** Every input is a genuine fragment of one of the sent messages, a timer tick or a gap. */
  ghost predicate AllGenuine(sent: Outbox, inputs: seq<Input>) {
    forall x <- inputs :: x.Arrive? ==>
      && x.h.msgId in sent
      && x.h.index < |Pieces(sent[x.h.msgId])|
      && x.h == HeaderOf(x.h.msgId, sent[x.h.msgId], x.h.index)
      && x.payload == Pieces(sent[x.h.msgId])[x.h.index]
  }

  ghost predicate TableGenuine(sent: Outbox, t: Table) {
    forall id <- t :: id in sent && Genuine(t[id], sent[id])
  }

  /** Feed the reassembler any genuine fragments, in any order, any number of times, under any
      limits and clock: whatever completes as id k is byte for byte the payload sent as k. */
  lemma {:induction false} NoBlending(l: Limits, t: Table, sent: Outbox, inputs: seq<Input>)
    requires TableGenuine(sent, t) && AllGenuine(sent, inputs)
    ensures forall o <- Run(l, t, inputs).1 ::
              && o.msgId in sent
              && (o.accept.Complete? ==> o.accept.message == sent[o.msgId].payload)
              && (o.accept.Rejected? ==> o.accept.reason == MessageTooLarge)
    decreases |inputs|
  {
    if inputs != [] {
      assert inputs[0] in inputs && forall x <- inputs[1..] :: x in inputs;
      var t1 := match inputs[0]
        case Arrive(h, payload, now) => AcceptSpec(l, t, h, payload, now).0
        case Tick(now) => Expired(t, l.timeout, now)
        case Gap => map[];
      match inputs[0] {
        case Arrive(h, payload, now) => GenuineStep(l, t, h.msgId, sent[h.msgId], h.index, now);
        case Tick(now) =>
        case Gap =>
      }
      NoBlending(l, t1, sent, inputs[1..]);
    }
  }

  // ---- Completion -----------------------------------------------------------------

  /** The exact effect of a genuine fragment of a message within the limit whose own entry, if
      any, has not timed out: it is never refused, and it completes the message exactly when
      it was the last missing one. */
  lemma FragmentProgress(l: Limits, t: Table, id: u32, m: Sent, i: u16, now: nat)
    requires i < |Pieces(m)| && |m.payload| <= l.maxMessageLen
    requires id in t ==> Progressing(t[id], m) && Elapsed(now, t[id].startedAt) < l.timeout
    ensures var (t', r) := AcceptSpec(l, t, HeaderOf(id, m, i), Pieces(m)[i], now);
            var held := (if id in t then t[id].fragments.Keys else {}) + {i};
            && r == (if held == Below(|Pieces(m)|) then Complete(m.payload) else Pending)
            && (id in t' <==> r.Pending?)
            && (r.Pending? ==> && Progressing(t'[id], m)
                               && t'[id].fragments.Keys == held
                               && t'[id].startedAt == if id in t then t[id].startedAt else now)
  {
    DeclaredSizeAccepts(l, id, m, i);
    var h := HeaderOf(id, m, i);
    var live: Table := Expired(t, l.timeout, now);
    if h.total == 1 {
      WholeJoin(m);
      assert Pieces(m)[..1] == [Pieces(m)[0]];
      JoinAppend([], Pieces(m)[0]);
      assert Below(1) == {0};
    } else if id in t {
      ProgressStore(l, live, id, m, i, now);
    } else {
      ProgressStore(l, Opened(l, live, h, now), id, m, i, now);
    }
  }

  /** It only ever removes other messages, never adds or changes one. */
  lemma OthersUntouched(l: Limits, t: Table, id: u32, m: Sent, i: u16, now: nat)
    requires i < |Pieces(m)|
    requires id in t ==> Progressing(t[id], m)
    ensures forall o <- AcceptSpec(l, t, HeaderOf(id, m, i), Pieces(m)[i], now).0 ::
              o != id ==> o in t && AcceptSpec(l, t, HeaderOf(id, m, i), Pieces(m)[i], now).0[o] == t[o]
  {
    GenuineStep(l, t, id, m, i, now);
  }

  /** With room in the table, no other message that is within its timeout is lost. */
  lemma OthersSurvive(l: Limits, t: Table, id: u32, m: Sent, i: u16, now: nat)
    requires i < |Pieces(m)|
    requires id in t ==> Genuine(t[id], m) && Elapsed(now, t[id].startedAt) < l.timeout
    requires |Pieces(m)| == 1 || id in t || |t| < l.maxConcurrent
    ensures forall o <- t :: o != id && Elapsed(now, t[o].startedAt) < l.timeout ==>
              o in AcceptSpec(l, t, HeaderOf(id, m, i), Pieces(m)[i], now).0
  {
    var h := HeaderOf(id, m, i);
    var live: Table := Expired(t, l.timeout, now);
    SubmapSize(live, t);
    if h.total > 1 {
      if id in live {
        GenuineStore(l, live, id, m, i, now);
      } else {
        assert Evicted(live, l.maxConcurrent) == live;
        GenuineStore(l, Opened(l, live, h, now), id, m, i, now);
      }
    }
  }

  ghost predicate Progressing(p: Partial, m: Sent) {
    && Genuine(p, m)
    && p.cumulativeLen == StoredLen(p.fragments, p.total)
    && p.fragments.Keys != Below(p.total)
  }

  lemma ProgressStore(l: Limits, t: Table, id: u32, m: Sent, i: u16, now: nat)
    requires 1 < |Pieces(m)| && i < |Pieces(m)| && |m.payload| <= l.maxMessageLen
    requires id in t && (Progressing(t[id], m) || t[id] == Partial(|Pieces(m)|, map[], 0, now))
    ensures var (t', r) := StoreSpec(l, t, HeaderOf(id, m, i), Pieces(m)[i], now);
            var held := t[id].fragments.Keys + {i};
            && r == (if held == Below(|Pieces(m)|) then Complete(m.payload) else Pending)
            && (id in t' <==> r.Pending?)
            && (r.Pending? ==> && Progressing(t'[id], m)
                               && t'[id].fragments.Keys == held
                               && t'[id].startedAt == t[id].startedAt)
  {
    RejoinedEmpty(|Pieces(m)|);
    if i in t[id].fragments {
      assert t[id].fragments.Keys + {i} == t[id].fragments.Keys;
    } else {
      GenuineInsert(t[id], m, i);
      assert Inserted(t[id], i, Pieces(m)[i]).fragments.Keys == t[id].fragments.Keys + {i};
    }
  }

  /** Fragment `index` of message `id` arriving at `now`. */
  datatype Arrival = Arrival(id: u32, index: u16, now: nat)

  /** The reference: per open message, which fragments are held and since when. */
  datatype Open = Open(held: set<u16>, since: nat)

  type Board = map<u32, Open>

  ghost function BoardStep(sent: Outbox, b: Board, a: Arrival): (Board, Accept)
    requires a.id in sent
  {
    var m := sent[a.id];
    var held := (if a.id in b then b[a.id].held else {}) + {a.index};
    if held == Below(|Pieces(m)|) then (b - {a.id}, Complete(m.payload))
    else (b[a.id := Open(held, if a.id in b then b[a.id].since else a.now)], Pending)
  }

  ghost function BoardRun(sent: Outbox, b: Board, arrivals: seq<Arrival>): seq<Outcome>
    requires Indexed(sent, arrivals)
    decreases |arrivals|
  {
    if arrivals == [] then []
    else
      var (b', r) := BoardStep(sent, b, arrivals[0]);
      [Outcome(arrivals[0].id, r)] + BoardRun(sent, b', arrivals[1..])
  }

  /** The message is within the limit, every open one is within its timeout, and no more than
      the configured number will be open at once. */
  ghost predicate Admissible(l: Limits, sent: Outbox, b: Board, a: Arrival) {
    && a.id in sent
    && a.index < |Pieces(sent[a.id])|
    && |sent[a.id].payload| <= l.maxMessageLen
    && (forall o <- b :: Elapsed(a.now, b[o].since) < l.timeout)
    && (a.id in b || |Pieces(sent[a.id])| == 1 || |b| < l.maxConcurrent)
  }

  ghost predicate WithinLimits(l: Limits, sent: Outbox, b: Board, arrivals: seq<Arrival>)
    decreases |arrivals|
  {
    arrivals == [] ||
    (&& Admissible(l, sent, b, arrivals[0])
     && WithinLimits(l, sent, BoardStep(sent, b, arrivals[0]).0, arrivals[1..]))
  }

  ghost predicate Indexed(sent: Outbox, arrivals: seq<Arrival>) {
    forall a <- arrivals :: a.id in sent && a.index < |Pieces(sent[a.id])|
  }

  function Piece(id: u32, m: Sent, i: u16, now: nat): Input
    requires i < |Pieces(m)|
  {
    Arrive(HeaderOf(id, m, i), Pieces(m)[i], now)
  }

  ghost function Inputs(sent: Outbox, arrivals: seq<Arrival>): seq<Input>
    requires Indexed(sent, arrivals)
    decreases |arrivals|
  {
    if arrivals == [] then []
    else
      var a := arrivals[0];
      [Piece(a.id, sent[a.id], a.index, a.now)] + Inputs(sent, arrivals[1..])
  }

  /** Table and board agree on message `id`. */
  ghost predicate Agree(sent: Outbox, t: Table, b: Board, id: u32) {
    && (id in t <==> id in b)
    && (id in t ==> && id in sent && Progressing(t[id], sent[id])
                    && t[id].fragments.Keys == b[id].held && t[id].startedAt == b[id].since)
  }

  ghost predicate OnBoard(sent: Outbox, t: Table, b: Board) {
    forall id: u32 :: Agree(sent, t, b, id)
  }

  /** The fragments of any messages, interleaved and repeated at will but within the limits:
      the reassembler answers exactly as the board does. Nothing is refused, and a message
      completes exactly when its last missing fragment arrives. */
  lemma {:induction false} FollowsTheBoard(l: Limits, t: Table, sent: Outbox, b: Board, arrivals: seq<Arrival>)
    requires OnBoard(sent, t, b) && WithinLimits(l, sent, b, arrivals)
    requires Indexed(sent, arrivals)
    ensures Run(l, t, Inputs(sent, arrivals)).1 == BoardRun(sent, b, arrivals)
    decreases |arrivals|
  {
    if arrivals != [] {
      hide AcceptSpec, Agree, Admissible, BoardStep;
      var a := arrivals[0];
      assert Agree(sent, t, b, a.id);
      OwnFollows(l, t, sent, b, a);
      OthersFollow(l, t, sent, b, a);
      var (t', r) := AcceptArrival(l, t, sent, a);
      FollowsTheBoard(l, t', sent, BoardStep(sent, b, a).0, arrivals[1..]);
      RunArrive(l, t, Piece(a.id, sent[a.id], a.index, a.now), Inputs(sent, arrivals[1..]));
    }
  }

  lemma RunArrive(l: Limits, t: Table, x: Input, rest: seq<Input>)
    requires x.Arrive?
    ensures var (t', r) := AcceptSpec(l, t, x.h, x.payload, x.now);
            Run(l, t, [x] + rest).1 == [Outcome(x.h.msgId, r)] + Run(l, t', rest).1
  {}

  ghost function AcceptArrival(l: Limits, t: Table, sent: Outbox, a: Arrival): (Table, Accept)
    requires a.id in sent && a.index < |Pieces(sent[a.id])|
  {
    AcceptSpec(l, t, HeaderOf(a.id, sent[a.id], a.index), Pieces(sent[a.id])[a.index], a.now)
  }

  lemma OwnFollows(l: Limits, t: Table, sent: Outbox, b: Board, a: Arrival)
    requires Agree(sent, t, b, a.id) && Admissible(l, sent, b, a)
    ensures Agree(sent, AcceptArrival(l, t, sent, a).0, BoardStep(sent, b, a).0, a.id)
    ensures AcceptArrival(l, t, sent, a).1 == BoardStep(sent, b, a).1
  {
    hide AcceptSpec, Genuine, Progressing, Below, Chunks;
    FragmentProgress(l, t, a.id, sent[a.id], a.index, a.now);
  }

  lemma BoardKeepsOthers(sent: Outbox, b: Board, a: Arrival)
    requires a.id in sent
    ensures forall o | o != a.id :: (o in BoardStep(sent, b, a).0 <==> o in b) && (o in b ==> BoardStep(sent, b, a).0[o] == b[o])
  {}

  lemma OthersFollow(l: Limits, t: Table, sent: Outbox, b: Board, a: Arrival)
    requires OnBoard(sent, t, b) && Admissible(l, sent, b, a)
    ensures forall id: u32 | id != a.id :: Agree(sent, AcceptArrival(l, t, sent, a).0, BoardStep(sent, b, a).0, id)
  {
    hide AcceptSpec, Genuine, Progressing, BoardStep;
    SameSize(sent, t, b);
    BoardKeepsOthers(sent, b, a);
    assert Agree(sent, t, b, a.id);
    forall o <- t
      ensures Elapsed(a.now, t[o].startedAt) < l.timeout
    {
      assert Agree(sent, t, b, o);
    }
    OthersStay(l, t, a.id, sent[a.id], a.index, a.now);
    forall id: u32 | id != a.id
      ensures Agree(sent, AcceptArrival(l, t, sent, a).0, BoardStep(sent, b, a).0, id)
    {
      assert Agree(sent, t, b, id);
    }
  }

  lemma SameSize(sent: Outbox, t: Table, b: Board)
    requires OnBoard(sent, t, b)
    ensures |t| == |b|
  {
    forall id: u32
      ensures id in t.Keys <==> id in b.Keys
    {
      assert Agree(sent, t, b, id);
    }
    assert t.Keys == b.Keys;
    assert |t| == |t.Keys| && |b| == |b.Keys|;
  }

  lemma OthersStay(l: Limits, t: Table, id: u32, m: Sent, i: u16, now: nat)
    requires i < |Pieces(m)|
    requires id in t ==> Progressing(t[id], m)
    requires |Pieces(m)| == 1 || id in t || |t| < l.maxConcurrent
    requires forall o <- t :: Elapsed(now, t[o].startedAt) < l.timeout
    ensures var t' := AcceptSpec(l, t, HeaderOf(id, m, i), Pieces(m)[i], now).0;
            forall o | o != id :: (o in t' <==> o in t) && (o in t ==> t'[o] == t[o])
  {
    GenuineStep(l, t, id, m, i, now);
    OthersSurvive(l, t, id, m, i, now);
    hide AcceptSpec;
  }

  /** The indices that arrived among the first `n`. */
  ghost function Seen(order: seq<u16>): set<u16> {
    set i | i in order
  }

  ghost function OneMessage(id: u32, m: Sent, order: seq<u16>, times: seq<nat>): seq<Input>
    requires |order| == |times| && forall k | 0 <= k < |order| :: order[k] < |Pieces(m)|
    decreases |order|
  {
    if order == [] then []
    else
      [Piece(id, m, order[0], times[0])] + OneMessage(id, m, order[1..], times[1..])
  }

  /** `n` answers: pending until the last, which hands over the payload. */
  ghost function PendingThenComplete(id: u32, payload: Bytes, n: nat): (r: seq<Outcome>)
    ensures |r| == n
    ensures forall k | 0 <= k < n :: r[k] == Outcome(id, if k < n - 1 then Pending else Complete(payload))
  {
    if n == 0 then []
    else if n == 1 then [Outcome(id, Complete(payload))]
    else [Outcome(id, Pending)] + PendingThenComplete(id, payload, n - 1)
  }

  /** Any order of one message's fragments, with repetitions of those already held, however
      many other messages the table holds: no fragment is refused and the message completes
      on the last missing one, not before. */
  lemma {:induction false} AnyOrderCompletes(l: Limits, t: Table, id: u32, m: Sent, order: seq<u16>, times: seq<nat>,
                                             held: set<u16>, since: nat)
    requires |m.payload| <= l.maxMessageLen
    requires 0 < |order| == |times| && forall k | 0 <= k < |order| :: order[k] < |Pieces(m)|
    requires if id in t then Progressing(t[id], m) && t[id].fragments.Keys == held && t[id].startedAt == since
             else held == {} && since == times[0]
    requires forall k | 0 <= k < |times| :: Elapsed(times[k], since) < l.timeout
    requires held + Seen(order) == Below(|Pieces(m)|)
    requires held + Seen(order[..|order| - 1]) != Below(|Pieces(m)|)
    ensures Run(l, t, OneMessage(id, m, order, times)).1 == PendingThenComplete(id, m.payload, |order|)
    decreases |order|
  {
    hide AcceptSpec, Genuine, Progressing, Seen, Elapsed, Below, Run;
    FragmentProgress(l, t, id, m, order[0], times[0]);
    var t' := AcceptSpec(l, t, HeaderOf(id, m, order[0]), Pieces(m)[order[0]], times[0]).0;
    HeldAfterFirst(held, order, Below(|Pieces(m)|));
    var rest := OneMessage(id, m, order[1..], times[1..]);
    RunArrive(l, t, Piece(id, m, order[0], times[0]), rest);
    if |order| == 1 {
      assert rest == [];
      RunNothing(l, t');
    } else {
      AnyOrderCompletes(l, t', id, m, order[1..], times[1..], held + {order[0]}, since);
    }
  }

  lemma RunNothing(l: Limits, t: Table)
    ensures Run(l, t, []).1 == []
  {}

  lemma HeldAfterFirst(held: set<u16>, order: seq<u16>, all: set<nat>)
    requires order != []
    requires held + Seen(order) == all && held + Seen(order[..|order| - 1]) != all
    ensures |order| == 1 ==> held + {order[0]} == all
    ensures |order| > 1 ==>
              && held + {order[0]} != all
              && held + {order[0]} + Seen(order[1..]) == all
              && held + {order[0]} + Seen(order[1..][..|order| - 2]) != all
  {
    SeenSplits(order);
    if |order| > 1 {
      var front := order[..|order| - 1];
      SeenSplits(front);
      assert front[1..] == order[1..][..|order| - 2];
      assert Seen(front[1..]) <= Seen(order[1..]);
    }
  }

  lemma SeenSplits(order: seq<u16>)
    requires order != []
    ensures Seen(order) == {order[0]} + Seen(order[1..])
  {}
}
