/**
  One link of the iroh transport (`ble-gatt-iroh`): packets pass two bounded queues that shed
  when full, and a barrier passes through both to tell when the packets before it are out.
 */
module IrohLink {
  import opened Basics

  const LINK_QUEUE_DEPTH: nat := 64

  /** What passes through the queues, numbered in the order it was offered to the link. */
  datatype Item = Packet(n: nat) | Barrier(n: nat)

  datatype Offered = Offered(at: nat, barrier: bool)

  /**
    `offered` is what was offered and when, `entering` the barriers waiting for room in the
    first queue, `blocked` those waiting in their own tasks for room in the second. `shed` tells
    when a packet was dropped for a full queue; `dropped` is what the transport remembers of it.
    `finished` lists the packets sent, in the order they were.
   */
  datatype State = State(
    now: nat, offered: seq<Offered>, entering: set<nat>, outbound: seq<Item>, blocked: set<nat>, toSend: seq<Item>,
    sending: Option<nat>, finished: seq<nat>, reached: set<nat>, shed: map<nat, nat>, dropped: Option<nat>, ended: bool)

  const START := State(0, [], {}, [], {}, [], None, [], {}, map[], None, false)

  datatype Step =
    | Offer(full: bool)
    | OfferBarrier
    | EnterOutbound(n: nat)
    | Forward(full: bool)
    | EnterToSend(n: nat)
    | Take
    | SendOk
    | SendFailed
    | End
    | TimePasses(later: nat)

  /** `try_send` finds the queue full, or not: a waiting barrier may have the next place reserved. */
  predicate MayFind(full: bool, queued: nat, waiting: set<nat>) {
    if full then queued + |waiting| >= LINK_QUEUE_DEPTH else queued < LINK_QUEUE_DEPTH
  }

  predicate Enabled(s: State, a: Step) {
    match a
    case Offer(full) => !s.ended && MayFind(full, |s.outbound|, s.entering)
    case OfferBarrier => !s.ended
    case EnterOutbound(n) => !s.ended && n in s.entering && |s.outbound| < LINK_QUEUE_DEPTH
    case Forward(full) => !s.ended && s.outbound != [] && MayFind(full, |s.toSend|, s.blocked)
    case EnterToSend(n) => !s.ended && n in s.blocked && |s.toSend| < LINK_QUEUE_DEPTH
    case Take => !s.ended && s.sending == None && s.toSend != []
    case SendOk => !s.ended && s.sending.Some?
    case SendFailed => !s.ended && s.sending.Some?
    case End => !s.ended
    case TimePasses(later) => later >= s.now
  }

  // ---- Specification --------------------------------------------------------------------

  /** A full queue drops the packet and remembers when. */
  function Shed(s: State, n: nat): State {
    s.(shed := s.shed[n := s.now], dropped := Some(s.now))
  }

  /** `Sender::send`, for a peer that has this link. */
  function OnOffer(s: State, full: bool): State {
    var n := |s.offered|;
    var s1 := s.(offered := s.offered + [Offered(s.now, false)]);
    if full then Shed(s1, n) else s1.(outbound := s.outbound + [Packet(n)])
  }

  /** One item moves from the first queue to the second. A barrier is never dropped. */
  function OnForward(s: State, full: bool): State
    requires s.outbound != []
  {
    var item := s.outbound[0];
    var s1 := s.(outbound := s.outbound[1..]);
    if !full then s1.(toSend := s.toSend + [item])
    else if item.Barrier? then s1.(blocked := s.blocked + {item.n})
    else Shed(s1, item.n)
  }

  /** The send task's next item. */
  function OnTake(s: State): State
    requires s.toSend != []
  {
    var item := s.toSend[0];
    var s1 := s.(toSend := s.toSend[1..]);
    if item.Barrier? then s1.(reached := s.reached + {item.n}) else s1.(sending := Some(item.n))
  }

  function Apply(s: State, a: Step): State
    requires Enabled(s, a)
  {
    match a
    case Offer(full) => OnOffer(s, full)
    case OfferBarrier => s.(offered := s.offered + [Offered(s.now, true)], entering := s.entering + {|s.offered|})
    case EnterOutbound(n) => s.(entering := s.entering - {n}, outbound := s.outbound + [Barrier(n)])
    case Forward(full) => OnForward(s, full)
    case EnterToSend(n) => s.(blocked := s.blocked - {n}, toSend := s.toSend + [Barrier(n)])
    case Take => OnTake(s)
    case SendOk => s.(sending := None, finished := s.finished + [s.sending.value])
    // The send task stops, or the whole link does: what is still queued is gone.
    case SendFailed => s.(ended := true)
    case End => s.(ended := true)
    case TimePasses(later) => s.(now := later)
  }

  // ---- Invariant ----------------------------------------------------------------------------

  /** Packet `n` is out, or accounted for as shed. */
  predicate Settled(s: State, n: nat) {
    n in s.finished || n in s.shed
  }

  /** Every packet offered is settled, being sent, or in a queue. */
  ghost predicate Placed(s: State) {
    forall n: nat | n < |s.offered| && !s.offered[n].barrier ::
      Settled(s, n) || s.sending == Some(n) || Packet(n) in s.toSend || Packet(n) in s.outbound
  }

  /** No packet offered before `m` is in `q`. */
  ghost predicate NoneBefore(q: seq<Item>, m: nat) {
    forall x <- q :: x.Packet? ==> x.n > m
  }

  /** What is behind a barrier in its queue was offered after it. */
  ghost predicate BehindLater(q: seq<Item>) {
    forall j, k | 0 <= j < k < |q| && q[j].Barrier? && q[k].Packet? :: q[j].n < q[k].n
  }

  /** Nothing offered before a barrier is still where the barrier has passed. */
  ghost predicate Passed(s: State) {
    && BehindLater(s.outbound) && BehindLater(s.toSend)
    && (forall m <- s.blocked :: NoneBefore(s.outbound, m))
    && (forall x <- s.toSend :: x.Barrier? ==> NoneBefore(s.outbound, x.n))
    && (forall m <- s.reached :: NoneBefore(s.outbound, m) && NoneBefore(s.toSend, m) && (s.sending.Some? ==> s.sending.value > m))
  }

  ghost predicate Known(s: State) {
    var n := |s.offered|;
    && (forall x <- s.outbound :: x.n < n)
    && (forall x <- s.toSend :: x.n < n)
    && (forall m <- s.entering :: m < n)
    && (forall m <- s.blocked :: m < n)
    && (forall m <- s.reached :: m < n)
    && (s.sending.Some? ==> s.sending.value < n)
    && |s.outbound| <= LINK_QUEUE_DEPTH && |s.toSend| <= LINK_QUEUE_DEPTH
  }

  ghost predicate Times(s: State) {
    && (forall n <- s.shed :: n < |s.offered| && s.offered[n].at <= s.shed[n])
    && (forall n <- s.shed :: s.dropped.Some? && s.shed[n] <= s.dropped.value)
    && (s.dropped.Some? ==> s.dropped.value <= s.now)
    && (s.dropped.Some? ==> exists n :: n in s.shed && s.shed[n] == s.dropped.value)
    && (forall i | 0 <= i < |s.offered| :: s.offered[i].at <= s.now)
  }

  ghost predicate Inv(s: State) {
    Placed(s) && Passed(s) && Known(s) && Times(s)
  }

  lemma Appended(q: seq<Item>, x: Item, m: nat)
    ensures NoneBefore(q + [x], m) <==> NoneBefore(q, m) && (x.Packet? ==> x.n > m)
    ensures forall y :: y in q + [x] <==> y in q || y == x
  {}

  lemma Popped(q: seq<Item>)
    requires q != []
    ensures BehindLater(q) ==> BehindLater(q[1..])
    ensures BehindLater(q) && q[0].Barrier? ==> NoneBefore(q[1..], q[0].n)
    ensures forall y :: y in q <==> y == q[0] || y in q[1..]
    ensures forall m :: NoneBefore(q, m) ==> NoneBefore(q[1..], m)
  {
    assert q == [q[0]] + q[1..];
    forall k | 0 <= k < |q[1..]|
      ensures q[1..][k] == q[k + 1]
    {
    }
    if BehindLater(q) && q[0].Barrier? {
      forall x | x in q[1..]
        ensures x.Packet? ==> x.n > q[0].n
      {
        var k :| 0 <= k < |q[1..]| && q[1..][k] == x;
        assert q[k + 1] == x;
      }
    }
  }

  lemma DropsStayReal(s: State, s': State, shed: bool, n: nat)
    requires s.dropped.Some? ==> exists k :: k in s.shed && s.shed[k] == s.dropped.value
    requires if shed then s'.shed == s.shed[n := s.now] && s'.dropped == Some(s.now) else s'.shed == s.shed && s'.dropped == s.dropped
    ensures s'.dropped.Some? ==> exists k :: k in s'.shed && s'.shed[k] == s'.dropped.value
  {
    if shed {
      assert n in s'.shed && s'.shed[n] == s'.dropped.value;
    }
  }

  lemma OfferKeepsPassed(s: State, full: bool)
    requires Passed(s) && Known(s)
    ensures Passed(OnOffer(s, full))
  {}

  lemma OfferKeepsInv(s: State, full: bool)
    requires Inv(s) && Enabled(s, Offer(full))
    ensures Inv(OnOffer(s, full))
  {
    hide NoneBefore, BehindLater, Passed;
    var s' := OnOffer(s, full);
    OfferKeepsPassed(s, full);
    Appended(s.outbound, Packet(|s.offered|), 0);
    assert full ==> |s.offered| in s'.shed && s'.shed[|s.offered|] == s.now;
    DropsStayReal(s, s', full, |s.offered|);
    assert forall i | 0 <= i < |s.offered| :: s'.offered[i] == s.offered[i];
    assert Placed(s');
    assert Known(s');
    assert Times(s');
  }

  lemma EnterKeepsInv(s: State, n: nat)
    requires Inv(s) && Enabled(s, EnterOutbound(n))
    ensures Inv(Apply(s, EnterOutbound(n)))
  {}

  lemma ForwardKeepsInv(s: State, full: bool)
    requires Inv(s) && Enabled(s, Forward(full))
    ensures Inv(OnForward(s, full))
  {
    hide NoneBefore, BehindLater, Passed;
    var s' := OnForward(s, full);
    ForwardKeepsPassed(s, full);
    Popped(s.outbound);
    Appended(s.toSend, s.outbound[0], 0);
    DropsStayReal(s, s', full && s.outbound[0].Packet?, s.outbound[0].n);
    assert Placed(s');
    assert Known(s');
    assert Times(s');
  }

  lemma ForwardKeepsPassed(s: State, full: bool)
    requires Passed(s) && s.outbound != []
    ensures Passed(OnForward(s, full))
  {
    var item := s.outbound[0];
    var q := s.outbound[1..];
    Popped(s.outbound);
    if !full {
      forall m
        ensures NoneBefore(s.toSend + [item], m) <==> NoneBefore(s.toSend, m) && (item.Packet? ==> item.n > m)
      {
        Appended(s.toSend, item, m);
      }
      Appended(s.toSend, item, 0);
      assert item in s.outbound;
      forall j | 0 <= j < |s.toSend| && s.toSend[j].Barrier? && item.Packet?
        ensures s.toSend[j].n < item.n
      {
        assert s.toSend[j] in s.toSend;
      }
    }
  }

  lemma EnterToSendKeepsInv(s: State, n: nat)
    requires Inv(s) && Enabled(s, EnterToSend(n))
    ensures Inv(Apply(s, EnterToSend(n)))
  {}

  lemma TakeKeepsPassed(s: State)
    requires Passed(s) && s.sending == None && s.toSend != []
    ensures Passed(OnTake(s))
  {}

  lemma TakeKeepsInv(s: State)
    requires Inv(s) && Enabled(s, Take)
    ensures Inv(OnTake(s))
  {
    hide NoneBefore, BehindLater, Passed;
    var s' := OnTake(s);
    TakeKeepsPassed(s);
    Popped(s.toSend);
    assert Placed(s');
    assert Known(s');
  }

  lemma StepKeepsInv(s: State, a: Step)
    requires Inv(s) && Enabled(s, a)
    ensures Inv(Apply(s, a))
  {
    hide OnOffer, OnForward, OnTake, NoneBefore, BehindLater;
    match a {
      case Offer(full) => OfferKeepsInv(s, full);
      case OfferBarrier => OfferBarrierKeepsInv(s);
      case EnterOutbound(n) => EnterKeepsInv(s, n);
      case Forward(full) => ForwardKeepsInv(s, full);
      case EnterToSend(n) => EnterToSendKeepsInv(s, n);
      case Take => TakeKeepsInv(s);
      case SendOk =>
      case SendFailed =>
      case End =>
      case TimePasses(later) =>
    }
  }

  lemma OfferBarrierKeepsInv(s: State)
    requires Inv(s)
    ensures Inv(s.(offered := s.offered + [Offered(s.now, true)], entering := s.entering + {|s.offered|}))
  {}

  ghost predicate ValidRun(s: State, steps: seq<Step>)
    decreases |steps|
  {
    steps == [] || (Enabled(s, steps[0]) && ValidRun(Apply(s, steps[0]), steps[1..]))
  }

  ghost function After(s: State, steps: seq<Step>): State
    requires ValidRun(s, steps)
    decreases |steps|
  {
    if steps == [] then s else After(Apply(s, steps[0]), steps[1..])
  }

  lemma {:induction false} RunKeepsInv(s: State, steps: seq<Step>)
    requires Inv(s) && ValidRun(s, steps)
    ensures Inv(After(s, steps))
    decreases |steps|
  {
    hide Inv, Apply, Enabled;
    if steps != [] {
      StepKeepsInv(s, steps[0]);
      RunKeepsInv(Apply(s, steps[0]), steps[1..]);
    }
  }

  lemma StartInv()
    ensures Inv(START)
  {}

  /** When a barrier reports reached, every packet offered on the link before it has finished
      sending, or was shed no later than the time remembered in `dropped`; however full the two
      queues were, and wherever the barrier had to wait. */
  lemma BarrierGuarantee(steps: seq<Step>, m: nat, n: nat)
    requires ValidRun(START, steps)
    requires var s := After(START, steps); m in s.reached && n < m && n < |s.offered| && !s.offered[n].barrier
    ensures var s := After(START, steps);
            n in s.finished || (n in s.shed && s.dropped.Some? && s.offered[n].at <= s.shed[n] <= s.dropped.value)
  {
    hide ValidRun, After, BehindLater;
    StartInv();
    RunKeepsInv(START, steps);
    var s := After(START, steps);
    assert NoneBefore(s.outbound, m) && NoneBefore(s.toSend, m);
  }

  /** What `close_sent` concludes from a reached barrier: with no drop remembered since `since`,
      every packet offered since then and before the barrier was sent. */
  lemma NoDropMeansSent(steps: seq<Step>, m: nat, n: nat, since: nat)
    requires ValidRun(START, steps)
    requires var s := After(START, steps);
             m in s.reached && n < m && n < |s.offered| && !s.offered[n].barrier
             && since <= s.offered[n].at && (s.dropped == None || s.dropped.value < since)
    ensures n in After(START, steps).finished
  {
    hide ValidRun, After;
    BarrierGuarantee(steps, m, n);
  }

  // ---- What is shed, and in what order packets leave ----------------------------------------

  /** The packets among the items, by number. */
  function Packets(q: seq<Item>): seq<nat> {
    if q == [] then [] else (if q[0].Packet? then [q[0].n] else []) + Packets(q[1..])
  }

  /** Every packet on its way, those nearest the other side first. */
  function Line(finished: seq<nat>, sending: Option<nat>, toSend: seq<Item>, outbound: seq<Item>): seq<nat> {
    finished + (if sending.Some? then [sending.value] else []) + Packets(toSend) + Packets(outbound)
  }

  ghost predicate Ascending(q: seq<nat>) {
    forall i, j | 0 <= i < j < |q| :: q[i] < q[j]
  }

  lemma {:induction false} PacketsAppend(q: seq<Item>, x: Item)
    ensures Packets(q + [x]) == Packets(q) + if x.Packet? then [x.n] else []
  {
    if q == [] {
      assert q + [x] == [x] && [x][1..] == [];
    } else {
      assert (q + [x])[0] == q[0] && (q + [x])[1..] == q[1..] + [x];
      PacketsAppend(q[1..], x);
    }
  }

  ghost predicate InLine(s: State) {
    var line := Line(s.finished, s.sending, s.toSend, s.outbound);
    Ascending(line) && forall n <- line :: n < |s.offered|
  }

  /** One of the packets on its way is taken out of the line. */
  lemma TakenOut(a: seq<nat>, x: nat, b: seq<nat>, n: nat)
    requires Ascending(a + [x] + b) && forall y <- a + [x] + b :: y < n
    ensures Ascending(a + b) && forall y <- a + b :: y < n
  {
    var q := a + [x] + b;
    assert forall i | 0 <= i < |a| :: (a + b)[i] == q[i];
    assert forall i | |a| <= i < |a + b| :: (a + b)[i] == q[i + 1];
    forall y | y in a + b
      ensures y < n
    {
      assert y in a || y in b;
      assert y in q;
    }
  }

  /** A new packet joins at the end. */
  lemma Joined(q: seq<nat>, n: nat)
    requires Ascending(q) && forall y <- q :: y < n
    ensures Ascending(q + [n]) && forall y <- q + [n] :: y < n + 1
  {
    assert forall i | 0 <= i < |q| :: (q + [n])[i] == q[i] && q[i] in q;
  }

  lemma OfferKeepsLine(s: State, full: bool)
    requires InLine(s)
    ensures InLine(OnOffer(s, full))
  {
    hide Packets, Ascending;
    PacketsAppend(s.outbound, Packet(|s.offered|));
    var line := Line(s.finished, s.sending, s.toSend, s.outbound);
    var s' := OnOffer(s, full);
    Joined(line, |s.offered|);
    assert Line(s.finished, s.sending, s.toSend, s'.outbound) == if full then line else line + [|s.offered|];
  }

  /** What the packets beyond the link's queue are. */
  function Ahead(s: State): seq<nat> {
    s.finished + (if s.sending.Some? then [s.sending.value] else []) + Packets(s.toSend)
  }

  lemma ForwardKeepsLine(s: State, full: bool)
    requires InLine(s) && s.outbound != []
    ensures InLine(OnForward(s, full))
  {
    hide Packets, Ascending;
    var x := s.outbound[0];
    var rest := s.outbound[1..];
    var s' := OnForward(s, full);
    PacketsPop(s.outbound);
    PacketsAppend(s.toSend, x);
    if x.Packet? && full {
      assert Line(s.finished, s.sending, s.toSend, s.outbound) == Ahead(s) + [x.n] + Packets(rest);
      TakenOut(Ahead(s), x.n, Packets(rest), |s.offered|);
      assert Line(s'.finished, s'.sending, s'.toSend, s'.outbound) == Ahead(s) + Packets(rest);
    } else {
      MovedUp(Ahead(s), if x.Packet? then [x.n] else [], Packets(rest));
      assert Line(s'.finished, s'.sending, s'.toSend, s'.outbound) == Line(s.finished, s.sending, s.toSend, s.outbound);
    }
  }

  lemma MovedUp(a: seq<nat>, x: seq<nat>, b: seq<nat>)
    ensures a + (x + b) == (a + x) + b
  {}

  lemma PacketsPop(q: seq<Item>)
    requires q != []
    ensures Packets(q) == (if q[0].Packet? then [q[0].n] else []) + Packets(q[1..])
  {}

  lemma TakeKeepsLine(s: State)
    requires InLine(s) && s.sending == None && s.toSend != []
    ensures InLine(OnTake(s))
  {
    hide Packets, Ascending;
    var s' := OnTake(s);
    PacketsPop(s.toSend);
    assert Line(s'.finished, s'.sending, s'.toSend, s'.outbound) == Line(s.finished, s.sending, s.toSend, s.outbound);
  }

  lemma EnterKeepsLine(s: State, n: nat)
    requires InLine(s)
    ensures InLine(s.(entering := s.entering - {n}, outbound := s.outbound + [Barrier(n)]))
    ensures InLine(s.(blocked := s.blocked - {n}, toSend := s.toSend + [Barrier(n)]))
  {
    PacketsAppend(s.outbound, Barrier(n));
    PacketsAppend(s.toSend, Barrier(n));
    assert Packets(s.outbound) + [] == Packets(s.outbound) && Packets(s.toSend) + [] == Packets(s.toSend);
  }

  lemma StepKeepsLine(s: State, a: Step)
    requires InLine(s) && Enabled(s, a)
    ensures InLine(Apply(s, a))
  {
    hide OnOffer, OnForward, OnTake, Packets, Ascending;
    match a {
      case Offer(full) => OfferKeepsLine(s, full);
      case EnterOutbound(n) => EnterKeepsLine(s, n);
      case Forward(full) => ForwardKeepsLine(s, full);
      case EnterToSend(n) => EnterKeepsLine(s, n);
      case Take => TakeKeepsLine(s);
      case SendOk =>
        var s' := Apply(s, a);
        assert Line(s'.finished, s'.sending, s'.toSend, s'.outbound) == Line(s.finished, s.sending, s.toSend, s.outbound);
      case _ =>
    }
  }

  /** What is on its way was offered, one place for each. */
  ghost predicate Fits(s: State) {
    |s.outbound| + |s.entering| + |s.toSend| + |s.blocked| <= |s.offered|
  }

  lemma Sizes(waiting: set<nat>, n: nat)
    ensures |waiting + {n}| <= |waiting| + 1
    ensures n in waiting ==> |waiting - {n}| == |waiting| - 1
  {}

  lemma QueuesKeepFits(s: State, a: Step)
    requires Fits(s) && Enabled(s, a) && (a.Offer? || a.Forward? || a.Take?)
    ensures Fits(Apply(s, a))
  {
    if a.Forward? {
      Sizes(s.blocked, s.outbound[0].n);
    }
  }

  lemma BarriersKeepFits(s: State, a: Step)
    requires Fits(s) && Enabled(s, a) && (a.OfferBarrier? || a.EnterOutbound? || a.EnterToSend?)
    ensures Fits(Apply(s, a))
  {
    if a.EnterOutbound? {
      Sizes(s.entering, a.n);
    } else if a.EnterToSend? {
      Sizes(s.blocked, a.n);
    } else {
      Sizes(s.entering, |s.offered|);
    }
  }

  lemma StepKeepsFits(s: State, a: Step)
    requires Fits(s) && Enabled(s, a)
    ensures Fits(Apply(s, a))
  {
    hide OnOffer, OnForward, OnTake;
    if a.Offer? || a.Forward? || a.Take? {
      QueuesKeepFits(s, a);
    } else if a.OfferBarrier? || a.EnterOutbound? || a.EnterToSend? {
      BarriersKeepFits(s, a);
    }
  }

  lemma {:induction false} RunKeepsLine(s: State, steps: seq<Step>)
    requires InLine(s) && Fits(s) && ValidRun(s, steps)
    ensures InLine(After(s, steps)) && Fits(After(s, steps))
    decreases |steps|
  {
    hide InLine, Fits, Apply, Enabled;
    if steps != [] {
      StepKeepsLine(s, steps[0]);
      StepKeepsFits(s, steps[0]);
      RunKeepsLine(Apply(s, steps[0]), steps[1..]);
    }
  }

  lemma StartInLine()
    ensures InLine(START) && Fits(START)
  {}

  /** In every run packets are sent in the order they were offered, each once, however many are shed
      in between and wherever barriers wait. */
  lemma PacketsLeaveInOrder(steps: seq<Step>)
    requires ValidRun(START, steps)
    ensures Ascending(After(START, steps).finished)
  {
    hide ValidRun, After, Packets;
    StartInLine();
    RunKeepsLine(START, steps);
    var s := After(START, steps);
    var line := Line(s.finished, s.sending, s.toSend, s.outbound);
    assert forall i | 0 <= i < |s.finished| :: s.finished[i] == line[i];
  }

  /** Every barrier is somewhere on its way, or reached. */
  ghost predicate BarriersKept(s: State) {
    forall m: nat | m < |s.offered| && s.offered[m].barrier ::
      m in s.entering || Barrier(m) in s.outbound || m in s.blocked || Barrier(m) in s.toSend || m in s.reached
  }

  lemma StepKeepsBarriers(s: State, a: Step)
    requires BarriersKept(s) && Enabled(s, a)
    ensures BarriersKept(Apply(s, a))
  {
    if a.Forward? {
      assert s.outbound == [s.outbound[0]] + s.outbound[1..];
    } else if a.Take? {
      assert s.toSend == [s.toSend[0]] + s.toSend[1..];
    }
  }

  lemma {:induction false} RunKeepsBarriers(s: State, steps: seq<Step>)
    requires BarriersKept(s) && ValidRun(s, steps)
    ensures BarriersKept(After(s, steps))
    decreases |steps|
  {
    hide BarriersKept, Apply, Enabled;
    if steps != [] {
      StepKeepsBarriers(s, steps[0]);
      RunKeepsBarriers(Apply(s, steps[0]), steps[1..]);
    }
  }

  /** Nothing waits for room, and both queues are empty. */
  predicate Quiet(s: State) {
    s.entering == {} && s.outbound == [] && s.blocked == {} && s.toSend == []
  }

  /** In every run no barrier is ever dropped, however full the queues: once none waits for room and
      the send task has emptied its queue and the link's, every barrier offered has been reached. And
      offering one does offer it. */
  lemma BarriersAreNeverDropped(steps: seq<Step>, m: nat)
    requires ValidRun(START, steps)
    ensures var s := After(START, steps);
            && (Quiet(s) && m < |s.offered| && s.offered[m].barrier ==> m in s.reached)
            && (!s.ended ==> var s' := Apply(s, OfferBarrier); |s'.offered| == |s.offered| + 1 && s'.offered[|s.offered|].barrier)
  {
    hide ValidRun, After;
    RunKeepsBarriers(START, steps);
  }

  /** In every state a packet is shed only for want of room: it is the one being offered, and the
      link's queue with the barriers waiting for it holds sixty-four, or the one being forwarded, and
      the send queue does. Anything offered with room is queued behind the rest. */
  lemma OnlyFullQueuesShed(s: State, a: Step, n: nat)
    requires Enabled(s, a)
    ensures n !in s.shed && n in Apply(s, a).shed ==>
              || (a.Offer? && n == |s.offered| && |s.outbound| + |s.entering| >= LINK_QUEUE_DEPTH)
              || (a.Forward? && s.outbound[0] == Packet(n) && |s.toSend| + |s.blocked| >= LINK_QUEUE_DEPTH)
    ensures a.Offer? && |s.outbound| + |s.entering| < LINK_QUEUE_DEPTH ==>
              Apply(s, a).outbound == s.outbound + [Packet(|s.offered|)] && Apply(s, a).shed == s.shed
    ensures a.Forward? && |s.toSend| + |s.blocked| < LINK_QUEUE_DEPTH ==>
              Apply(s, a).toSend == s.toSend + [s.outbound[0]] && Apply(s, a).shed == s.shed
  {}

  lemma {:induction false} ShedsNothing(s: State, steps: seq<Step>)
    requires Fits(s) && ValidRun(s, steps) && |After(s, steps).offered| <= LINK_QUEUE_DEPTH
    requires s.shed == map[] && s.dropped == None
    ensures After(s, steps).shed == map[] && After(s, steps).dropped == None
    decreases |steps|
  {
    hide Fits, Apply, Enabled;
    if steps != [] {
      StepKeepsFits(s, steps[0]);
      OfferedGrows(Apply(s, steps[0]), steps[1..]);
      StepShedsNothing(s, steps[0]);
      ShedsNothing(Apply(s, steps[0]), steps[1..]);
    }
  }

  lemma StepShedsNothing(s: State, a: Step)
    requires Fits(s) && Enabled(s, a) && |Apply(s, a).offered| <= LINK_QUEUE_DEPTH && s.shed == map[] && s.dropped == None
    ensures Apply(s, a).shed == map[] && Apply(s, a).dropped == None
  {}

  lemma {:induction false} OfferedGrows(s: State, steps: seq<Step>)
    requires ValidRun(s, steps)
    ensures |s.offered| <= |After(s, steps).offered|
    decreases |steps|
  {
    if steps != [] {
      OfferedGrows(Apply(s, steps[0]), steps[1..]);
    }
  }

  /** A run that offers no more than one queue holds sheds nothing: all it offered before a barrier
      that is reached was sent. */
  lemma ShortBurstsAreSent(steps: seq<Step>, m: nat, n: nat)
    requires ValidRun(START, steps) && |After(START, steps).offered| <= LINK_QUEUE_DEPTH
    ensures After(START, steps).shed == map[]
    ensures var s := After(START, steps);
            m in s.reached && n < m && n < |s.offered| && !s.offered[n].barrier ==> n in s.finished
  {
    hide ValidRun, After;
    ShedsNothing(START, steps);
    var s := After(START, steps);
    if m in s.reached && n < m && n < |s.offered| && !s.offered[n].barrier {
      BarrierGuarantee(steps, m, n);
    }
  }

  // ---- The link, in place ------------------------------------------------------------------

  class Link {
    var now: nat
    var offered: seq<Offered>
    var entering: set<nat>
    var outbound: seq<Item>
    var blocked: set<nat>
    var toSend: seq<Item>
    var sending: Option<nat>
    var finished: seq<nat>
    var reached: set<nat>
    var shed: map<nat, nat>
    var dropped: Option<nat>
    var ended: bool

    ghost function View(): State
      reads this
    {
      State(now, offered, entering, outbound, blocked, toSend, sending, finished, reached, shed, dropped, ended)
    }

    constructor ()
      ensures View() == START
    {
      now, offered, entering, outbound, blocked, toSend := 0, [], {}, [], {}, [];
      sending, finished, reached, shed, dropped, ended := None, [], {}, map[], None, false;
    }

    method Drop(n: nat)
      modifies this`shed, this`dropped
      ensures View() == Shed(old(View()), n)
    {
      shed := shed[n := now];
      dropped := Some(now);
    }

    /** `try_send` of one packet to the link's queue. */
    method Send(full: bool)
      requires Enabled(View(), Offer(full))
      modifies this
      ensures View() == Apply(old(View()), Offer(full))
    {
      var n := |offered|;
      offered := offered + [Offered(now, false)];
      if full {
        Drop(n);
      } else {
        outbound := outbound + [Packet(n)];
      }
    }

    /** The arm of `run_link` that forwards one item. */
    method ForwardOne(full: bool)
      requires Enabled(View(), Forward(full))
      modifies this
      ensures View() == Apply(old(View()), Forward(full))
    {
      var item := outbound[0];
      outbound := outbound[1..];
      if !full {
        toSend := toSend + [item];
      } else if item.Barrier? {
        blocked := blocked + {item.n};
      } else {
        Drop(item.n);
      }
    }

    /** One turn of the send task. */
    method TakeNext()
      requires Enabled(View(), Take)
      modifies this
      ensures View() == Apply(old(View()), Take)
    {
      var item := toSend[0];
      toSend := toSend[1..];
      match item {
        case Barrier(m) => reached := reached + {m};
        case Packet(n) => sending := Some(n);
      }
    }

    /** Whether a drop since `since` makes a reached barrier inconclusive. */
    method LostSince(since: nat) returns (lost: bool)
      requires Inv(View())
      ensures lost <==> exists n :: n in shed && shed[n] >= since
    {
      lost := dropped.Some? && dropped.value >= since;
    }
  }
}
