/**
  A datagram channel end to end: any number of `DatagramSender` handles sharing one id counter
  and one sink (`DatagramSender::send`), a lossless FIFO link, and the reassembly task at the
  other end (`spawn_reassembly`).
 */
module Delivery {
  import opened Basics
  import opened Fragment
  import opened Reassembly
  import opened Messages

  // ---- Sending ------------------------------------------------------------------

  /** A channel's fixed parameters; the budget is positive for every channel that exists. */
  datatype Channel = Channel(budget: nat, configured: nat)

  function MaxLen(c: Channel): nat {
    EffectiveMaxMessageLen(c.configured, c.budget)
  }

  datatype Phase = Waiting | Writing | Returned(ok: bool)

  /** One call of `send` that was given an id: the `serial`-th of its channel. */
  datatype Call = Call(serial: nat, msg: Sent, sent: nat, phase: Phase)

  /** The id counter is 32 bits wide and wraps. */
  function IdOf(c: Call): u32 {
    c.serial % 0x1_0000_0000
  }

  /**
    All handles of one channel. `holder` is the call that holds the sink's mutex, `lockOrder`
    the order in which calls got it, `wire` what the link has accepted so far.
   */
  datatype Senders = Senders(issued: nat, calls: seq<Call>, holder: Option<nat>, lockOrder: seq<nat>, wire: seq<Bytes>)

  const FRESH := Senders(0, [], None, [], [])

  /** The stretches of `send` between two awaits, and the ways a call can end early. */
  datatype SendStep =
    | Begin(payload: Bytes)
    | Lock(k: nat)
    | WriteAccepted(k: nat)
    | Abandon(k: nat, reachedLink: bool)
    | AbandonWaiting(k: nat)

  predicate Enabled(s: Senders, a: SendStep) {
    match a
    case Begin(_) => true
    case Lock(k) => s.holder == None && k < |s.calls| && s.calls[k].phase == Waiting
    case WriteAccepted(k) => s.holder == Some(k) && k < |s.calls| && s.calls[k].sent < |Pieces(s.calls[k].msg)|
    case Abandon(k, _) => s.holder == Some(k) && k < |s.calls| && s.calls[k].sent < |Pieces(s.calls[k].msg)|
    case AbandonWaiting(k) => k < |s.calls| && s.calls[k].phase == Waiting
  }

  function NextFragment(c: Call): Bytes
    requires c.sent < |Pieces(c.msg)|
  {
    WireFragment(IdOf(c), Pieces(c.msg), c.sent)
  }

  function Apply(ch: Channel, s: Senders, a: SendStep): Senders
    requires Enabled(s, a)
  {
    match a
    case Begin(payload) =>
      if |payload| > MaxLen(ch) then s
      else if !SplitSpec(s.issued % 0x1_0000_0000, payload, ch.budget).Fragments? then s.(issued := s.issued + 1)
      else s.(issued := s.issued + 1,
              calls := s.calls + [Call(s.issued, Message(payload, ch.budget), 0, Waiting)])
    case Lock(k) =>
      s.(holder := Some(k), lockOrder := s.lockOrder + [k], calls := s.calls[k := s.calls[k].(phase := Writing)])
    case WriteAccepted(k) =>
      var c := s.calls[k];
      var last := c.sent + 1 == |Pieces(c.msg)|;
      s.(wire := s.wire + [NextFragment(c)],
         calls := s.calls[k := c.(sent := c.sent + 1, phase := if last then Returned(true) else Writing)],
         holder := if last then None else Some(k))
    case Abandon(k, reachedLink) =>
      var c := s.calls[k];
      s.(wire := if reachedLink then s.wire + [NextFragment(c)] else s.wire,
         calls := s.calls[k := c.(sent := if reachedLink then c.sent + 1 else c.sent, phase := Returned(false))],
         holder := None)
    case AbandonWaiting(k) =>
      s.(calls := s.calls[k := s.calls[k].(phase := Returned(false))])
  }

  /** What `send` accepts: the payload is within the configured limit and needs at most 65535
      fragments (and `usize` holds its length). */
  predicate Sendable(ch: Channel, payload: Bytes) {
    && |payload| <= ch.configured && |payload| <= USIZE_MAX
    && ch.budget > 0 && FragmentCount(|payload|, ch.budget) <= MAX_FRAGMENTS
  }

  /** On every channel, a payload that can be sent becomes a waiting call of its own with the next
      id; any other is refused and uses up no id. */
  lemma SendIsAcceptedExactly(ch: Channel, s: Senders, payload: Bytes)
    requires ch.budget > 0
    ensures var s' := Apply(ch, s, Begin(payload));
            if Sendable(ch, payload) then
              && s'.issued == s.issued + 1 && |s'.calls| == |s.calls| + 1 && s'.calls[..|s.calls|] == s.calls
              && s' == s.(issued := s'.issued, calls := s'.calls)
              && var c := s'.calls[|s.calls|];
                 c.serial == s.issued && c.msg.payload == payload && c.msg.budget == ch.budget && c.sent == 0 && c.phase == Waiting
            else s' == s
  {
    LimitIsExact(|payload|, ch.configured, ch.budget);
    if Sendable(ch, payload) {
      SendCheckSuffices(s.issued % 0x1_0000_0000, payload, ch.configured, ch.budget);
    }
  }

  ghost predicate ValidRun(ch: Channel, s: Senders, steps: seq<SendStep>)
    decreases |steps|
  {
    steps == [] || (Enabled(s, steps[0]) && ValidRun(ch, Apply(ch, s, steps[0]), steps[1..]))
  }

  ghost function After(ch: Channel, s: Senders, steps: seq<SendStep>): Senders
    requires ValidRun(ch, s, steps)
    decreases |steps|
  {
    if steps == [] then s else After(ch, Apply(ch, s, steps[0]), steps[1..])
  }

  /** The same, in place: the state shared by the handles, one method per stretch of `send`. */
  class SharedSink {
    const channel: Channel
    var nextMsgId: nat
    var calls: seq<Call>
    var holder: Option<nat>
    var lockOrder: seq<nat>
    var wire: seq<Bytes>

    ghost function View(): Senders
      reads this
    {
      Senders(nextMsgId, calls, holder, lockOrder, wire)
    }

    constructor (channel: Channel)
      ensures this.channel == channel && View() == FRESH
    {
      this.channel := channel;
      nextMsgId, calls, holder, lockOrder, wire := 0, [], None, [], [];
    }

    /** Size check, id allocation and split; the caller then waits for the sink. */
    method BeginSend(payload: Bytes) returns (call: Option<nat>)
      modifies this
      ensures View() == Apply(channel, old(View()), Begin(payload))
      ensures call == if |calls| > old(|calls|) then Some(old(|calls|)) else None
      ensures channel.budget > 0 ==> (call.Some? <==> Sendable(channel, payload))
    {
      if channel.budget > 0 {
        SendIsAcceptedExactly(channel, View(), payload);
      }
      if |payload| > MaxLen(channel) {
        return None;
      }
      var msgId: u32 := nextMsgId % 0x1_0000_0000;
      nextMsgId := nextMsgId + 1;
      var fragments := Split(msgId, payload, channel.budget);
      if !fragments.Fragments? {
        return None;
      }
      calls := calls + [Call(nextMsgId - 1, Message(payload, channel.budget), 0, Waiting)];
      return Some(|calls| - 1);
    }

    method LockSink(k: nat)
      requires Enabled(View(), Lock(k))
      modifies this
      ensures View() == Apply(channel, old(View()), Lock(k))
    {
      holder := Some(k);
      lockOrder := lockOrder + [k];
      calls := calls[k := calls[k].(phase := Writing)];
    }

    /** The write of one fragment resolved `Ok`; after the last one the call returns and the
        mutex is released in the same stretch. */
    method FragmentWritten(k: nat)
      requires Enabled(View(), WriteAccepted(k))
      modifies this
      ensures View() == Apply(channel, old(View()), WriteAccepted(k))
    {
      wire := wire + [NextFragment(calls[k])];
      calls := calls[k := calls[k].(sent := calls[k].sent + 1)];
      if calls[k].sent == |Pieces(calls[k].msg)| {
        calls := calls[k := calls[k].(phase := Returned(true))];
        holder := None;
      } else {
        calls := calls[k := calls[k].(phase := Writing)];
      }
    }

    /** The write failed, the sink was closed, or the caller dropped the future. */
    method FragmentAbandoned(k: nat, reachedLink: bool)
      requires Enabled(View(), Abandon(k, reachedLink))
      modifies this
      ensures View() == Apply(channel, old(View()), Abandon(k, reachedLink))
    {
      if reachedLink {
        wire := wire + [NextFragment(calls[k])];
        calls := calls[k := calls[k].(sent := calls[k].sent + 1)];
      }
      calls := calls[k := calls[k].(phase := Returned(false))];
      holder := None;
    }
  }

  // ---- What is on the wire --------------------------------------------------------

  /** The first `sent` fragments of one message, contiguous on the wire. */
  datatype Block = Block(id: u32, msg: Sent, sent: nat)

  predicate BlockOk(b: Block) {
    b.sent <= |Pieces(b.msg)|
  }

  function BlockWire(b: Block): seq<Bytes>
    requires BlockOk(b)
  {
    WireFragments(b.id, Pieces(b.msg))[..b.sent]
  }

  ghost function Wire(log: seq<Block>): seq<Bytes>
    requires forall i | 0 <= i < |log| :: BlockOk(log[i])
  {
    if log == [] then [] else BlockWire(log[0]) + Wire(log[1..])
  }

  lemma {:induction false} WireSplit(log: seq<Block>, b: Block)
    requires BlockOk(b) && forall i | 0 <= i < |log| :: BlockOk(log[i])
    ensures Wire(log + [b]) == Wire(log) + BlockWire(b)
  {
    if log == [] {
      assert Wire([b]) == BlockWire(b) + Wire([]);
    } else {
      assert (log + [b])[1..] == log[1..] + [b];
      WireSplit(log[1..], b);
    }
  }

  function BlockOf(c: Call): Block {
    Block(IdOf(c), c.msg, c.sent)
  }

  ghost predicate LockOrderInRange(s: Senders) {
    forall i | 0 <= i < |s.lockOrder| :: s.lockOrder[i] < |s.calls|
  }

  ghost function Log(s: Senders): seq<Block>
    requires LockOrderInRange(s)
  {
    seq(|s.lockOrder|, i requires 0 <= i < |s.lockOrder| => BlockOf(s.calls[s.lockOrder[i]]))
  }

  ghost predicate CallOk(ch: Channel, s: Senders, k: nat)
    requires k < |s.calls|
  {
    var c := s.calls[k];
    && c.serial < s.issued
    && c.sent <= |Pieces(c.msg)|
    && |c.msg.payload| <= MaxLen(ch)
    && (c.phase == Writing <==> s.holder == Some(k))
    && (c.phase == Writing ==> c.sent < |Pieces(c.msg)|)
    && (c.phase == Returned(true) ==> c.sent == |Pieces(c.msg)|)
    && (c.phase == Waiting ==> k !in s.lockOrder)
    && (k !in s.lockOrder ==> c.sent == 0 && (c.phase == Waiting || c.phase == Returned(false)))
  }

  ghost predicate Inv(ch: Channel, s: Senders) {
    && LockOrderInRange(s)
    && (forall k | 0 <= k < |s.calls| :: CallOk(ch, s, k))
    && (forall j, k | 0 <= j < k < |s.calls| :: s.calls[j].serial < s.calls[k].serial)
    && (forall i, j | 0 <= i < j < |s.lockOrder| :: s.lockOrder[i] != s.lockOrder[j])
    && (s.holder.Some? ==> |s.lockOrder| > 0 && s.lockOrder[|s.lockOrder| - 1] == s.holder.value)
    && (forall i | 0 <= i < |s.lockOrder| :: BlockOk(BlockOf(s.calls[s.lockOrder[i]])))
    && s.wire == Wire(Log(s))
  }

  /** The holder's next fragment extends the last block. */
  lemma WireGrows(ch: Channel, s: Senders, s': Senders, k: nat)
    requires Inv(ch, s) && s.holder == Some(k) && k < |s.calls|
    requires s'.lockOrder == s.lockOrder && |s'.calls| == |s.calls|
    requires forall j | 0 <= j < |s.calls| && j != k :: s'.calls[j] == s.calls[j]
    requires IdOf(s'.calls[k]) == IdOf(s.calls[k]) && s'.calls[k].msg == s.calls[k].msg
    requires s'.calls[k].sent == s.calls[k].sent + 1 <= |Pieces(s.calls[k].msg)|
    ensures LockOrderInRange(s')
    ensures forall i | 0 <= i < |s'.lockOrder| :: BlockOk(BlockOf(s'.calls[s'.lockOrder[i]]))
    ensures Wire(Log(s')) == s.wire + [NextFragment(s.calls[k])]
  {
    var n := |s.lockOrder| - 1;
    var front := Log(s)[..n];
    var b, b' := BlockOf(s.calls[k]), BlockOf(s'.calls[k]);
    assert Log(s) == front + [b];
    assert Log(s') == front + [b'];
    WireSplit(front, b);
    WireSplit(front, b');
    assert BlockWire(b') == BlockWire(b) + [NextFragment(s.calls[k])];
  }

  lemma CallsStayOk(ch: Channel, s: Senders, s': Senders, k: nat)
    requires Inv(ch, s) && |s'.calls| == |s.calls| && k < |s.calls|
    requires forall j | 0 <= j < |s.calls| && j != k :: s'.calls[j] == s.calls[j]
    requires s'.issued == s.issued && s'.calls[k].serial == s.calls[k].serial
    requires s.holder.Some? ==> s.holder == Some(k)
    requires s'.holder == None || s'.holder == Some(k)
    requires s'.lockOrder == s.lockOrder || s'.lockOrder == s.lockOrder + [k]
    requires CallOk(ch, s', k)
    ensures forall j | 0 <= j < |s'.calls| :: CallOk(ch, s', j)
  {
    forall j | 0 <= j < |s'.calls|
      ensures CallOk(ch, s', j)
    {
      assert CallOk(ch, s, j);
    }
  }

  lemma LockKeepsInv(ch: Channel, s: Senders, k: nat)
    requires Inv(ch, s) && Enabled(s, Lock(k))
    ensures Inv(ch, Apply(ch, s, Lock(k)))
  {
    hide Pieces, MaxLen, Wire;
    var s' := Apply(ch, s, Lock(k));
    assert CallOk(ch, s, k);
    var b := BlockOf(s.calls[k]);
    assert BlockOf(s'.calls[k]) == b;
    assert forall i | 0 <= i < |s.lockOrder| :: s.lockOrder[i] in s.lockOrder;
    CallsStayOk(ch, s, s', k);
    assert Log(s') == Log(s) + [b];
    assert s'.wire == Wire(Log(s')) by {
      WireSplit(Log(s), b);
      assert BlockWire(b) == [];
    }
  }

  lemma WriteKeepsInv(ch: Channel, s: Senders, k: nat)
    requires Inv(ch, s) && Enabled(s, WriteAccepted(k))
    ensures Inv(ch, Apply(ch, s, WriteAccepted(k)))
  {
    var s' := Apply(ch, s, WriteAccepted(k));
    assert CallOk(ch, s, k);
    WireGrows(ch, s, s', k);
    CallsStayOk(ch, s, s', k);
  }

  lemma AbandonKeepsInv(ch: Channel, s: Senders, k: nat, reachedLink: bool)
    requires Inv(ch, s) && Enabled(s, Abandon(k, reachedLink))
    ensures Inv(ch, Apply(ch, s, Abandon(k, reachedLink)))
  {
    var s' := Apply(ch, s, Abandon(k, reachedLink));
    assert CallOk(ch, s, k);
    if reachedLink {
      WireGrows(ch, s, s', k);
    } else {
      assert Log(s') == Log(s);
    }
    CallsStayOk(ch, s, s', k);
  }

  lemma BeginKeepsInv(ch: Channel, s: Senders, payload: Bytes)
    requires Inv(ch, s)
    ensures Inv(ch, Apply(ch, s, Begin(payload)))
  {
    IssuedKeepsInv(ch, s);
    var id := s.issued % 0x1_0000_0000;
    if |payload| <= MaxLen(ch) && SplitSpec(id, payload, ch.budget).Fragments? {
      AppendKeepsInv(ch, s, Call(s.issued, Message(payload, ch.budget), 0, Waiting));
    }
  }

  lemma IssuedKeepsInv(ch: Channel, s: Senders)
    requires Inv(ch, s)
    ensures Inv(ch, s.(issued := s.issued + 1))
  {
    hide Pieces, MaxLen, Wire;
    var s' := s.(issued := s.issued + 1);
    forall j | 0 <= j < |s.calls|
      ensures CallOk(ch, s', j)
    {
      assert CallOk(ch, s, j);
    }
    assert Log(s') == Log(s);
  }

  lemma AppendKeepsInv(ch: Channel, s: Senders, c: Call)
    requires Inv(ch, s)
    requires c.serial == s.issued && c.sent == 0 && c.phase == Waiting && |c.msg.payload| <= MaxLen(ch)
    ensures Inv(ch, s.(issued := s.issued + 1, calls := s.calls + [c]))
  {
    hide Pieces, MaxLen, Wire;
    var s' := s.(issued := s.issued + 1, calls := s.calls + [c]);
    forall j | 0 <= j < |s.calls|
      ensures CallOk(ch, s', j) && s'.calls[j].serial < s.issued
    {
      assert CallOk(ch, s, j);
    }
    assert |s.calls| !in s.lockOrder;
    assert CallOk(ch, s', |s.calls|);
    assert Log(s') == Log(s);
  }

  lemma AbandonWaitingKeepsInv(ch: Channel, s: Senders, k: nat)
    requires Inv(ch, s) && Enabled(s, AbandonWaiting(k))
    ensures Inv(ch, Apply(ch, s, AbandonWaiting(k)))
  {
    hide Pieces;
    var s' := Apply(ch, s, AbandonWaiting(k));
    forall j | 0 <= j < |s.calls|
      ensures CallOk(ch, s', j) && (j in s.lockOrder ==> j != k)
    {
      assert CallOk(ch, s, j);
    }
    assert Log(s') == Log(s);
  }

  lemma StepKeepsInv(ch: Channel, s: Senders, a: SendStep)
    requires Inv(ch, s) && Enabled(s, a)
    ensures Inv(ch, Apply(ch, s, a))
  {
    hide Inv, Apply;
    match a {
      case Begin(payload) => BeginKeepsInv(ch, s, payload);
      case Lock(k) => LockKeepsInv(ch, s, k);
      case WriteAccepted(k) => WriteKeepsInv(ch, s, k);
      case Abandon(k, reachedLink) => AbandonKeepsInv(ch, s, k, reachedLink);
      case AbandonWaiting(k) => AbandonWaitingKeepsInv(ch, s, k);
    }
  }

  lemma {:induction false} RunKeepsInv(ch: Channel, s: Senders, steps: seq<SendStep>)
    requires Inv(ch, s) && ValidRun(ch, s, steps)
    ensures Inv(ch, After(ch, s, steps))
    decreases |steps|
  {
    if steps != [] {
      StepKeepsInv(ch, s, steps[0]);
      RunKeepsInv(ch, Apply(ch, s, steps[0]), steps[1..]);
    }
  }

  // ---- Receiving ------------------------------------------------------------------

  /** What the reassembly task sees: the next write of the FIFO link, or its idle timer. */
  datatype Arrival = Rx(raw: Bytes, now: nat) | Timer(now: nat)

  /** One turn of the task's loop: a write too short for a header is ignored, a completed
      message is handed to the receiver. */
  ghost function TaskStep(l: Limits, t: Table, e: Arrival): (Table, seq<Bytes>) {
    match e
    case Timer(now) => (Expired(t, l.timeout, now), [])
    case Rx(raw, now) =>
      match Parse(raw)
      case None => (t, [])
      case Some((h, payload)) =>
        var (t', r) := AcceptSpec(l, t, h, payload, now);
        (t', if r.Complete? then [r.message] else [])
  }

  ghost function Received(l: Limits, t: Table, events: seq<Arrival>): seq<Bytes>
    decreases |events|
  {
    if events == [] then []
    else
      var (t', out) := TaskStep(l, t, events[0]);
      out + Received(l, t', events[1..])
  }

  /** The task over its reassembler, in place. */
  class ReassemblyTask {
    const limits: Limits
    var reassembler: Reassembler
    var delivered: seq<Bytes>

    constructor (limits: Limits)
      ensures this.limits == limits == reassembler.limits && reassembler.partials == map[] && delivered == []
      ensures fresh(reassembler)
    {
      this.limits := limits;
      reassembler := new Reassembler(limits);
      delivered := [];
    }

    method OnEvent(e: Arrival)
      requires reassembler.limits == limits
      modifies this, reassembler
      ensures reassembler == old(reassembler)
      ensures reassembler.partials == TaskStep(limits, old(reassembler.partials), e).0
      ensures delivered == old(delivered) + TaskStep(limits, old(reassembler.partials), e).1
    {
      match e {
        case Timer(now) =>
          reassembler.Expire(now);
        case Rx(raw, now) =>
          match Parse(raw) {
            case None =>
            case Some((h, payload)) =>
              var r := reassembler.Accept(h, payload, now);
              if r.Complete? {
                delivered := delivered + [r.message];
              }
          }
      }
    }

    /** A gap reported by the driver: every partial message is discarded. */
    method OnGap()
      modifies this
      ensures fresh(reassembler) && reassembler.limits == limits && reassembler.partials == map[]
      ensures delivered == old(delivered)
    {
      reassembler := new Reassembler(limits);
    }
  }

  /** The writes of a schedule, in order. */
  ghost function RawOf(events: seq<Arrival>): seq<Bytes>
    decreases |events|
  {
    if events == [] then []
    else (if events[0].Rx? then [events[0].raw] else []) + RawOf(events[1..])
  }

  ghost predicate SameMessage(a: Bytes, b: Bytes) {
    Parse(a).Some? && Parse(b).Some? && Parse(a).value.0.msgId == Parse(b).value.0.msgId
  }

  /** The clock is monotone and all fragments of one message arrive within the timeout. */
  ghost predicate Timely(events: seq<Arrival>, timeout: nat) {
    && (forall i, j | 0 <= i < j < |events| :: events[i].now <= events[j].now)
    && (forall i, j | 0 <= i <= j < |events| && events[i].Rx? && events[j].Rx? && SameMessage(events[i].raw, events[j].raw) ::
          events[j].now - events[i].now < timeout)
  }

  /** The payloads of the blocks that are on the wire in full, in order. */
  ghost function WholeOnes(log: seq<Block>): seq<Bytes> {
    if log == [] then []
    else (if log[0].sent == |Pieces(log[0].msg)| then [log[0].msg.payload] else []) + WholeOnes(log[1..])
  }

  ghost predicate LogOk(l: Limits, log: seq<Block>) {
    && (forall i | 0 <= i < |log| :: BlockOk(log[i]) && |log[i].msg.payload| <= l.maxMessageLen)
    && (forall i, j | 0 <= i < j < |log| :: log[i].id != log[j].id)
  }

  /** The receiver has taken `r` fragments of the first block and none of the later ones. */
  ghost predicate Midway(l: Limits, t: Table, log: seq<Block>, r: nat, since: nat) {
    && (forall i | (if r == 0 then 0 else 1) <= i < |log| :: log[i].id !in t)
    && (r > 0 ==> |log| > 0 && r <= log[0].sent)
    && (0 < r < log[0].sent ==>
          && log[0].id in t && Progressing(t[log[0].id], log[0].msg)
          && t[log[0].id].fragments.Keys == Below(r) && t[log[0].id].startedAt == since)
  }

  /** What is still on its way, and what it will yield. */
  ghost function Rest(log: seq<Block>, r: nat): seq<Bytes>
    requires forall i | 0 <= i < |log| :: BlockOk(log[i])
    requires r > 0 ==> |log| > 0 && r <= log[0].sent
  {
    if log == [] then [] else BlockWire(log[0])[r..] + Wire(log[1..])
  }

  ghost function RestWhole(log: seq<Block>, r: nat): seq<Bytes> {
    if log == [] then []
    else (if r < log[0].sent == |Pieces(log[0].msg)| then [log[0].msg.payload] else []) + WholeOnes(log[1..])
  }

  lemma RestFromStart(log: seq<Block>)
    requires forall i | 0 <= i < |log| :: BlockOk(log[i])
    ensures Rest(log, 0) == Wire(log) && RestWhole(log, 0) == WholeOnes(log)
  {}

  /** Every fragment of message `id` still to come arrives within the timeout after `since`. */
  ghost predicate Due(events: seq<Arrival>, id: u32, since: nat, timeout: nat) {
    forall i | 0 <= i < |events| ::
      events[i].Rx? && Parse(events[i].raw).Some? && Parse(events[i].raw).value.0.msgId == id ==>
        since <= events[i].now < since + timeout
  }

  /** The next write of the schedule is one of its events. */
  lemma {:induction false} NextWrite(events: seq<Arrival>) returns (j: nat)
    requires RawOf(events) != []
    ensures j < |events| && events[j].Rx? && events[j].raw == RawOf(events)[0]
    decreases |events|
  {
    if events[0].Rx? {
      j := 0;
    } else {
      j := NextWrite(events[1..]);
      j := j + 1;
    }
  }

  lemma FragmentParses(b: Block, r: nat)
    requires r < b.sent && BlockOk(b)
    ensures Parse(BlockWire(b)[r]) == Some((HeaderOf(b.id, b.msg, r), Pieces(b.msg)[r]))
  {}

  /** While a fragment of the first block is still to come, so is the end of its timeout. */
  lemma NextIsDue(events: seq<Arrival>, log: seq<Block>, r: nat, since: nat, timeout: nat)
    requires Timely(events, timeout) && events != []
    requires forall i | 0 <= i < |log| :: BlockOk(log[i])
    requires log != [] && r < log[0].sent && Due(events, log[0].id, since, timeout)
    requires RawOf(events) == Rest(log, r)
    ensures timeout > 0 && events[0].now < since + timeout
  {
    hide Pieces, Wire, RawOf, Parse;
    assert RawOf(events)[0] == BlockWire(log[0])[r];
    FragmentParses(log[0], r);
    var j := NextWrite(events);
    assert events[0].now <= events[j].now < since + timeout;
  }

  /** An idle tick never drops the message in progress: its next fragment is still to come,
      within the timeout. */
  lemma TimerKeepsMidway(l: Limits, t: Table, events: seq<Arrival>, log: seq<Block>, r: nat, since: nat)
    requires LogOk(l, log) && Midway(l, t, log, r, since) && Timely(events, l.timeout)
    requires r > 0 ==> Due(events, log[0].id, since, l.timeout)
    requires RawOf(events) == Rest(log, r)
    requires events != [] && events[0].Timer?
    ensures Midway(l, Expired(t, l.timeout, events[0].now), log, r, since)
  {
    hide Pieces, Wire, RawOf, Timely, Due, Progressing, Rest;
    if 0 < r < log[0].sent {
      NextIsDue(events, log, r, since, l.timeout);
    }
  }

  lemma BelowSucc(r: nat, n: nat)
    requires r < n
    ensures Below(r) + {r} == Below(r + 1)
    ensures Below(r + 1) == Below(n) <==> r + 1 == n
  {}

  /** The write of the next fragment of the message in progress. */
  lemma WriteKeepsMidway(l: Limits, t: Table, log: seq<Block>, r: nat, since: nat, now: nat)
    requires LogOk(l, log) && Midway(l, t, log, r, since)
    requires log != [] && r < log[0].sent
    requires r > 0 ==> since <= now < since + l.timeout
    ensures var (t', out) := TaskStep(l, t, Rx(BlockWire(log[0])[r], now));
            && Midway(l, t', log, r + 1, if r == 0 then now else since)
            && out == if r + 1 == |Pieces(log[0].msg)| then [log[0].msg.payload] else []
  {
    hide AcceptSpec, Progressing, Pieces, Below;
    var b := log[0];
    FragmentParses(b, r);
    FragmentProgress(l, t, b.id, b.msg, r, now);
    OthersUntouched(l, t, b.id, b.msg, r, now);
    BelowSucc(r, |Pieces(b.msg)|);
  }

  lemma RawOfRx(events: seq<Arrival>, log: seq<Block>, r: nat)
    requires forall i | 0 <= i < |log| :: BlockOk(log[i])
    requires events != [] && events[0].Rx?
    requires log != [] && r < log[0].sent
    requires RawOf(events) == Rest(log, r)
    ensures events[0].raw == BlockWire(log[0])[r]
    ensures RawOf(events[1..]) == Rest(log, r + 1)
  {
    assert Rest(log, r) == [BlockWire(log[0])[r]] + Rest(log, r + 1);
    assert RawOf(events) == [events[0].raw] + RawOf(events[1..]);
    assert RawOf(events)[0] == events[0].raw;
    assert RawOf(events)[1..] == RawOf(events[1..]);
    assert Rest(log, r)[1..] == Rest(log, r + 1);
  }

  lemma LaterIsTimely(events: seq<Arrival>, timeout: nat)
    requires events != [] && Timely(events, timeout)
    ensures Timely(events[1..], timeout)
    ensures events[0].Rx? && Parse(events[0].raw).Some? ==>
              Due(events, Parse(events[0].raw).value.0.msgId, events[0].now, timeout)
    ensures forall id, since :: Due(events, id, since, timeout) ==> Due(events[1..], id, since, timeout)
  {}

  lemma NextBlock(l: Limits, t: Table, log: seq<Block>, r: nat, since: nat)
    requires LogOk(l, log) && Midway(l, t, log, r, since)
    requires log != [] && r == log[0].sent
    ensures LogOk(l, log[1..]) && Midway(l, t, log[1..], 0, 0)
    ensures Rest(log, r) == Rest(log[1..], 0)
    ensures RestWhole(log, r) == RestWhole(log[1..], 0)
  {}

  lemma NothingLeft(log: seq<Block>, r: nat)
    requires forall i | 0 <= i < |log| :: BlockOk(log[i])
    requires r > 0 ==> |log| > 0 && r <= log[0].sent
    requires Rest(log, r) == []
    ensures log == [] || r == log[0].sent
  {}

  lemma Timers(l: Limits, t: Table, events: seq<Arrival>)
    requires RawOf(events) == []
    ensures Received(l, t, events) == []
    decreases |events|
  {}

  /** A lossless FIFO link that carries the blocks of `log` yields exactly the payloads of the
      whole blocks, in order, whatever the timer does and however many unfinished messages
      the table is left with. */
  lemma {:induction false} BlocksAreReceived(l: Limits, t: Table, events: seq<Arrival>, log: seq<Block>, r: nat, since: nat)
    requires LogOk(l, log) && Midway(l, t, log, r, since) && Timely(events, l.timeout)
    requires r > 0 ==> Due(events, log[0].id, since, l.timeout)
    requires RawOf(events) == Rest(log, r)
    ensures Received(l, t, events) == RestWhole(log, r)
    decreases |events| + |log|
  {
    hide AcceptSpec, Progressing, Timely, Due, Parse, Pieces, Rest;
    if log == [] {
      RestFromStart(log);
      Timers(l, t, events);
    } else if r == log[0].sent {
      NextBlock(l, t, log, r, since);
      BlocksAreReceived(l, t, events, log[1..], 0, 0);
    } else {
      if events == [] {
        NothingLeft(log, r);
        assert false;
      }
      LaterIsTimely(events, l.timeout);
      var t' := TaskStep(l, t, events[0]).0;
      if events[0].Timer? {
        TimerKeepsMidway(l, t, events, log, r, since);
        BlocksAreReceived(l, t', events[1..], log, r, since);
      } else {
        RxAdvances(l, t, events, log, r, since);
        BlocksAreReceived(l, t', events[1..], log, r + 1, if r == 0 then events[0].now else since);
      }
    }
  }

  /** The write that carries the next fragment of the first block is in time, and so are those after it. */
  lemma RxIsDue(l: Limits, events: seq<Arrival>, log: seq<Block>, r: nat, since: nat)
    requires Timely(events, l.timeout)
    requires r > 0 ==> log != [] && Due(events, log[0].id, since, l.timeout)
    requires events != [] && events[0].Rx? && log != [] && BlockOk(log[0]) && r < log[0].sent
    requires events[0].raw == BlockWire(log[0])[r]
    ensures r > 0 ==> since <= events[0].now < since + l.timeout
    ensures Due(events[1..], log[0].id, if r == 0 then events[0].now else since, l.timeout)
  {
    hide Pieces, BlockWire;
    FragmentParses(log[0], r);
    LaterIsTimely(events, l.timeout);
  }

  lemma RestWholeStep(log: seq<Block>, r: nat)
    requires log != [] && BlockOk(log[0]) && r < log[0].sent
    ensures RestWhole(log, r)
         == (if r + 1 == |Pieces(log[0].msg)| then [log[0].msg.payload] else []) + RestWhole(log, r + 1)
  {}

  /** A write takes the receiver one fragment further. */
  lemma RxAdvances(l: Limits, t: Table, events: seq<Arrival>, log: seq<Block>, r: nat, since: nat)
    requires LogOk(l, log) && Midway(l, t, log, r, since) && Timely(events, l.timeout)
    requires r > 0 ==> Due(events, log[0].id, since, l.timeout)
    requires RawOf(events) == Rest(log, r)
    requires events != [] && events[0].Rx? && log != [] && r < log[0].sent
    ensures var (t', out) := TaskStep(l, t, events[0]);
            var since' := if r == 0 then events[0].now else since;
            && Midway(l, t', log, r + 1, since')
            && Due(events[1..], log[0].id, since', l.timeout)
            && RawOf(events[1..]) == Rest(log, r + 1)
            && RestWhole(log, r) == out + RestWhole(log, r + 1)
  {
    hide TaskStep, Midway, Timely, Rest, Due, Pieces, RawOf, RestWhole, Wire;
    RawOfRx(events, log, r);
    RxIsDue(l, events, log, r, since);
    WriteKeepsMidway(l, t, log, r, since, events[0].now);
    RestWholeStep(log, r);
  }

  // ---- Foreign writes -----------------------------------------------------------------

  /** The events without the writes too short to hold a header. */
  ghost function OwnEvents(events: seq<Arrival>): seq<Arrival>
    decreases |events|
  {
    if events == [] then []
    else (if events[0].Rx? && |events[0].raw| < FRAGMENT_HEADER_LEN then [] else [events[0]]) + OwnEvents(events[1..])
  }

  /** Writes too short to be fragments, wherever they fall, change nothing of what is delivered. */
  lemma {:induction false} ShortWritesAreIgnored(l: Limits, t: Table, events: seq<Arrival>)
    ensures Received(l, t, events) == Received(l, t, OwnEvents(events))
    decreases |events|
  {
    hide AcceptSpec;
    if events != [] {
      var t' := TaskStep(l, t, events[0]).0;
      ShortWritesAreIgnored(l, t', events[1..]);
      if !(events[0].Rx? && |events[0].raw| < FRAGMENT_HEADER_LEN) {
        assert ([events[0]] + OwnEvents(events[1..]))[1..] == OwnEvents(events[1..]);
      } else {
        assert [] + OwnEvents(events[1..]) == OwnEvents(events[1..]);
      }
    }
  }

  // ---- End to end -----------------------------------------------------------------

  /** The payloads of the calls that returned `Ok`, in the order they held the sink. */
  ghost function OkPayloads(s: Senders, order: seq<nat>): seq<Bytes>
    requires forall i | 0 <= i < |order| :: order[i] < |s.calls|
  {
    if order == [] then []
    else (if s.calls[order[0]].phase == Returned(true) then [s.calls[order[0]].msg.payload] else []) + OkPayloads(s, order[1..])
  }

  /** The call failed although all of its fragments had reached the link. */
  ghost predicate Hidden(s: Senders, k: nat)
    requires k < |s.calls|
  {
    s.calls[k].phase == Returned(false) && s.calls[k].sent >= |Pieces(s.calls[k].msg)|
  }

  ghost predicate NoHiddenSuccess(s: Senders) {
    forall k | 0 <= k < |s.calls| :: !Hidden(s, k)
  }

  /** With fewer than 2^32 ids handed out no id is reused. */
  lemma IdsAreDistinct(ch: Channel, s: Senders, l: Limits)
    requires Inv(ch, s) && s.issued <= 0x1_0000_0000 && MaxLen(ch) <= l.maxMessageLen
    ensures LogOk(l, Log(s))
  {
    hide Pieces, MaxLen, Wire;
    forall i | 0 <= i < |s.lockOrder|
      ensures |Log(s)[i].msg.payload| <= l.maxMessageLen && Log(s)[i].id == s.calls[s.lockOrder[i]].serial
    {
      assert CallOk(ch, s, s.lockOrder[i]);
    }
    forall i, j | 0 <= i < j < |s.lockOrder|
      ensures Log(s)[i].id != Log(s)[j].id
    {
      var a, b := s.lockOrder[i], s.lockOrder[j];
      assert a < b || b < a;
    }
  }

  lemma {:induction false} WholeVersusOk(ch: Channel, s: Senders, order: seq<nat>, log: seq<Block>)
    requires Inv(ch, s) && |log| == |order|
    requires forall i | 0 <= i < |order| :: order[i] < |s.calls| && log[i] == BlockOf(s.calls[order[i]])
    ensures |OkPayloads(s, order)| <= |WholeOnes(log)|
    ensures WholeOnes(log) == OkPayloads(s, order) <==> forall i | 0 <= i < |order| :: !Hidden(s, order[i])
    decreases |order|
  {
    hide Wire, Pieces;
    if order != [] {
      WholeVersusOk(ch, s, order[1..], log[1..]);
      assert CallOk(ch, s, order[0]);
      var whole := if log[0].sent == |Pieces(log[0].msg)| then [log[0].msg.payload] else [];
      var ok := if s.calls[order[0]].phase == Returned(true) then [s.calls[order[0]].msg.payload] else [];
      assert Hidden(s, order[0]) <==> whole != ok;
      SamePrefix(whole, ok, WholeOnes(log[1..]), OkPayloads(s, order[1..]));
      NoneHidden(s, order);
    }
  }

  lemma SamePrefix(a: seq<Bytes>, b: seq<Bytes>, x: seq<Bytes>, y: seq<Bytes>)
    requires |y| <= |x| && (b == a || b == [])
    ensures |b + y| <= |a + x|
    ensures a + x == b + y <==> a == b && x == y
  {
    if a + x == b + y {
      assert |a| == |b|;
      assert x == (a + x)[|a|..] && y == (b + y)[|b|..];
    }
  }

  lemma NoneHidden(s: Senders, order: seq<nat>)
    requires order != [] && forall i | 0 <= i < |order| :: order[i] < |s.calls|
    ensures (forall i | 0 <= i < |order| :: !Hidden(s, order[i]))
       <==> !Hidden(s, order[0]) && forall i | 0 <= i < |order[1..]| :: !Hidden(s, order[1..][i])
  {
    hide Hidden;
    assert forall i | 0 < i < |order| :: order[1..][i - 1] == order[i];
  }

  lemma HiddenIffInOrder(ch: Channel, s: Senders)
    requires Inv(ch, s)
    ensures NoHiddenSuccess(s) <==> forall i | 0 <= i < |s.lockOrder| :: !Hidden(s, s.lockOrder[i])
  {
    hide Wire;
    forall k | 0 <= k < |s.calls| && Hidden(s, k)
      ensures exists i :: 0 <= i < |s.lockOrder| && s.lockOrder[i] == k
    {
      assert CallOk(ch, s, k);
    }
  }

  /** Any handles interleaved in any way, calls failing or cancelled midway: a lossless FIFO
      link delivers exactly the payloads whose fragments all reached it, in the order their
      calls held the sink. That is the payloads whose call returned `Ok`, once each, if and
      only if no failed or cancelled call had its last fragment reach the link after all. */
  lemma OrderedDelivery(ch: Channel, steps: seq<SendStep>, l: Limits, events: seq<Arrival>)
    requires ValidRun(ch, FRESH, steps)
    requires After(ch, FRESH, steps).issued <= 0x1_0000_0000
    requires MaxLen(ch) <= l.maxMessageLen
    requires RawOf(events) == After(ch, FRESH, steps).wire && Timely(events, l.timeout)
    ensures var s := After(ch, FRESH, steps);
            && LockOrderInRange(s)
            && Received(l, map[], events) == WholeOnes(Log(s))
            && (Received(l, map[], events) == OkPayloads(s, s.lockOrder) <==> NoHiddenSuccess(s))
            && (forall i, j | 0 <= i < j < |s.lockOrder| :: s.lockOrder[i] != s.lockOrder[j])
            && (forall k | 0 <= k < |s.calls| && s.calls[k].phase == Returned(true) :: k in s.lockOrder)
  {
    hide MaxLen, Timely, ValidRun, After, RawOf, Received, WholeOnes, OkPayloads, CallOk, Rest, RestWhole;
    var s := After(ch, FRESH, steps);
    FreshInv(ch);
    RunKeepsInv(ch, FRESH, steps);
    IdsAreDistinct(ch, s, l);
    RestFromStart(Log(s));
    BlocksAreReceived(l, map[], events, Log(s), 0, 0);
    WholeVersusOk(ch, s, s.lockOrder, Log(s));
    HiddenIffInOrder(ch, s);
    OkWasLocked(ch, s);
  }

  lemma FreshInv(ch: Channel)
    ensures Inv(ch, FRESH)
  {}

  lemma OkWasLocked(ch: Channel, s: Senders)
    requires Inv(ch, s)
    ensures forall k | 0 <= k < |s.calls| && s.calls[k].phase == Returned(true) :: k in s.lockOrder
  {
    hide Wire, Pieces;
    forall k | 0 <= k < |s.calls| && s.calls[k].phase == Returned(true)
      ensures k in s.lockOrder
    {
      assert CallOk(ch, s, k);
    }
  }

  /** If a failed write delivers nothing, no success stays hidden. */
  lemma {:induction false} FailedWritesHideNothing(ch: Channel, s: Senders, steps: seq<SendStep>)
    requires Inv(ch, s) && NoHiddenSuccess(s) && ValidRun(ch, s, steps)
    requires forall a <- steps :: !(a.Abandon? && a.reachedLink)
    ensures NoHiddenSuccess(After(ch, s, steps))
    decreases |steps|
  {
    hide Wire, Pieces;
    if steps != [] {
      StepKeepsInv(ch, s, steps[0]);
      assert steps[0] in steps;
      StepHidesNothing(ch, s, steps[0]);
      FailedWritesHideNothing(ch, Apply(ch, s, steps[0]), steps[1..]);
    }
  }

  lemma StepHidesNothing(ch: Channel, s: Senders, a: SendStep)
    requires Inv(ch, s) && NoHiddenSuccess(s) && Enabled(s, a)
    requires !(a.Abandon? && a.reachedLink)
    ensures NoHiddenSuccess(Apply(ch, s, a))
  {
    hide Wire, MaxLen, SplitSpec;
    var s' := Apply(ch, s, a);
    forall k | 0 <= k < |s'.calls|
      ensures !Hidden(s', k)
    {
      if k < |s.calls| {
        assert !Hidden(s, k) && CallOk(ch, s, k);
      }
    }
  }
}
