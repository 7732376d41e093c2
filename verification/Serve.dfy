/**
  The peripheral's serve loop (`serve_driver`): one central at a time, with a generation per
  channel handed out, so that late releases and late disconnects spare a replacement.
 */
module Serve {
  import opened Basics

  type Addr = nat

  datatype Served = Served(session: Option<nat>, generation: nat)

  datatype Released = Released(peer: Addr, generation: nat, keepPeer: bool)

  /**
    The channel of one generation. `handed` tells whether the accept queue took it;
    `disconnected` whether the application ended the link through it. `from` and `until`
    bound its tenure of the slot, `fed` is what its reassembler was given.
   */
  datatype Chan = Chan(
    peer: Addr, session: Option<nat>, handed: bool, active: bool, disconnected: bool, dropped: bool, keepPeer: bool,
    overflow: bool, from: nat, until: Option<nat>, fed: seq<Bytes>)

  /** What became of one write to the served characteristic. */
  datatype WriteOutcome = Queued | ChannelClosed | TimedOut | Unserved

  datatype Write = Write(at: nat, peer: Addr, value: Bytes, outcome: WriteOutcome)

  /** A request to the driver to drop a peer's connection. */
  datatype Ask = Ask(peer: Addr, session: Option<nat>)

  datatype State = State(
    clock: nat, running: bool, acceptClosed: bool, inbound: map<Addr, Served>, chans: seq<Chan>,
    releases: seq<Released>, asks: seq<Ask>, writes: seq<Write>)

  const START := State(0, true, false, map[], [], [], [], [])

  datatype Offer = Sent | Full | Closed

  datatype Step =
    | Connected(peer: Addr, session: Option<nat>, offer: Offer)
    | Written(peer: Addr, value: Bytes, outcome: WriteOutcome)
    | Disconnected(peer: Addr, lost: Option<nat>)
    | Lagged
    | RadioLost
    | TakeRelease
    | StreamDropped
    | EventsEnd
    // The application's own steps.
    | DropChannel(g: nat)
    | CloseChannel(g: nat)
    | DisconnectChannel(g: nat)

  predicate Enabled(s: State, a: Step) {
    match a
    case Written(peer, _, outcome) =>
      s.running &&
      (if peer !in s.inbound then outcome == Unserved
       else
         && outcome != Unserved
         && s.inbound[peer].generation < |s.chans|
         && (outcome == ChannelClosed ==> s.chans[s.inbound[peer].generation].dropped))
    case TakeRelease => s.running && s.releases != []
    case DropChannel(g) => g < |s.chans| && !s.chans[g].dropped
    case CloseChannel(g) => g < |s.chans| && !s.chans[g].dropped
    case DisconnectChannel(g) => g < |s.chans| && !s.chans[g].dropped
    case StreamDropped => s.running && !s.acceptClosed
    case _ => s.running
  }

  // ---- Specification ------------------------------------------------------------

  predicate Holds(s: State, g: nat) {
    g < |s.chans| && s.chans[g].peer in s.inbound && s.inbound[s.chans[g].peer].generation == g
  }

  function Ended(c: Chan, now: nat): Chan {
    c.(active := false, until := Some(now))
  }

  /** The entry of `peer` is removed and its channel ends. */
  function Vacated(s: State, peer: Addr): State
    requires peer in s.inbound
  {
    var g := s.inbound[peer].generation;
    s.(inbound := s.inbound - {peer},
       chans := if g < |s.chans| then s.chans[g := Ended(s.chans[g], s.clock)] else s.chans)
  }

  function Asked(s: State, peer: Addr, session: Option<nat>): State {
    s.(asks := s.asks + [Ask(peer, session)])
  }

  /** `release_peer`. */
  function ReleaseOne(s: State, r: Released): State {
    if r.peer !in s.inbound || s.inbound[r.peer].generation != r.generation then s
    else if r.keepPeer then Vacated(s, r.peer)
    else Asked(Vacated(s, r.peer), r.peer, s.inbound[r.peer].session)
  }

  function Drained(s: State): State
    decreases |s.releases|
  {
    if s.releases == [] then s else Drained(ReleaseOne(s.(releases := s.releases[1..]), s.releases[0]))
  }

  function StopIfIdle(s: State): State {
    if s.acceptClosed && s.inbound == map[] then s.(running := false) else s
  }

  function NewChan(now: nat, peer: Addr, session: Option<nat>, handed: bool): Chan {
    Chan(peer, session, handed, true, false, !handed, false, false, now, if handed then None else Some(now), [])
  }

  /** A central that the slot is free for: a channel of the next generation is made and offered
      to the accept queue. One that is not taken is dropped on the spot, which queues a release. */
  function Admitted(s: State, peer: Addr, session: Option<nat>, offer: Offer): State {
    var g := |s.chans|;
    var s1 := s.(chans := s.chans + [NewChan(s.clock, peer, session, offer == Sent)]);
    match offer
    case Sent => s1.(inbound := s.inbound[peer := Served(session, g)])
    case Full => Asked(s1, peer, session).(releases := s.releases + [Released(peer, g, false)])
    case Closed => StopIfIdle(s1.(acceptClosed := true, releases := s.releases + [Released(peer, g, false)]))
  }

  function OnConnected(s: State, peer: Addr, session: Option<nat>, offer: Offer): State {
    var s1 := Drained(s);
    if peer in s1.inbound || s1.acceptClosed then s1
    else if s1.inbound != map[] then Asked(s1, peer, session)
    else Admitted(s1, peer, session, offer)
  }

  function OnWritten(s: State, peer: Addr, value: Bytes, outcome: WriteOutcome): State
    requires Enabled(s, Written(peer, value, outcome))
  {
    var s1 := s.(writes := s.writes + [Write(s.clock, peer, value, outcome)]);
    match outcome
    case Queued =>
      var g := s.inbound[peer].generation;
      s1.(chans := s.chans[g := s.chans[g].(fed := s.chans[g].fed + [value])])
    case TimedOut =>
      var g := s.inbound[peer].generation;
      s1.(chans := s.chans[g := s.chans[g].(overflow := true)])
    case _ => s1
  }

  /** A loss event of an earlier session of the address. */
  predicate Stale(s: State, peer: Addr, lost: Option<nat>) {
    lost.Some? && peer in s.inbound && s.inbound[peer].session.Some? && lost != s.inbound[peer].session
  }

  function OnDisconnected(s: State, peer: Addr, lost: Option<nat>): State {
    if Stale(s, peer, lost) then s
    else StopIfIdle(if peer in s.inbound then Vacated(s, peer) else s)
  }

  /** Every entry is removed; each of the channels that held one becomes `f` of itself. */
  ghost function Emptied(s: State, f: Chan -> Chan): State {
    s.(inbound := map[],
       chans := seq(|s.chans|, g requires 0 <= g < |s.chans| => if Holds(s, g) then f(s.chans[g]) else s.chans[g]))
  }

  /** One request per entry. */
  ghost function AskAll(m: map<Addr, Served>): seq<Ask> {
    if m == map[] then []
    else
      var p :| p in m;
      [Ask(p, m[p].session)] + AskAll(m - {p})
  }

  ghost function LagEnd(now: nat): Chan -> Chan {
    (c: Chan) => Ended(c, now).(overflow := true)
  }

  ghost function PlainEnd(now: nat): Chan -> Chan {
    (c: Chan) => Ended(c, now)
  }

  ghost function OnLagged(s: State): State {
    StopIfIdle(Emptied(s, LagEnd(s.clock)).(asks := s.asks + AskAll(s.inbound)))
  }

  ghost function OnRadioLost(s: State): State {
    StopIfIdle(Emptied(s, PlainEnd(s.clock)))
  }

  ghost function OnEventsEnd(s: State): State {
    Emptied(s, (c: Chan) => c.(until := Some(s.clock))).(running := false)
  }

  function OnRelease(s: State): State
    requires s.releases != []
  {
    StopIfIdle(ReleaseOne(s.(releases := s.releases[1..]), s.releases[0]))
  }

  function OnDrop(s: State, g: nat): State
    requires g < |s.chans|
  {
    var c := s.chans[g];
    s.(chans := s.chans[g := c.(dropped := true)], releases := s.releases + [Released(c.peer, g, c.keepPeer)])
  }

  ghost function Effect(s: State, a: Step): State
    requires Enabled(s, a)
  {
    match a
    case Connected(peer, session, offer) => OnConnected(s, peer, session, offer)
    case Written(peer, value, outcome) => OnWritten(s, peer, value, outcome)
    case Disconnected(peer, lost) => OnDisconnected(s, peer, lost)
    case Lagged => OnLagged(s)
    case RadioLost => OnRadioLost(s)
    case TakeRelease => OnRelease(s)
    case StreamDropped => StopIfIdle(s.(acceptClosed := true))
    case EventsEnd => OnEventsEnd(s)
    case DropChannel(g) => OnDrop(s, g)
    case CloseChannel(g) => s.(chans := s.chans[g := s.chans[g].(keepPeer := true)])
    case DisconnectChannel(g) =>
      Asked(s.(chans := s.chans[g := s.chans[g].(active := false, disconnected := true)]), s.chans[g].peer, s.chans[g].session)
  }

  ghost function Apply(s: State, a: Step): State
    requires Enabled(s, a)
  {
    Effect(s, a).(clock := s.clock + 1)
  }

  // ---- Invariant ------------------------------------------------------------------

  /** The queued writes of `peer` between `from` and `until`, in order. */
  ghost function Taken(writes: seq<Write>, peer: Addr, from: nat, until: Option<nat>): seq<Bytes> {
    if writes == [] then []
    else
      var w := writes[|writes| - 1];
      Taken(writes[..|writes| - 1], peer, from, until)
      + if w.peer == peer && w.outcome == Queued && from <= w.at && (until.Some? ==> w.at < until.value) then [w.value] else []
  }

  ghost predicate SlotOk(s: State, p: Addr)
    requires p in s.inbound
  {
    var g := s.inbound[p].generation;
    && g < |s.chans|
    && s.chans[g].peer == p && s.chans[g].session == s.inbound[p].session
  }

  ghost predicate ChanOk(s: State, g: nat)
    requires g < |s.chans|
  {
    var c := s.chans[g];
    && (c.until == None <==> Holds(s, g))
    && c.from <= s.clock && (c.until.Some? ==> c.from <= c.until.value <= s.clock)
    && (c.until == None ==> c.handed)
    && (s.running && c.handed ==> (c.active <==> Holds(s, g) && !c.disconnected))
    && c.fed == Taken(s.writes, c.peer, c.from, c.until)
    && (c.dropped && Holds(s, g) ==> Released(c.peer, g, c.keepPeer) in s.releases)
  }

  ghost predicate ReleaseOk(s: State, r: Released) {
    && r.generation < |s.chans| && s.chans[r.generation].dropped
    && s.chans[r.generation].peer == r.peer && s.chans[r.generation].keepPeer == r.keepPeer
  }

  /** No two tenures overlap. */
  ghost predicate TenuresInTurn(chans: seq<Chan>) {
    forall g, h | 0 <= g < h < |chans| :: chans[g].until.Some? && chans[g].until.value <= chans[h].from
  }

  ghost predicate Inv(s: State) {
    && |s.inbound| <= 1
    && (forall p <- s.inbound :: SlotOk(s, p))
    && (forall g | 0 <= g < |s.chans| :: ChanOk(s, g))
    && TenuresInTurn(s.chans)
    && (forall r <- s.releases :: ReleaseOk(s, r))
    && (forall w <- s.writes :: w.at < s.clock)
  }

  lemma SameTenures(a: seq<Chan>, b: seq<Chan>)
    requires |a| == |b| && TenuresInTurn(a)
    requires forall g | 0 <= g < |a| :: a[g].from == b[g].from && (a[g].until == b[g].until || g == |a| - 1)
    ensures TenuresInTurn(b)
  {}

  lemma OnlyOne(s: State, p: Addr)
    requires |s.inbound| <= 1 && p in s.inbound
    ensures s.inbound == map[p := s.inbound[p]]
    ensures s.inbound - {p} == map[]
  {
    assert s.inbound.Keys == {p} by {
      SubsetSize({p}, s.inbound.Keys);
    }
  }

  /** Ending a tenure at the current time, or starting one, loses and adds no write. */
  lemma {:induction false} TakenAll(writes: seq<Write>, peer: Addr, from: nat, now: nat)
    requires forall w <- writes :: w.at < now
    ensures Taken(writes, peer, from, Some(now)) == Taken(writes, peer, from, None)
    ensures Taken(writes, peer, now, None) == [] && Taken(writes, peer, now, Some(now)) == []
  {
    if writes != [] {
      TakenAll(writes[..|writes| - 1], peer, from, now);
    }
  }

  lemma TakenMore(writes: seq<Write>, w: Write, peer: Addr, from: nat, until: Option<nat>)
    ensures Taken(writes + [w], peer, from, until) == Taken(writes, peer, from, until)
            + if w.peer == peer && w.outcome == Queued && from <= w.at && (until.Some? ==> w.at < until.value) then [w.value] else []
  {}

  /** While one peer holds the slot its channel is the newest, and every other one has ended. */
  lemma HolderIsNewest(s: State, p: Addr)
    requires Inv(s) && p in s.inbound
    ensures var g := s.inbound[p].generation;
            && Holds(s, g) && g == |s.chans| - 1
            && (forall k | 0 <= k < |s.chans| && k != g :: !Holds(s, k) && s.chans[k].until.Some?)
  {
    hide Taken;
    assert SlotOk(s, p);
    var g := s.inbound[p].generation;
    assert Holds(s, g);
    assert ChanOk(s, g);
    OnlyOne(s, p);
    var newest := s.chans[|s.chans| - 1].from;
    assert s.chans[g].until == None;
  }

  lemma VacatedKeepsInv(s: State, p: Addr)
    requires Inv(s) && p in s.inbound
    ensures Inv(Vacated(s, p)) && Vacated(s, p).inbound == map[]
  {
    hide Taken;
    OnlyOne(s, p);
    HolderIsNewest(s, p);
    var g := s.inbound[p].generation;
    TakenAll(s.writes, s.chans[g].peer, s.chans[g].from, s.clock);
    var s' := Vacated(s, p);
    forall k | 0 <= k < |s.chans|
      ensures ChanOk(s', k)
    {
      assert ChanOk(s, k);
    }
    forall r | r in s.releases
      ensures ReleaseOk(s', r)
    {
      assert ReleaseOk(s, r);
    }
  }

  lemma OnlyOneEntry(s: State, p: Addr)
    requires Inv(s) && p in s.inbound
    ensures s.inbound - {p} == map[]
    ensures forall q <- s.inbound :: q == p
  {
    hide SlotOk, ChanOk, ReleaseOk;
    OnlyOne(s, p);
  }

  /** A release that does not concern the holder may be forgotten. */
  lemma PopKeepsInv(s: State)
    requires Inv(s) && s.releases != []
    requires var r := s.releases[0]; r.peer in s.inbound ==> s.inbound[r.peer].generation != r.generation
    ensures Inv(s.(releases := s.releases[1..]))
  {
    hide Taken;
    var r := s.releases[0];
    var s' := s.(releases := s.releases[1..]);
    assert s.releases == [r] + s'.releases;
    assert ReleaseOk(s, r);
    forall k | 0 <= k < |s.chans|
      ensures ChanOk(s', k)
    {
      assert ChanOk(s, k);
    }
    forall p | p in s.inbound
      ensures SlotOk(s', p)
    {
      assert SlotOk(s, p);
    }
    forall x | x in s'.releases
      ensures ReleaseOk(s', x)
    {
      assert x in s.releases && ReleaseOk(s, x);
    }
  }

  lemma AskKeepsInv(s: State, p: Addr, session: Option<nat>)
    requires Inv(s)
    ensures Inv(Asked(s, p, session))
  {
    hide Taken;
    var s' := Asked(s, p, session);
    forall k | 0 <= k < |s.chans|
      ensures ChanOk(s', k)
    {
      assert ChanOk(s, k);
    }
    forall q | q in s.inbound
      ensures SlotOk(s', q)
    {
      assert SlotOk(s, q);
    }
    forall x | x in s'.releases
      ensures ReleaseOk(s', x)
    {
      assert ReleaseOk(s, x);
    }
  }

  lemma ReleaseKeepsInv(s: State)
    requires Inv(s) && s.releases != []
    ensures Inv(ReleaseOne(s.(releases := s.releases[1..]), s.releases[0]))
  {
    hide Inv;
    var r := s.releases[0];
    if r.peer in s.inbound && s.inbound[r.peer].generation == r.generation {
      VacatedKeepsInv(s, r.peer);
      PopKeepsInv(Vacated(s, r.peer));
      var s' := Vacated(s, r.peer).(releases := s.releases[1..]);
      AskKeepsInv(s', r.peer, s.inbound[r.peer].session);
      assert s' == Vacated(s.(releases := s.releases[1..]), r.peer);
    } else {
      PopKeepsInv(s);
    }
  }

  lemma {:induction false} DrainKeepsInv(s: State)
    requires Inv(s)
    ensures Inv(Drained(s)) && Drained(s).releases == []
    ensures Drained(s).clock == s.clock && Drained(s).running == s.running && Drained(s).acceptClosed == s.acceptClosed
    decreases |s.releases|
  {
    hide Inv;
    if s.releases != [] {
      ReleaseKeepsInv(s);
      DrainKeepsInv(ReleaseOne(s.(releases := s.releases[1..]), s.releases[0]));
    }
  }

  /** Nothing but a later clock. */
  lemma TickKeepsInv(s: State)
    requires Inv(s)
    ensures Inv(s.(clock := s.clock + 1))
  {
    hide Taken;
    SameChansKeepInv(s, s.(clock := s.clock + 1));
  }

  /** Flags of the loop itself do not matter to the slot. */
  lemma SameChansKeepInv(s: State, s': State)
    requires Inv(s) && s'.chans == s.chans && s'.inbound == s.inbound && s'.releases == s.releases && s'.writes == s.writes
    requires s'.clock >= s.clock && (s'.running ==> s.running)
    ensures Inv(s')
  {
    hide Taken;
    forall k | 0 <= k < |s.chans|
      ensures ChanOk(s', k)
    {
      assert ChanOk(s, k);
    }
    forall p | p in s.inbound
      ensures SlotOk(s', p)
    {
      assert SlotOk(s, p);
    }
    forall r | r in s.releases
      ensures ReleaseOk(s', r)
    {
      assert ReleaseOk(s, r);
    }
  }

  /** One channel changes in ways that leave its tenure and its fragments alone. */
  lemma FlagsKeepInv(s: State, g: nat, c: Chan)
    requires Inv(s) && g < |s.chans|
    requires c == s.chans[g].(active := c.active, disconnected := c.disconnected, keepPeer := c.keepPeer, overflow := c.overflow)
    requires c.keepPeer == s.chans[g].keepPeer || !c.dropped
    requires (c.active == s.chans[g].active && c.disconnected == s.chans[g].disconnected) || (c.disconnected && !c.active)
    ensures Inv(s.(chans := s.chans[g := c]))
  {
    hide Taken, TenuresInTurn;
    SameTenures(s.chans, s.chans[g := c]);
    var s' := s.(chans := s.chans[g := c]);
    forall k | 0 <= k < |s.chans|
      ensures ChanOk(s', k)
    {
      assert ChanOk(s, k);
    }
    forall p | p in s.inbound
      ensures SlotOk(s', p)
    {
      assert SlotOk(s, p);
    }
    forall r | r in s.releases
      ensures ReleaseOk(s', r)
    {
      assert ReleaseOk(s, r);
    }
  }

  lemma DropKeepsInv(s: State, g: nat)
    requires Inv(s) && g < |s.chans|
    ensures Inv(OnDrop(s, g))
  {
    hide Taken, TenuresInTurn;
    SameTenures(s.chans, OnDrop(s, g).chans);
    var s' := OnDrop(s, g);
    forall k | 0 <= k < |s.chans|
      ensures ChanOk(s', k)
    {
      assert ChanOk(s, k);
    }
    forall p | p in s.inbound
      ensures SlotOk(s', p)
    {
      assert SlotOk(s, p);
    }
    forall r | r in s'.releases
      ensures ReleaseOk(s', r)
    {
      if r in s.releases {
        assert ReleaseOk(s, r);
      }
    }
  }

  lemma AdmitKeepsInv(s: State, peer: Addr, session: Option<nat>, offer: Offer)
    requires Inv(s) && s.inbound == map[]
    ensures Inv(Admitted(s, peer, session, offer).(clock := s.clock + 1))
  {
    hide Taken;
    var g := |s.chans|;
    var s' := Admitted(s, peer, session, offer).(clock := s.clock + 1);
    TakenAll(s.writes, peer, 0, s.clock);
    assert s'.chans == s.chans + [NewChan(s.clock, peer, session, offer == Sent)];
    forall k | 0 <= k < |s'.chans|
      ensures ChanOk(s', k)
      ensures k < g ==> s.chans[k].until.Some?
    {
      if k < g {
        assert ChanOk(s, k);
      }
    }
    forall k | 0 <= k < g
      ensures s.chans[k].until.value <= s.clock
    {
      assert ChanOk(s, k);
    }
    AdmitKeepsReleases(s, peer, session, offer);
    assert |s'.inbound| <= 1;
  }

  lemma AdmitKeepsReleases(s: State, peer: Addr, session: Option<nat>, offer: Offer)
    requires Inv(s)
    ensures var s' := Admitted(s, peer, session, offer).(clock := s.clock + 1); forall r <- s'.releases :: ReleaseOk(s', r)
  {
    hide ChanOk, SlotOk, TenuresInTurn;
    var s' := Admitted(s, peer, session, offer).(clock := s.clock + 1);
    forall r | r in s'.releases
      ensures ReleaseOk(s', r)
    {
      if r in s.releases {
        assert ReleaseOk(s, r);
      }
    }
  }

  lemma WrittenShape(s: State, peer: Addr, value: Bytes, outcome: WriteOutcome)
    requires Enabled(s, Written(peer, value, outcome))
    ensures var s' := OnWritten(s, peer, value, outcome);
            && s'.inbound == s.inbound && s'.releases == s.releases && |s'.chans| == |s.chans|
            && s'.clock == s.clock && s'.running == s.running
            && s'.writes == s.writes + [Write(s.clock, peer, value, outcome)]
            && forall k | 0 <= k < |s.chans| ::
                 s'.chans[k] == s.chans[k].(fed := s'.chans[k].fed, overflow := s'.chans[k].overflow)
  {}

  lemma WrittenKeepsInv(s: State, peer: Addr, value: Bytes, outcome: WriteOutcome)
    requires Inv(s) && Enabled(s, Written(peer, value, outcome))
    ensures Inv(OnWritten(s, peer, value, outcome).(clock := s.clock + 1))
  {
    hide Taken, TenuresInTurn, ChanOk, OnWritten;
    WrittenShape(s, peer, value, outcome);
    var s' := OnWritten(s, peer, value, outcome).(clock := s.clock + 1);
    SameTenures(s.chans, s'.chans);
    forall k | 0 <= k < |s.chans|
      ensures ChanOk(s', k)
    {
      WrittenKeepsChan(s, peer, value, outcome, k);
    }
    forall p | p in s.inbound
      ensures SlotOk(s', p)
    {
      assert SlotOk(s, p);
    }
    forall r | r in s.releases
      ensures ReleaseOk(s', r)
    {
      assert ReleaseOk(s, r);
    }
  }

  lemma HolderTakes(s: State, peer: Addr)
    requires Inv(s) && peer in s.inbound
    ensures var g := s.inbound[peer].generation;
            && Holds(s, g) && s.chans[g].peer == peer && s.chans[g].until == None && s.chans[g].from <= s.clock
            && forall k | 0 <= k < |s.chans| && k != g :: !Holds(s, k)
  {
    hide Taken, TenuresInTurn;
    HolderIsNewest(s, peer);
    assert SlotOk(s, peer);
    assert ChanOk(s, s.inbound[peer].generation);
  }

  /** A queued write reaches the holder's channel and no other. */
  lemma WrittenKeepsChan(s: State, peer: Addr, value: Bytes, outcome: WriteOutcome, k: nat)
    requires Inv(s) && Enabled(s, Written(peer, value, outcome)) && k < |s.chans|
    ensures ChanOk(OnWritten(s, peer, value, outcome).(clock := s.clock + 1), k)
  {
    hide Taken, Inv;
    if peer in s.inbound {
      HolderTakes(s, peer);
    }
    ChanIsOk(s, k);
    TakenMore(s.writes, Write(s.clock, peer, value, outcome), s.chans[k].peer, s.chans[k].from, s.chans[k].until);
  }

  lemma ChanIsOk(s: State, k: nat)
    requires Inv(s) && k < |s.chans|
    ensures ChanOk(s, k)
  {}

  /** Emptying the slot by any rule that ends the tenure now. */
  lemma EmptiedKeepsInv(s: State, f: Chan -> Chan)
    requires Inv(s)
    requires forall c :: f(c) == Ended(c, s.clock).(overflow := f(c).overflow)
    ensures Inv(Emptied(s, f)) && Emptied(s, f).inbound == map[]
  {
    hide Taken;
    var s' := Emptied(s, f);
    forall k | 0 <= k < |s.chans|
      ensures ChanOk(s', k)
    {
      assert ChanOk(s, k);
      TakenAll(s.writes, s.chans[k].peer, s.chans[k].from, s.clock);
    }
    forall r | r in s.releases
      ensures ReleaseOk(s', r)
    {
      assert ReleaseOk(s, r);
    }
    EmptiedInTurn(s, f);
  }

  lemma EmptiedInTurn(s: State, f: Chan -> Chan)
    requires Inv(s)
    requires forall c :: f(c).until == Some(s.clock) && f(c).from == c.from
    ensures TenuresInTurn(Emptied(s, f).chans)
  {
    hide Taken, TenuresInTurn;
    forall g | 0 <= g < |s.chans|
      ensures Holds(s, g) ==> g == |s.chans| - 1
    {
      assert Holds(s, g) ==> s.chans[g].peer in s.inbound;
      if Holds(s, g) {
        HolderIsNewest(s, s.chans[g].peer);
      }
    }
    SameTenures(s.chans, Emptied(s, f).chans);
  }

  // ---- Every run --------------------------------------------------------------------

  lemma ConnectedKeepsInv(s: State, peer: Addr, session: Option<nat>, offer: Offer)
    requires Inv(s)
    ensures Inv(OnConnected(s, peer, session, offer).(clock := s.clock + 1))
  {
    hide Inv, Admitted;
    DrainKeepsInv(s);
    var s1 := Drained(s);
    if !(peer in s1.inbound || s1.acceptClosed) && s1.inbound == map[] {
      AdmitKeepsInv(s1, peer, session, offer);
    } else {
      AskKeepsInv(s1, peer, session);
      TickKeepsInv(s1);
      TickKeepsInv(Asked(s1, peer, session));
    }
  }

  lemma DisconnectedKeepsInv(s: State, peer: Addr, lost: Option<nat>)
    requires Inv(s)
    ensures Inv(OnDisconnected(s, peer, lost))
  {
    if peer in s.inbound && !Stale(s, peer, lost) {
      VacatedKeepsInv(s, peer);
      IdleKeepsInv(Vacated(s, peer));
    } else {
      IdleKeepsInv(s);
    }
  }

  lemma IdleKeepsInv(s: State)
    requires Inv(s)
    ensures Inv(StopIfIdle(s))
  {
    SameChansKeepInv(s, StopIfIdle(s));
  }

  lemma LaggedKeepsInv(s: State)
    requires Inv(s)
    ensures Inv(OnLagged(s))
  {
    hide Inv;
    var f := LagEnd(s.clock);
    EmptiedKeepsInv(s, f);
    AsksKeepInv(Emptied(s, f), s.asks + AskAll(s.inbound));
    IdleKeepsInv(Emptied(s, f).(asks := s.asks + AskAll(s.inbound)));
  }

  lemma AsksKeepInv(s: State, asks: seq<Ask>)
    requires Inv(s)
    ensures Inv(s.(asks := asks))
  {
    SameChansKeepInv(s, s.(asks := asks));
  }

  lemma RadioLostKeepsInv(s: State)
    requires Inv(s)
    ensures Inv(OnRadioLost(s))
  {
    hide Inv;
    var f := PlainEnd(s.clock);
    EmptiedKeepsInv(s, f);
    IdleKeepsInv(Emptied(s, f));
  }

  lemma EventsEndKeepsInv(s: State)
    requires Inv(s)
    ensures Inv(OnEventsEnd(s))
  {
    hide Taken, TenuresInTurn;
    var f := (c: Chan) => c.(until := Some(s.clock));
    var s' := OnEventsEnd(s);
    EmptiedInTurn(s, f);
    assert s'.chans == Emptied(s, f).chans;
    forall k | 0 <= k < |s.chans|
      ensures ChanOk(s', k)
    {
      assert ChanOk(s, k);
      TakenAll(s.writes, s.chans[k].peer, s.chans[k].from, s.clock);
    }
    forall r | r in s.releases
      ensures ReleaseOk(s', r)
    {
      assert ReleaseOk(s, r);
    }
  }

  lemma EffectKeepsInv(s: State, a: Step)
    requires Inv(s) && Enabled(s, a)
    requires !a.Connected? && !a.Written?
    ensures Inv(Effect(s, a)) && Effect(s, a).clock == s.clock
  {
    hide Inv;
    match a {
      case Disconnected(peer, lost) => DisconnectedKeepsInv(s, peer, lost);
      case Lagged => LaggedKeepsInv(s);
      case RadioLost => RadioLostKeepsInv(s);
      case TakeRelease =>
        ReleaseKeepsInv(s);
        IdleKeepsInv(ReleaseOne(s.(releases := s.releases[1..]), s.releases[0]));
      case StreamDropped =>
        ClosedKeepsInv(s);
        IdleKeepsInv(s.(acceptClosed := true));
      case EventsEnd => EventsEndKeepsInv(s);
      case DropChannel(g) => DropKeepsInv(s, g);
      case CloseChannel(g) => FlagsKeepInv(s, g, s.chans[g].(keepPeer := true));
      case DisconnectChannel(g) =>
        var c := s.chans[g].(active := false, disconnected := true);
        FlagsKeepInv(s, g, c);
        AskKeepsInv(s.(chans := s.chans[g := c]), s.chans[g].peer, s.chans[g].session);
    }
  }

  lemma ClosedKeepsInv(s: State)
    requires Inv(s)
    ensures Inv(s.(acceptClosed := true))
  {
    SameChansKeepInv(s, s.(acceptClosed := true));
  }

  lemma StepKeepsInv(s: State, a: Step)
    requires Inv(s) && Enabled(s, a)
    ensures Inv(Apply(s, a))
  {
    hide Inv;
    match a {
      case Connected(peer, session, offer) =>
        ConnectedKeepsInv(s, peer, session, offer);
      case Written(peer, value, outcome) =>
        WrittenKeepsInv(s, peer, value, outcome);
      case _ =>
        EffectKeepsInv(s, a);
        TickKeepsInv(Effect(s, a));
    }
  }

  ghost predicate ValidRun(s: State, steps: seq<Step>)
    decreases |steps|
  {
    steps == [] || (Enabled(s, steps[0]) && ValidRun(Apply(s, steps[0]), steps[1..]))
  }

  ghost function After(s: State, steps: seq<Step>): State
    requires ValidRun(s, steps)
    decreases |steps|
  {
    if steps == [] then s else After(Apply(s, steps[0]), steps[1..])
  }

  lemma {:induction false} RunKeepsInv(s: State, steps: seq<Step>)
    requires Inv(s) && ValidRun(s, steps)
    ensures Inv(After(s, steps))
    decreases |steps|
  {
    if steps != [] {
      StepKeepsInv(s, steps[0]);
      RunKeepsInv(Apply(s, steps[0]), steps[1..]);
    }
  }

  /** In every reachable state at most one peer holds the slot; while the loop runs, a channel
      that was handed out is active exactly as long as its own generation holds the slot and
      the application has not ended the link; no two tenures overlap; and what a channel's
      reassembler was given is exactly what its own peer wrote during its own tenure. */
  lemma SingleCentral(steps: seq<Step>)
    requires ValidRun(START, steps)
    ensures var s := After(START, steps);
            && |s.inbound| <= 1
            && (forall g | 0 <= g < |s.chans| && s.chans[g].handed && s.running ::
                  s.chans[g].active <==> Holds(s, g) && !s.chans[g].disconnected)
            && (forall g | 0 <= g < |s.chans| :: s.chans[g].until == None <==> Holds(s, g))
            && TenuresInTurn(s.chans)
            && (forall g | 0 <= g < |s.chans| ::
                  s.chans[g].fed == Taken(s.writes, s.chans[g].peer, s.chans[g].from, s.chans[g].until))
  {
    hide ValidRun, After, Inv;
    StartInv();
    RunKeepsInv(START, steps);
    SlotFacts(After(START, steps));
  }

  lemma StartInv()
    ensures Inv(START)
  {}

  lemma SlotFacts(s: State)
    requires Inv(s)
    ensures |s.inbound| <= 1
    ensures forall g | 0 <= g < |s.chans| && s.chans[g].handed && s.running ::
              s.chans[g].active <==> Holds(s, g) && !s.chans[g].disconnected
    ensures forall g | 0 <= g < |s.chans| :: s.chans[g].until == None <==> Holds(s, g)
    ensures TenuresInTurn(s.chans)
    ensures forall g | 0 <= g < |s.chans| ::
              s.chans[g].fed == Taken(s.writes, s.chans[g].peer, s.chans[g].from, s.chans[g].until)
  {
    hide Taken, Holds;
    forall g | 0 <= g < |s.chans|
      ensures s.chans[g].handed && s.running ==> (s.chans[g].active <==> Holds(s, g) && !s.chans[g].disconnected)
      ensures s.chans[g].until == None <==> Holds(s, g)
      ensures s.chans[g].fed == Taken(s.writes, s.chans[g].peer, s.chans[g].from, s.chans[g].until)
    {
      assert ChanOk(s, g);
    }
  }

  // ---- What can end a tenure ----------------------------------------------------------

  /** The events that are about the channel of generation `g` or about everyone. */
  predicate Concerns(s: State, a: Step, g: nat)
    requires g < |s.chans|
  {
    match a
    case Lagged => true
    case RadioLost => true
    case EventsEnd => true
    case Disconnected(peer, lost) =>
      peer == s.chans[g].peer && (lost == None || s.chans[g].session == None || lost == s.chans[g].session)
    case TakeRelease => s.releases != [] && s.releases[0].generation == g && s.chans[g].dropped
    case Connected(_, _, _) => s.chans[g].dropped
    case _ => false
  }

  /** One queued release while `g` holds the slot. */
  lemma ReleaseOneSpares(s: State, g: nat)
    requires Inv(s) && Holds(s, g) && s.releases != []
    ensures var s1 := ReleaseOne(s.(releases := s.releases[1..]), s.releases[0]);
            && s1.releases == s.releases[1..]
            && |s1.chans| == |s.chans| && s1.chans[g].peer == s.chans[g].peer && s1.chans[g].dropped == s.chans[g].dropped
            && (if s.releases[0].generation == g then s1.inbound == map[] && s.chans[g].dropped else Holds(s1, g))
  {
    hide Inv, ChanOk;
    FirstRelease(s);
    OnlyOneEntry(s, s.chans[g].peer);
  }

  lemma FirstRelease(s: State)
    requires Inv(s) && s.releases != []
    ensures ReleaseOk(s, s.releases[0])
  {}

  lemma DroppedIsReleased(s: State, g: nat)
    requires Inv(s) && Holds(s, g) && s.chans[g].dropped
    ensures s.releases != []
  {
    hide Taken, TenuresInTurn;
    assert ChanOk(s, g);
  }

  lemma {:induction false} DrainSpares(s: State, g: nat)
    requires Inv(s) && Holds(s, g)
    ensures |Drained(s).chans| == |s.chans| && Drained(s).chans[g].peer == s.chans[g].peer
    ensures Holds(Drained(s), g) <==> !s.chans[g].dropped
    decreases |s.releases|
  {
    hide Inv, ReleaseOne;
    if s.chans[g].dropped {
      DroppedIsReleased(s, g);
    }
    if s.releases != [] {
      var s1 := ReleaseOne(s.(releases := s.releases[1..]), s.releases[0]);
      ReleaseOneSpares(s, g);
      ReleaseKeepsInv(s);
      if s.releases[0].generation == g {
        EmptyStaysEmpty(s1);
      } else {
        DrainSpares(s1, g);
      }
    }
  }

  lemma {:induction false} EmptyStaysEmpty(s: State)
    requires s.inbound == map[]
    ensures Drained(s) == s.(releases := [])
    decreases |s.releases|
  {
    if s.releases != [] {
      EmptyStaysEmpty(s.(releases := s.releases[1..]));
    }
  }

  /** Late releases, late disconnects and other centrals never take the slot from its holder:
      a tenure ends by the events that concern it and by no other. */
  lemma ItsOwnEventsEndATenure(s: State, a: Step, g: nat)
    requires Inv(s) && Enabled(s, a) && Holds(s, g)
    ensures !Holds(Apply(s, a), g) <==> Concerns(s, a, g)
  {
    hide Taken, TenuresInTurn, Drained, OnWritten, OnConnected, OnRelease, OnLagged, OnRadioLost, OnEventsEnd, OnDisconnected, Inv;
    match a {
      case Connected(peer, session, offer) =>
        ConnectedSpares(s, g, peer, session, offer);
      case Written(peer, value, outcome) => WrittenShape(s, peer, value, outcome);
      case TakeRelease => ReleaseSpares(s, g);
      case Disconnected(peer, lost) => DisconnectedSpares(s, g, peer, lost);
      case _ => OthersSpare(s, g, a);
    }
  }

  lemma OthersSpare(s: State, g: nat, a: Step)
    requires Enabled(s, a) && Holds(s, g) && !a.Connected? && !a.Written? && !a.TakeRelease? && !a.Disconnected?
    ensures Holds(Effect(s, a), g) <==> !a.Lagged? && !a.RadioLost? && !a.EventsEnd?
  {}

  lemma DisconnectedSpares(s: State, g: nat, peer: Addr, lost: Option<nat>)
    requires Inv(s) && Holds(s, g)
    ensures !Holds(OnDisconnected(s, peer, lost), g) <==>
              peer == s.chans[g].peer && (lost == None || s.chans[g].session == None || lost == s.chans[g].session)
  {
    hide ChanOk, ReleaseOk;
    assert SlotOk(s, s.chans[g].peer);
  }

  lemma ConnectedSpares(s: State, g: nat, peer: Addr, session: Option<nat>, offer: Offer)
    requires Inv(s) && Holds(s, g)
    ensures Holds(OnConnected(s, peer, session, offer), g) <==> !s.chans[g].dropped
  {
    hide Inv, Drained;
    DrainSpares(s, g);
  }

  lemma ReleaseSpares(s: State, g: nat)
    requires Inv(s) && Holds(s, g) && s.releases != []
    ensures !Holds(OnRelease(s), g) <==> s.releases[0].generation == g && s.chans[g].dropped
  {
    hide Inv, ReleaseOne;
    ReleaseOneSpares(s, g);
  }

  /** A channel the caller has dropped does not make the next central be refused, even when
      its release is still queued: the newcomer gets the slot at once. */
  lemma DroppedHolderMakesRoom(s: State, g: nat, peer: Addr, session: Option<nat>)
    requires Inv(s) && s.running && !s.acceptClosed && Holds(s, g) && s.chans[g].dropped
    ensures Holds(Apply(s, Connected(peer, session, Sent)), |s.chans|)
  {
    hide Inv;
    DrainKeepsInv(s);
    DrainSpares(s, g);
    DrainEmpties(s, g);
  }

  lemma DrainEmpties(s: State, g: nat)
    requires Inv(s) && Holds(s, g) && s.chans[g].dropped
    ensures Drained(s).inbound == map[]
  {
    hide Taken, TenuresInTurn, Drained;
    DrainSpares(s, g);
    DrainKeepsInv(s);
    DrainOnlyRemoves(s);
    OnlyOne(s, s.chans[g].peer);
    assert forall p :: p !in Drained(s).inbound;
  }

  lemma {:induction false} DrainOnlyRemoves(s: State)
    ensures forall p <- Drained(s).inbound :: p in s.inbound && Drained(s).inbound[p] == s.inbound[p]
    decreases |s.releases|
  {
    if s.releases != [] {
      DrainOnlyRemoves(ReleaseOne(s.(releases := s.releases[1..]), s.releases[0]));
    }
  }

  /** In every reachable state: late releases, late disconnects and other centrals never take the
      slot from its holder, and what concerns the holder always does. */
  lemma TenuresEndByTheirOwnEvents(steps: seq<Step>, a: Step, g: nat)
    requires ValidRun(START, steps)
    requires var s := After(START, steps); Enabled(s, a) && Holds(s, g)
    ensures var s := After(START, steps); !Holds(Apply(s, a), g) <==> Concerns(s, a, g)
  {
    hide ValidRun, After, Inv, Apply, Enabled;
    StartInv();
    RunKeepsInv(START, steps);
    ItsOwnEventsEndATenure(After(START, steps), a, g);
  }

  /** In every reachable state: a dropped holder does not make the next central be refused. */
  lemma NextCentralIsAdmitted(steps: seq<Step>, g: nat, peer: Addr, session: Option<nat>)
    requires ValidRun(START, steps)
    requires var s := After(START, steps); s.running && !s.acceptClosed && Holds(s, g) && s.chans[g].dropped
    ensures var s := After(START, steps); Holds(Apply(s, Connected(peer, session, Sent)), |s.chans|)
  {
    hide ValidRun, After, Inv, Effect;
    StartInv();
    RunKeepsInv(START, steps);
    DroppedHolderMakesRoom(After(START, steps), g, peer, session);
  }

  // ---- The loop, in place ---------------------------------------------------------------

  class ServeLoop {
    var running: bool
    var acceptClosed: bool
    var inbound: map<Addr, Served>
    var nextGeneration: nat
    var chans: seq<Chan>
    var releases: seq<Released>
    var asks: seq<Ask>
    // History, kept for the statements about tenures.
    var clock: nat
    var writes: seq<Write>

    ghost function View(): State
      reads this
    {
      State(clock, running, acceptClosed, inbound, chans, releases, asks, writes)
    }

    ghost predicate Valid()
      reads this
    {
      nextGeneration == |chans| && Inv(View())
    }

    constructor ()
      ensures Valid() && View() == START
    {
      running, acceptClosed, inbound, nextGeneration := true, false, map[], 0;
      chans, releases, asks, clock, writes := [], [], [], 0, [];
    }

    method AskDisconnect(peer: Addr, session: Option<nat>)
      modifies this`asks
      ensures View() == Asked(old(View()), peer, session)
    {
      asks := asks + [Ask(peer, session)];
    }

    method EndTenure(peer: Addr)
      requires peer in inbound
      modifies this`inbound, this`chans
      ensures View() == Vacated(old(View()), peer)
    {
      var g := inbound[peer].generation;
      inbound := inbound - {peer};
      if g < |chans| {
        chans := chans[g := Ended(chans[g], clock)];
      }
    }

    method ReleasePeer(r: Released)
      modifies this`inbound, this`chans, this`asks
      ensures View() == ReleaseOne(old(View()), r)
    {
      if r.peer !in inbound || inbound[r.peer].generation != r.generation {
        return;
      }
      var session := inbound[r.peer].session;
      EndTenure(r.peer);
      if r.keepPeer {
        return;
      }
      AskDisconnect(r.peer, session);
    }

    method DrainReleases()
      modifies this`inbound, this`chans, this`asks, this`releases
      ensures View() == Drained(old(View())) && |chans| == old(|chans|)
    {
      while releases != []
        invariant |chans| == old(|chans|)
        invariant Drained(View()) == Drained(old(View()))
        decreases |releases|
      {
        var r := releases[0];
        releases := releases[1..];
        ReleasePeer(r);
      }
    }

    method ReturnIfIdle()
      modifies this`running
      ensures View() == StopIfIdle(old(View()))
    {
      if acceptClosed && inbound == map[] {
        running := false;
      }
    }

    method OnConnectedEvent(peer: Addr, session: Option<nat>, offer: Offer)
      requires Valid() && Enabled(View(), Connected(peer, session, offer))
      modifies this
      ensures Valid() && View() == Apply(old(View()), Connected(peer, session, offer))
    {
      hide Inv;
      StepKeepsInv(View(), Connected(peer, session, offer));
      DrainReleases();
      if peer !in inbound && !acceptClosed {
        if inbound != map[] {
          AskDisconnect(peer, session);
        } else {
          Admit(peer, session, offer);
        }
      }
      clock := clock + 1;
    }

    method Admit(peer: Addr, session: Option<nat>, offer: Offer)
      requires nextGeneration == |chans|
      modifies this
      ensures nextGeneration == |chans|
      ensures View() == Admitted(old(View()), peer, session, offer)
    {
      var generation := nextGeneration;
      nextGeneration := nextGeneration + 1;
      chans := chans + [NewChan(clock, peer, session, offer == Sent)];
      match offer {
        case Sent =>
          inbound := inbound[peer := Served(session, generation)];
        case Full =>
          AskDisconnect(peer, session);
          releases := releases + [Released(peer, generation, false)];
        case Closed =>
          releases := releases + [Released(peer, generation, false)];
          acceptClosed := true;
          ReturnIfIdle();
      }
    }

    method OnDisconnectedEvent(peer: Addr, lost: Option<nat>)
      requires Valid() && Enabled(View(), Disconnected(peer, lost))
      modifies this
      ensures Valid() && View() == Apply(old(View()), Disconnected(peer, lost))
    {
      hide Inv;
      StepKeepsInv(View(), Disconnected(peer, lost));
      var stale := lost.Some? && peer in inbound && inbound[peer].session.Some? && lost != inbound[peer].session;
      if !stale {
        if peer in inbound {
          EndTenure(peer);
        }
        ReturnIfIdle();
      }
      clock := clock + 1;
    }

    method OnWrittenEvent(peer: Addr, value: Bytes, outcome: WriteOutcome)
      requires Valid() && Enabled(View(), Written(peer, value, outcome))
      modifies this
      ensures Valid() && View() == Apply(old(View()), Written(peer, value, outcome))
    {
      hide Inv;
      StepKeepsInv(View(), Written(peer, value, outcome));
      writes := writes + [Write(clock, peer, value, outcome)];
      if peer in inbound {
        var g := inbound[peer].generation;
        match outcome {
          case Queued => chans := chans[g := chans[g].(fed := chans[g].fed + [value])];
          case TimedOut => chans := chans[g := chans[g].(overflow := true)];
          case _ =>
        }
      }
      clock := clock + 1;
    }

    /** A queued release is taken. The source ends the loop after one only once the accept
        stream is closed and nobody is served. */
    method OnReleaseEvent()
      requires Valid() && Enabled(View(), TakeRelease)
      modifies this
      ensures Valid() && View() == Apply(old(View()), TakeRelease)
    {
      hide Inv;
      StepKeepsInv(View(), TakeRelease);
      var r := releases[0];
      releases := releases[1..];
      ReleasePeer(r);
      ReturnIfIdle();
      clock := clock + 1;
    }

    method OnLaggedEvent()
      requires Valid() && Enabled(View(), Lagged)
      modifies this
      ensures Valid() && View() == Apply(old(View()), Lagged)
    {
      hide Inv, Emptied, AskAll;
      StepKeepsInv(View(), Lagged);
      EndLagged();
      ReturnIfIdle();
      clock := clock + 1;
    }

    method EndLagged()
      requires Valid()
      modifies this`inbound, this`chans, this`asks
      ensures nextGeneration == |chans|
      ensures View() == Emptied(old(View()), LagEnd(clock)).(asks := old(asks) + AskAll(old(inbound)))
    {
      hide Inv, Emptied, AskAll, LagEnd;
      ghost var before, f := View(), LagEnd(clock);
      ghost var target := Emptied(before, f).(asks := before.asks + AskAll(before.inbound));
      NoneHeld(before, f);
      while inbound != map[]
        invariant View() == before || (inbound == map[] && View() == target)
        invariant nextGeneration == |chans|
        decreases |inbound|
      {
        var peer :| peer in inbound;
        OneHeld(before, peer, f);
        EndWithGap(peer);
      }
    }

    /** The gap is reported first, then the channel is invalidated and the peer dropped. */
    method EndWithGap(peer: Addr)
      requires peer in inbound && inbound[peer].generation < |chans|
      modifies this`inbound, this`chans, this`asks
      ensures var g := old(inbound[peer].generation);
              && inbound == old(inbound) - {peer}
              && chans == old(chans)[g := LagEnd(clock)(old(chans[g]))]
              && asks == old(asks) + [Ask(peer, old(inbound[peer].session))]
    {
      var g, session := inbound[peer].generation, inbound[peer].session;
      inbound := inbound - {peer};
      chans := chans[g := chans[g].(overflow := true)];
      chans := chans[g := Ended(chans[g], clock)];
      AskDisconnect(peer, session);
    }

    method OnRadioLostEvent()
      requires Valid() && Enabled(View(), RadioLost)
      modifies this
      ensures Valid() && View() == Apply(old(View()), RadioLost)
    {
      hide Inv, Emptied;
      StepKeepsInv(View(), RadioLost);
      EndForRadio();
      ReturnIfIdle();
      clock := clock + 1;
    }

    method EndForRadio()
      requires Valid()
      modifies this`inbound, this`chans
      ensures nextGeneration == |chans|
      ensures View() == Emptied(old(View()), PlainEnd(clock))
    {
      hide Inv;
      ghost var before, f := View(), PlainEnd(clock);
      NoneHeld(before, f);
      while inbound != map[]
        invariant View() == before || (inbound == map[] && View() == Emptied(before, f))
        invariant nextGeneration == |chans|
        decreases |inbound|
      {
        var peer :| peer in inbound;
        OneHeld(before, peer, f);
        EndTenure(peer);
      }
    }
  }

  lemma NoneHeld(s: State, f: Chan -> Chan)
    ensures s.inbound == map[] ==> Emptied(s, f) == s && AskAll(s.inbound) == []
  {}

  /** With one entry, emptying the slot is ending that one tenure. */
  lemma OneHeld(s: State, p: Addr, f: Chan -> Chan)
    requires Inv(s) && p in s.inbound
    ensures var g := s.inbound[p].generation;
            && g < |s.chans| && s.inbound - {p} == map[]
            && Emptied(s, f) == s.(inbound := map[], chans := s.chans[g := f(s.chans[g])])
            && AskAll(s.inbound) == [Ask(p, s.inbound[p].session)]
  {
    hide Inv;
    OnlyOneEntry(s, p);
    HolderIsNewest(s, p);
    var g := s.inbound[p].generation;
    assert Emptied(s, f).chans == s.chans[g := f(s.chans[g])];
    assert s.inbound == map[p := s.inbound[p]];
  }
}
