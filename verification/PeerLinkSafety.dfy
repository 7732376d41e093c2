/**
  What every reachable state of the `PeerLink` worker satisfies: each peer's machines agree with
  its link and its dial, and the link cap holds.
 */
module PeerLinkSafety {
  import opened Basics
  import opened LinkState
  import opened PeerLink

  // ---- One peer's machines --------------------------------------------------------

  /** A link is held exactly while the peer's own machine says connected, a dial task is kept
      exactly while it says dialing, and both follow the radio. */
  ghost predicate Coupled(usable: bool, p: Peer) {
    && (p.link.Some? <==> p.central.Connected? || p.peripheral.Serving?)
    && (p.dialTask.Some? <==> p.central.Dialing?)
    && !p.central.Disconnecting? && !p.central.Draining? && !p.peripheral.Accepted? && !p.peripheral.Dropping?
    && (if p.dials then !p.peripheral.Serving? else !p.central.Connected? && !p.central.Dialing?)
    && (if usable then !p.central.RadioOff? && !p.peripheral.ServerOff? else p.link == None && !p.central.Dialing?)
  }

  ghost predicate AllCoupled(w: Worker) {
    forall a <- w.peers :: Coupled(w.radio.Usable(), w.peers[a])
  }

  ghost predicate WithinCap(c: Config, w: Worker) {
    |Committed(w.peers)| <= c.maxLinks
  }

  /** Replacing one peer's record changes the committed set by that peer at most. */
  lemma CommittedUpdate(peers: map<Addr, Peer>, a: Addr, p: Peer)
    ensures Committed(peers[a := p]) == Committed(peers) - {a} + (if Committing(p) then {a} else {})
    ensures !Committing(p) || (a in peers && Committing(peers[a])) ==> |Committed(peers[a := p])| <= |Committed(peers)|
    ensures |Committed(peers[a := p])| <= |Committed(peers)| + 1
  {
    hide Committing;
    ReplaceOne(Committed(peers), Committed(peers[a := p]), a, Committing(p));
  }

  lemma ReplaceOne(before: set<Addr>, after: set<Addr>, a: Addr, stays: bool)
    requires after == before - {a} + (if stays then {a} else {})
    ensures !stays || a in before ==> |after| <= |before|
    ensures |after| <= |before| + 1
  {}

  lemma CommittedShrinks(peers: map<Addr, Peer>, peers': map<Addr, Peer>)
    requires Committed(peers') <= Committed(peers)
    ensures |Committed(peers')| <= |Committed(peers)|
  {
    SubsetSize(Committed(peers'), Committed(peers));
  }

  // ---- The pump -----------------------------------------------------------------------

  /** All the pump may do to one address: nothing, or begin one dial whose result is then flying. */
  ghost predicate PumpedOne(w: Worker, w': Worker, a: Addr, now: nat) {
    || ((a in w'.peers <==> a in w.peers) && (a in w.peers ==> w'.peers[a] == w.peers[a])
        && forall k :: w'.flying[(a, k)] == w.flying[(a, k)])
    || (exists s :: BeganOne(w, w', a, s, now))
  }

  ghost predicate BeganOne(w: Worker, w': Worker, a: Addr, s: nat, now: nat) {
    && a in w.peers && a in w'.peers && MayStartDial(w.peers[a], now) && w'.peers[a] == DialBegun(w.peers[a], s, now)
    && forall k :: w'.flying[(a, k)] == w.flying[(a, k)] + if k == s then 1 else 0
  }

  lemma {:induction false} PumpEffect(w: Worker, rest: set<Addr>, budget: nat, session: nat, now: nat)
    ensures var w' := Pumped(w, rest, budget, session, now);
            && w'.(peers := w.peers, flying := w.flying) == w
            && w'.peers.Keys == w.peers.Keys
            && |Committed(w'.peers)| <= |Committed(w.peers)| + budget
            && (forall a :: PumpedOne(w, w', a, now))
            && (forall a | a !in rest && a in w.peers :: w'.peers[a] == w.peers[a])
            && (forall a, k | a !in rest :: w'.flying[(a, k)] == w.flying[(a, k)])
    decreases |rest|
  {
    hide DialBegun, MayStartDial, Committing, Committed;
    if rest != {} {
      var a := Least(rest);
      if a !in w.peers || !MayStartDial(w.peers[a], now) || budget == 0 {
        PumpEffect(w, rest - {a}, budget, session, now);
      } else {
        var s := NextSession(session);
        var w1 := Dialed(w, a, s, now);
        CommittedUpdate(w.peers, a, w1.peers[a]);
        PumpEffect(w1, rest - {a}, budget - 1, s, now);
        var w' := Pumped(w1, rest - {a}, budget - 1, s, now);
        assert BeganOne(w, w', a, s, now);
        forall b | b != a
          ensures PumpedOne(w, w', b, now)
        {
          assert PumpedOne(w1, w', b, now);
          PumpedBefore(w, w1, w', b, now);
        }
      }
    }
  }

  lemma PumpedBefore(w: Worker, w1: Worker, w': Worker, b: Addr, now: nat)
    requires PumpedOne(w1, w', b, now)
    requires (b in w1.peers <==> b in w.peers) && (b in w.peers ==> w1.peers[b] == w.peers[b])
    requires forall k :: w1.flying[(b, k)] == w.flying[(b, k)]
    ensures PumpedOne(w, w', b, now)
  {
    hide DialBegun, MayStartDial;
    if s :| BeganOne(w1, w', b, s, now) {
      assert BeganOne(w, w', b, s, now);
    }
  }

  /** The whole step, when the radio is usable. */
  lemma PumpStepEffect(c: Config, w: Worker, base: nat, now: nat)
    ensures var w' := OnPump(c, w, base, now);
            && w'.(peers := w.peers, flying := w.flying) == w
            && w'.peers.Keys == w.peers.Keys
            && (|Committed(w.peers)| <= c.maxLinks ==> |Committed(w'.peers)| <= c.maxLinks)
            && (forall a :: PumpedOne(w, w', a, now))
            && (!w.radio.Usable() ==> w' == w)
  {
    hide DialBegun, MayStartDial, Committed;
    PumpEffect(w, w.peers.Keys, Max(c.maxLinks - |Committed(w.peers)|, 0), base, now);
  }

  lemma PumpKeepsSafe(c: Config, w: Worker, base: nat, now: nat)
    requires Safe(c, w)
    ensures Safe(c, OnPump(c, w, base, now))
  {
    hide Committed, OnPump;
    var w' := OnPump(c, w, base, now);
    PumpStepEffect(c, w, base, now);
    forall a | a in w'.peers && w.radio.Usable()
      ensures Coupled(true, w'.peers[a])
    {
      assert PumpedOne(w, w', a, now) && Coupled(true, w.peers[a]);
    }
  }

  // ---- Every step -----------------------------------------------------------------------

  ghost predicate Safe(c: Config, w: Worker) {
    AllCoupled(w) && WithinCap(c, w)
  }

  /** A step that gives one tracked peer a new record. */
  lemma OneKeepsSafe(c: Config, w: Worker, w': Worker, a: Addr, p: Peer)
    requires Safe(c, w) && w'.peers == w.peers[a := p] && w'.radio == w.radio
    requires Coupled(w.radio.Usable(), p)
    requires !Committing(p) || (a in w.peers && Committing(w.peers[a])) || |Committed(w.peers)| < c.maxLinks
    ensures Safe(c, w')
  {
    hide Coupled, Committing;
    CommittedUpdate(w.peers, a, p);
  }

  lemma SettledStaysCoupled(c: Config, usable: bool, p: Peer, ok: bool, gen: nat, now: nat)
    requires Coupled(usable, p) && p.central.Session().Some?
    ensures var (p', _) := DialSettled(c, p, ok, gen, now);
            Coupled(usable, p') && Committing(p) && p'.dials == p.dials
  {}

  /** What a change of the radio does to one peer. */
  function RadioFor(r: RadioState, e: RadioEvent, p: Peer, now: nat): Peer {
    var (r', invalidate) := r.Apply(e);
    var p1 := if invalidate then RadioLostFor(p, now) else p;
    if r'.Usable() then RadioBackFor(p1, now) else p1
  }

  lemma RadioStaysCoupled(r: RadioState, e: RadioEvent, p: Peer, now: nat)
    requires Coupled(r.Usable(), p)
    ensures Coupled(r.Apply(e).0.Usable(), RadioFor(r, e, p, now))
    ensures Committing(RadioFor(r, e, p, now)) ==> Committing(p)
  {}

  lemma RadioPeers(w: Worker, e: RadioEvent, now: nat)
    ensures OnRadio(w, e, now).radio == w.radio.Apply(e).0
    ensures OnRadio(w, e, now).peers == map a | a in w.peers :: RadioFor(w.radio, e, w.peers[a], now)
  {
    hide RadioLostFor, RadioBackFor, RadioState.Apply;
  }

  lemma DialResultKeepsSafe(c: Config, w: Worker, a: Addr, session: nat, ok: bool, now: nat)
    requires Safe(c, w)
    ensures Safe(c, OnDialResult(c, w, a, session, ok, now))
  {
    if a in w.peers && w.peers[a].central.Session() == Some(session) {
      hide DialSettled, Coupled, Committing, Committed, CentralLink.Session;
      var (p, up) := DialSettled(c, w.peers[a], ok, w.nextLinkGen + 1, now);
      SettledStaysCoupled(c, w.radio.Usable(), w.peers[a], ok, w.nextLinkGen + 1, now);
      OneKeepsSafe(c, w, OnDialResult(c, w, a, session, ok, now), a, p);
    }
  }

  lemma RadioKeepsSafe(c: Config, w: Worker, e: RadioEvent, now: nat)
    requires Safe(c, w)
    ensures Safe(c, OnRadio(w, e, now))
  {
    hide OnRadio, RadioFor, Coupled, Committing;
    var w' := OnRadio(w, e, now);
    RadioPeers(w, e, now);
    forall a | a in w'.peers
      ensures Coupled(w'.radio.Usable(), w'.peers[a])
      ensures Committing(w'.peers[a]) ==> a in w.peers && Committing(w.peers[a])
    {
      RadioStaysCoupled(w.radio, e, w.peers[a], now);
    }
    assert Committed(w'.peers) <= Committed(w.peers);
    CommittedShrinks(w.peers, w'.peers);
  }

  lemma TickStaysCoupled(c: Config, usable: bool, p: Peer, now: nat)
    requires Coupled(usable, p)
    ensures Coupled(usable, Ticked(c, usable, p, now))
    ensures Committing(Ticked(c, usable, p, now)) ==> Committing(p)
  {}

  lemma TickKeepsSafe(c: Config, w: Worker, now: nat)
    requires Safe(c, w)
    ensures Safe(c, AllTicked(c, w, now))
  {
    hide Ticked, Coupled, Committing;
    var w' := AllTicked(c, w, now);
    forall a | a in w'.peers
      ensures Coupled(w.radio.Usable(), w'.peers[a])
      ensures Committing(w'.peers[a]) ==> a in w.peers && Committing(w.peers[a])
    {
      TickStaysCoupled(c, w.radio.Usable(), w.peers[a], now);
    }
    assert Committed(w'.peers) <= Committed(w.peers);
    CommittedShrinks(w.peers, w'.peers);
  }

  lemma StepKeepsSafe(c: Config, w: Worker, s: Step)
    requires Safe(c, w) && Enabled(w, s)
    ensures Safe(c, Apply(c, w, s))
  {
    match s {
      case PumpDials(base, now) => PumpKeepsSafe(c, w, base, now);
      case DialResult(a, session, ok, now) => DialResultKeepsSafe(c, w, a, session, ok, now);
      case RadioChanged(e, now) => RadioKeepsSafe(c, w, e, now);
      case OnTick(now) => TickKeepsSafe(c, w, now);
      case _ => SmallStepKeepsSafe(c, w, s);
    }
  }

  lemma SmallStepKeepsSafe(c: Config, w: Worker, s: Step)
    requires Safe(c, w) && Enabled(w, s)
    requires s.Track? || s.Untrack? || s.Retry? || s.Inbound? || s.LinkGone? || s.DriverDisconnected?
    ensures Safe(c, Effect(c, w, s))
  {
    var w' := Effect(c, w, s);
    match s {
      case Track(a, peerId, now) =>
        if a !in w.peers {
          OneKeepsSafe(c, w, w', a, w'.peers[a]);
        }
      case Untrack(a) =>
        CommittedShrinks(w.peers, w'.peers);
      case Retry(a, now) =>
        if a in w.peers {
          OneKeepsSafe(c, w, w', a, w'.peers[a]);
        }
      case Inbound(a, session, now) =>
        if !Refused(c, w, a) {
          OneKeepsSafe(c, w, w', a, w'.peers[a]);
        }
      case LinkGone(gen, now) =>
        var a := w.notices[gen];
        if a in w.peers && w.peers[a].link == Some(gen) {
          OneKeepsSafe(c, w, w', a, w'.peers[a]);
        }
      case DriverDisconnected(a, now) =>
        if a in w.peers {
          OneKeepsSafe(c, w, w', a, w'.peers[a]);
        }
    }
  }

  lemma {:induction false} RunKeepsSafe(c: Config, w: Worker, steps: seq<Step>)
    requires Safe(c, w) && ValidRun(c, w, steps)
    ensures Safe(c, After(c, w, steps))
    decreases |steps|
  {
    hide Safe, Apply;
    if steps != [] {
      StepKeepsSafe(c, w, steps[0]);
      RunKeepsSafe(c, Apply(c, w, steps[0]), steps[1..]);
    }
  }

  /** In every reachable state, whatever arrives late and in whatever order: links and dials in
      flight together never exceed the cap, and every peer's machines agree with its link, its
      dial task and the radio. */
  lemma CouplingInEveryState(c: Config, radio: RadioState, steps: seq<Step>)
    requires ValidRun(c, Start(radio), steps)
    ensures var w := After(c, Start(radio), steps);
            && |Committed(w.peers)| <= c.maxLinks
            && forall a <- w.peers :: Coupled(w.radio.Usable(), w.peers[a])
  {
    assert Committed(Start(radio).peers) == {};
    RunKeepsSafe(c, Start(radio), steps);
  }
}
