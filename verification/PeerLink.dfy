/**
  The `PeerLink` worker (`connection/peer_link.rs`): a map of tracked peers stepped by commands,
  driver events, queued dial results, inbound channels, queued link-gone notices and a clock.
 */
module PeerLink {
  import opened Basics
  import opened LinkState

  type Addr = nat

  /** Who dials a pair: one side always, never, or the side with the lower id. */
  datatype Role = DialOnly | AcceptOnly | Symmetric(localId: nat)

  datatype Config = Config(role: Role, backoff: seq<nat>, giveUpAfter: nat, acceptorDeadline: nat, maxLinks: nat)

  /** `link` holds the generation of the live link, `dialTask` the session of the dial task whose
      abort handle is kept. */
  datatype Peer = Peer(
    central: CentralLink, peripheral: PeripheralLink, dials: bool, tryingSince: Option<nat>, attempts: nat,
    retryAt: Option<nat>, gaveUp: bool, link: Option<nat>, dialTask: Option<nat>)

  /** What the consumer hears about one peer. `Up` names the link's generation. */
  datatype Event = Up(gen: nat) | Down

  /**
    `flying` are the dial tasks whose result may still arrive, `notices` the pumps whose
    link-gone notice may (generation to address), `heard` the Up and Down events per address.
   */
  datatype Worker = Worker(
    clock: nat, radio: RadioState, peers: map<Addr, Peer>, nextLinkGen: nat,
    flying: multiset<(Addr, nat)>, notices: map<nat, Addr>, heard: map<Addr, seq<Event>>)

  function Start(radio: RadioState): Worker {
    Worker(0, radio, map[], 0, multiset{}, map[], map[])
  }

  function Heard(w: Worker, a: Addr): seq<Event> {
    if a in w.heard then w.heard[a] else []
  }

  // ---- One peer -------------------------------------------------------------------

  function DialsPeer(role: Role, peerId: nat): bool {
    match role
    case DialOnly => true
    case AcceptOnly => false
    case Symmetric(localId) => localId < peerId
  }

  function NewPeer(dials: bool, now: nat): Peer {
    Peer(Idle, Absent, dials, if dials then None else Some(now), 0, None, false, None, None)
  }

  function Retried(p: Peer, now: nat): Peer {
    p.(gaveUp := false, attempts := 0, retryAt := None, tryingSince := if p.dials then None else Some(now))
  }

  predicate MayStartDial(p: Peer, now: nat) {
    p.link == None && !p.gaveUp && p.dials && p.central.MayDial() && (p.retryAt.Some? ==> now >= p.retryAt.value)
  }

  function DialBegun(p: Peer, session: nat, now: nat): Peer {
    p.(central := p.central.Apply(DialStarted(session), now).0,
       attempts := p.attempts + 1,
       tryingSince := if p.tryingSince.Some? then p.tryingSince else Some(now),
       dialTask := Some(session))
  }

  function StaleDialCleared(p: Peer): Peer {
    if p.central.Dialing? then p else p.(dialTask := None)
  }

  /** `apply_backoff`. */
  function BackedOff(c: Config, p: Peer, now: nat): Peer {
    var since := if p.tryingSince.Some? then p.tryingSince.value else now;
    var p1 := p.(tryingSince := Some(since));
    if Elapsed(now, since) >= c.giveUpAfter then p1.(gaveUp := true, retryAt := None)
    else if c.backoff == [] then p1.(gaveUp := true)
    else p1.(retryAt := Some(now + c.backoff[Min(Max(p.attempts - 1, 0), |c.backoff| - 1)]))
  }

  /** A dial result that carries this peer's current session. */
  function DialSettled(c: Config, p: Peer, ok: bool, gen: nat, now: nat): (Peer, Option<Event>) {
    if ok then
      var p1 := p.(dialTask := None, central := p.central.Apply(DialSucceeded, now).0);
      if p1.central.Connected? then
        (p1.(attempts := 0, tryingSince := None, retryAt := None, link := Some(gen)), Some(Up(gen)))
      else (p1, None)
    else
      (BackedOff(c, p.(dialTask := None, central := p.central.Apply(DialFailed, now).0), now), None)
  }

  function InboundAccepted(p: Peer, gen: nat, session: nat, now: nat): Peer {
    var accepted := p.peripheral.Apply(CentralConnected(session), now).0;
    p.(peripheral := accepted.Apply(CentralSubscribed, now).0,
       gaveUp := false, tryingSince := None, retryAt := None, link := Some(gen))
  }

  function LinkLost(p: Peer, now: nat): Peer {
    p.(link := None,
       central := p.central.Apply(LinkDropped, now).0,
       peripheral := p.peripheral.Apply(CentralDropped, now).0,
       tryingSince := Some(now), attempts := 0, retryAt := None)
  }

  function RadioLostFor(p: Peer, now: nat): Peer {
    StaleDialCleared(p.(central := p.central.Apply(RadioLost, now).0,
                        peripheral := p.peripheral.Apply(ServerRadioLost, now).0))
    .(link := None, gaveUp := false, attempts := 0, retryAt := None, tryingSince := if p.dials then None else Some(now))
  }

  function RadioBackFor(p: Peer, now: nat): Peer {
    p.(central := p.central.Apply(RadioBack, now).0, peripheral := p.peripheral.Apply(ServerRadioBack, now).0)
  }

  function DriverDropped(p: Peer, now: nat): Peer {
    if p.link.Some? then p else p.(central := p.central.Apply(LinkDropped, now).0)
  }

  function Deadline(c: Config, p: Peer): nat {
    if p.dials then c.giveUpAfter else c.acceptorDeadline
  }

  function Ticked(c: Config, usable: bool, p: Peer, now: nat): Peer {
    var p1 := StaleDialCleared(p.(central := p.central.Apply(Tick, now).0));
    if !usable || p1.link.Some? || p1.gaveUp || p1.tryingSince == None then p1
    else if Elapsed(now, p1.tryingSince.value) >= Deadline(c, p1) then p1.(gaveUp := true, retryAt := None)
    else p1
  }

  // ---- The worker -------------------------------------------------------------------

  datatype Step =
    | Track(peer: Addr, peerId: nat, now: nat)
    | Untrack(peer: Addr)
    | Retry(peer: Addr, now: nat)
    | PumpDials(base: nat, now: nat)
    | DialResult(peer: Addr, session: nat, ok: bool, now: nat)
    | Inbound(peer: Addr, session: nat, now: nat)
    | LinkGone(gen: nat, now: nat)
    | RadioChanged(event: RadioEvent, now: nat)
    | DriverDisconnected(peer: Addr, now: nat)
    | OnTick(now: nat)

  function At(w: Worker, s: Step): nat {
    if s.Untrack? then w.clock else s.now
  }

  predicate Enabled(w: Worker, s: Step) {
    && At(w, s) >= w.clock
    && (s.DialResult? ==> (s.peer, s.session) in w.flying)
    && (s.LinkGone? ==> s.gen in w.notices)
  }

  predicate Committing(p: Peer) {
    p.link.Some? || p.central.Dialing?
  }

  function Committed(peers: map<Addr, Peer>): set<Addr> {
    set a | a in peers && Committing(peers[a])
  }

  /** The next address of `sort_by`. */
  ghost predicate IsLeast(a: Addr, s: set<Addr>) {
    a in s && forall b <- s :: a <= b
  }

  lemma {:induction false} LeastExists(s: set<Addr>)
    requires s != {}
    ensures exists a :: IsLeast(a, s)
    decreases |s|
  {
    var x :| x in s;
    if s - {x} == {} {
      assert s == {x};
      assert IsLeast(x, s);
    } else {
      LeastExists(s - {x});
      var y :| IsLeast(y, s - {x});
      assert forall b <- s :: b == x || b in s - {x};
      assert IsLeast(x, s) || IsLeast(y, s);
    }
  }

  ghost function Least(s: set<Addr>): (a: Addr)
    requires s != {}
    ensures IsLeast(a, s)
  {
    LeastExists(s);
    var a :| IsLeast(a, s);
    a
  }

  function Dialed(w: Worker, a: Addr, session: nat, now: nat): Worker
    requires a in w.peers
  {
    w.(peers := w.peers[a := DialBegun(w.peers[a], session, now)], flying := w.flying + multiset{(a, session)})
  }

  /** The session counter is 64 bits wide and wraps. */
  function NextSession(session: nat): nat {
    (session + 1) % 0x1_0000_0000_0000_0000
  }

  /** The candidates in `rest`, in address order, dial while the budget lasts. */
  ghost function Pumped(w: Worker, rest: set<Addr>, budget: nat, session: nat, now: nat): Worker
    decreases |rest|
  {
    if rest == {} then w
    else
      var a := Least(rest);
      if a !in w.peers || !MayStartDial(w.peers[a], now) || budget == 0 then
        Pumped(w, rest - {a}, budget, session, now)
      else
        Pumped(Dialed(w, a, NextSession(session), now), rest - {a}, budget - 1, NextSession(session), now)
  }

  ghost function OnPump(c: Config, w: Worker, base: nat, now: nat): Worker {
    if !w.radio.Usable() then w
    else Pumped(w, w.peers.Keys, Max(c.maxLinks - |Committed(w.peers)|, 0), base, now)
  }

  function Said(w: Worker, a: Addr, e: Event): Worker {
    w.(heard := w.heard[a := Heard(w, a) + [e]])
  }

  /** A link of the next generation is installed for `a`, whose record becomes `p`. */
  function Installed(w: Worker, a: Addr, p: Peer): Worker {
    var gen := w.nextLinkGen + 1;
    Said(w.(peers := w.peers[a := p], nextLinkGen := gen, notices := w.notices[gen := a]), a, Up(gen))
  }

  function OnTrack(c: Config, w: Worker, a: Addr, peerId: nat, now: nat): Worker {
    if a in w.peers then w else w.(peers := w.peers[a := NewPeer(DialsPeer(c.role, peerId), now)])
  }

  function OnUntrack(w: Worker, a: Addr): Worker {
    if a !in w.peers then w
    else
      var w1 := w.(peers := w.peers - {a});
      if w.peers[a].link.Some? then Said(w1, a, Down) else w1
  }

  function OnRetry(w: Worker, a: Addr, now: nat): Worker {
    if a !in w.peers then w else w.(peers := w.peers[a := Retried(w.peers[a], now)])
  }

  function OnDialResult(c: Config, w: Worker, a: Addr, session: nat, ok: bool, now: nat): Worker {
    var w1 := w.(flying := w.flying - multiset{(a, session)});
    if a !in w.peers || w.peers[a].central.Session() != Some(session) then w1
    else
      var (p, up) := DialSettled(c, w.peers[a], ok, w.nextLinkGen + 1, now);
      if up.Some? then Installed(w1, a, p) else w1.(peers := w.peers[a := p])
  }

  predicate Refused(c: Config, w: Worker, a: Addr) {
    || a !in w.peers || w.peers[a].dials || w.peers[a].link.Some?
    || |Committed(w.peers)| >= c.maxLinks || !w.radio.Usable()
  }

  function OnInbound(c: Config, w: Worker, a: Addr, session: nat, now: nat): Worker {
    if Refused(c, w, a) then w
    else Installed(w, a, InboundAccepted(w.peers[a], w.nextLinkGen + 1, session, now))
  }

  function OnLinkGone(w: Worker, gen: nat, now: nat): Worker
    requires gen in w.notices
  {
    var a := w.notices[gen];
    var w1 := w.(notices := w.notices - {gen});
    if a !in w.peers || w.peers[a].link != Some(gen) then w1
    else Said(w1.(peers := w.peers[a := LinkLost(w.peers[a], now)]), a, Down)
  }

  /** What was heard, with one more Down for each address in `done` that had a link. */
  ghost function DownHeard(w: Worker, done: set<Addr>): map<Addr, seq<Event>> {
    var ended := set a | a in done && a in w.peers && w.peers[a].link.Some?;
    map a | a in w.heard.Keys + ended :: if a in ended then Heard(w, a) + [Down] else Heard(w, a)
  }

  /** Every link ends: the consumer hears Down for each peer that had one. */
  ghost function AllDown(w: Worker, now: nat): Worker {
    w.(peers := map a | a in w.peers :: RadioLostFor(w.peers[a], now), heard := DownHeard(w, w.peers.Keys))
  }

  ghost function AllBack(w: Worker, now: nat): Worker {
    w.(peers := map a | a in w.peers :: RadioBackFor(w.peers[a], now))
  }

  ghost function OnRadio(w: Worker, e: RadioEvent, now: nat): Worker {
    var (radio, invalidate) := w.radio.Apply(e);
    var w1 := w.(radio := radio);
    var w2 := if invalidate then AllDown(w1, now) else w1;
    if radio.Usable() then AllBack(w2, now) else w2
  }

  function OnDriverDisconnected(w: Worker, a: Addr, now: nat): Worker {
    if a in w.peers then w.(peers := w.peers[a := DriverDropped(w.peers[a], now)]) else w
  }

  ghost function AllTicked(c: Config, w: Worker, now: nat): Worker {
    w.(peers := map a | a in w.peers :: Ticked(c, w.radio.Usable(), w.peers[a], now))
  }

  ghost function Effect(c: Config, w: Worker, s: Step): Worker
    requires Enabled(w, s)
  {
    match s
    case Track(a, peerId, now) => OnTrack(c, w, a, peerId, now)
    case Untrack(a) => OnUntrack(w, a)
    case Retry(a, now) => OnRetry(w, a, now)
    case PumpDials(base, now) => OnPump(c, w, base, now)
    case DialResult(a, session, ok, now) => OnDialResult(c, w, a, session, ok, now)
    case Inbound(a, session, now) => OnInbound(c, w, a, session, now)
    case LinkGone(gen, now) => OnLinkGone(w, gen, now)
    case RadioChanged(e, now) => OnRadio(w, e, now)
    case DriverDisconnected(a, now) => OnDriverDisconnected(w, a, now)
    case OnTick(now) => AllTicked(c, w, now)
  }

  ghost function Apply(c: Config, w: Worker, s: Step): Worker
    requires Enabled(w, s)
  {
    Effect(c, w, s).(clock := At(w, s))
  }

  ghost predicate ValidRun(c: Config, w: Worker, steps: seq<Step>)
    decreases |steps|
  {
    steps == [] || (Enabled(w, steps[0]) && ValidRun(c, Apply(c, w, steps[0]), steps[1..]))
  }

  ghost function After(c: Config, w: Worker, steps: seq<Step>): Worker
    requires ValidRun(c, w, steps)
    decreases |steps|
  {
    if steps == [] then w else After(c, Apply(c, w, steps[0]), steps[1..])
  }

  // ---- The worker, in place ---------------------------------------------------------------

  class PeerLinkWorker {
    const config: Config
    var clock: nat
    var radio: RadioState
    var peers: map<Addr, Peer>
    var nextLinkGen: nat
    var flying: multiset<(Addr, nat)>
    var notices: map<nat, Addr>
    var heard: map<Addr, seq<Event>>

    ghost function View(): Worker
      reads this
    {
      Worker(clock, radio, peers, nextLinkGen, flying, notices, heard)
    }

    constructor (config: Config, radio: RadioState)
      ensures this.config == config && View() == Start(radio)
    {
      this.config := config;
      this.radio := radio;
      clock, peers, nextLinkGen, flying, notices, heard := 0, map[], 0, multiset{}, map[], map[];
    }

    method Emit(a: Addr, e: Event)
      modifies this`heard
      ensures View() == Said(old(View()), a, e)
    {
      var before := if a in heard then heard[a] else [];
      heard := heard[a := before + [e]];
    }

    method AllocLinkGen() returns (gen: nat)
      modifies this`nextLinkGen
      ensures gen == nextLinkGen == old(nextLinkGen) + 1
    {
      nextLinkGen := nextLinkGen + 1;
      gen := nextLinkGen;
    }

    /** The tail of both ways to a link: the pump starts and the consumer hears Up. */
    method Install(a: Addr, p: Peer)
      modifies this`peers, this`nextLinkGen, this`notices, this`heard
      ensures View() == Installed(old(View()), a, p.(link := Some(old(nextLinkGen) + 1)))
    {
      var gen := AllocLinkGen();
      peers := peers[a := p.(link := Some(gen))];
      notices := notices[gen := a];
      Emit(a, Up(gen));
    }

    method Track(a: Addr, peerId: nat, now: nat)
      requires Enabled(View(), Step.Track(a, peerId, now))
      modifies this
      ensures View() == Apply(config, old(View()), Step.Track(a, peerId, now))
    {
      if a !in peers {
        peers := peers[a := NewPeer(DialsPeer(config.role, peerId), now)];
      }
      clock := now;
    }

    method Untrack(a: Addr)
      modifies this
      ensures View() == Apply(config, old(View()), Step.Untrack(a))
    {
      if a in peers {
        var hadLink := peers[a].link.Some?;
        peers := peers - {a};
        if hadLink {
          Emit(a, Down);
        }
      }
    }

    method Retry(a: Addr, now: nat)
      requires Enabled(View(), Step.Retry(a, now))
      modifies this
      ensures View() == Apply(config, old(View()), Step.Retry(a, now))
    {
      if a in peers {
        var p := peers[a];
        p := p.(gaveUp := false, attempts := 0, retryAt := None);
        p := p.(tryingSince := if p.dials then None else Some(now));
        peers := peers[a := p];
      }
      clock := now;
    }

    method FindLeast(s: set<Addr>) returns (a: Addr)
      requires s != {}
      ensures a == Least(s)
    {
      a :| a in s;
      var rest := s - {a};
      while rest != {}
        invariant a in s && rest <= s
        invariant forall b | b in s && b !in rest :: a <= b
        decreases |rest|
      {
        var b :| b in rest;
        rest := rest - {b};
        if b < a {
          a := b;
        }
      }
      assert IsLeast(a, s);
    }

    method CountCommitted() returns (n: nat)
      ensures n == |Committed(peers)|
    {
      n := |Committed(peers)|;
    }

    method StartDial(a: Addr, session: nat, now: nat)
      requires a in peers
      modifies this`peers, this`flying
      ensures View() == Dialed(old(View()), a, session, now)
    {
      var p := peers[a];
      p := p.(central := p.central.Apply(DialStarted(session), now).0, attempts := p.attempts + 1);
      if p.tryingSince == None {
        p := p.(tryingSince := Some(now));
      }
      peers := peers[a := p.(dialTask := Some(session))];
      flying := flying + multiset{(a, session)};
    }

    /** Starts dials for the candidates in address order while the budget lasts. */
    method PumpDials(base: nat, now: nat)
      requires Enabled(View(), Step.PumpDials(base, now))
      modifies this
      ensures View() == Apply(config, old(View()), Step.PumpDials(base, now))
    {
      hide Dialed, DialBegun;
      if radio.Usable() {
        var committed := CountCommitted();
        var budget: nat := Max(config.maxLinks - committed, 0);
        var rest := peers.Keys;
        var session := base;
        ghost var target := OnPump(config, View(), base, now);
        while rest != {}
          invariant clock == old(clock)
          invariant Pumped(View(), rest, budget, session, now) == target
          decreases |rest|
        {
          var a := FindLeast(rest);
          rest := rest - {a};
          if a in peers && MayStartDial(peers[a], now) && budget > 0 {
            budget := budget - 1;
            session := NextSession(session);
            StartDial(a, session, now);
          }
        }
      }
      clock := now;
    }

    /** A result whose session is not the peer's current one is dropped. */
    method HandleDialResult(a: Addr, session: nat, ok: bool, now: nat)
      requires Enabled(View(), DialResult(a, session, ok, now))
      modifies this
      ensures View() == Apply(config, old(View()), DialResult(a, session, ok, now))
    {
      hide DialSettled, Installed, CentralLink.Session;
      flying := flying - multiset{(a, session)};
      if a in peers && peers[a].central.Session() == Some(session) {
        SettleDial(a, ok, now);
      }
      assert View() == OnDialResult(config, old(View()), a, session, ok, now);
      clock := now;
    }

    method SettleDial(a: Addr, ok: bool, now: nat)
      requires a in peers
      modifies this`peers, this`nextLinkGen, this`notices, this`heard
      ensures var (p, up) := DialSettled(config, old(peers[a]), ok, old(nextLinkGen) + 1, now);
              View() == if up.Some? then Installed(old(View()), a, p) else old(View()).(peers := old(peers)[a := p])
    {
      hide BackedOff, Installed, CentralLink.Apply;
      var p := peers[a].(dialTask := None);
      if ok {
        p := p.(central := p.central.Apply(DialSucceeded, now).0);
        if p.central.Connected? {
          Install(a, p.(attempts := 0, tryingSince := None, retryAt := None));
        } else {
          peers := peers[a := p];
        }
      } else {
        p := p.(central := p.central.Apply(DialFailed, now).0);
        peers := peers[a := BackedOff(config, p, now)];
      }
    }

    method HandleInbound(a: Addr, session: nat, now: nat)
      requires Enabled(View(), Inbound(a, session, now))
      modifies this
      ensures View() == Apply(config, old(View()), Inbound(a, session, now))
    {
      var committed := CountCommitted();
      if a in peers && !peers[a].dials && peers[a].link == None && committed < config.maxLinks && radio.Usable() {
        var p := peers[a];
        p := p.(peripheral := p.peripheral.Apply(CentralConnected(session), now).0);
        p := p.(peripheral := p.peripheral.Apply(CentralSubscribed, now).0);
        Install(a, p.(gaveUp := false, tryingSince := None, retryAt := None));
      }
      clock := now;
    }

    method HandleLinkGone(gen: nat, now: nat)
      requires Enabled(View(), LinkGone(gen, now))
      modifies this
      ensures View() == Apply(config, old(View()), LinkGone(gen, now))
    {
      var a := notices[gen];
      notices := notices - {gen};
      if a in peers && peers[a].link == Some(gen) {
        var p := peers[a].(link := None);
        p := p.(central := p.central.Apply(LinkDropped, now).0);
        p := p.(peripheral := p.peripheral.Apply(CentralDropped, now).0);
        peers := peers[a := p.(tryingSince := Some(now), attempts := 0, retryAt := None)];
        Emit(a, Down);
      }
      clock := now;
    }

    method HandleDriverDisconnected(a: Addr, now: nat)
      requires Enabled(View(), DriverDisconnected(a, now))
      modifies this
      ensures View() == Apply(config, old(View()), DriverDisconnected(a, now))
    {
      if a in peers && peers[a].link == None {
        peers := peers[a := peers[a].(central := peers[a].central.Apply(LinkDropped, now).0)];
      }
      clock := now;
    }

    method HandleTick(now: nat)
      requires Enabled(View(), OnTick(now))
      modifies this
      ensures View() == Apply(config, old(View()), OnTick(now))
    {
      hide Ticked;
      ghost var was := peers;
      var rest := peers.Keys;
      while rest != {}
        invariant rest <= peers.Keys == was.Keys
        invariant forall a <- was :: peers[a] == if a in rest then was[a] else Ticked(config, radio.Usable(), was[a], now)
        invariant View() == old(View()).(peers := peers)
        decreases |rest|
      {
        var a :| a in rest;
        rest := rest - {a};
        peers := peers[a := Ticked(config, radio.Usable(), peers[a], now)];
      }
      assert peers == AllTicked(config, old(View()), now).peers;
      clock := now;
    }

    /** The radio table decides whether all links end; whenever the radio is usable afterwards
        every machine is told it is back. */
    method HandleRadioChanged(e: RadioEvent, now: nat)
      requires Enabled(View(), RadioChanged(e, now))
      modifies this
      ensures View() == Apply(config, old(View()), RadioChanged(e, now))
    {
      var (next, invalidate) := radio.Apply(e);
      radio := next;
      if invalidate {
        EndAll(now);
      }
      if radio.Usable() {
        RecoverAll(now);
      }
      clock := now;
    }

    method EndAll(now: nat)
      modifies this`peers, this`heard
      ensures View() == AllDown(old(View()), now)
    {
      hide PartDown, AllDown, EndedOne;
      ghost var before, done := View(), {};
      var rest := peers.Keys;
      PartDownEnds(before, now);
      while rest != {}
        invariant done + rest == before.peers.Keys && done !! rest
        invariant View() == PartDown(before, done, now)
        decreases |rest|
      {
        var a :| a in rest;
        PartDownStep(before, done, a, now);
        rest := rest - {a};
        done := done + {a};
        EndOne(a, now);
      }
      assert done == before.peers.Keys;
    }

    method EndOne(a: Addr, now: nat)
      requires a in peers
      modifies this`peers, this`heard
      ensures View() == EndedOne(old(View()), a, now)
    {
      hide RadioLostFor;
      var hadLink := peers[a].link.Some?;
      peers := peers[a := RadioLostFor(peers[a], now)];
      if hadLink {
        Emit(a, Down);
      }
    }

    method RecoverAll(now: nat)
      modifies this`peers
      ensures peers == AllBack(old(View()), now).peers
    {
      hide RadioBackFor;
      ghost var was := peers;
      var rest := peers.Keys;
      while rest != {}
        invariant rest <= peers.Keys == was.Keys
        invariant forall a <- was :: peers[a] == if a in rest then was[a] else RadioBackFor(was[a], now)
        decreases |rest|
      {
        var a :| a in rest;
        rest := rest - {a};
        peers := peers[a := RadioBackFor(peers[a], now)];
      }
    }
  }

  /** The peers in `done` have been told of the radio loss. */
  ghost function PartDown(w: Worker, done: set<Addr>, now: nat): Worker {
    w.(peers := map a | a in w.peers :: if a in done then RadioLostFor(w.peers[a], now) else w.peers[a],
       heard := DownHeard(w, done))
  }

  ghost function EndedOne(w: Worker, a: Addr, now: nat): Worker
    requires a in w.peers
  {
    var w1 := w.(peers := w.peers[a := RadioLostFor(w.peers[a], now)]);
    if w.peers[a].link.Some? then Said(w1, a, Down) else w1
  }

  lemma PartDownEnds(w: Worker, now: nat)
    ensures PartDown(w, {}, now) == w
    ensures PartDown(w, w.peers.Keys, now) == AllDown(w, now)
  {}

  lemma PartDownStep(w: Worker, done: set<Addr>, a: Addr, now: nat)
    requires a !in done && a in w.peers
    ensures a in PartDown(w, done, now).peers
    ensures PartDown(w, done + {a}, now) == EndedOne(PartDown(w, done, now), a, now)
  {
    hide RadioLostFor;
    assert PartDown(w, done + {a}, now).peers == EndedOne(PartDown(w, done, now), a, now).peers;
    assert PartDown(w, done + {a}, now).heard == EndedOne(PartDown(w, done, now), a, now).heard;
  }
}
