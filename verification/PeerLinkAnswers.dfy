/**
  What a consumer of `PeerLink` can count on: which peers the pump dials, what revives a peer that
  gave up, and exactly when a link comes and goes, a dial ends and a peer gives up.
 */
module PeerLinkAnswers {
  import opened Basics
  import opened LinkState
  import opened PeerLink
  import opened PeerLinkSafety
  import opened PeerLinkEvents
  import opened RedialBound

  lemma StartIsSafe(c: Config, radio: RadioState)
    ensures Safe(c, Start(radio)) && GensOk(Start(radio))
  {
    assert Committed(Start(radio).peers) == {};
  }

  lemma Reachable(c: Config, radio: RadioState, steps: seq<Step>)
    requires ValidRun(c, Start(radio), steps)
    ensures Safe(c, After(c, Start(radio), steps)) && GensOk(After(c, Start(radio), steps))
  {
    hide ValidRun, After, Safe, GensOk;
    StartIsSafe(c, radio);
    RunKeepsSafe(c, Start(radio), steps);
    RunKeepsGens(c, Start(radio), steps);
  }

  // ---- Whom the pump dials --------------------------------------------------------------

  /** The peers in `rest` whose dial may start now. */
  ghost function Eligible(w: Worker, rest: set<Addr>, now: nat): set<Addr> {
    set a | a in rest && a in w.peers && MayStartDial(w.peers[a], now)
  }

  /** Those of them that are being dialled afterwards. */
  ghost function Started(w: Worker, rest: set<Addr>, now: nat, w': Worker): set<Addr> {
    set a | a in Eligible(w, rest, now) && IsDialing(w', a)
  }

  ghost predicate StartedFirst(started: set<Addr>, eligible: set<Addr>) {
    forall a, b | a in started && b in eligible - started :: a < b
  }

  ghost predicate InOrder(w: Worker, rest: set<Addr>, budget: nat, now: nat, w': Worker) {
    |Started(w, rest, now, w')| == Min(budget, |Eligible(w, rest, now)|)
    && StartedFirst(Started(w, rest, now, w'), Eligible(w, rest, now))
  }

  lemma {:induction false} PumpStartsInOrder(w: Worker, rest: set<Addr>, budget: nat, session: nat, now: nat)
    ensures InOrder(w, rest, budget, now, Pumped(w, rest, budget, session, now))
    decreases |rest|
  {
    hide DialBegun, MayStartDial, InOrder;
    var w' := Pumped(w, rest, budget, session, now);
    if rest == {} || budget == 0 {
      if rest == {} {
        EmptyInOrder(w, budget, now, w);
      } else {
        NothingStarts(w, rest, session, now);
        NoneInOrder(w, rest, now);
      }
    } else {
      var a := Least(rest);
      if a !in w.peers || !MayStartDial(w.peers[a], now) {
        PumpStartsInOrder(w, rest - {a}, budget, session, now);
        SkippedInOrder(w, rest, budget, now, a, w');
      } else {
        var s := NextSession(session);
        PumpStartsInOrder(Dialed(w, a, s, now), rest - {a}, budget - 1, s, now);
        PumpEffect(Dialed(w, a, s, now), rest - {a}, budget - 1, s, now);
        StartedInOrder(w, rest, budget, s, now, a, w');
      }
    }
  }

  lemma NoneInOrder(w: Worker, rest: set<Addr>, now: nat)
    ensures InOrder(w, rest, 0, now, w)
  {
    assert Started(w, rest, now, w) == {};
  }

  lemma EmptyInOrder(w: Worker, budget: nat, now: nat, w': Worker)
    ensures InOrder(w, {}, budget, now, w')
  {
    assert Eligible(w, {}, now) == {} && Started(w, {}, now, w') == {};
  }

  lemma SkippedInOrder(w: Worker, rest: set<Addr>, budget: nat, now: nat, a: Addr, w': Worker)
    requires InOrder(w, rest - {a}, budget, now, w') && (a !in w.peers || !MayStartDial(w.peers[a], now))
    ensures InOrder(w, rest, budget, now, w')
  {
    hide MayStartDial;
    assert Eligible(w, rest, now) == Eligible(w, rest - {a}, now);
    assert Started(w, rest, now, w') == Started(w, rest - {a}, now, w');
  }

  lemma StartedInOrder(w: Worker, rest: set<Addr>, budget: nat, s: nat, now: nat, a: Addr, w': Worker)
    requires IsLeast(a, rest) && a in w.peers && MayStartDial(w.peers[a], now) && budget > 0
    requires InOrder(Dialed(w, a, s, now), rest - {a}, budget - 1, now, w')
    requires a in w'.peers && w'.peers[a] == DialBegun(w.peers[a], s, now)
    ensures InOrder(w, rest, budget, now, w')
  {
    hide MayStartDial, DialBegun;
    var w1 := Dialed(w, a, s, now);
    BegunIsDialing(w.peers[a], s, now);
    EligibleLater(w, w1, rest, a, now);
    OneMoreFirst(a, Started(w1, rest - {a}, now, w'), Eligible(w1, rest - {a}, now), budget - 1);
    assert Started(w, rest, now, w') == Started(w1, rest - {a}, now, w') + {a};
  }

  lemma OneMoreFirst(a: Addr, started: set<Addr>, eligible: set<Addr>, budget: nat)
    requires started <= eligible && |started| == Min(budget, |eligible|) && StartedFirst(started, eligible)
    requires a !in eligible && forall b <- eligible :: a < b
    ensures |started + {a}| == Min(budget + 1, |eligible + {a}|) && StartedFirst(started + {a}, eligible + {a})
  {
    assert |eligible + {a}| == |eligible| + 1 && |started + {a}| == |started| + 1;
    assert (eligible + {a}) - (started + {a}) == eligible - started;
  }

  lemma EligibleLater(w: Worker, w1: Worker, rest: set<Addr>, a: Addr, now: nat)
    requires IsLeast(a, rest) && a in w.peers && MayStartDial(w.peers[a], now)
    requires w1.peers.Keys == w.peers.Keys && forall b <- w.peers :: b != a ==> w1.peers[b] == w.peers[b]
    ensures Eligible(w, rest, now) == Eligible(w1, rest - {a}, now) + {a}
    ensures a !in Eligible(w1, rest - {a}, now) && forall b <- Eligible(w1, rest - {a}, now) :: a < b
  {
    hide MayStartDial;
  }

  lemma BegunIsDialing(p: Peer, session: nat, now: nat)
    requires MayStartDial(p, now)
    ensures DialBegun(p, session, now).central.Dialing? && !p.central.Dialing?
  {}

  lemma {:induction false} NothingStarts(w: Worker, rest: set<Addr>, session: nat, now: nat)
    ensures Pumped(w, rest, 0, session, now) == w
    ensures Started(w, rest, now, w) == {}
    decreases |rest|
  {
    if rest != {} {
      NothingStarts(w, rest - {Least(rest)}, session, now);
    }
  }

  /** With a usable radio the pump starts a dial for every peer that may be dialled, as far as the
      link cap reaches, the lower addresses first; without one it starts none. */
  lemma PumpStartsAllItMay(c: Config, w: Worker, base: nat, now: nat)
    ensures var eligible := Eligible(w, w.peers.Keys, now);
            var started := Started(w, w.peers.Keys, now, OnPump(c, w, base, now));
            && |started| == (if w.radio.Usable() then Min(Max(c.maxLinks - |Committed(w.peers)|, 0), |eligible|) else 0)
            && StartedFirst(started, eligible)
  {
    hide MayStartDial, Committed;
    PumpStartsInOrder(w, w.peers.Keys, Max(c.maxLinks - |Committed(w.peers)|, 0), base, now);
    if !w.radio.Usable() {
      NothingStarts(w, w.peers.Keys, base, now);
    }
  }

  /** The pump dials the only peer that may be dialled when the radio is usable and a link is free. */
  lemma OnlyCandidateIsDialed(c: Config, w: Worker, base: nat, now: nat, a: Addr)
    requires w.radio.Usable() && |Committed(w.peers)| < c.maxLinks && now >= w.clock
    requires Eligible(w, w.peers.Keys, now) == {a}
    ensures DialsOf(c, w, [PumpDials(base, now)], a) == 1
  {
    hide OnPump, Committed, Pumped;
    PumpStartsAllItMay(c, w, base, now);
    var s := PumpDials(base, now);
    var started := Started(w, w.peers.Keys, now, OnPump(c, w, base, now));
    assert a in Eligible(w, w.peers.Keys, now);
    assert started != {};
    var b :| b in started;
    assert b == a;
    assert Starts(c, w, s, a);
    assert [s][1..] == [];
  }

  // ---- What revives a peer ---------------------------------------------------------------

  /** From now on, whenever the pump runs, the peer may be dialled. */
  ghost predicate DialableFromNow(w: Worker, a: Addr) {
    a in w.peers && forall now :: MayStartDial(w.peers[a], now)
  }

  /** A retry lets any dialer without a link and without a dial be dialled at once, whatever it had
      been through: given up, backing off, or out of attempts. */
  lemma RetryRevives(c: Config, w: Worker, a: Addr, now: nat)
    requires a in w.peers && w.peers[a].dials && w.peers[a].link == None && w.peers[a].central.Idle? && now >= w.clock
    ensures DialableFromNow(Apply(c, w, Retry(a, now)), a)
  {}

  /** So the next pump does dial it, if the radio is usable, a link is free and no other peer is to
      be dialled. */
  lemma RetriedPeerIsDialed(c: Config, w: Worker, a: Addr, now: nat, base: nat, later: nat)
    requires a in w.peers && w.peers[a].dials && w.peers[a].link == None && w.peers[a].central.Idle?
    requires w.radio.Usable() && |Committed(w.peers)| < c.maxLinks && w.clock <= now <= later
    requires forall b <- w.peers :: b != a ==> !MayStartDial(w.peers[b], later)
    ensures var steps := [Retry(a, now), PumpDials(base, later)]; ValidRun(c, w, steps) && DialsOf(c, w, steps, a) == 1
  {
    hide DialsOf, OnPump, Apply, Eligible, MayStartDial;
    var w1 := Apply(c, w, Retry(a, now));
    RetriedIsCandidate(c, w, a, now, later);
    OnlyCandidateIsDialed(c, w1, base, later, a);
    var steps := [Retry(a, now), PumpDials(base, later)];
    assert steps[1..] == [PumpDials(base, later)];
    OneThenRest(c, w, steps, a);
  }

  lemma RetriedIsCandidate(c: Config, w: Worker, a: Addr, now: nat, later: nat)
    requires a in w.peers && w.peers[a].dials && w.peers[a].link == None && w.peers[a].central.Idle? && w.clock <= now
    requires forall b <- w.peers :: b != a ==> !MayStartDial(w.peers[b], later)
    ensures var w1 := Apply(c, w, Retry(a, now));
            && Eligible(w1, w1.peers.Keys, later) == {a} && |Committed(w1.peers)| <= |Committed(w.peers)|
            && w1.radio == w.radio && w1.clock == now
  {
    hide MayStartDial, Committed;
    RetryRevives(c, w, a, now);
    CommittedUpdate(w.peers, a, Apply(c, w, Retry(a, now)).peers[a]);
  }

  lemma OneThenRest(c: Config, w: Worker, steps: seq<Step>, a: Addr)
    requires steps != [] && Enabled(w, steps[0]) && steps[0].Retry?
    requires ValidRun(c, Apply(c, w, steps[0]), steps[1..])
    ensures ValidRun(c, w, steps) && DialsOf(c, w, steps, a) == DialsOf(c, Apply(c, w, steps[0]), steps[1..], a)
  {}

  /** A peer tracked for the first time is dialled or waited for according to the roles alone. */
  lemma TrackedIsDialable(c: Config, w: Worker, a: Addr, peerId: nat, now: nat)
    requires a !in w.peers && now >= w.clock
    ensures var w' := Apply(c, w, Track(a, peerId, now));
            DialableFromNow(w', a) <==> c.role.DialOnly? || (c.role.Symmetric? && c.role.localId < peerId)
  {
    assert !NewPeer(false, now).dials;
    var w' := Apply(c, w, Track(a, peerId, now));
    assert MayStartDial(w'.peers[a], now) <==> w'.peers[a].dials;
  }

  /** Of two symmetric sides exactly one dials the other. */
  lemma ExactlyOneSideDials(x: nat, y: nat)
    requires x != y
    ensures DialsPeer(Symmetric(x), y) <==> !DialsPeer(Symmetric(y), x)
  {}

  /** A radio that goes and comes back revives every tracked dialer, whatever it had been through,
      and leaves nobody with a link or a dial. */
  lemma RadioBounceRevives(c: Config, radio: RadioState, steps: seq<Step>, e: RadioEvent, now: nat, back: nat, a: Addr)
    requires ValidRun(c, Start(radio), steps)
    requires var w := After(c, Start(radio), steps);
             w.radio.Usable() && e != PoweredOn && w.clock <= now <= back && a in w.peers
    ensures var w := After(c, Start(radio), steps);
            var w2 := Apply(c, Apply(c, w, RadioChanged(e, now)), RadioChanged(PoweredOn, back));
            && a in w2.peers && w2.peers[a].link == None && !w2.peers[a].central.Dialing? && !w2.peers[a].gaveUp
            && (w.peers[a].dials ==> DialableFromNow(w2, a))
  {
    hide ValidRun, After, OnRadio, DialableFromNow;
    Reachable(c, radio, steps);
    var w := After(c, Start(radio), steps);
    RadioInvalidatesOnLoss(w.radio, e);
    RadioPeers(w, e, now);
    var w1 := Apply(c, w, RadioChanged(e, now));
    RadioInvalidatesOnLoss(w1.radio, PoweredOn);
    RadioPeers(w1, PoweredOn, back);
    SafePeer(c, w, a);
    BouncedPeer(w.radio, e, w.peers[a], now, back);
    var w2 := Apply(c, w1, RadioChanged(PoweredOn, back));
    assert w2.peers[a] == RadioFor(w1.radio, PoweredOn, RadioFor(w.radio, e, w.peers[a], now), back);
    if w.peers[a].dials {
      DialableIs(w2, a);
    }
  }

  lemma DialableIs(w: Worker, a: Addr)
    requires a in w.peers && forall now :: MayStartDial(w.peers[a], now)
    ensures DialableFromNow(w, a)
  {}

  lemma BouncedPeer(r: RadioState, e: RadioEvent, p: Peer, now: nat, back: nat)
    requires r.Usable() && e != PoweredOn
    ensures var p2 := RadioFor(r.Apply(e).0, PoweredOn, RadioFor(r, e, p, now), back);
            && p2.link == None && !p2.central.Dialing? && !p2.gaveUp
            && (p.dials ==> forall later :: MayStartDial(p2, later))
  {}

  /** A dialer whose link is gone starts over at once, unless it had given up; in every reachable
      state, every reset leaves no dials counted. */
  lemma LostLinkStartsOver(c: Config, radio: RadioState, steps: seq<Step>, s: Step, a: Addr)
    requires ValidRun(c, Start(radio), steps) && Enabled(After(c, Start(radio), steps), s)
    ensures var w := After(c, Start(radio), steps);
            var w' := Apply(c, w, s);
            && (Resets(w, s, a) ==> DialsSoFar(w', a) == 0)
            && (s.LinkGone? && LinkOf(w, a) == Some(s.gen) && w.peers[a].dials && !w.peers[a].gaveUp ==> DialableFromNow(w', a))
  {
    hide ValidRun, After, Safe, GensOk, OnRadio;
    Reachable(c, radio, steps);
    var w := After(c, Start(radio), steps);
    if a in w.peers {
      SafePeer(c, w, a);
      match s {
        case LinkGone(gen, now) =>
          if LinkOf(w, a) == Some(gen) {
            NoticeIsForItsAddress(w, gen, a);
            LostPeer(w.radio.Usable(), w.peers[a], now);
          }
        case RadioChanged(e, now) => RadioPeers(w, e, now);
        case DialResult(_, _, _, _) => ResultStartsOver(c, w, s, a);
        case _ =>
      }
    } else if s.RadioChanged? {
      RadioPeers(w, s.event, s.now);
    }
  }

  lemma ResultStartsOver(c: Config, w: Worker, s: Step, a: Addr)
    requires Enabled(w, s) && s.DialResult? && a in w.peers && Coupled(w.radio.Usable(), w.peers[a])
    ensures Resets(w, s, a) ==> DialsSoFar(OnDialResult(c, w, s.peer, s.session, s.ok, s.now), a) == 0
  {
    hide BackedOff;
  }

  lemma LostPeer(usable: bool, p: Peer, now: nat)
    requires Coupled(usable, p) && p.link.Some?
    ensures var p' := LinkLost(p, now);
            p'.attempts == 0 && (p.dials && !p.gaveUp ==> forall later :: MayStartDial(p', later))
  {}

  // ---- When a link comes and goes ----------------------------------------------------------

  /** What gives `a` a link: the success of the dial it is in, and a central let in. */
  ghost predicate Installs(c: Config, w: Worker, s: Step, a: Addr) {
    a in w.peers
    && match s
       case DialResult(b, session, ok, _) =>
         b == a && ok && (w.peers[a].central == Connected(session)
                          || (w.peers[a].central.Dialing? && w.peers[a].central.session == session))
       case Inbound(b, _, _) =>
         b == a && !w.peers[a].dials && w.peers[a].link == None && |Committed(w.peers)| < c.maxLinks && w.radio.On?
       case _ => false
  }

  /** What takes its link: its own notice, the loss of the radio, and being untracked. */
  predicate Takes(w: Worker, s: Step, a: Addr) {
    a in w.peers && w.peers[a].link.Some?
    && match s
       case Untrack(b) => b == a
       case LinkGone(gen, _) => w.peers[a].link == Some(gen)
       case RadioChanged(e, _) => w.radio.On? && e != PoweredOn
       case _ => false
  }

  ghost predicate LinkMoves(c: Config, w: Worker, s: Step, w': Worker, a: Addr) {
    && LinkOf(w', a) == (if Installs(c, w, s, a) then Some(w.nextLinkGen + 1)
                         else if Takes(w, s, a) then None
                         else LinkOf(w, a))
    && Heard(w', a) == Heard(w, a) + (if Installs(c, w, s, a) then [Up(w.nextLinkGen + 1)]
                                      else if Takes(w, s, a) then [Down]
                                      else [])
    && (a in w'.peers <==> (a in w.peers && !(s.Untrack? && s.peer == a)) || (s.Track? && s.peer == a))
    && (Installs(c, w, s, a) ==> w'.peers[a].tryingSince == None && w'.peers[a].retryAt == None)
  }

  lemma DialResultMoves(c: Config, w: Worker, s: Step, a: Addr)
    requires Safe(c, w) && Enabled(w, s) && s.DialResult?
    ensures LinkMoves(c, w, s, OnDialResult(c, w, s.peer, s.session, s.ok, s.now), a)
  {
    hide BackedOff, Safe;
    if a in w.peers && a == s.peer && w.peers[a].central.Session() == Some(s.session) {
      var p := w.peers[a];
      SafePeer(c, w, a);
      BackoffKeepsLink(c, p.(dialTask := None, central := p.central.Apply(DialFailed, s.now).0), s.now);
    }
  }

  lemma RadioMoves(c: Config, w: Worker, s: Step, a: Addr)
    requires Enabled(w, s) && s.RadioChanged?
    ensures LinkMoves(c, w, s, OnRadio(w, s.event, s.now), a)
  {
    hide OnRadio, RadioState.Apply;
    RadioInvalidatesOnLoss(w.radio, s.event);
    RadioQuiet(w, s.event, s.now);
  }

  lemma PumpMoves(c: Config, w: Worker, s: Step, a: Addr)
    requires Enabled(w, s) && s.PumpDials?
    ensures LinkMoves(c, w, s, OnPump(c, w, s.base, s.now), a)
  {
    hide OnPump;
    PumpStepEffect(c, w, s.base, s.now);
    PumpKeepsLinks(c, w, s.base, s.now);
    HeardIs(w, OnPump(c, w, s.base, s.now), a);
  }

  lemma LinkGoneMoves(c: Config, w: Worker, s: Step, a: Addr)
    requires GensOk(w) && Enabled(w, s) && s.LinkGone?
    ensures LinkMoves(c, w, s, OnLinkGone(w, s.gen, s.now), a)
  {
    hide LinkLost, GensOk;
    if LinkOf(w, a) == Some(s.gen) {
      NoticeIsForItsAddress(w, s.gen, a);
    }
    var b := w.notices[s.gen];
    if b in w.peers {
      LostHasNoLink(w.peers[b], s.now);
    }
  }

  lemma LostHasNoLink(p: Peer, now: nat)
    ensures LinkLost(p, now).link == None
  {}

  lemma OthersMove(c: Config, w: Worker, s: Step, a: Addr)
    requires Safe(c, w) && Enabled(w, s)
    requires s.Track? || s.Untrack? || s.Retry? || s.Inbound? || s.DriverDisconnected? || s.OnTick?
    ensures LinkMoves(c, w, s, Effect(c, w, s), a)
  {
    hide Safe, Ticked, InboundAccepted;
    if s.OnTick? && a in w.peers {
      TickKeepsFlight(c, w, s.now, a);
    } else if s.Inbound? && !Refused(c, w, s.peer) {
      InboundMoves(c, w, s, a);
    }
  }

  lemma InboundMoves(c: Config, w: Worker, s: Step, a: Addr)
    requires Enabled(w, s) && s.Inbound? && !Refused(c, w, s.peer)
    ensures LinkMoves(c, w, s, OnInbound(c, w, s.peer, s.session, s.now), a)
  {}

  /** In every reachable state and for every step: a peer gets a link of the next generation, with
      one Up and its clocks stopped, exactly on the success of its own dial or when its central is let in; it loses it, with
      one Down, exactly on its own notice, on the loss of the radio or on untracking; and nothing
      else is heard of any peer, nor is any peer tracked but by `Track`. */
  lemma LinksComeAndGoExactly(c: Config, radio: RadioState, steps: seq<Step>, s: Step, a: Addr)
    requires ValidRun(c, Start(radio), steps) && Enabled(After(c, Start(radio), steps), s)
    ensures var w := After(c, Start(radio), steps); LinkMoves(c, w, s, Apply(c, w, s), a)
  {
    hide ValidRun, After, Safe, GensOk, OnPump, OnRadio, OnDialResult, OnLinkGone, LinkMoves;
    Reachable(c, radio, steps);
    var w := After(c, Start(radio), steps);
    match s {
      case PumpDials(_, _) => PumpMoves(c, w, s, a);
      case DialResult(_, _, _, _) => DialResultMoves(c, w, s, a);
      case RadioChanged(_, _) => RadioMoves(c, w, s, a);
      case LinkGone(_, _) => LinkGoneMoves(c, w, s, a);
      case _ => OthersMove(c, w, s, a);
    }
    ClockMovesNoLink(c, w, s, Effect(c, w, s), At(w, s), a);
  }

  lemma ClockMovesNoLink(c: Config, w: Worker, s: Step, w': Worker, now: nat, a: Addr)
    requires LinkMoves(c, w, s, w', a)
    ensures LinkMoves(c, w, s, w'.(clock := now), a)
  {
    HeardIs(w', w'.(clock := now), a);
  }

  // ---- When a dial ends, and when a peer gives up ---------------------------------------------

  /** What ends the dial of `a`. */
  predicate EndsDial(w: Worker, s: Step, a: Addr)
    requires a in w.peers && w.peers[a].central.Dialing?
  {
    var dial := w.peers[a].central;
    match s
    case DialResult(b, session, _, _) => b == a && session == dial.session
    case OnTick(now) => Elapsed(now, dial.since) >= DIAL_WINDOW
    case Untrack(b) => b == a
    case RadioChanged(e, _) => e != PoweredOn
    case _ => false
  }

  /** Whether `a` counts as given up after the step. */
  ghost predicate GivesUp(c: Config, w: Worker, s: Step, a: Addr)
    requires a in w.peers
  {
    var p := w.peers[a];
    match s
    case OnTick(now) =>
      p.gaveUp
      || (w.radio.On? && p.link == None && p.tryingSince.Some?
          && Elapsed(now, p.tryingSince.value) >= if p.dials then c.giveUpAfter else c.acceptorDeadline)
    case DialResult(b, session, ok, now) =>
      p.gaveUp
      || (b == a && !ok && p.central.Session() == Some(session)
          && (c.backoff == [] || Elapsed(now, if p.tryingSince.Some? then p.tryingSince.value else now) >= c.giveUpAfter))
    case Retry(b, _) => p.gaveUp && b != a
    case RadioChanged(e, _) => p.gaveUp && !(w.radio.On? && e != PoweredOn)
    case Inbound(_, _, _) => p.gaveUp && !Installs(c, w, s, a)
    case _ => p.gaveUp
  }

  ghost predicate PeerMoves(c: Config, w: Worker, s: Step, w': Worker, a: Addr)
    requires a in w.peers
  {
    && (w.peers[a].central.Dialing? ==> (!IsDialing(w', a) <==> EndsDial(w, s, a)))
    && (a in w'.peers ==> (w'.peers[a].gaveUp <==> GivesUp(c, w, s, a)))
  }

  lemma PumpMovesPeer(c: Config, w: Worker, s: Step, a: Addr)
    requires a in w.peers && Enabled(w, s) && s.PumpDials?
    ensures PeerMoves(c, w, s, OnPump(c, w, s.base, s.now), a)
  {
    hide OnPump;
    PumpStepEffect(c, w, s.base, s.now);
    assert PumpedOne(w, OnPump(c, w, s.base, s.now), a, s.now);
  }

  lemma RadioMovesPeer(c: Config, w: Worker, s: Step, a: Addr)
    requires a in w.peers && Enabled(w, s) && s.RadioChanged? && Coupled(w.radio.Usable(), w.peers[a])
    ensures PeerMoves(c, w, s, OnRadio(w, s.event, s.now), a)
  {
    hide OnRadio;
    RadioInvalidatesOnLoss(w.radio, s.event);
    RadioPeers(w, s.event, s.now);
  }

  lemma DialResultMovesPeer(c: Config, w: Worker, s: Step, a: Addr)
    requires a in w.peers && Enabled(w, s) && s.DialResult? && Coupled(w.radio.Usable(), w.peers[a])
    ensures PeerMoves(c, w, s, OnDialResult(c, w, s.peer, s.session, s.ok, s.now), a)
  {
    var p := w.peers[a];
    BackoffCountsNothing(c, p.(dialTask := None, central := p.central.Apply(DialFailed, s.now).0), s.now);
  }

  lemma TickMovesPeer(c: Config, w: Worker, s: Step, a: Addr)
    requires a in w.peers && Enabled(w, s) && s.OnTick? && Coupled(w.radio.Usable(), w.peers[a])
    ensures PeerMoves(c, w, s, AllTicked(c, w, s.now), a)
  {}

  lemma OthersMovePeer(c: Config, w: Worker, s: Step, a: Addr)
    requires a in w.peers && Enabled(w, s) && Coupled(w.radio.Usable(), w.peers[a])
    requires s.Track? || s.Untrack? || s.Retry? || s.Inbound? || s.LinkGone? || s.DriverDisconnected?
    ensures PeerMoves(c, w, s, Effect(c, w, s), a)
  {}

  /** In every reachable state and for every step: a dial ends exactly by its own result, at its
      deadline, by untracking or with the radio; and a peer gives up exactly when its time runs out
      while it has no link and the radio is usable, or when its own dial fails with its time over or
      with nothing to wait for, and stays so until a retry, a radio loss or a link let in. */
  lemma DialsAndPatienceEndExactly(c: Config, radio: RadioState, steps: seq<Step>, s: Step, a: Addr)
    requires ValidRun(c, Start(radio), steps) && Enabled(After(c, Start(radio), steps), s)
    requires a in After(c, Start(radio), steps).peers
    ensures var w := After(c, Start(radio), steps); PeerMoves(c, w, s, Apply(c, w, s), a)
  {
    hide ValidRun, After, Safe, OnPump, OnRadio, OnDialResult, AllTicked, PeerMoves, Coupled;
    Reachable(c, radio, steps);
    var w := After(c, Start(radio), steps);
    SafePeer(c, w, a);
    match s {
      case PumpDials(_, _) => PumpMovesPeer(c, w, s, a);
      case DialResult(_, _, _, _) => DialResultMovesPeer(c, w, s, a);
      case RadioChanged(_, _) => RadioMovesPeer(c, w, s, a);
      case OnTick(_) => TickMovesPeer(c, w, s, a);
      case _ => OthersMovePeer(c, w, s, a);
    }
    ClockMovesNoPeer(c, w, s, Effect(c, w, s), At(w, s), a);
  }

  lemma ClockMovesNoPeer(c: Config, w: Worker, s: Step, w': Worker, now: nat, a: Addr)
    requires a in w.peers && PeerMoves(c, w, s, w', a)
    ensures PeerMoves(c, w, s, w'.(clock := now), a)
  {}

  // ---- The backoff list ------------------------------------------------------------------------

  /** In every state: after a dial of its own fails, the peer may be dialled again exactly once the
      list's entry for that attempt has passed, the last one repeating, unless it has given up. */
  lemma FailedDialWaits(c: Config, w: Worker, a: Addr, session: nat, now: nat, later: nat)
    requires Enabled(w, DialResult(a, session, false, now)) && later >= now && c.backoff != []
    requires a in w.peers && w.peers[a].dials && w.peers[a].link == None && !w.peers[a].gaveUp
    requires w.peers[a].central.Dialing? && w.peers[a].central.session == session
    ensures var w' := Apply(c, w, DialResult(a, session, false, now));
            var p := w.peers[a];
            var entry := if p.attempts <= 1 then c.backoff[0]
                         else if p.attempts <= |c.backoff| then c.backoff[p.attempts - 1]
                         else c.backoff[|c.backoff| - 1];
            a in w'.peers && (MayStartDial(w'.peers[a], later) <==> !w'.peers[a].gaveUp && later - now >= entry)
  {}

  // ---- An acceptor's patience ---------------------------------------------------------------------

  /** What starts an acceptor's wait: being tracked, a retry, the loss of the radio and of its link. */
  ghost predicate Restarts(w: Worker, s: Step, a: Addr) {
    match s
    case Track(b, _, _) => b == a && a !in w.peers
    case Retry(b, _) => b == a
    case RadioChanged(e, _) => w.radio.On? && e != PoweredOn
    case LinkGone(gen, _) => LinkOf(w, a) == Some(gen)
    case _ => false
  }

  /** When the last of these was. */
  ghost function WaitsSince(c: Config, w: Worker, steps: seq<Step>, a: Addr, before: nat): nat
    requires ValidRun(c, w, steps)
    decreases |steps|
  {
    if steps == [] then before
    else WaitsSince(c, Apply(c, w, steps[0]), steps[1..], a, if Restarts(w, steps[0], a) then At(w, steps[0]) else before)
  }

  ghost predicate WaitOk(w: Worker, a: Addr, since: nat) {
    a in w.peers && !w.peers[a].dials && w.peers[a].link == None ==> w.peers[a].tryingSince == Some(since)
  }

  lemma StepKeepsWait(c: Config, w: Worker, s: Step, a: Addr, since: nat)
    requires Safe(c, w) && GensOk(w) && Enabled(w, s) && WaitOk(w, a, since)
    ensures WaitOk(Apply(c, w, s), a, if Restarts(w, s, a) then At(w, s) else since)
  {
    hide Safe, GensOk, OnPump, OnRadio, Ticked, BackedOff;
    if a in w.peers {
      SafePeer(c, w, a);
    }
    match s {
      case PumpDials(base, now) =>
        PumpStepEffect(c, w, base, now);
        assert PumpedOne(w, OnPump(c, w, base, now), a, now);
      case RadioChanged(e, now) =>
        RadioInvalidatesOnLoss(w.radio, e);
        RadioPeers(w, e, now);
      case OnTick(now) =>
        if a in w.peers {
          TickKeepsWait(c, w.radio.Usable(), w.peers[a], now);
        }
      case LinkGone(gen, _) =>
        if LinkOf(w, a) == Some(gen) {
          NoticeIsForItsAddress(w, gen, a);
        }
      case DialResult(b, session, ok, now) => DialResultKeepsWait(c, w, s, a, since);
      case _ => OthersKeepWait(c, w, s, a, since);
    }
  }

  lemma DialResultKeepsWait(c: Config, w: Worker, s: Step, a: Addr, since: nat)
    requires Enabled(w, s) && s.DialResult? && WaitOk(w, a, since)
    requires a in w.peers ==> Coupled(w.radio.Usable(), w.peers[a])
    ensures WaitOk(OnDialResult(c, w, s.peer, s.session, s.ok, s.now), a, since)
  {
    hide BackedOff;
    if a in w.peers && w.peers[a].dials && a == s.peer && w.peers[a].central.Session() == Some(s.session) {
      BackoffKeepsRole(c, w.peers[a].(dialTask := None, central := w.peers[a].central.Apply(DialFailed, s.now).0), s.now);
    }
  }

  lemma BackoffKeepsRole(c: Config, p: Peer, now: nat)
    ensures BackedOff(c, p, now).dials == p.dials
  {}

  lemma OthersKeepWait(c: Config, w: Worker, s: Step, a: Addr, since: nat)
    requires Enabled(w, s) && WaitOk(w, a, since)
    requires s.Track? || s.Untrack? || s.Retry? || s.Inbound? || s.DriverDisconnected?
    ensures WaitOk(Effect(c, w, s), a, if Restarts(w, s, a) then At(w, s) else since)
  {}

  lemma TickKeepsWait(c: Config, usable: bool, p: Peer, now: nat)
    ensures var p' := Ticked(c, usable, p, now); p'.tryingSince == p.tryingSince && p'.dials == p.dials && p'.link == p.link
  {}

  lemma NoticeIsForItsAddress(w: Worker, gen: nat, a: Addr)
    requires GensOk(w) && gen in w.notices && LinkOf(w, a) == Some(gen)
    ensures w.notices[gen] == a
  {}

  lemma {:induction false} RunKeepsWait(c: Config, w: Worker, steps: seq<Step>, a: Addr, before: nat)
    requires Safe(c, w) && GensOk(w) && ValidRun(c, w, steps) && WaitOk(w, a, before)
    ensures WaitOk(After(c, w, steps), a, WaitsSince(c, w, steps, a, before))
    decreases |steps|
  {
    hide Safe, GensOk, Apply, Enabled, WaitOk, Restarts;
    if steps != [] {
      StepKeepsWait(c, w, steps[0], a, before);
      StepKeepsSafe(c, w, steps[0]);
      StepKeepsGens(c, w, steps[0]);
      RunKeepsWait(c, Apply(c, w, steps[0]), steps[1..], a, if Restarts(w, steps[0], a) then At(w, steps[0]) else before);
    }
  }

  /** In every run: a peer that is waited for, has no link and has not given up gives up at a tick
      exactly when the acceptor's deadline has passed since its wait last started, by tracking, a
      retry, or the loss of the radio or of its link; never while the radio is away. */
  lemma AcceptorWaitsItsDeadline(c: Config, radio: RadioState, steps: seq<Step>, now: nat, a: Addr)
    requires ValidRun(c, Start(radio), steps) && Enabled(After(c, Start(radio), steps), OnTick(now))
    requires var w := After(c, Start(radio), steps);
             a in w.peers && !w.peers[a].dials && w.peers[a].link == None && !w.peers[a].gaveUp
    ensures var w := After(c, Start(radio), steps);
            var w' := Apply(c, w, OnTick(now));
            && a in w'.peers
            && (w'.peers[a].gaveUp <==>
                  w.radio.On? && Elapsed(now, WaitsSince(c, Start(radio), steps, a, 0)) >= c.acceptorDeadline)
  {
    hide ValidRun, After, Safe, GensOk, WaitsSince;
    StartIsSafe(c, radio);
    Reachable(c, radio, steps);
    RunKeepsWait(c, Start(radio), steps, a, 0);
    DialsAndPatienceEndExactly(c, radio, steps, OnTick(now), a);
  }
}
