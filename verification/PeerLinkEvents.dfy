/**
  What a consumer of `PeerLink` hears about one peer: Up and Down alternate, a link is held
  exactly when the last one was Up, and a late link-gone notice takes down no link but its own.
 */
module PeerLinkEvents {
  import opened Basics
  import opened LinkState
  import opened PeerLink
  import opened PeerLinkSafety

  /** Up, Down, Up, Down, ... */
  ghost predicate Alternates(h: seq<Event>) {
    forall i | 0 <= i < |h| :: h[i].Up? <==> i % 2 == 0
  }

  ghost function LinkOf(w: Worker, a: Addr): Option<nat> {
    if a in w.peers then w.peers[a].link else None
  }

  /** The events of one address agree with its link. */
  ghost predicate Told(h: seq<Event>, link: Option<nat>) {
    && Alternates(h)
    && (link.Some? <==> |h| % 2 == 1)
    && (link.Some? ==> h[|h| - 1] == Up(link.value))
  }

  // ---- Generations ------------------------------------------------------------------

  /** No generation is announced twice, to anyone, and none ahead of the counter. */
  ghost predicate GensUnique(w: Worker) {
    && (forall a, i | 0 <= i < |Heard(w, a)| && Heard(w, a)[i].Up? :: Heard(w, a)[i].gen <= w.nextLinkGen)
    && (forall a, b, i, j | 0 <= i < |Heard(w, a)| && 0 <= j < |Heard(w, b)| && Heard(w, a)[i].Up? && Heard(w, b)[j] == Heard(w, a)[i] ::
          a == b && i == j)
  }

  /** A link's generation was announced for its own address, and so was each queued notice's. */
  ghost predicate GensKnown(w: Worker) {
    && (forall a <- w.peers :: w.peers[a].link.Some? ==> Up(w.peers[a].link.value) in Heard(w, a))
    && (forall g <- w.notices :: Up(g) in Heard(w, w.notices[g]))
  }

  ghost predicate GensOk(w: Worker) {
    GensUnique(w) && GensKnown(w)
  }

  /** Histories that grow by Down events only, the counter moving freely forward. */
  lemma QuietKeepsGens(w: Worker, w': Worker)
    requires GensOk(w) && w'.nextLinkGen == w.nextLinkGen
    requires forall a :: Heard(w', a) == Heard(w, a) || Heard(w', a) == Heard(w, a) + [Down]
    requires forall a <- w'.peers :: w'.peers[a].link.Some? ==> a in w.peers && w.peers[a].link == w'.peers[a].link
    requires forall g <- w'.notices :: g in w.notices && w'.notices[g] == w.notices[g]
    ensures GensOk(w')
  {
    hide Heard;
    assert GensUnique(w') by {
      forall a, i | 0 <= i < |Heard(w', a)| && Heard(w', a)[i].Up?
        ensures i < |Heard(w, a)| && Heard(w, a)[i] == Heard(w', a)[i]
      {
      }
    }
    forall g | g in w'.notices
      ensures Up(g) in Heard(w', w'.notices[g])
    {
      assert Up(g) in Heard(w, w.notices[g]);
    }
    forall a | a in w'.peers && w'.peers[a].link.Some?
      ensures Up(w'.peers[a].link.value) in Heard(w', a)
    {
      assert Up(w.peers[a].link.value) in Heard(w, a);
    }
  }

  lemma InstallHeard(w: Worker, a: Addr, p: Peer, b: Addr)
    ensures Heard(Installed(w, a, p), b) == if b == a then Heard(w, a) + [Up(w.nextLinkGen + 1)] else Heard(w, b)
  {}

  lemma InstallKeepsGens(w: Worker, a: Addr, p: Peer)
    requires GensOk(w) && a in w.peers && p.link == Some(w.nextLinkGen + 1)
    ensures GensOk(Installed(w, a, p))
  {
    hide Heard, GensUnique;
    var gen := w.nextLinkGen + 1;
    var w' := Installed(w, a, p);
    forall b
      ensures Heard(w', b) == if b == a then Heard(w, a) + [Up(gen)] else Heard(w, b)
    {
      InstallHeard(w, a, p, b);
    }
    GensStayUnique(w, w', a, gen);
    forall g | g in w'.notices
      ensures Up(g) in Heard(w', w'.notices[g])
    {
      assert g != gen ==> Up(g) in Heard(w, w.notices[g]);
    }
    forall b | b in w'.peers && w'.peers[b].link.Some?
      ensures Up(w'.peers[b].link.value) in Heard(w', b)
    {
      assert b != a ==> Up(w.peers[b].link.value) in Heard(w, b);
    }
  }

  lemma GensStayUnique(w: Worker, w': Worker, a: Addr, gen: nat)
    requires GensUnique(w) && gen == w.nextLinkGen + 1 == w'.nextLinkGen
    requires forall b :: Heard(w', b) == if b == a then Heard(w, a) + [Up(gen)] else Heard(w, b)
    ensures GensUnique(w')
  {}

  lemma DialResultKeepsGens(c: Config, w: Worker, a: Addr, session: nat, ok: bool, now: nat)
    requires GensOk(w)
    ensures GensOk(OnDialResult(c, w, a, session, ok, now))
  {
    hide GensOk, CentralLink.Apply;
    var w1 := w.(flying := w.flying - multiset{(a, session)});
    var w' := OnDialResult(c, w, a, session, ok, now);
    QuietKeepsGens(w, w1);
    if a in w.peers && w.peers[a].central.Session() == Some(session) {
      var (p, up) := DialSettled(c, w.peers[a], ok, w.nextLinkGen + 1, now);
      if up.Some? {
        InstallKeepsGens(w1, a, p);
      } else {
        QuietKeepsGens(w, w');
      }
    }
  }

  lemma SmallStepKeepsGens(c: Config, w: Worker, s: Step)
    requires GensOk(w) && Enabled(w, s)
    requires s.Track? || s.Untrack? || s.Retry? || s.LinkGone? || s.DriverDisconnected? || s.OnTick?
    ensures GensOk(Effect(c, w, s))
  {
    hide GensOk, CentralLink.Apply, PeripheralLink.Apply;
    QuietKeepsGens(w, Effect(c, w, s));
  }

  lemma StepKeepsGens(c: Config, w: Worker, s: Step)
    requires GensOk(w) && Enabled(w, s)
    ensures GensOk(Apply(c, w, s))
  {
    hide GensOk, OnRadio, OnPump, OnDialResult, CentralLink.Apply, PeripheralLink.Apply;
    var w' := Effect(c, w, s);
    match s {
      case PumpDials(base, now) =>
        PumpStepEffect(c, w, base, now);
        PumpKeepsLinks(c, w, base, now);
        QuietKeepsGens(w, w');
      case DialResult(a, session, ok, now) =>
        DialResultKeepsGens(c, w, a, session, ok, now);
      case Inbound(a, session, now) =>
        if !Refused(c, w, a) {
          InstallKeepsGens(w, a, w'.peers[a]);
        }
      case RadioChanged(e, now) =>
        RadioQuiet(w, e, now);
        QuietKeepsGens(w, w');
      case _ =>
        SmallStepKeepsGens(c, w, s);
    }
    QuietKeepsGens(w', w'.(clock := At(w, s)));
  }

  lemma PumpKeepsLinks(c: Config, w: Worker, base: nat, now: nat)
    ensures forall a <- OnPump(c, w, base, now).peers ::
              a in w.peers && OnPump(c, w, base, now).peers[a].link == w.peers[a].link
              && OnPump(c, w, base, now).peers[a].dials == w.peers[a].dials
  {
    hide OnPump;
    PumpStepEffect(c, w, base, now);
    forall a | a in OnPump(c, w, base, now).peers
      ensures a in w.peers && OnPump(c, w, base, now).peers[a].link == w.peers[a].link
      ensures OnPump(c, w, base, now).peers[a].dials == w.peers[a].dials
    {
      assert PumpedOne(w, OnPump(c, w, base, now), a, now);
    }
  }

  lemma DownQuiet(w: Worker, now: nat)
    ensures var w' := AllDown(w, now);
            && w' == w.(peers := w'.peers, heard := w'.heard) && w'.peers.Keys == w.peers.Keys
            && (forall a <- w'.peers :: w'.peers[a].link == None)
            && (forall a :: Heard(w', a) == Heard(w, a) + if LinkOf(w, a).Some? then [Down] else [])
  {}

  lemma BackQuiet(w: Worker, now: nat)
    ensures var w' := AllBack(w, now);
            && w' == w.(peers := w'.peers) && w'.peers.Keys == w.peers.Keys
            && (forall a <- w'.peers :: w'.peers[a].link == w.peers[a].link)
  {}

  lemma HeardIs(w: Worker, w': Worker, a: Addr)
    requires w'.heard == w.heard
    ensures Heard(w', a) == Heard(w, a)
  {}

  /** A radio change only ever ends links, each with one Down. */
  lemma RadioQuiet(w: Worker, e: RadioEvent, now: nat)
    ensures var w' := OnRadio(w, e, now);
            && w'.nextLinkGen == w.nextLinkGen && w'.notices == w.notices && w'.flying == w.flying
            && w'.peers.Keys == w.peers.Keys
            && (forall a <- w'.peers :: w'.peers[a].link == if w.radio.Apply(e).1 then None else w.peers[a].link)
            && (forall a :: Heard(w', a) == Heard(w, a) + if w.radio.Apply(e).1 && LinkOf(w, a).Some? then [Down] else [])
  {
    hide RadioState.Apply, AllDown, AllBack, Heard;
    var (radio, invalidate) := w.radio.Apply(e);
    var w1 := w.(radio := radio);
    var w2 := if invalidate then AllDown(w1, now) else w1;
    DownQuiet(w1, now);
    BackQuiet(w2, now);
    forall a
      ensures Heard(OnRadio(w, e, now), a) == Heard(w, a) + if invalidate && LinkOf(w, a).Some? then [Down] else []
    {
      HeardIs(w, w1, a);
      HeardIs(w2, OnRadio(w, e, now), a);
      assert LinkOf(w1, a) == LinkOf(w, a);
      assert !invalidate ==> Heard(w, a) + [] == Heard(w, a);
    }
  }

  // ---- Up and Down ------------------------------------------------------------------

  ghost predicate ToldAt(w: Worker, a: Addr) {
    Told(Heard(w, a), LinkOf(w, a))
  }

  lemma ToldUp(h: seq<Event>, gen: nat)
    requires Told(h, None)
    ensures Told(h + [Up(gen)], Some(gen))
  {}

  lemma ToldDown(h: seq<Event>, gen: nat)
    requires Told(h, Some(gen))
    ensures Told(h + [Down], None)
  {}

  lemma BackoffKeepsLink(c: Config, p: Peer, now: nat)
    ensures BackedOff(c, p, now).link == p.link && BackedOff(c, p, now).central == p.central
  {}

  lemma SafePeer(c: Config, w: Worker, a: Addr)
    requires Safe(c, w) && a in w.peers
    ensures Coupled(w.radio.Usable(), w.peers[a])
  {}

  /** A success that carries the session of the link already up. */
  predicate Reuses(w: Worker, s: Step, a: Addr) {
    s.DialResult? && s.peer == a && s.ok && a in w.peers && w.peers[a].central == Connected(s.session)
  }

  /** The one way a dial result can break the alternation. */
  lemma AlternationBreaksExactlyOnReuse(c: Config, w: Worker, a: Addr, session: nat, ok: bool, now: nat)
    requires Safe(c, w) && Told(Heard(w, a), LinkOf(w, a))
    ensures var w' := OnDialResult(c, w, a, session, ok, now);
            Told(Heard(w', a), LinkOf(w', a)) <==>
            !(ok && a in w.peers && w.peers[a].central == Connected(session))
    ensures ok && a in w.peers && w.peers[a].central == Connected(session) ==>
              !Alternates(Heard(OnDialResult(c, w, a, session, ok, now), a))
  {
    hide Told, BackedOff, Alternates;
    if a in w.peers && w.peers[a].central.Session() == Some(session) {
      var p := w.peers[a];
      SafePeer(c, w, a);
      BackoffKeepsLink(c, p.(dialTask := None, central := p.central.Apply(DialFailed, now).0), now);
      if ok && p.central.Dialing? {
        ToldUp(Heard(w, a), w.nextLinkGen + 1);
      } else if ok {
        TwoUps(Heard(w, a), p.link.value, w.nextLinkGen + 1);
      }
    }
  }

  lemma TwoUps(h: seq<Event>, gen: nat, gen': nat)
    requires Told(h, Some(gen))
    ensures !Told(h + [Up(gen')], Some(gen')) && !Alternates(h + [Up(gen')])
  {
    assert (h + [Up(gen')])[|h|].Up? && |h| % 2 == 1;
  }

  lemma RadioTold(c: Config, w: Worker, e: RadioEvent, now: nat, b: Addr)
    requires ToldAt(w, b)
    ensures ToldAt(OnRadio(w, e, now), b)
  {
    hide Told, OnRadio;
    var w' := OnRadio(w, e, now);
    RadioQuiet(w, e, now);
    if w.radio.Apply(e).1 && LinkOf(w, b).Some? {
      ToldDown(Heard(w, b), LinkOf(w, b).value);
    } else {
      assert Heard(w', b) == Heard(w, b) && LinkOf(w', b) == LinkOf(w, b);
    }
  }

  lemma SmallStepTold(c: Config, w: Worker, s: Step, b: Addr)
    requires ToldAt(w, b) && Safe(c, w) && Enabled(w, s)
    requires s.Track? || s.Untrack? || s.Retry? || s.Inbound? || s.LinkGone? || s.DriverDisconnected? || s.OnTick?
    ensures ToldAt(Effect(c, w, s), b)
  {
    hide Told, Safe, Ticked, Apply;
    if b in w.peers {
      SafePeer(c, w, b);
    }
    if s.Untrack? && s.peer == b && LinkOf(w, b).Some? {
      ToldDown(Heard(w, b), LinkOf(w, b).value);
    } else if s.Inbound? && s.peer == b && !Refused(c, w, b) {
      ToldUp(Heard(w, b), w.nextLinkGen + 1);
    } else if s.LinkGone? && w.notices[s.gen] == b && LinkOf(w, b) == Some(s.gen) {
      ToldDown(Heard(w, b), s.gen);
    } else if s.OnTick? && b in w.peers {
      TickKeepsFlight(c, w, s.now, b);
    }
  }

  /** A step breaks the alternation exactly when it reuses the session of the link that is up. */
  lemma StepTold(c: Config, w: Worker, s: Step, b: Addr)
    requires ToldAt(w, b) && Safe(c, w) && Enabled(w, s)
    ensures ToldAt(Apply(c, w, s), b) <==> !Reuses(w, s, b)
    ensures Reuses(w, s, b) ==> !Alternates(Heard(Apply(c, w, s), b))
  {
    hide Told, OnRadio, OnPump, OnDialResult, Safe, Alternates;
    match s {
      case PumpDials(base, now) =>
        PumpStepEffect(c, w, base, now);
        PumpKeepsLinks(c, w, base, now);
      case DialResult(a, session, ok, now) =>
        if a == b {
          AlternationBreaksExactlyOnReuse(c, w, a, session, ok, now);
        } else {
          DialResultTouchesOwn(c, w, a, session, ok, now, b);
        }
      case RadioChanged(e, now) => RadioTold(c, w, e, now, b);
      case _ => SmallStepTold(c, w, s, b);
    }
    HeardIs(Effect(c, w, s), Apply(c, w, s), b);
  }

  lemma DialResultTouchesOwn(c: Config, w: Worker, a: Addr, session: nat, ok: bool, now: nat, b: Addr)
    requires a != b
    ensures var w' := OnDialResult(c, w, a, session, ok, now); Heard(w', b) == Heard(w, b) && LinkOf(w', b) == LinkOf(w, b)
  {
    hide DialSettled;
  }

  lemma DialResultHears(c: Config, w: Worker, a: Addr, session: nat, ok: bool, now: nat, b: Addr)
    ensures Heard(w, b) <= Heard(OnDialResult(c, w, a, session, ok, now), b)
  {
    hide DialSettled;
  }

  /** Histories only grow. */
  lemma StepHears(c: Config, w: Worker, s: Step, b: Addr)
    requires Enabled(w, s)
    ensures Heard(w, b) <= Heard(Apply(c, w, s), b)
  {
    hide OnRadio, OnPump, OnDialResult, LinkLost, InboundAccepted, Ticked;
    match s {
      case PumpDials(base, now) => PumpStepEffect(c, w, base, now);
      case RadioChanged(e, now) => RadioQuiet(w, e, now);
      case DialResult(a, session, ok, now) => DialResultHears(c, w, a, session, ok, now, b);
      case OnTick(now) => HeardIs(w, AllTicked(c, w, now), b);
      case _ =>
    }
    HeardIs(Effect(c, w, s), Apply(c, w, s), b);
  }

  lemma {:induction false} BrokenStays(c: Config, w: Worker, steps: seq<Step>, b: Addr)
    requires ValidRun(c, w, steps) && !Alternates(Heard(w, b))
    ensures !Alternates(Heard(After(c, w, steps), b))
    decreases |steps|
  {
    hide Apply, Enabled, Heard;
    if steps != [] {
      var w' := Apply(c, w, steps[0]);
      StepHears(c, w, steps[0], b);
      assert forall i | 0 <= i < |Heard(w, b)| :: Heard(w', b)[i] == Heard(w, b)[i];
      BrokenStays(c, w', steps[1..], b);
    }
  }

  ghost predicate NeverReuses(c: Config, w: Worker, steps: seq<Step>, b: Addr)
    requires ValidRun(c, w, steps)
    decreases |steps|
  {
    steps == [] || (!Reuses(w, steps[0], b) && NeverReuses(c, Apply(c, w, steps[0]), steps[1..], b))
  }

  lemma {:induction false} RunTold(c: Config, w: Worker, steps: seq<Step>, b: Addr)
    requires Safe(c, w) && ValidRun(c, w, steps) && ToldAt(w, b)
    ensures Alternates(Heard(After(c, w, steps), b)) <==> NeverReuses(c, w, steps, b)
    ensures NeverReuses(c, w, steps, b) ==> ToldAt(After(c, w, steps), b)
    decreases |steps|
  {
    hide Safe, Apply, Enabled, Heard, LinkOf, Alternates, Reuses;
    ToldAlternates(Heard(w, b), LinkOf(w, b));
    if steps != [] {
      var w' := Apply(c, w, steps[0]);
      StepKeepsSafe(c, w, steps[0]);
      StepTold(c, w, steps[0], b);
      if Reuses(w, steps[0], b) {
        BrokenStays(c, w', steps[1..], b);
      } else {
        RunTold(c, w', steps[1..], b);
      }
    }
  }

  lemma ToldAlternates(h: seq<Event>, link: Option<nat>)
    requires Told(h, link)
    ensures Alternates(h)
  {}

  /** In every run, across untracking and re-tracking: the Up and Down events of an address
      strictly alternate, starting with Up, if and only if no success carrying the session of its
      link already up is ever handled. */
  lemma AlternatesIffNoReuse(c: Config, radio: RadioState, steps: seq<Step>, a: Addr)
    requires ValidRun(c, Start(radio), steps)
    ensures Alternates(Heard(After(c, Start(radio), steps), a)) <==> NeverReuses(c, Start(radio), steps, a)
  {
    assert Committed(Start(radio).peers) == {};
    RunTold(c, Start(radio), steps, a);
  }

  // ---- Fresh sessions -------------------------------------------------------------------

  /** At most the one result of the dial in flight carries its session; none carries the session
      of an established link. */
  ghost predicate FlightsOk(w: Worker, a: Addr) {
    a in w.peers ==>
      && (w.peers[a].central.Dialing? ==> w.flying[(a, w.peers[a].central.session)] <= 1)
      && (w.peers[a].central.Connected? ==> w.flying[(a, w.peers[a].central.session)] == 0)
  }

  /** A dial that starts gets a session that no outstanding result of that peer carries. */
  ghost predicate FreshDials(c: Config, w: Worker, s: Step)
    requires Enabled(w, s)
  {
    s.PumpDials? ==>
      var w' := Apply(c, w, s);
      forall a <- w'.peers :: w'.peers[a].central.Dialing? && !(a in w.peers && w.peers[a].central.Dialing?) ==>
        w.flying[(a, w'.peers[a].central.session)] == 0
  }

  lemma TickKeepsFlight(c: Config, w: Worker, now: nat, b: Addr)
    requires b in w.peers
    ensures var p := Ticked(c, w.radio.Usable(), w.peers[b], now);
            p.link == w.peers[b].link && (p.central.Dialing? || p.central.Connected? ==> p.central == w.peers[b].central)
  {}

  lemma PumpKeepsFlights(c: Config, w: Worker, s: Step, b: Addr)
    requires FlightsOk(w, b) && Enabled(w, s) && s.PumpDials? && FreshDials(c, w, s)
    ensures FlightsOk(Apply(c, w, s), b)
  {
    hide OnPump;
    var w' := OnPump(c, w, s.base, s.now);
    PumpStepEffect(c, w, s.base, s.now);
    assert PumpedOne(w, w', b, s.now);
    if k :| BeganOne(w, w', b, k, s.now) {
      assert Apply(c, w, s).peers[b] == DialBegun(w.peers[b], k, s.now);
      assert w.flying[(b, k)] == 0;
    }
  }

  lemma DialResultKeepsFlights(c: Config, w: Worker, s: Step, b: Addr)
    requires FlightsOk(w, b) && Safe(c, w) && Enabled(w, s) && s.DialResult?
    ensures FlightsOk(OnDialResult(c, w, s.peer, s.session, s.ok, s.now), b)
  {
    hide DialSettled, Safe;
    if b in w.peers && w.peers[b].central.Session() == Some(s.session) {
      SafePeer(c, w, b);
      SettledCentral(c, w.radio.Usable(), w.peers[b], s.ok, w.nextLinkGen + 1, s.now);
    }
  }

  lemma SettledCentral(c: Config, usable: bool, p: Peer, ok: bool, gen: nat, now: nat)
    requires Coupled(usable, p) && p.central.Session().Some?
    ensures var central := DialSettled(c, p, ok, gen, now).0.central;
            !central.Dialing? && (central.Connected? ==> central.session == p.central.session)
  {}

  lemma RadioKeepsFlights(w: Worker, w': Worker, e: RadioEvent, now: nat, b: Addr)
    requires FlightsOk(w, b) && b in w.peers && Coupled(w.radio.Usable(), w.peers[b])
    requires w'.flying == w.flying && b in w'.peers && w'.peers[b] == RadioFor(w.radio, e, w.peers[b], now)
    ensures FlightsOk(w', b)
  {}

  lemma SmallStepKeepsFlights(c: Config, w: Worker, s: Step, b: Addr)
    requires FlightsOk(w, b) && Safe(c, w) && Enabled(w, s)
    requires s.Track? || s.Untrack? || s.Retry? || s.Inbound? || s.LinkGone? || s.DriverDisconnected? || s.OnTick?
    ensures FlightsOk(Effect(c, w, s), b)
  {
    hide Safe, Ticked;
    if b in w.peers {
      SafePeer(c, w, b);
      if s.OnTick? {
        TickKeepsFlight(c, w, s.now, b);
      }
    }
  }

  lemma StepKeepsFlights(c: Config, w: Worker, s: Step, b: Addr)
    requires FlightsOk(w, b) && Safe(c, w) && Enabled(w, s) && FreshDials(c, w, s)
    ensures FlightsOk(Apply(c, w, s), b)
    ensures !Reuses(w, s, b)
  {
    hide OnRadio, OnPump, OnDialResult, Safe;
    match s {
      case PumpDials(base, now) => PumpKeepsFlights(c, w, s, b);
      case DialResult(a, session, ok, now) => DialResultKeepsFlights(c, w, s, b);
      case RadioChanged(e, now) =>
        RadioQuiet(w, e, now);
        RadioPeers(w, e, now);
        if b in w.peers {
          SafePeer(c, w, b);
          RadioKeepsFlights(w, OnRadio(w, e, now), e, now, b);
        }
      case _ => SmallStepKeepsFlights(c, w, s, b);
    }
  }

  ghost predicate FreshRun(c: Config, w: Worker, steps: seq<Step>)
    requires ValidRun(c, w, steps)
    decreases |steps|
  {
    steps == [] || (FreshDials(c, w, steps[0]) && FreshRun(c, Apply(c, w, steps[0]), steps[1..]))
  }

  lemma {:induction false} FreshNeverReuses(c: Config, w: Worker, steps: seq<Step>, b: Addr)
    requires Safe(c, w) && ValidRun(c, w, steps) && FreshRun(c, w, steps) && FlightsOk(w, b)
    ensures NeverReuses(c, w, steps, b)
    decreases |steps|
  {
    hide Safe, Apply, Enabled, FlightsOk, FreshDials, Reuses;
    if steps != [] {
      StepKeepsSafe(c, w, steps[0]);
      StepKeepsFlights(c, w, steps[0], b);
      FreshNeverReuses(c, Apply(c, w, steps[0]), steps[1..], b);
    }
  }

  /** In every run whose dials get fresh sessions: Up and Down of each address strictly alternate
      starting with Up, and a link is held exactly when the last one is Up, which then names that
      link's generation. */
  lemma UpAndDownAlternate(c: Config, radio: RadioState, steps: seq<Step>, a: Addr)
    requires ValidRun(c, Start(radio), steps) && FreshRun(c, Start(radio), steps)
    ensures var w := After(c, Start(radio), steps);
            && Alternates(Heard(w, a))
            && (LinkOf(w, a).Some? <==> Heard(w, a) != [] && Heard(w, a)[|Heard(w, a)| - 1].Up?)
            && (LinkOf(w, a).Some? ==> Heard(w, a)[|Heard(w, a)| - 1] == Up(LinkOf(w, a).value))
  {
    assert Committed(Start(radio).peers) == {};
    FreshNeverReuses(c, Start(radio), steps, a);
    RunTold(c, Start(radio), steps, a);
  }

  lemma {:induction false} RunKeepsGens(c: Config, w: Worker, steps: seq<Step>)
    requires GensOk(w) && ValidRun(c, w, steps)
    ensures GensOk(After(c, w, steps))
    decreases |steps|
  {
    hide GensOk, Apply;
    if steps != [] {
      StepKeepsGens(c, w, steps[0]);
      RunKeepsGens(c, Apply(c, w, steps[0]), steps[1..]);
    }
  }

  /** In every run, fresh sessions or not: a link-gone notice changes nothing for any address but
      the one its generation was announced to, and there only when that very link, announced by
      the only Up of its generation, is still the one held. */
  lemma NoticeTakesOnlyItsOwnLink(c: Config, radio: RadioState, steps: seq<Step>, gen: nat, now: nat, b: Addr)
    requires ValidRun(c, Start(radio), steps) && Enabled(After(c, Start(radio), steps), LinkGone(gen, now))
    ensures var w := After(c, Start(radio), steps);
            var w' := Apply(c, w, LinkGone(gen, now));
            && (Up(gen) !in Heard(w, b) ==>
                  LinkOf(w', b) == LinkOf(w, b) && Heard(w', b) == Heard(w, b) && (b in w'.peers <==> b in w.peers)
                  && (b in w.peers ==> w'.peers[b] == w.peers[b]))
            && (Heard(w', b) != Heard(w, b) ==> LinkOf(w, b) == Some(gen) && Heard(w', b) == Heard(w, b) + [Down])
            && (LinkOf(w', b) != LinkOf(w, b) ==> LinkOf(w, b) == Some(gen) && LinkOf(w', b) == None)
            && (forall d, i, j | 0 <= i < |Heard(w, b)| && 0 <= j < |Heard(w, d)| && Heard(w, b)[i] == Up(gen) == Heard(w, d)[j] ::
                  b == d && i == j)
  {
    hide After, ValidRun;
    RunKeepsGens(c, Start(radio), steps);
  }

  // ---- Without fresh sessions ---------------------------------------------------------

  lemma PumpSingle(c: Config, w: Worker, a: Addr, base: nat, now: nat)
    requires w.radio.Usable() && w.peers.Keys == {a} && MayStartDial(w.peers[a], now) && c.maxLinks > 0
    ensures OnPump(c, w, base, now) == Dialed(w, a, NextSession(base), now)
  {
    assert Committed(w.peers) == {};
    var w' := Dialed(w, a, NextSession(base), now);
    assert Least({a}) == a;
    assert {a} - {a} == {};
    assert Pumped(w', {}, c.maxLinks - 1, NextSession(base), now) == w';
    assert Pumped(w, {a}, c.maxLinks, base, now) == w';
  }

  const DIALER := Config(DialOnly, [1_000], 60_000, 60_000, 1)

  /** One peer is dialled, the dial runs into its deadline, the next dial gets the same session,
      and then both tasks report success. */
  const REUSE := [Track(7, 0, 0), PumpDials(5, 0), OnTick(DIAL_WINDOW), PumpDials(5, DIAL_WINDOW),
                  DialResult(7, 6, true, DIAL_WINDOW), DialResult(7, 6, true, DIAL_WINDOW)]

  function ReuseState(k: nat): Worker {
    var idle := NewPeer(true, 0);
    var trying := idle.(tryingSince := Some(0));
    if k == 0 then Start(On)
    else if k == 1 then Start(On).(peers := map[7 := idle])
    else if k == 2 then
      Start(On).(peers := map[7 := trying.(central := Dialing(0, 6), attempts := 1, dialTask := Some(6))], flying := multiset{(7, 6)})
    else if k == 3 then
      Start(On).(clock := DIAL_WINDOW, peers := map[7 := trying.(attempts := 1)], flying := multiset{(7, 6)})
    else if k == 4 then
      Start(On).(clock := DIAL_WINDOW, flying := multiset{(7, 6), (7, 6)},
                 peers := map[7 := trying.(central := Dialing(DIAL_WINDOW, 6), attempts := 2, dialTask := Some(6))])
    else if k == 5 then
      Worker(DIAL_WINDOW, On, map[7 := idle.(central := Connected(6), link := Some(1))], 1, multiset{(7, 6)}, map[1 := 7], map[7 := [Up(1)]])
    else
      Worker(DIAL_WINDOW, On, map[7 := idle.(central := Connected(6), link := Some(2))], 2, multiset{}, map[1 := 7, 2 := 7], map[7 := [Up(1), Up(2)]])
  }

  lemma ReusePumps(k: nat)
    requires k == 1 || k == 3
    ensures Enabled(ReuseState(k), REUSE[k]) && Apply(DIALER, ReuseState(k), REUSE[k]) == ReuseState(k + 1)
  {
    hide Pumped, Least;
    var now := if k == 1 then 0 else DIAL_WINDOW;
    PumpSingle(DIALER, ReuseState(k), 7, 5, now);
    assert NextSession(5) == 6;
    assert Dialed(ReuseState(k), 7, 6, now).peers == ReuseState(k + 1).peers;
    assert Dialed(ReuseState(k), 7, 6, now).flying == ReuseState(k + 1).flying;
  }

  lemma ReuseTimesOut()
    ensures Enabled(ReuseState(2), REUSE[2]) && Apply(DIALER, ReuseState(2), REUSE[2]) == ReuseState(3)
  {}

  lemma ReuseSettles()
    ensures var p := ReuseState(4).peers[7];
            DialSettled(DIALER, p, true, 1, DIAL_WINDOW) == (ReuseState(5).peers[7], Some(Up(1)))
    ensures var p := ReuseState(5).peers[7];
            DialSettled(DIALER, p, true, 2, DIAL_WINDOW) == (ReuseState(6).peers[7], Some(Up(2)))
  {}

  lemma SuccessInstalls(c: Config, w: Worker, a: Addr, session: nat, now: nat, p: Peer)
    requires a in w.peers && w.peers[a].central.Session() == Some(session)
    requires DialSettled(c, w.peers[a], true, w.nextLinkGen + 1, now) == (p, Some(Up(w.nextLinkGen + 1)))
    ensures OnDialResult(c, w, a, session, true, now)
         == Installed(w.(flying := w.flying - multiset{(a, session)}), a, p)
  {}

  lemma ReuseSucceeds()
    ensures Enabled(ReuseState(4), REUSE[4]) && Apply(DIALER, ReuseState(4), REUSE[4]) == ReuseState(5)
  {
    hide DialSettled, OnDialResult;
    ReuseSettles();
    SuccessInstalls(DIALER, ReuseState(4), 7, 6, DIAL_WINDOW, ReuseState(5).peers[7]);
    InstallsOnly(ReuseState(4).(flying := multiset{(7, 6)}), 7, ReuseState(5).peers[7]);
    assert ReuseState(4).flying - multiset{(7, 6)} == multiset{(7, 6)};
    var none: seq<Event> := [];
    assert none + [Up(1)] == [Up(1)];
    assert ReuseState(4).notices[1 := 7] == ReuseState(5).notices;
  }

  lemma ReuseSucceedsAgain()
    ensures Enabled(ReuseState(5), REUSE[5]) && Apply(DIALER, ReuseState(5), REUSE[5]) == ReuseState(6)
  {
    hide DialSettled, OnDialResult;
    ReuseSettles();
    SuccessInstalls(DIALER, ReuseState(5), 7, 6, DIAL_WINDOW, ReuseState(6).peers[7]);
    InstallsOnly(ReuseState(5).(flying := multiset{}), 7, ReuseState(6).peers[7]);
    assert ReuseState(5).flying - multiset{(7, 6)} == multiset{};
    assert [Up(1)] + [Up(2)] == [Up(1), Up(2)];
  }

  /** The only peer's record is replaced, and its history grows by one Up. */
  lemma InstallsOnly(w: Worker, a: Addr, p: Peer)
    requires w.peers.Keys == {a} && w.heard.Keys <= {a}
    ensures var gen := w.nextLinkGen + 1;
            Installed(w, a, p) == w.(peers := map[a := p], nextLinkGen := gen, notices := w.notices[gen := a],
                                     heard := map[a := Heard(w, a) + [Up(gen)]])
  {}

  lemma ReuseStep(k: nat)
    requires k < 6
    ensures Enabled(ReuseState(k), REUSE[k]) && Apply(DIALER, ReuseState(k), REUSE[k]) == ReuseState(k + 1)
  {
    hide OnPump, AllTicked, OnDialResult;
    if k == 1 || k == 3 {
      ReusePumps(k);
    } else if k == 2 {
      ReuseTimesOut();
    } else if k == 4 {
      ReuseSucceeds();
    } else if k == 5 {
      ReuseSucceedsAgain();
    }
  }

  lemma {:induction false} ReuseRun(k: nat)
    requires k <= 6
    ensures ValidRun(DIALER, ReuseState(k), REUSE[k..]) && After(DIALER, ReuseState(k), REUSE[k..]) == ReuseState(6)
    decreases 6 - k
  {
    hide Apply, Enabled, ReuseState;
    if k < 6 {
      ReuseStep(k);
      ReuseRun(k + 1);
      assert REUSE[k..][0] == REUSE[k] && REUSE[k..][1..] == REUSE[k + 1..];
    }
  }

  /** The session counter restarts at every pump from the few nanoseconds a clock read takes, so
      two dials of one peer can carry the same session. Then a result of the first, queued past
      its deadline, counts as a second success: the consumer hears Up twice in a row. */
  lemma ReusedSessionRepeatsUp()
    ensures ValidRun(DIALER, Start(On), REUSE)
    ensures Heard(After(DIALER, Start(On), REUSE), 7) == [Up(1), Up(2)]
    ensures !Alternates([Up(1), Up(2)])
  {
    ReuseRun(0);
    assert REUSE[0..] == REUSE;
    assert [Up(1), Up(2)][1].Up?;
  }
}
