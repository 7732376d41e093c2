/**
  How often a dialer can dial before it gives up: for any monotone clock and any timing of
  failures, deadlines and ticks.
 */
module RedialBound {
  import opened Basics
  import opened LinkState
  import opened PeerLink
  import opened PeerLinkSafety

  /** The least time between the starts of two successive dials. */
  function Pace(backoff: seq<nat>): nat {
    if backoff == [] then DIAL_WINDOW else Min(backoff[0], Pace(backoff[1..]))
  }

  lemma {:induction false} PaceIsLeast(backoff: seq<nat>, i: nat)
    ensures Pace(backoff) <= DIAL_WINDOW
    ensures i < |backoff| ==> Pace(backoff) <= backoff[i]
  {
    if backoff != [] {
      PaceIsLeast(backoff[1..], if i == 0 then 0 else i - 1);
    }
  }

  /** `n` paces after `s`. */
  function Paces(s: nat, n: nat, pace: nat): nat {
    s + n * pace
  }

  lemma OnePaceMore(s: nat, n: nat, pace: nat)
    ensures Paces(s, n + 1, pace) == Paces(s, n, pace) + pace
    ensures Paces(s, 0, pace) == s
    ensures Paces(s, n, pace) >= s
  {}

  /** `give_up_after` counts from the start of the run of attempts. */
  ghost predicate Early(c: Config, s: nat, at: nat) {
    at < s + c.giveUpAfter
  }

  /**
    The `attempts`-th dial of a run began no earlier than that many paces after the run's start,
    less one; all but the last began before the give-up time; and a peer between two dials
    either has given up or waits out a full pace.
   */
  ghost predicate Budgeted(c: Config, clock: nat, p: Peer) {
    var n, pace := p.attempts, Pace(c.backoff);
    && (!p.dials ==> n == 0)
    && (p.tryingSince.Some? ==> p.tryingSince.value <= clock)
    && (p.central.Dialing? ==> p.central.since <= clock)
    && (n > 0 ==>
          && p.tryingSince.Some?
          && (p.central.Dialing? || p.central.Idle?)
          && var s := p.tryingSince.value;
             && (n > 1 ==> Early(c, s, Paces(s, n - 2, pace)))
             && (p.central.Dialing? ==> Paces(s, n - 1, pace) <= p.central.since)
             && (p.central.Idle? && !p.gaveUp ==>
                   && Early(c, s, Paces(s, n - 1, pace))
                   && (Paces(s, n, pace) <= clock || (p.retryAt.Some? && Paces(s, n, pace) <= p.retryAt.value))))
  }

  lemma LaterStaysBudgeted(c: Config, clock: nat, p: Peer, now: nat)
    requires Budgeted(c, clock, p) && now >= clock
    ensures Budgeted(c, now, p)
  {}

  lemma DialStaysBudgeted(c: Config, clock: nat, p: Peer, session: nat, now: nat)
    requires Budgeted(c, clock, p) && now >= clock && MayStartDial(p, now)
    ensures Budgeted(c, now, DialBegun(p, session, now))
  {}

  lemma BackoffStaysBudgeted(c: Config, clock: nat, p: Peer, now: nat)
    requires Budgeted(c, clock, p) && now >= clock && p.central.Dialing?
    ensures Budgeted(c, now, BackedOff(c, p.(dialTask := None, central := Idle), now))
  {
    hide Pace, Paces;
    var p' := BackedOff(c, p.(dialTask := None, central := Idle), now);
    var n := p.attempts;
    if c.backoff != [] {
      PaceIsLeast(c.backoff, if n == 0 then 0 else if n <= |c.backoff| then n - 1 else |c.backoff| - 1);
    }
    if n > 0 {
      OnePaceMore(p.tryingSince.value, n - 1, Pace(c.backoff));
    }
  }

  /** A dial that hits its deadline is over a full pace after it began. */
  lemma TickStaysBudgeted(c: Config, usable: bool, clock: nat, p: Peer, now: nat)
    requires Budgeted(c, clock, p) && now >= clock && Coupled(usable, p)
    ensures Budgeted(c, now, Ticked(c, usable, p, now))
  {
    hide Pace, Paces;
    PaceIsLeast(c.backoff, 0);
    if p.attempts > 0 {
      OnePaceMore(p.tryingSince.value, p.attempts - 1, Pace(c.backoff));
    }
  }

  lemma SettledStaysBudgeted(c: Config, usable: bool, clock: nat, p: Peer, ok: bool, gen: nat, now: nat)
    requires Budgeted(c, clock, p) && now >= clock && Coupled(usable, p) && p.central.Session().Some?
    ensures Budgeted(c, now, DialSettled(c, p, ok, gen, now).0)
  {
    hide Pace, Paces;
    if p.central.Dialing? {
      BackoffStaysBudgeted(c, clock, p, now);
    }
  }

  lemma RadioStaysBudgeted(c: Config, clock: nat, r: RadioState, e: RadioEvent, p: Peer, now: nat)
    requires Budgeted(c, clock, p) && now >= clock && Coupled(r.Usable(), p)
    ensures Budgeted(c, now, RadioFor(r, e, p, now))
  {}

  // ---- Every step -----------------------------------------------------------------------

  ghost predicate AllBudgeted(c: Config, w: Worker) {
    forall a <- w.peers :: Budgeted(c, w.clock, w.peers[a])
  }

  ghost function DialsSoFar(w: Worker, a: Addr): nat {
    if a in w.peers then w.peers[a].attempts else 0
  }

  ghost predicate IsDialing(w: Worker, a: Addr) {
    a in w.peers && w.peers[a].central.Dialing?
  }

  /** The step starts a dial of `a`. */
  ghost predicate Starts(c: Config, w: Worker, s: Step, a: Addr)
    requires Enabled(w, s)
  {
    IsDialing(Apply(c, w, s), a) && !IsDialing(w, a)
  }

  /** What begins a new run of attempts for `a`: a retry, a radio loss, a successful dial, a lost
      link, or untracking. */
  predicate Resets(w: Worker, s: Step, a: Addr) {
    match s
    case Retry(b, _) => b == a
    case Untrack(b) => b == a
    case RadioChanged(e, _) => w.radio.Apply(e).1
    case DialResult(b, session, ok, _) => b == a && ok && a in w.peers && w.peers[a].central.Session() == Some(session)
    case LinkGone(gen, _) => a in w.peers && w.peers[a].link == Some(gen)
    case _ => false
  }

  /** One address through one step. */
  ghost predicate OneOk(c: Config, w: Worker, w': Worker, now: nat, a: Addr, reset: bool) {
    && (a in w'.peers ==> Budgeted(c, now, w'.peers[a]))
    && (!reset ==> DialsSoFar(w', a) == DialsSoFar(w, a) + if IsDialing(w', a) && !IsDialing(w, a) then 1 else 0)
  }

  lemma PumpIsOk(c: Config, w: Worker, base: nat, now: nat, a: Addr)
    requires AllBudgeted(c, w) && now >= w.clock
    ensures OneOk(c, w, OnPump(c, w, base, now), now, a, false)
  {
    hide Budgeted, OnPump, Pace;
    var w' := OnPump(c, w, base, now);
    PumpStepEffect(c, w, base, now);
    assert PumpedOne(w, w', a, now);
    if s :| BeganOne(w, w', a, s, now) {
      DialStaysBudgeted(c, w.clock, w.peers[a], s, now);
    } else if a in w.peers {
      LaterStaysBudgeted(c, w.clock, w.peers[a], now);
    }
  }

  lemma DialResultIsOk(c: Config, w: Worker, s: Step, a: Addr)
    requires AllBudgeted(c, w) && Safe(c, w) && Enabled(w, s) && s.DialResult?
    ensures OneOk(c, w, OnDialResult(c, w, s.peer, s.session, s.ok, s.now), s.now, a, Resets(w, s, a))
  {
    hide Budgeted, Pace, BackedOff;
    if a in w.peers {
      LaterStaysBudgeted(c, w.clock, w.peers[a], s.now);
      if a == s.peer && w.peers[a].central.Session() == Some(s.session) {
        var p := w.peers[a];
        assert Coupled(w.radio.Usable(), p);
        SettledStaysBudgeted(c, w.radio.Usable(), w.clock, p, s.ok, w.nextLinkGen + 1, s.now);
        BackoffCountsNothing(c, p.(dialTask := None, central := p.central.Apply(DialFailed, s.now).0), s.now);
      }
    }
  }

  lemma BackoffCountsNothing(c: Config, p: Peer, now: nat)
    ensures BackedOff(c, p, now).attempts == p.attempts && BackedOff(c, p, now).central == p.central
  {}

  lemma RadioIsOk(c: Config, w: Worker, e: RadioEvent, now: nat, a: Addr)
    requires AllBudgeted(c, w) && Safe(c, w) && now >= w.clock
    ensures OneOk(c, w, OnRadio(w, e, now), now, a, w.radio.Apply(e).1)
  {
    hide Budgeted, Pace, OnRadio;
    RadioPeers(w, e, now);
    if a in w.peers {
      assert Coupled(w.radio.Usable(), w.peers[a]);
      RadioStaysBudgeted(c, w.clock, w.radio, e, w.peers[a], now);
    }
  }

  lemma TickIsOk(c: Config, w: Worker, now: nat, a: Addr)
    requires AllBudgeted(c, w) && Safe(c, w) && now >= w.clock
    ensures OneOk(c, w, AllTicked(c, w, now), now, a, false)
  {
    hide Budgeted, Pace;
    if a in w.peers {
      assert Coupled(w.radio.Usable(), w.peers[a]);
      TickStaysBudgeted(c, w.radio.Usable(), w.clock, w.peers[a], now);
    }
  }

  lemma OthersStayBudgeted(c: Config, usable: bool, clock: nat, p: Peer, gen: nat, session: nat, now: nat)
    requires Budgeted(c, clock, p) && now >= clock && Coupled(usable, p)
    ensures Budgeted(c, now, p)
    ensures Budgeted(c, now, Retried(p, now))
    ensures Budgeted(c, now, LinkLost(p, now)) || p.link == None
    ensures !p.dials ==> Budgeted(c, now, InboundAccepted(p, gen, session, now))
    ensures DriverDropped(p, now) == p
  {}

  lemma NewIsBudgeted(c: Config, dials: bool, now: nat)
    ensures Budgeted(c, now, NewPeer(dials, now))
  {}

  lemma SmallStepIsOk(c: Config, w: Worker, s: Step, a: Addr)
    requires AllBudgeted(c, w) && Safe(c, w) && Enabled(w, s)
    requires s.Track? || s.Untrack? || s.Retry? || s.Inbound? || s.LinkGone? || s.DriverDisconnected?
    ensures OneOk(c, w, Effect(c, w, s), At(w, s), a, Resets(w, s, a))
  {
    hide Budgeted, Coupled, WithinCap, DriverDropped;
    if a in w.peers {
      OthersStayBudgeted(c, w.radio.Usable(), w.clock, w.peers[a], w.nextLinkGen + 1,
                         if s.Inbound? then s.session else 0, At(w, s));
    } else if s.Track? {
      NewIsBudgeted(c, DialsPeer(c.role, s.peerId), s.now);
    }
  }

  lemma StepIsOk(c: Config, w: Worker, s: Step, a: Addr)
    requires AllBudgeted(c, w) && Safe(c, w) && Enabled(w, s)
    ensures OneOk(c, w, Apply(c, w, s), At(w, s), a, Resets(w, s, a))
  {
    hide Budgeted, OnPump, OnRadio, OnDialResult, AllTicked, AllBudgeted;
    match s {
      case PumpDials(base, now) => PumpIsOk(c, w, base, now, a);
      case DialResult(_, _, _, _) => DialResultIsOk(c, w, s, a);
      case RadioChanged(e, now) => RadioIsOk(c, w, e, now, a);
      case OnTick(now) => TickIsOk(c, w, now, a);
      case _ => SmallStepIsOk(c, w, s, a);
    }
  }

  lemma StepKeepsBudget(c: Config, w: Worker, s: Step)
    requires AllBudgeted(c, w) && Safe(c, w) && Enabled(w, s)
    ensures AllBudgeted(c, Apply(c, w, s))
  {
    hide Budgeted, Effect;
    forall a | a in Apply(c, w, s).peers
      ensures Budgeted(c, At(w, s), Apply(c, w, s).peers[a])
    {
      StepIsOk(c, w, s, a);
    }
  }

  // ---- The bound --------------------------------------------------------------------------

  ghost predicate NoReset(c: Config, w: Worker, steps: seq<Step>, a: Addr)
    requires ValidRun(c, w, steps)
    decreases |steps|
  {
    steps == [] || (!Resets(w, steps[0], a) && NoReset(c, Apply(c, w, steps[0]), steps[1..], a))
  }

  /** The dials of `a` that begin during the run. */
  ghost function DialsOf(c: Config, w: Worker, steps: seq<Step>, a: Addr): nat
    requires ValidRun(c, w, steps)
    decreases |steps|
  {
    if steps == [] then 0
    else (if Starts(c, w, steps[0], a) then 1 else 0) + DialsOf(c, Apply(c, w, steps[0]), steps[1..], a)
  }

  lemma {:induction false} DialsAreCounted(c: Config, w: Worker, steps: seq<Step>, a: Addr)
    requires AllBudgeted(c, w) && Safe(c, w) && ValidRun(c, w, steps) && NoReset(c, w, steps, a)
    ensures DialsSoFar(After(c, w, steps), a) == DialsSoFar(w, a) + DialsOf(c, w, steps, a)
    ensures AllBudgeted(c, After(c, w, steps))
    decreases |steps|
  {
    hide AllBudgeted, Safe, Apply, Budgeted;
    if steps != [] {
      StepKeepsSafe(c, w, steps[0]);
      StepKeepsBudget(c, w, steps[0]);
      StepIsOk(c, w, steps[0], a);
      DialsAreCounted(c, Apply(c, w, steps[0]), steps[1..], a);
    }
  }

  function Ceiling(n: nat, d: nat): nat
    requires d > 0
  {
    (n + d - 1) / d
  }

  lemma CeilingBound(n: nat, d: nat, k: nat)
    requires d > 0 && (k > 0 ==> (k - 1) * d < n)
    ensures k <= Ceiling(n, d)
  {
    var q := Ceiling(n, d);
    assert n <= q * d;
    if k > q {
      MulOrder(q, k - 1, d);
    }
  }

  lemma BudgetBounds(c: Config, clock: nat, p: Peer)
    requires Budgeted(c, clock, p) && Pace(c.backoff) > 0
    ensures p.attempts <= 1 + Ceiling(c.giveUpAfter, Pace(c.backoff))
  {
    if p.attempts > 1 {
      CeilingBound(c.giveUpAfter, Pace(c.backoff), p.attempts - 1);
    }
  }

  lemma {:induction false} RunKeepsBudget(c: Config, w: Worker, steps: seq<Step>)
    requires AllBudgeted(c, w) && Safe(c, w) && ValidRun(c, w, steps)
    ensures AllBudgeted(c, After(c, w, steps)) && Safe(c, After(c, w, steps))
    decreases |steps|
  {
    hide AllBudgeted, Safe, Apply;
    if steps != [] {
      StepKeepsSafe(c, w, steps[0]);
      StepKeepsBudget(c, w, steps[0]);
      RunKeepsBudget(c, Apply(c, w, steps[0]), steps[1..]);
    }
  }

  /** From any reachable state, for any stretch of the run without a reset of `a`: the dials of
      `a` that begin in it number at most 1 + ceil(give_up_after / pace), the pace being the
      least backoff entry or the dial deadline, whichever is shorter. */
  lemma DialsAreBounded(c: Config, radio: RadioState, before: seq<Step>, steps: seq<Step>, a: Addr)
    requires Pace(c.backoff) > 0
    requires ValidRun(c, Start(radio), before)
    requires ValidRun(c, After(c, Start(radio), before), steps)
    requires NoReset(c, After(c, Start(radio), before), steps, a)
    ensures DialsOf(c, After(c, Start(radio), before), steps, a) <= 1 + Ceiling(c.giveUpAfter, Pace(c.backoff))
  {
    hide Budgeted, NoReset, DialsOf, Ceiling;
    assert Committed(Start(radio).peers) == {};
    RunKeepsBudget(c, Start(radio), before);
    var w := After(c, Start(radio), before);
    DialsAreCounted(c, w, steps, a);
    var w' := After(c, w, steps);
    if a in w'.peers {
      BudgetBounds(c, w'.clock, w'.peers[a]);
    }
  }

  // ---- Giving up --------------------------------------------------------------------------------

  /** What lets a dialer that gave up dial again: a retry, a radio loss, or tracking it afresh. A
      success of the dial still in flight and the loss of its link do not. */
  predicate Revives(w: Worker, s: Step, a: Addr) {
    match s
    case Retry(b, _) => b == a
    case Untrack(b) => b == a
    case RadioChanged(e, _) => w.radio.Apply(e).1
    case _ => false
  }

  ghost predicate GivenUp(w: Worker, a: Addr) {
    a in w.peers && w.peers[a].dials && w.peers[a].gaveUp
  }

  lemma RadioKeepsGivenUp(w: Worker, e: RadioEvent, now: nat, a: Addr)
    requires GivenUp(w, a) && !w.radio.Apply(e).1
    ensures GivenUp(OnRadio(w, e, now), a)
    ensures IsDialing(OnRadio(w, e, now), a) ==> IsDialing(w, a)
  {
    hide OnRadio;
    RadioPeers(w, e, now);
  }

  lemma PeerKeepsGivenUp(c: Config, usable: bool, p: Peer, ok: bool, gen: nat, now: nat)
    requires p.gaveUp && p.dials
    ensures var settled := DialSettled(c, p, ok, gen, now).0;
            settled.gaveUp && settled.dials && (settled.central.Dialing? ==> p.central.Dialing?)
    ensures var ticked := Ticked(c, usable, p, now);
            ticked.gaveUp && ticked.dials && (ticked.central.Dialing? ==> p.central.Dialing?)
    ensures var lost := LinkLost(p, now);
            lost.gaveUp && lost.dials && (lost.central.Dialing? ==> p.central.Dialing?)
    ensures var dropped := DriverDropped(p, now);
            dropped.gaveUp && dropped.dials && (dropped.central.Dialing? ==> p.central.Dialing?)
  {}

  lemma OthersKeepGivenUp(c: Config, w: Worker, s: Step, a: Addr)
    requires GivenUp(w, a) && Enabled(w, s) && !Revives(w, s, a) && !s.PumpDials? && !s.RadioChanged?
    ensures GivenUp(Effect(c, w, s), a)
    ensures IsDialing(Effect(c, w, s), a) ==> IsDialing(w, a)
  {
    hide DialSettled, Ticked, LinkLost, DriverDropped, Installed;
    PeerKeepsGivenUp(c, w.radio.Usable(), w.peers[a], s.DialResult? && s.ok, w.nextLinkGen + 1, At(w, s));
    if s.DialResult? {
      DialResultKeepsGivenUp(c, w, s, a);
    } else if s.Inbound? {
      InboundTouchesOwn(c, w, s, a);
    }
  }

  lemma DialResultKeepsGivenUp(c: Config, w: Worker, s: Step, a: Addr)
    requires GivenUp(w, a) && Enabled(w, s) && s.DialResult?
    ensures GivenUp(Effect(c, w, s), a)
    ensures IsDialing(Effect(c, w, s), a) ==> IsDialing(w, a)
  {
    hide DialSettled;
    PeerKeepsGivenUp(c, w.radio.Usable(), w.peers[a], s.ok, w.nextLinkGen + 1, s.now);
  }

  lemma InboundTouchesOwn(c: Config, w: Worker, s: Step, a: Addr)
    requires Enabled(w, s) && s.Inbound? && a in w.peers && w.peers[a].dials
    ensures a in Effect(c, w, s).peers && Effect(c, w, s).peers[a] == w.peers[a]
  {}

  lemma StepKeepsGivenUp(c: Config, w: Worker, s: Step, a: Addr)
    requires GivenUp(w, a) && Enabled(w, s) && !Revives(w, s, a)
    ensures GivenUp(Apply(c, w, s), a) && !Starts(c, w, s, a)
  {
    hide OnPump, OnRadio, OnDialResult, AllTicked;
    match s {
      case PumpDials(base, now) =>
        PumpStepEffect(c, w, base, now);
        assert PumpedOne(w, OnPump(c, w, base, now), a, now);
      case RadioChanged(e, now) => RadioKeepsGivenUp(w, e, now, a);
      case _ => OthersKeepGivenUp(c, w, s, a);
    }
  }

  ghost predicate NeverRevives(c: Config, w: Worker, steps: seq<Step>, a: Addr)
    requires ValidRun(c, w, steps)
    decreases |steps|
  {
    steps == [] || (!Revives(w, steps[0], a) && NeverRevives(c, Apply(c, w, steps[0]), steps[1..], a))
  }

  /** A dialer that gave up begins no dial, however long the run and whatever arrives late, until
      it is retried, the radio is lost or it is tracked afresh. */
  lemma {:induction false} GivenUpDialsNoMore(c: Config, w: Worker, steps: seq<Step>, a: Addr)
    requires GivenUp(w, a) && ValidRun(c, w, steps) && NeverRevives(c, w, steps, a)
    ensures DialsOf(c, w, steps, a) == 0 && GivenUp(After(c, w, steps), a)
    decreases |steps|
  {
    hide Apply, Enabled, Starts, GivenUp, Revives;
    if steps != [] {
      StepKeepsGivenUp(c, w, steps[0], a);
      GivenUpDialsNoMore(c, Apply(c, w, steps[0]), steps[1..], a);
    }
  }

  // ---- An empty backoff ---------------------------------------------------------------------

  /** With an empty backoff a failed dial is the last one, but a dial that runs into its deadline
      is redialled, exactly while the give-up time has not passed. */
  lemma EmptyBackoffRedialsAfterDeadline(c: Config, p: Peer, gen: nat, now: nat)
    requires c.backoff == [] && p.dials && p.central.Dialing? && p.link == None && !p.gaveUp && p.retryAt == None
    requires p.tryingSince.Some? && Elapsed(now, p.central.since) >= DIAL_WINDOW
    ensures MayStartDial(Ticked(c, true, p, now), now) <==> Elapsed(now, p.tryingSince.value) < c.giveUpAfter
    ensures !MayStartDial(DialSettled(c, p, false, gen, now).0, now)
  {}
}
