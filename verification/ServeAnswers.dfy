/**
  What every step of the serve loop asks of the driver, whom it admits, when it reports a gap and
  when it ends, in terms of the channels and of what the application did with them.
 */
module ServeAnswers {
  import opened Basics
  import opened Serve

  // ---- The slot -------------------------------------------------------------------------

  /** The generation that holds the slot. */
  ghost function Holder(s: State): Option<nat> {
    if exists g :: Holds(s, g) then
      var g :| Holds(s, g);
      Some(g)
    else None
  }

  /** The holder is still in the application's hands. */
  ghost predicate Serving(s: State) {
    Holder(s).Some? && !s.chans[Holder(s).value].dropped
  }

  lemma HolderIs(s: State, g: nat)
    requires Inv(s) && Holds(s, g)
    ensures Holder(s) == Some(g) && s.inbound == map[s.chans[g].peer := Served(s.chans[g].session, g)]
  {
    hide ChanOk, ReleaseOk, TenuresInTurn;
    var p := s.chans[g].peer;
    assert SlotOk(s, p);
    OnlyOne(s, p);
    forall h: nat | Holds(s, h)
      ensures h == g
    {
      assert s.chans[h].peer == p;
    }
  }

  lemma NobodyHolds(s: State)
    requires Inv(s)
    ensures Holder(s) == None <==> s.inbound == map[]
  {
    hide ChanOk, ReleaseOk, TenuresInTurn;
    if s.inbound != map[] {
      var p :| p in s.inbound;
      assert SlotOk(s, p);
      assert Holds(s, s.inbound[p].generation);
    }
  }

  // ---- What one release does ------------------------------------------------------------

  function AskFor(c: Chan): Ask {
    Ask(c.peer, c.session)
  }

  /** The request made for a holder that goes because its channel was dropped: none if the
      application closed the channel and let the link stand. */
  function Farewell(c: Chan): seq<Ask> {
    if c.dropped && !c.keepPeer then [AskFor(c)] else []
  }

  lemma ReleaseOfTheHolder(s: State)
    requires Inv(s) && s.releases != [] && Holds(s, s.releases[0].generation)
    ensures var g := s.releases[0].generation;
            var s1 := ReleaseOne(s.(releases := s.releases[1..]), s.releases[0]);
            && s.chans[g].dropped && s1.inbound == map[] && s1.asks == s.asks + Farewell(s.chans[g])
            && s1.releases == s.releases[1..] && s1.acceptClosed == s.acceptClosed && s1.running == s.running
            && s1.writes == s.writes && s1.clock == s.clock
            && s1.chans == s.chans[g := Ended(s.chans[g], s.clock)]
  {
    hide Inv;
    FirstRelease(s);
    HolderIs(s, s.releases[0].generation);
    OnlyOneEntry(s, s.releases[0].peer);
  }

  lemma ReleaseOfAnother(s: State)
    requires Inv(s) && s.releases != [] && !Holds(s, s.releases[0].generation)
    ensures ReleaseOne(s.(releases := s.releases[1..]), s.releases[0]) == s.(releases := s.releases[1..])
  {
    hide Inv;
    FirstRelease(s);
  }

  /** Draining the releases takes the slot from a dropped holder and does nothing else. */
  lemma {:induction false} DrainIs(s: State)
    requires Inv(s)
    ensures if Holder(s).Some? && s.chans[Holder(s).value].dropped then
              var g := Holder(s).value;
              Drained(s) == s.(releases := [], inbound := map[], asks := s.asks + Farewell(s.chans[g]),
                               chans := s.chans[g := Ended(s.chans[g], s.clock)])
            else Drained(s) == s.(releases := [])
    decreases |s.releases|
  {
    hide Inv, ReleaseOne;
    NobodyHolds(s);
    if s.releases == [] {
      if Holder(s).Some? && s.chans[Holder(s).value].dropped {
        DroppedIsReleased(s, Holder(s).value);
      }
    } else if Holds(s, s.releases[0].generation) {
      HolderIs(s, s.releases[0].generation);
      ReleaseOfTheHolder(s);
      EmptyStaysEmpty(ReleaseOne(s.(releases := s.releases[1..]), s.releases[0]));
    } else {
      ReleaseOfAnother(s);
      ReleaseKeepsInv(s);
      var s1 := s.(releases := s.releases[1..]);
      DrainIs(s1);
      SameHolder(s, s1);
    }
  }

  lemma SameHolder(s: State, s1: State)
    requires Inv(s) && Inv(s1) && s1.inbound == s.inbound && s1.chans == s.chans
    ensures Holder(s1) == Holder(s)
  {
    hide Inv;
    if g :| Holds(s, g) {
      assert Holds(s1, g);
      HolderIs(s, g);
      HolderIs(s1, g);
    } else {
      assert forall g :: Holds(s1, g) ==> Holds(s, g);
    }
  }

  // ---- Requests ---------------------------------------------------------------------------

  /** What a step asks of the driver. */
  ghost function Requests(s: State, a: Step): seq<Ask>
    requires Enabled(s, a)
  {
    match a
    case TakeRelease =>
      // The release of a generation that has lost the slot already is void.
      var g := s.releases[0].generation;
      if Holds(s, g) then Farewell(s.chans[g]) else []
    case Connected(peer, session, offer) =>
      (if Holder(s).Some? then Farewell(s.chans[Holder(s).value]) else [])
      + (if s.acceptClosed then []
         else if Serving(s) then if s.chans[Holder(s).value].peer == peer then [] else [Ask(peer, session)]
         else if offer == Full then [Ask(peer, session)]
         else [])
    case Lagged => if Holder(s).Some? then [AskFor(s.chans[Holder(s).value])] else []
    case DisconnectChannel(g) => [AskFor(s.chans[g])]
    case _ => []
  }

  lemma ConnectedRequests(s: State, peer: Addr, session: Option<nat>, offer: Offer)
    requires Inv(s)
    ensures var a := Connected(peer, session, offer);
            s.running ==> OnConnected(s, peer, session, offer).asks == s.asks + Requests(s, a)
  {
    hide Inv, Drained;
    DrainIs(s);
    NobodyHolds(s);
    if Holder(s).Some? {
      HolderIs(s, Holder(s).value);
    }
  }

  lemma LaggedRequests(s: State)
    requires Inv(s)
    ensures OnLagged(s).asks == s.asks + AskAll(s.inbound)
    ensures AskAll(s.inbound) == if Holder(s).Some? then [AskFor(s.chans[Holder(s).value])] else []
  {
    hide Inv;
    NobodyHolds(s);
    if Holder(s).Some? {
      var g := Holder(s).value;
      HolderIs(s, g);
      OneHeld(s, s.chans[g].peer, (c: Chan) => c);
    }
  }

  lemma TakeReleaseRequests(s: State)
    requires Inv(s) && s.releases != []
    ensures var g := s.releases[0].generation;
            OnRelease(s).asks == s.asks + if Holds(s, g) then Farewell(s.chans[g]) else []
  {
    hide Inv, ReleaseOne;
    if Holds(s, s.releases[0].generation) {
      ReleaseOfTheHolder(s);
    } else {
      ReleaseOfAnother(s);
    }
  }

  lemma OtherRequests(s: State, a: Step)
    requires Enabled(s, a) && !a.Connected? && !a.TakeRelease? && !a.Lagged?
    ensures Effect(s, a).asks == s.asks + if a.DisconnectChannel? then [AskFor(s.chans[a.g])] else []
  {}

  lemma Reachable(steps: seq<Step>)
    requires ValidRun(START, steps)
    ensures Inv(After(START, steps))
  {
    hide Inv, ValidRun, After;
    StartInv();
    RunKeepsInv(START, steps);
  }

  /** In every reachable state each step asks the driver to drop exactly the links it must: the
      holder's when its dropped channel is released, unless the application closed it first, and
      none for a stale release; a second central's, and one's that the accept queue is full for; the
      holder's when events were missed; and the one the application names. */
  lemma RequestsAreExact(steps: seq<Step>, a: Step)
    requires ValidRun(START, steps) && Enabled(After(START, steps), a)
    ensures var s := After(START, steps); Apply(s, a).asks == s.asks + Requests(s, a)
  {
    hide ValidRun, After, Inv, OnConnected, OnLagged, OnRelease, OnWritten, OnDisconnected, Holder;
    Reachable(steps);
    var s := After(START, steps);
    match a {
      case Connected(peer, session, offer) => ConnectedRequests(s, peer, session, offer);
      case TakeRelease => TakeReleaseRequests(s);
      case Lagged => LaggedRequests(s);
      case _ => OtherRequests(s, a);
    }
  }

  // ---- What the application did --------------------------------------------------------------

  /** Nothing is new about a channel but whether it is active and until when it holds the slot. */
  ghost predicate SameButTenure(c: Chan, c': Chan) {
    c' == c.(active := c'.active, until := c'.until)
  }

  ghost predicate OnlyTenures(before: seq<Chan>, after: seq<Chan>) {
    |before| <= |after| && forall g | 0 <= g < |before| :: SameButTenure(before[g], after[g])
  }

  lemma ConnectedChans(s: State, peer: Addr, session: Option<nat>, offer: Offer)
    requires Inv(s)
    ensures var s' := OnConnected(s, peer, session, offer);
            && OnlyTenures(s.chans, s'.chans) && s'.writes == s.writes
            && forall g | |s.chans| <= g < |s'.chans| ::
                 !s'.chans[g].keepPeer && !s'.chans[g].disconnected && s'.chans[g].dropped == !s'.chans[g].handed
  {
    hide Inv, Drained;
    DrainIs(s);
  }

  lemma ReleaseChans(s: State)
    requires Inv(s) && s.releases != []
    ensures OnlyTenures(s.chans, OnRelease(s).chans) && |OnRelease(s).chans| == |s.chans| && OnRelease(s).writes == s.writes
  {
    hide Inv, ReleaseOne;
    if Holds(s, s.releases[0].generation) {
      ReleaseOfTheHolder(s);
    } else {
      ReleaseOfAnother(s);
    }
  }

  /** What the application has done with the channel, after one step. */
  ghost predicate Recorded(s: State, a: Step, s': State, g: nat)
    requires g < |s'.chans|
  {
    var c := s'.chans[g];
    if g < |s.chans| then
      && (c.keepPeer <==> a == CloseChannel(g) || s.chans[g].keepPeer)
      && (c.disconnected <==> a == DisconnectChannel(g) || s.chans[g].disconnected)
      && (c.dropped <==> a == DropChannel(g) || s.chans[g].dropped)
      && c.handed == s.chans[g].handed
    else
      !c.keepPeer && !c.disconnected && c.dropped == !c.handed && !OnChannel(a, g)
  }

  /** A step of the application's on the channel. */
  predicate OnChannel(a: Step, g: nat) {
    a == CloseChannel(g) || a == DisconnectChannel(g) || a == DropChannel(g)
  }

  ghost predicate SameFlags(before: seq<Chan>, after: seq<Chan>) {
    && |before| <= |after|
    && (forall g | 0 <= g < |before| ::
          && after[g].keepPeer == before[g].keepPeer && after[g].disconnected == before[g].disconnected
          && after[g].dropped == before[g].dropped && after[g].handed == before[g].handed)
    && (forall g | |before| <= g < |after| ::
          !after[g].keepPeer && !after[g].disconnected && after[g].dropped == !after[g].handed)
  }

  predicate OfApplication(a: Step) {
    a.CloseChannel? || a.DisconnectChannel? || a.DropChannel?
  }

  lemma LoopLeavesFlags(s: State, a: Step)
    requires Inv(s) && Enabled(s, a) && !OfApplication(a)
    ensures SameFlags(s.chans, Effect(s, a).chans)
  {
    hide Inv, OnConnected, OnRelease, OnWritten, SameFlags, OnlyTenures;
    match a {
      case Connected(peer, session, offer) =>
        ConnectedChans(s, peer, session, offer);
        TenuresLeaveFlags(s.chans, OnConnected(s, peer, session, offer).chans);
      case TakeRelease =>
        ReleaseChans(s);
        TenuresLeaveFlags(s.chans, OnRelease(s).chans);
      case Written(_, _, _) => WriteLeavesFlags(s, a);
      case _ => OthersLeaveFlags(s, a);
    }
  }

  lemma WriteLeavesFlags(s: State, a: Step)
    requires Enabled(s, a) && a.Written?
    ensures SameFlags(s.chans, Effect(s, a).chans)
  {}

  lemma OthersLeaveFlags(s: State, a: Step)
    requires Enabled(s, a) && !OfApplication(a) && !a.Connected? && !a.TakeRelease? && !a.Written?
    ensures SameFlags(s.chans, Effect(s, a).chans)
  {
    hide SameFlags, OnConnected, OnRelease, OnWritten, Emptied, SameButTenure;
    NothingLeavesFlags(s.chans);
    match a {
      case Disconnected(peer, lost) => TenuresLeaveFlags(s.chans, OnDisconnected(s, peer, lost).chans) by {
        LossChans(s, peer, lost);
      }
      case Lagged => EmptiedLeavesFlags(s, LagEnd(s.clock));
      case RadioLost => EmptiedLeavesFlags(s, PlainEnd(s.clock));
      case EventsEnd => EmptiedLeavesFlags(s, (c: Chan) => c.(until := Some(s.clock)));
      case _ =>
    }
  }

  lemma NothingLeavesFlags(chans: seq<Chan>)
    ensures SameFlags(chans, chans)
  {}

  lemma LossChans(s: State, peer: Addr, lost: Option<nat>)
    ensures |OnDisconnected(s, peer, lost).chans| == |s.chans| && OnlyTenures(s.chans, OnDisconnected(s, peer, lost).chans)
  {}

  lemma EmptiedLeavesFlags(s: State, f: Chan -> Chan)
    requires forall c :: f(c) == c.(active := f(c).active, until := f(c).until, overflow := f(c).overflow)
    ensures SameFlags(s.chans, Emptied(s, f).chans)
  {}

  lemma TenuresLeaveFlags(before: seq<Chan>, after: seq<Chan>)
    requires OnlyTenures(before, after)
    requires forall g | |before| <= g < |after| ::
               !after[g].keepPeer && !after[g].disconnected && after[g].dropped == !after[g].handed
    ensures SameFlags(before, after)
  {}

  lemma FlagsMove(s: State, a: Step, g: nat)
    requires Inv(s) && Enabled(s, a)
    ensures |s.chans| <= |Apply(s, a).chans|
    ensures OnChannel(a, g) ==> g < |s.chans| && !s.chans[g].dropped
    ensures g < |Apply(s, a).chans| ==> Recorded(s, a, Apply(s, a), g)
  {
    hide Inv;
    if OfApplication(a) {
    } else {
      hide Effect;
      LoopLeavesFlags(s, a);
    }
  }

  /** A channel is closed, disconnected or dropped if and only if the application did that to that
      very channel, except that one the accept queue did not take is dropped from its start. */
  lemma {:induction false} FlagsAreTheApplications(s: State, steps: seq<Step>, g: nat)
    requires Inv(s) && ValidRun(s, steps) && g < |After(s, steps).chans|
    ensures var c := After(s, steps).chans[g];
            && (c.keepPeer <==> CloseChannel(g) in steps || (g < |s.chans| && s.chans[g].keepPeer))
            && (c.disconnected <==> DisconnectChannel(g) in steps || (g < |s.chans| && s.chans[g].disconnected))
            && (c.dropped <==> DropChannel(g) in steps || (if g < |s.chans| then s.chans[g].dropped else !c.handed))
            && (g < |s.chans| ==> c.handed == s.chans[g].handed)
    decreases |steps|
  {
    hide Inv, Apply, Enabled;
    if steps != [] {
      StepKeepsInv(s, steps[0]);
      FlagsAreTheApplications(Apply(s, steps[0]), steps[1..], g);
      assert steps == [steps[0]] + steps[1..];
      FlagsMove(s, steps[0], g);
    }
  }

  /** Handling the release of a dropped holder asks for its link to be dropped if and only if the
      application never closed the channel. */
  lemma ClosedCentralIsKept(steps: seq<Step>, g: nat)
    requires ValidRun(START, steps) && Enabled(After(START, steps), TakeRelease)
    requires var s := After(START, steps); Holds(s, g) && s.releases[0].generation == g
    ensures var s := After(START, steps);
            var s' := Apply(s, TakeRelease);
            && !Holds(s', g)
            && s'.asks == if CloseChannel(g) in steps then s.asks else s.asks + [Ask(s.chans[g].peer, s.chans[g].session)]
  {
    hide ValidRun, After, Inv, OnRelease;
    var s := After(START, steps);
    Reachable(steps);
    StartInv();
    FlagsAreTheApplications(START, steps, g);
    RequestsAreExact(steps, TakeRelease);
    FirstRelease(s);
    TenuresEndByTheirOwnEvents(steps, TakeRelease, g);
  }

  // ---- Whom the loop admits -------------------------------------------------------------------

  /** A central that connects gets a channel if and only if connections are still taken and no
      channel the application still has holds the slot; the channel is its own, and it holds the
      slot exactly when the accept queue took it. */
  lemma AdmissionIsExact(steps: seq<Step>, peer: Addr, session: Option<nat>, offer: Offer)
    requires ValidRun(START, steps) && Enabled(After(START, steps), Connected(peer, session, offer))
    ensures var s := After(START, steps);
            var s' := Apply(s, Connected(peer, session, offer));
            var admitted := !s.acceptClosed && !Serving(s);
            && |s'.chans| == |s.chans| + (if admitted then 1 else 0)
            && (Holds(s', |s.chans|) <==> admitted && offer == Sent)
            && (admitted ==>
                  && s'.chans[|s.chans|].peer == peer && s'.chans[|s.chans|].session == session
                  && s'.chans[|s.chans|].handed == (offer == Sent) && s'.chans[|s.chans|].from == s.clock)
  {
    hide ValidRun, After, Inv, Drained;
    Reachable(steps);
    var s := After(START, steps);
    DrainIs(s);
    NobodyHolds(s);
    if Holder(s).Some? {
      HolderIs(s, Holder(s).value);
    }
  }

  // ---- Gaps, and the end of the loop ------------------------------------------------------------

  /** A channel's gap flag goes up exactly when the channel holds the slot and one of its own writes
      could not be queued in time or events were missed; and the writes on record are those made. */
  lemma GapsAreReportedExactly(steps: seq<Step>, a: Step, g: nat)
    requires ValidRun(START, steps) && Enabled(After(START, steps), a) && g < |After(START, steps).chans|
    ensures var s := After(START, steps);
            var s' := Apply(s, a);
            && |s.chans| <= |s'.chans|
            && (s'.chans[g].overflow <==>
                  s.chans[g].overflow
                  || (Holds(s, g) && (a.Lagged? || (a.Written? && a.peer == s.chans[g].peer && a.outcome == TimedOut))))
            && s'.writes == (if a.Written? then s.writes + [Write(s.clock, a.peer, a.value, a.outcome)] else s.writes)
  {
    hide ValidRun, After, Inv;
    Reachable(steps);
    GapFlag(After(START, steps), a, g);
  }

  lemma GapFlag(s: State, a: Step, g: nat)
    requires Inv(s) && Enabled(s, a) && g < |s.chans|
    ensures var s' := Apply(s, a);
            && |s.chans| <= |s'.chans|
            && (s'.chans[g].overflow <==>
                  s.chans[g].overflow
                  || (Holds(s, g) && (a.Lagged? || (a.Written? && a.peer == s.chans[g].peer && a.outcome == TimedOut))))
            && s'.writes == (if a.Written? then s.writes + [Write(s.clock, a.peer, a.value, a.outcome)] else s.writes)
  {
    hide Inv, OnConnected, OnRelease;
    if a.Connected? {
      ConnectedChans(s, a.peer, a.session, a.offer);
    } else if a.TakeRelease? {
      ReleaseChans(s);
    } else if a.Written? && a.peer in s.inbound {
      HolderTakes(s, a.peer);
    }
  }

  /** The loop never ends while it serves someone or still takes connections, and it ends with its
      events; otherwise it ends as soon as a release, a loss, a lag or the end of the accept stream
      leaves it idle, or a central finds the accept queue closed. */
  lemma LoopEndsExactly(steps: seq<Step>, a: Step)
    requires ValidRun(START, steps) && Enabled(After(START, steps), a) && After(START, steps).running
    ensures var s := After(START, steps);
            var s' := Apply(s, a);
            && (s'.acceptClosed <==> s.acceptClosed || a.StreamDropped? || (a.Connected? && a.offer == Closed && !Serving(s)))
            && (s'.running <==>
                  if a.EventsEnd? then false
                  else if a.TakeRelease? || a.StreamDropped? || a.Disconnected? || a.Lagged? || a.RadioLost? then
                    !s'.acceptClosed || s'.inbound != map[]
                  else a.Connected? ==> s'.acceptClosed == s.acceptClosed)
  {
    hide ValidRun, After, Inv, Drained, ReleaseOne;
    Reachable(steps);
    var s := After(START, steps);
    NobodyHolds(s);
    if a.Connected? {
      DrainIs(s);
      if Holder(s).Some? {
        HolderIs(s, Holder(s).value);
      }
    } else if a.TakeRelease? {
      if Holds(s, s.releases[0].generation) {
        ReleaseOfTheHolder(s);
      } else {
        ReleaseOfAnother(s);
      }
    }
  }
}
