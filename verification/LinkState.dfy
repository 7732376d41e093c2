/**
  The pure state machines of one peer's link (`connection/link_state.rs`): the radio, a link
  this side dialled, and a link a remote central opened. Each transition takes the time as an
  argument and returns the next state with its effects; pairs that are not listed are no-ops.
 */
module LinkState {
  import opened Basics

  /** Milliseconds. */
  const DIAL_WINDOW: nat := 20_000
  const DISCONNECT_WINDOW: nat := 5_000
  const DRAIN_WINDOW: nat := 10_000

  // ---- Radio ----------------------------------------------------------------------

  datatype RadioState = Off | On | Unsupported {
    predicate Usable() {
      On?
    }

    /** The next state, and whether every link has to be invalidated. */
    function Apply(e: RadioEvent): (RadioState, bool) {
      match (this, e)
      case (On, PoweredOff) => (Off, true)
      case (On, NoAdapter) => (Unsupported, true)
      case (Off, PoweredOn) => (On, false)
      case (Off, NoAdapter) => (Unsupported, false)
      case (Unsupported, PoweredOn) => (On, false)
      case (_, _) => (this, false)
    }
  }

  datatype RadioEvent = PoweredOn | PoweredOff | NoAdapter

  /** Whatever came before, the radio is usable exactly after it was reported on, and links are
      invalidated exactly when it stops being usable. */
  lemma RadioInvalidatesOnLoss(r: RadioState, e: RadioEvent)
    ensures r.Apply(e).0.Usable() <==> e == PoweredOn
    ensures r.Apply(e).1 <==> r.Usable() && e != PoweredOn
    ensures e == NoAdapter ==> r.Apply(e).0 == Unsupported
    ensures e == PoweredOff ==> r.Apply(e).0 == if r == Unsupported then Unsupported else Off
  {}

  // ---- Central --------------------------------------------------------------------

  /** Close the platform link of this peer, and tell the consumer if it knew of it. */
  datatype TearDown = TearDown(emitDisconnected: bool)

  datatype CentralEvent =
    | DialStarted(session: nat) | DialSucceeded | DialFailed | DisconnectRequested | LinkDropped
    | DisconnectConfirmed | CleanupStarted | CleanupConfirmed | RadioLost | RadioBack | Tick

  datatype CentralLink =
    | Idle
    | Dialing(since: nat, session: nat)
    | Connected(session: nat)
    | Disconnecting(since: nat, session: nat)
    | Draining(since: nat)
    | RadioOff
  {
    predicate HasConnection() {
      Connected? || Disconnecting?
    }

    predicate HoldsResource() {
      !Idle? && !RadioOff?
    }

    predicate MayDial() {
      Idle?
    }

    function Session(): Option<nat> {
      if Dialing? || Connected? || Disconnecting? then Some(session) else None
    }

    function Apply(e: CentralEvent, now: nat): (CentralLink, Option<TearDown>) {
      match (this, e)
      case (_, RadioLost) =>
        (RadioOff, if HasConnection() then Some(TearDown(true)) else if HoldsResource() then Some(TearDown(false)) else None)
      case (RadioOff, RadioBack) => (Idle, None)
      case (Idle, DialStarted(s)) => (Dialing(now, s), None)
      case (Dialing(_, s), DialSucceeded) => (Connected(s), None)
      case (Dialing(_, _), DialFailed) => (Idle, Some(TearDown(false)))
      case (Dialing(t, _), Tick) => if Elapsed(now, t) >= DIAL_WINDOW then (Idle, Some(TearDown(false))) else (this, None)
      case (Connected(s), DisconnectRequested) => (Disconnecting(now, s), None)
      case (Connected(_), LinkDropped) => (Idle, Some(TearDown(true)))
      case (Disconnecting(_, _), DisconnectConfirmed) => (Idle, None)
      case (Disconnecting(t, _), Tick) =>
        if Elapsed(now, t) >= DISCONNECT_WINDOW then (Idle, Some(TearDown(true))) else (this, None)
      case (Idle, CleanupStarted) => (Draining(now), None)
      case (Dialing(_, _), CleanupStarted) => (Draining(now), None)
      case (Draining(_), CleanupConfirmed) => (Idle, None)
      case (Draining(t), Tick) =>
        if Elapsed(now, t) >= DRAIN_WINDOW then (Draining(now), Some(TearDown(false))) else (this, None)
      case (_, _) => (this, None)
    }
  }

  predicate Emits(t: Option<TearDown>) {
    t.Some? && t.value.emitDisconnected
  }

  /** A `Disconnected` is emitted exactly when a connection the consumer knew of ends in any
      other way than by the confirmed teardown it asked for. */
  lemma CentralEmitsExactlyOnLoss(c: CentralLink, e: CentralEvent, now: nat)
    ensures var (c', t) := c.Apply(e, now);
            Emits(t) <==> c.HasConnection() && !c'.HasConnection() && e != DisconnectConfirmed
  {}

  /** A platform resource is given up only with a teardown, or once the platform resolved it. */
  lemma CentralNeverLeaks(c: CentralLink, e: CentralEvent, now: nat)
    ensures var (c', t) := c.Apply(e, now);
            c.HoldsResource() && !c'.HoldsResource() ==> t.Some? || e == DisconnectConfirmed || e == CleanupConfirmed
  {}

  datatype Timed<E> = Timed(event: E, now: nat)

  ghost function CentralRun(c: CentralLink, events: seq<Timed<CentralEvent>>): CentralLink
    decreases |events|
  {
    if events == [] then c else CentralRun(c.Apply(events[0].event, events[0].now).0, events[1..])
  }

  /** How often a dial became a connection. */
  ghost function Opened(c: CentralLink, events: seq<Timed<CentralEvent>>): nat
    decreases |events|
  {
    if events == [] then 0
    else
      (if c.Dialing? && events[0].event == DialSucceeded then 1 else 0)
      + Opened(c.Apply(events[0].event, events[0].now).0, events[1..])
  }

  /** How often the consumer was told of a loss, or had its own teardown confirmed. */
  ghost function Closed(c: CentralLink, events: seq<Timed<CentralEvent>>): nat
    decreases |events|
  {
    if events == [] then 0
    else
      var (c', t) := c.Apply(events[0].event, events[0].now);
      (if Emits(t) || (c.Disconnecting? && events[0].event == DisconnectConfirmed) then 1 else 0) + Closed(c', events[1..])
  }

  ghost function One(b: bool): nat {
    if b then 1 else 0
  }

  /** Conservation: over any events at any times, every connection opened is either still there
      or was closed exactly once, by an emitted loss or a confirmed teardown. */
  lemma {:induction false} CentralConserved(c: CentralLink, events: seq<Timed<CentralEvent>>)
    ensures One(c.HasConnection()) + Opened(c, events) == Closed(c, events) + One(CentralRun(c, events).HasConnection())
    decreases |events|
  {
    if events != [] {
      CentralConserved(c.Apply(events[0].event, events[0].now).0, events[1..]);
    }
  }

  /** A connection nobody asks to close stands until it drops or the radio goes, and no longer. */
  lemma {:induction false} ConnectionStandsUntilLost(session: nat, events: seq<Timed<CentralEvent>>)
    requires forall e <- events :: !e.event.DialStarted? && !e.event.DisconnectRequested?
    ensures CentralRun(Connected(session), events).HasConnection()
       <==> forall e <- events :: e.event != LinkDropped && e.event != RadioLost
    decreases |events|
  {
    if events != [] {
      assert events == [events[0]] + events[1..];
      if events[0].event == LinkDropped || events[0].event == RadioLost {
        NoConnectionWithoutDial(Connected(session).Apply(events[0].event, events[0].now).0, events[1..]);
      } else {
        ConnectionStandsUntilLost(session, events[1..]);
      }
    }
  }

  /** After a radio loss nothing but its return lets a peer be dialled or have anything, and its
      return does. */
  lemma RadioOffUntilBack(c: CentralLink, since: nat, events: seq<Timed<CentralEvent>>)
    requires forall e <- events :: e.event != RadioBack
    ensures CentralRun(c, [Timed(RadioLost, since)] + events) == RadioOff
    ensures RadioOff.Apply(RadioBack, since).0.MayDial()
  {
    assert ([Timed(RadioLost, since)] + events)[1..] == events;
    StaysOff(events);
  }

  lemma {:induction false} StaysOff(events: seq<Timed<CentralEvent>>)
    requires forall e <- events :: e.event != RadioBack
    ensures CentralRun(RadioOff, events) == RadioOff
    decreases |events|
  {
    if events != [] {
      assert forall e <- events[1..] :: e in events;
      assert events[0] in events;
      StaysOff(events[1..]);
    }
  }

  /** What ends a requested disconnect that began at `since`: the platform's word, the loss of the
      radio, and a tick once its window is over. */
  predicate EndsDisconnect(e: Timed<CentralEvent>, since: nat) {
    e.event == DisconnectConfirmed || e.event == RadioLost || (e.event == Tick && Elapsed(e.now, since) >= DISCONNECT_WINDOW)
  }

  lemma {:induction false} NoConnectionWithoutDial(c: CentralLink, events: seq<Timed<CentralEvent>>)
    requires !c.HasConnection() && !c.Dialing? && forall e <- events :: !e.event.DialStarted?
    ensures !CentralRun(c, events).HasConnection()
    decreases |events|
  {
    if events != [] {
      assert forall e <- events[1..] :: e in events;
      NoConnectionWithoutDial(c.Apply(events[0].event, events[0].now).0, events[1..]);
    }
  }

  lemma {:induction false} DisconnectingEnds(since: nat, session: nat, events: seq<Timed<CentralEvent>>)
    requires forall e <- events :: !e.event.DialStarted?
    ensures CentralRun(Disconnecting(since, session), events).HasConnection()
       <==> forall e <- events :: !EndsDisconnect(e, since)
    decreases |events|
  {
    if events != [] {
      assert events == [events[0]] + events[1..];
      if EndsDisconnect(events[0], since) {
        NoConnectionWithoutDial(Disconnecting(since, session).Apply(events[0].event, events[0].now).0, events[1..]);
      } else {
        DisconnectingEnds(since, session, events[1..]);
      }
    }
  }

  /** A connection whose disconnect is requested is there until the platform confirms, the radio goes
      or the window is over, and no longer, whatever else happens and however late. */
  lemma RequestedDisconnectEndsExactly(session: nat, since: nat, events: seq<Timed<CentralEvent>>)
    requires forall e <- events :: !e.event.DialStarted?
    ensures CentralRun(Connected(session), [Timed(DisconnectRequested, since)] + events).HasConnection()
       <==> forall e <- events :: !EndsDisconnect(e, since)
  {
    assert ([Timed(DisconnectRequested, since)] + events)[1..] == events;
    DisconnectingEnds(since, session, events);
  }

  /** What decides a dial that began at `since`. */
  predicate DecidesDial(e: Timed<CentralEvent>, since: nat) {
    e.event == DialSucceeded || e.event == DialFailed || e.event == RadioLost || e.event == CleanupStarted
    || (e.event == Tick && Elapsed(e.now, since) >= DIAL_WINDOW)
  }

  /** A dial is open until the first event that decides it, and becomes a connection, of its own
      session, exactly when that is its success. */
  lemma {:induction false} FirstWordDecidesTheDial(since: nat, session: nat, events: seq<Timed<CentralEvent>>, e: Timed<CentralEvent>)
    requires forall x <- events :: !DecidesDial(x, since)
    ensures CentralRun(Dialing(since, session), events) == Dialing(since, session)
    ensures DecidesDial(e, since) ==>
              var c := CentralRun(Dialing(since, session), events + [e]);
              !c.Dialing? && (c.HasConnection() <==> e.event == DialSucceeded) && (c.HasConnection() ==> c == Connected(session))
    decreases |events|
  {
    if events == [] {
      assert events + [e] == [e] && [e][1..] == [];
    } else {
      assert forall x <- events[1..] :: x in events;
      assert (events + [e])[0] == events[0] && (events + [e])[1..] == events[1..] + [e];
      assert events[0] in events;
      FirstWordDecidesTheDial(since, session, events[1..], e);
    }
  }

  /** From the start of the cleanup of an abandoned dial until it is confirmed, and while the radio
      stays, no event at any time lets the peer be dialled: each window that passes only asks for
      another teardown. */
  lemma DrainsUntilConfirmed(c: CentralLink, since: nat, events: seq<Timed<CentralEvent>>)
    requires c.Idle? || c.Dialing?
    requires forall e <- events :: e.event != CleanupConfirmed && e.event != RadioLost
    ensures var c' := CentralRun(c, [Timed(CleanupStarted, since)] + events);
            c'.Draining? && !c'.MayDial() && c'.Apply(CleanupConfirmed, since).0.MayDial()
  {
    assert ([Timed(CleanupStarted, since)] + events)[1..] == events;
    StaysDraining(Draining(since), events);
  }

  lemma {:induction false} StaysDraining(c: CentralLink, events: seq<Timed<CentralEvent>>)
    requires c.Draining? && forall e <- events :: e.event != CleanupConfirmed && e.event != RadioLost
    ensures CentralRun(c, events).Draining?
    decreases |events|
  {
    if events != [] {
      assert forall e <- events[1..] :: e in events;
      StaysDraining(c.Apply(events[0].event, events[0].now).0, events[1..]);
    }
  }

  /** The session of the last dial that was started from idle. */
  ghost function LastDial(c: CentralLink, events: seq<Timed<CentralEvent>>, before: Option<nat>): Option<nat>
    decreases |events|
  {
    if events == [] then before
    else
      var e := events[0];
      LastDial(c.Apply(e.event, e.now).0, events[1..], if c.MayDial() && e.event.DialStarted? then Some(e.event.session) else before)
  }

  /** Over any events at any times, a dial or connection carries the session of the last dial that
      was started, and a late event never revives an earlier one. */
  lemma {:induction false} SessionIsTheLastDials(c: CentralLink, events: seq<Timed<CentralEvent>>, before: Option<nat>)
    requires c.Session().Some? ==> c.Session() == before
    ensures var c' := CentralRun(c, events);
            c'.Session().Some? ==> c'.Session() == LastDial(c, events, before)
    decreases |events|
  {
    if events != [] {
      var e := events[0];
      SessionIsTheLastDials(c.Apply(e.event, e.now).0, events[1..],
                            if c.MayDial() && e.event.DialStarted? then Some(e.event.session) else before);
    }
  }

  // ---- Peripheral -----------------------------------------------------------------

  datatype PeripheralEvent =
    | CentralConnected(session: nat) | CentralSubscribed | CentralUnsubscribed | CentralDropped
    | DropRequested | DropConfirmed | ServerRadioLost | ServerRadioBack | ServerTick

  datatype PeripheralLink =
    | Absent
    | Accepted(session: nat)
    | Serving(session: nat)
    | Dropping(since: nat, session: nat)
    | ServerOff
  {
    predicate HoldsSlot() {
      Accepted? || Serving? || Dropping?
    }

    function Apply(e: PeripheralEvent, now: nat): (PeripheralLink, Option<TearDown>) {
      match (this, e)
      case (_, ServerRadioLost) => (ServerOff, if HoldsSlot() then Some(TearDown(true)) else None)
      case (ServerOff, ServerRadioBack) => (Absent, None)
      case (Absent, CentralConnected(s)) => (Accepted(s), None)
      case (Accepted(_), CentralConnected(s)) => (Accepted(s), None)
      case (Serving(_), CentralConnected(s)) => (Accepted(s), None)
      case (Accepted(s), CentralSubscribed) => (Serving(s), None)
      case (Serving(_), CentralUnsubscribed) => (Absent, Some(TearDown(true)))
      case (Serving(_), CentralDropped) => (Absent, Some(TearDown(true)))
      case (Accepted(_), CentralUnsubscribed) => (Absent, Some(TearDown(true)))
      case (Accepted(_), CentralDropped) => (Absent, Some(TearDown(true)))
      case (Accepted(s), DropRequested) => (Dropping(now, s), None)
      case (Serving(s), DropRequested) => (Dropping(now, s), None)
      case (Dropping(_, _), DropConfirmed) => (Absent, None)
      case (Dropping(_, _), CentralDropped) => (Absent, Some(TearDown(true)))
      case (Dropping(t, _), ServerTick) =>
        if Elapsed(now, t) >= DISCONNECT_WINDOW then (Absent, Some(TearDown(true))) else (this, None)
      case (_, _) => (this, None)
    }
  }

  lemma PeripheralEmitsExactlyOnLoss(p: PeripheralLink, e: PeripheralEvent, now: nat)
    ensures var (p', t) := p.Apply(e, now);
            Emits(t) <==> p.HoldsSlot() && !p'.HoldsSlot() && e != DropConfirmed
  {}

  ghost function PeripheralRun(p: PeripheralLink, events: seq<Timed<PeripheralEvent>>): PeripheralLink
    decreases |events|
  {
    if events == [] then p else PeripheralRun(p.Apply(events[0].event, events[0].now).0, events[1..])
  }

  /** How often the slot was taken, and how often it was freed with or without an event. */
  ghost function SlotsTaken(p: PeripheralLink, events: seq<Timed<PeripheralEvent>>): nat
    decreases |events|
  {
    if events == [] then 0
    else
      (if p.Absent? && events[0].event.CentralConnected? then 1 else 0)
      + SlotsTaken(p.Apply(events[0].event, events[0].now).0, events[1..])
  }

  ghost function SlotsFreed(p: PeripheralLink, events: seq<Timed<PeripheralEvent>>): nat
    decreases |events|
  {
    if events == [] then 0
    else
      var (p', t) := p.Apply(events[0].event, events[0].now);
      (if Emits(t) || (p.Dropping? && events[0].event == DropConfirmed) then 1 else 0) + SlotsFreed(p', events[1..])
  }

  lemma {:induction false} PeripheralConserved(p: PeripheralLink, events: seq<Timed<PeripheralEvent>>)
    ensures One(p.HoldsSlot()) + SlotsTaken(p, events) == SlotsFreed(p, events) + One(PeripheralRun(p, events).HoldsSlot())
    decreases |events|
  {
    if events != [] {
      PeripheralConserved(p.Apply(events[0].event, events[0].now).0, events[1..]);
    }
  }

  function SlotSession(p: PeripheralLink): Option<nat> {
    if p.HoldsSlot() then Some(p.session) else None
  }

  /** The session of the last central that connected while none was being dropped. */
  ghost function LastCentral(p: PeripheralLink, events: seq<Timed<PeripheralEvent>>, before: Option<nat>): Option<nat>
    decreases |events|
  {
    if events == [] then before
    else
      var e := events[0];
      var taken := e.event.CentralConnected? && !p.Dropping? && !p.ServerOff?;
      LastCentral(p.Apply(e.event, e.now).0, events[1..], if taken then Some(e.event.session) else before)
  }

  /** Over any events at any times, the slot is that of the central that connected last, which
      takes it over from an earlier one of the address. */
  lemma {:induction false} SlotIsTheLastCentrals(p: PeripheralLink, events: seq<Timed<PeripheralEvent>>, before: Option<nat>)
    requires SlotSession(p).Some? ==> SlotSession(p) == before
    ensures var p' := PeripheralRun(p, events);
            SlotSession(p').Some? ==> SlotSession(p') == LastCentral(p, events, before)
    decreases |events|
  {
    if events != [] {
      var e := events[0];
      var taken := e.event.CentralConnected? && !p.Dropping? && !p.ServerOff?;
      SlotIsTheLastCentrals(p.Apply(e.event, e.now).0, events[1..], if taken then Some(e.event.session) else before);
    }
  }

  /** What ends a requested drop of a central that began at `since`. */
  predicate EndsDrop(e: Timed<PeripheralEvent>, since: nat) {
    e.event == DropConfirmed || e.event == CentralDropped || e.event == ServerRadioLost
    || (e.event == ServerTick && Elapsed(e.now, since) >= DISCONNECT_WINDOW)
  }

  lemma {:induction false} NoSlotWithoutCentral(p: PeripheralLink, events: seq<Timed<PeripheralEvent>>)
    requires !p.HoldsSlot() && forall e <- events :: !e.event.CentralConnected?
    ensures !PeripheralRun(p, events).HoldsSlot()
    decreases |events|
  {
    if events != [] {
      assert forall e <- events[1..] :: e in events;
      NoSlotWithoutCentral(p.Apply(events[0].event, events[0].now).0, events[1..]);
    }
  }

  lemma {:induction false} DroppingEnds(since: nat, session: nat, events: seq<Timed<PeripheralEvent>>)
    requires forall e <- events :: !e.event.CentralConnected?
    ensures PeripheralRun(Dropping(since, session), events).HoldsSlot() <==> forall e <- events :: !EndsDrop(e, since)
    decreases |events|
  {
    if events != [] {
      assert events == [events[0]] + events[1..];
      if EndsDrop(events[0], since) {
        NoSlotWithoutCentral(Dropping(since, session).Apply(events[0].event, events[0].now).0, events[1..]);
      } else {
        DroppingEnds(since, session, events[1..]);
      }
    }
  }

  /** A central that is to be dropped keeps its slot until the platform confirms, it drops itself, the
      radio goes or the window is over, and no longer. */
  lemma RequestedDropEndsExactly(p: PeripheralLink, since: nat, events: seq<Timed<PeripheralEvent>>)
    requires p.Accepted? || p.Serving?
    requires forall e <- events :: !e.event.CentralConnected?
    ensures PeripheralRun(p, [Timed(DropRequested, since)] + events).HoldsSlot() <==> forall e <- events :: !EndsDrop(e, since)
  {
    assert ([Timed(DropRequested, since)] + events)[1..] == events;
    DroppingEnds(since, p.session, events);
  }

  /** What takes the slot of a central nobody asks to drop. */
  predicate Leaves(e: PeripheralEvent) {
    e == CentralUnsubscribed || e == CentralDropped || e == ServerRadioLost
  }

  /** A central nobody asks to drop keeps its slot until it unsubscribes, drops or the radio goes, and
      no longer; it is served exactly from its first subscription on. */
  lemma {:induction false} CentralStaysUntilItLeaves(session: nat, serving: bool, events: seq<Timed<PeripheralEvent>>)
    requires forall e <- events :: !e.event.CentralConnected? && !e.event.DropRequested?
    ensures var p := PeripheralRun(if serving then Serving(session) else Accepted(session), events);
            && (p.HoldsSlot() <==> forall e <- events :: !Leaves(e.event))
            && (p.HoldsSlot() ==>
                  p == if serving || exists e :: e in events && e.event == CentralSubscribed then Serving(session) else Accepted(session))
    decreases |events|
  {
    if events != [] {
      assert events == [events[0]] + events[1..];
      var p := if serving then Serving(session) else Accepted(session);
      if Leaves(events[0].event) {
        NoSlotWithoutCentral(p.Apply(events[0].event, events[0].now).0, events[1..]);
      } else {
        CentralStaysUntilItLeaves(session, serving || events[0].event == CentralSubscribed, events[1..]);
      }
    }
  }

  /** After a radio loss no central has a slot until the radio is back, and then one can take it. */
  lemma ServerOffUntilBack(p: PeripheralLink, since: nat, events: seq<Timed<PeripheralEvent>>, session: nat)
    requires forall e <- events :: e.event != ServerRadioBack
    ensures var p' := PeripheralRun(p, [Timed(ServerRadioLost, since)] + events);
            && !p'.HoldsSlot() && !p'.Apply(CentralConnected(session), since).0.HoldsSlot()
            && p'.Apply(ServerRadioBack, since).0.Apply(CentralConnected(session), since).0.HoldsSlot()
  {
    assert ([Timed(ServerRadioLost, since)] + events)[1..] == events;
    StaysServerOff(events);
  }

  lemma {:induction false} StaysServerOff(events: seq<Timed<PeripheralEvent>>)
    requires forall e <- events :: e.event != ServerRadioBack
    ensures PeripheralRun(ServerOff, events) == ServerOff
    decreases |events|
  {
    if events != [] {
      assert forall e <- events[1..] :: e in events;
      assert events[0] in events;
      StaysServerOff(events[1..]);
    }
  }
}
