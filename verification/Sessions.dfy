/**
  The peripheral side on Linux (`drivers/linux.rs`): advertisement generations, the handlers and
  watchers that belong to one each, and the peers they admit as served.
 */
module Sessions {
  import opened Basics

  type Addr = nat

  /** What happened, in order. `Published` makes a generation current; the others are the events
      consumers see, with the generation of the handler that sent a `Connected`. */
  datatype Ev =
    | Published(gen: nat)
    | Connected(peer: Addr, session: nat, gen: nat)
    | Written(peer: Addr, gen: nat)
    | Disconnected(peer: Addr, named: Option<nat>)

  /** Who holds `advertise_lock`: an `advertise` with a reserved generation, not yet published or
      published, or a stop that has yet to release the served peers. */
  datatype Holder = Advertising(gen: nat) | Stopping | Done

  datatype State = State(
    counter: nat, published: nat, lock: Option<Holder>, busy: bool,
    served: map<Addr, nat>, nextSession: nat, watchers: set<(Addr, nat)>, log: seq<Ev>)

  const START := State(1, 1, None, false, map[], 0, {}, [])

  datatype Step =
    | BeginAdvertise
    | Publish(order: seq<Addr>)
    | BeginStop
    | Release(order: seq<Addr>)
    | Unlock
    | HandleWrite(peer: Addr, gen: nat)
    | HandleSubscribe(peer: Addr, gen: nat)
    | FinishWatch(peer: Addr, session: nat)
    // Other users of the admission lock and of the session counter.
    | Admission(held: bool)
    | TakeSession

  /** `order` lists the keys of `m`, each once. */
  ghost predicate Lists(order: seq<Addr>, m: map<Addr, nat>) {
    && (forall i, j | 0 <= i < j < |order| :: order[i] != order[j])
    && (forall p :: p in order <==> p in m)
  }

  ghost predicate Enabled(s: State, a: Step) {
    match a
    case BeginAdvertise => s.lock == None
    case Publish(order) => s.lock.Some? && s.lock.value.Advertising? && !s.busy && Lists(order, s.served)
    case BeginStop => s.lock == None
    case Release(order) => s.lock == Some(Stopping) && !s.busy && Lists(order, s.served)
    case Unlock => s.lock.Some?
    case HandleWrite(_, gen) => START.counter < gen <= s.counter && !s.busy
    case HandleSubscribe(_, gen) => START.counter < gen <= s.counter && !s.busy
    case FinishWatch(peer, session) => (peer, session) in s.watchers && !s.busy
    case _ => true
  }

  // ---- Specification -----------------------------------------------------------------

  function Released(order: seq<Addr>): seq<Ev> {
    if order == [] then [] else [Disconnected(order[0], None)] + Released(order[1..])
  }

  /** A peer that is not served yet gets the next session and a watcher. */
  function Admitted(s: State, peer: Addr, gen: nat): State {
    s.(served := s.served[peer := s.nextSession], watchers := s.watchers + {(peer, s.nextSession)},
       nextSession := s.nextSession + 1, log := s.log + [Connected(peer, s.nextSession, gen)])
  }

  function OnWrite(s: State, peer: Addr, gen: nat): State {
    if s.published != gen then s
    else
      var s1 := if peer in s.served then s.(log := s.log + [Connected(peer, s.served[peer], gen)]) else Admitted(s, peer, gen);
      s1.(log := s1.log + [Written(peer, gen)])
  }

  function OnSubscribe(s: State, peer: Addr, gen: nat): State {
    if s.published != gen || peer in s.served then s else Admitted(s, peer, gen)
  }

  /** A watcher speaks only for the session it was armed for. */
  function OnFinish(s: State, peer: Addr, session: nat): State {
    var s1 := s.(watchers := s.watchers - {(peer, session)});
    if peer in s.served && s.served[peer] == session then
      s1.(served := s.served - {peer}, log := s.log + [Disconnected(peer, Some(session))])
    else s1
  }

  function OnRelease(s: State, order: seq<Addr>): State {
    s.(served := map[], log := s.log + Released(order))
  }

  function OnPublish(s: State, order: seq<Addr>): State
    requires s.lock.Some? && s.lock.value.Advertising?
  {
    var gen := s.lock.value.gen;
    OnRelease(s.(published := gen, lock := Some(Done), log := s.log + [Published(gen)]), order)
  }

  ghost function Apply(s: State, a: Step): State
    requires Enabled(s, a)
  {
    match a
    case BeginAdvertise => s.(counter := s.counter + 1, lock := Some(Advertising(s.counter + 1)))
    case Publish(order) => OnPublish(s, order)
    case BeginStop =>
      s.(counter := s.counter + 1, published := s.counter + 1, lock := Some(Stopping), log := s.log + [Published(s.counter + 1)])
    case Release(order) => OnRelease(s.(lock := Some(Done)), order)
    case Unlock => s.(lock := None)
    case HandleWrite(peer, gen) => OnWrite(s, peer, gen)
    case HandleSubscribe(peer, gen) => OnSubscribe(s, peer, gen)
    case FinishWatch(peer, session) => OnFinish(s, peer, session)
    case Admission(held) => s.(busy := held)
    case TakeSession => s.(nextSession := s.nextSession + 1)
  }

  // ---- What the log says ------------------------------------------------------------------

  function Last(log: seq<Ev>): Ev
    requires log != []
  {
    log[|log| - 1]
  }

  function Front(log: seq<Ev>): seq<Ev>
    requires log != []
  {
    log[..|log| - 1]
  }

  /** The current generation. */
  function Latest(log: seq<Ev>): nat {
    if log == [] then START.published else if Last(log).Published? then Last(log).gen else Latest(Front(log))
  }

  /** The session a consumer takes `p` to have. */
  function Open(log: seq<Ev>, p: Addr): Option<nat> {
    if log == [] then None
    else
      match Last(log)
      case Connected(q, session, _) => if q == p then Some(session) else Open(Front(log), p)
      case Disconnected(q, _) => if q == p then None else Open(Front(log), p)
      case _ => Open(Front(log), p)
  }

  /** A bound above every session mentioned. */
  function Bound(log: seq<Ev>): nat {
    if log == [] then 0
    else if Last(log).Connected? then Max(Bound(Front(log)), Last(log).session + 1)
    else Bound(Front(log))
  }

  /** What one event may be, after `log`. */
  predicate MayFollow(log: seq<Ev>, e: Ev) {
    match e
    case Published(gen) => gen > Latest(log)
    case Connected(p, session, gen) =>
      gen == Latest(log) && (if Open(log, p) == None then session >= Bound(log) else Open(log, p) == Some(session))
    case Written(p, gen) => gen == Latest(log) && Open(log, p).Some?
    case Disconnected(p, named) => Open(log, p).Some? && (named.Some? ==> named == Open(log, p))
  }

  predicate Orderly(log: seq<Ev>) {
    log == [] || (Orderly(Front(log)) && MayFollow(Front(log), Last(log)))
  }

  /** The `Connected` events that open a session, and the `Disconnected` ones. */
  function Opened(log: seq<Ev>): nat {
    if log == [] then 0
    else Opened(Front(log)) + if Last(log).Connected? && Open(Front(log), Last(log).peer) == None then 1 else 0
  }

  function Closed(log: seq<Ev>): nat {
    if log == [] then 0 else Closed(Front(log)) + if Last(log).Disconnected? then 1 else 0
  }

  lemma Append(log: seq<Ev>, e: Ev)
    ensures Front(log + [e]) == log && Last(log + [e]) == e
  {}

  function SessionOf(served: map<Addr, nat>, p: Addr): Option<nat> {
    if p in served then Some(served[p]) else None
  }

  /** The log agrees with the driver's own tables. */
  ghost predicate Agrees(s: State) {
    && Orderly(s.log)
    && Latest(s.log) == s.published
    && (forall p :: Open(s.log, p) == SessionOf(s.served, p))
    && Bound(s.log) <= s.nextSession
    && Opened(s.log) == Closed(s.log) + |s.served|
  }

  ghost predicate Inv(s: State) {
    && Agrees(s)
    && s.published <= s.counter
    && (s.lock.Some? && s.lock.value.Advertising? ==> s.published < s.lock.value.gen <= s.counter)
  }

  lemma OneMore(s: State, e: Ev, s': State)
    requires Agrees(s) && MayFollow(s.log, e) && s'.log == s.log + [e]
    requires s'.published == (if e.Published? then e.gen else s.published)
    requires s'.nextSession >= s.nextSession && (e.Connected? ==> e.session < s'.nextSession)
    requires match e
             case Connected(p, session, _) => s'.served == s.served[p := session]
             case Disconnected(p, _) => s'.served == s.served - {p}
             case _ => s'.served == s.served
    ensures Agrees(s')
  {}

  lemma WriteKeepsInv(s: State, peer: Addr, gen: nat)
    requires Inv(s)
    ensures Inv(OnWrite(s, peer, gen))
  {
    hide Orderly, Bound, Opened, Closed;
    if s.published == gen {
      assert Open(s.log, peer) == SessionOf(s.served, peer);
      var s1 := if peer in s.served then s.(log := s.log + [Connected(peer, s.served[peer], gen)]) else Admitted(s, peer, gen);
      if peer in s.served {
        ServedBelow(s, peer);
        assert s.served[peer := s.served[peer]] == s.served;
      }
      OneMore(s, s1.log[|s.log|], s1);
      assert Open(s1.log, peer) == SessionOf(s1.served, peer);
      OneMore(s1, Written(peer, gen), OnWrite(s, peer, gen));
    }
  }

  lemma ServedBelow(s: State, p: Addr)
    requires Agrees(s) && p in s.served
    ensures s.served[p] < s.nextSession
  {
    assert Open(s.log, p) == SessionOf(s.served, p);
    OpenBelow(s.log, p);
  }

  lemma {:induction false} OpenBelow(log: seq<Ev>, p: Addr)
    ensures Open(log, p).Some? ==> Open(log, p).value < Bound(log)
  {
    if log != [] {
      OpenBelow(Front(log), p);
    }
  }

  lemma SubscribeKeepsInv(s: State, peer: Addr, gen: nat)
    requires Inv(s)
    ensures Inv(OnSubscribe(s, peer, gen))
  {}

  lemma FinishKeepsInv(s: State, peer: Addr, session: nat)
    requires Inv(s)
    ensures Inv(OnFinish(s, peer, session))
  {}

  lemma ListsRest(order: seq<Addr>, m: map<Addr, nat>)
    requires order != [] && Lists(order, m)
    ensures order[0] in m && Lists(order[1..], m - {order[0]})
  {}

  lemma {:induction false} ReleaseKeepsAgrees(s: State, order: seq<Addr>)
    requires Agrees(s) && Lists(order, s.served)
    ensures Agrees(OnRelease(s, order))
    decreases |order|
  {
    hide Agrees, Open;
    if order == [] {
      assert s.served == map[];
      assert s.log + [] == s.log;
      assert OnRelease(s, order) == s;
    } else {
      var p := order[0];
      ListsRest(order, s.served);
      ServedIsOpen(s, p);
      var e := Disconnected(p, None);
      var s1 := s.(served := s.served - {p}, log := s.log + [e]);
      OneMore(s, e, s1);
      ReleaseKeepsAgrees(s1, order[1..]);
      assert s.log + Released(order) == s1.log + Released(order[1..]);
    }
  }

  lemma ServedIsOpen(s: State, p: Addr)
    requires Agrees(s)
    ensures Open(s.log, p) == SessionOf(s.served, p)
  {}

  lemma PublishKeepsInv(s: State, order: seq<Addr>)
    requires Inv(s) && Enabled(s, Publish(order))
    ensures Inv(OnPublish(s, order))
  {
    hide Orderly, Bound, Opened, Closed, Open, Latest;
    var gen := s.lock.value.gen;
    var s1 := s.(published := gen, lock := Some(Done), log := s.log + [Published(gen)]);
    OneMore(s, Published(gen), s1);
    ReleaseKeepsAgrees(s1, order);
  }

  lemma StepKeepsInv(s: State, a: Step)
    requires Inv(s) && Enabled(s, a)
    ensures Inv(Apply(s, a))
  {
    hide Orderly, Bound, Opened, Closed, Open, Latest;
    match a {
      case Publish(order) => PublishKeepsInv(s, order);
      case BeginStop => OneMore(s, Published(s.counter + 1), Apply(s, a));
      case Release(order) => ReleaseKeepsAgrees(s.(lock := Some(Done)), order);
      case HandleWrite(peer, gen) => WriteKeepsInv(s, peer, gen);
      case HandleSubscribe(peer, gen) => SubscribeKeepsInv(s, peer, gen);
      case FinishWatch(peer, session) => FinishKeepsInv(s, peer, session);
      case _ =>
    }
  }

  ghost predicate ValidRun(s: State, steps: seq<Step>)
    decreases |steps|
  {
    steps == [] || (Enabled(s, steps[0]) && ValidRun(Apply(s, steps[0]), steps[1..]))
  }

  ghost function After(s: State, steps: seq<Step>): State
    requires ValidRun(s, steps)
    decreases |steps|
  {
    if steps == [] then s else After(Apply(s, steps[0]), steps[1..])
  }

  lemma {:induction false} RunKeepsInv(s: State, steps: seq<Step>)
    requires Inv(s) && ValidRun(s, steps)
    ensures Inv(After(s, steps))
    decreases |steps|
  {
    hide Inv, Apply, Enabled;
    if steps != [] {
      StepKeepsInv(s, steps[0]);
      RunKeepsInv(Apply(s, steps[0]), steps[1..]);
    }
  }

  /** Over all interleavings of advertising, stopping, cancellation, handlers and watchers: the
      published generations strictly increase; a handler announces a peer or a write only while
      its own generation is the published one; per peer a session is opened with a number never
      used before, announced again only under that number, and ended exactly once; and the
      sessions opened and not ended are exactly the served peers. */
  lemma SessionsAreConserved(steps: seq<Step>)
    requires ValidRun(START, steps)
    ensures var s := After(START, steps);
            && Orderly(s.log)
            && (forall p :: Open(s.log, p) == SessionOf(s.served, p))
            && Opened(s.log) - Closed(s.log) == |s.served|
  {
    hide ValidRun, After;
    RunKeepsInv(START, steps);
  }

  // ---- What an orderly log rules out --------------------------------------------------------

  lemma {:induction false} OrderlyPrefix(log: seq<Ev>, n: nat)
    requires Orderly(log) && n < |log|
    ensures Orderly(log[..n]) && MayFollow(log[..n], log[n])
    decreases |log|
  {
    if n < |log| - 1 {
      OrderlyPrefix(Front(log), n);
      assert Front(log)[..n] == log[..n];
    }
  }

  lemma {:induction false} LatestGrows(log: seq<Ev>, n: nat)
    requires Orderly(log) && n <= |log|
    ensures Latest(log[..n]) <= Latest(log)
    decreases |log|
  {
    if n < |log| {
      LatestGrows(Front(log), n);
      assert Front(log)[..n] == log[..n];
    } else {
      assert log[..n] == log;
    }
  }

  /** Two publications are never of the same generation, and the later is the greater. */
  lemma PublishedStrictlyIncrease(log: seq<Ev>, i: nat, j: nat)
    requires Orderly(log) && i < j < |log| && log[i].Published? && log[j].Published?
    ensures log[i].gen < log[j].gen
  {
    OrderlyPrefix(log, j);
    LatestGrows(log[..j], i + 1);
    assert log[..j][..i + 1] == log[..i] + [log[i]];
    Append(log[..i], log[i]);
  }

  lemma {:induction false} OpenStays(log: seq<Ev>, p: Addr, n: nat)
    requires n <= |log| && forall k | n <= k < |log| :: !(log[k].Disconnected? && log[k].peer == p)
    requires Orderly(log)
    ensures Open(log[..n], p).Some? ==> Open(log, p) == Open(log[..n], p)
    decreases |log|
  {
    if n < |log| {
      OpenStays(Front(log), p, n);
      assert Front(log)[..n] == log[..n];
      OrderlyPrefix(log, |log| - 1);
    } else {
      assert log[..n] == log;
    }
  }

  /** Between two `Connected` of a peer with different sessions there is a `Disconnected` of it:
      openings and losses alternate. */
  lemma LossBetweenSessions(log: seq<Ev>, i: nat, j: nat)
    requires Orderly(log) && i < j < |log| && log[i].Connected? && log[j].Connected? && log[i].peer == log[j].peer
    requires log[i].session != log[j].session
    ensures exists k :: i < k < j && log[k].Disconnected? && log[k].peer == log[i].peer
  {
    OrderlyPrefix(log, j);
    Append(log[..i], log[i]);
    assert log[..j][..i + 1] == log[..i] + [log[i]];
    assert Open(log[..j][..i + 1], log[i].peer) == Some(log[i].session);
    if forall k | i < k < j :: !(log[k].Disconnected? && log[k].peer == log[i].peer) {
      OpenStays(log[..j], log[i].peer, i + 1);
      assert false;
    }
  }

  lemma {:induction false} ClosedStays(log: seq<Ev>, p: Addr, n: nat)
    requires n <= |log| && forall k | n <= k < |log| :: !(log[k].Connected? && log[k].peer == p)
    ensures Open(log[..n], p) == None ==> Open(log, p) == None
    decreases |log|
  {
    if n < |log| {
      ClosedStays(Front(log), p, n);
      assert Front(log)[..n] == log[..n];
    } else {
      assert log[..n] == log;
    }
  }

  /** Between two losses of a peer there is a `Connected` of it. */
  lemma SessionBetweenLosses(log: seq<Ev>, i: nat, j: nat)
    requires Orderly(log) && i < j < |log| && log[i].Disconnected? && log[j].Disconnected? && log[i].peer == log[j].peer
    ensures exists k :: i < k < j && log[k].Connected? && log[k].peer == log[i].peer
  {
    OrderlyPrefix(log, j);
    Append(log[..i], log[i]);
    assert log[..j][..i + 1] == log[..i] + [log[i]];
    if forall k | i < k < j :: !(log[k].Connected? && log[k].peer == log[i].peer) {
      ClosedStays(log[..j], log[i].peer, i + 1);
      assert false;
    }
  }

  // ---- What each step announces ----------------------------------------------------------------

  /** What consumers hear of one handler or watcher, by what they have heard so far. */
  function Announced(s: State, a: Step): seq<Ev>
    requires a.HandleWrite? || a.HandleSubscribe? || a.FinishWatch?
  {
    var open := Open(s.log, a.peer);
    match a
    case HandleWrite(peer, gen) =>
      if gen != Latest(s.log) then []
      else [Connected(peer, if open.Some? then open.value else s.nextSession, gen), Written(peer, gen)]
    case HandleSubscribe(peer, gen) =>
      if gen != Latest(s.log) || open.Some? then [] else [Connected(peer, s.nextSession, gen)]
    case FinishWatch(peer, session) =>
      if open == Some(session) then [Disconnected(peer, Some(session))] else []
  }

  lemma Reachable(steps: seq<Step>)
    requires ValidRun(START, steps)
    ensures Inv(After(START, steps))
  {
    hide ValidRun, After;
    RunKeepsInv(START, steps);
  }

  /** In every reachable state: a write handled under the current generation is always delivered,
      right after its peer's session, old or new, is announced; a subscription under it opens a
      session for a peer that has none; a watcher ends its session if that is still the peer's; and
      a handler or watcher of anything older is not heard of. */
  lemma HandlersAreHeardExactly(steps: seq<Step>, a: Step)
    requires ValidRun(START, steps) && Enabled(After(START, steps), a)
    requires a.HandleWrite? || a.HandleSubscribe? || a.FinishWatch?
    ensures var s := After(START, steps);
            var s' := Apply(s, a);
            && s'.log == s.log + Announced(s, a)
            && (Announced(s, a) == [] ==> s'.served == s.served)
            && forall p :: p != a.peer ==> Open(s'.log, p) == Open(s.log, p)
  {
    hide ValidRun, After, Inv;
    Reachable(steps);
    var s := After(START, steps);
    StepKeepsInv(s, a);
    OthersSessions(s, Apply(s, a), a.peer) by {
      HandlerTouchesOwn(s, a);
    }
    HandlerHeard(s, a);
  }

  lemma HandlerHeard(s: State, a: Step)
    requires Inv(s) && Enabled(s, a) && (a.HandleWrite? || a.HandleSubscribe? || a.FinishWatch?)
    ensures Apply(s, a).log == s.log + Announced(s, a)
    ensures Announced(s, a) == [] ==> Apply(s, a).served == s.served
  {
    hide Orderly, Bound, Opened, Closed, Open, Latest;
    assert Open(s.log, a.peer) == SessionOf(s.served, a.peer);
  }

  lemma HandlerTouchesOwn(s: State, a: Step)
    requires Enabled(s, a) && (a.HandleWrite? || a.HandleSubscribe? || a.FinishWatch?)
    ensures forall p :: p != a.peer ==> SessionOf(Apply(s, a).served, p) == SessionOf(s.served, p)
  {}

  lemma OthersSessions(s: State, s': State, peer: Addr)
    requires Inv(s) && Inv(s') && forall p :: p != peer ==> SessionOf(s'.served, p) == SessionOf(s.served, p)
    ensures forall p :: p != peer ==> Open(s'.log, p) == Open(s.log, p)
  {
    hide Orderly, Bound, Opened, Closed, Open, Latest, SessionOf;
    forall p | p != peer
      ensures Open(s'.log, p) == Open(s.log, p)
    {
      assert Open(s'.log, p) == SessionOf(s'.served, p) && Open(s.log, p) == SessionOf(s.served, p);
    }
  }

  /** In every reachable state: once a generation is published, or a stop is carried out, no consumer
      takes any peer to have a session; and until then both leave every session as it is. */
  lemma SwitchingOverEndsEverySession(steps: seq<Step>, a: Step)
    requires ValidRun(START, steps) && Enabled(After(START, steps), a)
    requires !a.HandleWrite? && !a.HandleSubscribe? && !a.FinishWatch?
    ensures var s := After(START, steps);
            var s' := Apply(s, a);
            && (forall p :: Open(s'.log, p) == if a.Publish? || a.Release? then None else Open(s.log, p))
            && Latest(s'.log) == (if a.Publish? then s.lock.value.gen else if a.BeginStop? then s'.counter else Latest(s.log))
            && (a.BeginAdvertise? || a.BeginStop? ==> s'.counter > s.counter)
  {
    hide ValidRun, After, Orderly, Bound, Opened, Closed, Open, Latest;
    Reachable(steps);
    var s := After(START, steps);
    var s' := Apply(s, a);
    StepKeepsInv(s, a);
    forall p
      ensures Open(s'.log, p) == if a.Publish? || a.Release? then None else Open(s.log, p)
    {
      assert Open(s'.log, p) == SessionOf(s'.served, p) && Open(s.log, p) == SessionOf(s.served, p);
    }
  }

  /** Every served session has a watcher that will announce its end. */
  ghost predicate Watched(s: State) {
    forall p <- s.served :: (p, s.served[p]) in s.watchers
  }

  lemma StepKeepsWatched(s: State, a: Step)
    requires Watched(s) && Enabled(s, a)
    ensures Watched(Apply(s, a))
  {}

  lemma {:induction false} RunKeepsWatched(s: State, steps: seq<Step>)
    requires Watched(s) && ValidRun(s, steps)
    ensures Watched(After(s, steps))
    decreases |steps|
  {
    hide Watched, Apply, Enabled;
    if steps != [] {
      StepKeepsWatched(s, steps[0]);
      RunKeepsWatched(Apply(s, steps[0]), steps[1..]);
    }
  }

  /** In every reachable state: whichever session a consumer takes a peer to have, its watcher is
      still there, and when it ends it is heard as the loss of exactly that session. */
  lemma EveryOpenSessionIsWatched(steps: seq<Step>, p: Addr, session: nat)
    requires ValidRun(START, steps) && Open(After(START, steps).log, p) == Some(session)
    ensures var s := After(START, steps);
            && (p, session) in s.watchers
            && (!s.busy ==>
                  && Enabled(s, FinishWatch(p, session))
                  && Apply(s, FinishWatch(p, session)).log == s.log + [Disconnected(p, Some(session))])
  {
    hide ValidRun, After, Inv;
    Reachable(steps);
    RunKeepsWatched(START, steps);
    var s := After(START, steps);
    OpenIsServed(s, p, session);
  }

  lemma OpenIsServed(s: State, p: Addr, session: nat)
    requires Inv(s) && Open(s.log, p) == Some(session)
    ensures p in s.served && s.served[p] == session
  {
    assert Open(s.log, p) == SessionOf(s.served, p);
  }

  // ---- The driver, in place ------------------------------------------------------------------

  class PeripheralServer {
    var counter: nat
    var published: nat
    var lock: Option<Holder>
    var busy: bool
    var served: map<Addr, nat>
    var nextSession: nat
    var watchers: set<(Addr, nat)>
    var log: seq<Ev>

    ghost function View(): State
      reads this
    {
      State(counter, published, lock, busy, served, nextSession, watchers, log)
    }

    constructor ()
      ensures View() == START
    {
      counter, published, lock, busy, served, nextSession, watchers, log := 1, 1, None, false, map[], 0, {}, [];
    }

    method NextGeneration() returns (gen: nat)
      modifies this`counter
      ensures gen == counter == old(counter) + 1
    {
      counter := counter + 1;
      gen := counter;
    }

    method Send(e: Ev)
      modifies this`log
      ensures log == old(log) + [e]
    {
      log := log + [e];
    }

    /** Reserved before anything is registered, published later. */
    method ReserveGeneration()
      requires Enabled(View(), BeginAdvertise)
      modifies this
      ensures View() == Apply(old(View()), BeginAdvertise)
    {
      var gen := NextGeneration();
      lock := Some(Advertising(gen));
    }

    /** BlueZ serves the new application: publish, and release the old generation's centrals,
        under both locks. */
    method SwitchOver() returns (ghost order: seq<Addr>)
      requires lock.Some? && lock.value.Advertising? && !busy
      modifies this
      ensures Enabled(old(View()), Publish(order)) && View() == Apply(old(View()), Publish(order))
    {
      published := lock.value.gen;
      lock := Some(Done);
      Send(Published(published));
      order := ReleaseServed();
    }

    /** Drains the served peers and announces each of them, in the map's own order. */
    method ReleaseServed() returns (ghost order: seq<Addr>)
      modifies this`served, this`log
      ensures Lists(order, old(served)) && View() == OnRelease(old(View()), order)
    {
      var rest := served.Keys;
      served := map[];
      order := [];
      while rest != {}
        invariant forall p :: p in old(served) <==> p in order || p in rest
        invariant forall p <- order :: p !in rest
        invariant forall i, j | 0 <= i < j < |order| :: order[i] != order[j]
        invariant served == map[]
        invariant log == old(log) + Released(order)
        decreases |rest|
      {
        var p :| p in rest;
        rest := rest - {p};
        ReleasedMore(order, p);
        order := order + [p];
        Send(Disconnected(p, None));
      }
    }

    method BeginStopping()
      requires Enabled(View(), BeginStop)
      modifies this
      ensures View() == Apply(old(View()), BeginStop)
    {
      published := NextGeneration();
      lock := Some(Stopping);
      Send(Published(published));
    }

    method FinishStopping() returns (ghost order: seq<Addr>)
      requires lock == Some(Stopping) && !busy
      modifies this
      ensures Enabled(old(View()), Release(order)) && View() == Apply(old(View()), Release(order))
    {
      lock := Some(Done);
      order := ReleaseServed();
    }

    method Admit(peer: Addr, gen: nat)
      modifies this
      ensures View() == Admitted(old(View()), peer, gen)
    {
      var session := nextSession;
      nextSession := nextSession + 1;
      served := served[peer := session];
      Send(Connected(peer, session, gen));
      watchers := watchers + {(peer, session)};
    }

    /** A write handler, from the moment it holds the admission lock. */
    method OnWriteRequest(peer: Addr, gen: nat)
      requires Enabled(View(), HandleWrite(peer, gen))
      modifies this
      ensures View() == Apply(old(View()), HandleWrite(peer, gen))
    {
      if published != gen {
        return;
      }
      if peer in served {
        Send(Connected(peer, served[peer], gen));
      } else {
        Admit(peer, gen);
      }
      Send(Written(peer, gen));
    }

    /** A notify watcher, from the moment it holds the admission lock. */
    method OnNotifySession(peer: Addr, gen: nat)
      requires Enabled(View(), HandleSubscribe(peer, gen))
      modifies this
      ensures View() == Apply(old(View()), HandleSubscribe(peer, gen))
    {
      if published != gen || peer in served {
        return;
      }
      Admit(peer, gen);
    }

    /** The end of a disconnect watcher: only if it still owns the session. */
    method OnWatchEnded(peer: Addr, session: nat)
      requires Enabled(View(), FinishWatch(peer, session))
      modifies this
      ensures View() == Apply(old(View()), FinishWatch(peer, session))
    {
      watchers := watchers - {(peer, session)};
      if peer !in served || served[peer] != session {
        return;
      }
      served := served - {peer};
      Send(Disconnected(peer, Some(session)));
    }
  }

  lemma {:induction false} ReleasedMore(order: seq<Addr>, p: Addr)
    ensures Released(order + [p]) == Released(order) + [Disconnected(p, None)]
  {
    if order == [] {
      assert [p][1..] == [];
    } else {
      assert (order + [p])[1..] == order[1..] + [p];
      ReleasedMore(order[1..], p);
    }
  }
}
