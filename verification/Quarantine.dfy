/**
  Dialling on Linux (`drivers/linux.rs`): `connect`, its cancellation guard and the background
  cleanup of abandoned dials, as tasks that share four collections, a lock per address and four
  cleanup permits. A step is one access to shared state; any task may run between two steps.
 */
module Quarantine {
  import opened Basics

  type Addr = nat
  type Id = nat

  const MAX_CONCURRENT_CLEANUP_DISCONNECTS: nat := 4

  /**
    Where a `connect` call stands. It holds its `in_flight` claim from `Claimed` on, the lock of
    its address from `Locked` to `Unlocking`, and a permit from `Connecting` until the guard
    hands it to a cleanup task or back to the pool.
   */
  datatype ConnectPc =
    | Checked              // the first quarantine check passed
    | Claimed              // in `in_flight`, queued for the lock
    | Locked
    | Rechecked            // the second quarantine check passed
    | Recorded(gen: nat)   // in `dialed`
    | Undialing(gen: nat)  // no permit left
    | Connecting(gen: nat) // BlueZ's Connect is running
    | Failed(gen: nat)     // it returned an error
    | Settled              // nothing left to clean up; the guard is disarmed
    | Abandoning(gen: nat) // timed out or dropped; the guard is armed
    | Undialed             // the guard removed the own `dialed` entry
    | Quarantining         // the guard published the quarantine
    | Unlocking            // the guard is gone
    | Releasing            // the lock is gone

  datatype Connect = Connect(peer: Addr, pc: ConnectPc)

  /** Where a cleanup task stands. */
  datatype CleanupPc =
    | WantLock   // no attempt outstanding
    | HasLock
    | Cleared    // the defensive check passed
    | Started    // Disconnect is running, the lock still held
    | Waiting    // Disconnect is running
    | Ended      // the loop is left, the quarantine still published
    | Drained    // the quarantine is lifted, the permit still held

  datatype Cleanup = Cleanup(peer: Addr, pc: CleanupPc)

  datatype Owner = ByConnect(id: Id) | ByCleanup(id: Id) | ByOther

  datatype State = State(
    connects: map<Id, Connect>, cleanups: map<Id, Cleanup>, inFlight: set<Addr>, pendingCleanup: set<Addr>,
    dialed: map<Addr, nat>, locks: map<Addr, Owner>, permits: nat, nextSession: nat)

  const START := State(map[], map[], {}, {}, map[], map[], MAX_CONCURRENT_CLEANUP_DISCONNECTS, 0)

  datatype ConnectStep =
    | Claim
    | LockForConnect
    | CancelQueued
    | Recheck
    | Record
    | Reserve
    | RemoveOwn
    | Reply(ok: bool)
    | TimeOut
    | CancelConnecting
    | Publish
    | SpawnCleanup(cleanup: Id)
    | ReturnPermit
    | UnlockConnect
    | ReleaseClaim

  datatype CleanupStep =
    | LockForCleanup
    | CheckDialed
    | StartDisconnect(found: bool)
    | UnlockCleanup
    | Resolve(clean: bool)
    | LiftQuarantine
    | EndCleanup

  datatype Step =
    | Begin(id: Id, peer: Addr)
    | Dial(id: Id, c: ConnectStep)
    | Clean(id: Id, k: CleanupStep)
    | LockForOther(peer: Addr)
    | UnlockOther(peer: Addr)
    | LossReported(peer: Addr, gen: nat)

  predicate MayDial(s: State, id: Id, c: ConnectStep)
    requires id in s.connects
  {
    var (peer, pc) := (s.connects[id].peer, s.connects[id].pc);
    match c
    case Claim => pc.Checked?
    case LockForConnect => pc.Claimed? && peer !in s.locks
    case CancelQueued => pc.Claimed?
    case Recheck => pc.Locked?
    case Record => pc.Rechecked?
    case Reserve => pc.Recorded?
    case RemoveOwn => pc.Undialing? || pc.Failed? || pc.Abandoning?
    case Reply(_) => pc.Connecting?
    case TimeOut => pc.Connecting?
    case CancelConnecting => pc.Connecting?
    case Publish => pc.Undialed?
    case SpawnCleanup(cleanup) => pc.Quarantining? && cleanup !in s.cleanups
    case ReturnPermit => pc.Settled?
    case UnlockConnect => pc.Unlocking?
    case ReleaseClaim => pc.Releasing?
  }

  predicate MayClean(s: State, id: Id, k: CleanupStep)
    requires id in s.cleanups
  {
    var (peer, pc) := (s.cleanups[id].peer, s.cleanups[id].pc);
    match k
    case LockForCleanup => pc.WantLock? && peer !in s.locks
    case CheckDialed => pc.HasLock?
    case StartDisconnect(_) => pc.Cleared?
    case UnlockCleanup => pc.Started?
    case Resolve(_) => pc.Waiting?
    case LiftQuarantine => pc.Ended?
    case EndCleanup => pc.Drained?
  }

  predicate Enabled(s: State, a: Step) {
    match a
    case Begin(id, _) => id !in s.connects
    case Dial(id, c) => id in s.connects && MayDial(s, id, c)
    case Clean(id, k) => id in s.cleanups && MayClean(s, id, k)
    case LockForOther(peer) => peer !in s.locks
    case UnlockOther(peer) => peer in s.locks && s.locks[peer] == ByOther
    case LossReported(_, _) => true
  }

  function Without(dialed: map<Addr, nat>, peer: Addr, gen: nat): map<Addr, nat> {
    if peer in dialed && dialed[peer] == gen then dialed - {peer} else dialed
  }

  function Goto(s: State, id: Id, pc: ConnectPc): State
    requires id in s.connects
  {
    s.(connects := s.connects[id := s.connects[id].(pc := pc)])
  }

  function CleanupGoto(s: State, id: Id, pc: CleanupPc): State
    requires id in s.cleanups
  {
    s.(cleanups := s.cleanups[id := s.cleanups[id].(pc := pc)])
  }

  function Unlocked(s: State, peer: Addr): State {
    s.(locks := s.locks - {peer})
  }

  function ApplyDial(s: State, id: Id, c: ConnectStep): State
    requires id in s.connects && MayDial(s, id, c)
  {
    var (peer, pc) := (s.connects[id].peer, s.connects[id].pc);
    match c
    case Claim =>
      if peer in s.inFlight then s.(connects := s.connects - {id})
      else Goto(s, id, Claimed).(inFlight := s.inFlight + {peer})
    case LockForConnect => Goto(s, id, Locked).(locks := s.locks[peer := ByConnect(id)])
    case CancelQueued => Goto(s, id, Releasing)
    case Recheck => Goto(s, id, if peer in s.pendingCleanup then Unlocking else Rechecked)
    case Record =>
      Goto(s, id, Recorded(s.nextSession)).(dialed := s.dialed[peer := s.nextSession], nextSession := s.nextSession + 1)
    case Reserve =>
      if s.permits == 0 then Goto(s, id, Undialing(pc.gen)) else Goto(s, id, Connecting(pc.gen)).(permits := s.permits - 1)
    case RemoveOwn =>
      Goto(s, id, if pc.Undialing? then Unlocking else if pc.Failed? then Settled else Undialed)
      .(dialed := Without(s.dialed, peer, pc.gen))
    case Reply(ok) => Goto(s, id, if ok then Settled else Failed(pc.gen))
    case TimeOut => Goto(s, id, Abandoning(pc.gen)).(dialed := Without(s.dialed, peer, pc.gen))
    case CancelConnecting => Goto(s, id, Abandoning(pc.gen))
    case Publish => Goto(s, id, Quarantining).(pendingCleanup := s.pendingCleanup + {peer})
    case SpawnCleanup(cleanup) => Goto(s, id, Unlocking).(cleanups := s.cleanups[cleanup := Cleanup(peer, WantLock)])
    case ReturnPermit => Goto(s, id, Unlocking).(permits := s.permits + 1)
    case UnlockConnect => Unlocked(Goto(s, id, Releasing), peer)
    case ReleaseClaim => s.(connects := s.connects - {id}, inFlight := s.inFlight - {peer})
  }

  function ApplyClean(s: State, id: Id, k: CleanupStep): State
    requires id in s.cleanups && MayClean(s, id, k)
  {
    var peer := s.cleanups[id].peer;
    match k
    case LockForCleanup => CleanupGoto(s, id, HasLock).(locks := s.locks[peer := ByCleanup(id)])
    case CheckDialed => if peer in s.dialed then Unlocked(CleanupGoto(s, id, Ended), peer) else CleanupGoto(s, id, Cleared)
    case StartDisconnect(found) =>
      if found then CleanupGoto(s, id, Started) else Unlocked(CleanupGoto(s, id, Ended), peer)
    case UnlockCleanup => Unlocked(CleanupGoto(s, id, Waiting), peer)
    case Resolve(clean) => CleanupGoto(s, id, if clean then Ended else WantLock)
    case LiftQuarantine => CleanupGoto(s, id, Drained).(pendingCleanup := s.pendingCleanup - {peer})
    case EndCleanup => s.(cleanups := s.cleanups - {id}, permits := s.permits + 1)
  }

  function Apply(s: State, a: Step): State
    requires Enabled(s, a)
  {
    match a
    case Begin(id, peer) =>
      if peer in s.pendingCleanup then s else s.(connects := s.connects[id := Connect(peer, Checked)])
    case Dial(id, c) => ApplyDial(s, id, c)
    case Clean(id, k) => ApplyClean(s, id, k)
    case LockForOther(peer) => s.(locks := s.locks[peer := ByOther])
    case UnlockOther(peer) => Unlocked(s, peer)
    case LossReported(peer, gen) => s.(dialed := Without(s.dialed, peer, gen))
  }

  // ---- Invariant ------------------------------------------------------------------

  predicate Claims(pc: ConnectPc) {
    !pc.Checked?
  }

  predicate HoldsLock(pc: ConnectPc) {
    !pc.Checked? && !pc.Claimed? && !pc.Releasing?
  }

  predicate HoldsPermit(pc: ConnectPc) {
    pc.Connecting? || pc.Failed? || pc.Settled? || pc.Abandoning? || pc.Undialed? || pc.Quarantining?
  }

  /** The address was found free of quarantine, and this call has not put it there. */
  predicate SawClear(pc: ConnectPc) {
    pc.Rechecked? || pc.Recorded? || pc.Undialing? || pc.Connecting? || pc.Failed? || pc.Settled? || pc.Abandoning? || pc.Undialed?
  }

  predicate HasGen(pc: ConnectPc) {
    pc.Recorded? || pc.Undialing? || pc.Connecting? || pc.Failed? || pc.Abandoning?
  }

  predicate CleanupHoldsLock(pc: CleanupPc) {
    pc.HasLock? || pc.Cleared? || pc.Started?
  }

  /** BlueZ's Connect for the address is running on behalf of this call. */
  predicate LiveConnect(pc: ConnectPc) {
    pc.Connecting?
  }

  predicate RunningDisconnect(pc: CleanupPc) {
    pc.Started? || pc.Waiting?
  }

  ghost predicate ConnectOk(s: State, i: Id)
    requires i in s.connects
  {
    var c := s.connects[i];
    && (Claims(c.pc) ==> c.peer in s.inFlight)
    && (HoldsLock(c.pc) ==> c.peer in s.locks && s.locks[c.peer] == ByConnect(i))
    && (SawClear(c.pc) ==> c.peer !in s.pendingCleanup)
    && (HasGen(c.pc) && c.peer in s.dialed ==> s.dialed[c.peer] == c.pc.gen)
    && (c.pc.Undialed? ==> c.peer !in s.dialed)
    && (c.pc.Quarantining? ==> c.peer in s.pendingCleanup)
  }

  ghost predicate CleanupOk(s: State, k: Id)
    requires k in s.cleanups
  {
    var c := s.cleanups[k];
    && (!c.pc.Drained? ==> c.peer in s.pendingCleanup)
    && (CleanupHoldsLock(c.pc) ==> c.peer in s.locks && s.locks[c.peer] == ByCleanup(k))
  }

  /** Who answers for the quarantine of `p`. */
  predicate Owns(s: State, o: Owner, p: Addr) {
    match o
    case ByConnect(i) => i in s.connects && s.connects[i] == Connect(p, Quarantining)
    case ByCleanup(k) => k in s.cleanups && s.cleanups[k].peer == p && !s.cleanups[k].pc.Drained?
    case ByOther => false
  }

  ghost predicate OneClaim(s: State) {
    forall i, j | i in s.connects && j in s.connects && Claims(s.connects[i].pc) && Claims(s.connects[j].pc)
                  && s.connects[i].peer == s.connects[j].peer :: i == j
  }

  ghost predicate OneOwner(s: State) {
    forall o, q, p | Owns(s, o, p) && Owns(s, q, p) :: o == q
  }

  /** The calls that hold a permit; every cleanup task holds one too. */
  function Holders(s: State): set<Id> {
    set i | i in s.connects && HoldsPermit(s.connects[i].pc)
  }

  ghost predicate PermitsAdd(s: State) {
    s.permits + |Holders(s)| + |s.cleanups| == MAX_CONCURRENT_CLEANUP_DISCONNECTS
  }

  /** A lock is held only by a task that will give it back. */
  predicate LockOk(s: State, p: Addr)
    requires p in s.locks
  {
    match s.locks[p]
    case ByConnect(i) => i in s.connects && s.connects[i].peer == p && HoldsLock(s.connects[i].pc)
    case ByCleanup(k) => k in s.cleanups && s.cleanups[k].peer == p && CleanupHoldsLock(s.cleanups[k].pc)
    case ByOther => true
  }

  ghost predicate Claimer(s: State, i: Id, p: Addr) {
    i in s.connects && s.connects[i].peer == p && Claims(s.connects[i].pc)
  }

  ghost predicate Inv(s: State) {
    && (forall i <- s.connects :: ConnectOk(s, i))
    && (forall k <- s.cleanups :: CleanupOk(s, k))
    && (forall p <- s.locks :: LockOk(s, p))
    && (forall p <- s.inFlight :: exists i :: Claimer(s, i, p))
    && OneClaim(s)
    && OneOwner(s)
    && (forall p <- s.pendingCleanup :: p !in s.dialed && exists o :: Owns(s, o, p))
    && PermitsAdd(s)
  }

  // ---- A step of a connect call ------------------------------------------------------

  lemma DialKeepsOwn(s: State, i: Id, c: ConnectStep)
    requires Inv(s) && i in s.connects && MayDial(s, i, c)
    ensures i in ApplyDial(s, i, c).connects ==> ConnectOk(ApplyDial(s, i, c), i)
  {
    hide OneOwner, OneClaim, PermitsAdd, LockOk, Owns, CleanupOk;
    assert ConnectOk(s, i);
  }

  /** A step changes the shared state at its own address only. */
  lemma DialTouchesAddress(s: State, i: Id, c: ConnectStep, p: Addr)
    requires i in s.connects && MayDial(s, i, c)
    requires p != s.connects[i].peer || (c.Claim? && p in s.inFlight)
    ensures var s' := ApplyDial(s, i, c);
            && (p in s'.inFlight <==> p in s.inFlight)
            && (p in s'.pendingCleanup <==> p in s.pendingCleanup)
            && (p in s'.dialed <==> p in s.dialed) && (p in s.dialed ==> s'.dialed[p] == s.dialed[p])
            && (p in s'.locks <==> p in s.locks) && (p in s.locks ==> s'.locks[p] == s.locks[p])
  {}

  /** Another call keeps what it relies on: its address is another one, or it claims nothing. */
  lemma DialKeepsOther(s: State, i: Id, c: ConnectStep, j: Id)
    requires Inv(s) && i in s.connects && MayDial(s, i, c) && j in s.connects && j != i
    ensures j in ApplyDial(s, i, c).connects && ConnectOk(ApplyDial(s, i, c), j)
  {
    hide OneOwner, PermitsAdd, LockOk, Owns, CleanupOk, ApplyDial, MayDial, Claimer;
    DialTouchesOwn(s, i, c);
    DialClaim(s, i, c);
    assert ConnectOk(s, j);
    if Claims(s.connects[j].pc) {
      DialTouchesAddress(s, i, c, s.connects[j].peer);
    }
  }

  lemma DialKeepsCleanup(s: State, i: Id, c: ConnectStep, k: Id)
    requires Inv(s) && i in s.connects && MayDial(s, i, c) && k in ApplyDial(s, i, c).cleanups
    ensures CleanupOk(ApplyDial(s, i, c), k)
  {
    hide OneOwner, PermitsAdd, LockOk, Owns;
    assert ConnectOk(s, i);
    assert k in s.cleanups ==> CleanupOk(s, k);
  }

  lemma DialKeepsLocks(s: State, i: Id, c: ConnectStep, p: Addr)
    requires Inv(s) && i in s.connects && MayDial(s, i, c) && p in ApplyDial(s, i, c).locks
    ensures LockOk(ApplyDial(s, i, c), p)
  {
    hide OneOwner, OneClaim, PermitsAdd, Owns, CleanupOk, ConnectOk, ApplyDial, MayDial, HoldsLock;
    DialTouchesOwn(s, i, c);
    DialLock(s, i, c);
    assert p in s.locks ==> LockOk(s, p);
  }

  lemma DialKeepsClaims(s: State, i: Id, c: ConnectStep)
    requires Inv(s) && i in s.connects && MayDial(s, i, c)
    ensures var s' := ApplyDial(s, i, c); OneClaim(s') && forall p <- s'.inFlight :: exists j :: Claimer(s', j, p)
  {
    hide OneOwner, PermitsAdd, Owns, CleanupOk, LockOk, ApplyDial, MayDial, Claims;
    var s' := ApplyDial(s, i, c);
    DialTouchesOwn(s, i, c);
    DialClaim(s, i, c);
    forall p | p in s'.inFlight
      ensures exists j :: Claimer(s', j, p)
    {
      if p in s.inFlight {
        var j :| Claimer(s, j, p);
        assert Claimer(s', j, p);
      } else {
        assert Claimer(s', i, p);
      }
    }
    forall j | j in s'.connects && j != i && Claims(s'.connects[j].pc)
      ensures i in s'.connects && Claims(s'.connects[i].pc) ==> s'.connects[j].peer != s'.connects[i].peer
    {
      assert j in s.connects.Keys - {i} && ConnectOk(s, j);
    }
    assert forall j :: j in s'.connects && j != i ==> j in s.connects.Keys - {i};
  }

  /** The owner of a quarantine before the step, given the one after it. */
  lemma DialKeepsOwners(s: State, i: Id, c: ConnectStep)
    requires Inv(s) && i in s.connects && MayDial(s, i, c)
    ensures var s' := ApplyDial(s, i, c);
            && OneOwner(s')
            && forall p <- s'.pendingCleanup :: p !in s'.dialed && exists o :: Owns(s', o, p)
  {
    hide PermitsAdd, CleanupOk, LockOk, OneClaim;
    var s' := ApplyDial(s, i, c);
    var peer := s.connects[i].peer;
    assert ConnectOk(s, i);
    match c {
      case Publish =>
        PublishKeepsOwners(s, i);
      case SpawnCleanup(k) =>
        SpawnKeepsOwners(s, i, k);
      case _ =>
        OthersKeepOwners(s, i, c);
    }
  }

  lemma OthersKeepOwners(s: State, i: Id, c: ConnectStep)
    requires Inv(s) && i in s.connects && MayDial(s, i, c) && !c.Publish? && !c.SpawnCleanup?
    ensures var s' := ApplyDial(s, i, c);
            && OneOwner(s')
            && forall p <- s'.pendingCleanup :: p !in s'.dialed && exists o :: Owns(s', o, p)
  {
    hide PermitsAdd, CleanupOk, LockOk, OneClaim, ApplyDial, MayDial, ConnectOk;
    var s' := ApplyDial(s, i, c);
    DialTouchesOwn(s, i, c);
    DialLeavesQuarantine(s, i, c);
    forall o, p
      ensures Owns(s', o, p) <==> Owns(s, o, p)
    {
      match o {
        case ByConnect(j) => assert j in s'.connects.Keys - {i} <==> j in s.connects.Keys - {i};
        case _ =>
      }
    }
    forall p | p in s'.pendingCleanup
      ensures p !in s'.dialed && exists o :: Owns(s', o, p)
    {
      var o :| Owns(s, o, p);
      assert Owns(s', o, p);
    }
  }

  lemma DialLeavesQuarantine(s: State, i: Id, c: ConnectStep)
    requires Inv(s) && i in s.connects && MayDial(s, i, c) && !c.Publish? && !c.SpawnCleanup?
    ensures var s' := ApplyDial(s, i, c);
            && s'.pendingCleanup == s.pendingCleanup
            && (s.connects[i].pc.Quarantining? <==> i in s'.connects && s'.connects[i].pc.Quarantining?)
            && (forall p <- s.pendingCleanup :: p in s'.dialed ==> p in s.dialed)
  {
    hide PermitsAdd, CleanupOk, LockOk, OneClaim, OneOwner, Owns, Claimer;
    assert ConnectOk(s, i);
  }

  lemma OwnedIsPending(s: State, o: Owner, p: Addr)
    requires Inv(s) && Owns(s, o, p)
    ensures p in s.pendingCleanup
  {}

  lemma PublishKeepsOwners(s: State, i: Id)
    requires Inv(s) && i in s.connects && s.connects[i].pc.Undialed?
    ensures var s' := ApplyDial(s, i, Publish);
            && OneOwner(s')
            && forall p <- s'.pendingCleanup :: p !in s'.dialed && exists o :: Owns(s', o, p)
  {
    hide PermitsAdd, CleanupOk, LockOk, OneClaim;
    var s' := ApplyDial(s, i, Publish);
    var peer := s.connects[i].peer;
    assert ConnectOk(s, i);
    assert forall o, p :: Owns(s', o, p) <==> Owns(s, o, p) || (o == ByConnect(i) && p == peer);
    forall o | Owns(s, o, peer)
      ensures false
    {
      OwnedIsPending(s, o, peer);
    }
    assert Owns(s', ByConnect(i), peer);
    forall p | p in s.pendingCleanup
      ensures exists o :: Owns(s', o, p)
    {
      var o :| Owns(s, o, p);
      assert Owns(s', o, p);
    }
  }

  lemma SpawnKeepsOwners(s: State, i: Id, k: Id)
    requires Inv(s) && i in s.connects && s.connects[i].pc.Quarantining? && k !in s.cleanups
    ensures var s' := ApplyDial(s, i, SpawnCleanup(k));
            && OneOwner(s')
            && forall p <- s'.pendingCleanup :: p !in s'.dialed && exists o :: Owns(s', o, p)
  {
    hide PermitsAdd, CleanupOk, LockOk, OneClaim;
    var s' := ApplyDial(s, i, SpawnCleanup(k));
    var peer := s.connects[i].peer;
    assert Owns(s, ByConnect(i), peer);
    assert forall o, p :: Owns(s', o, p) <==> (Owns(s, o, p) && o != ByConnect(i)) || (o == ByCleanup(k) && p == peer);
    forall p | p in s.pendingCleanup
      ensures exists o :: Owns(s', o, p)
    {
      var o :| Owns(s, o, p);
      assert Owns(s', if o == ByConnect(i) then ByCleanup(k) else o, p);
    }
  }

  /** Only the stepping call's share of the permits can change. */
  lemma HoldersAfter(s: State, s': State, i: Id)
    requires s'.connects.Keys - {i} == s.connects.Keys - {i}
    requires forall j <- s.connects :: j != i ==> j in s'.connects && s'.connects[j] == s.connects[j]
    ensures Holders(s') == Holders(s) - {i} + if i in s'.connects && HoldsPermit(s'.connects[i].pc) then {i} else {}
  {
    hide HoldsPermit;
    forall j | j != i
      ensures j in Holders(s') <==> j in Holders(s)
    {
      assert j in s'.connects.Keys - {i} <==> j in s.connects.Keys - {i};
    }
  }

  /** A step touches no other call. */
  lemma DialTouchesOwn(s: State, i: Id, c: ConnectStep)
    requires i in s.connects && MayDial(s, i, c)
    ensures var s' := ApplyDial(s, i, c);
            && s'.connects.Keys - {i} == s.connects.Keys - {i}
            && (forall j <- s.connects :: j != i ==> j in s'.connects && s'.connects[j] == s.connects[j])
            && (i in s'.connects ==> s'.connects[i].peer == s.connects[i].peer)
            && (!c.SpawnCleanup? ==> s'.cleanups == s.cleanups)
            && (c.SpawnCleanup? ==> c.cleanup !in s.cleanups)
            && (c.SpawnCleanup? ==> s'.cleanups == s.cleanups[c.cleanup := Cleanup(s.connects[i].peer, WantLock)])
  {}

  lemma DialPermits(s: State, i: Id, c: ConnectStep)
    requires i in s.connects && MayDial(s, i, c)
    ensures var s' := ApplyDial(s, i, c);
            var (before, after) := (HoldsPermit(s.connects[i].pc), i in s'.connects && HoldsPermit(s'.connects[i].pc));
            if c == Reserve && s.permits > 0 then !before && after && s'.permits == s.permits - 1
            else if c.ReturnPermit? then before && !after && s'.permits == s.permits + 1
            else if c.SpawnCleanup? then before && !after && s'.permits == s.permits
            else before == after && s'.permits == s.permits
  {}

  lemma DialLock(s: State, i: Id, c: ConnectStep)
    requires i in s.connects && MayDial(s, i, c)
    ensures var s' := ApplyDial(s, i, c);
            var peer := s.connects[i].peer;
            var (before, after) := (HoldsLock(s.connects[i].pc), i in s'.connects && HoldsLock(s'.connects[i].pc));
            if c.LockForConnect? then !before && after && peer !in s.locks && s'.locks == s.locks[peer := ByConnect(i)]
            else if c.UnlockConnect? then before && !after && s'.locks == s.locks - {peer}
            else before == after && s'.locks == s.locks
  {}

  lemma DialClaim(s: State, i: Id, c: ConnectStep)
    requires i in s.connects && MayDial(s, i, c)
    ensures var s' := ApplyDial(s, i, c);
            var peer := s.connects[i].peer;
            var (before, after) := (Claims(s.connects[i].pc), i in s'.connects && Claims(s'.connects[i].pc));
            if c.Claim? then !before && after == (peer !in s.inFlight) && s'.inFlight == s.inFlight + {peer}
            else if c.ReleaseClaim? then before && !after && s'.inFlight == s.inFlight - {peer}
            else before && after && s'.inFlight == s.inFlight
  {}

  lemma DialKeepsPermits(s: State, i: Id, c: ConnectStep)
    requires Inv(s) && i in s.connects && MayDial(s, i, c)
    ensures PermitsAdd(ApplyDial(s, i, c))
  {
    hide ApplyDial, MayDial, HoldsPermit, CleanupOk, LockOk, OneClaim, OneOwner, ConnectOk, Holders;
    DialTouchesOwn(s, i, c);
    DialPermits(s, i, c);
    HoldersAfter(s, ApplyDial(s, i, c), i);
    InHolders(s, i);
  }

  lemma InHolders(s: State, i: Id)
    requires i in s.connects
    ensures i in Holders(s) <==> HoldsPermit(s.connects[i].pc)
  {}

  lemma DialKeepsInv(s: State, i: Id, c: ConnectStep)
    requires Inv(s) && i in s.connects && MayDial(s, i, c)
    ensures Inv(ApplyDial(s, i, c))
  {
    hide CleanupOk, LockOk, OneClaim, OneOwner, ConnectOk, PermitsAdd, Owns, Claimer;
    var s' := ApplyDial(s, i, c);
    DialKeepsOwn(s, i, c);
    forall j | j in s'.connects && j != i
      ensures ConnectOk(s', j)
    {
      DialKeepsOther(s, i, c, j);
    }
    forall k | k in s'.cleanups
      ensures CleanupOk(s', k)
    {
      DialKeepsCleanup(s, i, c, k);
    }
    forall p | p in s'.locks
      ensures LockOk(s', p)
    {
      DialKeepsLocks(s, i, c, p);
    }
    DialKeepsClaims(s, i, c);
    DialKeepsOwners(s, i, c);
    DialKeepsPermits(s, i, c);
  }

  // ---- A step of a cleanup task --------------------------------------------------------

  lemma CleanKeepsConnect(s: State, k: Id, c: CleanupStep, j: Id)
    requires Inv(s) && k in s.cleanups && MayClean(s, k, c) && j in s.connects
    ensures j in ApplyClean(s, k, c).connects && ConnectOk(ApplyClean(s, k, c), j)
  {
    hide PermitsAdd, LockOk, OneClaim, Claimer;
    assert ConnectOk(s, j) && CleanupOk(s, k);
    assert c.LiftQuarantine? ==> Owns(s, ByCleanup(k), s.cleanups[k].peer);
    assert s.connects[j].pc.Quarantining? ==> Owns(s, ByConnect(j), s.connects[j].peer);
  }

  lemma CleanKeepsCleanup(s: State, k: Id, c: CleanupStep, j: Id)
    requires Inv(s) && k in s.cleanups && MayClean(s, k, c) && j in ApplyClean(s, k, c).cleanups
    ensures CleanupOk(ApplyClean(s, k, c), j)
  {
    hide PermitsAdd, LockOk, OneClaim, Claimer, ConnectOk;
    assert CleanupOk(s, j) && CleanupOk(s, k);
    assert c.LiftQuarantine? ==> Owns(s, ByCleanup(k), s.cleanups[k].peer);
    assert !s.cleanups[j].pc.Drained? ==> Owns(s, ByCleanup(j), s.cleanups[j].peer);
  }

  /** The defensive check before a cleanup's Disconnect never finds a newer dial. */
  lemma DefensiveBreakUnreachable(s: State, k: Id)
    requires Inv(s) && k in s.cleanups && s.cleanups[k].pc.HasLock?
    ensures s.cleanups[k].peer !in s.dialed
    ensures ApplyClean(s, k, CheckDialed) == CleanupGoto(s, k, Cleared)
  {}

  lemma CleanKeepsLocks(s: State, k: Id, c: CleanupStep, p: Addr)
    requires Inv(s) && k in s.cleanups && MayClean(s, k, c) && p in ApplyClean(s, k, c).locks
    ensures LockOk(ApplyClean(s, k, c), p)
  {
    hide PermitsAdd, OneClaim, Claimer, ConnectOk, OneOwner, Owns;
    assert CleanupOk(s, k);
    assert p in s.locks ==> LockOk(s, p);
  }

  lemma CleanKeepsOwners(s: State, k: Id, c: CleanupStep)
    requires Inv(s) && k in s.cleanups && MayClean(s, k, c)
    ensures var s' := ApplyClean(s, k, c);
            && OneOwner(s')
            && forall p <- s'.pendingCleanup :: p !in s'.dialed && exists o :: Owns(s', o, p)
  {
    hide PermitsAdd, LockOk, OneClaim, ConnectOk;
    var s' := ApplyClean(s, k, c);
    var peer := s.cleanups[k].peer;
    assert CleanupOk(s, k);
    assert !c.EndCleanup? ==> Owns(s, ByCleanup(k), peer);
    forall o, p
      ensures Owns(s', o, p) <==> Owns(s, o, p) && !(c.LiftQuarantine? && o == ByCleanup(k))
    {
    }
    forall p | p in s'.pendingCleanup
      ensures p !in s'.dialed && exists o :: Owns(s', o, p)
    {
      var o :| Owns(s, o, p);
      assert Owns(s', o, p);
    }
  }

  lemma CleanKeepsPermits(s: State, k: Id, c: CleanupStep)
    requires Inv(s) && k in s.cleanups && MayClean(s, k, c)
    ensures PermitsAdd(ApplyClean(s, k, c))
  {}

  lemma CleanKeepsInv(s: State, k: Id, c: CleanupStep)
    requires Inv(s) && k in s.cleanups && MayClean(s, k, c)
    ensures Inv(ApplyClean(s, k, c))
  {
    hide CleanupOk, LockOk, OneOwner, ConnectOk, PermitsAdd, Owns, ApplyClean, MayClean;
    var s' := ApplyClean(s, k, c);
    CleanLeavesConnects(s, k, c);
    forall j | j in s'.connects
      ensures ConnectOk(s', j)
    {
      CleanKeepsConnect(s, k, c, j);
    }
    forall j | j in s'.cleanups
      ensures CleanupOk(s', j)
    {
      CleanKeepsCleanup(s, k, c, j);
    }
    forall p | p in s'.locks
      ensures LockOk(s', p)
    {
      CleanKeepsLocks(s, k, c, p);
    }
    forall p | p in s'.inFlight
      ensures exists i :: Claimer(s', i, p)
    {
      var i :| Claimer(s, i, p);
      assert Claimer(s', i, p);
    }
    CleanKeepsOwners(s, k, c);
    CleanKeepsPermits(s, k, c);
  }

  lemma CleanLeavesConnects(s: State, k: Id, c: CleanupStep)
    requires k in s.cleanups && MayClean(s, k, c)
    ensures var s' := ApplyClean(s, k, c); s'.connects == s.connects && s'.inFlight == s.inFlight
  {}

  // ---- Every run ---------------------------------------------------------------------------

  lemma OthersKeepInv(s: State, a: Step)
    requires Inv(s) && Enabled(s, a) && !a.Dial? && !a.Clean?
    ensures Inv(Apply(s, a))
  {
    hide ConnectOk, CleanupOk, LockOk, OneClaim, OneOwner, Holders, Owns, Claimer, Apply;
    var s' := Apply(s, a);
    OthersKeepHolders(s, a);
    OthersKeepTasks(s, a);
    forall p | p in s'.pendingCleanup
      ensures p !in s'.dialed && exists o :: Owns(s', o, p)
    {
      var o :| Owns(s, o, p);
      assert Owns(s', o, p);
    }
    forall p | p in s'.inFlight
      ensures exists i :: Claimer(s', i, p)
    {
      var i :| Claimer(s, i, p);
      assert Claimer(s', i, p);
    }
  }

  lemma OthersKeepHolders(s: State, a: Step)
    requires Enabled(s, a) && !a.Dial? && !a.Clean?
    ensures var s' := Apply(s, a);
            && Holders(s') == Holders(s) && s'.permits == s.permits && s'.cleanups == s.cleanups
            && s'.inFlight == s.inFlight && s'.pendingCleanup == s.pendingCleanup
            && (forall p <- s'.dialed :: p in s.dialed)
            && (forall i, p :: Claimer(s', i, p) <==> Claimer(s, i, p))
            && (forall o, p :: Owns(s', o, p) <==> Owns(s, o, p))
  {}

  lemma OthersKeepTasks(s: State, a: Step)
    requires Inv(s) && Enabled(s, a) && !a.Dial? && !a.Clean?
    ensures var s' := Apply(s, a);
            && (forall i <- s'.connects :: ConnectOk(s', i))
            && (forall k <- s'.cleanups :: CleanupOk(s', k))
            && (forall p <- s'.locks :: LockOk(s', p))
            && OneClaim(s') && OneOwner(s')
  {
    hide PermitsAdd, Claimer, Owns, OneOwner;
    var s' := Apply(s, a);
    OthersKeepHolders(s, a);
    OwnersSame(s, s');
    forall i | i in s'.connects
      ensures ConnectOk(s', i)
    {
      assert i in s.connects ==> ConnectOk(s, i);
    }
    forall k | k in s'.cleanups
      ensures CleanupOk(s', k)
    {
      assert CleanupOk(s, k);
    }
    forall p | p in s'.locks
      ensures LockOk(s', p)
    {
      assert p in s.locks ==> LockOk(s, p);
    }
  }

  lemma OwnersSame(s: State, s': State)
    requires OneOwner(s) && forall o, p :: Owns(s', o, p) <==> Owns(s, o, p)
    ensures OneOwner(s')
  {}

  lemma StepKeepsInv(s: State, a: Step)
    requires Inv(s) && Enabled(s, a)
    ensures Inv(Apply(s, a))
  {
    hide Inv, ApplyDial, ApplyClean;
    match a {
      case Dial(i, c) => DialKeepsInv(s, i, c);
      case Clean(k, c) => CleanKeepsInv(s, k, c);
      case _ => OthersKeepInv(s, a);
    }
  }

  ghost predicate ValidRun(s: State, steps: seq<Step>)
    decreases |steps|
  {
    steps == [] || (Enabled(s, steps[0]) && ValidRun(Apply(s, steps[0]), steps[1..]))
  }

  ghost function After(s: State, steps: seq<Step>): State
    requires ValidRun(s, steps)
    decreases |steps|
  {
    if steps == [] then s else After(Apply(s, steps[0]), steps[1..])
  }

  lemma {:induction false} RunKeepsInv(s: State, steps: seq<Step>)
    requires Inv(s) && ValidRun(s, steps)
    ensures Inv(After(s, steps))
    decreases |steps|
  {
    hide Inv, Apply, Enabled;
    if steps != [] {
      StepKeepsInv(s, steps[0]);
      RunKeepsInv(Apply(s, steps[0]), steps[1..]);
    }
  }

  lemma StartInv()
    ensures Inv(START)
  {}

  ghost predicate Live(s: State, i: Id) {
    i in s.connects && LiveConnect(s.connects[i].pc)
  }

  /** Over all interleavings and cancellations: at most one Connect is live per address, and
      never beside a cleanup of that address that may be disconnecting it; a quarantined address
      has no `dialed` entry and exactly one task that answers for it; the calls that hold a
      permit and the cleanup tasks together never exceed the permits there are; and no claim and
      no lock is left behind by a task that is gone. */
  lemma QuarantineSafety(steps: seq<Step>)
    requires ValidRun(START, steps)
    ensures var s := After(START, steps);
            && (forall i, j | Live(s, i) && Live(s, j) && s.connects[i].peer == s.connects[j].peer :: i == j)
            && (forall i, k | Live(s, i) && k in s.cleanups && s.cleanups[k].peer == s.connects[i].peer ::
                  !RunningDisconnect(s.cleanups[k].pc) && s.cleanups[k].pc.Drained?)
            && (forall p :: p in s.pendingCleanup <==> exists o :: Owns(s, o, p))
            && (forall p, o, q | Owns(s, o, p) && Owns(s, q, p) :: o == q)
            && (forall p <- s.pendingCleanup :: p !in s.dialed)
            && |Holders(s)| + |s.cleanups| == MAX_CONCURRENT_CLEANUP_DISCONNECTS - s.permits
            && (forall i | Live(s, i) :: i in Holders(s))
            && (forall p <- s.inFlight :: exists i :: Claimer(s, i, p))
            && (forall p <- s.locks :: LockOk(s, p))
  {
    hide ValidRun, After, Inv;
    StartInv();
    RunKeepsInv(START, steps);
    SafetyFacts(After(START, steps));
  }

  lemma SafetyFacts(s: State)
    requires Inv(s)
    ensures forall i, j | Live(s, i) && Live(s, j) && s.connects[i].peer == s.connects[j].peer :: i == j
    ensures forall i, k | Live(s, i) && k in s.cleanups && s.cleanups[k].peer == s.connects[i].peer ::
              !RunningDisconnect(s.cleanups[k].pc) && s.cleanups[k].pc.Drained?
    ensures forall p :: p in s.pendingCleanup <==> exists o :: Owns(s, o, p)
    ensures OneOwner(s) && (forall p <- s.pendingCleanup :: p !in s.dialed)
    ensures |Holders(s)| + |s.cleanups| == MAX_CONCURRENT_CLEANUP_DISCONNECTS - s.permits
    ensures forall i | Live(s, i) :: i in Holders(s)
    ensures forall p <- s.inFlight :: exists i :: Claimer(s, i, p)
    ensures forall p <- s.locks :: LockOk(s, p)
  {}

  /** In every reachable state, the check for a newer dial before a cleanup's Disconnect finds none. */
  lemma DefensiveBreakNeverTaken(steps: seq<Step>, k: Id)
    requires ValidRun(START, steps) && Enabled(After(START, steps), Clean(k, CheckDialed))
    ensures var s := After(START, steps);
            s.cleanups[k].peer !in s.dialed && Apply(s, Clean(k, CheckDialed)) == CleanupGoto(s, k, Cleared)
  {
    hide ValidRun, After, Inv;
    StartInv();
    RunKeepsInv(START, steps);
    DefensiveBreakUnreachable(After(START, steps), k);
  }

  // ---- The driver, in place ------------------------------------------------------------------

  /** The shared collections, and the stretches of `connect`, of its guard and of the cleanup
      task between two awaits. Each stretch is the steps it is made of, one after the other. */
  class LinuxDialing {
    var connects: map<Id, Connect>
    var cleanups: map<Id, Cleanup>
    var inFlight: set<Addr>
    var pendingCleanup: set<Addr>
    var dialed: map<Addr, nat>
    var locks: map<Addr, Owner>
    var permits: nat
    var nextSession: nat

    ghost function View(): State
      reads this
    {
      State(connects, cleanups, inFlight, pendingCleanup, dialed, locks, permits, nextSession)
    }

    constructor ()
      ensures View() == START
    {
      connects, cleanups, inFlight, pendingCleanup, dialed, locks := map[], map[], {}, {}, map[], map[];
      permits, nextSession := MAX_CONCURRENT_CLEANUP_DISCONNECTS, 0;
    }

    method SetPc(id: Id, pc: ConnectPc)
      requires id in connects
      modifies this`connects
      ensures View() == Goto(old(View()), id, pc)
    {
      connects := connects[id := connects[id].(pc := pc)];
    }

    /** Removes the entry only while it is this generation's own. */
    method RemoveDialed(peer: Addr, gen: nat)
      modifies this`dialed
      ensures dialed == Without(old(dialed), peer, gen)
    {
      if peer in dialed && dialed[peer] == gen {
        dialed := dialed - {peer};
      }
    }

    /** The first quarantine check and the claim. */
    method BeginConnect(id: Id, peer: Addr) returns (accepted: bool)
      requires id !in connects
      modifies this
      ensures var s1 := Apply(old(View()), Begin(id, peer));
              View() == if id in s1.connects then Apply(s1, Dial(id, Claim)) else s1
      ensures accepted <==> id in connects
      ensures accepted <==> peer !in old(pendingCleanup) && peer !in old(inFlight)
    {
      if peer in pendingCleanup {
        return false;
      }
      if peer in inFlight {
        assert connects[id := Connect(peer, Checked)] - {id} == connects;
        return false;
      }
      inFlight := inFlight + {peer};
      connects := connects[id := Connect(peer, Claimed)];
      return true;
    }

    /** The lock is granted: the second quarantine check. */
    method OnLocked(id: Id) returns (clear: bool)
      requires id in connects && MayDial(View(), id, LockForConnect)
      modifies this
      ensures View() == Apply(Apply(old(View()), Dial(id, LockForConnect)), Dial(id, Recheck))
      ensures clear <==> connects[id].pc == Rechecked
    {
      locks := locks[connects[id].peer := ByConnect(id)];
      clear := connects[id].peer !in pendingCleanup;
      SetPc(id, if clear then Rechecked else Unlocking);
    }

    /** From there to the await on BlueZ's Connect, or to the early return for want of a permit. */
    method Register(id: Id)
      requires id in connects && MayDial(View(), id, Record)
      modifies this
      ensures var s1 := Apply(Apply(old(View()), Dial(id, Record)), Dial(id, Reserve));
              View() == if old(permits) == 0 then Apply(s1, Dial(id, RemoveOwn)) else s1
    {
      var peer, generation := connects[id].peer, nextSession;
      nextSession := nextSession + 1;
      dialed := dialed[peer := generation];
      if permits == 0 {
        RemoveDialed(peer, generation);
        SetPc(id, Unlocking);
      } else {
        permits := permits - 1;
        SetPc(id, Connecting(generation));
      }
    }

    /** BlueZ answered: an error removes the own entry; the disarmed guard returns its permit. */
    method OnReply(id: Id, ok: bool)
      requires id in connects && MayDial(View(), id, Reply(ok))
      modifies this
      ensures var s1 := Apply(old(View()), Dial(id, Reply(ok)));
              var s2 := if ok then s1 else Apply(s1, Dial(id, RemoveOwn));
              View() == Apply(s2, Dial(id, ReturnPermit))
    {
      if !ok {
        RemoveDialed(connects[id].peer, connects[id].pc.gen);
      }
      permits := permits + 1;
      SetPc(id, Unlocking);
    }

    method OnTimedOut(id: Id)
      requires id in connects && MayDial(View(), id, TimeOut)
      modifies this
      ensures View() == Apply(old(View()), Dial(id, TimeOut))
    {
      RemoveDialed(connects[id].peer, connects[id].pc.gen);
      SetPc(id, Abandoning(connects[id].pc.gen));
    }

    /** The armed guard drops: it removes the own entry, publishes the quarantine and hands its
        permit to a cleanup task, in this order. */
    method OnGuardDropped(id: Id, cleanup: Id)
      requires id in connects && connects[id].pc.Abandoning? && cleanup !in cleanups
      modifies this
      ensures var s1 := Apply(old(View()), Dial(id, RemoveOwn));
              var s2 := Apply(s1, Dial(id, Publish));
              View() == Apply(s2, Dial(id, SpawnCleanup(cleanup)))
    {
      var peer := connects[id].peer;
      RemoveDialed(peer, connects[id].pc.gen);
      pendingCleanup := pendingCleanup + {peer};
      cleanups := cleanups[cleanup := Cleanup(peer, WantLock)];
      SetPc(id, Unlocking);
    }

    /** The remaining guards drop in reverse order of declaration: the lock, then the claim. */
    method Unwind(id: Id)
      requires id in connects && MayDial(View(), id, UnlockConnect)
      modifies this
      ensures View() == Apply(Apply(old(View()), Dial(id, UnlockConnect)), Dial(id, ReleaseClaim))
    {
      var peer := connects[id].peer;
      locks := locks - {peer};
      inFlight := inFlight - {peer};
      assert connects[id := connects[id].(pc := Releasing)] - {id} == connects - {id};
      connects := connects - {id};
    }

    /** One start of a cleanup attempt, under the lock of the address. */
    method OnCleanupLocked(k: Id, found: bool)
      requires k in cleanups && MayClean(View(), k, LockForCleanup)
      modifies this
      ensures var s1 := Apply(old(View()), Clean(k, LockForCleanup));
              var s2 := Apply(s1, Clean(k, CheckDialed));
              View() == if s2.cleanups[k].pc.Ended? then s2
                        else
                          var s3 := Apply(s2, Clean(k, StartDisconnect(found)));
                          if found then Apply(s3, Clean(k, UnlockCleanup)) else s3
    {
      var peer := cleanups[k].peer;
      var started := peer !in dialed && found;
      assert locks[peer := ByCleanup(k)] - {peer} == locks - {peer};
      locks := locks - {peer};
      cleanups := cleanups[k := cleanups[k].(pc := if started then Waiting else Ended)];
    }

    /** A resolved attempt: done, or retried later. */
    method OnDisconnectResolved(k: Id, clean: bool)
      requires k in cleanups && MayClean(View(), k, Resolve(clean))
      modifies this
      ensures View() == Apply(old(View()), Clean(k, Resolve(clean)))
    {
      cleanups := cleanups[k := cleanups[k].(pc := if clean then Ended else WantLock)];
    }

    /** The task ends: the quarantine is lifted before the permit returns. */
    method OnCleanupEnded(k: Id)
      requires k in cleanups && MayClean(View(), k, LiftQuarantine)
      modifies this
      ensures View() == Apply(Apply(old(View()), Clean(k, LiftQuarantine)), Clean(k, EndCleanup))
    {
      pendingCleanup := pendingCleanup - {cleanups[k].peer};
      assert cleanups[k := cleanups[k].(pc := Drained)] - {k} == cleanups - {k};
      cleanups := cleanups - {k};
      permits := permits + 1;
    }
  }
}
