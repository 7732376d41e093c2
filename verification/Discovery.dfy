/**
  Refcounted discovery on Linux (`DiscoveryBus` in `drivers/linux.rs`): scans and stops that take
  turns under one lock, calls that stay at BlueZ when their callers are gone, and BlueZ's list of
  discovering clients. BlueZ may leave any call open and answer the others first.
 */
module Discovery {
  import opened Basics

  type Id = nat

  /** Where a caller of `begin_scan` or `stop_if_idle` waits. */
  datatype Pc =
    | WantScan
    | WantStop
    | ScanRead                            // the `Discovering` property, before a scan
    | Starting(call: nat, retried: bool)  // StartDiscovery
    | Clearing(call: nat)                 // StopDiscovery of the wedge recovery
    | Stopping(call: nat)                 // StopDiscovery
    | StopRead                            // the property, after a failed stop

  /** A definite error proves that the client is not discovering. */
  datatype Reply = Done | InProgress | Refused | StopFailed

  /**
    `openStarts` and `openStops` are the calls BlueZ has not answered. `sent` and `abandoned` are
    history the driver itself could keep: the starts sent since `running` was last unset, and how
    many of them their callers gave up on.
   */
  datatype State = State(
    running: bool, guards: set<Id>, op: Option<Id>, tasks: map<Id, Pc>,
    listed: bool, openStarts: set<nat>, openStops: set<nat>, replies: map<nat, Reply>, nextCall: nat,
    sent: nat, abandoned: nat)

  const START := State(false, {}, None, map[], false, {}, {}, map[], 0, 0, 0)

  /** `ScanState::live` counts the scan guards not yet dropped. */
  function Live(s: State): nat {
    |s.guards|
  }

  predicate IdleRunning(s: State) {
    s.guards == {} && s.running
  }

  datatype Step =
    | RequestScan(t: Id)
    | RequestStop(t: Id)
    | DropGuard(g: Id, t: Id)
    | Lock(t: Id)
    | ReadForScan(t: Id, on: bool)
    | StartReplied(t: Id)
    | StartTimedOut(t: Id)
    | ClearReplied(t: Id)
    | ClearTimedOut(t: Id)
    | StopReplied(t: Id)
    | StopTimedOut(t: Id)
    | ReadForStop(t: Id, on: bool)
    | Cancel(t: Id)
    // BlueZ.
    | Answer(call: nat, reply: Reply)
    | PowerOff

  predicate Waits(s: State, t: Id) {
    t in s.tasks && s.op == Some(t)
  }

  /** What BlueZ may answer: a client already listed is refused with `InProgress`, a definite error
      leaves it unlisted, and a stop succeeds only for a listed client. */
  predicate MayAnswer(s: State, call: nat, reply: Reply) {
    if call in s.openStarts then reply != StopFailed && (s.listed ==> reply == InProgress)
    else call in s.openStops && (reply == StopFailed || (reply == Done && s.listed))
  }

  predicate Enabled(s: State, a: Step) {
    match a
    case RequestScan(t) => t !in s.tasks && t !in s.guards
    case RequestStop(t) => t !in s.tasks
    case DropGuard(g, t) => g in s.guards && t !in s.tasks
    case Lock(t) => t in s.tasks && (s.tasks[t].WantScan? || s.tasks[t].WantStop?) && s.op == None
    case ReadForScan(t, _) => Waits(s, t) && s.tasks[t].ScanRead?
    case StartReplied(t) => Waits(s, t) && s.tasks[t].Starting? && s.tasks[t].call in s.replies
    case StartTimedOut(t) => Waits(s, t) && s.tasks[t].Starting?
    case ClearReplied(t) => Waits(s, t) && s.tasks[t].Clearing? && s.tasks[t].call in s.replies
    case ClearTimedOut(t) => Waits(s, t) && s.tasks[t].Clearing?
    case StopReplied(t) => Waits(s, t) && s.tasks[t].Stopping? && s.tasks[t].call in s.replies
    case StopTimedOut(t) => Waits(s, t) && s.tasks[t].Stopping?
    case ReadForStop(t, on) => Waits(s, t) && s.tasks[t].StopRead? && (s.listed ==> on)
    case Cancel(t) => t in s.tasks
    case Answer(call, reply) => MayAnswer(s, call, reply)
    case PowerOff => true
  }

  // ---- Specification -------------------------------------------------------------------

  /** Marked as running before the call, so that a stop is owed whatever becomes of it. */
  function SendStart(s: State, t: Id, retried: bool): State {
    s.(running := true, openStarts := s.openStarts + {s.nextCall}, nextCall := s.nextCall + 1, sent := s.sent + 1,
       tasks := s.tasks[t := Starting(s.nextCall, retried)])
  }

  function SendStop(s: State, t: Id, pc: Pc): State {
    s.(openStops := s.openStops + {s.nextCall}, nextCall := s.nextCall + 1, tasks := s.tasks[t := pc])
  }

  /** Nothing is left to stop, as far as the driver knows. */
  function Unset(s: State): State {
    s.(running := false, sent := 0, abandoned := 0)
  }

  /** The task returns and, if it held the lock, releases it. */
  function Return(s: State, t: Id): State {
    s.(tasks := s.tasks - {t}, op := if s.op == Some(t) then None else s.op)
  }

  /** A caller that gives up on its StartDiscovery never learns what becomes of it. */
  function GivenUp(s: State, t: Id): State
    requires t in s.tasks
  {
    Return(s.(abandoned := s.abandoned + if s.tasks[t].Starting? then 1 else 0), t)
  }

  function ScanBegun(s: State, t: Id): State {
    Return(s.(running := true, guards := s.guards + {t}), t)
  }

  function OnLock(s: State, t: Id): State
    requires Enabled(s, Lock(t))
  {
    var s1 := s.(op := Some(t));
    if s.tasks[t].WantScan? then
      if s.running then s1.(tasks := s.tasks[t := ScanRead]) else SendStart(s1, t, false)
    else if IdleRunning(s) then SendStop(s1, t, Stopping(s.nextCall))
    else Return(s1, t)
  }

  function OnStartReplied(s: State, t: Id): State
    requires Enabled(s, StartReplied(t))
  {
    match s.replies[s.tasks[t].call]
    case Done => ScanBegun(s, t)
    case InProgress => if s.tasks[t].retried then Return(s, t) else SendStop(s, t, Clearing(s.nextCall))
    case _ => Return(Unset(s), t)
  }

  function OnStopReplied(s: State, t: Id): State
    requires Enabled(s, StopReplied(t))
  {
    if s.replies[s.tasks[t].call] == Done then Return(Unset(s), t) else s.(tasks := s.tasks[t := StopRead])
  }

  function OnAnswer(s: State, call: nat, reply: Reply): State {
    s.(openStarts := s.openStarts - {call}, openStops := s.openStops - {call}, replies := s.replies[call := reply],
       listed := if reply == Done then call in s.openStarts else s.listed)
  }

  function OnDropGuard(s: State, g: Id, t: Id): State {
    var s1 := s.(guards := s.guards - {g});
    if IdleRunning(s1) then s1.(tasks := s.tasks[t := WantStop]) else s1
  }

  function Apply(s: State, a: Step): State
    requires Enabled(s, a)
  {
    match a
    case RequestScan(t) => s.(tasks := s.tasks[t := WantScan])
    case RequestStop(t) => s.(tasks := s.tasks[t := WantStop])
    case DropGuard(g, t) => OnDropGuard(s, g, t)
    case Lock(t) => OnLock(s, t)
    case ReadForScan(t, on) => if on then ScanBegun(s, t) else SendStart(s, t, false)
    case StartReplied(t) => OnStartReplied(s, t)
    case StartTimedOut(t) => GivenUp(s, t)
    case ClearReplied(t) => SendStart(s, t, true)
    case ClearTimedOut(t) => SendStart(s, t, true)
    case StopReplied(t) => OnStopReplied(s, t)
    case StopTimedOut(t) => s.(tasks := s.tasks[t := StopRead])
    case ReadForStop(t, on) => Return(if on then s else Unset(s), t)
    case Cancel(t) => GivenUp(s, t)
    case Answer(call, reply) => OnAnswer(s, call, reply)
    case PowerOff => s.(listed := false)
  }

  ghost predicate ValidRun(s: State, steps: seq<Step>)
    decreases |steps|
  {
    steps == [] || (Enabled(s, steps[0]) && ValidRun(Apply(s, steps[0]), steps[1..]))
  }

  ghost function After(s: State, steps: seq<Step>): State
    requires ValidRun(s, steps)
    decreases |steps|
  {
    if steps == [] then s else After(Apply(s, steps[0]), steps[1..])
  }

  // ---- Structure ---------------------------------------------------------------------------

  predicate OfScan(pc: Pc) {
    pc.WantScan? || pc.ScanRead? || pc.Starting? || pc.Clearing?
  }

  predicate Queues(pc: Pc) {
    pc.WantScan? || pc.WantStop?
  }

  /** What the lock holder waits for is at BlueZ or answered, and `running` is set meanwhile. */
  predicate PcOk(s: State, pc: Pc) {
    && (!Queues(pc) ==> s.running)
    && match pc
       case Starting(call, _) => call in s.openStarts || (call in s.replies && s.replies[call] != StopFailed)
       case Clearing(call) => call in s.openStops || call in s.replies
       case Stopping(call) => call in s.openStops || call in s.replies
       case _ => true
  }

  predicate CallsOk(s: State) {
    && (forall c <- s.openStarts :: c < s.nextCall && c !in s.replies && c !in s.openStops)
    && (forall c <- s.openStops :: c < s.nextCall && c !in s.replies)
    && (forall c <- s.replies :: c < s.nextCall)
  }

  /** Holds in every run, whatever is given up on. */
  ghost predicate Inv(s: State) {
    && CallsOk(s)
    && (s.op.Some? ==> s.op.value in s.tasks)
    && (forall t <- s.tasks :: s.op == Some(t) <==> !Queues(s.tasks[t]))
    && (forall t <- s.tasks :: PcOk(s, s.tasks[t]))
    && (forall t <- s.tasks :: OfScan(s.tasks[t]) ==> t !in s.guards)
  }

  lemma PcStays(s: State, s': State, pc: Pc)
    requires PcOk(s, pc) && (s'.running || Queues(pc))
    requires forall c <- s.openStarts :: c in s'.openStarts || (c in s'.replies && s'.replies[c] != StopFailed)
    requires forall c <- s.openStops :: c in s'.openStops || c in s'.replies
    requires forall c <- s.replies :: c in s'.replies && s'.replies[c] == s.replies[c]
    ensures PcOk(s', pc)
  {}

  lemma AnswerKeepsInv(s: State, call: nat, reply: Reply)
    requires Inv(s) && MayAnswer(s, call, reply)
    ensures Inv(OnAnswer(s, call, reply))
  {
    hide PcOk;
    var s' := OnAnswer(s, call, reply);
    forall t | t in s'.tasks
      ensures PcOk(s', s'.tasks[t])
    {
      HolderRuns(s, t);
      PcStays(s, s', s.tasks[t]);
    }
  }

  lemma HolderRuns(s: State, t: Id)
    requires Inv(s) && t in s.tasks
    ensures PcOk(s, s.tasks[t]) && (!Queues(s.tasks[t]) ==> s.running)
  {}

  /** One more call, by the task that holds the lock or takes it. */
  lemma SendKeepsInv(s: State, t: Id, pc: Pc)
    requires Inv(s) && t in s.tasks && (s.op == Some(t) || s.op == None) && (OfScan(pc) ==> t !in s.guards)
    requires match pc
             case Starting(call, _) => call == s.nextCall
             case Clearing(call) => call == s.nextCall && s.running
             case Stopping(call) => call == s.nextCall && s.running
             case _ => false
    ensures Inv((if pc.Starting? then SendStart(s, t, pc.retried) else SendStop(s, t, pc)).(op := Some(t)))
  {
    var s' := (if pc.Starting? then SendStart(s, t, pc.retried) else SendStop(s, t, pc)).(op := Some(t));
    forall u | u in s'.tasks
      ensures PcOk(s', s'.tasks[u])
    {
      assert u != t ==> PcOk(s, s.tasks[u]);
    }
  }

  /** The lock holder returns, or a queued task does. */
  lemma ReturnKeepsInv(s: State, s': State, t: Id)
    requires Inv(s) && t in s.tasks
    requires s'.tasks == s.tasks - {t} && s'.op == (if s.op == Some(t) then None else s.op)
    requires s'.openStarts == s.openStarts && s'.openStops == s.openStops && s'.replies == s.replies && s'.nextCall == s.nextCall
    requires s'.running == s.running || s.op == Some(t)
    requires s'.guards <= s.guards + {t}
    ensures Inv(s')
  {
    forall u | u in s'.tasks
      ensures PcOk(s', s'.tasks[u])
    {
      assert PcOk(s, s.tasks[u]);
    }
  }

  lemma LockKeepsInv(s: State, t: Id)
    requires Inv(s) && Enabled(s, Lock(t))
    ensures Inv(OnLock(s, t))
  {
    hide CallsOk, PcOk;
    if s.tasks[t].WantScan? {
      if s.running {
        ReadKeepsInv(s, t);
      } else {
        SendKeepsInv(s, t, Starting(s.nextCall, false));
        assert OnLock(s, t) == SendStart(s, t, false).(op := Some(t));
      }
    } else if IdleRunning(s) {
      SendKeepsInv(s, t, Stopping(s.nextCall));
      assert OnLock(s, t) == SendStop(s, t, Stopping(s.nextCall)).(op := Some(t));
    } else {
      ReturnKeepsInv(s, OnLock(s, t), t);
    }
  }

  lemma ReadKeepsInv(s: State, t: Id)
    requires Inv(s) && t in s.tasks && s.op == None && s.tasks[t].WantScan? && s.running
    ensures Inv(s.(op := Some(t), tasks := s.tasks[t := ScanRead]))
  {
    var s' := s.(op := Some(t), tasks := s.tasks[t := ScanRead]);
    forall u | u in s'.tasks
      ensures PcOk(s', s'.tasks[u])
    {
      assert PcOk(s, s.tasks[u]);
    }
  }

  lemma SendAgainKeepsInv(s: State, t: Id, pc: Pc)
    requires Inv(s) && Waits(s, t) && t !in s.guards
    requires pc == Clearing(s.nextCall) || (pc.Starting? && pc.call == s.nextCall)
    ensures Inv(if pc.Starting? then SendStart(s, t, pc.retried) else SendStop(s, t, pc))
  {
    hide CallsOk, PcOk;
    HolderRuns(s, t);
    SendKeepsInv(s, t, pc);
    var s' := if pc.Starting? then SendStart(s, t, pc.retried) else SendStop(s, t, pc);
    assert s'.(op := Some(t)) == s';
  }

  lemma StopReadKeepsInv(s: State, t: Id)
    requires Inv(s) && Waits(s, t) && s.tasks[t].Stopping?
    ensures Inv(s.(tasks := s.tasks[t := StopRead]))
  {
    var s' := s.(tasks := s.tasks[t := StopRead]);
    forall u | u in s'.tasks
      ensures PcOk(s', s'.tasks[u])
    {
      assert PcOk(s, s.tasks[u]);
    }
  }

  /** Tasks come, guards go, and the radio may. */
  lemma QuietKeepsInv(s: State, a: Step)
    requires Inv(s) && Enabled(s, a) && (a.RequestScan? || a.RequestStop? || a.DropGuard? || a.PowerOff?)
    ensures Inv(Apply(s, a))
  {
    var s' := Apply(s, a);
    forall u | u in s'.tasks
      ensures PcOk(s', s'.tasks[u])
    {
      assert u in s.tasks ==> PcOk(s, s.tasks[u]);
    }
  }

  lemma StepKeepsInv(s: State, a: Step)
    requires Inv(s) && Enabled(s, a)
    ensures Inv(Apply(s, a))
  {
    hide CallsOk, PcOk;
    var s' := Apply(s, a);
    match a {
      case Lock(t) => LockKeepsInv(s, t);
      case ReadForScan(t, on) =>
        if on {
          HolderRuns(s, t);
          ReturnKeepsInv(s, s', t);
        } else {
          SendAgainKeepsInv(s, t, Starting(s.nextCall, false));
        }
      case StartReplied(t) =>
        HolderRuns(s, t);
        if s.replies[s.tasks[t].call].InProgress? && !s.tasks[t].retried {
          SendAgainKeepsInv(s, t, Clearing(s.nextCall));
        } else {
          ReturnKeepsInv(s, s', t);
        }
      case StartTimedOut(t) => ReturnKeepsInv(s, s', t);
      case ClearReplied(t) => SendAgainKeepsInv(s, t, Starting(s.nextCall, true));
      case ClearTimedOut(t) => SendAgainKeepsInv(s, t, Starting(s.nextCall, true));
      case StopReplied(t) =>
        if s.replies[s.tasks[t].call].Done? {
          ReturnKeepsInv(s, s', t);
        } else {
          StopReadKeepsInv(s, t);
        }
      case StopTimedOut(t) => StopReadKeepsInv(s, t);
      case ReadForStop(t, on) => ReturnKeepsInv(s, s', t);
      case Cancel(t) => ReturnKeepsInv(s, s', t);
      case Answer(call, reply) => AnswerKeepsInv(s, call, reply);
      case _ => QuietKeepsInv(s, a);
    }
  }

  lemma {:induction false} RunKeepsInv(s: State, steps: seq<Step>)
    requires Inv(s) && ValidRun(s, steps)
    ensures Inv(After(s, steps))
    decreases |steps|
  {
    hide Inv, Apply, Enabled;
    if steps != [] {
      StepKeepsInv(s, steps[0]);
      RunKeepsInv(Apply(s, steps[0]), steps[1..]);
    }
  }

  /** In every run, whatever is cancelled: the lock is never held by a task that is gone, and a stop
      that is owed and gets the lock is sent. */
  lemma LockIsNeverLeaked(steps: seq<Step>)
    requires ValidRun(START, steps)
    ensures var s := After(START, steps);
            && (s.op.Some? ==> s.op.value in s.tasks && !Queues(s.tasks[s.op.value]))
            && (IdleRunning(s) && s.op == None ==>
                  forall t | t in s.tasks && s.tasks[t].WantStop? :: s.nextCall in Apply(s, Lock(t)).openStops)
  {
    hide ValidRun, After;
    RunKeepsInv(START, steps);
  }

  // ---- When discovery is lost track of: exactly ------------------------------------------------

  /** BlueZ lists this client, or may yet come to, only while a stop would be owed. */
  predicate Tracked(s: State) {
    s.listed || s.openStarts != {} ==> s.running
  }

  /** The steps that drop the debt: a definite start error, a successful stop, or reading that the
      adapter is not discovering. */
  predicate Clears(s: State, a: Step)
    requires Enabled(s, a)
  {
    s.running && !Apply(s, a).running
  }

  /** Every other step keeps track, whoever is cancelled and however BlueZ answers; a step that
      drops the debt keeps track exactly when BlueZ neither lists the client nor has a start open. */
  lemma DroppingTheDebtIsExact(s: State, a: Step)
    requires Inv(s) && Tracked(s) && Enabled(s, a)
    ensures Tracked(Apply(s, a)) <==> (Clears(s, a) ==> !s.listed && s.openStarts == {})
  {
    hide CallsOk;
    if a.Answer? && a.call in s.openStarts {
      assert s.openStarts != {};
    }
    if a.Lock? || a.ReadForScan? || a.ClearReplied? || a.ClearTimedOut? {
      HolderRuns(s, a.t);
    }
  }

  ghost predicate AlwaysTracked(s: State, steps: seq<Step>)
    requires ValidRun(s, steps)
    decreases |steps|
  {
    Tracked(s) && (steps == [] || AlwaysTracked(Apply(s, steps[0]), steps[1..]))
  }

  ghost predicate ClearsOnlyWhenOff(s: State, steps: seq<Step>)
    requires ValidRun(s, steps)
    decreases |steps|
  {
    steps == [] ||
    (&& (Clears(s, steps[0]) ==> !s.listed && s.openStarts == {})
     && ClearsOnlyWhenOff(Apply(s, steps[0]), steps[1..]))
  }

  /** A run keeps track of discovery at every point if and only if the debt is only ever dropped
      while BlueZ neither lists the client nor has a start of it open. */
  lemma {:induction false} TrackedExactly(s: State, steps: seq<Step>)
    requires Inv(s) && Tracked(s) && ValidRun(s, steps)
    ensures AlwaysTracked(s, steps) <==> ClearsOnlyWhenOff(s, steps)
    decreases |steps|
  {
    hide Inv, Tracked, Apply, Enabled, Clears;
    if steps != [] {
      StepKeepsInv(s, steps[0]);
      DroppingTheDebtIsExact(s, steps[0]);
      if Tracked(Apply(s, steps[0])) {
        TrackedExactly(Apply(s, steps[0]), steps[1..]);
      } else {
        LostAtOnce(Apply(s, steps[0]), steps[1..]);
      }
    }
  }

  lemma LostAtOnce(s: State, steps: seq<Step>)
    requires ValidRun(s, steps) && !Tracked(s)
    ensures !AlwaysTracked(s, steps)
  {}

  // ---- What the driver can see -----------------------------------------------------------------

  /** The debt is dropped only while no StartDiscovery sent since it arose has been given up on; a
      successful stop may also follow one that was the only one. */
  predicate Informed(s: State, a: Step)
    requires Enabled(s, a)
  {
    Clears(s, a) ==> s.abandoned == 0 || (a.StopReplied? && s.sent == 1)
  }

  ghost predicate AlwaysInformed(s: State, steps: seq<Step>)
    requires ValidRun(s, steps)
    decreases |steps|
  {
    steps == [] || (Informed(s, steps[0]) && AlwaysInformed(Apply(s, steps[0]), steps[1..]))
  }

  function Holder(s: State): Pc {
    if s.op.Some? && s.op.value in s.tasks then s.tasks[s.op.value] else WantStop
  }

  function One(b: bool): nat {
    if b then 1 else 0
  }

  /** The lock holder waits for a start that BlueZ has not answered. */
  predicate Awaits(s: State) {
    Holder(s).Starting? && Holder(s).call in s.openStarts
  }

  predicate OpenAccounted(s: State) {
    && |s.openStarts| + One(s.listed) <= s.sent
    && |s.openStarts| <= s.abandoned + One(Awaits(s))
    && (!s.running ==> s.sent == 0)
  }

  /** What an answer that waits for its caller says about BlueZ by now. */
  predicate AnswerAccounted(s: State) {
    match Holder(s)
    case Starting(call, _) => call in s.replies && s.replies[call] == Refused && s.abandoned == 0 ==> !s.listed
    case Stopping(call) =>
      call in s.replies && s.replies[call] == Done && (s.abandoned == 0 || s.sent == 1) ==> !s.listed && s.openStarts == {}
    case _ => true
  }

  ghost predicate Accounted(s: State) {
    OpenAccounted(s) && AnswerAccounted(s)
  }

  lemma AccountedIsTracked(s: State)
    requires Accounted(s)
    ensures Tracked(s)
  {}

  lemma HolderIs(s: State, t: Id)
    requires Waits(s, t)
    ensures Holder(s) == s.tasks[t]
  {}

  /** Steps that leave BlueZ alone, unless they drop the debt. */
  lemma SameAccounts(s: State, s': State)
    requires Accounted(s) && s'.listed == s.listed && s'.openStarts == s.openStarts && s'.replies == s.replies
    requires s'.running == s.running && s'.sent == s.sent && s'.abandoned >= s.abandoned
    requires Awaits(s) ==> Awaits(s') || s'.abandoned > s.abandoned
    requires Holder(s') == Holder(s) || !(Holder(s').Starting? || Holder(s').Stopping?)
             || (Holder(s').Stopping? && Holder(s').call !in s'.replies)
    requires s'.abandoned == s.abandoned || !(Holder(s').Starting? || Holder(s').Stopping?)
    ensures Accounted(s')
  {}

  lemma AnswerAccounts(s: State, call: nat, reply: Reply)
    requires Inv(s) && Accounted(s) && MayAnswer(s, call, reply)
    ensures Accounted(OnAnswer(s, call, reply))
  {
    var s' := OnAnswer(s, call, reply);
    assert Holder(s') == Holder(s);
    if call in s.openStarts {
      assert |s'.openStarts| == |s.openStarts| - 1;
    } else {
      assert s'.openStarts == s.openStarts;
    }
    if s.op.Some? {
      HolderRuns(s, s.op.value);
    }
  }

  lemma SendStartAccounts(s: State, t: Id, retried: bool)
    requires Inv(s) && Accounted(s) && t in s.tasks && (s.op == None || (s.op == Some(t) && !s.tasks[t].Starting?))
    ensures Accounted(SendStart(s, t, retried).(op := Some(t)))
  {
    var s' := SendStart(s, t, retried).(op := Some(t));
    assert s.nextCall !in s.openStarts;
    assert !Awaits(s);
  }

  /** A debt that is dropped by an informed step is dropped rightly. */
  lemma ClearingAccounts(s: State, a: Step)
    requires Inv(s) && Accounted(s) && Enabled(s, a) && Clears(s, a) && Informed(s, a)
    ensures !s.listed && s.openStarts == {}
    ensures Accounted(Apply(s, a))
  {
    ClearingStep(s, a);
    HolderIs(s, a.t);
    HolderRuns(s, a.t);
    assert |s.openStarts| == 0 || s.openStarts == {};
    var s' := Apply(s, a);
    assert !Awaits(s') && s'.sent == 0;
  }

  lemma ClearingStep(s: State, a: Step)
    requires Enabled(s, a) && Clears(s, a)
    ensures (a.StartReplied? && s.replies[s.tasks[a.t].call] != Done && s.replies[s.tasks[a.t].call] != InProgress)
         || (a.StopReplied? && s.replies[s.tasks[a.t].call] == Done)
         || (a.ReadForStop? && !a.on)
  {}

  lemma StepAccounts(s: State, a: Step)
    requires Inv(s) && Accounted(s) && Enabled(s, a) && Informed(s, a)
    ensures Accounted(Apply(s, a))
  {
    hide CallsOk, PcOk, OpenAccounted, AnswerAccounted;
    var s' := Apply(s, a);
    if Clears(s, a) {
      ClearingAccounts(s, a);
    } else {
      match a {
        case Answer(call, reply) => AnswerAccounts(s, call, reply);
        case _ => QuietAccounts(s, a);
      }
    }
  }

  lemma PowerOffAccounts(s: State)
    requires Accounted(s)
    ensures Accounted(s.(listed := false))
  {}

  lemma QuietAccounts(s: State, a: Step)
    requires Inv(s) && Accounted(s) && Enabled(s, a) && !Clears(s, a) && !a.Answer?
    ensures Accounted(Apply(s, a))
  {
    hide PcOk, Accounted;
    var s' := Apply(s, a);
    if a.PowerOff? {
      PowerOffAccounts(s);
    } else if a.ClearReplied? || a.ClearTimedOut? || (a.ReadForScan? && !a.on) || (a.Lock? && s.tasks[a.t].WantScan? && !s.running) {
      SendStartAccounts(s, a.t, a.ClearReplied? || a.ClearTimedOut?);
      assert s' == SendStart(s, a.t, a.ClearReplied? || a.ClearTimedOut?).(op := Some(a.t));
    } else {
      if s.op.Some? {
        HolderRuns(s, s.op.value);
      }
      WaitingIsRunning(s);
      SameAccounts(s, s');
    }
  }

  /** The lock holder's `running` is set, and a call it waits for is open or answered, not both. */
  lemma WaitingIsRunning(s: State)
    requires Inv(s)
    ensures !Queues(Holder(s)) ==> s.running
    ensures Holder(s).Starting? && Holder(s).call in s.replies ==> !Awaits(s)
    ensures s.nextCall !in s.replies
  {}

  lemma {:induction false} RunAccounts(s: State, steps: seq<Step>)
    requires Inv(s) && Accounted(s) && ValidRun(s, steps) && AlwaysInformed(s, steps)
    ensures Inv(After(s, steps)) && Accounted(After(s, steps)) && AlwaysTracked(s, steps)
    decreases |steps|
  {
    hide Inv, Accounted, Tracked, Apply, Enabled, Informed;
    AccountedIsTracked(s);
    if steps != [] {
      StepKeepsInv(s, steps[0]);
      StepAccounts(s, steps[0]);
      RunAccounts(Apply(s, steps[0]), steps[1..]);
    }
  }

  /** Over all interleavings, cancellations and lost replies, and however late and in whatever order
      BlueZ answers: as long as the driver drops the debt only while it has given up on no start
      sent since the debt arose (or after a stop that succeeded, on the only one), BlueZ lists this
      client, or has a start of it open, only while `running` is set. So once the last scan guard
      is gone, discovery is off for good or a stop is owed. */
  lemma DiscoveryIsTracked(steps: seq<Step>)
    requires ValidRun(START, steps) && AlwaysInformed(START, steps)
    ensures AlwaysTracked(START, steps)
    ensures var s := After(START, steps);
            && (s.listed || s.openStarts != {} ==> s.running)
            && (Live(s) == 0 ==> (!s.listed && s.openStarts == {}) || IdleRunning(s))
  {
    hide ValidRun, AlwaysInformed, AlwaysTracked, After, Inv;
    StartInv();
    RunAccounts(START, steps);
    AccountedIsTracked(After(START, steps));
    var s := After(START, steps);
    assert Live(s) == 0 ==> s.guards == {};
  }

  lemma StartInv()
    ensures Inv(START) && Accounted(START) && Tracked(START)
  {}

  /** A StartDiscovery whose caller is cancelled or timed out. */
  predicate GivesUp(s: State, a: Step) {
    a.StartTimedOut? || (a.Cancel? && a.t in s.tasks && s.tasks[a.t].Starting?)
  }

  ghost predicate NeverGivesUp(s: State, steps: seq<Step>)
    requires ValidRun(s, steps)
    decreases |steps|
  {
    steps == [] || (!GivesUp(s, steps[0]) && NeverGivesUp(Apply(s, steps[0]), steps[1..]))
  }

  lemma {:induction false} NeverGivingUpIsInformed(s: State, steps: seq<Step>)
    requires s.abandoned == 0 && ValidRun(s, steps) && NeverGivesUp(s, steps)
    ensures AlwaysInformed(s, steps)
    decreases |steps|
  {
    if steps != [] {
      NeverGivingUpIsInformed(Apply(s, steps[0]), steps[1..]);
    }
  }

  /** If no StartDiscovery is ever given up on, every run is tracked, whatever becomes of the stops. */
  lemma TrackedIfNoStartIsGivenUp(steps: seq<Step>)
    requires ValidRun(START, steps) && NeverGivesUp(START, steps)
    ensures AlwaysTracked(START, steps)
  {
    hide ValidRun, AlwaysTracked, AlwaysInformed, NeverGivesUp;
    NeverGivingUpIsInformed(START, steps);
    DiscoveryIsTracked(steps);
  }

  // ---- And that it is needed -------------------------------------------------------------------

  /** There is an id that no task has. */
  lemma FreshTask(tasks: map<Id, Pc>)
    ensures exists t: Id :: t !in tasks
  {
    if forall t: Id :: t in tasks {
      assert Below(|tasks| + 1) <= tasks.Keys;
      SubsetSize(Below(|tasks| + 1), tasks.Keys);
    }
  }

  /** A run from `s` to `e` in which no further start is given up on. */
  ghost predicate Leads(s: State, steps: seq<Step>, e: State) {
    ValidRun(s, steps) && NeverGivesUp(s, steps) && After(s, steps) == e
  }

  lemma LeadsFirst(s: State, a: Step, steps: seq<Step>, e: State)
    requires Enabled(s, a) && !GivesUp(s, a) && Leads(Apply(s, a), steps, e)
    ensures Leads(s, [a] + steps, e)
  {
    hide Apply, Enabled, GivesUp;
    assert ([a] + steps)[1..] == steps;
  }

  /** The guards are dropped one by one; then a stop is owed and a task wants to send it. */
  ghost predicate Owed(s: State, e: State, u: Id) {
    e == s.(guards := {}, tasks := e.tasks) && u in e.tasks && e.tasks[u] == WantStop
  }

  lemma {:induction false} GuardsCanGo(s: State)
    requires s.running && s.op == None
    ensures exists steps, e, u :: Leads(s, steps, e) && Owed(s, e, u)
    decreases |s.guards|
  {
    hide ValidRun, After, NeverGivesUp;
    FreshTask(s.tasks);
    var u: Id :| u !in s.tasks;
    if s.guards == {} {
      var e := s.(tasks := s.tasks[u := WantStop]);
      LeadsNowhere(e);
      LeadsFirst(s, RequestStop(u), [], e);
      assert Owed(s, e, u);
    } else {
      var g :| g in s.guards;
      var s1 := Apply(s, DropGuard(g, u));
      if s1.guards == {} {
        LeadsNowhere(s1);
        LeadsFirst(s, DropGuard(g, u), [], s1);
        assert Owed(s, s1, u);
      } else {
        GuardsCanGo(s1);
        var steps, e, v :| Leads(s1, steps, e) && Owed(s1, e, v);
        LeadsFirst(s, DropGuard(g, u), steps, e);
        assert Owed(s, e, v);
      }
    }
  }

  lemma LeadsNowhere(s: State)
    ensures Leads(s, [], s)
  {}

  /** Nothing is owed any more, and then BlueZ takes up the start. */
  lemma OpenStartIsTakenUp(s: State, c: nat)
    requires !s.running && !s.listed && s.op == None && s.guards == {} && c in s.openStarts
    ensures exists steps, e :: Leads(s, steps, e) && e.listed && !e.running && e.guards == {} && e.op == None
  {
    hide ValidRun, After, NeverGivesUp, Leads;
    var e := Apply(s, Answer(c, Done));
    LeadsNowhere(e);
    LeadsFirst(s, Answer(c, Done), [], e);
  }

  /** The owed stop is refused while the start is still open, and the adapter is not discovering. */
  lemma OpenStartOutlivesStop(s: State, u: Id, c: nat)
    requires s.running && s.op == None && s.guards == {} && u in s.tasks && s.tasks[u] == WantStop
    requires c in s.openStarts && c != s.nextCall && s.nextCall !in s.openStarts
    ensures exists steps, e :: Leads(s, steps, e) && e.listed && !e.running && e.guards == {} && e.op == None
  {
    hide ValidRun, After, NeverGivesUp, Leads;
    var n := s.nextCall;
    var s1 := Apply(s, Lock(u));
    var s2 := Apply(s1, PowerOff);
    var s3 := Apply(s2, Answer(n, StopFailed));
    assert s3.replies[n] == StopFailed;
    var s4 := Apply(s3, StopReplied(u));
    var s5 := Apply(s4, ReadForStop(u, false));
    OpenStartIsTakenUp(s5, c);
    var r5, e :| Leads(s5, r5, e) && e.listed && !e.running && e.guards == {} && e.op == None;
    LeadsFirst(s4, ReadForStop(u, false), r5, e);
    LeadsFirst(s3, StopReplied(u), [ReadForStop(u, false)] + r5, e);
    var r3 := [StopReplied(u)] + ([ReadForStop(u, false)] + r5);
    LeadsFirst(s2, Answer(n, StopFailed), r3, e);
    LeadsFirst(s1, PowerOff, [Answer(n, StopFailed)] + r3, e);
    LeadsFirst(s, Lock(u), [PowerOff] + ([Answer(n, StopFailed)] + r3), e);
  }

  lemma {:induction false} LeadsOn(s: State, a: seq<Step>, m: State, b: seq<Step>, e: State)
    requires Leads(s, a, m) && Leads(m, b, e)
    ensures Leads(s, a + b, e)
    decreases |a|
  {
    hide Apply, Enabled, GivesUp;
    if a == [] {
      assert a + b == b;
    } else {
      LeadsOn(Apply(s, a[0]), a[1..], m, b, e);
      LeadsFirst(s, a[0], a[1..] + b, e);
      assert [a[0]] + (a[1..] + b) == a + b;
    }
  }

  lemma OpenStartCanBeLost(s: State, t: Id)
    requires Inv(s) && Waits(s, t) && s.tasks[t].Starting? && s.tasks[t].call in s.openStarts
    ensures exists steps, e ::
              Leads(Apply(s, Cancel(t)), steps, e) && e.listed && !e.running && e.guards == {} && e.op == None
  {
    hide ValidRun, After, NeverGivesUp, Leads;
    var c := s.tasks[t].call;
    HolderRuns(s, t);
    var s1 := Apply(s, Cancel(t));
    GuardsCanGo(s1);
    var first, m, u :| Leads(s1, first, m) && Owed(s1, m, u);
    assert s.nextCall !in s.openStarts;
    OpenStartOutlivesStop(m, u, c);
    var second, e :| Leads(m, second, e) && e.listed && !e.running && e.guards == {} && e.op == None;
    LeadsOn(s1, first, m, second, e);
  }

  /** The condition is needed. Whenever the caller of a StartDiscovery that BlueZ has not answered
      is cancelled, after whatever run, there is a way on, without giving up on any other start,
      that ends with BlueZ listing the client, no scan live and no stop owed. */
  lemma GivenUpStartCanBeLost(before: seq<Step>, t: Id)
    requires ValidRun(START, before)
    requires var s := After(START, before); Waits(s, t) && s.tasks[t].Starting? && s.tasks[t].call in s.openStarts
    ensures exists steps, e ::
              Leads(Apply(After(START, before), Cancel(t)), steps, e) && e.listed && !e.running && e.guards == {} && e.op == None
  {
    hide ValidRun, After, Leads, Inv;
    StartInv();
    RunKeepsInv(START, before);
    OpenStartCanBeLost(After(START, before), t);
  }

  // ---- A definite counterexample ----------------------------------------------------------------

  /** A scan is cancelled after sending its StartDiscovery; the owed stop is refused, the adapter is
      not discovering, and then BlueZ takes up the start. */
  const LOST := [RequestScan(1), Lock(1), Cancel(1), RequestStop(2), Lock(2), Answer(1, StopFailed), StopReplied(2),
                 ReadForStop(2, false), Answer(0, Done)]

  function LostState(k: nat): State {
    if k == 0 then START
    else if k == 1 then START.(tasks := map[1 := WantScan])
    else if k == 2 then State(true, {}, Some(1), map[1 := Starting(0, false)], false, {0}, {}, map[], 1, 1, 0)
    else if k == 3 then State(true, {}, None, map[], false, {0}, {}, map[], 1, 1, 1)
    else if k == 4 then State(true, {}, None, map[2 := WantStop], false, {0}, {}, map[], 1, 1, 1)
    else if k == 5 then State(true, {}, Some(2), map[2 := Stopping(1)], false, {0}, {1}, map[], 2, 1, 1)
    else if k == 6 then State(true, {}, Some(2), map[2 := Stopping(1)], false, {0}, {}, map[1 := StopFailed], 2, 1, 1)
    else if k == 7 then State(true, {}, Some(2), map[2 := StopRead], false, {0}, {}, map[1 := StopFailed], 2, 1, 1)
    else if k == 8 then State(false, {}, None, map[], false, {0}, {}, map[1 := StopFailed], 2, 0, 0)
    else State(false, {}, None, map[], true, {}, {}, map[0 := Done, 1 := StopFailed], 2, 0, 0)
  }

  lemma LostStep(k: nat)
    requires k < 9
    ensures Enabled(LostState(k), LOST[k]) && Apply(LostState(k), LOST[k]) == LostState(k + 1)
  {}

  lemma {:induction false} LostRun(k: nat)
    requires k <= 9
    ensures ValidRun(LostState(k), LOST[k..]) && After(LostState(k), LOST[k..]) == LostState(9)
    decreases 9 - k
  {
    hide Apply, Enabled, LostState;
    if k < 9 {
      LostStep(k);
      LostRun(k + 1);
      assert LOST[k..][0] == LOST[k] && LOST[k..][1..] == LOST[k + 1..];
    }
  }

  /** Every call of that run is answered, and yet BlueZ lists this client for good, no scan is live
      and no stop is owed. */
  lemma CancelledScanLosesDiscovery()
    ensures ValidRun(START, LOST)
    ensures var s := After(START, LOST);
            s.listed && s.openStarts == {} && s.openStops == {} && Live(s) == 0 && !s.running && s.tasks == map[]
  {
    LostRun(0);
    assert LOST[0..] == LOST;
  }

  // ---- The driver's side, in place -----------------------------------------------------------

  /** The scan state, the lock, and the stretches of `begin_scan`, `stop_if_idle` and of dropping
      a guard. BlueZ's side of the bus is here only to say what was sent and replied. */
  class DiscoveryBus {
    var running: bool
    var guards: set<Id>
    var op: Option<Id>
    var tasks: map<Id, Pc>
    var listed: bool
    var openStarts: set<nat>
    var openStops: set<nat>
    var replies: map<nat, Reply>
    var nextCall: nat
    // History, kept for the statements about what the driver can see.
    var sent: nat
    var abandoned: nat

    ghost function View(): State
      reads this
    {
      State(running, guards, op, tasks, listed, openStarts, openStops, replies, nextCall, sent, abandoned)
    }

    constructor ()
      ensures View() == START
    {
      running, guards, op, tasks, listed := false, {}, None, map[], false;
      openStarts, openStops, replies, nextCall, sent, abandoned := {}, {}, map[], 0, 0, 0;
    }

    /** `running` is set before the call is sent. */
    method StartDiscovery(t: Id, retried: bool)
      modifies this
      ensures View() == SendStart(old(View()), t, retried)
    {
      running := true;
      openStarts := openStarts + {nextCall};
      tasks := tasks[t := Starting(nextCall, retried)];
      nextCall := nextCall + 1;
      sent := sent + 1;
    }

    method StopDiscovery(t: Id, pc: Pc)
      modifies this
      ensures View() == SendStop(old(View()), t, pc)
    {
      openStops := openStops + {nextCall};
      tasks := tasks[t := pc];
      nextCall := nextCall + 1;
    }

    method Finish(t: Id)
      modifies this`tasks, this`op
      ensures View() == Return(old(View()), t)
    {
      tasks := tasks - {t};
      if op == Some(t) {
        op := None;
      }
    }

    method NothingToStop()
      modifies this`running, this`sent, this`abandoned
      ensures View() == Unset(old(View()))
    {
      running, sent, abandoned := false, 0, 0;
    }

    method OnLocked(t: Id)
      requires Enabled(View(), Lock(t))
      modifies this
      ensures View() == Apply(old(View()), Lock(t))
    {
      op := Some(t);
      if tasks[t].WantScan? {
        if running {
          tasks := tasks[t := ScanRead];
        } else {
          StartDiscovery(t, false);
        }
      } else if guards == {} && running {
        StopDiscovery(t, Stopping(nextCall));
      } else {
        Finish(t);
      }
    }

    method CountScan(t: Id)
      modifies this
      ensures View() == ScanBegun(old(View()), t)
    {
      running := true;
      guards := guards + {t};
      Finish(t);
    }

    method OnReadForScan(t: Id, on: bool)
      requires Enabled(View(), ReadForScan(t, on))
      modifies this
      ensures View() == Apply(old(View()), ReadForScan(t, on))
    {
      if on {
        CountScan(t);
      } else {
        StartDiscovery(t, false);
      }
    }

    /** Success counts the scan; `InProgress` clears the wedge once; only a definite error proves
        that there is nothing to stop. */
    method OnStartReplied(t: Id)
      requires Enabled(View(), StartReplied(t))
      modifies this
      ensures View() == Apply(old(View()), StartReplied(t))
    {
      match replies[tasks[t].call] {
        case Done =>
          CountScan(t);
        case InProgress =>
          if tasks[t].retried {
            Finish(t);
          } else {
            StopDiscovery(t, Clearing(nextCall));
          }
        case _ =>
          NothingToStop();
          Finish(t);
      }
    }

    /** Whatever the recovery's stop answered, or if it did not, the start is tried once more. */
    method OnCleared(t: Id)
      requires Enabled(View(), ClearTimedOut(t))
      modifies this
      ensures View() == Apply(old(View()), ClearTimedOut(t))
    {
      StartDiscovery(t, true);
    }

    method OnStopReplied(t: Id)
      requires Enabled(View(), StopReplied(t))
      modifies this
      ensures View() == Apply(old(View()), StopReplied(t))
    {
      if replies[tasks[t].call] == Done {
        NothingToStop();
        Finish(t);
      } else {
        tasks := tasks[t := StopRead];
      }
    }

    method OnReadForStop(t: Id, on: bool)
      requires Enabled(View(), ReadForStop(t, on))
      modifies this
      ensures View() == Apply(old(View()), ReadForStop(t, on))
    {
      if !on {
        NothingToStop();
      }
      Finish(t);
    }

    method OnGuardDropped(g: Id, t: Id)
      requires Enabled(View(), DropGuard(g, t))
      modifies this
      ensures View() == Apply(old(View()), DropGuard(g, t))
    {
      guards := guards - {g};
      if guards == {} && running {
        tasks := tasks[t := WantStop];
      }
    }

    /** The caller's future is dropped: only the lock is given back. */
    method OnCancelled(t: Id)
      requires Enabled(View(), Cancel(t))
      modifies this
      ensures View() == Apply(old(View()), Cancel(t))
    {
      if tasks[t].Starting? {
        abandoned := abandoned + 1;
      }
      Finish(t);
    }
  }
}
