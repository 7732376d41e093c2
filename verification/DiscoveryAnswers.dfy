/**
  What every step of the discovery bus does for its callers and to BlueZ: which scans count, which
  calls are sent, when a stop is owed and when the debt is dropped.
 */
module DiscoveryAnswers {
  import opened Basics
  import opened Discovery

  lemma Reachable(steps: seq<Step>)
    requires ValidRun(START, steps)
    ensures Inv(After(START, steps))
  {
    hide Inv, ValidRun, After;
    StartInv();
    RunKeepsInv(START, steps);
  }

  /** BlueZ's answer to the call the task waits for. */
  predicate Answers(s: State, t: Id, reply: Reply)
    requires t in s.tasks && (s.tasks[t].Starting? || s.tasks[t].Stopping?) && s.tasks[t].call in s.replies
  {
    s.replies[s.tasks[t].call] == reply
  }

  /** A scan is delivered: discovery was on already, or BlueZ says it has started. */
  predicate Delivers(s: State, a: Step)
    requires Enabled(s, a)
  {
    (a.ReadForScan? && a.on) || (a.StartReplied? && Answers(s, a.t, Done))
  }

  /** A StartDiscovery goes out: nothing is running, it turned out to be off, or the wedge was
      cleared. */
  predicate Starts(s: State, a: Step)
    requires Enabled(s, a)
  {
    (a.Lock? && s.tasks[a.t].WantScan? && !s.running) || (a.ReadForScan? && !a.on) || a.ClearReplied? || a.ClearTimedOut?
  }

  /** A StopDiscovery goes out: the last scan is gone, or a first start found BlueZ wedged. */
  predicate Stops(s: State, a: Step)
    requires Enabled(s, a)
  {
    (a.Lock? && s.tasks[a.t].WantStop? && s.guards == {} && s.running)
    || (a.StartReplied? && Answers(s, a.t, InProgress) && !s.tasks[a.t].retried)
  }

  /** Nothing is left to stop: a start was refused for good, a stop succeeded, or the adapter was
      read off after a failed one. */
  predicate Settles(s: State, a: Step)
    requires Enabled(s, a)
  {
    || (a.StartReplied? && (Answers(s, a.t, Refused) || Answers(s, a.t, StopFailed)))
    || (a.StopReplied? && Answers(s, a.t, Done))
    || (a.ReadForStop? && !a.on)
  }

  /** In every reachable state each step does exactly this: a scan counts when it is delivered and
      until its guard is dropped; at most one call goes out, and only for its reason, so scans that
      find discovery on share it; a start leaves a stop owed, and only what settles it drops that. */
  lemma ScansCallsAndDebtAreExact(steps: seq<Step>, a: Step)
    requires ValidRun(START, steps) && Enabled(After(START, steps), a)
    ensures var s := After(START, steps);
            var s' := Apply(s, a);
            && s'.guards == (if Delivers(s, a) then s.guards + {a.t} else if a.DropGuard? then s.guards - {a.g} else s.guards)
            && s'.nextCall == s.nextCall + (if Starts(s, a) || Stops(s, a) then 1 else 0)
            && (s.nextCall in s'.openStarts <==> Starts(s, a)) && (s.nextCall in s'.openStops <==> Stops(s, a))
            && (s'.running <==> if Starts(s, a) then true else s.running && !Settles(s, a))
  {
    hide ValidRun, After, Inv;
    Reachable(steps);
    StepIsExact(After(START, steps), a);
  }

  lemma StepIsExact(s: State, a: Step)
    requires Inv(s) && Enabled(s, a)
    ensures var s' := Apply(s, a);
            && s'.guards == (if Delivers(s, a) then s.guards + {a.t} else if a.DropGuard? then s.guards - {a.g} else s.guards)
            && s'.nextCall == s.nextCall + (if Starts(s, a) || Stops(s, a) then 1 else 0)
            && (s.nextCall in s'.openStarts <==> Starts(s, a)) && (s.nextCall in s'.openStops <==> Stops(s, a))
            && (s'.running <==> if Starts(s, a) then true else s.running && !Settles(s, a))
  {
    NextCallIsNew(s);
    hide CallsOk;
    if s.op.Some? {
      HolderRuns(s, s.op.value);
    }
  }

  lemma NextCallIsNew(s: State)
    requires Inv(s)
    ensures s.nextCall !in s.openStarts && s.nextCall !in s.openStops
  {}

  // ---- When a caller is done -----------------------------------------------------------------

  /** The step that ends the caller's wait. */
  predicate Ends(s: State, a: Step, t: Id)
    requires Enabled(s, a) && t in s.tasks
  {
    match a
    case Cancel(u) => u == t
    case Lock(u) => u == t && s.tasks[t].WantStop? && !(s.guards == {} && s.running)
    case ReadForScan(u, on) => u == t && on
    case StartReplied(u) => u == t && (!Answers(s, t, InProgress) || s.tasks[t].retried)
    case StartTimedOut(u) => u == t
    case StopReplied(u) => u == t && Answers(s, t, Done)
    case ReadForStop(u, _) => u == t
    case _ => false
  }

  /** In every state a caller is done exactly when it has its answer: a scan when it is delivered,
      refused, wedged for a second time or timed out, a stop when it succeeded, found nothing to do or
      has read the property after failing; or when it is cancelled. Until then it stays what it is,
      and what is requested is waited for. */
  lemma CallersAreDoneExactly(s: State, a: Step, t: Id)
    requires Inv(s) && Enabled(s, a)
    ensures t in s.tasks ==>
              var s' := Apply(s, a);
              && (t !in s'.tasks <==> Ends(s, a, t))
              && (t in s'.tasks ==> (OfScan(s'.tasks[t]) <==> OfScan(s.tasks[t])))
    ensures t !in s.tasks ==>
              var s' := Apply(s, a);
              && (t in s'.tasks && s'.tasks[t].WantScan? <==> a == RequestScan(t))
              && (t in s'.tasks ==> Queues(s'.tasks[t]))
  {
    hide CallsOk, PcOk;
  }

  // ---- A stop is owed ----------------------------------------------------------------------

  predicate WillStop(s: State, t: Id) {
    t in s.tasks && s.tasks[t].WantStop?
  }

  /** Dropping a guard starts a task that wants to stop if and only if it was the last one and
      discovery is marked as running. */
  lemma LastGuardOwesTheStop(s: State, g: Id, t: Id)
    requires Enabled(s, DropGuard(g, t))
    ensures WillStop(Apply(s, DropGuard(g, t)), t) <==> s.guards == {g} && s.running
  {
    assert s.guards - {g} == {} <==> s.guards == {g};
  }

  /** The task keeps wanting to until it is cancelled or gets the lock; and if no scan is live and
      discovery runs by then, BlueZ is asked to stop. */
  lemma {:induction false} OwedStopIsSent(s: State, steps: seq<Step>, t: Id)
    requires Inv(s) && ValidRun(s, steps) && WillStop(s, t) && Cancel(t) !in steps && Lock(t) !in steps
    ensures var s' := After(s, steps);
            && WillStop(s', t)
            && (Enabled(s', Lock(t)) && s'.guards == {} && s'.running ==> s'.nextCall in Apply(s', Lock(t)).openStops)
    decreases |steps|
  {
    hide Inv, Apply, Enabled;
    if steps == [] {
      if Enabled(s, Lock(t)) && s.guards == {} && s.running {
        LockStops(s, t);
      }
    } else {
      StillWillStop(s, steps[0], t);
      StepKeepsInv(s, steps[0]);
      assert steps == [steps[0]] + steps[1..];
      OwedStopIsSent(Apply(s, steps[0]), steps[1..], t);
    }
  }

  lemma LockStops(s: State, t: Id)
    requires WillStop(s, t) && Enabled(s, Lock(t)) && s.guards == {} && s.running
    ensures s.nextCall in Apply(s, Lock(t)).openStops
  {}

  lemma StillWillStop(s: State, a: Step, t: Id)
    requires Inv(s) && Enabled(s, a) && WillStop(s, t) && a != Cancel(t) && a != Lock(t)
    ensures WillStop(Apply(s, a), t)
  {
    hide CallsOk, PcOk;
    assert s.op != Some(t);
  }

  // ---- No live scan is stopped ----------------------------------------------------------------

  /** The lock holder is stopping discovery for want of scans. */
  predicate StopsForGood(pc: Pc) {
    pc.Stopping? || pc.StopRead?
  }

  predicate NoneLive(s: State) {
    StopsForGood(Holder(s)) ==> s.guards == {}
  }

  lemma StepKeepsNoneLive(s: State, a: Step)
    requires Inv(s) && Enabled(s, a) && NoneLive(s)
    ensures NoneLive(Apply(s, a))
  {
    hide CallsOk, PcOk;
  }

  lemma {:induction false} RunKeepsNoneLive(s: State, steps: seq<Step>)
    requires Inv(s) && NoneLive(s) && ValidRun(s, steps)
    ensures NoneLive(After(s, steps))
    decreases |steps|
  {
    hide Inv, NoneLive, Apply, Enabled;
    if steps != [] {
      StepKeepsInv(s, steps[0]);
      StepKeepsNoneLive(s, steps[0]);
      RunKeepsNoneLive(Apply(s, steps[0]), steps[1..]);
    }
  }

  /** In every run, from the moment BlueZ is asked to stop for want of scans until that caller is
      done, no scan is live: one that comes meanwhile waits for the lock and starts discovery afresh
      or finds it on. */
  lemma NoLiveScanIsStopped(steps: seq<Step>)
    requires ValidRun(START, steps)
    ensures var s := After(START, steps);
            s.op.Some? && s.op.value in s.tasks && StopsForGood(s.tasks[s.op.value]) ==> Live(s) == 0
  {
    hide ValidRun, After, Inv;
    StartInv();
    RunKeepsNoneLive(START, steps);
  }
}
