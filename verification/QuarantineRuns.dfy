/**
  What a run of `drivers/linux.rs` says about one dial: why its address is quarantined, what
  lifts the quarantine, and what makes and ends its `dialed` entry.
 */
module QuarantineRuns {
  import opened Basics
  import opened Quarantine

  // ---- Runs taken apart ----------------------------------------------------------------

  lemma {:induction false} RunSplits(s: State, a: seq<Step>, b: seq<Step>)
    requires ValidRun(s, a + b)
    ensures ValidRun(s, a) && ValidRun(After(s, a), b) && After(s, a + b) == After(After(s, a), b)
    decreases |a|
  {
    hide Apply, Enabled;
    if a == [] {
      assert a + b == b;
    } else {
      assert (a + b)[0] == a[0] && (a + b)[1..] == a[1..] + b;
      RunSplits(Apply(s, a[0]), a[1..], b);
    }
  }

  /** A run is its beginning and its last step. */
  lemma LastStep(s: State, steps: seq<Step>)
    requires ValidRun(s, steps) && steps != []
    ensures var (init, a) := (steps[..|steps| - 1], steps[|steps| - 1]);
            ValidRun(s, init) && Enabled(After(s, init), a) && After(s, steps) == Apply(After(s, init), a)
  {
    hide Apply, Enabled;
    var (init, a) := (steps[..|steps| - 1], steps[|steps| - 1]);
    assert steps == init + [a];
    RunSplits(s, init, [a]);
    assert ValidRun(Apply(After(s, init), a), [a][1..]);
  }

  lemma Reachable(steps: seq<Step>)
    requires ValidRun(START, steps)
    ensures Inv(After(START, steps))
  {
    hide Inv, ValidRun, After;
    StartInv();
    RunKeepsInv(START, steps);
  }

  // ---- What lifts a quarantine -----------------------------------------------------------

  /** Task `k` learns that nothing is left to disconnect: BlueZ says so, or has no such device. */
  predicate FindsClean(a: Step, k: Id) {
    a == Clean(k, Resolve(true)) || a == Clean(k, StartDisconnect(false))
  }

  predicate OfTask(a: Step, k: Id) {
    a.Clean? && a.id == k
  }

  /** After `steps`, the task `k` cleans up after a dial of `p`. */
  ghost predicate CleansAfter(steps: seq<Step>, k: Id, p: Addr) {
    ValidRun(START, steps) && k in After(START, steps).cleanups && After(START, steps).cleanups[k].peer == p
  }

  /** The last thing task `k`, of address `p`, did in the run is to find it clean, at step `i`. */
  ghost predicate LastFoundClean(run: seq<Step>, k: Id, p: Addr, i: nat) {
    && i < |run| && FindsClean(run[i], k) && CleansAfter(run[..i], k, p)
    && forall m | i < m < |run| :: !OfTask(run[m], k)
  }

  lemma EndsOnlyClean(s: State, a: Step, k: Id)
    requires Inv(s) && Enabled(s, a) && k in Apply(s, a).cleanups && Apply(s, a).cleanups[k].pc.Ended?
    ensures k in s.cleanups && s.cleanups[k].peer == Apply(s, a).cleanups[k].peer
    ensures FindsClean(a, k) || (!OfTask(a, k) && s.cleanups[k] == Apply(s, a).cleanups[k])
  {
    hide ApplyDial, ApplyClean, OneOwner, OneClaim, PermitsAdd, LockOk, ConnectOk, Owns;
    if a.Clean? {
      OneTaskMoves(s, a.id, a.k, k);
    } else if a.Dial? {
      DialTouchesOwn(s, a.id, a.c);
    }
  }

  lemma OneTaskMoves(s: State, id: Id, c: CleanupStep, k: Id)
    requires Inv(s) && id in s.cleanups && MayClean(s, id, c)
    requires k in ApplyClean(s, id, c).cleanups
    ensures k in s.cleanups && s.cleanups[k].peer == ApplyClean(s, id, c).cleanups[k].peer
    ensures k != id ==> s.cleanups[k] == ApplyClean(s, id, c).cleanups[k]
    ensures k == id && ApplyClean(s, id, c).cleanups[k].pc.Ended? ==> FindsClean(Clean(id, c), k)
  {
    hide OneOwner, OneClaim, PermitsAdd, LockOk, ConnectOk, Owns;
    assert CleanupOk(s, id);
  }

  lemma {:induction false} EndedWasFoundClean(run: seq<Step>, k: Id) returns (i: nat)
    requires ValidRun(START, run) && k in After(START, run).cleanups && After(START, run).cleanups[k].pc.Ended?
    ensures LastFoundClean(run, k, After(START, run).cleanups[k].peer, i)
    decreases |run|
  {
    hide ValidRun, Inv, Apply, Enabled, After;
    var p := After(START, run).cleanups[k].peer;
    assert run != [] by {
      StartIsEmpty(run);
    }
    LastStep(START, run);
    var init := run[..|run| - 1];
    Reachable(init);
    EndsOnlyClean(After(START, init), run[|run| - 1], k);
    if FindsClean(run[|run| - 1], k) {
      i := |run| - 1;
    } else {
      i := EndedWasFoundClean(init, k);
      assert init[..i] == run[..i];
      assert forall m | i < m < |init| :: run[m] == init[m];
    }
  }

  lemma StartIsEmpty(run: seq<Step>)
    requires ValidRun(START, run)
    ensures run == [] ==> After(START, run) == START
  {}

  lemma OnlyLiftFrees(s: State, a: Step, p: Addr)
    requires Inv(s) && Enabled(s, a) && p in s.pendingCleanup && p !in Apply(s, a).pendingCleanup
    ensures a == Clean(a.id, LiftQuarantine) && a.id in s.cleanups && s.cleanups[a.id] == Cleanup(p, Ended)
  {
    hide Inv, ApplyDial, MayDial;
    if a.Dial? {
      DialsQuarantineMore(s, a.id, a.c);
    }
  }

  lemma DialsQuarantineMore(s: State, i: Id, c: ConnectStep)
    requires i in s.connects && MayDial(s, i, c)
    ensures s.pendingCleanup <= ApplyDial(s, i, c).pendingCleanup
  {}

  lemma {:induction false} SomeStepFrees(s: State, steps: seq<Step>, p: Addr) returns (j: nat)
    requires Inv(s) && ValidRun(s, steps) && p in s.pendingCleanup && p !in After(s, steps).pendingCleanup
    ensures j < |steps| && ValidRun(s, steps[..j]) && Enabled(After(s, steps[..j]), steps[j])
    ensures p in After(s, steps[..j]).pendingCleanup && p !in Apply(After(s, steps[..j]), steps[j]).pendingCleanup
    decreases |steps|
  {
    hide Inv, Apply, Enabled;
    LastStep(s, steps);
    var init := steps[..|steps| - 1];
    if p in After(s, init).pendingCleanup {
      j := |init|;
    } else {
      j := SomeStepFrees(s, init, p);
      assert init[..j] == steps[..j];
    }
  }

  /** An address leaves the quarantine only when a cleanup task of its own lifts it, and the last
      thing that task did before was to find the address clean: BlueZ reported a Disconnect done
      or needless, or no longer knows the device. Unless that had happened before the stretch
      began, it happens in it. */
  lemma LiftedOnlyWhenClean(before: seq<Step>, during: seq<Step>, p: Addr)
    requires ValidRun(START, before + during) && ValidRun(START, before)
    requires p in After(START, before).pendingCleanup && p !in After(START, before + during).pendingCleanup
    ensures exists k: nat, i: nat, j: nat ::
              && j < |during| && during[j] == Clean(k, LiftQuarantine)
              && LastFoundClean(before + during[..j], k, p, i)
              && (i < |before| ==> k in After(START, before).cleanups && After(START, before).cleanups[k] == Cleanup(p, Ended))
  {
    hide ValidRun, Inv, Apply, Enabled, After;
    RunSplits(START, before, during);
    Reachable(before);
    var j := SomeStepFrees(After(START, before), during, p);
    var run := before + during[..j];
    assert before + during == run + during[j..];
    RunSplits(START, run, during[j..]);
    RunSplits(START, before, during[..j]);
    Reachable(run);
    OnlyLiftFrees(After(START, run), during[j], p);
    var k := during[j].id;
    var i := EndedWasFoundClean(run, k);
    if i < |before| {
      StaysEnded(before, during[..j], k, p, i);
    }
  }

  lemma {:induction false} StaysEnded(before: seq<Step>, rest: seq<Step>, k: Id, p: Addr, i: nat)
    requires ValidRun(START, before + rest) && ValidRun(START, before) && i < |before|
    requires k in After(START, before + rest).cleanups && After(START, before + rest).cleanups[k] == Cleanup(p, Ended)
    requires forall m | i < m < |before + rest| :: !OfTask((before + rest)[m], k)
    ensures k in After(START, before).cleanups && After(START, before).cleanups[k] == Cleanup(p, Ended)
    decreases |rest|
  {
    hide ValidRun, Inv, Apply, Enabled, After;
    if rest == [] {
      assert before + rest == before;
    } else {
      var run := before + rest;
      LastStep(START, run);
      var init := rest[..|rest| - 1];
      assert run[..|run| - 1] == before + init;
      Reachable(before + init);
      var a := run[|run| - 1];
      assert !OfTask(a, k);
      EndsOnlyClean(After(START, before + init), a, k);
      assert FindsClean(a, k) ==> OfTask(a, k);
      forall m | i < m < |before + init|
        ensures !OfTask((before + init)[m], k)
      {
        assert (before + init)[m] == run[m];
      }
      StaysEnded(before, init, k, p, i);
    }
  }

  /** In every reachable state, a cleanup attempt that fails leaves the address quarantined and the
      task about to start another, which it can as soon as the lock is free. */
  lemma FailedAttemptIsRetried(run: seq<Step>, k: Id)
    requires ValidRun(START, run) && Enabled(After(START, run), Clean(k, Resolve(false)))
    ensures var s := Apply(After(START, run), Clean(k, Resolve(false)));
            var p := s.cleanups[k].peer;
            && p in s.pendingCleanup
            && (p !in s.locks ==> ValidRun(s, [Clean(k, LockForCleanup), Clean(k, CheckDialed), Clean(k, StartDisconnect(true))]))
  {
    hide ValidRun, After, Inv;
    Reachable(run);
    var s0 := After(START, run);
    StepKeepsInv(s0, Clean(k, Resolve(false)));
    var s := Apply(s0, Clean(k, Resolve(false)));
    PendingWhileCleaning(s, k);
    if s.cleanups[k].peer !in s.locks {
      AttemptStarts(s, k);
    }
  }

  lemma PendingWhileCleaning(s: State, k: Id)
    requires Inv(s) && k in s.cleanups && !s.cleanups[k].pc.Drained?
    ensures s.cleanups[k].peer in s.pendingCleanup && s.cleanups[k].peer !in s.dialed
  {
    assert CleanupOk(s, k);
  }

  lemma AttemptStarts(s: State, k: Id)
    requires k in s.cleanups && s.cleanups[k].pc.WantLock? && s.cleanups[k].peer !in s.locks && s.cleanups[k].peer !in s.dialed
    ensures ValidRun(s, [Clean(k, LockForCleanup), Clean(k, CheckDialed), Clean(k, StartDisconnect(true))])
  {
    var (a, b, c) := (Clean(k, LockForCleanup), Clean(k, CheckDialed), Clean(k, StartDisconnect(true)));
    var s1 := Apply(s, a);
    var s2 := Apply(s1, b);
    assert Enabled(s2, c);
    assert [a, b, c][1..] == [b, c] && [b, c][1..] == [c] && [c][1..] == [];
    assert ValidRun(Apply(s2, c), []);
    assert ValidRun(s2, [c]);
    assert ValidRun(s1, [b, c]);
  }

  ghost predicate Over(s: State, k: Id) {
    k in s.cleanups ==> s.cleanups[k].pc.Ended? || s.cleanups[k].pc.Drained?
  }

  predicate Spawns(a: Step, k: Id) {
    a.Dial? && a.c == SpawnCleanup(k)
  }

  lemma {:induction false} OverStartsNothing(s: State, after: seq<Step>, k: Id)
    requires ValidRun(s, after) && Over(s, k) && forall a <- after :: !Spawns(a, k)
    ensures forall a <- after :: OfTask(a, k) ==> a.k.LiftQuarantine? || a.k.EndCleanup?
    decreases |after|
  {
    hide Apply;
    if after != [] {
      OverStays(s, after[0], k);
      OverStartsNothing(Apply(s, after[0]), after[1..], k);
      assert after == [after[0]] + after[1..];
    }
  }

  lemma OverStays(s: State, a: Step, k: Id)
    requires Enabled(s, a) && Over(s, k) && !Spawns(a, k)
    ensures Over(Apply(s, a), k) && (OfTask(a, k) ==> a.k.LiftQuarantine? || a.k.EndCleanup?)
  {
    hide ApplyDial;
    if a.Dial? {
      DialTouchesOwn(s, a.id, a.c);
    }
  }

  /** A task whose attempt came back clean starts no other: until its id is given to another task,
      it only lifts the quarantine and ends. */
  lemma NoAttemptAfterACleanOne(before: seq<Step>, k: Id, after: seq<Step>)
    requires ValidRun(START, before) && Enabled(After(START, before), Clean(k, Resolve(true)))
    requires ValidRun(Apply(After(START, before), Clean(k, Resolve(true))), after) && forall a <- after :: !Spawns(a, k)
    ensures forall a <- after :: OfTask(a, k) ==> a.k.LiftQuarantine? || a.k.EndCleanup?
  {
    OverStartsNothing(Apply(After(START, before), Clean(k, Resolve(true))), after, k);
  }

  // ---- What makes a quarantine -----------------------------------------------------------

  /** The call was given up while BlueZ's Connect was running, and has not yet handed over. */
  predicate Handing(pc: ConnectPc) {
    pc.Connecting? || pc.Abandoning? || pc.Undialed? || pc.Quarantining?
  }

  predicate HandsOver(s: State, i: Id, p: Addr) {
    i in s.connects && s.connects[i].peer == p && Handing(s.connects[i].pc)
  }

  predicate Answers(a: Step, i: Id) {
    a.Dial? && a.id == i && a.c.Reply?
  }

  lemma HandsOverStays(s: State, a: Step, i: Id, p: Addr)
    requires Enabled(s, a) && HandsOver(s, i, p) && !Answers(a, i)
    ensures HandsOver(Apply(s, a), i, p) || (a.Dial? && a.id == i && a.c.SpawnCleanup?)
  {
    hide ApplyClean, ApplyDial, Handing, MayDial, MayClean;
    if a.Clean? {
      CleanLeavesConnects(s, a.id, a.k);
    } else if a.Dial? && a.id == i {
      if !a.c.SpawnCleanup? {
        HandingMoves(s, i, a.c);
      }
    } else if a.Dial? {
      DialTouchesOwn(s, a.id, a.c);
    }
  }

  lemma HandingMoves(s: State, i: Id, c: ConnectStep)
    requires i in s.connects && MayDial(s, i, c) && Handing(s.connects[i].pc) && !c.Reply? && !c.SpawnCleanup?
    ensures var s' := ApplyDial(s, i, c); i in s'.connects && s'.connects[i].peer == s.connects[i].peer && Handing(s'.connects[i].pc)
  {}

  /** A dial whose Connect was running when its caller gave up, by timeout or by dropping it, hands
      its address to a cleanup task, with the quarantine published, unless it is still about to;
      BlueZ's own answer is the only other way out. */
  lemma {:induction false} AbandonedIsCleanedUp(s: State, during: seq<Step>, i: Id, p: Addr) returns (j: nat)
    requires Inv(s) && ValidRun(s, during) && HandsOver(s, i, p)
    requires forall a <- during :: !Answers(a, i)
    ensures HandsOver(After(s, during), i, p)
            || (j < |during| && during[j].Dial? && during[j].id == i && during[j].c.SpawnCleanup?
                && ValidRun(s, during[..j + 1])
                && var s' := After(s, during[..j + 1]);
                   && p in s'.pendingCleanup
                   && during[j].c.cleanup in s'.cleanups && s'.cleanups[during[j].c.cleanup] == Cleanup(p, WantLock))
    decreases |during|
  {
    hide Inv, Apply, Enabled;
    j := 0;
    if during != [] {
      var a := during[0];
      var s' := Apply(s, a);
      assert during == [a] + during[1..];
      HandsOverStays(s, a, i, p);
      StepKeepsInv(s, a);
      if HandsOver(s', i, p) {
        j := AbandonedIsCleanedUp(s', during[1..], i, p);
        if !HandsOver(After(s, during), i, p) {
          assert during[..j + 2][1..] == during[1..][..j + 1];
          j := j + 1;
        }
      } else {
        SpawnQuarantines(s, a, i, p);
        RunSplits(s, [a], during[1..]);
        assert [a][1..] == [] && ValidRun(s', []) && After(s, [a]) == After(s', []) == s';
        assert during[..j + 1] == [a];
      }
    }
  }

  lemma SpawnQuarantines(s: State, a: Step, i: Id, p: Addr)
    requires Inv(s) && Enabled(s, a) && HandsOver(s, i, p) && a.Dial? && a.id == i && a.c.SpawnCleanup?
    ensures var s' := Apply(s, a);
            p in s'.pendingCleanup && a.c.cleanup in s'.cleanups && s'.cleanups[a.c.cleanup] == Cleanup(p, WantLock)
  {
    hide OneOwner, OneClaim, PermitsAdd, LockOk, CleanupOk, Owns;
    assert ConnectOk(s, i);
  }

  predicate Answered(s: State, i: Id) {
    i in s.connects ==> var pc := s.connects[i].pc; pc.Settled? || pc.Failed? || pc.Unlocking? || pc.Releasing?
  }

  predicate Reuses(a: Step, i: Id) {
    a.Begin? && a.id == i
  }

  lemma AnsweredStays(s: State, a: Step, i: Id)
    requires Enabled(s, a) && Answered(s, i) && !Reuses(a, i)
    ensures Answered(Apply(s, a), i)
    ensures a.Dial? && a.id == i ==> !a.c.Publish? && !a.c.SpawnCleanup?
  {
    hide ApplyClean, ApplyDial, MayDial, MayClean;
    if a.Clean? {
      CleanLeavesConnects(s, a.id, a.k);
    } else if a.Dial? && a.id == i {
      AnsweredMoves(s, i, a.c);
    } else if a.Dial? {
      DialTouchesOwn(s, a.id, a.c);
      assert i in Apply(s, a).connects ==> i in s.connects.Keys - {a.id};
    }
  }

  lemma AnsweredMoves(s: State, i: Id, c: ConnectStep)
    requires i in s.connects && MayDial(s, i, c) && Answered(s, i)
    ensures Answered(ApplyDial(s, i, c), i) && !c.Publish? && !c.SpawnCleanup?
  {}

  /** A dial that BlueZ answered, either way, is never quarantined nor cleaned up: its permit goes
      back to the pool. */
  lemma {:induction false} AnsweredIsNotCleanedUp(s: State, after: seq<Step>, i: Id)
    requires ValidRun(s, after) && Answered(s, i) && forall a <- after :: !Reuses(a, i)
    ensures forall a <- after :: a.Dial? && a.id == i ==> !a.c.Publish? && !a.c.SpawnCleanup?
    decreases |after|
  {
    hide Apply, Enabled, Answered;
    if after != [] {
      AnsweredStays(s, after[0], i);
      AnsweredIsNotCleanedUp(Apply(s, after[0]), after[1..], i);
      assert after == [after[0]] + after[1..];
    }
  }

  // ---- What is refused -------------------------------------------------------------------

  /** In every reachable state, a dial is refused exactly when it must be: at its start and under
      its lock if and only if a task answers for a quarantine of its address; at its claim if and
      only if another call has claimed the address; for want of a permit if and only if four dials
      and cleanups hold them all. */
  lemma DialsAreRefusedExactly(run: seq<Step>, i: Id, p: Addr)
    requires ValidRun(START, run)
    ensures var s := After(START, run);
            && (i !in s.connects ==> (i !in Apply(s, Begin(i, p)).connects <==> exists o :: Owns(s, o, p)))
            && (Enabled(s, Dial(i, Recheck)) ==>
                  (Apply(s, Dial(i, Recheck)).connects[i].pc != Rechecked <==> exists o :: Owns(s, o, s.connects[i].peer)))
            && (Enabled(s, Dial(i, Claim)) ==>
                  (i !in Apply(s, Dial(i, Claim)).connects <==> exists j :: Claimer(s, j, s.connects[i].peer)))
            && (Enabled(s, Dial(i, Reserve)) ==>
                  (!Live(Apply(s, Dial(i, Reserve)), i) <==> |Holders(s)| + |s.cleanups| == MAX_CONCURRENT_CLEANUP_DISCONNECTS))
  {
    hide ValidRun, After, Inv, Owns, Holders;
    Reachable(run);
    var s := After(START, run);
    SafetyFacts(s);
    ClaimFacts(s);
  }

  lemma ClaimFacts(s: State)
    requires Inv(s)
    ensures forall p :: p in s.inFlight <==> exists j :: Claimer(s, j, p)
  {
    hide OneOwner, OneClaim, PermitsAdd, LockOk, CleanupOk, Owns;
    forall j, p | Claimer(s, j, p)
      ensures p in s.inFlight
    {
      assert ConnectOk(s, j);
    }
  }

  // ---- What makes and ends a `dialed` entry -------------------------------------------------

  /** The entry is of a dial whose outcome is open. */
  ghost predicate Open(s: State, p: Addr, gen: nat) {
    exists i :: i in s.connects && s.connects[i].peer == p && HasGen(s.connects[i].pc) && s.connects[i].pc.gen == gen
  }

  predicate Establishes(s: State, a: Step, p: Addr, gen: nat) {
    a.Dial? && a.id in s.connects && s.connects[a.id] == Connect(p, Connecting(gen)) && a.c == Reply(true)
  }

  lemma EntryComesFrom(s: State, a: Step, p: Addr, gen: nat)
    requires Inv(s) && Enabled(s, a) && p in Apply(s, a).dialed && Apply(s, a).dialed[p] == gen
    ensures Open(Apply(s, a), p, gen) || Establishes(s, a, p, gen)
            || (p in s.dialed && s.dialed[p] == gen && !Open(s, p, gen))
  {
    hide OneOwner, PermitsAdd, LockOk, CleanupOk, Owns, Inv;
    var s' := Apply(s, a);
    if a.Dial? {
      DialTouchesOwn(s, a.id, a.c);
      if a.c.Record? {
        if p == s.connects[a.id].peer {
          assert s'.connects[a.id].pc == Recorded(gen);
        } else {
          OpenMoves(s, a.id, a.c, p, gen);
        }
      } else {
        OpenMoves(s, a.id, a.c, p, gen);
      }
    } else if Open(s, p, gen) {
      var j :| j in s.connects && s.connects[j].peer == p && HasGen(s.connects[j].pc) && s.connects[j].pc.gen == gen;
      OthersLeave(s, a, j);
    }
  }

  lemma OthersLeave(s: State, a: Step, j: Id)
    requires Enabled(s, a) && !a.Dial? && j in s.connects
    ensures j in Apply(s, a).connects && Apply(s, a).connects[j] == s.connects[j]
  {}

  lemma OpenMoves(s: State, i: Id, c: ConnectStep, p: Addr, gen: nat)
    requires i in s.connects && MayDial(s, i, c) && (c.Record? ==> p != s.connects[i].peer)
    requires p in ApplyDial(s, i, c).dialed && ApplyDial(s, i, c).dialed[p] == gen
    ensures p in s.dialed && s.dialed[p] == gen
    ensures Open(s, p, gen) ==> Open(ApplyDial(s, i, c), p, gen) || Establishes(s, Dial(i, c), p, gen)
  {
    hide ApplyDial, MayDial;
    EntryStays(s, i, c, p, gen);
    if Open(s, p, gen) {
      var j :| j in s.connects && s.connects[j].peer == p && HasGen(s.connects[j].pc) && s.connects[j].pc.gen == gen;
      DialTouchesOwn(s, i, c);
      assert j != i ==> ApplyDial(s, i, c).connects[j] == s.connects[j];
    }
  }

  lemma EntryStays(s: State, i: Id, c: ConnectStep, p: Addr, gen: nat)
    requires i in s.connects && MayDial(s, i, c) && (c.Record? ==> p != s.connects[i].peer)
    requires var s' := ApplyDial(s, i, c); p in s'.dialed && s'.dialed[p] == gen
    ensures p in s.dialed && s.dialed[p] == gen
    ensures var (before, s') := (s.connects[i], ApplyDial(s, i, c));
            before.peer == p && HasGen(before.pc) && before.pc.gen == gen ==>
              Establishes(s, Dial(i, c), p, gen)
              || (i in s'.connects && s'.connects[i].peer == p && HasGen(s'.connects[i].pc) && s'.connects[i].pc.gen == gen)
  {}

  /** Every `dialed` entry is that of a dial still open or of one that BlueZ reported connected:
      a failed, refused or abandoned dial leaves none behind. */
  lemma {:induction false} DialedIsEarned(run: seq<Step>, p: Addr) returns (j: nat)
    requires ValidRun(START, run) && p in After(START, run).dialed
    requires !Open(After(START, run), p, After(START, run).dialed[p])
    ensures j < |run| && ValidRun(START, run[..j])
    ensures Establishes(After(START, run[..j]), run[j], p, After(START, run).dialed[p])
    decreases |run|
  {
    hide ValidRun, Inv, Apply, Enabled, After, Open, Establishes;
    assert run != [] by {
      StartIsEmpty(run);
    }
    LastStep(START, run);
    var init := run[..|run| - 1];
    Reachable(init);
    var gen := After(START, run).dialed[p];
    EntryComesFrom(After(START, init), run[|run| - 1], p, gen);
    if Establishes(After(START, init), run[|run| - 1], p, gen) {
      j := |init|;
    } else {
      j := DialedIsEarned(init, p);
      assert init[..j] == run[..j];
    }
  }

  ghost predicate Established(s: State, p: Addr, gen: nat) {
    p in s.dialed && s.dialed[p] == gen && forall i | Claimer(s, i, p) :: !HasGen(s.connects[i].pc)
  }

  predicate Redials(s: State, a: Step, p: Addr) {
    a.Dial? && a.id in s.connects && s.connects[a.id].peer == p && a.c.Record?
  }

  ghost predicate Redialed(s: State, steps: seq<Step>, p: Addr)
    requires ValidRun(s, steps)
    decreases |steps|
  {
    steps != [] && (Redials(s, steps[0], p) || Redialed(Apply(s, steps[0]), steps[1..], p))
  }

  lemma EstablishedStays(s: State, a: Step, p: Addr, gen: nat)
    requires Enabled(s, a) && Established(s, p, gen) && a != LossReported(p, gen) && !Redials(s, a, p)
    ensures Established(Apply(s, a), p, gen)
  {
    hide ApplyClean, ApplyDial, HasGen;
    if a.Clean? {
      CleanLeavesDialed(s, a.id, a.k);
    } else if a.Dial? {
      EstablishedOutlivesDial(s, a.id, a.c, p, gen);
    }
  }

  lemma CleanLeavesDialed(s: State, k: Id, c: CleanupStep)
    requires k in s.cleanups && MayClean(s, k, c)
    ensures ApplyClean(s, k, c).dialed == s.dialed && ApplyClean(s, k, c).connects == s.connects
  {}

  lemma EstablishedOutlivesDial(s: State, i: Id, c: ConnectStep, p: Addr, gen: nat)
    requires i in s.connects && MayDial(s, i, c) && Established(s, p, gen) && !Redials(s, Dial(i, c), p)
    ensures Established(ApplyDial(s, i, c), p, gen)
  {
    var s' := ApplyDial(s, i, c);
    if s.connects[i].peer == p {
      assert Claims(s.connects[i].pc) ==> Claimer(s, i, p);
      assert i in s'.connects ==> !HasGen(s'.connects[i].pc);
    }
    forall j | Claimer(s', j, p) && j != i
      ensures !HasGen(s'.connects[j].pc)
    {
      assert Claimer(s, j, p);
    }
  }

  /** The entry of an established link outlives everything but the report of its own loss and a
      new dial of its address, which takes it over. */
  lemma {:induction false} EstablishedStaysDialed(s: State, after: seq<Step>, p: Addr, gen: nat)
    requires ValidRun(s, after) && Established(s, p, gen)
    requires LossReported(p, gen) !in after && !Redialed(s, after, p)
    ensures p in After(s, after).dialed && After(s, after).dialed[p] == gen
    decreases |after|
  {
    hide Apply, Enabled, Established;
    if after == [] {
      EstablishedIsDialed(s, p, gen);
    } else {
      EstablishedStays(s, after[0], p, gen);
      assert after == [after[0]] + after[1..];
      EstablishedStaysDialed(Apply(s, after[0]), after[1..], p, gen);
    }
  }

  lemma EstablishedIsDialed(s: State, p: Addr, gen: nat)
    requires Established(s, p, gen)
    ensures p in s.dialed && s.dialed[p] == gen
  {}

  /** BlueZ's success establishes the link, unless its loss was reported first. */
  lemma SuccessEstablishes(run: seq<Step>, i: Id)
    requires ValidRun(START, run) && Enabled(After(START, run), Dial(i, Reply(true)))
    ensures var s := After(START, run);
            var (p, gen) := (s.connects[i].peer, s.connects[i].pc.gen);
            p in s.dialed ==> Established(Apply(s, Dial(i, Reply(true))), p, gen)
  {
    hide ValidRun, After;
    Reachable(run);
    var s := After(START, run);
    hide OneOwner, PermitsAdd, LockOk, CleanupOk, Owns;
    assert ConnectOk(s, i);
    var s' := Apply(s, Dial(i, Reply(true)));
    forall j | Claimer(s', j, s.connects[i].peer)
      ensures !HasGen(s'.connects[j].pc)
    {
      assert Claimer(s, j, s.connects[i].peer) && Claimer(s, i, s.connects[i].peer);
    }
  }
}
