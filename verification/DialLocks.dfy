/**
  One lock per peer address, in a map that drops entries nobody refers to (`DialLocks` in
  `drivers/linux.rs`). Locks are shared by reference count, as `Arc` counts them.
 */
module DialLocks {
  import opened Basics

  type Addr = nat
  type TaskId = nat
  type LockId = nat

  /** A task refers to its lock from the moment it asks until its guard is gone. */
  datatype Pc = Waiting | Holding | Leaving

  datatype Task = Task(addr: Addr, lock: LockId, pc: Pc)

  /** `strong` counts the references to each lock ever made: the map's own and the tasks'. */
  datatype State = State(locks: map<Addr, LockId>, strong: map<LockId, nat>, tasks: map<TaskId, Task>, nextLock: LockId)

  const START := State(map[], map[], map[], 0)

  datatype Step =
    | Ask(t: TaskId, a: Addr)
    | Grant(t: TaskId)
    | Cancel(t: TaskId)
    | Unlock(t: TaskId)
    | Forget(t: TaskId)

  predicate At(s: State, t: TaskId, pc: Pc) {
    t in s.tasks && s.tasks[t].pc == pc
  }

  /** The mutex itself: granted only while nobody holds it. */
  ghost predicate Free(s: State, l: LockId) {
    forall t <- s.tasks :: s.tasks[t].lock == l ==> s.tasks[t].pc != Holding
  }

  ghost predicate Enabled(s: State, a: Step) {
    match a
    case Ask(t, _) => t !in s.tasks
    case Grant(t) => At(s, t, Waiting) && Free(s, s.tasks[t].lock)
    case Cancel(t) => At(s, t, Waiting)
    case Unlock(t) => At(s, t, Holding)
    case Forget(t) => At(s, t, Leaving)
  }

  function Count(s: State, l: LockId): nat {
    if l in s.strong then s.strong[l] else 0
  }

  /** `retain`: entries that only the map refers to are dropped. */
  function Retained(s: State): State {
    s.(locks := map b | b in s.locks && Count(s, s.locks[b]) > 1 :: s.locks[b],
       strong := map l | l in s.strong :: if l in s.locks.Values && s.strong[l] == 1 then 0 else s.strong[l])
  }

  /** `entry(..).or_default()`. */
  function Entered(s: State, a: Addr): State {
    if a in s.locks then s
    else s.(locks := s.locks[a := s.nextLock], strong := s.strong[s.nextLock := 1], nextLock := s.nextLock + 1)
  }

  function Cloned(s: State, t: TaskId, a: Addr): State
    requires a in s.locks
  {
    var l := s.locks[a];
    s.(strong := s.strong[l := Count(s, l) + 1], tasks := s.tasks[t := Task(a, l, Waiting)])
  }

  function Asked(s: State, t: TaskId, a: Addr): State {
    Cloned(Entered(Retained(s), a), t, a)
  }

  /** The task's reference is dropped. */
  function Gone(s: State, t: TaskId): State
    requires t in s.tasks
  {
    var l := s.tasks[t].lock;
    s.(tasks := s.tasks - {t}, strong := s.strong[l := Max(Count(s, l) - 1, 0)])
  }

  ghost function Apply(s: State, a: Step): State
    requires Enabled(s, a)
  {
    match a
    case Ask(t, addr) => Asked(s, t, addr)
    case Grant(t) => s.(tasks := s.tasks[t := s.tasks[t].(pc := Holding)])
    case Cancel(t) => Gone(s, t)
    case Unlock(t) => s.(tasks := s.tasks[t := s.tasks[t].(pc := Leaving)])
    case Forget(t) => Gone(s, t)
  }

  // ---- Invariant -----------------------------------------------------------------------

  function Refs(s: State, l: LockId): set<TaskId> {
    set t | t in s.tasks && s.tasks[t].lock == l
  }

  ghost predicate CountOk(s: State, l: LockId) {
    Count(s, l) == |Refs(s, l)| + if l in s.locks.Values then 1 else 0
  }

  ghost predicate AllCounted(s: State) {
    forall l :: CountOk(s, l)
  }

  /** Every lock a task refers to is the one in the map. */
  ghost predicate InMap(s: State) {
    forall t <- s.tasks :: s.tasks[t].addr in s.locks && s.locks[s.tasks[t].addr] == s.tasks[t].lock
  }

  ghost predicate Injective(s: State) {
    forall a, b | a in s.locks && b in s.locks && s.locks[a] == s.locks[b] :: a == b
  }

  ghost predicate Exclusive(s: State) {
    forall t, u | t in s.tasks && u in s.tasks && s.tasks[t].lock == s.tasks[u].lock && s.tasks[t].pc == s.tasks[u].pc == Holding :: t == u
  }

  ghost predicate Inv(s: State) {
    AllCounted(s) && InMap(s) && Injective(s) && Exclusive(s) && (forall l <- s.strong :: l < s.nextLock)
  }

  lemma Referred(s: State, t: TaskId)
    requires Inv(s) && t in s.tasks
    ensures Count(s, s.tasks[t].lock) > 1
  {
    assert CountOk(s, s.tasks[t].lock);
    assert t in Refs(s, s.tasks[t].lock);
    assert s.locks[s.tasks[t].addr] in s.locks.Values;
  }

  lemma RetainKeepsInv(s: State)
    requires Inv(s)
    ensures Inv(Retained(s))
    ensures forall a <- Retained(s).locks :: Refs(s, Retained(s).locks[a]) != {}
  {
    var s' := Retained(s);
    forall l
      ensures CountOk(s', l)
    {
      assert CountOk(s, l);
      assert Refs(s', l) == Refs(s, l);
      if l in s.locks.Values {
        var a :| a in s.locks && s.locks[a] == l;
        assert a in s'.locks <==> Count(s, l) > 1;
        assert a in s'.locks ==> s'.locks[a] in s'.locks.Values;
      }
    }
    forall t | t in s'.tasks
      ensures s'.tasks[t].addr in s'.locks
    {
      Referred(s, t);
    }
    forall a | a in s'.locks
      ensures Refs(s, s'.locks[a]) != {}
    {
      assert CountOk(s, s.locks[a]);
    }
  }

  lemma EnterKeepsInv(s: State, a: Addr)
    requires Inv(s)
    ensures Inv(Entered(s, a)) && Entered(s, a).tasks == s.tasks
    ensures Entered(s, a).locks.Keys == s.locks.Keys + {a}
  {
    if a !in s.locks {
      var s' := Entered(s, a);
      var fresh' := s.nextLock;
      assert CountOk(s, fresh');
      assert s'.locks[a] == fresh';
      forall l
        ensures CountOk(s', l)
      {
        assert CountOk(s, l);
        assert Refs(s', l) == Refs(s, l);
        ValuesAfter(s.locks, a, fresh', l);
      }
    }
  }

  lemma ValuesAfter(m: map<Addr, LockId>, a: Addr, v: LockId, l: LockId)
    requires a !in m
    ensures l in m[a := v].Values <==> l == v || l in m.Values
  {
    assert m[a := v][a] == v;
    if l in m.Values {
      var b :| b in m && m[b] == l;
      assert m[a := v][b] == l;
    }
  }

  lemma CloneKeepsInv(s: State, t: TaskId, a: Addr)
    requires Inv(s) && a in s.locks && t !in s.tasks
    ensures Inv(Cloned(s, t, a))
  {
    hide Refs;
    assert CountOk(s, s.locks[a]);
    assert s.locks[a] in s.locks.Values;
    CloneKeepsCounts(s, t, a);
  }

  lemma CloneKeepsCounts(s: State, t: TaskId, a: Addr)
    requires AllCounted(s) && a in s.locks && t !in s.tasks
    ensures AllCounted(Cloned(s, t, a))
  {
    var s' := Cloned(s, t, a);
    forall l
      ensures CountOk(s', l)
    {
      assert CountOk(s, l);
      assert Refs(s', l) == Refs(s, l) + if l == s.locks[a] then {t} else {};
    }
  }

  lemma GoneKeepsInv(s: State, t: TaskId)
    requires Inv(s) && t in s.tasks
    ensures Inv(Gone(s, t))
  {
    var s' := Gone(s, t);
    Referred(s, t);
    forall l
      ensures CountOk(s', l)
    {
      assert CountOk(s, l);
      assert Refs(s', l) == Refs(s, l) - if l == s.tasks[t].lock then {t} else {};
    }
  }

  lemma MoveKeepsInv(s: State, t: TaskId, pc: Pc)
    requires Inv(s) && t in s.tasks && (pc == Holding ==> Free(s, s.tasks[t].lock))
    ensures Inv(s.(tasks := s.tasks[t := s.tasks[t].(pc := pc)]))
  {
    var s' := s.(tasks := s.tasks[t := s.tasks[t].(pc := pc)]);
    forall l
      ensures CountOk(s', l)
    {
      assert CountOk(s, l);
      assert Refs(s', l) == Refs(s, l);
    }
  }

  lemma StepKeepsInv(s: State, a: Step)
    requires Inv(s) && Enabled(s, a)
    ensures Inv(Apply(s, a))
  {
    hide Inv, Retained, Entered, Cloned, Gone, Free;
    match a {
      case Ask(t, addr) =>
        RetainKeepsInv(s);
        EnterKeepsInv(Retained(s), addr);
        RetainKeepsTasks(s);
        CloneKeepsInv(Entered(Retained(s), addr), t, addr);
      case Grant(t) => MoveKeepsInv(s, t, Holding);
      case Cancel(t) => GoneKeepsInv(s, t);
      case Unlock(t) => MoveKeepsInv(s, t, Leaving);
      case Forget(t) => GoneKeepsInv(s, t);
    }
  }

  lemma RetainKeepsTasks(s: State)
    ensures Retained(s).tasks == s.tasks
  {}

  ghost predicate ValidRun(s: State, steps: seq<Step>)
    decreases |steps|
  {
    steps == [] || (Enabled(s, steps[0]) && ValidRun(Apply(s, steps[0]), steps[1..]))
  }

  ghost function After(s: State, steps: seq<Step>): State
    requires ValidRun(s, steps)
    decreases |steps|
  {
    if steps == [] then s else After(Apply(s, steps[0]), steps[1..])
  }

  lemma {:induction false} RunKeepsInv(s: State, steps: seq<Step>)
    requires Inv(s) && ValidRun(s, steps)
    ensures Inv(After(s, steps))
    decreases |steps|
  {
    hide Inv, Apply, Enabled;
    if steps != [] {
      StepKeepsInv(s, steps[0]);
      RunKeepsInv(Apply(s, steps[0]), steps[1..]);
    }
  }

  /** However entries are dropped and made anew: any lock held or awaited is the one in the map,
      and no two tasks ever hold a lock for the same address at once. Locks of different
      addresses are different, so no address waits for another. */
  lemma PruningLocksExclude(steps: seq<Step>)
    requires ValidRun(START, steps)
    ensures var s := After(START, steps);
            && (forall t <- s.tasks :: s.tasks[t].addr in s.locks && s.locks[s.tasks[t].addr] == s.tasks[t].lock)
            && (forall t, u | t in s.tasks && u in s.tasks && s.tasks[t].addr == s.tasks[u].addr
                              && s.tasks[t].pc == s.tasks[u].pc == Holding :: t == u)
            && (forall t, u | t in s.tasks && u in s.tasks && s.tasks[t].lock == s.tasks[u].lock ::
                  s.tasks[t].addr == s.tasks[u].addr)
  {
    assert forall l :: Refs(START, l) == {};
    RunKeepsInv(START, steps);
  }

  /** The map does not grow without bound: once a task has asked, the entries are exactly the
      addresses that some task refers to. */
  lemma EntriesAreReferred(s: State, t: TaskId, a: Addr)
    requires Inv(s) && Enabled(s, Ask(t, a))
    ensures var s' := Asked(s, t, a);
            s'.locks.Keys == set u | u in s'.tasks :: s'.tasks[u].addr
  {
    hide Retained, Entered, CountOk;
    var s1 := Retained(s);
    RetainKeepsInv(s);
    RetainKeepsTasks(s);
    EnterKeepsInv(s1, a);
    var s' := Asked(s, t, a);
    CloneKeepsInv(Entered(s1, a), t, a);
    forall b | b in s1.locks
      ensures exists u :: u in s'.tasks && s'.tasks[u].addr == b
    {
      var u :| u in Refs(s, s1.locks[b]);
      assert u in s1.tasks && s1.tasks[u].lock == s1.locks[b];
      assert u in s'.tasks && s'.tasks[u].addr == b;
    }
    assert s'.tasks[t].addr == a;
  }

  /** So after every run: the map holds exactly what is referred to as soon as a task asks. */
  lemma MapNeverOutgrowsItsTasks(steps: seq<Step>, t: TaskId, a: Addr)
    requires ValidRun(START, steps) && Enabled(After(START, steps), Ask(t, a))
    ensures var s' := Apply(After(START, steps), Ask(t, a));
            s'.locks.Keys == set u | u in s'.tasks :: s'.tasks[u].addr
  {
    hide ValidRun, After;
    assert forall l :: Refs(START, l) == {};
    RunKeepsInv(START, steps);
    EntriesAreReferred(After(START, steps), t, a);
  }

  // ---- The map, in place ------------------------------------------------------------------

  class LockMap {
    var locks: map<Addr, LockId>
    var strong: map<LockId, nat>
    var tasks: map<TaskId, Task>
    var nextLock: LockId

    ghost function View(): State
      reads this
    {
      State(locks, strong, tasks, nextLock)
    }

    constructor ()
      ensures View() == START
    {
      locks, strong, tasks, nextLock := map[], map[], map[], 0;
    }

    method Retain()
      requires Inv(View())
      modifies this`locks, this`strong
      ensures View() == Retained(old(View()))
    {
      hide Inv, PartRetained, Retained;
      ghost var was, done := View(), {};
      var rest := locks.Keys;
      NoneRetained(was);
      AllRetained(was);
      while rest != {}
        invariant done + rest == was.locks.Keys && done !! rest
        invariant View() == PartRetained(was, done)
        decreases |rest|
      {
        var a :| a in rest;
        PartRetainedStep(was, done, a);
        rest := rest - {a};
        done := done + {a};
        var l := locks[a];
        if l !in strong || strong[l] <= 1 {
          locks := locks - {a};
          strong := strong[l := 0];
        }
      }
      assert done == was.locks.Keys;
    }

    /** The synchronous part of `lock`, under the map's own mutex. */
    method Ask(t: TaskId, a: Addr) returns (l: LockId)
      requires Inv(View()) && Enabled(View(), Step.Ask(t, a))
      modifies this
      ensures Inv(View()) && View() == Apply(old(View()), Step.Ask(t, a))
      ensures l == tasks[t].lock == locks[a]
    {
      StepKeepsInv(View(), Step.Ask(t, a));
      hide Inv, Retained;
      RetainKeepsTasks(View());
      Retain();
      if a !in locks {
        locks := locks[a := nextLock];
        strong := strong[nextLock := 1];
        nextLock := nextLock + 1;
      }
      l := locks[a];
      strong := strong[l := (if l in strong then strong[l] else 0) + 1];
      tasks := tasks[t := Task(a, l, Waiting)];
    }

    method Drop(t: TaskId)
      requires t in tasks
      modifies this
      ensures View() == Gone(old(View()), t)
    {
      var l := tasks[t].lock;
      tasks := tasks - {t};
      strong := strong[l := if l in strong && strong[l] > 0 then strong[l] - 1 else 0];
    }
  }

  /** The entries in `done` have been visited. */
  ghost function PartRetained(s: State, done: set<Addr>): State {
    s.(locks := map b | b in s.locks && (b !in done || Count(s, s.locks[b]) > 1) :: s.locks[b],
       strong := map l | l in s.strong ::
                   if s.strong[l] == 1 && l in (set b | b in s.locks && b in done :: s.locks[b]) then 0 else s.strong[l])
  }

  lemma NoneRetained(s: State)
    ensures PartRetained(s, {}) == s
  {}

  lemma AllRetained(s: State)
    ensures PartRetained(s, s.locks.Keys) == Retained(s)
  {}

  lemma PartRetainedStep(s: State, done: set<Addr>, a: Addr)
    requires Inv(s) && a in s.locks && a !in done
    ensures var before := PartRetained(s, done);
            && a in before.locks && before.locks[a] == s.locks[a]
            && PartRetained(s, done + {a})
               == if Count(before, s.locks[a]) <= 1 then
                    before.(locks := before.locks - {a}, strong := before.strong[s.locks[a] := 0])
                  else before
  {
    var before, after, l := PartRetained(s, done), PartRetained(s, done + {a}), s.locks[a];
    assert CountOk(s, l) && l in s.locks.Values;
    assert forall b <- s.locks :: s.locks[b] == l ==> b == a;
    assert Count(before, l) == Count(s, l) >= 1;
    assert after.locks == if Count(s, l) <= 1 then before.locks - {a} else before.locks;
    assert after.strong == if Count(s, l) <= 1 then before.strong[l := 0] else before.strong;
  }
}
