/** Mutex safety over whole runs (src/sched/mutex.c): a primitive used through
  * the mutex functions only is a machine of three phases. */
module Mutexes {
  import opened Lists
  import opened Objects
  import opened Marking
  import opened Model
  import opened Invariant
  import opened Operations
  import opened Plans
  import opened Calls
  import opened Runs
  import opened Holding
  import opened Frames
  import opened Queueing

  datatype Phase = Free | Held(owner: Task) | Abandoned

  /** How the fields of the primitive, and the holdings, show the phase. */
  ghost predicate InPhase(s: State, h: Matrix, p: Prim, ph: Phase) {
    LivePrim(s, p) &&
    match ph
    case Free => Owners(s, p) == 0 && Overridden(s, p) == null
    case Held(o) => Owners(s, p) == 1 && Overridden(s, p) == o && Unit(p, o) in h
    case Abandoned => Owners(s, p) == 1 && Overridden(s, p) == null && Unit(p, null) in h
  }

  /** Calls that use `p` through the mutex functions only, and keep it registered. */
  ghost predicate MutexOnly(s: State, op: Op, p: Prim) {
    match op
    case UnregisterPrim(q) => q != p
    case UnregisterProcess(c) => p in s.reg.prims && s.reg.prims[p] != c
    case TakeOwnership(q, _) => q != p
    case ReleaseOwnership(q, _) => q != p
    case OverrideTask(q, _) => q != p
    case UnoverrideTask(q) => q != p
    case SemTake(q, _, _, _) => q != p
    case SemTakeNb(q, _, _) => q != p
    case SemRelease(q, _) => q != p
    case _ => true
  }

  /** A locking that takes the mutex; lock_nb then returns 1. */
  ghost predicate Locks(s: State, op: Op, p: Prim) {
    ((op.MutexLock? && op.p == p) || (op.MutexLockNb? && op.p == p)) && Owners(s, p) == 0
  }

  /** An unlocking that returns 0. */
  ghost predicate Unlocks(s: State, op: Op, p: Prim) {
    op.MutexUnlock? && op.p == p && UnlockCode(s, p, op.h) == 0
  }

  /** The owner unregisters. */
  ghost predicate Deserts(s: State, op: Op, ph: Phase) {
    op.UnregisterTask? && ph.Held? && Current(s, op.h) == ph.owner
  }

  /** The task that asks for the mutex. */
  ghost function Caller(s: State, op: Op): Task?
    requires op.MutexLock? || op.MutexLockNb?
  {
    Current(s, op.h)
  }

  ghost function NextPhase(s: State, op: Op, p: Prim, ph: Phase): Phase {
    if Locks(s, op, p) && Caller(s, op) != null then Held(Caller(s, op))
    else if Unlocks(s, op, p) then Free
    else if Deserts(s, op, ph) then Abandoned
    else ph
  }

  // ----------------------------------------------------------------- codes

  /** In each phase, who gets which code from an unlock: the owner 0, anybody
    * else 2, everybody 1 when nobody owns it; never 3. */
  lemma UnlockCodes(s: State, h: Matrix, p: Prim, ph: Phase, th: Thread)
    requires Matches(s, h) && InPhase(s, h, p, ph)
    ensures UnlockCode(s, p, th) == if !ph.Held? then 1 else if Current(s, th) == ph.owner then 0 else 2
    ensures Overridden(s, p) == (if ph.Held? then ph.owner else null)
    ensures Owners(s, p) == 0 <==> ph.Free?
  {
    hide LivePrims, LiveTasks, ReleaseCounters, Less;
    if ph.Held? {
      ReleaseMatches(LiveTasks(s.reg), LivePrims(s.reg), s.own, h, p, ph.owner);
    }
  }

  // ----------------------------------------------------------------- steps

  lemma LockTakes(w: World, s: State, h: Matrix, p: Prim, t: Task)
    requires Core(w, s) && Compatible(s, p, t) && InPhase(s, h, p, Free)
    ensures InPhase(ApplyAll(s, [Micro.Take(p, t), Micro.Unlink(p), Micro.Link(p, t)]),
                    HeldAll(s, h, [Micro.Take(p, t), Micro.Unlink(p), Micro.Link(p, t)]), p, Held(t))
  {
    hide Core, LiveTasks, LivePrims, ApplyAll, HeldAll, Apply;
    ApplyPair(s, Micro.Take(p, t), Micro.Unlink(p));
    HeldPair(s, h, Micro.Take(p, t), Micro.Unlink(p));
    assert [Micro.Take(p, t), Micro.Unlink(p), Micro.Link(p, t)] == [Micro.Take(p, t), Micro.Unlink(p)] + [Micro.Link(p, t)];
    LastStep(s, h, [Micro.Take(p, t), Micro.Unlink(p)], Micro.Link(p, t));
    LockableOfCore(w, s, p, t);
    TakeLink(s, p, t);
  }

  lemma TakeLink(s: State, p: Prim, t: Task)
    requires p in s.own.prims && t in s.own.tasks && p in s.over.prims && t in s.over.tasks && s.over.prims[p] == null
    ensures var s1 := Apply(s, Micro.Take(p, t));
            var s2 := Apply(s1, Micro.Unlink(p));
            var s' := Apply(s2, Micro.Link(p, t));
            s'.reg == s.reg && Overridden(s', p) == t && Owners(s', p) == Owners(s, p) + 1
  {
    hide Walk, EdgesOf;
  }

  lemma LockableOfCore(w: World, s: State, p: Prim, t: Task)
    requires Core(w, s) && LivePrim(s, p) && LiveTask(s, t)
    ensures p in s.own.prims && t in s.own.tasks && p in s.over.prims && t in s.over.tasks
  {
    hide StopOk, ExecOk, ClosedBut, SameProcess, OverridersOk;
  }

  lemma UnlockFrees(w: World, s: State, h: Matrix, p: Prim, t: Task)
    requires Core(w, s) && InPhase(s, h, p, Held(t)) && ReleaseError(s.own, p, t) == 0
    ensures var ms := [Micro.Release(p, t), Micro.Unlink(p)]; InPhase(ApplyAll(s, ms), HeldAll(s, h, ms), p, Free)
  {
    hide Core, LiveTasks, LivePrims, ApplyAll, HeldAll, HeldStep, Apply, ReleaseError;
    ApplyPair(s, Micro.Release(p, t), Micro.Unlink(p));
    HeldPair(s, h, Micro.Release(p, t), Micro.Unlink(p));
    OverriddenOfCore(w, s, p);
    ReleaseUnlink(s, p, t);
  }

  lemma ReleaseUnlink(s: State, p: Prim, t: Task)
    requires ReleaseError(s.own, p, t) == 0 && p in s.over.prims && s.over.prims[p] == t && t in s.over.tasks
    ensures var s' := Apply(Apply(s, Micro.Release(p, t)), Micro.Unlink(p));
            s'.reg == s.reg && Overridden(s', p) == null && Owners(s', p) == Owners(s, p) - 1
  {
    hide Walk, EdgesOf, Remove;
  }

  // ----------------------------------------------------------------- calls

  predicate Apart(m: Micro, p: Prim, c: Process) {
    Aside(m, p, c) && m != Micro.Unlink(p)
  }

  lemma SimpleApart(w: World, s: State, op: Op, p: Prim, c: Process)
    requires Legal(w, s, op) && MutexOnly(s, op, p) && Homed(s, p, c)
    requires op.RegisterThread? || op.UnregisterThread? || op.RegisterProcess? || op.UnregisterProcess? || op.RegisterTask?
          || op.RegisterPrim? || op.UnregisterPrim? || op.ResumeTask? || op.PauseProcess? || op.ResumeProcess? || op.CloseCommit?
    ensures forall m :: m in Plan(s, op) ==> Apart(m, p, c)
  {
    hide LivePrims, LiveTasks, ActiveOf, Waiting, Assignable;
  }

  lemma PlainApart(w: World, s: State, op: Op, p: Prim, c: Process)
    requires MutexOnly(s, op, p)
    requires op.TakeOwnership? || op.ReleaseOwnership? || op.OverrideTask? || op.UnoverrideTask? || op.StopThread? || op.OpenCommit?
          || op.SemTake? || op.SemTakeNb? || op.SemRelease?
    ensures forall m :: m in Plan(s, op) ==> Apart(m, p, c)
  {
    hide ReleaseError;
  }

  lemma MutexApart(s: State, h: Matrix, op: Op, p: Prim, c: Process, ph: Phase)
    requires Matches(s, h) && InPhase(s, h, p, ph) && !Locks(s, op, p) && !Unlocks(s, op, p)
    requires op.MutexLock? || op.MutexLockNb? || op.MutexUnlock?
    ensures forall m :: m in Plan(s, op) ==> Apart(m, p, c)
  {
    if op.MutexUnlock? && op.p == p {
      UnlockCodes(s, h, p, ph, op.h);
    }
    hide ReleaseError, Matches, InPhase;
  }

  /** A call that neither locks nor unlocks `p`, nor is its owner's
    * unregistration, leaves it aside. */
  lemma PlanApart(w: World, s: State, h: Matrix, op: Op, p: Prim, c: Process, ph: Phase)
    requires Core(w, s) && Legal(w, s, op) && MutexOnly(s, op, p) && Matches(s, h) && InPhase(s, h, p, ph) && Homed(s, p, c)
    requires !Locks(s, op, p) && !Unlocks(s, op, p) && !Deserts(s, op, ph)
    ensures forall m :: m in Plan(s, op) ==> Apart(m, p, c)
  {
    hide Core, LiveTasks, LivePrims, Matches, Homed, Legal, Plan, Apart, Locks, Unlocks, UnregisterPlan;
    match op
    case UnregisterTask(th, next) =>
      UnregisterApart(w, s, h, th, next, p, c, ph);
    case MutexLock(_, _, _) => MutexApart(s, h, op, p, c, ph);
    case MutexLockNb(_, _) => MutexApart(s, h, op, p, c, ph);
    case MutexUnlock(_, _) => MutexApart(s, h, op, p, c, ph);
    case TakeOwnership(_, _) => PlainApart(w, s, op, p, c);
    case ReleaseOwnership(_, _) => PlainApart(w, s, op, p, c);
    case OverrideTask(_, _) => PlainApart(w, s, op, p, c);
    case UnoverrideTask(_) => PlainApart(w, s, op, p, c);
    case StopThread(_, _, _) => PlainApart(w, s, op, p, c);
    case OpenCommit => PlainApart(w, s, op, p, c);
    case SemTake(_, _, _, _) => PlainApart(w, s, op, p, c);
    case SemTakeNb(_, _, _) => PlainApart(w, s, op, p, c);
    case SemRelease(_, _) => PlainApart(w, s, op, p, c);
    case _ => SimpleApart(w, s, op, p, c);
  }

  lemma UnregisterApart(w: World, s: State, h: Matrix, th: Thread, next: Task?, p: Prim, c: Process, ph: Phase)
    requires Core(w, s) && Homed(s, p, c) && Legal(w, s, UnregisterTask(th, next)) && InPhase(s, h, p, ph)
    requires !Deserts(s, UnregisterTask(th, next), ph)
    ensures forall m :: m in Plan(s, UnregisterTask(th, next)) ==> Apart(m, p, c)
  {
    hide Core, LiveTasks, LivePrims, Plan;
    UnregisterAside(w, s, th, next, p, c);
  }

  /** The unregistration of a task undoes the override of exactly its overriders. */
  lemma UnregisterAside(w: World, s: State, th: Thread, next: Task?, p: Prim, c: Process)
    requires Core(w, s) && Homed(s, p, c) && Legal(w, s, UnregisterTask(th, next))
    ensures forall m :: m in Plan(s, UnregisterTask(th, next)) ==> Aside(m, p, c) && !m.AddTask?
    ensures forall m :: m in Plan(s, UnregisterTask(th, next)) && m == Micro.Unlink(p) ==> Overridden(s, p) == Current(s, th)
    ensures Overridden(s, p) == Current(s, th) ==> Micro.Unlink(p) in Plan(s, UnregisterTask(th, next))
  {
    hide Core, LiveTasks, LivePrims;
    var t := Current(s, th);
    OverridersOfCore(w, s, t, p);
    UnlinksHas(s.over.tasks[t].overriders, p);
  }

  lemma UnlinksHas(ps: seq<Prim>, p: Prim)
    ensures p in ps ==> Micro.Unlink(p) in Unlinks(ps)
  {
    if p in ps {
      var i :| 0 <= i < |ps| && ps[i] == p;
      assert Unlinks(ps)[i] == Micro.Unlink(p);
    }
  }

  lemma OverridersOfCore(w: World, s: State, t: Task, p: Prim)
    requires Core(w, s) && LiveTask(s, t) && LivePrim(s, p)
    ensures t in s.over.tasks && p in s.over.prims && (p in s.over.tasks[t].overriders <==> s.over.prims[p] == t)
  {
    hide RegistryOk, StopOk, ExecOk, OwnOk, ClosedBut, SameProcess, LiveTasks, LivePrims, NoDup;
  }

  lemma LockMoves(w: World, s: State, h: Matrix, op: Op, p: Prim)
    requires Core(w, s) && Legal(w, s, op) && InPhase(s, h, p, Free) && Locks(s, op, p)
    ensures Caller(s, op) != null && InPhase(Step(s, op), HeldAfter(s, h, op), p, Held(Caller(s, op)))
  {
    hide Core, LiveTasks, LivePrims, InPhase, ApplyAll, HeldAll;
    LockTakes(w, s, h, p, Caller(s, op));
  }

  lemma UnlockPlanIs(s: State, op: Op, p: Prim)
    requires Unlocks(s, op, p)
    ensures var t := Current(s, op.h);
            && t != null && ReleaseError(s.own, p, t) == 0 && Overridden(s, p) == t
            && Plan(s, op) == [Micro.Release(p, t), Micro.Unlink(p)] + WakeUp(s, p)
  {
  }

  lemma WakeUpApart(s: State, s1: State, p: Prim, c: Process)
    ensures AllAside(s1, WakeUp(s, p), p, c, null) && Micro.Unlink(p) !in WakeUp(s, p)
  {
  }

  lemma UnlockMoves(w: World, s: State, h: Matrix, op: Op, p: Prim, ph: Phase)
    requires Core(w, s) && Legal(w, s, op) && Matches(s, h) && InPhase(s, h, p, ph) && Unlocks(s, op, p)
    ensures InPhase(Step(s, op), HeldAfter(s, h, op), p, Free)
  {
    hide Core, LiveTasks, LivePrims, Legal, Plan, InPhase, Matches, AllOk, ApplyAll, HeldAll, UnlockCode, WakeUp, ReleaseError, AllAside, Current, Overridden, Owners, Homed;
    PlanOk(w, s, op);
    UnlockPlanIs(s, op, p);
    PhaseIsHeld(s, h, op, p, ph);
    var t := Current(s, op.h);
    var a, b := [Micro.Release(p, t), Micro.Unlink(p)], WakeUp(s, p);
    UnlockFrees(w, s, h, p, t);
    AllOkSplit(w, s, a, b);
    AllOkKeepsCore(w, s, a);
    ConcatHeld(s, h, a, b);
    FreeStays(w, ApplyAll(s, a), HeldAll(s, h, a), s, b, p);
  }

  lemma PhaseIsHeld(s: State, h: Matrix, op: Op, p: Prim, ph: Phase)
    requires Matches(s, h) && InPhase(s, h, p, ph) && Unlocks(s, op, p)
    ensures ph.Held? && ph.owner == Current(s, op.h)
  {
    hide Matches, InPhase, UnlockCode;
    UnlockCodes(s, h, p, ph, op.h);
  }

  lemma FreeStays(w: World, s: State, h: Matrix, s0: State, ms: seq<Micro>, p: Prim)
    requires Core(w, s) && AllOk(w, s, ms) && ms == WakeUp(s0, p) && InPhase(s, h, p, Free)
    ensures InPhase(ApplyAll(s, ms), HeldAll(s, h, ms), p, Free)
  {
    hide Core, AllOk, LivePrims, ApplyAll, HeldAll, WakeUp, AllAside, Owners, Overridden;
    HomeOf(w, s, p);
    WakeUpApart(s0, s, p, s.reg.prims[p]);
    AsideSteps(w, s, h, ms, p, s.reg.prims[p], null);
  }

  lemma ApartStays(w: World, s: State, h: Matrix, op: Op, p: Prim, ph: Phase)
    requires Core(w, s) && Legal(w, s, op) && MutexOnly(s, op, p) && Matches(s, h) && InPhase(s, h, p, ph)
    requires !Locks(s, op, p) && !Unlocks(s, op, p) && !Deserts(s, op, ph)
    ensures InPhase(Step(s, op), HeldAfter(s, h, op), p, ph)
  {
    hide Core, LiveTasks, LivePrims, Legal, Plan, Matches, MutexOnly, AllOk, ApplyAll, HeldAll, Locks, Unlocks, Deserts, AllAside, Owners, Overridden;
    PlanOk(w, s, op);
    HomeOf(w, s, p);
    var c := s.reg.prims[p];
    PlanApart(w, s, h, op, p, c, ph);
    var o := if ph.Held? then ph.owner else null;
    OverriddenOfCore(w, s, p);
    assert ph.Held? ==> Overridden(s, p) == ph.owner;
    OnlyRegisterAdds(s, op);
    assert AllAside(s, Plan(s, op), p, c, o) by {
      ApartIsAside(s, Plan(s, op), p, c, o);
    }
    AsideSteps(w, s, h, Plan(s, op), p, c, o);
    OverriddenOfCore(w, Step(s, op), p);
  }

  lemma OnlyRegisterAdds(s: State, op: Op)
    ensures forall i :: 0 <= i < |Plan(s, op)| && Plan(s, op)[i].AddTask? ==> i == 0
  {
    hide ActiveOf, Waiting, Owners, Overridden, ReleaseError;
  }

  lemma ApartIsAside(s: State, ms: seq<Micro>, p: Prim, c: Process, o: Task?)
    requires forall m :: m in ms ==> Apart(m, p, c)
    requires o == null || LiveTask(s, o)
    requires forall i :: 0 <= i < |ms| && ms[i].AddTask? ==> i == 0
    ensures AllAside(s, ms, p, c, o) && Micro.Unlink(p) !in ms
  {
    hide Aside, LiveTask;
  }

  lemma DesertMoves(w: World, s: State, h: Matrix, op: Op, p: Prim, ph: Phase)
    requires Core(w, s) && Legal(w, s, op) && InPhase(s, h, p, ph) && Deserts(s, op, ph)
    ensures InPhase(Step(s, op), HeldAfter(s, h, op), p, Abandoned)
  {
    hide Core, LiveTasks, LivePrims, Legal, Plan, AllOk, ApplyAll, HeldAll, Aside, Owners, Overridden, Current;
    PlanOk(w, s, op);
    HomeOf(w, s, p);
    OverriddenOfCore(w, s, p);
    assert Overridden(s, p) == ph.owner == Current(s, op.h);
    var c := s.reg.prims[p];
    UnregisterAside(w, s, op.h, op.next, p, c);
    AsideSteps(w, s, h, Plan(s, op), p, c, ph.owner);
    UnregisterDrops(w, s, op.h, op.next);
  }

  lemma UnregisterDrops(w: World, s: State, th: Thread, next: Task?)
    requires Core(w, s) && Legal(w, s, UnregisterTask(th, next))
    ensures !LiveTask(Step(s, UnregisterTask(th, next)), Current(s, th))
  {
    hide Core, LiveTasks, LivePrims, Ok, Apply, AllOk;
    PlanOk(w, s, UnregisterTask(th, next));
    var ms := Plan(s, UnregisterTask(th, next));
    var n := |ms| - 2;
    var t := Current(s, th);
    assert t != null && ms[n] == Micro.DropTask(t) && ms[n + 1] == Micro.Assign(th, next);
    assert ms == (ms[..n] + [ms[n]]) + [ms[n + 1]];
    hide Plan, Legal, Current;
    AllOkSplit(w, s, ms[..n] + [ms[n]], [ms[n + 1]]);
    AllOkSplit(w, s, ms[..n], [ms[n]]);
    var s1 := ApplyAll(s, ms[..n]);
    var s2 := ApplyAll(s, ms[..n] + [ms[n]]);
    OneStep(w, s1, ms[n]);
    OneStep(w, s2, ms[n + 1]);
    AllOkKeepsCore(w, s, ms[..n]);
    AllOkKeepsCore(w, s, ms[..n] + [ms[n]]);
    DropThenAssign(w, s1, s2, t, ms[n + 1]);
  }

  lemma DropThenAssign(w: World, s1: State, s2: State, t: Task, m: Micro)
    requires Core(w, s1) && Core(w, s2) && Ok(w, s1, Micro.DropTask(t)) && s2 == Apply(s1, Micro.DropTask(t)) && m.Assign? && Ok(w, s2, m)
    ensures !LiveTask(Apply(s2, m), t)
  {
    hide Core, Apply, Ok, RegistryOk, LiveTasks, LivePrims, ExecOk, OwnOk, ClosedBut, LivePrimsAfter, EdgesOf;
    CoreParts(w, s1);
    CoreParts(w, s2);
    LiveAfter(w, s1, Micro.DropTask(t));
    LiveAfter(w, s2, m);
  }

  /** A successful unlock leaves the mutex free and resumes one waiting task:
    * tasks are left waiting for a mutex nobody owns if and only if two or more waited. */
  lemma UnlockLeavesWaiters(w: World, s: State, h: Matrix, op: Op, p: Prim, ph: Phase)
    requires Core(w, s) && Legal(w, s, op) && Matches(s, h) && InPhase(s, h, p, ph) && Unlocks(s, op, p)
    ensures InPhase(Step(s, op), HeldAfter(s, h, op), p, Free)
    ensures Waiting(Step(s, op), p) == if Waiting(s, p) == [] then [] else Waiting(s, p)[1..]
    ensures Waiting(Step(s, op), p) != [] <==> |Waiting(s, p)| >= 2
  {
    hide Core, LivePrims, Legal, Plan, Step, InPhase, Matches, UnlockCode, Waiting;
    UnlockMoves(w, s, h, op, p, ph);
    PhaseIsLive(s, h, p, ph);
    WakingCall(w, s, op, p);
  }

  lemma PhaseIsLive(s: State, h: Matrix, p: Prim, ph: Phase)
    requires InPhase(s, h, p, ph)
    ensures LivePrim(s, p)
  {
  }

  /** Each call moves the mutex as the three-phase machine does. */
  lemma CallMovesPhase(w: World, s: State, h: Matrix, op: Op, p: Prim, ph: Phase)
    requires Core(w, s) && Legal(w, s, op) && MutexOnly(s, op, p) && Matches(s, h) && InPhase(s, h, p, ph)
    ensures InPhase(Step(s, op), HeldAfter(s, h, op), p, NextPhase(s, op, p, ph))
  {
    hide Core, Legal, MutexOnly, Matches, InPhase, Step, HeldAfter, Locks, Unlocks, Deserts, Caller;
    if Locks(s, op, p) {
      LockIsFree(s, h, op, p, ph);
      LockMoves(w, s, h, op, p);
    } else if Unlocks(s, op, p) {
      UnlockMoves(w, s, h, op, p, ph);
    } else if Deserts(s, op, ph) {
      DesertMoves(w, s, h, op, p, ph);
    } else {
      ApartStays(w, s, h, op, p, ph);
    }
  }

  lemma LockIsFree(s: State, h: Matrix, op: Op, p: Prim, ph: Phase)
    requires InPhase(s, h, p, ph) && Locks(s, op, p)
    ensures ph.Free?
  {
  }

  /** Constructing a mutex leaves it free. */
  lemma ConstructedIsFree(w: World, s: State, h: Matrix, c: Process, p: Prim)
    requires Core(w, s) && Legal(w, s, RegisterPrim(c, p))
    ensures var s' := Step(s, RegisterPrim(c, p)); InPhase(s', HeldAfter(s, h, RegisterPrim(c, p)), p, Free)
  {
    hide Core, LiveTasks, LivePrims, HeldAll, RegistryOk, ExecOk, OwnOk, ClosedBut;
    CoreParts(w, s);
    LiveAfter(w, s, Micro.AddPrim(c, p));
    OneStep(w, s, Micro.AddPrim(c, p));
    ListedAreKnown(w, s.reg);
  }

  // ------------------------------------------------------------------ runs

  /** A run that uses `p` through the mutex functions; the releases of all other
    * primitives are matched. */
  ghost predicate MutexRun(w: World, ss: seq<State>, hs: seq<Matrix>, ops: seq<Op>, p: Prim, ph: Phase) {
    && IsRun(w, ss, ops) && Inv(w, ss[0]) && |hs| == |ss| && Matches(ss[0], hs[0]) && InPhase(ss[0], hs[0], p, ph)
    && forall i :: 0 <= i < |ops| ==>
         && MutexOnly(ss[i], ops[i], p) && hs[i + 1] == HeldAfter(ss[i], hs[i], ops[i])
         && ((ops[i].MutexUnlock? && ops[i].p == p) || Matched(ss[i], hs[i], ops[i]))
  }

  ghost function PhaseAt(ss: seq<State>, ops: seq<Op>, p: Prim, ph: Phase, n: nat): Phase
    requires n <= |ops| && n < |ss|
  {
    if n == 0 then ph else NextPhase(ss[n - 1], ops[n - 1], p, PhaseAt(ss, ops, p, ph, n - 1))
  }

  /** The unlock of a mutex is matched: who gets past the check is the holder. */
  lemma UnlockIsMatched(s: State, h: Matrix, p: Prim, ph: Phase, th: Thread)
    requires Matches(s, h) && InPhase(s, h, p, ph)
    ensures Matched(s, h, MutexUnlock(p, th))
  {
    hide Matches, LivePrims;
    UnlockCodes(s, h, p, ph, th);
  }

  lemma MutexRunStep(w: World, ss: seq<State>, hs: seq<Matrix>, ops: seq<Op>, p: Prim, ph: Phase, n: nat)
    requires MutexRun(w, ss, hs, ops, p, ph) && n < |ops|
    ensures n + 1 < |ss| == |hs| && Legal(w, ss[n], ops[n]) && ss[n + 1] == Step(ss[n], ops[n])
    ensures MutexOnly(ss[n], ops[n], p) && hs[n + 1] == HeldAfter(ss[n], hs[n], ops[n])
    ensures (ops[n].MutexUnlock? && ops[n].p == p) || Matched(ss[n], hs[n], ops[n])
  {
    hide Inv, Legal, Step, MutexOnly, HeldAfter, Matched, Matches, InPhase;
  }

  lemma MutexRunStart(w: World, ss: seq<State>, hs: seq<Matrix>, ops: seq<Op>, p: Prim, ph: Phase)
    requires MutexRun(w, ss, hs, ops, p, ph)
    ensures |ss| == |hs| == |ops| + 1 && IsRun(w, ss, ops) && Inv(w, ss[0]) && Matches(ss[0], hs[0]) && InPhase(ss[0], hs[0], p, ph)
  {
    hide Inv, Legal, Step, MutexOnly, HeldAfter, Matched, Matches, InPhase;
  }

  /** In every run the fields of a mutex and the holdings show the phase of the
    * three-phase machine. */
  lemma {:induction false} RunMovesPhase(w: World, ss: seq<State>, hs: seq<Matrix>, ops: seq<Op>, p: Prim, ph: Phase, n: nat)
    requires MutexRun(w, ss, hs, ops, p, ph) && n < |ss|
    ensures n <= |ops| && n < |hs| && Inv(w, ss[n]) && Matches(ss[n], hs[n])
    ensures InPhase(ss[n], hs[n], p, PhaseAt(ss, ops, p, ph, n))
    decreases n
  {
    hide Inv, Core, Legal, Step, MutexOnly, HeldAfter, Matched, Matches, InPhase, NextPhase, MutexRun, IsRun;
    MutexRunStart(w, ss, hs, ops, p, ph);
    RunKeepsInv(w, ss, ops, n);
    if n > 0 {
      RunMovesPhase(w, ss, hs, ops, p, ph, n - 1);
      MutexRunStep(w, ss, hs, ops, p, ph, n - 1);
      StepMovesPhase(w, ss[n - 1], hs[n - 1], ops[n - 1], p, PhaseAt(ss, ops, p, ph, n - 1));
    }
  }

  lemma StepMovesPhase(w: World, s: State, h: Matrix, op: Op, p: Prim, ph: Phase)
    requires Inv(w, s) && Legal(w, s, op) && MutexOnly(s, op, p) && Matches(s, h) && InPhase(s, h, p, ph)
    requires (op.MutexUnlock? && op.p == p) || Matched(s, h, op)
    ensures Matches(Step(s, op), HeldAfter(s, h, op)) && InPhase(Step(s, op), HeldAfter(s, h, op), p, NextPhase(s, op, p, ph))
  {
    hide Inv, Core, Legal, Step, MutexOnly, HeldAfter, Matched, Matches, InPhase, NextPhase;
    InvIsCore(w, s);
    if op.MutexUnlock? && op.p == p {
      UnlockIsMatched(s, h, p, ph, op.h);
    }
    CallKeepsMatches(w, s, h, op);
    CallMovesPhase(w, s, h, op, p, ph);
  }

  /** The owning count is 0 or 1; it is 1 when a task is overridden, who then
    * holds the mutex, and otherwise only if the holder was unregistered. */
  lemma OwningCount(w: World, ss: seq<State>, hs: seq<Matrix>, ops: seq<Op>, p: Prim, ph: Phase, n: nat)
    requires MutexRun(w, ss, hs, ops, p, ph) && n < |ss|
    ensures n < |hs| && 0 <= Owners(ss[n], p) <= 1
    ensures Overridden(ss[n], p) != null ==> Owners(ss[n], p) == 1 && Unit(p, Overridden(ss[n], p)) in hs[n]
    ensures Owners(ss[n], p) == 1 && Overridden(ss[n], p) == null ==> Unit(p, null) in hs[n]
  {
    hide MutexRun, Inv, PhaseAt, Owners, Overridden, LivePrim;
    RunMovesPhase(w, ss, hs, ops, p, ph, n);
  }

  /** Only the owner's unlock returns 0, in every state of every run; anybody
    * else gets 2, and 1 if there is no owner. */
  lemma OnlyTheOwnerUnlocks(w: World, ss: seq<State>, hs: seq<Matrix>, ops: seq<Op>, p: Prim, ph: Phase, n: nat, th: Thread)
    requires MutexRun(w, ss, hs, ops, p, ph) && n < |ss|
    ensures var owner := Overridden(ss[n], p);
            UnlockCode(ss[n], p, th) == if owner == null then 1 else if Current(ss[n], th) == owner then 0 else 2
  {
    hide MutexRun, Inv, PhaseAt, Owners, Overridden, LivePrim, Matches, UnlockCode, InPhase;
    RunMovesPhase(w, ss, hs, ops, p, ph, n);
    UnlockCodes(ss[n], hs[n], p, PhaseAt(ss, ops, p, ph, n), th);
  }

  /** The owner's unlock happens in call `k`. */
  ghost predicate UnlockedBy(ss: seq<State>, ops: seq<Op>, p: Prim, o: Task, k: nat)
    requires k < |ops| && k < |ss|
  {
    Unlocks(ss[k], ops[k], p) && Current(ss[k], ops[k].h) == o
  }

  lemma HeldMoves(s: State, h: Matrix, op: Op, p: Prim, o: Task)
    requires Matches(s, h) && InPhase(s, h, p, Held(o)) && !(Unlocks(s, op, p) && Current(s, op.h) == o)
    ensures NextPhase(s, op, p, Held(o)) == Held(o) || NextPhase(s, op, p, Held(o)) == Abandoned
  {
    hide Matches, InPhase, Unlocks, Locks;
    if Locks(s, op, p) {
      LockIsFree(s, h, op, p, Held(o));
    } else if Unlocks(s, op, p) {
      PhaseIsHeld(s, h, op, p, Held(o));
    }
  }

  lemma FreeMoves(s: State, h: Matrix, op: Op, p: Prim)
    requires Matches(s, h) && InPhase(s, h, p, Free) && MutexOnly(s, op, p) && !Locks(s, op, p)
    ensures NextPhase(s, op, p, Free) == Free && !Wakes(s, op, p)
  {
    hide Matches, InPhase;
    if op.MutexUnlock? && op.p == p {
      UnlockCodes(s, h, p, Free, op.h);
    }
  }

  /** Tasks that wait for a free mutex wait until somebody locks it: they stay
    * at the head of its queue, in order, through any fair calls. */
  lemma {:induction false} WaitersWaitForLock(w: World, ss: seq<State>, hs: seq<Matrix>, ops: seq<Op>, p: Prim, ph: Phase, i: nat, n: nat)
    requires MutexRun(w, ss, hs, ops, p, ph) && i <= n < |ss| == |ops| + 1 && PhaseAt(ss, ops, p, ph, i) == Free
    requires forall k :: i <= k < n ==> Fair(ss[k], ops[k], p) && !Locks(ss[k], ops[k], p)
    ensures PhaseAt(ss, ops, p, ph, n) == Free && Waiting(ss[i], p) <= Waiting(ss[n], p)
    decreases n
  {
    hide MutexRun, Inv, Legal, Step, Matches, InPhase, NextPhase, Locks, Fair, MutexOnly, Wakes, Waiting, QueueMoves, LivePrim;
    if i < n {
      WaitersWaitForLock(w, ss, hs, ops, p, ph, i, n - 1);
      RunMovesPhase(w, ss, hs, ops, p, ph, n - 1);
      MutexRunStep(w, ss, hs, ops, p, ph, n - 1);
      var s, op := ss[n - 1], ops[n - 1];
      FreeMoves(s, hs[n - 1], op, p);
      PhaseIsLive(s, hs[n - 1], p, Free);
      CallMovesQueue(w, s, op, p);
      QueueGrows(s, ss[n], p);
    }
  }

  lemma QueueGrows(s: State, s': State, p: Prim)
    requires QueueMoves(s, s', p, false)
    ensures Waiting(s, p) <= Waiting(s', p)
  {
  }

  lemma AbandonedMoves(s: State, h: Matrix, op: Op, p: Prim)
    requires Matches(s, h) && InPhase(s, h, p, Abandoned)
    ensures NextPhase(s, op, p, Abandoned) == Abandoned && !Locks(s, op, p) && !Unlocks(s, op, p)
  {
    hide Matches, InPhase, Unlocks, Locks;
    if Locks(s, op, p) {
      LockIsFree(s, h, op, p, Abandoned);
    } else if Unlocks(s, op, p) {
      PhaseIsHeld(s, h, op, p, Abandoned);
    }
  }

  /** Without its owner's unlock a locked mutex stays locked. */
  lemma {:induction false} StaysLocked(w: World, ss: seq<State>, hs: seq<Matrix>, ops: seq<Op>, p: Prim, ph: Phase, i: nat, n: nat, o: Task)
    requires MutexRun(w, ss, hs, ops, p, ph) && i <= n < |ss| == |ops| + 1 && PhaseAt(ss, ops, p, ph, i) == Held(o)
    requires forall k: nat :: i <= k < n ==> !UnlockedBy(ss, ops, p, o, k)
    ensures PhaseAt(ss, ops, p, ph, n) == Held(o) || PhaseAt(ss, ops, p, ph, n) == Abandoned
    decreases n
  {
    hide MutexRun, Inv, Matches, InPhase, Unlocks, NextPhase;
    if i < n {
      StaysLocked(w, ss, hs, ops, p, ph, i, n - 1, o);
      RunMovesPhase(w, ss, hs, ops, p, ph, n - 1);
      assert !UnlockedBy(ss, ops, p, o, n - 1);
      if PhaseAt(ss, ops, p, ph, n - 1) == Held(o) {
        HeldMoves(ss[n - 1], hs[n - 1], ops[n - 1], p, o);
      } else {
        AbandonedMoves(ss[n - 1], hs[n - 1], ops[n - 1], p);
      }
    }
  }

  /** Mutual exclusion: between two successful lockings there is a successful
    * unlock by the task that locked first. */
  lemma MutualExclusion(w: World, ss: seq<State>, hs: seq<Matrix>, ops: seq<Op>, p: Prim, ph: Phase, i: nat, j: nat)
    requires MutexRun(w, ss, hs, ops, p, ph) && i < j < |ops| < |ss| && Locks(ss[i], ops[i], p) && Locks(ss[j], ops[j], p)
    ensures var o := Caller(ss[i], ops[i]); o != null && exists k: nat :: i < k < j && UnlockedBy(ss, ops, p, o, k)
  {
    hide MutexRun, Inv, Core, Legal, InPhase, Matches, MutexOnly, Unlocks, Current, Owners, UnlockCode;
    RunMovesPhase(w, ss, hs, ops, p, ph, i);
    RunMovesPhase(w, ss, hs, ops, p, ph, j);
    MutexRunStart(w, ss, hs, ops, p, ph);
    MutexRunStep(w, ss, hs, ops, p, ph, i);
    InvIsCore(w, ss[i]);
    LockIsFree(ss[i], hs[i], ops[i], p, PhaseAt(ss, ops, p, ph, i));
    LockIsFree(ss[j], hs[j], ops[j], p, PhaseAt(ss, ops, p, ph, j));
    LockMoves(w, ss[i], hs[i], ops[i], p);
    var o := Caller(ss[i], ops[i]);
    assert PhaseAt(ss, ops, p, ph, i + 1) == Held(o);
    if !exists k: nat :: i < k < j && UnlockedBy(ss, ops, p, o, k) {
      StaysLocked(w, ss, hs, ops, p, ph, i + 1, j, o);
    }
  }

  /** A mutex whose owner was unregistered is locked for good: no locking
    * succeeds and every unlock returns 1. */
  lemma {:induction false} AbandonedForGood(w: World, ss: seq<State>, hs: seq<Matrix>, ops: seq<Op>, p: Prim, ph: Phase, i: nat, n: nat, th: Thread)
    requires MutexRun(w, ss, hs, ops, p, ph) && i <= n < |ss| == |ops| + 1 && PhaseAt(ss, ops, p, ph, i) == Abandoned
    ensures PhaseAt(ss, ops, p, ph, n) == Abandoned
    ensures Owners(ss[n], p) == 1 && UnlockCode(ss[n], p, th) == 1
    ensures n < |ops| ==> !Locks(ss[n], ops[n], p)
    decreases n
  {
    hide MutexRun, Inv, Matches, UnlockCode, InPhase, NextPhase, Owners;
    RunMovesPhase(w, ss, hs, ops, p, ph, n);
    if i < n {
      AbandonedForGood(w, ss, hs, ops, p, ph, i, n - 1, th);
      RunMovesPhase(w, ss, hs, ops, p, ph, n - 1);
      AbandonedMoves(ss[n - 1], hs[n - 1], ops[n - 1], p);
    }
    UnlockCodes(ss[n], hs[n], p, PhaseAt(ss, ops, p, ph, n), th);
    AbandonedCount(ss[n], hs[n], p);
  }

  lemma AbandonedCount(s: State, h: Matrix, p: Prim)
    requires InPhase(s, h, p, Abandoned)
    ensures Owners(s, p) == 1
  {
  }
}
