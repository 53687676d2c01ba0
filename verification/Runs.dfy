/** Runs of the scheduler: any sequence of legal public calls. */
module Runs {
  import opened Lists
  import opened Objects
  import opened Marking
  import opened Model
  import opened Invariant
  import opened Operations
  import opened Plans
  import opened Calls

  // ----------------------------------------- active threads run active tasks

  /** thread_active (src/sched/sched.c:20-25). */
  ghost predicate ThreadActive(g: Execution, h: Thread) {
    h in g.threads && g.threads[h].commit == g.index && g.threads[h].task != null
  }

  /** No active thread, `x` excepted, runs a task that is not active. */
  ghost predicate RunActiveBut(s: State, x: Thread?) {
    forall h :: h in s.run.list && h != x && ThreadActive(s.run, h) ==> ActiveTask(s, s.run.threads[h].task)
  }

  ghost predicate RunActive(s: State) {
    RunActiveBut(s, null)
  }

  /** The invariant of every run. */
  ghost predicate Inv(w: World, s: State) {
    Core(w, s) && RunActive(s)
  }

  lemma InvIsCore(w: World, s: State)
    requires Inv(w, s)
    ensures Core(w, s)
  {
    hide Core, RunActiveBut;
  }

  /** No thread is active while a commit is open. */
  lemma CommittingIsIdle(w: World, s: State)
    requires Core(w, s) && s.run.committing
    ensures forall h :: h in s.run.list ==> !ThreadActive(s.run, h)
    ensures RunActive(s)
  {
    hide LiveTasks, LivePrims, RegistryOk, StopOk, OverOk, OwnOk, SameProcess, ClosedBut, RunnersOk, ThreadOk;
  }

  /** Steps that take no task out of the active state. */
  predicate Harmless(m: Micro) {
    !m.Stop? && !m.DropTask? && !m.DropProcess? && !m.CloseCommit? && !m.OpenCommit?
  }

  lemma HarmlessStatus(w: World, s: State, m: Micro, t: Task)
    requires RegistryOk(w, s.reg) && Ok(w, s, m) && Harmless(m) && ActiveTask(s, t)
    ensures ActiveTask(Apply(s, m), t)
  {
    LiveAfter(w, s, m);
    hide RegistryOk, LiveTasks, LivePrims, Ok, Walk, Remove;
  }

  ghost predicate RunKeys(s: State) {
    LiveTasks(s.reg) <= s.run.tasks.Keys && forall h :: h in s.run.list ==> h in s.run.threads
  }

  lemma RunKeysOfCore(w: World, s: State)
    requires Core(w, s)
    ensures RunKeys(s)
  {
    hide LiveTasks, LivePrims, RegistryOk, StopOk, OverOk, OwnOk, SameProcess, ClosedBut, ThreadOk, NamesThread;
  }

  /** What a step does to the current tasks: a thread becomes idle, keeps its
    * task, or is assigned an active one. */
  lemma HarmlessRun(w: World, s: State, m: Micro, h: Thread)
    requires Ok(w, s, m) && Harmless(m) && h in Apply(s, m).run.list && ThreadActive(Apply(s, m).run, h)
    requires RunKeys(s)
    ensures var t := Apply(s, m).run.threads[h].task;
            if m.Assign? && m.h == h then m.a == t && ActiveTask(s, t)
            else h in s.run.list && ThreadActive(s.run, h) && s.run.threads[h].task == t
  {
    hide LiveTasks, LivePrims, Walk;
    match m
    case DropThread(h') => RemoveFacts(s.run.list, h');
    case _ =>
  }

  lemma HarmlessKeepsRunActive(w: World, s: State, m: Micro, x: Thread?)
    requires Core(w, s) && Ok(w, s, m) && Harmless(m) && RunActiveBut(s, x)
    ensures RunActiveBut(Apply(s, m), if m.Assign? && m.h == x then null else x)
  {
    hide Core, Ok, Apply, ActiveTask, ThreadActive, RunKeys;
    CoreParts(w, s);
    RunKeysOfCore(w, s);
    var s' := Apply(s, m);
    forall h | h in s'.run.list && h != (if m.Assign? && m.h == x then null else x) && ThreadActive(s'.run, h)
      ensures h in s'.run.threads && ActiveTask(s', s'.run.threads[h].task)
    {
      HarmlessRun(w, s, m, h);
      CurrentIsKnown(s'.run, h);
      HarmlessStatus(w, s, m, s'.run.threads[h].task);
    }
  }

  lemma CurrentIsKnown(g: Execution, h: Thread)
    requires ThreadActive(g, h)
    ensures h in g.threads && g.threads[h].task != null
  {
  }

  lemma {:induction false} AllHarmless(w: World, s: State, ms: seq<Micro>)
    requires Core(w, s) && AllOk(w, s, ms) && RunActive(s) && forall m :: m in ms ==> Harmless(m)
    ensures RunActive(ApplyAll(s, ms))
  {
    hide Core, Ok, Apply, RunActiveBut, Harmless;
    if ms != [] {
      var n := |ms| - 1;
      assert ms == ms[..n] + [ms[n]];
      AllHarmless(w, s, ms[..n]);
      AllOkKeepsCore(w, s, ms[..n]);
      HarmlessKeepsRunActive(w, ApplyAll(s, ms[..n]), ms[n], null);
    }
  }

  /** Stopping the task of thread `h` leaves at most `h` with a stopped task. */
  lemma StopKeepsOthers(w: World, s: State, p: Prim, h: Thread)
    requires Core(w, s) && RunActive(s) && h in s.run.list && Current(s, h) != null
    ensures RunActiveBut(Apply(s, Micro.Stop(p, Current(s, h))), h)
  {
    hide Core, LiveTasks, Walk, Remove;
    var t := Current(s, h);
    ThreadTasksAreDetachable(w, s, h);
    forall h' | h' in s.run.list && h' != h
      ensures h' in s.run.threads && s.run.threads[h'].task != t
    {
      ThreadTasksAreDetachable(w, s, h');
    }
  }

  lemma StopThreadKeepsRunActive(w: World, s: State, p: Prim, h: Thread, next: Task?)
    requires Core(w, s) && RunActive(s) && CanStop(s, p, h, next)
    ensures RunActive(ApplyAll(s, StopPlan(s, p, h, next)))
  {
    hide Core, AllOk, Ok, Apply, RunActiveBut;
    StopThreadOk(w, s, p, h, next);
    StopKeepsOthers(w, s, p, h);
    hide CanStop;
    TwoSteps(w, s, Micro.Stop(p, Current(s, h)), Micro.Assign(h, next));
    StepKeepsCore(w, s, Micro.Stop(p, Current(s, h)));
    HarmlessKeepsRunActive(w, Apply(s, Micro.Stop(p, Current(s, h))), Micro.Assign(h, next), h);
  }

  lemma TwoSteps(w: World, s: State, m: Micro, n: Micro)
    requires AllOk(w, s, [m, n])
    ensures Ok(w, s, m) && Ok(w, Apply(s, m), n) && ApplyAll(s, [m, n]) == Apply(Apply(s, m), n)
  {
    hide Ok, Apply;
    ApplyPair(s, m, n);
    assert [m, n] == [m] + [n];
    AllOkSplit(w, s, [m], [n]);
    OneStep(w, s, m);
    OneStep(w, Apply(s, m), n);
  }

  lemma OneStep(w: World, s: State, m: Micro)
    ensures ApplyAll(s, [m]) == Apply(s, m) && (AllOk(w, s, [m]) ==> Ok(w, s, m))
  {
    hide Apply, Ok;
    assert [m][..0] == [];
  }

  lemma DropKeepsRunActive(w: World, s: State, t: Task)
    requires Core(w, s) && RunActive(s) && Ok(w, s, Micro.DropTask(t))
    ensures RunActive(Apply(s, Micro.DropTask(t)))
  {
    CoreParts(w, s);
    hide Core, RegistryOk, LivePrims, Remove;
    DropTaskUnregisters(w, s.reg, t);
    hide LiveTasks;
    forall h | h in s.run.list
      ensures h in s.run.threads && s.run.threads[h].task != t
    {
      ThreadTasksAreDetachable(w, s, h);
    }
  }

  lemma UnregisterTaskKeepsRunActive(w: World, s: State, h: Thread, next: Task?)
    requires Core(w, s) && RunActive(s) && Legal(w, s, UnregisterTask(h, next))
    ensures RunActive(Step(s, UnregisterTask(h, next)))
  {
    hide Core, Ok, Apply, RunActiveBut, Legal;
    PlanOk(w, s, UnregisterTask(h, next));
    var ms := Plan(s, UnregisterTask(h, next));
    if ms != [] {
      var n := |ms|;
      var a, b, c := ms[..n - 2], [ms[n - 2]], [ms[n - 1]];
      assert ms == (a + b) + c;
      assert forall m :: m in a ==> Harmless(m);
      hide UnregisterPlan;
      AllOkSplit(w, s, a + b, c);
      AllOkSplit(w, s, a, b);
      AllHarmless(w, s, a);
      AllOkKeepsCore(w, s, a);
      OneStep(w, ApplyAll(s, a), b[0]);
      DropKeepsRunActive(w, ApplyAll(s, a), b[0].t);
      AllOkKeepsCore(w, s, a + b);
      OneStep(w, ApplyAll(s, a + b), c[0]);
      HarmlessKeepsRunActive(w, ApplyAll(s, a + b), c[0], null);
    }
  }

  lemma {:induction false} StaysCommitting(s: State, ms: seq<Micro>)
    requires s.run.committing && forall m :: m in ms ==> !m.CloseCommit?
    ensures ApplyAll(s, ms).run.committing
  {
    if ms != [] {
      var n := |ms| - 1;
      assert ms == ms[..n] + [ms[n]];
      StaysCommitting(s, ms[..n]);
    }
  }

  lemma ClosingIsIdle(w: World, s: State)
    requires Core(w, s) && s.run.committing
    ensures RunActive(Apply(s, Micro.CloseCommit))
  {
    hide Core, ActiveTask;
    CommittingIsIdle(w, s);
  }

  lemma CloseCommitPlan(s: State, cleared: Marks, plan: seq<(Thread, Task?)>)
    ensures var b := [Micro.ClearMarks(cleared)] + Assigns(plan);
            Plan(s, Op.CloseCommit(cleared, plan)) == [Micro.CloseCommit] + b && forall m :: m in b ==> Harmless(m)
  {
    assert [Micro.CloseCommit, Micro.ClearMarks(cleared)] == [Micro.CloseCommit] + [Micro.ClearMarks(cleared)];
  }

  lemma CloseCommitKeepsRunActive(w: World, s: State, cleared: Marks, plan: seq<(Thread, Task?)>)
    requires Core(w, s) && Legal(w, s, Op.CloseCommit(cleared, plan))
    ensures RunActive(Step(s, Op.CloseCommit(cleared, plan)))
  {
    hide Core, AllOk, Ok, Apply, RunActiveBut, Plan, Harmless;
    PlanOk(w, s, Op.CloseCommit(cleared, plan));
    var a, b := [Micro.CloseCommit], [Micro.ClearMarks(cleared)] + Assigns(plan);
    CloseCommitPlan(s, cleared, plan);
    OneStep(w, s, a[0]);
    ClosingIsIdle(w, s);
    AllOkSplit(w, s, a, b);
    AllOkKeepsCore(w, s, a);
    AllHarmless(w, ApplyAll(s, a), b);
  }

  lemma HarmlessCall(w: World, s: State, op: Op)
    requires Core(w, s) && RunActive(s) && Legal(w, s, op) && forall m :: m in Plan(s, op) ==> Harmless(m)
    ensures RunActive(Step(s, op))
  {
    hide Core, AllOk, RunActiveBut, Legal, Plan, Harmless;
    PlanOk(w, s, op);
    AllHarmless(w, s, Plan(s, op));
  }

  lemma IdleCall(w: World, s: State, op: Op)
    requires Core(w, s) && Legal(w, s, op) && (s.run.committing || op.OpenCommit?) && !op.CloseCommit?
    requires op.PauseProcess? || op.ResumeProcess? || op.UnregisterProcess? || op.UnregisterThread? || op.OpenCommit?
    ensures RunActive(Step(s, op))
  {
    hide Core, RunActiveBut, Legal;
    CallKeepsCore(w, s, op);
    if op.OpenCommit? {
      assert ApplyAll(s, [Micro.OpenCommit]) == Apply(s, Micro.OpenCommit) by {
        OneStep(w, s, Micro.OpenCommit);
      }
    } else {
      assert forall m :: m in Plan(s, op) ==> !m.CloseCommit?;
      hide Plan;
      StaysCommitting(s, Plan(s, op));
    }
    CommittingIsIdle(w, Step(s, op));
  }

  /** No call lets an active thread run a task that is not active. */
  lemma CallKeepsRunActive(w: World, s: State, op: Op)
    requires Inv(w, s) && Legal(w, s, op)
    ensures RunActive(Step(s, op))
  {
    hide Core, RunActiveBut, Apply, Ok, Compatible, Assignable, WakeUp, UnregisterPlan;
    match op
    case UnregisterThread(h) => IdleCall(w, s, op);
    case UnregisterProcess(c) => IdleCall(w, s, op);
    case PauseProcess(c) => IdleCall(w, s, op);
    case ResumeProcess(c) => IdleCall(w, s, op);
    case OpenCommit => IdleCall(w, s, op);
    case UnregisterTask(h, next) => UnregisterTaskKeepsRunActive(w, s, h, next);
    case CloseCommit(cleared, plan) => CloseCommitKeepsRunActive(w, s, cleared, plan);
    case StopThread(p, h, next) => StopThreadKeepsRunActive(w, s, p, h, next);
    case MutexLock(p, h, next) =>
      if Owners(s, p) != 0 { StopThreadKeepsRunActive(w, s, p, h, next); } else { HarmlessCall(w, s, op); }
    case SemTake(p, limit, h, next) =>
      if Owners(s, p) == limit { StopThreadKeepsRunActive(w, s, p, h, next); } else { HarmlessCall(w, s, op); }
    case _ =>
      PlanIsHarmless(s, op);
      HarmlessCall(w, s, op);
  }

  lemma PlanIsHarmless(s: State, op: Op)
    requires op.RegisterThread? || op.RegisterProcess? || op.RegisterTask? || op.RegisterPrim? || op.UnregisterPrim?
          || op.TakeOwnership? || op.ReleaseOwnership? || op.OverrideTask? || op.UnoverrideTask? || op.ResumeTask?
          || op.MutexLockNb? || op.MutexUnlock? || op.SemTakeNb? || op.SemRelease?
    ensures forall m :: m in Plan(s, op) ==> Harmless(m)
  {
  }

  lemma CallKeepsInv(w: World, s: State, op: Op)
    requires Inv(w, s) && Legal(w, s, op)
    ensures Inv(w, Step(s, op))
  {
    CallKeepsRunActive(w, s, op);
    hide Core, RunActiveBut, Legal, Plan;
    CallKeepsCore(w, s, op);
  }

  // ------------------------------------------------------------------ runs

  /** Any finite sequence of legal calls, with the states before and after each. */
  ghost predicate IsRun(w: World, ss: seq<State>, ops: seq<Op>) {
    && |ss| == |ops| + 1
    && forall i :: 0 <= i < |ops| ==> Legal(w, ss[i], ops[i]) && ss[i + 1] == Step(ss[i], ops[i])
  }

  /** An idle scheduler over objects none of which is registered. */
  ghost function Initial(s: State): State {
    s.(reg := s.reg.(list := [], count := 0), stop := s.stop.(actives := []),
       run := s.run.(list := [], count := 0, index := 0, committing := false))
  }

  ghost predicate Sized(w: World, s: State) {
    && s.reg.tasks.Keys == w.tasks && s.reg.prims.Keys == w.prims && s.reg.procs.Keys == w.procs
    && s.stop.tasks.Keys == w.tasks && s.stop.prims.Keys == w.prims
    && s.over.tasks.Keys == w.tasks && s.over.prims.Keys == w.prims
    && s.run.tasks.Keys == w.tasks && s.run.threads.Keys == w.threads && OwnOk(w, s.own)
  }

  lemma InitialInv(w: World, s: State)
    requires Sized(w, s)
    ensures Inv(w, Initial(s))
  {
    hide ProcessOk, ThreadOk;
    var s' := Initial(s);
    assert LiveTasks(s'.reg) == {} && LivePrims(s'.reg) == {};
  }

  /** The invariant holds in every state of every run. */
  lemma {:induction false} RunKeepsInv(w: World, ss: seq<State>, ops: seq<Op>, n: nat)
    requires IsRun(w, ss, ops) && Inv(w, ss[0]) && n < |ss|
    ensures Inv(w, ss[n])
  {
    hide Inv, Legal, Step;
    if n > 0 {
      RunKeepsInv(w, ss, ops, n - 1);
      CallKeepsInv(w, ss[n - 1], ops[n - 1]);
    }
  }

  /** No active thread ever runs a stopped or unregistered task. */
  lemma ActiveThreadsRunActiveTasks(w: World, ss: seq<State>, ops: seq<Op>, n: nat, h: Thread)
    requires IsRun(w, ss, ops) && Inv(w, ss[0]) && n < |ss|
    requires h in ss[n].run.list && ThreadActive(ss[n].run, h)
    ensures var t := ss[n].run.threads[h].task;
            && LiveTask(ss[n], t) && t in ss[n].stop.tasks && t in ss[n].run.tasks
            && ss[n].stop.tasks[t].status == Active && ss[n].stop.tasks[t].stopper == null
            && ss[n].run.tasks[t].thread == h && ss[n].run.tasks[t].commit == ss[n].run.index
  {
    RunKeepsInv(w, ss, ops, n);
    hide IsRun, Core, LiveTasks;
    ThreadTasksAreDetachable(w, ss[n], h);
    StatusOfLive(w, ss[n], ss[n].run.threads[h].task);
  }
}
