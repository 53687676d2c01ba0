/** Pausing and resuming a process: a paused process stays stopped through any
  * run, and resuming it restores exactly the tasks that were active before. */
module Pausing {
  import opened Lists
  import opened Objects
  import opened Marking
  import opened Model
  import opened Invariant
  import opened Operations
  import opened Plans
  import opened Calls
  import opened Runs
  import opened Witnesses

  /** Process `c` and its primitive are registered. */
  ghost predicate Registered(s: State, c: Process) {
    && c in s.reg.list && c in s.reg.procs && LivePrim(s, c.prim) && c.prim in s.reg.prims && s.reg.prims[c.prim] == c
    && c.prim in s.stop.prims
  }

  /** The tasks of `c`, what stops them, and what its primitive stops are the
    * same in `s'` as in `s`. */
  ghost predicate Frozen(s: State, s': State, c: Process)
    requires Registered(s, c)
  {
    && Registered(s', c)
    && s'.reg.procs[c].tasks == s.reg.procs[c].tasks && s'.reg.procs[c].status == s.reg.procs[c].status
    && s'.stop.prims[c.prim] == s.stop.prims[c.prim]
    && forall t :: t in s.reg.procs[c].tasks ==> t in s.stop.tasks && t in s'.stop.tasks && s'.stop.tasks[t] == s.stop.tasks[t]
  }

  /** A step that involves neither the tasks `ts` of process `c` nor its primitive. */
  predicate Elsewhere(m: Micro, c: Process, ts: seq<Task>) {
    match m
    case Resume(t) => t !in ts
    case Stop(p, t) => t !in ts && p != c.prim
    case AddTask(c', t) => c' != c && t !in ts
    case DropTask(t) => t !in ts
    case AddPrim(_, p) => p != c.prim
    case DropPrim(p) => p != c.prim
    case AddProcess(c') => c' != c
    case DropProcess(c') => c' != c
    case SetStatus(c', _) => c' != c
    case _ => true
  }

  lemma StaysLive(w: World, s: State, m: Micro, c: Process)
    requires RegistryOk(w, s.reg) && Ok(w, s, m) && Registered(s, c) && Elsewhere(m, c, s.reg.procs[c].tasks)
    ensures LivePrim(Apply(s, m), c.prim)
  {
    hide RegistryOk, LiveTasks, LivePrims, Apply;
    LiveAfter(w, s, m);
  }

  lemma StaysListed(s: State, m: Micro, c: Process)
    requires Registered(s, c) && Elsewhere(m, c, s.reg.procs[c].tasks)
    ensures var g := Apply(s, m).reg; c in g.list && c in g.procs && c.prim in g.prims && g.prims[c.prim] == c
  {
    hide LivePrims, Walk, RemoveAll, ActiveOf, EdgesOf, Remove;
    if m.DropProcess? {
      RemoveFacts(s.reg.list, m.c);
    }
  }

  lemma StopKeysStay(s: State, m: Micro, p: Prim)
    requires p in s.stop.prims
    ensures p in Apply(s, m).stop.prims
  {
    hide Walk, RemoveAll, ActiveOf, EdgesOf, Remove;
  }

  lemma StaysRegistered(w: World, s: State, m: Micro, c: Process)
    requires RegistryOk(w, s.reg) && Ok(w, s, m) && Registered(s, c) && Elsewhere(m, c, s.reg.procs[c].tasks)
    ensures Registered(Apply(s, m), c)
  {
    hide RegistryOk, LiveTasks, LivePrims, Apply, Elsewhere, Ok;
    StaysLive(w, s, m, c);
    StaysListed(s, m, c);
    StopKeysStay(s, m, c.prim);
  }

  lemma ProcessElsewhere(w: World, s: State, m: Micro, c: Process)
    requires RegistryOk(w, s.reg) && Ok(w, s, m) && c in s.reg.list && Elsewhere(m, c, s.reg.procs[c].tasks)
    ensures c in s.reg.procs && c in Apply(s, m).reg.procs
    ensures var r, r' := s.reg.procs[c], Apply(s, m).reg.procs[c]; r'.tasks == r.tasks && r'.status == r.status
  {
    hide LivePrims, Walk, RemoveAll, ActiveOf;
    match m
    case DropTask(t) => assert s.reg.tasks[t] != c;
    case _ => hide RegistryOk, LiveTasks;
  }

  lemma StopElsewhere(s: State, m: Micro, c: Process, ts: seq<Task>)
    requires Elsewhere(m, c, ts) && c.prim in s.stop.prims && forall t :: t in ts ==> t in s.stop.tasks
    requires m.Resume? ==> m.t in s.stop.tasks && s.stop.tasks[m.t].stopper != c.prim
    ensures var g := Apply(s, m).stop;
            && c.prim in g.prims && g.prims[c.prim] == s.stop.prims[c.prim]
            && forall t :: t in ts ==> t in g.tasks && g.tasks[t] == s.stop.tasks[t]
  {
    hide Walk, RemoveAll, ActiveOf, Remove;
  }

  lemma FrozenStep(w: World, s: State, m: Micro, c: Process)
    requires Core(w, s) && Ok(w, s, m) && Registered(s, c) && Elsewhere(m, c, s.reg.procs[c].tasks)
    ensures Frozen(s, Apply(s, m), c)
  {
    hide Core, Ok, Apply, Elsewhere, RegistryOk, ExecOk, OwnOk, ClosedBut, LiveTasks, LivePrims;
    CoreParts(w, s);
    StoppedElsewhere(w, s, m, c);
    StaysRegistered(w, s, m, c);
    ProcessElsewhere(w, s, m, c);
    StopElsewhere(s, m, c, s.reg.procs[c].tasks);
  }

  lemma StoppedElsewhere(w: World, s: State, m: Micro, c: Process)
    requires Core(w, s) && Ok(w, s, m) && Registered(s, c) && Elsewhere(m, c, s.reg.procs[c].tasks)
    ensures s.stop.tasks.Keys == w.tasks
    ensures forall t :: t in s.reg.procs[c].tasks ==> t in s.stop.tasks
    ensures m.Resume? ==> m.t in s.stop.tasks && s.stop.tasks[m.t].stopper != c.prim
  {
    TasksOfProcess(w, s, c);
    if m.Resume? {
      hide LiveTasks, LivePrims, RegistryOk, ActivesOk, StoppersOk, StoppedOk, OverOk, ExecOk, OwnOk, ClosedBut;
    }
  }

  lemma FrozenSelf(s: State, c: Process)
    requires Registered(s, c) && forall t :: t in s.reg.procs[c].tasks ==> t in s.stop.tasks
    ensures Frozen(s, s, c)
  {
  }

  lemma FrozenChain(s: State, s1: State, s2: State, c: Process)
    requires Registered(s, c) && Frozen(s, s1, c) && Frozen(s1, s2, c)
    ensures Frozen(s, s2, c)
  {
    hide Registered;
  }

  lemma FrozenTasks(s: State, s': State, c: Process)
    requires Registered(s, c) && Frozen(s, s', c)
    ensures Registered(s', c) && s'.reg.procs[c].tasks == s.reg.procs[c].tasks
  {
  }

  lemma {:induction false} FrozenSteps(w: World, s: State, ms: seq<Micro>, c: Process)
    requires Core(w, s) && AllOk(w, s, ms) && Registered(s, c)
    requires forall m :: m in ms ==> Elsewhere(m, c, s.reg.procs[c].tasks)
    requires forall t :: t in s.reg.procs[c].tasks ==> t in s.stop.tasks
    ensures Frozen(s, ApplyAll(s, ms), c)
  {
    hide Core, Ok, Apply, Elsewhere, Frozen;
    if ms == [] {
      FrozenSelf(s, c);
    } else {
      var n := |ms| - 1;
      assert ms == ms[..n] + [ms[n]];
      FrozenSteps(w, s, ms[..n], c);
      var s1 := ApplyAll(s, ms[..n]);
      FrozenTasks(s, s1, c);
      AllOkKeepsCore(w, s, ms[..n]);
      FrozenStep(w, s1, ms[n], c);
      FrozenChain(s, s1, ApplyAll(s, ms), c);
    }
  }

  // ------------------------------------------------ calls on other processes

  /** Every task of `c` is stopped. */
  ghost predicate Quiet(s: State, c: Process) {
    && Registered(s, c) && s.reg.procs[c].status == Stopped
    && forall t :: t in s.reg.procs[c].tasks ==> t in s.stop.tasks && s.stop.tasks[t].status == Stopped
  }

  /** Calls other than resuming `c` or one of its tasks, registering a task in
    * it, and unregistering it or one of its primitives. */
  ghost predicate Allowed(s: State, op: Op, c: Process) {
    match op
    case ResumeProcess(c') => c' != c
    case ResumeTask(t) => t in s.reg.tasks && s.reg.tasks[t] != c
    case RegisterTask(c', t) => c' != c
    case UnregisterPrim(p) => p in s.reg.prims && s.reg.prims[p] != c
    case UnregisterProcess(c') => c' != c
    case _ => true
  }

  /** A primitive of another process stops tasks of that process only. */
  lemma StoppedByOther(w: World, s: State, p: Prim, c: Process)
    requires Core(w, s) && Registered(s, c) && LivePrim(s, p) && p in s.reg.prims && s.reg.prims[p] != c
    ensures forall t :: t in Waiting(s, p) ==> t !in s.reg.procs[c].tasks
  {
    hide Core, LiveTasks, LivePrims, NoDup;
    StoppedOfCore(w, s, p);
    forall t | t in Waiting(s, p)
      ensures t !in s.reg.procs[c].tasks
    {
      SameProcessOf(w, s, t);
      TasksOfProcess(w, s, c);
    }
  }

  lemma SameProcessOf(w: World, s: State, t: Task)
    requires Core(w, s) && LiveTask(s, t) && t in s.stop.tasks && s.stop.tasks[t].stopper != null
    ensures t in s.reg.tasks && s.stop.tasks[t].stopper in s.reg.prims && s.reg.prims[s.stop.tasks[t].stopper] == s.reg.tasks[t]
  {
    hide ActivesOk, StoppedOk, OverOk, ExecOk, OwnOk, ClosedBut, ProcessOk;
  }

  /** The process of an active task is not a quiet one. */
  lemma ActiveIsNotQuiet(w: World, s: State, c: Process, t: Task)
    requires Core(w, s) && Quiet(s, c) && ActiveTask(s, t)
    ensures t !in s.reg.procs[c].tasks && t in s.reg.tasks && s.reg.tasks[t] != c
  {
    hide Core, LivePrims;
    TasksOfProcess(w, s, c);
  }

  lemma StopPlanElsewhere(w: World, s: State, p: Prim, h: Thread, next: Task?, c: Process)
    requires Core(w, s) && Quiet(s, c) && CanStop(s, p, h, next)
    ensures forall m :: m in StopPlan(s, p, h, next) ==> Elsewhere(m, c, s.reg.procs[c].tasks)
  {
    hide Core, LiveTasks, LivePrims;
    ActiveIsNotQuiet(w, s, c, Current(s, h));
  }

  lemma WakeUpElsewhere(w: World, s: State, p: Prim, t: Task, c: Process)
    requires Core(w, s) && Quiet(s, c) && Compatible(s, p, t)
    ensures forall m :: m in WakeUp(s, p) ==> Elsewhere(m, c, s.reg.procs[c].tasks)
  {
    hide Core, LiveTasks, LivePrims;
    ActiveIsNotQuiet(w, s, c, t);
    StoppedByOther(w, s, p, c);
  }

  lemma UnregisterElsewhere(w: World, s: State, h: Thread, next: Task?, c: Process)
    requires Inv(w, s) && Quiet(s, c) && Legal(w, s, UnregisterTask(h, next))
    ensures forall m :: m in Plan(s, UnregisterTask(h, next)) ==> Elsewhere(m, c, s.reg.procs[c].tasks)
  {
    hide Core, LiveTasks, LivePrims;
    assert ThreadActive(s.run, h);
    ActiveIsNotQuiet(w, s, c, Current(s, h));
  }

  lemma PauseElsewhere(w: World, s: State, c': Process, c: Process)
    requires Core(w, s) && Quiet(s, c) && Legal(w, s, PauseProcess(c'))
    ensures forall m :: m in Plan(s, PauseProcess(c')) ==> Elsewhere(m, c, s.reg.procs[c].tasks)
  {
    hide Core, LiveTasks, LivePrims, Plan;
    PausableFacts(w, s, c');
    TasksOfProcess(w, s, c);
    PauseIsPausable(s, c');
  }

  lemma ResumesElsewhere(w: World, s: State, p: Prim, c: Process)
    requires Core(w, s) && Quiet(s, c) && LivePrim(s, p) && p in s.reg.prims && s.reg.prims[p] != c
    ensures forall m :: m in Resumes(Waiting(s, p)) ==> Elsewhere(m, c, s.reg.procs[c].tasks)
  {
    hide Core, LiveTasks, LivePrims;
    StoppedByOther(w, s, p, c);
  }

  lemma SimpleElsewhere(w: World, s: State, op: Op, c: Process)
    requires Core(w, s) && Quiet(s, c) && Legal(w, s, op) && Allowed(s, op, c)
    requires op.RegisterThread? || op.UnregisterThread? || op.RegisterProcess? || op.UnregisterProcess? || op.RegisterTask?
          || op.RegisterPrim? || op.ResumeTask? || op.OverrideTask? || op.CloseCommit?
    ensures forall m :: m in Plan(s, op) ==> Elsewhere(m, c, s.reg.procs[c].tasks)
  {
    hide Core, LiveTasks, LivePrims;
    QuietTasksAreLive(w, s, c);
  }

  /** No allowed call has a step on the tasks or the primitive of a quiet process. */
  lemma PlanElsewhere(w: World, s: State, op: Op, c: Process)
    requires Inv(w, s) && Quiet(s, c) && Legal(w, s, op) && Allowed(s, op, c)
    ensures forall m :: m in Plan(s, op) ==> Elsewhere(m, c, s.reg.procs[c].tasks)
  {
    hide Core, RunActiveBut, LiveTasks, LivePrims, CanStop, Compatible, Ok, Assignable, UnregisterPlan, StopPlan, WakeUp, NoDup, Registered;
    match op
    case UnregisterTask(h, next) => UnregisterElsewhere(w, s, h, next, c);
    case PauseProcess(c') => PauseElsewhere(w, s, c', c);
    case ResumeProcess(c') => StoppedOfCore(w, s, c'.prim); ResumesElsewhere(w, s, c'.prim, c);
    case UnregisterPrim(p) => UnregisterPrimElsewhere(w, s, p, c);
    case StopThread(p, h, next) => StopPlanElsewhere(w, s, p, h, next, c);
    case MutexLock(p, h, next) =>
      if Owners(s, p) != 0 { StopPlanElsewhere(w, s, p, h, next, c); }
    case SemTake(p, limit, h, next) =>
      if Owners(s, p) == limit { StopPlanElsewhere(w, s, p, h, next, c); }
    case MutexUnlock(p, h) =>
      if Overridden(s, p) != null && Current(s, h) == Overridden(s, p) { WakeUpElsewhere(w, s, p, Current(s, h), c); }
    case SemRelease(p, h) => CompatibleTask(s, p, Current(s, h)); WakeUpElsewhere(w, s, p, Current(s, h), c);
    case TakeOwnership(_, _) =>
    case ReleaseOwnership(_, _) =>
    case UnoverrideTask(_) =>
    case OpenCommit =>
    case MutexLockNb(_, _) =>
    case SemTakeNb(_, _, _) =>
    case _ => SimpleElsewhere(w, s, op, c);
  }

  lemma UnregisterPrimElsewhere(w: World, s: State, p: Prim, c: Process)
    requires Core(w, s) && Quiet(s, c) && Legal(w, s, UnregisterPrim(p)) && Allowed(s, UnregisterPrim(p), c)
    ensures forall m :: m in Plan(s, UnregisterPrim(p)) ==> Elsewhere(m, c, s.reg.procs[c].tasks)
  {
    hide Core, LivePrims;
    ResumesElsewhere(w, s, p, c);
  }

  lemma CompatibleTask(s: State, p: Prim, t: Task?)
    requires Compatible(s, p, t)
    ensures t != null
  {
  }

  lemma QuietTasksAreLive(w: World, s: State, c: Process)
    requires Core(w, s) && Quiet(s, c)
    ensures forall t :: t in s.reg.procs[c].tasks ==> LiveTask(s, t) && t in s.reg.tasks && s.reg.tasks[t] == c && t in s.stop.tasks
  {
    hide Core, LiveTasks, LivePrims;
    TasksOfProcess(w, s, c);
  }

  /** An allowed call leaves a quiet process as it is. */
  lemma CallKeepsFrozen(w: World, s: State, op: Op, c: Process)
    requires Inv(w, s) && Quiet(s, c) && Legal(w, s, op) && Allowed(s, op, c)
    ensures Frozen(s, Step(s, op), c) && Quiet(Step(s, op), c)
  {
    PlanElsewhere(w, s, op, c);
    PlanOk(w, s, op);
    hide Core, AllOk, RunActiveBut, Legal, Plan, Registered, Elsewhere;
    FrozenSteps(w, s, Plan(s, op), c);
  }

  // ------------------------------------------------------ pause and resume

  /** What a pause of `c` does to the tasks of `c`. */
  ghost predicate Paused(s: State, s': State, c: Process)
    requires Registered(s, c)
  {
    && Quiet(s', c)
    && s'.reg.procs[c].tasks == s.reg.procs[c].tasks
    && (forall t :: t in s.reg.procs[c].tasks ==>
          && t in s.stop.tasks
          && s'.stop.tasks[t] == if s.stop.tasks[t].status == Active then TaskStop(Stopped, c.prim) else s.stop.tasks[t])
    && s'.stop.prims[c.prim].stopped == s.stop.prims[c.prim].stopped + Pausable(s, c)
  }

  lemma AfterPause(s: State, s1: State, c: Process)
    requires Registered(s, c) && Halted(s, s1, c.prim, Pausable(s, c))
    requires forall t :: t in s.reg.procs[c].tasks ==>
               && t in s.stop.tasks && (s.stop.tasks[t].status == Active || s.stop.tasks[t].status == Stopped)
               && (t in Pausable(s, c) <==> s.stop.tasks[t].status == Active)
    ensures Paused(s, Apply(s1, Micro.SetStatus(c, Stopped)), c)
  {
    hide LivePrims, Pausable;
    var s2 := Apply(s1, Micro.SetStatus(c, Stopped));
    assert LivePrims(s2.reg) == LivePrims(s.reg) by {
      StatusKeepsPrims(s.reg, c, Stopped);
    }
  }

  lemma StatusKeepsPrims(g: Registry, c: Process, status: Status)
    requires c in g.procs
    ensures LivePrims(g.(procs := g.procs[c := g.procs[c].(status := status)])) == LivePrims(g)
  {
  }

  lemma PausableAreActive(s: State, c: Process)
    ensures forall t :: t in Pausable(s, c) ==> t in s.stop.tasks && s.stop.tasks[t].status == Active
  {
    ActiveOfFacts(s.stop, if c in s.reg.procs then s.reg.procs[c].tasks else []);
  }

  /** A pause stops exactly the active tasks of the process, through its primitive. */
  lemma PauseEffect(w: World, s: State, c: Process)
    requires Core(w, s) && Legal(w, s, PauseProcess(c))
    ensures Registered(s, c) && Paused(s, Step(s, PauseProcess(c)), c)
  {
    hide Core, Ok, AllOk, Apply, Plan, LivePrims, LiveTasks, Pausable, NoDup, Halted, Paused;
    StoppedOfCore(w, s, c.prim);
    PauseOk(w, s, c);
    PauseIsPausable(s, c);
    var s1 := ApplyAll(s, Stops(c.prim, Pausable(s, c)));
    ApplyAllConcat(s, Stops(c.prim, Pausable(s, c)), [Micro.SetStatus(c, Stopped)]);
    OneStep(w, s1, Micro.SetStatus(c, Stopped));
    PauseStatus(w, s, c);
    AfterPause(s, s1, c);
  }

  lemma PauseStatus(w: World, s: State, c: Process)
    requires Core(w, s) && Legal(w, s, PauseProcess(c))
    ensures forall t :: t in s.reg.procs[c].tasks ==>
              && t in s.stop.tasks && (s.stop.tasks[t].status == Active || s.stop.tasks[t].status == Stopped)
              && (t in Pausable(s, c) <==> s.stop.tasks[t].status == Active)
  {
    hide Core, LivePrims, LiveTasks, Pausable, NoDup;
    TasksOfProcess(w, s, c);
    PausableFacts(w, s, c);
    PausableAreActive(s, c);
    forall t | t in s.reg.procs[c].tasks
      ensures t in s.stop.tasks && (s.stop.tasks[t].status == Active || s.stop.tasks[t].status == Stopped)
    {
      StatusOfLive(w, s, t);
    }
  }

  /** Resuming a process resumes exactly the tasks its primitive stops. */
  lemma ResumeEffect(w: World, s: State, c: Process)
    requires Core(w, s) && Legal(w, s, ResumeProcess(c))
    ensures var s' := Step(s, ResumeProcess(c));
            && s'.stop.tasks.Keys == s.stop.tasks.Keys
            && forall t :: t in s.stop.tasks ==> s'.stop.tasks[t] == if t in Waiting(s, c.prim) then TaskStop(Active, null) else s.stop.tasks[t]
  {
    hide Core, AllOk, LivePrims, LiveTasks, NoDup;
    ResumeProcessOk(w, s, c);
    hide Ok, Legal, Walk;
    ApplyAllConcat(s, Resumes(Waiting(s, c.prim)), [Micro.SetStatus(c, Active)]);
    OneStep(w, ApplyAll(s, Resumes(Waiting(s, c.prim))), Micro.SetStatus(c, Active));
  }

  /** The calls of a run between a pause of `c` at its start and call `n`. */
  ghost predicate PausedRun(w: World, ss: seq<State>, ops: seq<Op>, c: Process, n: nat) {
    && IsRun(w, ss, ops) && Inv(w, ss[0]) && 0 < n <= |ops| && ops[0] == PauseProcess(c)
    && forall i :: 0 < i < n ==> Allowed(ss[i], ops[i], c)
  }

  /** A paused process is quiet, and frozen, until it is resumed. */
  lemma {:induction false} PausedStaysFrozen(w: World, ss: seq<State>, ops: seq<Op>, c: Process, n: nat)
    requires PausedRun(w, ss, ops, c, n)
    ensures Registered(ss[0], c) && Paused(ss[0], ss[1], c)
    ensures Registered(ss[1], c) && Frozen(ss[1], ss[n], c) && Quiet(ss[n], c) && Inv(w, ss[n])
    decreases n
  {
    hide Inv, Legal, Step, Frozen, Registered, Allowed;
    RunKeepsInv(w, ss, ops, n);
    if n == 1 {
      PauseRunStart(w, ss[0], c);
    } else {
      PausedStaysFrozen(w, ss, ops, c, n - 1);
      CallKeepsFrozen(w, ss[n - 1], ops[n - 1], c);
      FrozenChain(ss[1], ss[n - 1], ss[n], c);
    }
  }

  lemma PauseRunStart(w: World, s: State, c: Process)
    requires Inv(w, s) && Legal(w, s, PauseProcess(c))
    ensures Registered(s, c) && Paused(s, Step(s, PauseProcess(c)), c)
    ensures Registered(Step(s, PauseProcess(c)), c) && Frozen(Step(s, PauseProcess(c)), Step(s, PauseProcess(c)), c)
  {
    hide Core, Legal, Registered, Pausable;
    PauseEffect(w, s, c);
    FrozenSelf(Step(s, PauseProcess(c)), c);
  }

  /** While a process is paused, none of its tasks is active. */
  lemma PausedStaysStopped(w: World, ss: seq<State>, ops: seq<Op>, c: Process, n: nat, t: Task)
    requires PausedRun(w, ss, ops, c, n) && LiveTask(ss[n], t) && t in ss[n].reg.tasks && ss[n].reg.tasks[t] == c
    ensures t in ss[n].stop.tasks && ss[n].stop.tasks[t].status == Stopped
  {
    PausedStaysFrozen(w, ss, ops, c, n);
    hide PausedRun, Core, LiveTasks, RunActiveBut, Frozen, Paused;
    TasksOfProcess(w, ss[n], c);
  }

  /** Pausing a process and resuming it, with any allowed calls in between,
    * restores the status and the stopper of each of its tasks. Only tasks that
    * its own primitive stopped before the pause end up active instead. */
  lemma ResumeRestores(w: World, ss: seq<State>, ops: seq<Op>, c: Process, n: nat, t: Task)
    requires PausedRun(w, ss, ops, c, n) && n < |ops| && ops[n] == ResumeProcess(c)
    requires LiveTask(ss[0], t) && t in ss[0].reg.tasks && ss[0].reg.tasks[t] == c
    ensures t in ss[0].stop.tasks && t in ss[n + 1].stop.tasks
    ensures ss[n + 1].stop.tasks[t] == if ss[0].stop.tasks[t].stopper == c.prim then TaskStop(Active, null) else ss[0].stop.tasks[t]
  {
    hide Inv, Core, LiveTasks, LivePrims, RunActiveBut, Legal, Step, Allowed;
    PausedStaysFrozen(w, ss, ops, c, n);
    InvIsCore(w, ss[0]);
    InvIsCore(w, ss[n]);
    TasksOfProcess(w, ss[0], c);
    ResumeEffect(w, ss[n], c);
    PausableMembers(w, ss[0], c);
    StatusOfLive(w, ss[0], t);
    WaitingIffStopper(w, ss[0], c.prim, t);
  }

  /** A pause and a resume restore the process exactly if and only if its
    * primitive stopped no task before the pause. */
  lemma RestoredIff(w: World, ss: seq<State>, ops: seq<Op>, c: Process, n: nat)
    requires PausedRun(w, ss, ops, c, n) && n < |ops| < |ss| && ops[n] == ResumeProcess(c)
    ensures (forall t :: LiveTask(ss[0], t) && t in ss[0].reg.tasks && ss[0].reg.tasks[t] == c ==>
               t in ss[0].stop.tasks && t in ss[n + 1].stop.tasks && ss[n + 1].stop.tasks[t] == ss[0].stop.tasks[t])
            <==> Waiting(ss[0], c.prim) == []
  {
    hide PausedRun, Inv, Core, LiveTasks, LivePrims, NoDup;
    PausedStart(w, ss, ops, c, n);
    var s := ss[0];
    forall t | LiveTask(s, t) && t in s.reg.tasks && s.reg.tasks[t] == c
      ensures t in s.stop.tasks && t in ss[n + 1].stop.tasks
      ensures ss[n + 1].stop.tasks[t] == if s.stop.tasks[t].stopper == c.prim then TaskStop(Active, null) else s.stop.tasks[t]
      ensures s.stop.tasks[t].stopper == c.prim <==> t in Waiting(s, c.prim)
    {
      ResumeRestores(w, ss, ops, c, n, t);
      WaitingIffStopper(w, s, c.prim, t);
    }
    if Waiting(s, c.prim) != [] {
      var t := Waiting(s, c.prim)[0];
      StoppedOfCore(w, s, c.prim);
      SameProcessOf(w, s, t);
      assert s.stop.tasks[t] == TaskStop(Stopped, c.prim);
    }
  }

  /** A concrete failure: `t` was stopped by the primitive of its process before
    * the pause; after the pause and the resume it is active. */
  lemma StoppedTaskIsResumed(t: Task, u: Task, c: Process)
    requires t != u
    ensures var w, s := World({t, u}, {c.prim}, {c}, {}), HalfStopped(t, u, c);
            var s1 := Step(s, PauseProcess(c));
            var s2 := Step(s1, ResumeProcess(c));
            && Inv(w, s) && Legal(w, s, PauseProcess(c)) && Legal(w, s1, ResumeProcess(c)) && Waiting(s, c.prim) == [t]
            && s.stop.tasks[t] == TaskStop(Stopped, c.prim)
            && t in s2.stop.tasks && s2.stop.tasks[t] == TaskStop(Active, null)
            && u in s2.stop.tasks && s2.stop.tasks[u] == s.stop.tasks[u] == TaskStop(Active, null)
  {
    hide Core, RunActiveBut, LiveTasks, LivePrims, Step;
    var w, s := World({t, u}, {c.prim}, {c}, {}), HalfStopped(t, u, c);
    HalfStoppedInv(t, u, c);
    PauseThenResume(w, s, c);
    var s1 := Step(s, PauseProcess(c));
    var ss, ops := [s, s1, Step(s1, ResumeProcess(c))], [PauseProcess(c), ResumeProcess(c)];
    ResumeRestores(w, ss, ops, c, 1, t);
    ResumeRestores(w, ss, ops, c, 1, u);
  }

  /** A process just paused may be resumed. */
  lemma PauseThenResume(w: World, s: State, c: Process)
    requires Inv(w, s) && Legal(w, s, PauseProcess(c))
    ensures Legal(w, Step(s, PauseProcess(c)), ResumeProcess(c))
  {
    hide Core, LiveTasks, LivePrims, Step;
    PauseEffect(w, s, c);
    StaysCommitting(s, Plan(s, PauseProcess(c)));
    PauseIsPlan(s, c);
  }

  lemma PauseIsPlan(s: State, c: Process)
    ensures Step(s, PauseProcess(c)) == ApplyAll(s, Plan(s, PauseProcess(c)))
  {
  }

  lemma PausedStart(w: World, ss: seq<State>, ops: seq<Op>, c: Process, n: nat)
    requires PausedRun(w, ss, ops, c, n)
    ensures |ss| == |ops| + 1 && Core(w, ss[0]) && LivePrim(ss[0], c.prim) && c.prim in ss[0].reg.prims && ss[0].reg.prims[c.prim] == c
  {
    hide Core, LiveTasks, RunActiveBut;
  }

  lemma PausableMembers(w: World, s: State, c: Process)
    requires Core(w, s) && Legal(w, s, PauseProcess(c))
    ensures forall t :: t in s.reg.procs[c].tasks ==> t in s.stop.tasks && (t in Pausable(s, c) <==> s.stop.tasks[t].status == Active)
  {
    hide Core, Pausable;
    PauseStatus(w, s, c);
  }

  lemma WaitingIffStopper(w: World, s: State, p: Prim, t: Task)
    requires Core(w, s) && LiveTask(s, t) && LivePrim(s, p)
    ensures t in s.stop.tasks && (t in Waiting(s, p) <==> s.stop.tasks[t].stopper == p)
  {
    hide Core, LiveTasks, LivePrims, NoDup;
    StoppedOfCore(w, s, p);
    StoppedAreWaiting(w, s, p);
  }
}
