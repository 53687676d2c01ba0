/** The public functions of src/sched/sched.c made of several elementary
  * updates. What the policy hooks decide is a parameter. */
module Functions {
  import opened Lists
  import opened Objects
  import opened Marking
  import opened Model
  import opened Invariant
  import opened Operations
  import opened Plans
  import opened Calls
  import opened Runs
  import opened Heap

  /** A call whose plan is one step is that step. */
  lemma SingleStep(w: World, s: State, op: Op)
    requires Core(w, s) && Legal(w, s, op) && |Plan(s, op)| == 1
    ensures Ok(w, s, Plan(s, op)[0]) && Step(s, op) == Apply(s, Plan(s, op)[0])
  {
    hide Core, Ok, Legal, Plan, Apply;
    PlanOk(w, s, op);
    OneStep(w, s, Plan(s, op)[0]);
    assert Plan(s, op) == [Plan(s, op)[0]];
  }

  /** The `i`-th step of a legal plan is legal, and takes the state of the steps
    * before it to the next. */
  lemma PlanStep(w: World, s: State, ms: seq<Micro>, i: nat)
    requires AllOk(w, s, ms) && i < |ms|
    ensures Ok(w, ApplyAll(s, ms[..i]), ms[i])
    ensures ApplyAll(s, ms[..i + 1]) == Apply(ApplyAll(s, ms[..i]), ms[i])
  {
    hide Ok, Apply;
    assert ms == ms[..i + 1] + ms[i + 1..];
    AllOkSplit(w, s, ms[..i + 1], ms[i + 1..]);
    assert ms[..i + 1][..i] == ms[..i];
  }

  lemma PlanEnds(s: State, ms: seq<Micro>)
    ensures ApplyAll(s, ms[..0]) == s && ms[..|ms|] == ms
  {
  }

  lemma StepIsPlan(s: State, op: Op)
    ensures Step(s, op) == ApplyAll(s, Plan(s, op))
  {
  }

  lemma ThreadKnown(w: World, s: State, h: Thread)
    requires Core(w, s) && h in s.run.list
    ensures h in w.threads && h in s.run.threads && (s.run.threads[h].task != null ==> s.run.threads[h].task in w.tasks)
  {
    hide Core;
    KeysOfCore(w, s);
    ThreadTasksAreDetachable(w, s, h);
  }

  /** primitive_stop_thread; the assignment hook picks `next`. */
  method StopThread(sc: Scheduler, prim: Prim, thread: Thread, next: Task?)
    requires sc.Valid() && Legal(sc.w, sc.S(), Op.StopThread(prim, thread, next))
    modifies sc, sc.w.tasks, sc.w.prims, sc.w.threads
    ensures sc.Valid() && sc.S() == Step(old(sc.S()), Op.StopThread(prim, thread, next))
  {
    hide Core, Ok, Apply, Scheduler.Tied, AllOk, ApplyAll;
    ghost var s := sc.S();
    StopThreadFacts(sc.w, s, prim, thread, next);
    hide Legal, Plan;
    sc.ThreadRow(thread);
    var task := thread.task;
    sc.StopTask(prim, task);
    sc.AssignTask(thread, next);
  }

  lemma StopThreadFacts(w: World, s: State, p: Prim, h: Thread, next: Task?)
    requires Core(w, s) && Legal(w, s, Op.StopThread(p, h, next))
    ensures h in w.threads && h in s.run.threads
    ensures var t := s.run.threads[h].task;
            && t != null && Ok(w, s, Micro.Stop(p, t)) && Ok(w, Apply(s, Micro.Stop(p, t)), Micro.Assign(h, next))
            && Step(s, Op.StopThread(p, h, next)) == Apply(Apply(s, Micro.Stop(p, t)), Micro.Assign(h, next))
  {
    hide Core, Ok, Apply, AllOk, ApplyAll, LiveTasks, LivePrims;
    ThreadKnown(w, s, h);
    PlanOk(w, s, Op.StopThread(p, h, next));
    TwoSteps(w, s, Micro.Stop(p, s.run.threads[h].task), Micro.Assign(h, next));
  }

  /** sched_register_process. */
  method RegisterProcess(sc: Scheduler, prc: Process)
    requires sc.Valid() && Legal(sc.w, sc.S(), Op.RegisterProcess(prc))
    modifies sc, sc.w.prims, sc.w.procs
    ensures sc.Valid() && sc.S() == Step(old(sc.S()), Op.RegisterProcess(prc))
  {
    hide Core, Ok, Apply, Scheduler.Tied, AllOk, ApplyAll, Legal;
    PlanOk(sc.w, sc.S(), Op.RegisterProcess(prc));
    TwoSteps(sc.w, sc.S(), Micro.AddProcess(prc), Micro.AddPrim(prc, prc.prim));
    sc.AddProcess(prc);
    sc.RegisterPrim(prc, prc.prim);
  }

  /** sched_unregister_thread. */
  method UnregisterThread(sc: Scheduler, thread: Thread)
    requires sc.Valid() && Legal(sc.w, sc.S(), Op.UnregisterThread(thread))
    modifies sc, sc.w.tasks, sc.w.threads
    ensures sc.Valid() && sc.S() == Step(old(sc.S()), Op.UnregisterThread(thread))
  {
    hide Core, Ok, Apply, Scheduler.Tied, AllOk, ApplyAll;
    ghost var s := sc.S();
    ghost var op := Op.UnregisterThread(thread);
    ghost var ms := Plan(s, op);
    PlanOk(sc.w, s, op);
    ThreadKnown(sc.w, s, thread);
    sc.ThreadRow(thread);
    PlanEnds(s, ms);
    hide Legal;
    var ts := thread.history;
    assert |ms| == |ts| + 1 && ms[|ts|] == Micro.DropThread(thread) && forall i :: 0 <= i < |ts| ==> ms[i] == Micro.Detach(ts[i]);
    hide Plan;
    var i := 0;
    while i < |ts|
      invariant 0 <= i <= |ts| && sc.Valid() && sc.S() == ApplyAll(s, ms[..i])
    {
      PlanStep(sc.w, s, ms, i);
      sc.DetachTask(ts[i]);
      i := i + 1;
    }
    PlanStep(sc.w, s, ms, i);
    sc.DropThread(thread);
  }

  /** process_unregister_prim. */
  method UnregisterPrim(sc: Scheduler, prim: Prim) returns (err: nat)
    requires sc.Valid() && Legal(sc.w, sc.S(), Op.UnregisterPrim(prim))
    modifies sc, sc.w.tasks, sc.w.prims, sc.w.procs
    ensures sc.Valid() && sc.S() == Step(old(sc.S()), Op.UnregisterPrim(prim))
    ensures err == UnregisterCode(old(sc.S()), Op.UnregisterPrim(prim))
  {
    hide Core, Ok, Apply, Scheduler.Tied, AllOk, ApplyAll, Legal, Plan, Step, Owners;
    ghost var s := sc.S();
    ghost var op := Op.UnregisterPrim(prim);
    ghost var ms := Plan(s, op);
    PlanOk(sc.w, s, op);
    PrimKnown(sc.w, s, prim);
    sc.PrimRow(prim);
    PlanEnds(s, ms);
    StepIsPlan(s, op);
    UnregisterPrimShape(s, prim);
    var ts := prim.stopped;
    var i := 0;
    while i < |ts|
      invariant 0 <= i <= |ts| && sc.Valid() && sc.S() == ApplyAll(s, ms[..i])
    {
      PlanStep(sc.w, s, ms, i);
      sc.ResumeTask(ts[i]);
      i := i + 1;
    }
    PlanStep(sc.w, s, ms, i);
    UnlinkFacts(sc.w, sc.S(), prim);
    sc.PrimRow(prim);
    if prim.overridden != null {
      sc.Unoverride(prim);
    }
    PlanStep(sc.w, s, ms, i + 1);
    sc.DropPrim(prim);
    sc.PrimRow(prim);
    OwnersIs(sc.S(), prim);
    UnregisterKeepsOwners(s, op);
    err := if prim.nbOwningTasks != 0 then 1 else 0;
  }

  /** The counters a result is computed from are those at the start of the call. */
  lemma UnregisterKeepsOwners(s: State, op: Op)
    requires op.UnregisterTask? || op.UnregisterPrim?
    ensures Step(s, op).own == s.own
    ensures op.UnregisterTask? ==> UnregisterCode(s, op) == if Owned(Step(s, op), Current(s, op.h)) != 0 then 1 else 0
    ensures op.UnregisterPrim? ==> UnregisterCode(s, op) == if Owners(Step(s, op), op.p) != 0 then 1 else 0
  {
    assert forall m :: m in Plan(s, op) ==> KeepsCounters(m);
    hide Plan;
    CountersStay(s, Plan(s, op));
  }

  lemma UnregisterPrimShape(s: State, p: Prim)
    requires p in s.stop.prims
    ensures var ts, ms := s.stop.prims[p].stopped, Plan(s, Op.UnregisterPrim(p));
            && |ms| == |ts| + 2 && ms[|ts|] == Micro.Unlink(p) && ms[|ts| + 1] == Micro.DropPrim(p)
            && forall i :: 0 <= i < |ts| ==> ms[i] == Micro.Resume(ts[i])
  {
  }

  lemma OwnersIs(s: State, p: Prim)
    requires p in s.own.prims
    ensures Owners(s, p) == s.own.prims[p]
  {
  }

  lemma PrimKnown(w: World, s: State, p: Prim)
    requires Core(w, s) && Legal(w, s, Op.UnregisterPrim(p))
    ensures p in w.prims
  {
    hide Core, LivePrims;
    ProcessOfLive(w, s);
  }

  lemma UnregisterReady(sc: Scheduler, thread: Thread, next: Task?)
    requires sc.Valid() && Legal(sc.w, sc.S(), Op.UnregisterTask(thread, next))
    ensures var s, op, task := sc.S(), Op.UnregisterTask(thread, next), thread.task;
            && task != null && task in sc.w.tasks && task == Current(s, thread) && task in s.stop.tasks && task in s.over.tasks
            && AllOk(sc.w, s, Plan(s, op)) && UnregisterShape(s, Plan(s, op), thread, task, next) && Step(s, op) == ApplyAll(s, Plan(s, op))
  {
    hide Core, AllOk, Scheduler.Tied, Plan, UnregisterShape, ApplyAll, Legal;
    PlanOk(sc.w, sc.S(), Op.UnregisterTask(thread, next));
    UnregisterFacts(sc.w, sc.S(), thread, next);
    sc.ThreadRow(thread);
  }

  lemma OverridersRow(sc: Scheduler, task: Task)
    requires sc.Valid() && task in sc.w.tasks
    ensures task in sc.S().over.tasks && sc.S().over.tasks[task].overriders == task.overriders
  {
    hide Core, Scheduler.Tied;
    sc.TaskRow(task);
  }

  /** The task is resumed first if it is stopped. */
  method ResumeIfStopped(sc: Scheduler, task: Task, ghost s: State, ghost ms: seq<Micro>) returns (ghost k: nat)
    requires sc.Valid() && AllOk(sc.w, s, ms) && sc.S() == s && task in sc.w.tasks && task in s.stop.tasks
    requires s.stop.tasks[task].status == Stopped ==> ms != [] && ms[0] == Micro.Resume(task)
    modifies sc, sc.w.tasks, sc.w.prims
    ensures sc.Valid() && sc.S().over == s.over
    ensures k == (if s.stop.tasks[task].status == Stopped then 1 else 0) && k <= |ms| && sc.S() == ApplyAll(s, ms[..k])
  {
    hide Core, Ok, Apply, Scheduler.Tied, AllOk, ApplyAll;
    PlanEnds(s, ms);
    sc.TaskRow(task);
    k := 0;
    if task.status == Stopped {
      PlanStep(sc.w, s, ms, 0);
      ResumeKeepsOver(s, task);
      sc.ResumeTask(task);
      k := 1;
    }
  }

  /** The loop over the overriders of a task. */
  method UnoverrideAll(sc: Scheduler, task: Task, ghost s: State, ghost ms: seq<Micro>, ghost k: nat)
    requires sc.Valid() && AllOk(sc.w, s, ms) && k + |task.overriders| <= |ms| && sc.S() == ApplyAll(s, ms[..k])
    requires forall i :: 0 <= i < |task.overriders| ==> ms[k + i] == Micro.Unlink(task.overriders[i])
    modifies sc, sc.w.tasks, sc.w.prims
    ensures sc.Valid() && sc.S() == ApplyAll(s, ms[..k + old(|task.overriders|)])
  {
    hide Core, Ok, Apply, Scheduler.Tied, AllOk, ApplyAll;
    var ps := task.overriders;
    var i := 0;
    while i < |ps|
      invariant 0 <= i <= |ps| && sc.Valid() && sc.S() == ApplyAll(s, ms[..k + i])
    {
      PlanStep(sc.w, s, ms, k + i);
      sc.Unoverride(ps[i]);
      i := i + 1;
    }
  }

  /** process_unregister_task; the assignment hook picks `next`. */
  method UnregisterTask(sc: Scheduler, thread: Thread, next: Task?) returns (err: nat)
    requires sc.Valid() && Legal(sc.w, sc.S(), Op.UnregisterTask(thread, next))
    modifies sc, sc.w.tasks, sc.w.prims, sc.w.procs, sc.w.threads
    ensures sc.Valid() && sc.S() == Step(old(sc.S()), Op.UnregisterTask(thread, next))
    ensures err == UnregisterCode(old(sc.S()), Op.UnregisterTask(thread, next))
  {
    hide Scheduler.Valid, AllOk, ApplyAll, Legal, Plan, Step, Current;
    ghost var s := sc.S();
    ghost var ms := Plan(s, Op.UnregisterTask(thread, next));
    UnregisterReady(sc, thread, next);
    var task := thread.task;
    ghost var k := ResumeIfStopped(sc, task, s, ms);
    OverridersRow(sc, task);
    ghost var n := |task.overriders|;
    UnoverrideAll(sc, task, s, ms, k);
    err := RemoveTask(sc, thread, task, next, s, ms, k + n);
    UnregisterKeepsOwners(s, Op.UnregisterTask(thread, next));
  }

  /** The task leaves its thread, its process and the active list, and the thread
    * gets another one. */
  method RemoveTask(sc: Scheduler, thread: Thread, task: Task, next: Task?, ghost s: State, ghost ms: seq<Micro>, ghost k: nat)
    returns (err: nat)
    requires sc.Valid() && AllOk(sc.w, s, ms) && |ms| == k + 3 && sc.S() == ApplyAll(s, ms[..k])
    requires ms[k] == Micro.Detach(task) && ms[k + 1] == Micro.DropTask(task) && ms[k + 2] == Micro.Assign(thread, next)
    requires task in sc.w.tasks
    modifies sc, sc.w.tasks, sc.w.procs, sc.w.threads
    ensures sc.Valid() && sc.S() == ApplyAll(s, ms)
    ensures err == if Owned(sc.S(), task) != 0 then 1 else 0
  {
    hide Core, Ok, Apply, Scheduler.Tied, AllOk, ApplyAll;
    PlanStep(sc.w, s, ms, k);
    sc.DetachTask(task);
    PlanStep(sc.w, s, ms, k + 1);
    sc.DropTask(task);
    PlanStep(sc.w, s, ms, k + 2);
    sc.AssignTask(thread, next);
    PlanEnds(s, ms);
    sc.TaskRow(task);
    err := if task.nbOwnedPrimitives != 0 then 1 else 0;
  }

  /** Where the steps of an unregistration are in its plan. */
  ghost predicate UnregisterShape(s: State, ms: seq<Micro>, h: Thread, t: Task, next: Task?)
    requires t in s.stop.tasks && t in s.over.tasks
  {
    var k := if s.stop.tasks[t].status == Stopped then 1 else 0;
    var ps := s.over.tasks[t].overriders;
    && |ms| == k + |ps| + 3
    && (k == 1 ==> ms[0] == Micro.Resume(t))
    && (forall i :: 0 <= i < |ps| ==> ms[k + i] == Micro.Unlink(ps[i]))
    && ms[k + |ps|] == Micro.Detach(t) && ms[k + |ps| + 1] == Micro.DropTask(t) && ms[k + |ps| + 2] == Micro.Assign(h, next)
  }

  lemma UnregisterPlanShape(s: State, h: Thread, t: Task, next: Task?)
    requires Current(s, h) == t && t in s.stop.tasks && t in s.over.tasks
    ensures UnregisterShape(s, Plan(s, Op.UnregisterTask(h, next)), h, t, next)
  {
  }

  lemma UnregisterFacts(w: World, s: State, h: Thread, next: Task?)
    requires Core(w, s) && Legal(w, s, Op.UnregisterTask(h, next))
    ensures h in w.threads && h in s.run.threads
    ensures var t := s.run.threads[h].task;
            && t != null && t in w.tasks && t in s.stop.tasks && t in s.over.tasks
            && UnregisterShape(s, Plan(s, Op.UnregisterTask(h, next)), h, t, next)
  {
    hide Core, LiveTasks, Plan, UnregisterShape;
    ThreadKnown(w, s, h);
    var t := s.run.threads[h].task;
    StatusOfLive(w, s, t);
    OverridersKnown(w, s, t);
    UnregisterPlanShape(s, h, t, next);
  }

  lemma ResumeKeepsOver(s: State, t: Task)
    ensures Apply(s, Micro.Resume(t)).over == s.over
  {
  }

  /** sched_pause_process. */
  method PauseProcess(sc: Scheduler, prc: Process)
    requires sc.Valid() && Legal(sc.w, sc.S(), Op.PauseProcess(prc))
    modifies sc, sc.w.tasks, sc.w.prims, sc.w.procs
    ensures sc.Valid() && sc.S() == Step(old(sc.S()), Op.PauseProcess(prc))
  {
    hide Core, Ok, Apply, Scheduler.Tied, AllOk, ApplyAll, Legal, Plan, ActiveOf, Stops, Step;
    ghost var s := sc.S();
    PauseStart(sc.w, s, prc);
    sc.ProcessRow(prc);
    var ts := prc.tasks;
    assert ts[..0] == [];
    var i := 0;
    while i < |ts|
      invariant 0 <= i <= |ts| && sc.Valid() && sc.S() == ApplyAll(s, Stops(prc.prim, ActiveOf(s.stop, ts[..i])))
    {
      PauseRound(sc.w, s, prc, i);
      sc.TaskRow(ts[i]);
      if ts[i].status == Active {
        sc.StopTask(prc.prim, ts[i]);
      }
      i := i + 1;
    }
    assert ts[..|ts|] == ts;
    PauseEnd(sc.w, s, prc);
    sc.SetStatus(prc, Stopped);
  }

  lemma PauseStart(w: World, s: State, c: Process)
    requires Core(w, s) && Legal(w, s, Op.PauseProcess(c))
    ensures c in w.procs && c in s.reg.procs && forall t :: t in s.reg.procs[c].tasks ==> t in w.tasks
    ensures ApplyAll(s, Stops(c.prim, ActiveOf(s.stop, []))) == s
  {
    hide Core, LivePrims, LiveTasks;
    KeysOfCore(w, s);
    TasksOfProcess(w, s, c);
    ProcessOfLive(w, s);
  }

  /** One round of the pause loop: the task is as it was when the loop began. */
  lemma PauseRound(w: World, s: State, c: Process, i: nat)
    requires Core(w, s) && Legal(w, s, Op.PauseProcess(c)) && c in s.reg.procs && i < |s.reg.procs[c].tasks|
    ensures var ts := s.reg.procs[c].tasks;
            var s1 := ApplyAll(s, Stops(c.prim, ActiveOf(s.stop, ts[..i])));
            && ts[i] in s.stop.tasks && ts[i] in s1.stop.tasks && s1.stop.tasks[ts[i]] == s.stop.tasks[ts[i]]
            && (s.stop.tasks[ts[i]].status == Active ==> Ok(w, s1, Micro.Stop(c.prim, ts[i])))
            && ApplyAll(s, Stops(c.prim, ActiveOf(s.stop, ts[..i + 1])))
               == if s.stop.tasks[ts[i]].status == Active then Apply(s1, Micro.Stop(c.prim, ts[i])) else s1
  {
    hide Core, Ok, Legal, NoDup, Apply, Halted;
    var ts := s.reg.procs[c].tasks;
    var a := ActiveOf(s.stop, ts[..i]);
    PauseList(w, s, c, i);
    StopsFacts(w, s, c.prim, a);
    var s1 := ApplyAll(s, Stops(c.prim, a));
    HaltedOther(s, s1, c.prim, a, ts[i]);
    assert ts[..i + 1][..i] == ts[..i];
    if s.stop.tasks[ts[i]].status == Active {
      HaltOne(w, s, s1, c.prim, a, ts[i]);
      assert Stops(c.prim, a + [ts[i]]) == Stops(c.prim, a) + [Micro.Stop(c.prim, ts[i])];
      assert (Stops(c.prim, a) + [Micro.Stop(c.prim, ts[i])])[..|a|] == Stops(c.prim, a);
    } else {
      assert a + [] == a;
    }
  }

  lemma HaltedOther(s: State, s1: State, p: Prim, a: seq<Task>, t: Task)
    requires Halted(s, s1, p, a) && t !in a && t in s.stop.tasks
    ensures t in s1.stop.tasks && s1.stop.tasks[t] == s.stop.tasks[t]
  {
  }

  lemma PauseList(w: World, s: State, c: Process, i: nat)
    requires Core(w, s) && Legal(w, s, Op.PauseProcess(c)) && c in s.reg.procs && i < |s.reg.procs[c].tasks|
    ensures var ts := s.reg.procs[c].tasks;
            var a := ActiveOf(s.stop, ts[..i]);
            && NoDup(a) && ts[i] !in a && ts[i] in s.stop.tasks && c.prim in s.stop.prims
            && (forall t :: t in a ==> Ok(w, s, Micro.Stop(c.prim, t)))
            && (s.stop.tasks[ts[i]].status == Active ==> Ok(w, s, Micro.Stop(c.prim, ts[i])))
  {
    hide Core, Ok, LiveTasks, LivePrims;
    var ts := s.reg.procs[c].tasks;
    PausableFacts(w, s, c);
    TasksOfProcess(w, s, c);
    StatusOfLive(w, s, ts[i]);
    ActiveOfNoDup(s.stop, ts[..i]);
    ActiveOfFacts(s.stop, ts[..i]);
    ActiveOfFacts(s.stop, ts);
  }

  lemma PauseEnd(w: World, s: State, c: Process)
    requires Core(w, s) && Legal(w, s, Op.PauseProcess(c)) && c in s.reg.procs
    ensures var s1 := ApplyAll(s, Stops(c.prim, ActiveOf(s.stop, s.reg.procs[c].tasks)));
            Ok(w, s1, Micro.SetStatus(c, Stopped)) && Step(s, Op.PauseProcess(c)) == Apply(s1, Micro.SetStatus(c, Stopped))
  {
    hide Core, Ok, AllOk, Apply, ActiveOf, Legal;
    PlanOk(w, s, Op.PauseProcess(c));
    var a := Stops(c.prim, ActiveOf(s.stop, s.reg.procs[c].tasks));
    AllOkSplit(w, s, a, [Micro.SetStatus(c, Stopped)]);
    OneStep(w, ApplyAll(s, a), Micro.SetStatus(c, Stopped));
  }

  /** sched_resume_process. */
  method ResumeProcess(sc: Scheduler, prc: Process)
    requires sc.Valid() && Legal(sc.w, sc.S(), Op.ResumeProcess(prc))
    modifies sc, sc.w.tasks, sc.w.prims, sc.w.procs
    ensures sc.Valid() && sc.S() == Step(old(sc.S()), Op.ResumeProcess(prc))
  {
    hide Core, Ok, Apply, Scheduler.Tied, AllOk, ApplyAll, Legal, Plan, Step;
    ghost var s := sc.S();
    ghost var op := Op.ResumeProcess(prc);
    ghost var ms := Plan(s, op);
    PlanOk(sc.w, s, op);
    ResumeStart(sc.w, s, prc);
    sc.PrimRow(prc.prim);
    PlanEnds(s, ms);
    StepIsPlan(s, op);
    var ts := prc.prim.stopped;
    var i := 0;
    while i < |ts|
      invariant 0 <= i <= |ts| && sc.Valid() && sc.S() == ApplyAll(s, ms[..i])
    {
      PlanStep(sc.w, s, ms, i);
      sc.ResumeTask(ts[i]);
      i := i + 1;
    }
    PlanStep(sc.w, s, ms, i);
    sc.SetStatus(prc, Active);
  }

  lemma ResumeStart(w: World, s: State, c: Process)
    requires Core(w, s) && Legal(w, s, Op.ResumeProcess(c))
    ensures c.prim in w.prims && c.prim in s.stop.prims
    ensures var ts, ms := s.stop.prims[c.prim].stopped, Plan(s, Op.ResumeProcess(c));
            && |ms| == |ts| + 1 && ms[|ts|] == Micro.SetStatus(c, Active)
            && forall i :: 0 <= i < |ts| ==> ms[i] == Micro.Resume(ts[i])
  {
    hide Core, LivePrims;
    ProcessOfLive(w, s);
    StoppedOfCore(w, s, c.prim);
  }

  /** sched_close_commit; `cleared` and `plan` are what the scheduling and the
    * assignment hooks do. */
  method CloseCommit(sc: Scheduler, cleared: Marks, plan: seq<(Thread, Task?)>)
    requires sc.Valid() && Legal(sc.w, sc.S(), Op.CloseCommit(cleared, plan))
    modifies sc, sc.w.tasks, sc.w.threads, cleared.tasks`updated, cleared.prims`updated
    ensures sc.Valid() && sc.S() == Step(old(sc.S()), Op.CloseCommit(cleared, plan))
  {
    hide Core, Ok, Apply, Scheduler.Tied, AllOk, ApplyAll, Legal, Plan, Step;
    ghost var s := sc.S();
    ghost var op := Op.CloseCommit(cleared, plan);
    ghost var ms := Plan(s, op);
    PlanOk(sc.w, s, op);
    CloseStart(s, cleared, plan);
    PlanEnds(s, ms);
    StepIsPlan(s, op);
    PlanStep(sc.w, s, ms, 0);
    sc.EndCommit();
    PlanStep(sc.w, s, ms, 1);
    sc.ClearMarks(cleared);
    var i := 0;
    while i < |plan|
      invariant 0 <= i <= |plan| && sc.Valid() && sc.S() == ApplyAll(s, ms[..i + 2])
    {
      PlanStep(sc.w, s, ms, i + 2);
      sc.AssignTask(plan[i].0, plan[i].1);
      i := i + 1;
    }
  }

  lemma CloseStart(s: State, cleared: Marks, plan: seq<(Thread, Task?)>)
    ensures var ms := Plan(s, Op.CloseCommit(cleared, plan));
            && |ms| == |plan| + 2 && ms[0] == Micro.CloseCommit && ms[1] == Micro.ClearMarks(cleared)
            && forall i :: 0 <= i < |plan| ==> ms[i + 2] == Micro.Assign(plan[i].0, plan[i].1)
  {
  }
}
