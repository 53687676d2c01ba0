/** The plan of every legal public call is legal step by step, so every public
  * call keeps the scheduler-wide invariant. */
module Calls {
  import opened Lists
  import opened Objects
  import opened Marking
  import opened Model
  import opened Invariant
  import opened Operations
  import opened Plans

  // ------------------------------------------------------ plans are legal

  lemma OneOk(w: World, s: State, m: Micro)
    requires Ok(w, s, m)
    ensures AllOk(w, s, [m]) && ApplyAll(s, [m]) == Apply(s, m)
  {
    hide Ok, Apply;
    assert [m][..0] == [];
  }

  lemma TwoOk(w: World, s: State, m: Micro, n: Micro)
    requires Ok(w, s, m) && Ok(w, Apply(s, m), n)
    ensures AllOk(w, s, [m, n]) && ApplyAll(s, [m, n]) == Apply(Apply(s, m), n)
  {
    hide Ok, Apply;
    OneOk(w, s, m);
    AllOkPush(w, s, [m], n);
    assert [m] + [n] == [m, n];
  }

  lemma HasElement<T>(s: seq<T>)
    requires s != []
    ensures exists x :: x in s
  {
    assert s[0] in s;
  }

  lemma ThreadTasksAreDetachable(w: World, s: State, h: Thread)
    requires Core(w, s) && h in s.run.list
    ensures h in s.run.threads && NoDup(s.run.threads[h].history)
    ensures forall t :: t in s.run.threads[h].history ==> t in s.run.tasks && s.run.tasks[t].thread == h && Ok(w, s, Micro.Detach(t))
    ensures var t := s.run.threads[h].task;
            if t == null then s.run.threads[h].commit == USIZE_MAX
            else t in s.run.threads[h].history && s.run.tasks[t].commit == s.run.threads[h].commit
  {
    hide LiveTasks, LivePrims, RegistryOk, StopOk, OverOk, OwnOk, SameProcess, ClosedBut, RunnersOk, NoDup;
  }

  lemma UnregisterThreadOk(w: World, s: State, h: Thread)
    requires Core(w, s) && h in s.run.list
    ensures AllOk(w, s, Plan(s, UnregisterThread(h)))
  {
    hide Core, AllOk;
    ThreadTasksAreDetachable(w, s, h);
    var ts := s.run.threads[h].history;
    DetachesFacts(w, s, ts);
    var s1 := ApplyAll(s, Detaches(ts));
    ThreadTasksAreDetachable(w, s1, h);
    assert LostOnly(ts, s1.run.threads[h].history, ts);
    if s1.run.threads[h].history != [] {
      HasElement(s1.run.threads[h].history);
    }
    AllOkPush(w, s, Detaches(ts), Micro.DropThread(h));
  }

  lemma RegisterProcessOk(w: World, s: State, c: Process)
    requires Core(w, s) && Legal(w, s, RegisterProcess(c))
    ensures AllOk(w, s, Plan(s, RegisterProcess(c)))
  {
    hide AllOk;
    CoreParts(w, s);
    hide Core, RegistryOk;
    AddProcessRegisters(w, s.reg, c);
    hide LivePrims, LiveTasks;
    TwoOk(w, s, Micro.AddProcess(c), Micro.AddPrim(c, c.prim));
  }

  lemma StoppedOfCore(w: World, s: State, p: Prim)
    requires Core(w, s) && LivePrim(s, p)
    ensures p in s.stop.prims && NoDup(s.stop.prims[p].stopped) && p in s.over.prims && p in s.reg.prims
    ensures forall t :: t in s.stop.prims[p].stopped ==>
              LiveTask(s, t) && t in s.stop.tasks && s.stop.tasks[t] == TaskStop(Stopped, p) && Ok(w, s, Micro.Resume(t))
  {
    hide ExecOk, OwnOk, SameProcess, ClosedBut, LiveTasks, NoDup, ActivesOk, OverridersOk, RegistryOk;
  }

  lemma StoppedAreWaiting(w: World, s: State, p: Prim)
    requires Core(w, s) && LivePrim(s, p)
    ensures forall t :: LiveTask(s, t) ==> t in s.stop.tasks && (s.stop.tasks[t].stopper == p ==> t in Waiting(s, p))
  {
    hide ExecOk, OwnOk, SameProcess, ClosedBut, LiveTasks, NoDup, ActivesOk, OverOk, RegistryOk;
  }

  lemma UnregisterPrimOk(w: World, s: State, p: Prim)
    requires Core(w, s) && LivePrim(s, p)
    ensures AllOk(w, s, Plan(s, UnregisterPrim(p)))
  {
    hide Core, AllOk, LiveTasks, LivePrims;
    StoppedOfCore(w, s, p);
    var ts := Waiting(s, p);
    ResumesFacts(w, s, ts);
    var s1 := ApplyAll(s, Resumes(ts));
    StoppedOfCore(w, s1, p);
    StoppedAreWaiting(w, s, p);
    if s1.stop.prims[p].stopped != [] {
      HasElement(s1.stop.prims[p].stopped);
    }
    AllOkPush(w, s, Resumes(ts), Micro.Unlink(p));
    OverriddenOfCore(w, s1, p);
    AllOkPush(w, s, Resumes(ts) + [Micro.Unlink(p)], Micro.DropPrim(p));
    assert Resumes(ts) + [Micro.Unlink(p)] + [Micro.DropPrim(p)] == Plan(s, UnregisterPrim(p));
  }

  lemma OverrideOk(w: World, s: State, p: Prim, t: Task)
    requires Core(w, s) && Compatible(s, p, t)
    ensures AllOk(w, s, [Micro.Unlink(p), Micro.Link(p, t)])
  {
    hide Core, AllOk, LiveTasks, LivePrims;
    OverriddenOfCore(w, s, p);
    TwoOk(w, s, Micro.Unlink(p), Micro.Link(p, t));
  }

  lemma LockOk(w: World, s: State, p: Prim, t: Task)
    requires Core(w, s) && Compatible(s, p, t)
    ensures AllOk(w, s, [Micro.Take(p, t), Micro.Unlink(p), Micro.Link(p, t)])
  {
    hide AllOk, LiveTasks, LivePrims;
    LiveObjectsExist(w, s);
    hide Core;
    OneOk(w, s, Micro.Take(p, t));
    StepKeepsCore(w, s, Micro.Take(p, t));
    OverrideOk(w, Apply(s, Micro.Take(p, t)), p, t);
    AllOkConcat(w, s, [Micro.Take(p, t)], [Micro.Unlink(p), Micro.Link(p, t)]);
    assert [Micro.Take(p, t)] + [Micro.Unlink(p), Micro.Link(p, t)] == [Micro.Take(p, t), Micro.Unlink(p), Micro.Link(p, t)];
  }

  lemma LiveObjectsExist(w: World, s: State)
    requires Core(w, s)
    ensures LiveTasks(s.reg) <= w.tasks && LivePrims(s.reg) <= w.prims && s.own.tasks.Keys == w.tasks && s.own.prims.Keys == w.prims
  {
    hide StopOk, OverOk, ExecOk, SameProcess, ClosedBut, NoDup, ProcessOk;
  }

  lemma StopThreadOk(w: World, s: State, p: Prim, h: Thread, next: Task?)
    requires Core(w, s) && CanStop(s, p, h, next)
    ensures AllOk(w, s, StopPlan(s, p, h, next)) && !s.run.committing
  {
    hide Core, AllOk, LiveTasks, LivePrims;
    CommitOfLive(w, s, Current(s, h));
    TwoOk(w, s, Micro.Stop(p, Current(s, h)), Micro.Assign(h, next));
  }

  /** The commit index of a registered task is never that of an open commit. */
  lemma CommitOfLive(w: World, s: State, t: Task)
    requires Core(w, s) && LiveTask(s, t)
    ensures t in s.run.tasks && CommitOk(s.run, s.run.tasks[t].commit)
  {
    hide LiveTasks, LivePrims, RegistryOk, StopOk, OverOk, OwnOk, SameProcess, ClosedBut, ThreadsOk;
  }

  lemma IndexOfCore(w: World, s: State)
    requires Core(w, s)
    ensures 0 <= s.run.index < USIZE_MAX
  {
    hide LiveTasks, LivePrims, RegistryOk, StopOk, OverOk, OwnOk, SameProcess, ClosedBut;
  }

  lemma {:induction false} ActiveOfNoDup(g: StopGraph, ts: seq<Task>)
    requires NoDup(ts)
    ensures NoDup(ActiveOf(g, ts))
  {
    if ts != [] {
      var n := |ts| - 1;
      LastIsNew(ts);
      ActiveOfNoDup(g, ts[..n]);
      ActiveOfFacts(g, ts[..n]);
      PushFacts(ActiveOf(g, ts[..n]), ts[n]);
    }
  }

  lemma TasksOfProcess(w: World, s: State, c: Process)
    requires Core(w, s) && c in s.reg.list
    ensures c in s.reg.procs && NoDup(s.reg.procs[c].tasks)
    ensures forall t :: t in s.reg.procs[c].tasks ==> LiveTask(s, t) && t in s.reg.tasks && s.reg.tasks[t] == c
    ensures forall t :: LiveTask(s, t) && s.reg.tasks[t] == c ==> t in s.reg.procs[c].tasks
  {
    hide StopOk, OverOk, ExecOk, OwnOk, SameProcess, ClosedBut, NoDup, LivePrims;
  }

  /** The tasks a pause stops: the active tasks of the process, in list order. */
  function Pausable(s: State, c: Process): seq<Task> {
    ActiveOf(s.stop, if c in s.reg.procs then s.reg.procs[c].tasks else [])
  }

  lemma PausableFacts(w: World, s: State, c: Process)
    requires Core(w, s) && Legal(w, s, PauseProcess(c))
    ensures NoDup(Pausable(s, c)) && c.prim in s.stop.prims
    ensures forall t :: t in Pausable(s, c) ==> LiveTask(s, t) && t in s.reg.tasks && s.reg.tasks[t] == c && Ok(w, s, Micro.Stop(c.prim, t))
    ensures forall t :: LiveTask(s, t) && s.reg.tasks[t] == c && ActiveTask(s, t) ==> t in Pausable(s, c)
  {
    hide Core, LiveTasks, LivePrims, NoDup;
    TasksOfProcess(w, s, c);
    StoppedOfCore(w, s, c.prim);
    ActiveOfNoDup(s.stop, s.reg.procs[c].tasks);
    ActiveOfFacts(s.stop, s.reg.procs[c].tasks);
  }

  lemma PauseOk(w: World, s: State, c: Process)
    requires Core(w, s) && Legal(w, s, PauseProcess(c))
    ensures AllOk(w, s, Plan(s, PauseProcess(c)))
    ensures Halted(s, ApplyAll(s, Stops(c.prim, Pausable(s, c))), c.prim, Pausable(s, c))
  {
    hide Core, AllOk, LiveTasks, LivePrims, Pausable, NoDup;
    PausableFacts(w, s, c);
    StopsFacts(w, s, c.prim, Pausable(s, c));
    AllOkPush(w, s, Stops(c.prim, Pausable(s, c)), Micro.SetStatus(c, Stopped));
    PauseIsPausable(s, c);
  }

  lemma PauseIsPausable(s: State, c: Process)
    ensures Plan(s, PauseProcess(c)) == Stops(c.prim, Pausable(s, c)) + [Micro.SetStatus(c, Stopped)]
  {
  }

  lemma ResumeProcessOk(w: World, s: State, c: Process)
    requires Core(w, s) && Legal(w, s, ResumeProcess(c))
    ensures AllOk(w, s, Plan(s, ResumeProcess(c)))
    ensures Resumed(s, ApplyAll(s, Resumes(Waiting(s, c.prim))), Waiting(s, c.prim))
  {
    hide Core, AllOk, LiveTasks, LivePrims, NoDup;
    StoppedOfCore(w, s, c.prim);
    var ts := Waiting(s, c.prim);
    ResumesFacts(w, s, ts);
    AllOkPush(w, s, Resumes(ts), Micro.SetStatus(c, Active));
  }

  lemma CloseCommitOk(w: World, s: State, cleared: Marks, plan: seq<(Thread, Task?)>)
    requires Core(w, s) && Legal(w, s, Op.CloseCommit(cleared, plan))
    ensures AllOk(w, s, Plan(s, Op.CloseCommit(cleared, plan)))
  {
    hide Core, AllOk, LiveTasks, LivePrims, ClosedBut;
    TwoOk(w, s, Micro.CloseCommit, Micro.ClearMarks(cleared));
    AllOkKeepsCore(w, s, [Micro.CloseCommit, Micro.ClearMarks(cleared)]);
    var s1 := ApplyAll(s, [Micro.CloseCommit, Micro.ClearMarks(cleared)]);
    AssignsFacts(w, s1, plan);
    AllOkConcat(w, s, [Micro.CloseCommit, Micro.ClearMarks(cleared)], Assigns(plan));
  }

  lemma WakeUpOk(w: World, s: State, p: Prim)
    requires Core(w, s) && LivePrim(s, p)
    ensures AllOk(w, s, WakeUp(s, p))
  {
    hide Core, AllOk, LiveTasks, LivePrims, NoDup;
    StoppedOfCore(w, s, p);
    if Waiting(s, p) == [] {
      NothingOk(w, s);
    } else {
      OneOk(w, s, Micro.Resume(Waiting(s, p)[0]));
    }
  }

  lemma NothingOk(w: World, s: State)
    ensures AllOk(w, s, []) && ApplyAll(s, []) == s
  {
  }

  lemma ReleaseOk(w: World, s: State, p: Prim, t: Task)
    requires Core(w, s) && Compatible(s, p, t)
    ensures Ok(w, s, Micro.Release(p, t)) && LivePrim(s, p)
    ensures var s1 := Apply(s, Micro.Release(p, t)); Core(w, s1) && LivePrim(s1, p) && Waiting(s1, p) == Waiting(s, p)
  {
    LiveObjectsExist(w, s);
    hide Core, LiveTasks, LivePrims;
    StepKeepsCore(w, s, Micro.Release(p, t));
  }

  lemma UnlinkOk(w: World, s: State, p: Prim)
    requires Core(w, s) && LivePrim(s, p)
    ensures Ok(w, s, Micro.Unlink(p))
    ensures var s1 := Apply(s, Micro.Unlink(p)); Core(w, s1) && LivePrim(s1, p) && Waiting(s1, p) == Waiting(s, p)
  {
    hide Core, LiveTasks, LivePrims;
    StepKeepsCore(w, s, Micro.Unlink(p));
  }

  lemma UnlockOk(w: World, s: State, p: Prim, h: Thread)
    requires Core(w, s) && Legal(w, s, MutexUnlock(p, h))
    ensures AllOk(w, s, UnlockPlan(s, p, h))
  {
    hide Core, AllOk, Ok, Apply, LiveTasks, LivePrims;
    var owner := Overridden(s, p);
    if owner == null || Current(s, h) != owner {
      NothingOk(w, s);
    } else {
      ReleaseOk(w, s, p, owner);
      OneOk(w, s, Micro.Release(p, owner));
      var s1 := Apply(s, Micro.Release(p, owner));
      UnlinkOk(w, s1, p);
      TwoOk(w, s, Micro.Release(p, owner), Micro.Unlink(p));
      WakeUpOk(w, Apply(s1, Micro.Unlink(p)), p);
      AllOkConcat(w, s, [Micro.Release(p, owner), Micro.Unlink(p)], WakeUp(s, p));
    }
  }

  lemma SemReleaseOk(w: World, s: State, p: Prim, h: Thread)
    requires Core(w, s) && Legal(w, s, SemRelease(p, h))
    ensures AllOk(w, s, SemReleasePlan(s, p, h))
  {
    hide Core, AllOk, Ok, Apply, LiveTasks, LivePrims;
    var t := Current(s, h);
    ReleaseOk(w, s, p, t);
    OneOk(w, s, Micro.Release(p, t));
    WakeUpOk(w, Apply(s, Micro.Release(p, t)), p);
    AllOkConcat(w, s, [Micro.Release(p, t)], WakeUp(s, p));
  }

  lemma LiveIsDetachable(w: World, s: State, t: Task)
    requires Core(w, s) && LiveTask(s, t)
    ensures Ok(w, s, Micro.Detach(t))
  {
    hide LiveTasks, LivePrims, RegistryOk, StopOk, OverOk, OwnOk, SameProcess, ClosedBut, ThreadsOk;
  }

  /** Un-overriding every primitive of the overrider list empties it. */
  lemma DrainOverriders(w: World, s: State, t: Task)
    requires Core(w, s) && LiveTask(s, t)
    ensures t in s.over.tasks
    ensures var ps := s.over.tasks[t].overriders;
            var s1 := ApplyAll(s, Unlinks(ps));
            && AllOk(w, s, Unlinks(ps)) && Core(w, s1) && Unlinked(s, s1, ps)
            && t in s1.over.tasks && s1.over.tasks[t].overriders == []
  {
    hide Core, AllOk, LiveTasks, LivePrims;
    OverridersKnown(w, s, t);
    var ps := s.over.tasks[t].overriders;
    UnlinksFacts(w, s, ps);
    var s1 := ApplyAll(s, Unlinks(ps));
    OverridersKnown(w, s1, t);
    forall p | LivePrim(s, p)
      ensures p !in s1.over.tasks[t].overriders
    {
      OverriddenOfCore(w, s, p);
      assert s.over.prims[p] == t ==> p in ps;
    }
    if s1.over.tasks[t].overriders != [] {
      HasElement(s1.over.tasks[t].overriders);
    }
  }

  /** The state of process_unregister_task before a new task is assigned. */
  lemma RemoveTaskOk(w: World, s: State, t: Task)
    requires Core(w, s) && ActiveTask(s, t)
    ensures var ps := (if t in s.over.tasks then s.over.tasks[t].overriders else []);
            var ms := Unlinks(ps) + [Micro.Detach(t), Micro.DropTask(t)];
            && AllOk(w, s, ms) && Core(w, ApplyAll(s, ms)) && Unregistered(s, ApplyAll(s, ms), t)
  {
    hide Core, AllOk, Ok, Apply, LiveTasks, LivePrims, Unregistered;
    DrainOverriders(w, s, t);
    var ps := s.over.tasks[t].overriders;
    var s1 := ApplyAll(s, Unlinks(ps));
    UnlinkedKeepsTask(s, s1, ps, t);
    DetachDropOk(w, s1, t);
    TwoOk(w, s1, Micro.Detach(t), Micro.DropTask(t));
    AllOkConcat(w, s, Unlinks(ps), [Micro.Detach(t), Micro.DropTask(t)]);
    ApplyAllConcat(s, Unlinks(ps), [Micro.Detach(t), Micro.DropTask(t)]);
    AllOkKeepsCore(w, s, Unlinks(ps) + [Micro.Detach(t), Micro.DropTask(t)]);
    UnregisteredFrom(s, s1, ApplyAll(s, Unlinks(ps) + [Micro.Detach(t), Micro.DropTask(t)]), ps, t);
  }

  /** From `s` to `s'` task `t` was unregistered; other tasks keep their
    * status and registration, and the commit state is unchanged. */
  ghost predicate Unregistered(s: State, s': State, t: Task) {
    && LiveTasks(s'.reg) == LiveTasks(s.reg) - {t} && LivePrims(s'.reg) == LivePrims(s.reg)
    && s'.stop.tasks == s.stop.tasks && s'.stop.prims == s.stop.prims
    && s'.run == DetachTask(s.run, t)
    && s'.own == s.own
  }

  lemma UnlinkedKeepsTask(s: State, s1: State, ps: seq<Prim>, t: Task)
    requires Unlinked(s, s1, ps)
    ensures ActiveTask(s1, t) == ActiveTask(s, t)
  {
    hide LiveTasks;
  }

  lemma DetachDropOk(w: World, s: State, t: Task)
    requires Core(w, s) && ActiveTask(s, t) && t in s.over.tasks && s.over.tasks[t].overriders == []
    ensures Ok(w, s, Micro.Detach(t)) && Ok(w, Apply(s, Micro.Detach(t)), Micro.DropTask(t))
    ensures LiveTasks(Apply(Apply(s, Micro.Detach(t)), Micro.DropTask(t)).reg) == LiveTasks(s.reg) - {t}
    ensures LivePrims(Apply(Apply(s, Micro.Detach(t)), Micro.DropTask(t)).reg) == LivePrims(s.reg)
  {
    hide Core, RegistryOk, LivePrims;
    CoreParts(w, s);
    LiveIsDetachable(w, s, t);
    DropTaskUnregisters(w, s.reg, t);
  }

  lemma UnregisteredFrom(s: State, s1: State, s': State, ps: seq<Prim>, t: Task)
    requires Unlinked(s, s1, ps) && s' == Apply(Apply(s1, Micro.Detach(t)), Micro.DropTask(t))
    requires LiveTasks(s'.reg) == LiveTasks(s1.reg) - {t} && LivePrims(s'.reg) == LivePrims(s1.reg)
    ensures Unregistered(s, s', t)
  {
    hide LiveTasks, LivePrims, DetachTask;
  }

  lemma UnregisterTaskOk(w: World, s: State, h: Thread, next: Task?)
    requires Core(w, s) && Legal(w, s, UnregisterTask(h, next))
    ensures AllOk(w, s, Plan(s, UnregisterTask(h, next)))
  {
    hide Core, AllOk, Ok, Apply, LiveTasks, LivePrims, Unregistered;
    var t := Current(s, h);
    var a := if t in s.stop.tasks && s.stop.tasks[t].status == Stopped then [Micro.Resume(t)] else [];
    RunningTaskOk(w, s, h);
    var s1 := ApplyAll(s, a);
    var ps := if t in s1.over.tasks then s1.over.tasks[t].overriders else [];
    var b := Unlinks(ps) + [Micro.Detach(t), Micro.DropTask(t)];
    RemoveTaskOk(w, s1, t);
    AllOkConcat(w, s, a, b);
    ApplyAllConcat(s, a, b);
    AssignAfterRemoval(w, s, s1, ApplyAll(s1, b), h, t, next);
    AllOkPush(w, s, a + b, Micro.Assign(h, next));
    assert a + b + [Micro.Assign(h, next)] == a + Unlinks(ps) + [Micro.Detach(t), Micro.DropTask(t), Micro.Assign(h, next)];
  }

  /** The running task is active, once resumed if it was stopped. */
  lemma RunningTaskOk(w: World, s: State, h: Thread)
    requires Core(w, s) && h in s.run.list && LiveTask(s, Current(s, h))
    ensures var t := Current(s, h);
            var a := (if t in s.stop.tasks && s.stop.tasks[t].status == Stopped then [Micro.Resume(t)] else []);
            var s1 := ApplyAll(s, a);
            && AllOk(w, s, a) && Core(w, s1) && ActiveTask(s1, t) && Resumed(s, s1, if a == [] then [] else [t])
  {
    hide Core, AllOk, Ok, LiveTasks, LivePrims;
    var t := Current(s, h);
    StatusOfLive(w, s, t);
    if s.stop.tasks[t].status == Stopped {
      assert Resumes([t]) == [Micro.Resume(t)];
      ResumesFacts(w, s, [t]);
    } else {
      NothingOk(w, s);
      NoneDone(s);
    }
  }

  lemma StatusOfLive(w: World, s: State, t: Task)
    requires Core(w, s) && LiveTask(s, t)
    ensures t in s.stop.tasks && (s.stop.tasks[t].status == Active || s.stop.tasks[t].status == Stopped)
    ensures s.stop.tasks[t].status == Active <==> s.stop.tasks[t].stopper == null
    ensures s.stop.tasks[t].status == Stopped ==> Ok(w, s, Micro.Resume(t))
  {
    hide RegistryOk, ActivesOk, StoppedOk, OverOk, ExecOk, OwnOk, SameProcess, ClosedBut, LiveTasks, LivePrims;
  }

  lemma AssignAfterRemoval(w: World, s: State, s1: State, s2: State, h: Thread, t: Task, next: Task?)
    requires Core(w, s) && h in s.run.list && h in s.run.threads && s.run.threads[h].task == t && s.run.threads[h].commit == s.run.index
    requires LiveTask(s, t) && Assignable(s, next, t)
    requires exists ts :: Resumed(s, s1, ts)
    requires Unregistered(s1, s2, t)
    ensures Ok(w, s2, Micro.Assign(h, next))
  {
    hide Core, LiveTasks, LivePrims;
    ThreadTasksAreDetachable(w, s, h);
    CommitOfLive(w, s, t);
  }

  lemma TakeOk(w: World, s: State, p: Prim, h: Thread)
    requires Core(w, s) && Compatible(s, p, Current(s, h))
    ensures AllOk(w, s, SemTakePlan(s, p, h)) && AllOk(w, s, LockPlan(s, p, h))
  {
    LiveObjectsExist(w, s);
    hide Core, AllOk, LiveTasks, LivePrims;
    OneOk(w, s, Micro.Take(p, Current(s, h)));
    LockOk(w, s, p, Current(s, h));
  }

  lemma SimplePlanOk(w: World, s: State, op: Op, m: Micro)
    requires Core(w, s) && Legal(w, s, op)
    requires match op
             case RegisterThread(h) => m == Micro.AddThread(h)
             case UnregisterProcess(c) => m == Micro.DropProcess(c)
             case RegisterTask(c, t) => m == Micro.AddTask(c, t)
             case RegisterPrim(c, p) => m == Micro.AddPrim(c, p)
             case TakeOwnership(p, t) => m == Micro.Take(p, t)
             case ReleaseOwnership(p, t) => m == Micro.Release(p, t)
             case UnoverrideTask(p) => m == Micro.Unlink(p)
             case ResumeTask(t) => m == Micro.Resume(t)
             case OpenCommit => m == Micro.OpenCommit
             case _ => false
    ensures Plan(s, op) == [m] && AllOk(w, s, [m])
  {
    LiveObjectsExist(w, s);
    hide Core, AllOk, LiveTasks, LivePrims;
    OneOk(w, s, m);
  }

  /** Every step of every legal call is legal where it is taken. */
  lemma PlanOk(w: World, s: State, op: Op)
    requires Core(w, s) && Legal(w, s, op)
    ensures AllOk(w, s, Plan(s, op))
  {
    hide Core, AllOk, Compatible, CanStop, Assignable;
    match op
    case RegisterThread(h) => SimplePlanOk(w, s, op, Micro.AddThread(h));
    case UnregisterThread(h) => UnregisterThreadOk(w, s, h);
    case RegisterProcess(c) => RegisterProcessOk(w, s, c);
    case UnregisterProcess(c) => SimplePlanOk(w, s, op, Micro.DropProcess(c));
    case RegisterTask(c, t) => SimplePlanOk(w, s, op, Micro.AddTask(c, t));
    case UnregisterTask(h, next) => UnregisterTaskOk(w, s, h, next);
    case RegisterPrim(c, p) => SimplePlanOk(w, s, op, Micro.AddPrim(c, p));
    case UnregisterPrim(p) => UnregisterPrimOk(w, s, p);
    case TakeOwnership(p, t) => SimplePlanOk(w, s, op, Micro.Take(p, t));
    case ReleaseOwnership(p, t) => SimplePlanOk(w, s, op, Micro.Release(p, t));
    case OverrideTask(p, t) => OverrideOk(w, s, p, t);
    case UnoverrideTask(p) => SimplePlanOk(w, s, op, Micro.Unlink(p));
    case ResumeTask(t) => SimplePlanOk(w, s, op, Micro.Resume(t));
    case StopThread(p, h, next) => StopThreadOk(w, s, p, h, next);
    case PauseProcess(c) => PauseOk(w, s, c);
    case ResumeProcess(c) => ResumeProcessOk(w, s, c);
    case OpenCommit => SimplePlanOk(w, s, op, Micro.OpenCommit);
    case CloseCommit(cleared, plan) => CloseCommitOk(w, s, cleared, plan);
    case MutexLock(p, h, next) =>
      if Owners(s, p) != 0 { StopThreadOk(w, s, p, h, next); } else { TakeOk(w, s, p, h); }
    case MutexLockNb(p, h) =>
      if Owners(s, p) != 0 { NothingOk(w, s); } else { TakeOk(w, s, p, h); }
    case MutexUnlock(p, h) => UnlockOk(w, s, p, h);
    case SemTake(p, limit, h, next) =>
      if Owners(s, p) == limit { StopThreadOk(w, s, p, h, next); } else { TakeOk(w, s, p, h); }
    case SemTakeNb(p, limit, h) =>
      if Owners(s, p) == limit { NothingOk(w, s); } else { TakeOk(w, s, p, h); }
    case SemRelease(p, h) => SemReleaseOk(w, s, p, h);
  }

  /** Every legal call keeps the scheduler-wide invariant. */
  lemma CallKeepsCore(w: World, s: State, op: Op)
    requires Core(w, s) && Legal(w, s, op)
    ensures Core(w, Step(s, op))
  {
    hide Core, Legal, AllOk, Plan;
    PlanOk(w, s, op);
    AllOkKeepsCore(w, s, Plan(s, op));
  }
}
