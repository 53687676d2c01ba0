/** What one call undoes of another, and what the assignment hook gets. */
module RoundTrips {
  import opened Lists
  import opened Objects
  import opened Marking
  import opened Model
  import opened Invariant
  import opened Operations
  import opened Plans
  import opened Calls
  import opened Runs
  import opened Holding
  import opened Mutexes

  lemma GraphStopResume(g: StopGraph, p: Prim, t: Task)
    requires t in g.tasks && p in g.prims && g.tasks[t] == TaskStop(Active, null) && t !in g.prims[p].stopped
    ensures Model.ResumeTask(StopTask(g, p, t), t) == g.(actives := [t] + Remove(g.actives, t))
  {
    RemoveLast(g.prims[p].stopped, t);
    hide Remove;
    var g' := Model.ResumeTask(StopTask(g, p, t), t);
    assert g'.tasks == g.tasks && g'.prims == g.prims;
  }

  /** Resuming the task a primitive just stopped restores who is stopped by
    * whom; the task becomes the first active one. */
  lemma StopThenResume(w: World, s: State, p: Prim, t: Task)
    requires Core(w, s) && Ok(w, s, Micro.Stop(p, t))
    ensures var s' := Apply(Apply(s, Micro.Stop(p, t)), Micro.Resume(t));
            s' == s.(stop := s.stop.(actives := [t] + Remove(s.stop.actives, t)), marks := s'.marks)
  {
    hide Core, Compatible, Walk, EdgesOf, Remove;
    NotWaiting(w, s, p, t);
    GraphStopResume(s.stop, p, t);
  }

  lemma NotWaiting(w: World, s: State, p: Prim, t: Task)
    requires Core(w, s) && Compatible(s, p, t)
    ensures t in s.stop.tasks && p in s.stop.prims && s.stop.tasks[t] == TaskStop(Active, null) && t !in Waiting(s, p)
  {
    hide Core, LiveTasks, LivePrims, NoDup;
    StatusOfLive(w, s, t);
    StoppedOfCore(w, s, p);
  }

  lemma {:induction false} RemoveLast<T>(s: seq<T>, x: T)
    requires x !in s
    ensures Remove(s + [x], x) == s
  {
    if s == [] {
      assert [x][1..] == [];
    } else {
      RemoveLast(s[1..], x);
      assert (s + [x])[1..] == s[1..] + [x];
    }
  }

  lemma RemoveFirst<T>(s: seq<T>, x: T)
    requires x !in s
    ensures Remove([x] + s, x) == s
  {
    RemoveAbsent(s, x);
    assert ([x] + s)[1..] == s;
  }

  lemma GraphLinkUnlink(g: OverGraph, p: Prim, t: Task)
    requires t in g.tasks && p in g.prims && g.prims[p] == null && p !in g.tasks[t].overriders
    ensures UnlinkOverride(LinkOverride(g, p, t), p) == g
  {
    RemoveFirst(g.tasks[t].overriders, p);
    hide Remove;
    var g' := UnlinkOverride(LinkOverride(g, p, t), p);
    assert g'.tasks == g.tasks && g'.prims == g.prims;
  }

  lemma LinkableOfCore(w: World, s: State, p: Prim, t: Task)
    requires Core(w, s) && Ok(w, s, Micro.Link(p, t))
    ensures t in s.over.tasks && p in s.over.prims && s.over.prims[p] == null && p !in s.over.tasks[t].overriders
  {
    hide Core, LiveTasks, LivePrims;
    OverridersOfCore(w, s, t, p);
  }

  /** Un-overriding undoes an override of a primitive that overrode nothing. */
  lemma OverrideThenUnoverride(w: World, s: State, p: Prim, t: Task)
    requires Core(w, s) && Ok(w, s, Micro.Link(p, t))
    ensures var s' := Apply(Apply(s, Micro.Link(p, t)), Micro.Unlink(p)); s' == s.(marks := s'.marks)
  {
    hide Core, Ok, Walk, EdgesOf, UnlinkOverride;
    LinkableOfCore(w, s, p, t);
    GraphLinkUnlink(s.over, p, t);
  }

  lemma CountersTakeRelease(o: Ownership, p: Prim, t: Task)
    requires p in o.prims && t in o.tasks && 0 <= o.prims[p] && 0 <= o.tasks[t]
    ensures var o' := Ownership(o.tasks[t := o.tasks[t] + 1], o.prims[p := o.prims[p] + 1]);
            ReleaseCounters(o', p, t) == o && ReleaseError(o', p, t) == 0
  {
    var o' := Ownership(o.tasks[t := o.tasks[t] + 1], o.prims[p := o.prims[p] + 1]);
    assert ReleaseCounters(o', p, t).tasks == o.tasks && ReleaseCounters(o', p, t).prims == o.prims;
  }

  /** Releasing undoes taking, without error. */
  lemma TakeThenRelease(w: World, s: State, p: Prim, t: Task)
    requires Core(w, s) && Ok(w, s, Micro.Take(p, t))
    ensures Apply(Apply(s, Micro.Take(p, t)), Micro.Release(p, t)) == s
    ensures ReleaseError(Apply(s, Micro.Take(p, t)).own, p, t) == 0
  {
    hide Core, LiveTasks, LivePrims, ReleaseCounters, ReleaseError;
    CountersAreKnown(w, s, p, t);
    CountersTakeRelease(s.own, p, t);
  }

  lemma CountersAreKnown(w: World, s: State, p: Prim, t: Task)
    requires Core(w, s) && LivePrim(s, p) && LiveTask(s, t)
    ensures p in s.own.prims && t in s.own.tasks && 0 <= s.own.prims[p] && 0 <= s.own.tasks[t]
  {
    hide StopOk, ExecOk, ClosedBut, SameProcess, OverOk;
  }

  /** Unlocking a mutex nobody waits for undoes its locking: all but the update
    * marks is as before, and the unlock returns 0. */
  lemma LockThenUnlock(w: World, s: State, p: Prim, h: Thread)
    requires Core(w, s) && Legal(w, s, MutexLockNb(p, h)) && Owners(s, p) == 0 && Overridden(s, p) == null && Waiting(s, p) == []
    ensures var s1 := Step(s, MutexLockNb(p, h));
            var s2 := Step(s1, MutexUnlock(p, h));
            && Legal(w, s1, MutexUnlock(p, h)) && UnlockCode(s1, p, h) == 0
            && s2 == s.(marks := s2.marks)
  {
    hide Core, LiveTasks, LivePrims, ApplyAll, Apply, ReleaseError;
    var t := Current(s, h);
    LockedState(w, s, p, t);
    var s1 := ApplyAll(s, LockPlan(s, p, h));
    ApplyPair(s1, Micro.Release(p, t), Micro.Unlink(p));
    assert [Micro.Release(p, t), Micro.Unlink(p)] + [] == [Micro.Release(p, t), Micro.Unlink(p)];
  }

  /** The state between a locking and its unlocking. */
  lemma LockedState(w: World, s: State, p: Prim, t: Task)
    requires Core(w, s) && Compatible(s, p, t) && Overridden(s, p) == null
    ensures var s1 := ApplyAll(s, [Micro.Take(p, t), Micro.Unlink(p), Micro.Link(p, t)]);
            && s1 == s.(own := s1.own, over := s1.over, marks := s1.marks)
            && Overridden(s1, p) == t && ReleaseError(s1.own, p, t) == 0
            && var s2 := Apply(Apply(s1, Micro.Release(p, t)), Micro.Unlink(p)); s2 == s.(marks := s2.marks)
  {
    hide Core, LiveTasks, LivePrims, Walk, EdgesOf, ApplyAll, Remove;
    CountersAreKnown(w, s, p, t);
    OverridersOfCore(w, s, t, p);
    RemoveFirst(s.over.tasks[t].overriders, p);
    ApplyPair(s, Micro.Take(p, t), Micro.Unlink(p));
    assert [Micro.Take(p, t), Micro.Unlink(p), Micro.Link(p, t)] == [Micro.Take(p, t), Micro.Unlink(p)] + [Micro.Link(p, t)];
    LastStep(s, [], [Micro.Take(p, t), Micro.Unlink(p)], Micro.Link(p, t));
    var s1 := ApplyAll(s, [Micro.Take(p, t), Micro.Unlink(p), Micro.Link(p, t)]);
    var s2 := Apply(Apply(s1, Micro.Release(p, t)), Micro.Unlink(p));
    assert s2.own.tasks == s.own.tasks && s2.own.prims == s.own.prims;
    assert s2.over.tasks == s.over.tasks && s2.over.prims == s.over.prims;
  }

  // --------------------------------------------------- the assignment hook

  /** Thread `h` runs `a` and nothing else, or is idle if `a` is null. */
  ghost predicate RunsNext(s: State, h: Thread, a: Task?) {
    && h in s.run.threads && s.run.threads[h].task == a
    && (a == null ==> !ThreadActive(s.run, h))
    && (a != null ==> ThreadActive(s.run, h) && a in s.run.tasks && s.run.tasks[a] == TaskRun(h, s.run.index))
  }

  lemma AssignRuns(w: World, s: State, h: Thread, a: Task?)
    requires Core(w, s) && Ok(w, s, Micro.Assign(h, a))
    ensures RunsNext(Apply(s, Micro.Assign(h, a)), h, a)
  {
    RunKeysOfCore(w, s);
    hide Core, LiveTasks, Remove;
  }

  lemma LastAssignRuns(w: World, s: State, ms: seq<Micro>, h: Thread, a: Task?)
    requires Core(w, s) && AllOk(w, s, ms + [Micro.Assign(h, a)])
    ensures RunsNext(ApplyAll(s, ms + [Micro.Assign(h, a)]), h, a)
  {
    hide Core, AllOk, Ok, Apply, RunsNext;
    AllOkSplit(w, s, ms, [Micro.Assign(h, a)]);
    AllOkKeepsCore(w, s, ms);
    OneStep(w, ApplyAll(s, ms), Micro.Assign(h, a));
    AssignRuns(w, ApplyAll(s, ms), h, a);
  }

  /** After its task was stopped or unregistered, a thread runs what the hook
    * picked, with the current commit index, or is idle. */
  lemma HookIsObeyed(w: World, s: State, op: Op)
    requires Core(w, s) && Legal(w, s, op) && (op.StopThread? || op.UnregisterTask?)
    ensures RunsNext(Step(s, op), op.h, op.next)
  {
    hide Core, AllOk, Ok, Apply, RunsNext;
    PlanOk(w, s, op);
    PlanEndsWithHook(w, s, op);
    var ms := Plan(s, op);
    hide Legal, Plan;
    LastAssignRuns(w, s, ms[..|ms| - 1], op.h, op.next);
  }

  lemma PlanEndsWithHook(w: World, s: State, op: Op)
    requires Legal(w, s, op) && (op.StopThread? || op.UnregisterTask?)
    ensures var ms := Plan(s, op); ms != [] && ms == ms[..|ms| - 1] + [Micro.Assign(op.h, op.next)]
  {
    hide LiveTasks, LivePrims;
  }

  lemma AssignKeepsOthers(w: World, s: State, h: Thread, a: Task?, k: Thread, b: Task?)
    requires Core(w, s) && Ok(w, s, Micro.Assign(k, b)) && RunsNext(s, h, a) && k != h && (b == null || b != a)
    ensures RunsNext(Apply(s, Micro.Assign(k, b)), h, a)
  {
    RunKeysOfCore(w, s);
    hide Core, LiveTasks, Remove;
  }

  /** The hook gives no thread two tasks, and no task two threads. */
  ghost predicate OneEach(plan: seq<(Thread, Task?)>) {
    forall i, j :: 0 <= i < j < |plan| ==> plan[i].0 != plan[j].0 && (plan[j].1 == null || plan[i].1 != plan[j].1)
  }

  lemma {:induction false} AssignsHold(w: World, s: State, plan: seq<(Thread, Task?)>)
    requires Core(w, s) && AllOk(w, s, Assigns(plan)) && OneEach(plan)
    ensures forall i :: 0 <= i < |plan| ==> RunsNext(ApplyAll(s, Assigns(plan)), plan[i].0, plan[i].1)
  {
    hide Core, Ok, Apply, RunsNext;
    if plan != [] {
      var n := |plan| - 1;
      var (k, b) := plan[n];
      assert Assigns(plan) == Assigns(plan[..n]) + [Micro.Assign(k, b)];
      AllOkSplit(w, s, Assigns(plan[..n]), [Micro.Assign(k, b)]);
      AllOkKeepsCore(w, s, Assigns(plan[..n]));
      var s1 := ApplyAll(s, Assigns(plan[..n]));
      OneStep(w, s1, Micro.Assign(k, b));
      AssignsHold(w, s, plan[..n]);
      AssignRuns(w, s1, k, b);
      forall i | 0 <= i < n
        ensures RunsNext(Apply(s1, Micro.Assign(k, b)), plan[i].0, plan[i].1)
      {
        assert RunsNext(s1, plan[..n][i].0, plan[..n][i].1);
        AssignKeepsOthers(w, s1, plan[i].0, plan[i].1, k, b);
      }
    }
  }

  /** Closing a commit: every thread the assignment hook assigns a task runs it
    * afterwards, with the current commit index. */
  lemma AssignmentsHold(w: World, s: State, cleared: Marks, plan: seq<(Thread, Task?)>)
    requires Core(w, s) && Legal(w, s, Op.CloseCommit(cleared, plan)) && OneEach(plan)
    ensures forall i :: 0 <= i < |plan| ==> RunsNext(Step(s, Op.CloseCommit(cleared, plan)), plan[i].0, plan[i].1)
  {
    hide Core, AllOk, Ok, Apply, RunsNext, Legal, OneEach;
    PlanOk(w, s, Op.CloseCommit(cleared, plan));
    var a := [Micro.CloseCommit, Micro.ClearMarks(cleared)];
    AllOkSplit(w, s, a, Assigns(plan));
    AllOkKeepsCore(w, s, a);
    AssignsHold(w, ApplyAll(s, a), plan);
  }
}
