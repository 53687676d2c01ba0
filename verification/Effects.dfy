/** What each public call leaves in the fields of the objects, and that it
  * leaves everything else alone. The statements name neither plans nor steps. */
module Effects {
  import opened Lists
  import opened Objects
  import opened Marking
  import opened Model
  import opened Invariant
  import opened Operations
  import opened Plans
  import opened Calls
  import opened Runs
  import opened Frames
  import opened RoundTrips

  /** `a` without `x`, which is linked in it at most once; the rest keeps its order. */
  ghost predicate Unlinks1<T>(a: seq<T>, x: T, b: seq<T>) {
    if x !in a then b == a
    else exists i :: 0 <= i < |a| && a[i] == x && b == a[..i] + a[i + 1..]
  }

  lemma {:induction false} RemoveUnlinks<T>(a: seq<T>, x: T)
    requires NoDup(a)
    ensures Unlinks1(a, x, Remove(a, x))
  {
    if x !in a {
      RemoveAbsent(a, x);
    } else if a[0] == x {
      RemoveHead(a);
      assert a[..0] + a[1..] == a[1..];
    } else {
      var i :| 0 <= i < |a| && a[i] == x;
      RemoveUnlinks(a[1..], x);
      assert a[1..][i - 1] == x;
      var j :| 0 <= j < |a[1..]| && a[1..][j] == x && Remove(a[1..], x) == a[1..][..j] + a[1..][j + 1..];
      assert a[j + 1] == x && a[..j + 1] + a[j + 2..] == [a[0]] + (a[1..][..j] + a[1..][j + 1..]);
    }
  }

  // ------------------------------------------------------------ ownership

  lemma CountersExist(w: World, s: State, p: Prim, t: Task)
    requires Core(w, s) && Compatible(s, p, t)
    ensures p in s.own.prims && t in s.own.tasks && p in s.over.prims && t in s.over.tasks && p in s.stop.prims && t in s.stop.tasks
    ensures t in s.run.tasks && 0 <= s.own.prims[p] && 0 <= s.own.tasks[t]
  {
    hide Core, LiveTasks, LivePrims;
    CountersAreKnown(w, s, p, t);
    HomeOf(w, s, p);
    OverridersKnown(w, s, t);
    StoppedOfCore(w, s, p);
    StatusOfLive(w, s, t);
    LiveIsDetachable(w, s, t);
  }

  /** One more unit: both counters grow by one. */
  ghost predicate Taken(s: State, s': State, p: Prim, t: Task) {
    && p in s.own.prims && t in s.own.tasks
    && s' == s.(own := s'.own)
    && s'.own.prims == s.own.prims[p := s.own.prims[p] + 1]
    && s'.own.tasks == s.own.tasks[t := s.own.tasks[t] + 1]
  }

  lemma TakeEffect(w: World, s: State, p: Prim, t: Task)
    requires Core(w, s) && Legal(w, s, TakeOwnership(p, t))
    ensures Taken(s, Step(s, TakeOwnership(p, t)), p, t)
  {
    hide Core, LiveTasks, LivePrims, ApplyAll;
    CountersExist(w, s, p, t);
    OneStep(w, s, Micro.Take(p, t));
  }

  /** One unit less: the primitive's counter shrinks unless it is null, and then
    * the task's unless that is null. */
  ghost predicate Released(s: State, o: Ownership, p: Prim, t: Task) {
    && p in s.own.prims && t in s.own.tasks
    && o.prims == (if s.own.prims[p] == 0 then s.own.prims else s.own.prims[p := s.own.prims[p] - 1])
    && o.tasks == (if s.own.prims[p] == 0 || s.own.tasks[t] == 0 then s.own.tasks else s.own.tasks[t := s.own.tasks[t] - 1])
  }

  lemma ReleaseEffect(w: World, s: State, p: Prim, t: Task)
    requires Core(w, s) && Legal(w, s, ReleaseOwnership(p, t))
    ensures var s' := Step(s, ReleaseOwnership(p, t)); s' == s.(own := s'.own) && Released(s, s'.own, p, t)
    ensures p in s.own.prims && t in s.own.tasks && (ReleaseError(s.own, p, t) == 0 || ReleaseError(s.own, p, t) == 1)
    ensures ReleaseError(s.own, p, t) == 0 <==> s.own.prims[p] > 0 && s.own.tasks[t] > 0
  {
    hide Core, LiveTasks, LivePrims, ApplyAll;
    CountersExist(w, s, p, t);
    OneStep(w, s, Micro.Release(p, t));
  }

  // ----------------------------------------------------------- overriding

  /** Primitive `p` overrides nothing. */
  ghost predicate Freed(s: OverGraph, g: OverGraph, p: Prim)
    requires p in s.prims && s.prims[p] in s.tasks
  {
    var t := s.prims[p];
    && g.prims == s.prims[p := null]
    && t in g.tasks && g.tasks == s.tasks[t := g.tasks[t]]
    && Unlinks1(s.tasks[t].overriders, p, g.tasks[t].overriders) && g.tasks[t].count == s.tasks[t].count - 1
  }

  lemma UnoverrideRows(w: World, s: State, p: Prim)
    requires Core(w, s) && LivePrim(s, p)
    ensures p in s.over.prims
    ensures var s' := Apply(s, Micro.Unlink(p));
            && s' == s.(over := s'.over, marks := s'.marks)
            && if s.over.prims[p] == null then s' == s else s.over.prims[p] in s.over.tasks && Freed(s.over, s'.over, p)
  {
    hide Core, LiveTasks, LivePrims, Walk, EdgesOf, Remove;
    OverriddenOfCore(w, s, p);
    if s.over.prims[p] != null {
      OverridersNoDup(w, s, s.over.prims[p]);
      RemoveUnlinks(s.over.tasks[s.over.prims[p]].overriders, p);
    }
  }

  lemma OverridersNoDup(w: World, s: State, t: Task)
    requires Core(w, s) && LiveTask(s, t)
    ensures t in s.over.tasks && NoDup(s.over.tasks[t].overriders)
  {
    hide RegistryOk, StopOk, ExecOk, OwnOk, SameProcess, ClosedBut, LiveTasks, LivePrims, NoDup;
  }

  /** Un-overriding: the primitive overrides nothing and is out of the list of
    * the task it overrode; nothing else but update marks changes. */
  lemma UnoverrideEffect(w: World, s: State, p: Prim)
    requires Core(w, s) && Legal(w, s, UnoverrideTask(p))
    ensures var s' := Step(s, UnoverrideTask(p));
            && p in s.over.prims && s' == s.(over := s'.over, marks := s'.marks)
            && if s.over.prims[p] == null then s' == s else s.over.prims[p] in s.over.tasks && Freed(s.over, s'.over, p)
  {
    hide Core, LiveTasks, LivePrims, ApplyAll, Apply, Freed;
    UnoverrideRows(w, s, p);
    OneStep(w, s, Micro.Unlink(p));
  }

  /** Primitive `p`, which overrode nothing, overrides `t`, first in its list. */
  ghost predicate Overriding(g: OverGraph, g': OverGraph, p: Prim, t: Task) {
    && t in g.tasks && p in g.prims
    && g'.prims == g.prims[p := t]
    && g'.tasks == g.tasks[t := TaskOver([p] + g.tasks[t].overriders, g.tasks[t].count + 1)]
  }

  lemma OverrideRows(w: World, s: State, p: Prim, t: Task)
    requires Core(w, s) && Compatible(s, p, t)
    ensures p in s.over.prims
    ensures var s1 := Apply(s, Micro.Unlink(p));
            var s' := Apply(s1, Micro.Link(p, t));
            && s' == s.(over := s'.over, marks := s'.marks)
            && (if s.over.prims[p] == null then s1.over == s.over else s.over.prims[p] in s.over.tasks && Freed(s.over, s1.over, p))
            && Overriding(s1.over, s'.over, p, t)
  {
    hide Core, LiveTasks, LivePrims, Freed;
    UnoverrideRows(w, s, p);
    OverrideOk(w, s, p, t);
    TwoSteps(w, s, Micro.Unlink(p), Micro.Link(p, t));
    StepKeepsCore(w, s, Micro.Unlink(p));
    LinkRows(w, Apply(s, Micro.Unlink(p)), p, t);
  }

  lemma LinkRows(w: World, s: State, p: Prim, t: Task)
    requires Core(w, s) && Ok(w, s, Micro.Link(p, t))
    ensures var s' := Apply(s, Micro.Link(p, t)); s' == s.(over := s'.over, marks := s'.marks) && Overriding(s.over, s'.over, p, t)
  {
    hide Core, LiveTasks, LivePrims, Walk, EdgesOf;
    LinkableOfCore(w, s, p, t);
  }

  /** Primitive `p` overrides `t`, first in its list, and no longer the task it overrode. */
  ghost predicate OverridesNow(g: OverGraph, g': OverGraph, p: Prim, t: Task) {
    && p in g.prims && t in g.tasks
    && g'.prims == g.prims[p := t] && g'.tasks.Keys == g.tasks.Keys
    && (forall u :: u in g.tasks && u != t && u != g.prims[p] ==> g'.tasks[u] == g.tasks[u])
    && g'.tasks[t].overriders != [] && g'.tasks[t].overriders[0] == p
    && Unlinks1(g.tasks[t].overriders, p, g'.tasks[t].overriders[1..])
    && g'.tasks[t].count == g.tasks[t].count + (if g.prims[p] == t then 0 else 1)
    && (g.prims[p] != null && g.prims[p] != t ==>
          && g.prims[p] in g.tasks
          && Unlinks1(g.tasks[g.prims[p]].overriders, p, g'.tasks[g.prims[p]].overriders)
          && g'.tasks[g.prims[p]].count == g.tasks[g.prims[p]].count - 1)
  }

  lemma OverridesNowRows(w: World, s: State, p: Prim, t: Task)
    requires Core(w, s) && Compatible(s, p, t)
    ensures var s' := Apply(Apply(s, Micro.Unlink(p)), Micro.Link(p, t));
            s' == s.(over := s'.over, marks := s'.marks) && OverridesNow(s.over, s'.over, p, t)
  {
    hide Core, LiveTasks, LivePrims, Apply;
    OverrideRows(w, s, p, t);
    OverridersKnown(w, s, t);
  }

  /** Overriding: an old override is released, and the task is overridden. */
  lemma OverrideEffect(w: World, s: State, p: Prim, t: Task)
    requires Core(w, s) && Legal(w, s, OverrideTask(p, t))
    ensures var s' := Step(s, OverrideTask(p, t));
            s' == s.(over := s'.over, marks := s'.marks) && OverridesNow(s.over, s'.over, p, t)
  {
    hide Core, LiveTasks, LivePrims, ApplyAll, Apply, OverridesNow;
    OverridesNowRows(w, s, p, t);
    ApplyPair(s, Micro.Unlink(p), Micro.Link(p, t));
  }

  // ---------------------------------------------------- stopping, resuming

  /** Task `t` is stopped by `p`, last in its list, and in the active list no more. */
  ghost predicate StoppedBy(g: StopGraph, g': StopGraph, p: Prim, t: Task) {
    && p in g.prims && t in g.tasks
    && g'.tasks == g.tasks[t := TaskStop(Stopped, p)]
    && g'.prims == g.prims[p := PrimStop(g.prims[p].stopped + [t], g.prims[p].count + 1)]
    && Unlinks1(g.actives, t, g'.actives)
  }

  /** Task `t` is active, first in the active list, and out of the list of `p`. */
  ghost predicate ResumedFrom(g: StopGraph, g': StopGraph, p: Prim, t: Task) {
    && p in g.prims && t in g.tasks && g.tasks[t] == TaskStop(Stopped, p)
    && g'.tasks == g.tasks[t := TaskStop(Active, null)]
    && p in g'.prims && g'.prims == g.prims[p := g'.prims[p]]
    && Unlinks1(g.prims[p].stopped, t, g'.prims[p].stopped) && g'.prims[p].count == g.prims[p].count - 1
    && g'.actives == [t] + g.actives
  }

  lemma ActivesNoDup(w: World, s: State)
    requires Core(w, s)
    ensures NoDup(s.stop.actives)
  {
    hide LiveTasks, LivePrims, RegistryOk, StoppersOk, StoppedOk, OverOk, ExecOk, OwnOk, SameProcess, ClosedBut, NoDup;
  }

  lemma StopRows(w: World, s: State, p: Prim, t: Task)
    requires Core(w, s) && Ok(w, s, Micro.Stop(p, t))
    ensures var s' := Apply(s, Micro.Stop(p, t)); s' == s.(stop := s'.stop, marks := s'.marks) && StoppedBy(s.stop, s'.stop, p, t)
  {
    hide Core, LiveTasks, LivePrims, Walk, EdgesOf, Remove, NoDup;
    CountersExist(w, s, p, t);
    ActivesNoDup(w, s);
    RemoveUnlinks(s.stop.actives, t);
  }

  lemma ResumeRows(w: World, s: State, t: Task)
    requires Core(w, s) && Ok(w, s, Micro.Resume(t))
    ensures t in s.stop.tasks && s.stop.tasks[t].stopper != null
    ensures var s' := Apply(s, Micro.Resume(t));
            s' == s.(stop := s'.stop, marks := s'.marks) && ResumedFrom(s.stop, s'.stop, s.stop.tasks[t].stopper, t)
  {
    hide Core, LiveTasks, LivePrims, Walk, EdgesOf, Remove, NoDup;
    StoppedHasStopper(w, s, t);
    StoppedOfCore(w, s, s.stop.tasks[t].stopper);
    RemoveUnlinks(s.stop.prims[s.stop.tasks[t].stopper].stopped, t);
  }

  lemma ResumeTaskEffect(w: World, s: State, t: Task)
    requires Core(w, s) && Legal(w, s, Op.ResumeTask(t))
    ensures t in s.stop.tasks && s.stop.tasks[t].stopper != null
    ensures var s' := Step(s, Op.ResumeTask(t));
            s' == s.(stop := s'.stop, marks := s'.marks) && ResumedFrom(s.stop, s'.stop, s.stop.tasks[t].stopper, t)
  {
    hide Core, Ok, ApplyAll, Apply, ResumedFrom;
    ResumeRows(w, s, t);
    OneStep(w, s, Micro.Resume(t));
  }

  // ------------------------------------------------------------ execution

  /** Thread `h` gets `a`, or is idle. A task of another thread leaves that
    * thread, which is idle if it ran it, and comes first in the history of `h`;
    * a task of `h` keeps its place there. */
  ghost predicate Assigns1(g: Execution, g': Execution, h: Thread, a: Task?) {
    && h in g.threads && g'.threads.Keys == g.threads.Keys
    && g' == g.(tasks := g'.tasks, threads := g'.threads)
    && if a == null then
         && g'.tasks == g.tasks && (forall k :: k in g.threads && k != h ==> g'.threads[k] == g.threads[k])
         && g'.threads[h] == ThreadRun(null, 0xFFFF_FFFF_FFFF_FFFF, g.threads[h].history, g.threads[h].size)
       else
         && a in g.tasks && g'.tasks == g.tasks[a := TaskRun(h, g.index)]
         && var was := g.tasks[a].thread;
         && (forall k :: k in g.threads && k != h && k != was ==> g'.threads[k] == g.threads[k])
         && (was != null && was != h ==> was in g.threads && Leaves(g.threads[was], g'.threads[was], a))
         && g'.threads[h] == (if was == h then ThreadRun(a, g.index, g.threads[h].history, g.threads[h].size)
                              else ThreadRun(a, g.index, [a] + g.threads[h].history, g.threads[h].size + 1))
  }

  /** A thread loses task `t`. */
  ghost predicate Leaves(r: ThreadRun, r': ThreadRun, t: Task) {
    && Unlinks1(r.history, t, r'.history) && r'.size == r.size - 1
    && (if r.task == t then r'.task == null && r'.commit == 0xFFFF_FFFF_FFFF_FFFF else r'.task == r.task && r'.commit == r.commit)
  }

  lemma AssignedRows(g: Execution, h: Thread, a: Task?)
    requires h in g.threads && (a != null ==> a in g.tasks)
    requires a != null && g.tasks[a].thread != null ==> g.tasks[a].thread in g.threads && NoDup(g.threads[g.tasks[a].thread].history)
    ensures Assigns1(g, Model.AssignTask(g, h, a), h, a)
  {
    hide Remove, Unlinks1, NoDup;
    if a != null && g.tasks[a].thread != null {
      var t: Task := a;
      RemoveUnlinks(g.threads[g.tasks[a].thread].history, t);
    }
  }

  lemma AssignRows(w: World, s: State, h: Thread, a: Task?)
    requires Core(w, s) && Ok(w, s, Micro.Assign(h, a))
    ensures var s' := Apply(s, Micro.Assign(h, a)); s' == s.(run := s'.run) && Assigns1(s.run, s'.run, h, a)
  {
    hide Core, LiveTasks, NoDup, Assigns1, Model.AssignTask;
    RunKeysOfCore(w, s);
    if a != null {
      LiveIsDetachable(w, s, a);
      if s.run.tasks[a].thread != null {
        ThreadTasksAreDetachable(w, s, s.run.tasks[a].thread);
      }
    }
    AssignedRows(s.run, h, a);
  }

  /** The task of the thread is stopped, and the hook's choice assigned. */
  ghost predicate ThreadStopped(s: State, s': State, p: Prim, h: Thread, next: Task?) {
    && Current(s, h) != null
    && s' == s.(stop := s'.stop, run := s'.run, marks := s'.marks)
    && StoppedBy(s.stop, s'.stop, p, Current(s, h)) && Assigns1(s.run, s'.run, h, next)
  }

  lemma StopThreadEffect(w: World, s: State, p: Prim, h: Thread, next: Task?)
    requires Core(w, s) && Legal(w, s, Op.StopThread(p, h, next))
    ensures ThreadStopped(s, Step(s, Op.StopThread(p, h, next)), p, h, next)
  {
    hide Core, AllOk, Ok, Apply, ApplyAll, LiveTasks, LivePrims, StoppedBy, Assigns1;
    PlanOk(w, s, Op.StopThread(p, h, next));
    var m, n := Micro.Stop(p, Current(s, h)), Micro.Assign(h, next);
    assert Plan(s, Op.StopThread(p, h, next)) == [m, n];
    hide Plan, Legal;
    TwoSteps(w, s, m, n);
    StopRows(w, s, p, m.t);
    StepKeepsCore(w, s, m);
    AssignRows(w, Apply(s, m), h, next);
  }

  // -------------------------------------------------------------- mutexes

  /** The task of the thread takes the mutex. */
  ghost predicate Locked(s: State, s': State, p: Prim, h: Thread) {
    var t := Current(s, h);
    && t != null && p in s.own.prims && t in s.own.tasks && p in s.over.prims
    && s' == s.(own := s'.own, over := s'.over, marks := s'.marks)
    && s'.own == Ownership(s.own.tasks[t := s.own.tasks[t] + 1], s.own.prims[p := s.own.prims[p] + 1])
    && OverridesNow(s.over, s'.over, p, t)
  }

  lemma TakeRows(w: World, s: State, p: Prim, t: Task)
    requires Core(w, s) && Ok(w, s, Micro.Take(p, t))
    ensures Taken(s, Apply(s, Micro.Take(p, t)), p, t)
  {
    hide Core, LiveTasks, LivePrims;
    CountersExist(w, s, p, t);
  }

  lemma TakesAndOverrides(w: World, s: State, p: Prim, h: Thread)
    requires Core(w, s) && Compatible(s, p, Current(s, h))
    ensures Locked(s, ApplyAll(s, LockPlan(s, p, h)), p, h)
  {
    hide Core, AllOk, Ok, Apply, ApplyAll, LiveTasks, LivePrims, OverridesNow;
    var t := Current(s, h);
    var m := Micro.Take(p, t);
    var n, k := Micro.Unlink(p), Micro.Link(p, t);
    LockOk(w, s, p, t);
    assert [m, n, k] == [m] + [n, k];
    AllOkSplit(w, s, [m], [n, k]);
    OneStep(w, s, m);
    TakeRows(w, s, p, t);
    StepKeepsCore(w, s, m);
    var s1 := Apply(s, m);
    OverridesNowRows(w, s1, p, t);
    ApplyPair(s1, n, k);
    CountersExist(w, s, p, t);
  }

  /** Locking: takes the mutex if nobody owns it; otherwise the thread's task is
    * stopped by it, last of those waiting. */
  lemma LockEffect(w: World, s: State, p: Prim, h: Thread, next: Task?)
    requires Core(w, s) && Legal(w, s, MutexLock(p, h, next))
    ensures p in s.own.prims
    ensures var s' := Step(s, MutexLock(p, h, next));
            if s.own.prims[p] == 0 then Locked(s, s', p, h) else ThreadStopped(s, s', p, h, next)
  {
    hide Core, Locked, ThreadStopped, LiveTasks, LivePrims, ApplyAll;
    if Owners(s, p) != 0 {
      CountersExist(w, s, p, Current(s, h));
      StopThreadEffect(w, s, p, h, next);
    } else {
      CountersExist(w, s, p, Current(s, h));
      TakesAndOverrides(w, s, p, h);
    }
  }

  lemma LockNbEffect(w: World, s: State, p: Prim, h: Thread)
    requires Core(w, s) && Legal(w, s, MutexLockNb(p, h))
    ensures p in s.own.prims
    ensures var s' := Step(s, MutexLockNb(p, h)); if s.own.prims[p] == 0 then Locked(s, s', p, h) else s' == s
  {
    hide Core, Locked, LiveTasks, LivePrims;
    HomeOf(w, s, p);
    if Owners(s, p) == 0 {
      TakesAndOverrides(w, s, p, h);
    }
  }

  /** The first waiting task, if any, is resumed. */
  ghost predicate HeadResumed(s: State, s': State, p: Prim) {
    if Waiting(s, p) == [] then s'.stop == s.stop else ResumedFrom(s.stop, s'.stop, p, Waiting(s, p)[0])
  }

  lemma WakeUpRows(w: World, s: State, p: Prim)
    requires Core(w, s) && LivePrim(s, p)
    ensures var s' := ApplyAll(s, WakeUp(s, p)); s' == s.(stop := s'.stop, marks := s'.marks) && HeadResumed(s, s', p)
  {
    hide Core, Ok, Apply, LiveTasks, LivePrims, ResumedFrom;
    StoppedOfCore(w, s, p);
    if Waiting(s, p) != [] {
      var t := Waiting(s, p)[0];
      ResumeRows(w, s, t);
      OneStep(w, s, Micro.Resume(t));
    }
  }

  /** What an unlock with each result leaves. */
  ghost predicate Unlocked(s: State, s': State, p: Prim, h: Thread, code: nat) {
    var t := Current(s, h);
    if code == 0 || code == 3 then
      && t != null && p in s.over.prims && s.over.prims[p] == t && t in s.over.tasks && Released(s, s'.own, p, t)
      && if code == 3 then s' == s.(own := s'.own)
         else s' == s.(own := s'.own, over := s'.over, stop := s'.stop, marks := s'.marks) && Freed(s.over, s'.over, p) && HeadResumed(s, s', p)
    else s' == s
  }

  lemma ReleaseRows(w: World, s: State, p: Prim, t: Task)
    requires Core(w, s) && Compatible(s, p, t)
    ensures var s' := Apply(s, Micro.Release(p, t)); s' == s.(own := s'.own) && Released(s, s'.own, p, t)
  {
    hide Core, LiveTasks, LivePrims;
    CountersExist(w, s, p, t);
  }

  /** Unlocking: only the task the mutex overrides gets past the checks; then
    * both counters, the override and the head of the waiting tasks. */
  lemma UnlockEffect(w: World, s: State, p: Prim, h: Thread)
    requires Core(w, s) && Legal(w, s, MutexUnlock(p, h))
    ensures p in s.over.prims && p in s.own.prims
    ensures Unlocked(s, Step(s, MutexUnlock(p, h)), p, h, UnlockCode(s, p, h))
    ensures var owner, t, code := s.over.prims[p], Current(s, h), UnlockCode(s, p, h);
            && (code == 1 <==> owner == null) && (code == 2 <==> owner != null && t != owner) && code <= 3
            && (code == 0 <==> owner != null && t == owner && s.own.prims[p] > 0 && t in s.own.tasks && s.own.tasks[t] > 0)
  {
    hide Core, Ok, Apply, AllOk, ApplyAll, LiveTasks, LivePrims, Freed, HeadResumed, Released, WakeUp, Waiting;
    HomeOf(w, s, p);
    NothingOk(w, s);
    var t := Current(s, h);
    if Overridden(s, p) != null && t == Overridden(s, p) {
      CountersExist(w, s, p, t);
      ReleaseRows(w, s, p, t);
      ReleaseOk(w, s, p, t);
      var m, n := Micro.Release(p, t), Micro.Unlink(p);
      var s1 := Apply(s, m);
      OneStep(w, s, m);
      if ReleaseError(s.own, p, t) == 0 {
        UnlinkOk(w, s1, p);
        UnoverrideRows(w, s1, p);
        var s2 := Apply(s1, n);
        SameWakeUp(s, s2, p);
        WakeUpRows(w, s2, p);
        ApplyPair(s, m, n);
        ApplyAllConcat(s, [m, n], WakeUp(s, p));
        SameQueue(s, s2, ApplyAll(s2, WakeUp(s2, p)), p);
      }
    }
  }

  lemma SameQueue(s: State, s2: State, s': State, p: Prim)
    requires HeadResumed(s2, s', p) && s2.stop == s.stop
    ensures HeadResumed(s, s', p)
  {
  }

  // ------------------------------------------------------------ semaphores

  /** Taking: a unit unless the count equals the limit; otherwise the thread's
    * task is stopped by the semaphore, last of those waiting. */
  lemma SemTakeEffect(w: World, s: State, p: Prim, limit: int, h: Thread, next: Task?)
    requires Core(w, s) && Legal(w, s, SemTake(p, limit, h, next))
    ensures p in s.own.prims && Current(s, h) != null
    ensures var s' := Step(s, SemTake(p, limit, h, next));
            if s.own.prims[p] == limit then ThreadStopped(s, s', p, h, next) else Taken(s, s', p, Current(s, h))
  {
    hide Core, Taken, ThreadStopped, LiveTasks, LivePrims, ApplyAll, Apply;
    CountersExist(w, s, p, Current(s, h));
    if Owners(s, p) == limit {
      StopThreadEffect(w, s, p, h, next);
    } else {
      OneStep(w, s, Micro.Take(p, Current(s, h)));
      LiveObjectsExist(w, s);
      TakeRows(w, s, p, Current(s, h));
    }
  }

  lemma SemTakeNbEffect(w: World, s: State, p: Prim, limit: int, h: Thread)
    requires Core(w, s) && Legal(w, s, SemTakeNb(p, limit, h))
    ensures p in s.own.prims
    ensures var s' := Step(s, SemTakeNb(p, limit, h));
            if s.own.prims[p] == limit then s' == s else Current(s, h) != null && Taken(s, s', p, Current(s, h))
  {
    hide Core, Taken, LiveTasks, LivePrims, Apply;
    HomeOf(w, s, p);
    if Owners(s, p) != limit {
      OneStep(w, s, Micro.Take(p, Current(s, h)));
      LiveObjectsExist(w, s);
      TakeRows(w, s, p, Current(s, h));
    }
  }

  /** Releasing: both counters, with success the head of the waiting tasks. */
  lemma SemReleaseEffect(w: World, s: State, p: Prim, h: Thread)
    requires Core(w, s) && Legal(w, s, SemRelease(p, h))
    ensures Current(s, h) != null && p in s.own.prims && Current(s, h) in s.own.tasks
    ensures var s', code := Step(s, SemRelease(p, h)), SemReleaseCode(s, p, h);
            && s' == s.(own := s'.own, stop := s'.stop, marks := s'.marks) && Released(s, s'.own, p, Current(s, h))
            && (if code == 0 then HeadResumed(s, s', p) else s' == s.(own := s'.own))
            && (code == 0 <==> s.own.prims[p] > 0 && s.own.tasks[Current(s, h)] > 0) && code <= 1
  {
    hide Core, Ok, Apply, AllOk, ApplyAll, LiveTasks, LivePrims, HeadResumed, Released, WakeUp, Waiting;
    var t := Current(s, h);
    CountersExist(w, s, p, t);
    ReleaseRows(w, s, p, t);
    ReleaseOk(w, s, p, t);
    var m := Micro.Release(p, t);
    var s1 := Apply(s, m);
    OneStep(w, s, m);
    if ReleaseError(s.own, p, t) == 0 {
      SameWakeUp(s, s1, p);
      WakeUpRows(w, s1, p);
      ApplyAllConcat(s, [m], WakeUp(s, p));
      SameQueue(s, s1, ApplyAll(s1, WakeUp(s1, p)), p);
    }
  }
}
