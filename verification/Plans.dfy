/** Sequences of elementary steps, each legal where it is taken, and the
  * sequences of the draining loops: what resuming, stopping, un-overriding or
  * detaching the objects of a list one after the other does. */
module Plans {
  import opened Lists
  import opened Objects
  import opened Marking
  import opened Model
  import opened Invariant
  import opened Operations

  /** Each step is legal in the state the steps before it produce. */
  ghost predicate AllOk(w: World, s: State, ms: seq<Micro>) {
    ms == [] || (var n := |ms| - 1; AllOk(w, s, ms[..n]) && Ok(w, ApplyAll(s, ms[..n]), ms[n]))
  }

  lemma {:induction false} AllOkKeepsCore(w: World, s: State, ms: seq<Micro>)
    requires Core(w, s) && AllOk(w, s, ms)
    ensures Core(w, ApplyAll(s, ms))
  {
    hide Core, Ok, Apply;
    if ms != [] {
      AllOkKeepsCore(w, s, ms[..|ms| - 1]);
      StepKeepsCore(w, ApplyAll(s, ms[..|ms| - 1]), ms[|ms| - 1]);
    }
  }

  lemma AllOkPush(w: World, s: State, ms: seq<Micro>, m: Micro)
    requires AllOk(w, s, ms) && Ok(w, ApplyAll(s, ms), m)
    ensures AllOk(w, s, ms + [m]) && ApplyAll(s, ms + [m]) == Apply(ApplyAll(s, ms), m)
  {
    hide Ok, Apply;
    assert (ms + [m])[..|ms|] == ms;
  }

  lemma {:induction false} ApplyAllConcat(s: State, ms: seq<Micro>, ns: seq<Micro>)
    ensures ApplyAll(s, ms + ns) == ApplyAll(ApplyAll(s, ms), ns)
  {
    hide Apply;
    if ns == [] {
      assert ms + ns == ms;
    } else {
      var n := |ns| - 1;
      ApplyAllConcat(s, ms, ns[..n]);
      assert (ms + ns)[..|ms + ns| - 1] == ms + ns[..n];
    }
  }

  lemma {:induction false} AllOkConcat(w: World, s: State, ms: seq<Micro>, ns: seq<Micro>)
    requires AllOk(w, s, ms) && AllOk(w, ApplyAll(s, ms), ns)
    ensures AllOk(w, s, ms + ns)
  {
    hide Apply, Ok;
    if ns == [] {
      assert ms + ns == ms;
    } else {
      var n := |ns| - 1;
      AllOkConcat(w, s, ms, ns[..n]);
      ApplyAllConcat(s, ms, ns[..n]);
      assert (ms + ns)[..|ms + ns| - 1] == ms + ns[..n];
    }
  }

  lemma {:induction false} AllOkSplit(w: World, s: State, ms: seq<Micro>, ns: seq<Micro>)
    requires AllOk(w, s, ms + ns)
    ensures AllOk(w, s, ms) && AllOk(w, ApplyAll(s, ms), ns) && ApplyAll(s, ms + ns) == ApplyAll(ApplyAll(s, ms), ns)
  {
    hide Apply, Ok;
    if ns == [] {
      assert ms + ns == ms;
    } else {
      var n := |ns| - 1;
      assert (ms + ns)[..|ms + ns| - 1] == ms + ns[..n];
      AllOkSplit(w, s, ms, ns[..n]);
    }
  }

  lemma ApplyPair(s: State, m: Micro, n: Micro)
    ensures ApplyAll(s, [m, n]) == Apply(Apply(s, m), n)
  {
    hide Apply;
    assert [m, n] == [m] + [n];
    ApplyAllConcat(s, [m], [n]);
    assert [m][..0] == [] && [n][..0] == [];
  }

  predicate KeepsCounters(m: Micro) {
    !m.Take? && !m.Release? && !m.AddTask? && !m.AddPrim?
  }

  lemma CounterStep(s: State, m: Micro)
    requires KeepsCounters(m)
    ensures Apply(s, m).own == s.own
  {
  }

  lemma {:induction false} CountersStay(s: State, ms: seq<Micro>)
    requires forall m :: m in ms ==> KeepsCounters(m)
    ensures ApplyAll(s, ms).own == s.own
  {
    if ms != [] {
      var n := |ms| - 1;
      assert ms == ms[..n] + [ms[n]];
      CountersStay(s, ms[..n]);
      CounterStep(ApplyAll(s, ms[..n]), ms[n]);
    }
  }

  lemma SameWakeUp(s: State, s': State, p: Prim)
    requires Waiting(s', p) == Waiting(s, p)
    ensures WakeUp(s', p) == WakeUp(s, p)
  {
  }

  lemma LastIsNew<T>(s: seq<T>)
    requires s != [] && NoDup(s)
    ensures var n := |s| - 1; s == s[..n] + [s[n]] && NoDup(s[..n]) && s[n] !in s[..n]
  {
  }

  // ------------------------------------------------------------- draining

  /** From `s` to `s'` the tasks of `ts` were resumed; of all else, only stopped
    * lists and marks may differ. */
  ghost predicate Resumed(s: State, s': State, ts: seq<Task>) {
    && s' == s.(stop := s'.stop, marks := s'.marks)
    && s'.stop.tasks.Keys == s.stop.tasks.Keys
    && (forall t :: t in s.stop.tasks ==> s'.stop.tasks[t] == if t in ts then TaskStop(Active, null) else s.stop.tasks[t])
  }

  lemma NoneDone(s: State)
    ensures Resumed(s, s, []) && Unlinked(s, s, []) && Detached(s, s, [])
  {
  }

  lemma ResumeOne(w: World, s: State, s1: State, ts: seq<Task>, t: Task)
    requires Core(w, s1) && Resumed(s, s1, ts) && t !in ts && Ok(w, s, Micro.Resume(t))
    ensures Ok(w, s1, Micro.Resume(t)) && Resumed(s, Apply(s1, Micro.Resume(t)), ts + [t])
  {
    hide Core, LiveTasks;
    StoppedHasStopper(w, s1, t);
  }

  /** Resuming stopped tasks one after the other: each is still stopped when
    * its turn comes, and nothing but the stop graph and the marks changes. */
  lemma {:induction false} ResumesFacts(w: World, s: State, ts: seq<Task>)
    requires Core(w, s) && NoDup(ts)
    requires forall t :: t in ts ==> Ok(w, s, Micro.Resume(t))
    ensures AllOk(w, s, Resumes(ts)) && Core(w, ApplyAll(s, Resumes(ts))) && Resumed(s, ApplyAll(s, Resumes(ts)), ts)
  {
    hide Core, Ok, Resumed, NoDup, Apply;
    if ts == [] {
      NoneDone(s);
    } else {
      var n := |ts| - 1;
      LastIsNew(ts);
      ResumesFacts(w, s, ts[..n]);
      assert Resumes(ts) == Resumes(ts[..n]) + [Micro.Resume(ts[n])];
      var s1 := ApplyAll(s, Resumes(ts[..n]));
      ResumeOne(w, s, s1, ts[..n], ts[n]);
      StepKeepsCore(w, s1, Micro.Resume(ts[n]));
      AllOkPush(w, s, Resumes(ts[..n]), Micro.Resume(ts[n]));
    }
  }

  lemma StoppedHasStopper(w: World, s: State, t: Task)
    requires Core(w, s) && LiveTask(s, t) && t in s.stop.tasks && s.stop.tasks[t].status == Stopped
    ensures var p := s.stop.tasks[t].stopper; p != null && p in LivePrims(s.reg) && p in s.stop.prims && t in s.stop.prims[p].stopped
  {
    hide RegistryOk, ActivesOk, StoppedOk, OverOk, ExecOk, OwnOk, SameProcess, ClosedBut, LiveTasks, LivePrims;
  }

  /** From `s` to `s'` primitive `p` stopped the tasks of `ts`, in this order. */
  ghost predicate Halted(s: State, s': State, p: Prim, ts: seq<Task>) {
    && s' == s.(stop := s'.stop, marks := s'.marks)
    && s'.stop.tasks.Keys == s.stop.tasks.Keys
    && (forall t :: t in s.stop.tasks ==> s'.stop.tasks[t] == if t in ts then TaskStop(Stopped, p) else s.stop.tasks[t])
    && p in s.stop.prims
    && s'.stop.prims == s.stop.prims[p := PrimStop(s.stop.prims[p].stopped + ts, s.stop.prims[p].count + |ts|)]
  }

  lemma NoneStopped(s: State, p: Prim)
    requires p in s.stop.prims
    ensures Halted(s, s, p, [])
  {
    assert s.stop.prims[p].stopped + [] == s.stop.prims[p].stopped;
  }

  lemma HaltOne(w: World, s: State, s1: State, p: Prim, ts: seq<Task>, t: Task)
    requires Halted(s, s1, p, ts) && t !in ts && Ok(w, s, Micro.Stop(p, t))
    ensures Ok(w, s1, Micro.Stop(p, t)) && Halted(s, Apply(s1, Micro.Stop(p, t)), p, ts + [t])
  {
    hide LiveTasks, LivePrims;
    assert (s.stop.prims[p].stopped + ts) + [t] == s.stop.prims[p].stopped + (ts + [t]);
  }

  lemma {:induction false} StopsFacts(w: World, s: State, p: Prim, ts: seq<Task>)
    requires Core(w, s) && NoDup(ts) && p in s.stop.prims
    requires forall t :: t in ts ==> Ok(w, s, Micro.Stop(p, t))
    ensures AllOk(w, s, Stops(p, ts)) && Core(w, ApplyAll(s, Stops(p, ts))) && Halted(s, ApplyAll(s, Stops(p, ts)), p, ts)
  {
    hide Core, Ok, Halted, NoDup, Apply;
    if ts == [] {
      NoneStopped(s, p);
    } else {
      var n := |ts| - 1;
      LastIsNew(ts);
      StopsFacts(w, s, p, ts[..n]);
      assert Stops(p, ts) == Stops(p, ts[..n]) + [Micro.Stop(p, ts[n])];
      var s1 := ApplyAll(s, Stops(p, ts[..n]));
      HaltOne(w, s, s1, p, ts[..n], ts[n]);
      StepKeepsCore(w, s1, Micro.Stop(p, ts[n]));
      AllOkPush(w, s, Stops(p, ts[..n]), Micro.Stop(p, ts[n]));
    }
  }

  /** From `s` to `s'` the primitives of `ps` stopped overriding. */
  ghost predicate Unlinked(s: State, s': State, ps: seq<Prim>) {
    && s' == s.(over := s'.over, marks := s'.marks)
    && s'.over.prims.Keys == s.over.prims.Keys
    && (forall p :: p in s.over.prims ==> s'.over.prims[p] == if p in ps then null else s.over.prims[p])
  }

  lemma UnlinkOne(w: World, s: State, s1: State, ps: seq<Prim>, p: Prim)
    requires Core(w, s1) && Unlinked(s, s1, ps) && Ok(w, s, Micro.Unlink(p))
    ensures Ok(w, s1, Micro.Unlink(p)) && Unlinked(s, Apply(s1, Micro.Unlink(p)), ps + [p])
  {
    hide Core, LiveTasks, LivePrims;
    OverriddenOfCore(w, s1, p);
  }

  lemma OverriddenOfCore(w: World, s: State, p: Prim)
    requires Core(w, s) && LivePrim(s, p)
    ensures p in s.over.prims && (s.over.prims[p] != null ==> LiveTask(s, s.over.prims[p]) && s.over.prims[p] in s.over.tasks)
    ensures Overridden(s, p) != null ==> LiveTask(s, Overridden(s, p))
  {
    hide RegistryOk, StopOk, ExecOk, OwnOk, ClosedBut, SameProcess, LiveTasks, LivePrims, OverridersOk;
  }

  /** The overrider list of a task holds exactly the primitives overriding it. */
  lemma OverridersKnown(w: World, s: State, t: Task)
    requires Core(w, s) && LiveTask(s, t)
    ensures t in s.over.tasks
    ensures forall p :: p in s.over.tasks[t].overriders ==> LivePrim(s, p) && p in s.over.prims && s.over.prims[p] == t
    ensures forall p :: LivePrim(s, p) && p in s.over.prims && s.over.prims[p] == t ==> p in s.over.tasks[t].overriders
  {
    hide RegistryOk, StopOk, ExecOk, OwnOk, SameProcess, ClosedBut, LiveTasks, LivePrims, NoDup;
  }

  lemma {:induction false} UnlinksFacts(w: World, s: State, ps: seq<Prim>)
    requires Core(w, s)
    requires forall p :: p in ps ==> Ok(w, s, Micro.Unlink(p))
    ensures AllOk(w, s, Unlinks(ps)) && Core(w, ApplyAll(s, Unlinks(ps))) && Unlinked(s, ApplyAll(s, Unlinks(ps)), ps)
  {
    hide Core, Ok, Unlinked, Apply;
    if ps == [] {
      NoneDone(s);
    } else {
      var n := |ps| - 1;
      assert ps == ps[..n] + [ps[n]];
      UnlinksFacts(w, s, ps[..n]);
      assert Unlinks(ps) == Unlinks(ps[..n]) + [Micro.Unlink(ps[n])];
      var s1 := ApplyAll(s, Unlinks(ps[..n]));
      UnlinkOne(w, s, s1, ps[..n], ps[n]);
      StepKeepsCore(w, s1, Micro.Unlink(ps[n]));
      AllOkPush(w, s, Unlinks(ps[..n]), Micro.Unlink(ps[n]));
    }
  }

  /** From `s` to `s'` the tasks of `ts` were taken off their threads. */
  ghost predicate Detached(s: State, s': State, ts: seq<Task>) {
    s' == s.(run := s'.run) && DetachedRun(s.run, s'.run, ts)
  }

  ghost predicate DetachedRun(g: Execution, g': Execution, ts: seq<Task>) {
    && g' == g.(tasks := g'.tasks, threads := g'.threads)
    && g'.tasks.Keys == g.tasks.Keys && g'.threads.Keys == g.threads.Keys
    && (forall t :: t in g.tasks ==> g'.tasks[t] == if t in ts then g.tasks[t].(thread := null) else g.tasks[t])
    && (forall h :: h in g.threads ==> LostOnly(g.threads[h].history, g'.threads[h].history, ts))
  }

  /** `b` is `a` less some elements of `ts`. */
  ghost predicate LostOnly(a: seq<Task>, b: seq<Task>, ts: seq<Task>) {
    && (forall t :: t in b ==> t in a)
    && (forall t :: t in a ==> t in b || t in ts)
  }

  lemma LoseOne(a: seq<Task>, b: seq<Task>, ts: seq<Task>, t: Task)
    requires LostOnly(a, b, ts)
    ensures LostOnly(a, b, ts + [t]) && LostOnly(a, Remove(b, t), ts + [t])
  {
    RemoveFacts(b, t);
  }

  lemma DetachOneRun(g: Execution, g1: Execution, ts: seq<Task>, t: Task)
    requires DetachedRun(g, g1, ts) && t !in ts && Detachable(g, t)
    ensures Detachable(g1, t) && DetachedRun(g, DetachTask(g1, t), ts + [t])
  {
    forall h | h in g.threads
      ensures LostOnly(g.threads[h].history, DetachTask(g1, t).threads[h].history, ts + [t])
    {
      LoseOne(g.threads[h].history, g1.threads[h].history, ts, t);
    }
    hide Remove;
  }

  lemma DetachOne(w: World, s: State, s1: State, ts: seq<Task>, t: Task)
    requires Detached(s, s1, ts) && t !in ts && Ok(w, s, Micro.Detach(t))
    ensures Ok(w, s1, Micro.Detach(t)) && Detached(s, Apply(s1, Micro.Detach(t)), ts + [t])
  {
    hide DetachedRun, Detachable, DetachTask;
    DetachOneRun(s.run, s1.run, ts, t);
  }

  lemma {:induction false} DetachesFacts(w: World, s: State, ts: seq<Task>)
    requires Core(w, s) && NoDup(ts)
    requires forall t :: t in ts ==> Ok(w, s, Micro.Detach(t))
    ensures AllOk(w, s, Detaches(ts)) && Core(w, ApplyAll(s, Detaches(ts))) && Detached(s, ApplyAll(s, Detaches(ts)), ts)
  {
    hide Core, Ok, Detached, NoDup, Apply;
    if ts == [] {
      NoneDone(s);
    } else {
      var n := |ts| - 1;
      LastIsNew(ts);
      DetachesFacts(w, s, ts[..n]);
      assert Detaches(ts) == Detaches(ts[..n]) + [Micro.Detach(ts[n])];
      var s1 := ApplyAll(s, Detaches(ts[..n]));
      DetachOne(w, s, s1, ts[..n], ts[n]);
      StepKeepsCore(w, s1, Micro.Detach(ts[n]));
      AllOkPush(w, s, Detaches(ts[..n]), Micro.Detach(ts[n]));
    }
  }

  /** From `s` to `s'` tasks were assigned to threads. */
  ghost predicate Assigned(s: State, s': State) {
    s' == s.(run := s.run.(tasks := s'.run.tasks, threads := s'.run.threads))
  }

  lemma AssignOne(w: World, s: State, s1: State, h: Thread, a: Task?)
    requires Assigned(s, s1) && Ok(w, s, Micro.Assign(h, a))
    ensures Ok(w, s1, Micro.Assign(h, a)) && Assigned(s, Apply(s1, Micro.Assign(h, a)))
  {
    hide LiveTasks;
  }

  lemma {:induction false} AssignsFacts(w: World, s: State, plan: seq<(Thread, Task?)>)
    requires Core(w, s)
    requires forall i :: 0 <= i < |plan| ==> Ok(w, s, Micro.Assign(plan[i].0, plan[i].1))
    ensures AllOk(w, s, Assigns(plan)) && Core(w, ApplyAll(s, Assigns(plan))) && Assigned(s, ApplyAll(s, Assigns(plan)))
  {
    hide Core, Ok, Apply;
    if plan != [] {
      var n := |plan| - 1;
      AssignsFacts(w, s, plan[..n]);
      assert Assigns(plan) == Assigns(plan[..n]) + [Micro.Assign(plan[n].0, plan[n].1)];
      var s1 := ApplyAll(s, Assigns(plan[..n]));
      AssignOne(w, s, s1, plan[n].0, plan[n].1);
      StepKeepsCore(w, s1, Micro.Assign(plan[n].0, plan[n].1));
      AllOkPush(w, s, Assigns(plan[..n]), Micro.Assign(plan[n].0, plan[n].1));
    }
  }
}
