/** The unregistration functions leave no reference to what they unregister, and
  * touch nothing else. */
module Unregistering {
  import opened Lists
  import opened Objects
  import opened Marking
  import opened Model
  import opened Invariant
  import opened Operations
  import opened Plans
  import opened Calls
  import opened Runs
  import opened Queueing

  // ------------------------------------------------------------- primitives

  /** The tasks `p` stopped are active again, the task it overrode is not
    * overridden by it, and nothing else changed. */
  ghost predicate PrimGone(s: State, s': State, p: Prim) {
    && LiveTasks(s'.reg) == LiveTasks(s.reg) && LivePrims(s'.reg) == LivePrims(s.reg) - {p}
    && s'.own == s.own && s'.run == s.run
    && s'.stop.tasks.Keys == s.stop.tasks.Keys && s'.over.prims.Keys == s.over.prims.Keys
    && (forall t :: t in s.stop.tasks ==> s'.stop.tasks[t] == if t in Waiting(s, p) then TaskStop(Active, null) else s.stop.tasks[t])
    && (forall q :: q in s.over.prims ==> s'.over.prims[q] == if q == p then null else s.over.prims[q])
  }

  lemma DropPrimAfterDrain(w: World, s: State, s1: State, p: Prim)
    requires Core(w, s1) && Resumed(s, s1, Waiting(s, p)) && Ok(w, s1, Micro.Unlink(p))
    requires Ok(w, Apply(s1, Micro.Unlink(p)), Micro.DropPrim(p))
    ensures PrimGone(s, Apply(Apply(s1, Micro.Unlink(p)), Micro.DropPrim(p)), p)
  {
    hide Core, Ok, Apply, RegistryOk, ExecOk, OwnOk, ClosedBut, LiveTasks, LivePrims, Waiting;
    CoreParts(w, s1);
    UnlinkDrop(s1, p);
    StepKeepsCore(w, s1, Micro.Unlink(p));
    var s2 := Apply(s1, Micro.Unlink(p));
    CoreParts(w, s2);
    LiveAfter(w, s2, Micro.DropPrim(p));
    UnlinkOverrides(w, s1, p);
  }

  lemma UnlinkDrop(s: State, p: Prim)
    ensures var s1 := Apply(s, Micro.Unlink(p));
            var s' := Apply(s1, Micro.DropPrim(p));
            s1.reg == s.reg && s' == s1.(reg := s'.reg) && s1 == s.(over := s1.over, marks := s1.marks)
  {
    hide Walk, Remove, EdgesOf, UnlinkOverride;
  }

  lemma UnlinkOverrides(w: World, s: State, p: Prim)
    requires Core(w, s) && Ok(w, s, Micro.Unlink(p))
    ensures var g := Apply(s, Micro.Unlink(p)).over.prims; p in s.over.prims && g == s.over.prims[p := null]
  {
    hide Core, Walk, Remove, EdgesOf, LiveTasks, LivePrims;
    OverriddenOfCore(w, s, p);
    assert s.over.prims[p] == null ==> s.over.prims == s.over.prims[p := null];
  }

  /** After a primitive is unregistered no registered task is stopped by it or
    * lists it as overrider; the tasks it stopped are active; the lists of the
    * other primitives are as they were. */
  lemma PrimLeavesNothing(w: World, s: State, p: Prim)
    requires Inv(w, s) && Legal(w, s, UnregisterPrim(p))
    ensures var s' := Step(s, UnregisterPrim(p));
            && Core(w, s') && PrimGone(s, s', p)
            && (forall t :: LiveTask(s', t) ==> t in s'.stop.tasks && s'.stop.tasks[t].stopper != p)
            && (forall t :: LiveTask(s', t) ==> t in s'.over.tasks && p !in s'.over.tasks[t].overriders)
            && (forall q :: LivePrim(s', q) ==> Waiting(s', q) == Waiting(s, q))
  {
    hide Inv, Core, AllOk, Ok, Apply, LiveTasks, LivePrims, Waiting, NoDup, Resumed, Legal;
    InvIsCore(w, s);
    CallKeepsCore(w, s, UnregisterPrim(p));
    PlanOk(w, s, UnregisterPrim(p));
    UnregistersLive(w, s, p);
    DrainedFacts(w, s, p);
    var ts := Waiting(s, p);
    var b := [Micro.Unlink(p), Micro.DropPrim(p)];
    AllOkSplit(w, s, Resumes(ts), b);
    TwoSteps(w, ApplyAll(s, Resumes(ts)), b[0], b[1]);
    DropPrimAfterDrain(w, s, ApplyAll(s, Resumes(ts)), p);
    var s' := Step(s, UnregisterPrim(p));
    NoDangling(w, s, s', p);
    hide Step;
    forall q | LivePrim(s', q)
      ensures Waiting(s', q) == Waiting(s, q)
    {
      OtherQueue(w, s, p, q);
    }
  }

  lemma UnregistersLive(w: World, s: State, p: Prim)
    requires Legal(w, s, UnregisterPrim(p))
    ensures LivePrim(s, p)
  {
  }

  lemma NoDangling(w: World, s: State, s': State, p: Prim)
    requires Core(w, s') && PrimGone(s, s', p)
    ensures forall t :: LiveTask(s', t) ==> t in s'.stop.tasks && s'.stop.tasks[t].stopper != p
    ensures forall t :: LiveTask(s', t) ==> t in s'.over.tasks && p !in s'.over.tasks[t].overriders
    ensures forall q :: LivePrim(s', q) ==> LivePrim(s, q) && q != p
  {
    hide Core, LiveTasks, LivePrims, NoDup, Waiting;
    LinksOfLive(w, s');
  }

  lemma LinksOfLive(w: World, s: State)
    requires Core(w, s)
    ensures forall t :: LiveTask(s, t) ==> t in s.stop.tasks && (s.stop.tasks[t].stopper != null ==> LivePrim(s, s.stop.tasks[t].stopper))
    ensures forall t :: LiveTask(s, t) ==> t in s.over.tasks && forall q :: q in s.over.tasks[t].overriders ==> LivePrim(s, q)
    ensures forall q :: LivePrim(s, q) ==> q in s.over.prims && (s.over.prims[q] != null ==> LiveTask(s, s.over.prims[q]))
    ensures forall q :: LivePrim(s, q) ==> q in s.stop.prims && forall t :: t in s.stop.prims[q].stopped ==> LiveTask(s, t)
  {
    hide LiveTasks, LivePrims, RegistryOk, ActivesOk, ExecOk, OwnOk, SameProcess, ClosedBut, NoDup;
  }

  lemma DrainedFacts(w: World, s: State, p: Prim)
    requires Core(w, s) && LivePrim(s, p)
    ensures Core(w, ApplyAll(s, Resumes(Waiting(s, p)))) && Resumed(s, ApplyAll(s, Resumes(Waiting(s, p))), Waiting(s, p))
  {
    hide Core, Ok, Resumed, NoDup, LivePrims, LiveTasks;
    StoppedOfCore(w, s, p);
    ResumesFacts(w, s, Waiting(s, p));
  }

  lemma OtherQueue(w: World, s: State, p: Prim, q: Prim)
    requires Inv(w, s) && Legal(w, s, UnregisterPrim(p)) && LivePrim(s, q) && q != p
    ensures Waiting(Step(s, UnregisterPrim(p)), q) == Waiting(s, q)
  {
    hide Inv, Core, Step, LivePrims, LiveTasks, Waiting;
    InvParts(w, s, q);
    WakeKeeps(w, s, q, p, s.reg.prims[q]);
    KeepingCall(w, s, UnregisterPrim(p), q);
  }

  // ------------------------------------------------------------------ tasks

  /** Task `t` was unregistered and `next` assigned to its thread; of all other
    * tasks and primitives only the overrides of `t` and the thread of `next` changed. */
  ghost predicate TaskGone(s: State, s': State, t: Task, next: Task?) {
    && LiveTasks(s'.reg) == LiveTasks(s.reg) - {t} && LivePrims(s'.reg) == LivePrims(s.reg)
    && s'.own == s.own
    && s'.stop.tasks == s.stop.tasks && s'.stop.prims == s.stop.prims
    && s'.over.prims.Keys == s.over.prims.Keys
    && (forall p :: LivePrim(s, p) && p in s.over.prims ==> s'.over.prims[p] == if s.over.prims[p] == t then null else s.over.prims[p])
    && s'.run.tasks.Keys == s.run.tasks.Keys
    && (forall u :: u in s.run.tasks && u != t && u != next ==> s'.run.tasks[u] == s.run.tasks[u])
    && t in s'.run.tasks && s'.run.tasks[t].thread == null
  }

  /** Before a new task is assigned. */
  ghost predicate TaskOut(s: State, s': State, t: Task) {
    && Calls.Unregistered(s, s', t)
    && s'.over.prims.Keys == s.over.prims.Keys
    && (forall p :: LivePrim(s, p) && p in s.over.prims ==> s'.over.prims[p] == if s.over.prims[p] == t then null else s.over.prims[p])
  }

  lemma OverridesOut(w: World, s: State, s1: State, t: Task)
    requires Core(w, s) && LiveTask(s, t) && t in s.over.tasks && Unlinked(s, s1, s.over.tasks[t].overriders)
    ensures forall p :: LivePrim(s, p) && p in s.over.prims ==> s1.over.prims[p] == if s.over.prims[p] == t then null else s.over.prims[p]
  {
    hide Core, LiveTasks, LivePrims;
    OverridersKnown(w, s, t);
  }

  lemma RemovalEffect(w: World, s: State, t: Task)
    requires Core(w, s) && ActiveTask(s, t)
    ensures var ps := (if t in s.over.tasks then s.over.tasks[t].overriders else []);
            var ms := Unlinks(ps) + [Micro.Detach(t), Micro.DropTask(t)];
            && AllOk(w, s, ms) && Core(w, ApplyAll(s, ms)) && TaskOut(s, ApplyAll(s, ms), t)
  {
    hide Core, AllOk, Ok, Apply, LiveTasks, LivePrims, Calls.Unregistered, Unlinked;
    DrainOverriders(w, s, t);
    RemoveTaskOk(w, s, t);
    var ps := s.over.tasks[t].overriders;
    var s1 := ApplyAll(s, Unlinks(ps));
    OverridesOut(w, s, s1, t);
    var b := [Micro.Detach(t), Micro.DropTask(t)];
    AllOkSplit(w, s, Unlinks(ps), b);
    TwoSteps(w, s1, b[0], b[1]);
    DetachDropKeepsOver(s1, t);
    UnlinkedKeys(s, s1, ps);
  }

  lemma DetachDropKeepsOver(s: State, t: Task)
    ensures Apply(Apply(s, Micro.Detach(t)), Micro.DropTask(t)).over == s.over
  {
    hide Remove, DetachTask;
  }

  lemma UnlinkedKeys(s: State, s1: State, ps: seq<Prim>)
    requires Unlinked(s, s1, ps)
    ensures s1.over.prims.Keys == s.over.prims.Keys
  {
  }

  lemma AssignAfterTask(s: State, s1: State, t: Task, h: Thread, next: Task?)
    requires TaskOut(s, s1, t) && t in s.run.tasks && next != t
    requires s.run.tasks[t].thread == null || s.run.tasks[t].thread in s.run.threads
    ensures TaskGone(s, Apply(s1, Micro.Assign(h, next)), t, next)
  {
    hide LiveTasks, LivePrims, Remove;
  }

  /** After a task is unregistered no list and no thread refers to it, no
    * primitive overrides or stops it, and everything else keeps its relations. */
  lemma TaskLeavesNothing(w: World, s: State, h: Thread, next: Task?)
    requires Inv(w, s) && Legal(w, s, UnregisterTask(h, next))
    ensures var t := Current(s, h);
            var s' := Step(s, UnregisterTask(h, next));
            && t != null && Core(w, s') && TaskGone(s, s', t, next)
            && t !in s'.stop.actives
            && (forall p :: LivePrim(s', p) ==> p in s'.over.prims && s'.over.prims[p] != t && t !in Waiting(s', p))
            && (forall k :: k in s'.run.list ==> k in s'.run.threads && t !in s'.run.threads[k].history && s'.run.threads[k].task != t)
  {
    hide Inv, Core, AllOk, Ok, Apply, LiveTasks, LivePrims, Waiting, NoDup, TaskOut, Legal, TaskGone;
    InvIsCore(w, s);
    RunnerIsActive(w, s, h, next);
    CallKeepsCore(w, s, UnregisterTask(h, next));
    PlanOk(w, s, UnregisterTask(h, next));
    var t := Current(s, h);
    RemovalEffect(w, s, t);
    var ps := if t in s.over.tasks then s.over.tasks[t].overriders else [];
    var a, b := Unlinks(ps) + [Micro.Detach(t), Micro.DropTask(t)], [Micro.Assign(h, next)];
    assert Plan(s, UnregisterTask(h, next)) == a + b by {
      PlainUnregisterPlan(s, h, t, next);
    }
    AllOkSplit(w, s, a, b);
    OneStep(w, ApplyAll(s, a), b[0]);
    AssignAfterTask(s, ApplyAll(s, a), t, h, next);
    TaskNowhere(w, s, Step(s, UnregisterTask(h, next)), t, next);
  }

  lemma PlainUnregisterPlan(s: State, h: Thread, t: Task, next: Task?)
    requires Current(s, h) == t && t in s.stop.tasks && s.stop.tasks[t].status == Active
    ensures var ps := (if t in s.over.tasks then s.over.tasks[t].overriders else []);
            Plan(s, UnregisterTask(h, next)) == Unlinks(ps) + [Micro.Detach(t), Micro.DropTask(t)] + [Micro.Assign(h, next)]
  {
    hide Unlinks;
  }

  lemma RunnerIsActive(w: World, s: State, h: Thread, next: Task?)
    requires Inv(w, s) && Legal(w, s, UnregisterTask(h, next))
    ensures var t := Current(s, h);
            && t != null && ActiveTask(s, t) && LivePrims(s.reg) <= s.over.prims.Keys && next != t
            && t in s.run.tasks && (s.run.tasks[t].thread == null || s.run.tasks[t].thread in s.run.threads)
  {
    hide Core, LiveTasks, LivePrims;
    var t := Current(s, h);
    assert ThreadActive(s.run, h);
    LiveIsDetachable(w, s, t);
    OverKeys(w, s);
  }

  lemma OverKeys(w: World, s: State)
    requires Core(w, s)
    ensures LivePrims(s.reg) <= s.over.prims.Keys
  {
    hide LivePrims, LiveTasks, RegistryOk, StopOk, ExecOk, OwnOk, SameProcess, ClosedBut;
  }

  lemma TaskNowhere(w: World, s: State, s': State, t: Task, next: Task?)
    requires Core(w, s') && TaskGone(s, s', t, next)
    ensures t !in s'.stop.actives
    ensures forall p :: LivePrim(s', p) ==> p in s'.over.prims && s'.over.prims[p] != t && t !in Waiting(s', p)
    ensures forall k :: k in s'.run.list ==> k in s'.run.threads && t !in s'.run.threads[k].history && s'.run.threads[k].task != t
  {
    hide Core, LiveTasks, LivePrims, NoDup;
    assert !LiveTask(s', t);
    LinksOfLive(w, s');
    ActivesAreLive(w, s');
    forall k | k in s'.run.list
      ensures k in s'.run.threads && t !in s'.run.threads[k].history && s'.run.threads[k].task != t
    {
      ThreadTasksAreDetachable(w, s', k);
    }
  }

  lemma ActivesAreLive(w: World, s: State)
    requires Core(w, s)
    ensures forall t :: t in s.stop.actives ==> LiveTask(s, t)
  {
    hide LiveTasks, LivePrims, RegistryOk, StoppersOk, StoppedOk, OverOk, ExecOk, OwnOk, SameProcess, ClosedBut, NoDup;
  }

  // ---------------------------------------------------------------- threads

  lemma {:induction false} OtherThreadsStay(w: World, s: State, ts: seq<Task>, h: Thread)
    requires Core(w, s) && NoDup(ts) && h in s.run.list
    requires forall t :: t in ts ==> Ok(w, s, Micro.Detach(t)) && t in s.run.tasks && s.run.tasks[t].thread == h
    ensures forall k :: k in s.run.threads && k != h ==> k in ApplyAll(s, Detaches(ts)).run.threads && ApplyAll(s, Detaches(ts)).run.threads[k] == s.run.threads[k]
  {
    hide Core, Ok, Apply, NoDup;
    if ts != [] {
      var n := |ts| - 1;
      LastIsNew(ts);
      OtherThreadsStay(w, s, ts[..n], h);
      DetachesFacts(w, s, ts[..n]);
      assert Detaches(ts) == Detaches(ts[..n]) + [Micro.Detach(ts[n])];
      var s1 := ApplyAll(s, Detaches(ts[..n]));
      DetachesOnly(s1, ts[n], h);
    }
  }

  lemma DetachesOnly(s: State, t: Task, h: Thread)
    requires t in s.run.tasks && s.run.tasks[t].thread == h
    ensures forall k :: k in s.run.threads && k != h ==>
              k in Apply(s, Micro.Detach(t)).run.threads && Apply(s, Micro.Detach(t)).run.threads[k] == s.run.threads[k]
  {
    hide Remove;
  }

  /** After a thread is unregistered no registered task names it; its history's
    * tasks have no thread, and everything else is as it was. */
  lemma ThreadLeavesNothing(w: World, s: State, h: Thread)
    requires Core(w, s) && Legal(w, s, UnregisterThread(h))
    ensures h in s.run.threads
    ensures var s' := Step(s, UnregisterThread(h));
            && Core(w, s') && s' == s.(run := s'.run) && h !in s'.run.list
            && s'.run.tasks.Keys == s.run.tasks.Keys && s'.run.threads.Keys == s.run.threads.Keys
            && (forall t :: LiveTask(s', t) ==> t in s'.run.tasks && s'.run.tasks[t].thread != h)
            && (forall t :: t in s.run.tasks ==>
                  s'.run.tasks[t] == if t in s.run.threads[h].history then s.run.tasks[t].(thread := null) else s.run.tasks[t])
            && (forall k :: k in s'.run.list ==> k in s'.run.threads && s'.run.threads[k] == s.run.threads[k])
  {
    hide Core, AllOk, Ok, Apply, LiveTasks, LivePrims, NoDup;
    CallKeepsCore(w, s, UnregisterThread(h));
    UnregisterThreadOk(w, s, h);
    ThreadTasksAreDetachable(w, s, h);
    var ts := s.run.threads[h].history;
    DetachesFacts(w, s, ts);
    OtherThreadsStay(w, s, ts, h);
    AllOkSplit(w, s, Detaches(ts), [Micro.DropThread(h)]);
    var s1 := ApplyAll(s, Detaches(ts));
    OneStep(w, s1, Micro.DropThread(h));
    DropsThread(s1, h);
    var s' := Step(s, UnregisterThread(h));
    forall t | LiveTask(s', t)
      ensures t in s'.run.tasks && s'.run.tasks[t].thread != h
    {
      LiveIsDetachable(w, s', t);
      NamedIsListed(w, s', t);
    }
    forall k | k in s'.run.list
      ensures k in s'.run.threads && k != h
    {
      ThreadTasksAreDetachable(w, s', k);
    }
  }

  lemma NamedIsListed(w: World, s: State, t: Task)
    requires Ok(w, s, Micro.Detach(t))
    ensures t in s.run.tasks && (s.run.tasks[t].thread != null ==> s.run.tasks[t].thread in s.run.list)
  {
  }

  lemma DropsThread(s: State, h: Thread)
    ensures var s' := Apply(s, Micro.DropThread(h));
            s' == s.(run := s'.run) && s'.run == s.run.(list := Remove(s.run.list, h), count := s.run.count - 1) && h !in s'.run.list
  {
    RemoveFacts(s.run.list, h);
  }
}
