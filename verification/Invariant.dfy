/** The scheduler-wide invariant, and that every elementary step keeps it. */
module Invariant {
  import opened Lists
  import opened Objects
  import opened Marking
  import opened Model

  // ------------------------------------------------------------- invariant

  ghost predicate RegistryOk(w: World, g: Registry) {
    && g.tasks.Keys == w.tasks && g.prims.Keys == w.prims && g.procs.Keys == w.procs
    && NoDup(g.list) && g.count == |g.list|
    && forall c :: c in g.list ==> c in g.procs && ProcessOk(g, c)
  }

  ghost predicate ProcessOk(g: Registry, c: Process)
    requires c in g.procs
  {
    var r := g.procs[c];
    && NoDup(r.tasks) && r.nbTasks == |r.tasks| && NoDup(r.prims) && r.nbPrims == |r.prims|
    && (forall t :: t in r.tasks ==> t in g.tasks && g.tasks[t] == c)
    && (forall p :: p in r.prims ==> p in g.prims && g.prims[p] == c)
  }

  /** The active list holds the active registered tasks, each once. */
  ghost predicate ActivesOk(lt: set<Task>, g: StopGraph) {
    && NoDup(g.actives)
    && (forall t :: t in g.actives ==> t in lt && t in g.tasks && g.tasks[t].status == Active)
    && (forall t :: t in lt && t in g.tasks && g.tasks[t].status == Active ==> t in g.actives)
  }

  /** A registered task is active without a stopper, or stopped and in the list
    * of its own, registered stopper. */
  ghost predicate StoppersOk(lt: set<Task>, lp: set<Prim>, g: StopGraph) {
    forall t :: t in lt ==> t in g.tasks && StopperOk(lp, g, t)
  }

  ghost predicate StopperOk(lp: set<Prim>, g: StopGraph, t: Task)
    requires t in g.tasks
  {
    var r := g.tasks[t];
    if r.status == Active then r.stopper == null
    else r.status == Stopped && r.stopper != null && r.stopper in lp && r.stopper in g.prims && t in g.prims[r.stopper].stopped
  }

  /** The stopped list of a primitive holds the tasks it stops, each once, and is counted. */
  ghost predicate StoppedOk(lt: set<Task>, lp: set<Prim>, g: StopGraph) {
    forall p :: p in lp ==> p in g.prims && StoppedListOk(lt, g, p)
  }

  ghost predicate StoppedListOk(lt: set<Task>, g: StopGraph, p: Prim)
    requires p in g.prims
  {
    var r := g.prims[p];
    NoDup(r.stopped) && r.count == |r.stopped|
    && forall t :: t in r.stopped ==> t in lt && t in g.tasks && g.tasks[t].stopper == p
  }

  ghost predicate StopOk(w: World, lt: set<Task>, lp: set<Prim>, g: StopGraph) {
    && g.tasks.Keys == w.tasks && g.prims.Keys == w.prims
    && ActivesOk(lt, g) && StoppersOk(lt, lp, g) && StoppedOk(lt, lp, g)
  }

  /** A primitive is in the overrider list of the task it overrides, and of no other. */
  ghost predicate OverOk(w: World, lt: set<Task>, lp: set<Prim>, g: OverGraph) {
    && g.tasks.Keys == w.tasks && g.prims.Keys == w.prims
    && (forall t :: t in lt ==> t in g.tasks && OverridersOk(lp, g, t))
    && (forall p :: p in lp ==> p in g.prims && OverriddenOk(lt, g, p))
  }

  ghost predicate OverridersOk(lp: set<Prim>, g: OverGraph, t: Task)
    requires t in g.tasks
  {
    var r := g.tasks[t];
    NoDup(r.overriders) && r.count == |r.overriders|
    && forall p :: p in r.overriders ==> p in lp && p in g.prims && g.prims[p] == t
  }

  ghost predicate OverriddenOk(lt: set<Task>, g: OverGraph, p: Prim)
    requires p in g.prims
  {
    var t := g.prims[p];
    t != null ==> t in lt && t in g.tasks && p in g.tasks[t].overriders
  }

  /** A thread's history holds exactly the tasks that name the thread, and its
    * current task names it back with an equal commit index. */
  ghost predicate ThreadOk(g: Execution, h: Thread)
    requires h in g.threads
  {
    var r := g.threads[h];
    && NoDup(r.history) && r.size == |r.history|
    && (forall t :: t in r.history ==> t in g.tasks && g.tasks[t].thread == h)
    && (if r.task == null then r.commit == USIZE_MAX
        else r.commit != USIZE_MAX && r.task in r.history && r.task in g.tasks && g.tasks[r.task].commit == r.commit)
  }

  ghost predicate CommitOk(g: Execution, c: int) {
    (0 <= c <= g.index || c == USIZE_MAX) && (g.committing ==> c != g.index)
  }

  ghost predicate ExecOk(w: World, lt: set<Task>, g: Execution) {
    && g.tasks.Keys == w.tasks && g.threads.Keys == w.threads
    && 0 <= g.index < USIZE_MAX
    && NoDup(g.list) && g.count == |g.list|
    && ThreadsOk(g) && RunnersOk(lt, g)
  }

  ghost predicate ThreadsOk(g: Execution) {
    forall h :: h in g.list ==> h in g.threads && ThreadOk(g, h) && CommitOk(g, g.threads[h].commit)
  }

  ghost predicate RunnersOk(lt: set<Task>, g: Execution) {
    forall t :: t in lt ==> t in g.tasks && NamesThread(g, t) && CommitOk(g, g.tasks[t].commit)
  }

  ghost predicate NamesThread(g: Execution, t: Task)
    requires t in g.tasks
  {
    var h := g.tasks[t].thread;
    h != null ==> h in g.list && h in g.threads && t in g.threads[h].history
  }

  /** The task, if on a thread, is in the history of a registered thread. */
  ghost predicate Detachable(g: Execution, t: Task) {
    t in g.tasks && var h := g.tasks[t].thread; h != null ==> h in g.list && h in g.threads && t in g.threads[h].history
  }

  ghost predicate OwnOk(w: World, o: Ownership) {
    && o.tasks.Keys == w.tasks && o.prims.Keys == w.prims
    && (forall t :: t in o.tasks ==> 0 <= o.tasks[t])
    && (forall p :: p in o.prims ==> 0 <= o.prims[p])
  }

  /** Stopper and override links stay within one process. */
  ghost predicate SameProcess(g: Registry, lt: set<Task>, lp: set<Prim>, stop: StopGraph, over: OverGraph) {
    && (forall t :: t in lt && t in stop.tasks && stop.tasks[t].stopper != null && t in g.tasks && stop.tasks[t].stopper in g.prims
          ==> g.prims[stop.tasks[t].stopper] == g.tasks[t])
    && (forall p :: p in lp && p in over.prims && over.prims[p] != null && p in g.prims && over.prims[p] in g.tasks
          ==> g.tasks[over.prims[p]] == g.prims[p])
  }

  /** The invariant of a scheduler over the objects of `w`. */
  ghost predicate Core(w: World, s: State) {
    var lt, lp := LiveTasks(s.reg), LivePrims(s.reg);
    && RegistryOk(w, s.reg)
    && StopOk(w, lt, lp, s.stop)
    && OverOk(w, lt, lp, s.over)
    && ExecOk(w, lt, s.run)
    && OwnOk(w, s.own)
    && SameProcess(s.reg, lt, lp, s.stop, s.over)
    && Closed(EdgesOf(s.stop, s.over), lt, lp, s.marks)
  }

  // -------------------------------------------------------- legal steps

  ghost predicate LiveTask(s: State, t: Task?) {
    t != null && t in LiveTasks(s.reg)
  }

  ghost predicate LivePrim(s: State, p: Prim) {
    p in LivePrims(s.reg)
  }

  ghost predicate ActiveTask(s: State, t: Task?) {
    LiveTask(s, t) && t in s.stop.tasks && s.stop.tasks[t].status == Active
  }

  /** The checks of the primitive functions: one process, an active task. */
  ghost predicate Compatible(s: State, p: Prim, t: Task?) {
    LivePrim(s, p) && ActiveTask(s, t) && p in s.reg.prims && t in s.reg.tasks && s.reg.prims[p] == s.reg.tasks[t]
  }

  /** When a step may be taken: the checks the source makes, and that objects
    * being registered are not linked anywhere yet. */
  ghost predicate Ok(w: World, s: State, m: Micro) {
    match m
    case Take(p, t) => Compatible(s, p, t) && p in w.prims && t in w.tasks
    case Release(p, t) => Compatible(s, p, t) && p in w.prims && t in w.tasks
    case Link(p, t) => Compatible(s, p, t) && p in s.over.prims && s.over.prims[p] == null
    case Unlink(p) => LivePrim(s, p)
    case Stop(p, t) => Compatible(s, p, t)
    case Resume(t) => LiveTask(s, t) && t in s.stop.tasks && s.stop.tasks[t].status == Stopped
    case Assign(h, a) => h in s.run.list && !s.run.committing && (a == null || ActiveTask(s, a))
    case Detach(t) => Detachable(s.run, t)
    case AddTask(c, t) =>
      c in s.reg.list && t in w.tasks && !LiveTask(s, t)
      && forall h :: h in s.run.list && h in s.run.threads ==> t !in s.run.threads[h].history
    case DropTask(t) =>
      ActiveTask(s, t) && t in s.over.tasks && s.over.tasks[t].overriders == [] && t in s.run.tasks && s.run.tasks[t].thread == null
    case AddPrim(c, p) => c in s.reg.list && p in w.prims && !LivePrim(s, p)
    case DropPrim(p) => LivePrim(s, p) && p in s.stop.prims && s.stop.prims[p].stopped == [] && p in s.over.prims && s.over.prims[p] == null
    case AddThread(h) => h in w.threads && h !in s.run.list
    case DropThread(h) => h in s.run.list && h in s.run.threads && s.run.threads[h].history == []
    case AddProcess(c) => c in w.procs && c !in s.reg.list
    case DropProcess(c) => c in s.reg.list
    case SetStatus(c, status) => c in s.reg.list
    case OpenCommit => !s.run.committing && s.run.index + 1 < USIZE_MAX
    case CloseCommit => true
    case ClearMarks(c) => Closed(EdgesOf(s.stop, s.over), LiveTasks(s.reg), LivePrims(s.reg), Marks(s.marks.tasks - c.tasks, s.marks.prims - c.prims))
  }

  // ------------------------------------------------- the stop graph

  lemma StopKeepsStopOk(w: World, lt: set<Task>, lp: set<Prim>, g: StopGraph, p: Prim, t: Task)
    requires StopOk(w, lt, lp, g) && t in lt && p in lp && t in g.tasks && g.tasks[t].status == Active
    ensures StopOk(w, lt, lp, StopTask(g, p, t))
  {
    var g' := StopTask(g, p, t);
    assert t !in g.prims[p].stopped;
    assert ActivesOk(lt, g') by {
      RemoveFacts(g.actives, t);
      hide NoDup, StoppersOk, StoppedOk;
    }
    assert StoppersOk(lt, lp, g') by {
      hide NoDup, ActivesOk, StoppedOk;
    }
    assert StoppedOk(lt, lp, g') by {
      PushFacts(g.prims[p].stopped, t);
      hide NoDup, ActivesOk;
    }
  }

  lemma ResumeKeepsStopOk(w: World, lt: set<Task>, lp: set<Prim>, g: StopGraph, t: Task)
    requires StopOk(w, lt, lp, g) && t in lt && t in g.tasks && g.tasks[t].status == Stopped
    ensures StopOk(w, lt, lp, ResumeTask(g, t))
  {
    var g' := ResumeTask(g, t);
    var p := g.tasks[t].stopper;
    RemoveFacts(g.prims[p].stopped, t);
    assert ActivesOk(lt, g') by {
      PushFacts(g.actives, t);
      hide NoDup, StoppersOk, StoppedOk;
    }
    assert StoppersOk(lt, lp, g') by {
      hide NoDup, ActivesOk;
    }
    assert StoppedOk(lt, lp, g') by {
      hide NoDup, ActivesOk;
    }
  }

  lemma AddTaskKeepsStopOk(w: World, lt: set<Task>, lp: set<Prim>, g: StopGraph, t: Task)
    requires StopOk(w, lt, lp, g) && t in w.tasks && t !in lt
    ensures StopOk(w, lt + {t}, lp, g.(tasks := g.tasks[t := TaskStop(Active, null)], actives := [t] + g.actives))
  {
    PushFacts(g.actives, t);
    hide NoDup;
  }

  lemma DropTaskKeepsStopOk(w: World, lt: set<Task>, lp: set<Prim>, g: StopGraph, t: Task)
    requires StopOk(w, lt, lp, g) && t in lt && t in g.tasks && g.tasks[t].status == Active
    ensures StopOk(w, lt - {t}, lp, g.(actives := Remove(g.actives, t)))
  {
    RemoveFacts(g.actives, t);
    hide NoDup;
  }

  lemma AddPrimKeepsStopOk(w: World, lt: set<Task>, lp: set<Prim>, g: StopGraph, p: Prim)
    requires StopOk(w, lt, lp, g) && p in w.prims && p !in lp
    ensures StopOk(w, lt, lp + {p}, g.(prims := g.prims[p := PrimStop([], 0)]))
  {
    assert NoDup<Task>([]);
    hide NoDup;
  }

  lemma DropPrimKeepsStopOk(w: World, lt: set<Task>, lp: set<Prim>, g: StopGraph, p: Prim)
    requires StopOk(w, lt, lp, g) && p in lp && g.prims[p].stopped == []
    ensures StopOk(w, lt, lp - {p}, g)
  {
    hide NoDup;
  }

  lemma {:induction false} ActiveOfFacts(g: StopGraph, ts: seq<Task>)
    ensures forall t :: t in ActiveOf(g, ts) ==> t in ts && t in g.tasks && g.tasks[t].status == Active
    ensures forall t :: t in ts && t in g.tasks && g.tasks[t].status == Active ==> t in ActiveOf(g, ts)
  {
    if ts != [] {
      var n := |ts| - 1;
      ActiveOfFacts(g, ts[..n]);
      assert ts == ts[..n] + [ts[n]];
    }
  }

  lemma DropProcessKeepsStopOk(w: World, lt: set<Task>, lp: set<Prim>, lt': set<Task>, lp': set<Prim>, g: StopGraph, ts: seq<Task>)
    requires StopOk(w, lt, lp, g) && lt' <= lt && lp' <= lp
    requires forall t :: t in ts <==> t in lt && t !in lt'
    requires forall t :: t in lt' && g.tasks[t].stopper != null ==> g.tasks[t].stopper in lp'
    requires forall p, t :: p in lp' && t in g.prims[p].stopped ==> t in lt'
    ensures StopOk(w, lt', lp', g.(actives := RemoveAll(g.actives, ActiveOf(g, ts))))
  {
    ActiveOfFacts(g, ts);
    RemoveAllFacts(g.actives, ActiveOf(g, ts));
    hide NoDup;
  }

  // ------------------------------------------------- the override graph

  lemma LinkKeepsOverOk(w: World, lt: set<Task>, lp: set<Prim>, g: OverGraph, p: Prim, t: Task)
    requires OverOk(w, lt, lp, g) && t in lt && p in lp && g.prims[p] == null
    ensures OverOk(w, lt, lp, LinkOverride(g, p, t))
  {
    assert p !in g.tasks[t].overriders;
    PushFacts(g.tasks[t].overriders, p);
    hide NoDup;
  }

  lemma UnlinkKeepsOverOk(w: World, lt: set<Task>, lp: set<Prim>, g: OverGraph, p: Prim)
    requires OverOk(w, lt, lp, g) && p in lp
    ensures OverOk(w, lt, lp, UnlinkOverride(g, p))
  {
    if g.prims[p] != null {
      RemoveFacts(g.tasks[g.prims[p]].overriders, p);
    }
    hide NoDup;
  }

  lemma AddTaskKeepsOverOk(w: World, lt: set<Task>, lp: set<Prim>, g: OverGraph, t: Task)
    requires OverOk(w, lt, lp, g) && t in w.tasks && t !in lt
    ensures OverOk(w, lt + {t}, lp, g.(tasks := g.tasks[t := TaskOver([], 0)]))
  {
    assert NoDup<Prim>([]);
    hide NoDup;
  }

  lemma DropTaskKeepsOverOk(w: World, lt: set<Task>, lp: set<Prim>, g: OverGraph, t: Task)
    requires OverOk(w, lt, lp, g) && t in lt && g.tasks[t].overriders == []
    ensures OverOk(w, lt - {t}, lp, g)
  {
    hide NoDup;
  }

  lemma AddPrimKeepsOverOk(w: World, lt: set<Task>, lp: set<Prim>, g: OverGraph, p: Prim)
    requires OverOk(w, lt, lp, g) && p in w.prims && p !in lp
    ensures OverOk(w, lt, lp + {p}, g.(prims := g.prims[p := null]))
  {
    hide NoDup;
  }

  lemma DropPrimKeepsOverOk(w: World, lt: set<Task>, lp: set<Prim>, g: OverGraph, p: Prim)
    requires OverOk(w, lt, lp, g) && p in lp && g.prims[p] == null
    ensures OverOk(w, lt, lp - {p}, g)
  {
    hide NoDup;
  }

  lemma DropProcessKeepsOverOk(w: World, lt: set<Task>, lp: set<Prim>, lt': set<Task>, lp': set<Prim>, g: OverGraph)
    requires OverOk(w, lt, lp, g) && lt' <= lt && lp' <= lp
    requires forall p :: p in lp' && g.prims[p] != null ==> g.prims[p] in lt'
    requires forall t, p :: t in lt' && p in g.tasks[t].overriders ==> p in lp'
    ensures OverOk(w, lt', lp', g)
  {
    hide NoDup;
  }

  // --------------------------------------------------------- execution

  lemma DetachKeepsThreadsOk(g: Execution, t: Task)
    requires ThreadsOk(g) && Detachable(g, t) && g.index < USIZE_MAX
    ensures ThreadsOk(DetachTask(g, t))
  {
    if g.tasks[t].thread != null {
      RemoveFacts(g.threads[g.tasks[t].thread].history, t);
    }
    hide NoDup;
  }

  lemma DetachKeepsRunnersOk(lt: set<Task>, g: Execution, t: Task)
    requires ThreadsOk(g) && RunnersOk(lt, g) && Detachable(g, t)
    ensures RunnersOk(lt, DetachTask(g, t))
  {
    if g.tasks[t].thread != null {
      RemoveFacts(g.threads[g.tasks[t].thread].history, t);
    }
    hide NoDup, ThreadOk;
  }

  lemma DetachKeepsExecOk(w: World, lt: set<Task>, g: Execution, t: Task)
    requires ExecOk(w, lt, g) && Detachable(g, t)
    ensures ExecOk(w, lt, DetachTask(g, t))
    ensures t in DetachTask(g, t).tasks && DetachTask(g, t).tasks[t].thread == null
  {
    DetachKeepsThreadsOk(g, t);
    DetachKeepsRunnersOk(lt, g, t);
    hide NoDup, ThreadsOk, RunnersOk;
  }

  lemma AttachKeepsExecOk(w: World, lt: set<Task>, g: Execution, h: Thread, t: Task)
    requires ExecOk(w, lt, g) && t in lt && h in g.list && g.tasks[t].thread == null
    ensures ExecOk(w, lt, AttachTask(g, h, t))
  {
    assert t !in g.threads[h].history;
    PushFacts(g.threads[h].history, t);
    hide NoDup;
  }

  lemma AssignKeepsExecOk(w: World, lt: set<Task>, g: Execution, h: Thread, a: Task?)
    requires ExecOk(w, lt, g) && h in g.list && (a != null ==> a in lt && !g.committing)
    ensures ExecOk(w, lt, AssignTask(g, h, a))
  {
    if a == null {
      hide NoDup;
    } else {
      if g.tasks[a].thread != h {
        DetachKeepsExecOk(w, lt, g, a);
        AttachKeepsExecOk(w, lt, DetachTask(g, a), h, a);
      }
      var g' := if g.tasks[a].thread == h then g else AttachTask(DetachTask(g, a), h, a);
      SelectKeepsExecOk(w, lt, g', h, a);
    }
  }

  lemma SelectKeepsExecOk(w: World, lt: set<Task>, g: Execution, h: Thread, t: Task)
    requires ExecOk(w, lt, g) && h in g.list && t in lt && g.tasks[t].thread == h && !g.committing
    ensures ExecOk(w, lt, g.(tasks := g.tasks[t := TaskRun(h, g.index)],
                             threads := g.threads[h := g.threads[h].(task := t, commit := g.index)]))
  {
    hide NoDup;
  }

  lemma AddTaskKeepsExecOk(w: World, lt: set<Task>, g: Execution, t: Task)
    requires ExecOk(w, lt, g) && t in w.tasks
    requires forall h :: h in g.list && h in g.threads ==> t !in g.threads[h].history
    ensures ExecOk(w, lt + {t}, g.(tasks := g.tasks[t := TaskRun(null, USIZE_MAX)]))
  {
    hide NoDup;
  }

  lemma AddThreadKeepsExecOk(w: World, lt: set<Task>, g: Execution, h: Thread)
    requires ExecOk(w, lt, g) && h in w.threads && h !in g.list
    ensures ExecOk(w, lt, g.(threads := g.threads[h := ThreadRun(null, USIZE_MAX, [], 0)], list := [h] + g.list, count := g.count + 1))
  {
    PushFacts(g.list, h);
    assert NoDup<Task>([]);
    hide NoDup;
  }

  lemma DropThreadKeepsExecOk(w: World, lt: set<Task>, g: Execution, h: Thread)
    requires ExecOk(w, lt, g) && h in g.list && g.threads[h].history == []
    ensures ExecOk(w, lt, g.(list := Remove(g.list, h), count := g.count - 1))
  {
    RemoveFacts(g.list, h);
    hide NoDup;
  }

  lemma CommitKeepsExecOk(w: World, lt: set<Task>, g: Execution)
    requires ExecOk(w, lt, g)
    ensures ExecOk(w, lt, g.(committing := false))
    ensures !g.committing && g.index + 1 < USIZE_MAX ==>
              ExecOk(w, lt, g.(committing := true, index := (g.index + 1) % (USIZE_MAX + 1)))
  {
    hide NoDup;
  }

  // ------------------------------------------------------------- marks

  lemma EdgesAreLive(w: World, lt: set<Task>, lp: set<Prim>, stop: StopGraph, over: OverGraph)
    requires StopOk(w, lt, lp, stop) && OverOk(w, lt, lp, over)
    ensures LiveEdges(EdgesOf(stop, over), lt, lp)
  {
    hide NoDup, ActivesOk, StoppedOk, OverridersOk;
  }

  /** The marks are closed but at `n`, the only object whose child edges changed. */
  lemma GapAtStart(lt: set<Task>, lp: set<Prim>, stop: StopGraph, over: OverGraph, stop': StopGraph, over': OverGraph, m: Marks, n: Node)
    requires Closed(EdgesOf(stop, over), lt, lp, m) && stop.tasks.Keys == stop'.tasks.Keys && over.prims.Keys == over'.prims.Keys
    requires forall t :: t in stop.tasks ==>
               stop'.tasks[t].stopper == stop.tasks[t].stopper || stop'.tasks[t].stopper == null || n == PrimNode(stop'.tasks[t].stopper)
    requires forall p :: p in over.prims ==>
               over'.prims[p] == over.prims[p] || over'.prims[p] == null || n == TaskNode(over'.prims[p])
    ensures ClosedBut(EdgesOf(stop', over'), lt, lp, m, n)
  {
  }

  /** A walk from `n`, the only object whose child edges changed, closes the marks. */
  lemma WalkKeepsClosed(w: World, lt: set<Task>, lp: set<Prim>, stop: StopGraph, over: OverGraph,
                        stop': StopGraph, over': OverGraph, m: Marks, n: Node)
    requires StopOk(w, lt, lp, stop') && OverOk(w, lt, lp, over') && Live(lt, lp, n)
    requires Closed(EdgesOf(stop, over), lt, lp, m) && stop.tasks.Keys == stop'.tasks.Keys && over.prims.Keys == over'.prims.Keys
    requires forall t :: t in stop.tasks ==>
               stop'.tasks[t].stopper == stop.tasks[t].stopper || stop'.tasks[t].stopper == null || n == PrimNode(stop'.tasks[t].stopper)
    requires forall p :: p in over.prims ==>
               over'.prims[p] == over.prims[p] || over'.prims[p] == null || n == TaskNode(over'.prims[p])
    ensures Closed(EdgesOf(stop', over'), lt, lp, Walk(EdgesOf(stop', over'), m, n))
  {
    hide StopOk, OverOk, ClosedBut, LiveEdges, EdgesOf, Walk;
    EdgesAreLive(w, lt, lp, stop', over');
    GapAtStart(lt, lp, stop, over, stop', over', m, n);
    WalkCloses(EdgesOf(stop', over'), lt, lp, m, n);
  }

  lemma ClosedShrinks(e: Edges, lt: set<Task>, lp: set<Prim>, lt': set<Task>, lp': set<Prim>, m: Marks)
    requires Closed(e, lt, lp, m) && lt' <= lt && lp' <= lp
    ensures Closed(e, lt', lp', m)
  {
  }

  lemma AddTaskKeepsClosed(w: World, lt: set<Task>, lp: set<Prim>, stop: StopGraph, over: OverGraph, m: Marks, t: Task)
    requires StopOk(w, lt, lp, stop) && OverOk(w, lt, lp, over) && Closed(EdgesOf(stop, over), lt, lp, m) && t !in lt
    ensures Closed(EdgesOf(stop.(tasks := stop.tasks[t := TaskStop(Active, null)]), over), lt + {t}, lp, m.(tasks := m.tasks - {t}))
  {
    EdgesAreLive(w, lt, lp, stop, over);
    hide StopOk, OverOk;
  }

  lemma AddPrimKeepsClosed(w: World, lt: set<Task>, lp: set<Prim>, stop: StopGraph, over: OverGraph, m: Marks, p: Prim)
    requires StopOk(w, lt, lp, stop) && OverOk(w, lt, lp, over) && Closed(EdgesOf(stop, over), lt, lp, m) && p !in lp
    ensures Closed(EdgesOf(stop, over.(prims := over.prims[p := null])), lt, lp + {p}, m.(prims := m.prims - {p}))
  {
    EdgesAreLive(w, lt, lp, stop, over);
    hide StopOk, OverOk;
  }

  // ---------------------------------------------------------- registry

  lemma AddTaskRegisters(w: World, g: Registry, c: Process, t: Task)
    requires RegistryOk(w, g) && c in g.list && t in w.tasks && t !in LiveTasks(g)
    ensures var r := g.procs[c];
            var g' := g.(tasks := g.tasks[t := c], procs := g.procs[c := r.(tasks := [t] + r.tasks, nbTasks := r.nbTasks + 1)]);
            RegistryOk(w, g') && LiveTasks(g') == LiveTasks(g) + {t} && LivePrims(g') == LivePrims(g)
  {
    PushFacts(g.procs[c].tasks, t);
    hide NoDup;
  }

  lemma DropTaskUnregisters(w: World, g: Registry, t: Task)
    requires RegistryOk(w, g) && t in LiveTasks(g)
    ensures var c := g.tasks[t];
            var r := g.procs[c];
            var g' := g.(procs := g.procs[c := r.(tasks := Remove(r.tasks, t), nbTasks := r.nbTasks - 1)]);
            RegistryOk(w, g') && LiveTasks(g') == LiveTasks(g) - {t} && LivePrims(g') == LivePrims(g)
  {
    RemoveFacts(g.procs[g.tasks[t]].tasks, t);
    hide NoDup;
  }

  lemma AddPrimRegisters(w: World, g: Registry, c: Process, p: Prim)
    requires RegistryOk(w, g) && c in g.list && p in w.prims && p !in LivePrims(g)
    ensures var r := g.procs[c];
            var g' := g.(prims := g.prims[p := c], procs := g.procs[c := r.(prims := [p] + r.prims, nbPrims := r.nbPrims + 1)]);
            RegistryOk(w, g') && LivePrims(g') == LivePrims(g) + {p} && LiveTasks(g') == LiveTasks(g)
  {
    PushFacts(g.procs[c].prims, p);
    hide NoDup;
  }

  lemma DropPrimUnregisters(w: World, g: Registry, p: Prim)
    requires RegistryOk(w, g) && p in LivePrims(g)
    ensures var c := g.prims[p];
            var r := g.procs[c];
            var g' := g.(procs := g.procs[c := r.(prims := Remove(r.prims, p), nbPrims := r.nbPrims - 1)]);
            RegistryOk(w, g') && LivePrims(g') == LivePrims(g) - {p} && LiveTasks(g') == LiveTasks(g)
  {
    RemoveFacts(g.procs[g.prims[p]].prims, p);
    hide NoDup;
  }

  lemma AddProcessRegisters(w: World, g: Registry, c: Process)
    requires RegistryOk(w, g) && c in w.procs && c !in g.list
    ensures var g' := g.(procs := g.procs[c := ProcessReg([], 0, [], 0, Active)], list := [c] + g.list, count := g.count + 1);
            RegistryOk(w, g') && LiveTasks(g') == LiveTasks(g) && LivePrims(g') == LivePrims(g)
  {
    PushFacts(g.list, c);
    assert NoDup<Task>([]) && NoDup<Prim>([]);
    hide NoDup;
  }

  lemma DropProcessUnregisters(w: World, g: Registry, c: Process)
    requires RegistryOk(w, g) && c in g.list
    ensures var g' := g.(list := Remove(g.list, c), count := g.count - 1);
            && RegistryOk(w, g')
            && LiveTasks(g') == (set t | t in LiveTasks(g) && g.tasks[t] != c)
            && LivePrims(g') == (set p | p in LivePrims(g) && g.prims[p] != c)
            && (forall t :: t in g.procs[c].tasks ==> t in LiveTasks(g) && t !in LiveTasks(g'))
            && (forall t :: t in LiveTasks(g) && t !in LiveTasks(g') ==> t in g.procs[c].tasks)
  {
    RemoveFacts(g.list, c);
    hide NoDup;
  }

  lemma StatusKeepsRegistry(w: World, g: Registry, c: Process, status: Status)
    requires RegistryOk(w, g) && c in g.list
    ensures var g' := g.(procs := g.procs[c := g.procs[c].(status := status)]);
            RegistryOk(w, g') && LiveTasks(g') == LiveTasks(g) && LivePrims(g') == LivePrims(g)
  {
    hide NoDup;
  }

  ghost function LiveTasksAfter(g: Registry, m: Micro): set<Task> {
    match m
    case AddTask(_, t) => LiveTasks(g) + {t}
    case DropTask(t) => LiveTasks(g) - {t}
    case DropProcess(c) => set t | t in LiveTasks(g) && g.tasks[t] != c
    case _ => LiveTasks(g)
  }

  ghost function LivePrimsAfter(g: Registry, m: Micro): set<Prim> {
    match m
    case AddPrim(_, p) => LivePrims(g) + {p}
    case DropPrim(p) => LivePrims(g) - {p}
    case DropProcess(c) => set p | p in LivePrims(g) && g.prims[p] != c
    case _ => LivePrims(g)
  }

  lemma ListedAreKnown(w: World, g: Registry)
    requires RegistryOk(w, g)
    ensures forall c :: c in g.list ==> c in g.procs
    ensures forall t :: t in LiveTasks(g) ==> t in g.tasks && g.tasks[t] != null && g.tasks[t] in g.procs
    ensures forall p :: p in LivePrims(g) ==> p in g.prims && g.prims[p] != null && g.prims[p] in g.procs
  {
    hide ProcessOk, NoDup;
  }

  predicate Registers(m: Micro) {
    m.AddTask? || m.DropTask? || m.AddPrim? || m.DropPrim? || m.AddProcess? || m.DropProcess? || m.SetStatus?
  }

  lemma RegistryUntouched(s: State, m: Micro)
    requires !Registers(m)
    ensures Apply(s, m).reg == s.reg
  {
  }

  lemma LiveAfterRegistering(w: World, s: State, m: Micro)
    requires RegistryOk(w, s.reg) && Ok(w, s, m) && Registers(m)
    ensures LiveTasks(Apply(s, m).reg) == LiveTasksAfter(s.reg, m)
    ensures LivePrims(Apply(s, m).reg) == LivePrimsAfter(s.reg, m)
  {
    ListedAreKnown(w, s.reg);
    hide RegistryOk, LiveTasks, LivePrims, Walk, RemoveAll, ActiveOf;
    match m
    case AddTask(c, t) => AddTaskRegisters(w, s.reg, c, t);
    case DropTask(t) => DropTaskUnregisters(w, s.reg, t);
    case AddPrim(c, p) => AddPrimRegisters(w, s.reg, c, p);
    case DropPrim(p) => DropPrimUnregisters(w, s.reg, p);
    case AddProcess(c) => AddProcessRegisters(w, s.reg, c);
    case DropProcess(c) => DropProcessUnregisters(w, s.reg, c);
    case SetStatus(c, status) => StatusKeepsRegistry(w, s.reg, c, status);
  }

  /** What each step does to the sets of registered objects. */
  lemma LiveAfter(w: World, s: State, m: Micro)
    requires RegistryOk(w, s.reg) && Ok(w, s, m)
    ensures LiveTasks(Apply(s, m).reg) == LiveTasksAfter(s.reg, m)
    ensures LivePrims(Apply(s, m).reg) == LivePrimsAfter(s.reg, m)
  {
    hide RegistryOk, LiveTasks, LivePrims, Ok, Apply;
    if Registers(m) {
      LiveAfterRegistering(w, s, m);
    } else {
      RegistryUntouched(s, m);
    }
  }

  // ------------------------------------------------------ the invariant

  lemma StopKeepsCore(w: World, s: State, p: Prim, t: Task)
    requires Core(w, s) && Ok(w, s, Stop(p, t))
    ensures Core(w, Apply(s, Stop(p, t)))
  {
    hide LiveTasks, LivePrims, RegistryOk, StopOk, OverOk, ExecOk, OwnOk, ClosedBut, Remove;
    var lt, lp := LiveTasks(s.reg), LivePrims(s.reg);
    StopKeepsStopOk(w, lt, lp, s.stop, p, t);
    WalkKeepsClosed(w, lt, lp, s.stop, s.over, StopTask(s.stop, p, t), s.over, s.marks, PrimNode(p));
  }

  lemma ResumeKeepsCore(w: World, s: State, t: Task)
    requires Core(w, s) && Ok(w, s, Resume(t))
    ensures Core(w, Apply(s, Resume(t)))
  {
    hide LiveTasks, LivePrims, RegistryOk, StopOk, OverOk, ExecOk, OwnOk, ClosedBut, Remove;
    var lt, lp := LiveTasks(s.reg), LivePrims(s.reg);
    StoppersAreLive(w, lt, lp, s.stop);
    ResumeKeepsStopOk(w, lt, lp, s.stop, t);
    WalkKeepsClosed(w, lt, lp, s.stop, s.over, ResumeTask(s.stop, t), s.over, s.marks, PrimNode(s.stop.tasks[t].stopper));
  }

  lemma LinkKeepsCore(w: World, s: State, p: Prim, t: Task)
    requires Core(w, s) && Ok(w, s, Link(p, t))
    ensures Core(w, Apply(s, Link(p, t)))
  {
    hide LiveTasks, LivePrims, RegistryOk, StopOk, OverOk, ExecOk, OwnOk, ClosedBut;
    var lt, lp := LiveTasks(s.reg), LivePrims(s.reg);
    LinkKeepsOverOk(w, lt, lp, s.over, p, t);
    WalkKeepsClosed(w, lt, lp, s.stop, s.over, s.stop, LinkOverride(s.over, p, t), s.marks, TaskNode(t));
  }

  lemma UnlinkKeepsCore(w: World, s: State, p: Prim)
    requires Core(w, s) && Ok(w, s, Unlink(p))
    ensures Core(w, Apply(s, Unlink(p)))
  {
    hide LiveTasks, LivePrims, RegistryOk, StopOk, OverOk, ExecOk, OwnOk, ClosedBut, Remove;
    var lt, lp := LiveTasks(s.reg), LivePrims(s.reg);
    OverriddenAreLive(w, lt, lp, s.over);
    if s.over.prims[p] != null {
      UnlinkKeepsOverOk(w, lt, lp, s.over, p);
      WalkKeepsClosed(w, lt, lp, s.stop, s.over, s.stop, UnlinkOverride(s.over, p), s.marks, TaskNode(s.over.prims[p]));
    }
  }

  lemma AddTaskKeepsCore(w: World, s: State, c: Process, t: Task)
    requires Core(w, s) && Ok(w, s, AddTask(c, t))
    ensures Core(w, Apply(s, AddTask(c, t)))
  {
    hide LiveTasks, LivePrims, StopOk, OverOk, ExecOk, ClosedBut;
    var lt, lp := LiveTasks(s.reg), LivePrims(s.reg);
    AddTaskRegisters(w, s.reg, c, t);
    AddTaskKeepsStopOk(w, lt, lp, s.stop, t);
    AddTaskKeepsOverOk(w, lt, lp, s.over, t);
    AddTaskKeepsExecOk(w, lt, s.run, t);
    AddTaskKeepsClosed(w, lt, lp, s.stop, s.over, s.marks, t);
    OverriddenAreLive(w, lt, lp, s.over);
  }

  lemma OverriddenAreLive(w: World, lt: set<Task>, lp: set<Prim>, g: OverGraph)
    requires OverOk(w, lt, lp, g)
    ensures forall p :: p in lp ==> p in g.prims && (g.prims[p] == null || g.prims[p] in lt)
    ensures forall t :: t in lt ==> t in g.tasks
    ensures forall t, p :: t in lt && p in g.tasks[t].overriders ==> p in lp && g.prims[p] == t
  {
    hide NoDup;
  }

  lemma StoppersAreLive(w: World, lt: set<Task>, lp: set<Prim>, g: StopGraph)
    requires StopOk(w, lt, lp, g)
    ensures forall t :: t in lt ==> t in g.tasks && (g.tasks[t].stopper == null || g.tasks[t].stopper in lp)
    ensures forall t :: t in lt && g.tasks[t].status == Stopped ==> g.tasks[t].stopper != null
    ensures forall p :: p in lp ==> p in g.prims
    ensures forall p, t :: p in lp && t in g.prims[p].stopped ==> t in lt && g.tasks[t].stopper == p
  {
    hide NoDup, ActivesOk;
  }

  lemma DropTaskKeepsCore(w: World, s: State, t: Task)
    requires Core(w, s) && Ok(w, s, DropTask(t))
    ensures Core(w, Apply(s, DropTask(t)))
  {
    hide LivePrims, StopOk, OverOk, ExecOk, ClosedBut, Remove;
    var lt, lp := LiveTasks(s.reg), LivePrims(s.reg);
    DropTaskUnregisters(w, s.reg, t);
    DropTaskKeepsStopOk(w, lt, lp, s.stop, t);
    DropTaskKeepsOverOk(w, lt, lp, s.over, t);
    ExecOkShrinks(w, lt, lt - {t}, s.run);
    ClosedShrinks(EdgesOf(s.stop, s.over), lt, lp, lt - {t}, lp, s.marks);
    assert EdgesOf(s.stop.(actives := Remove(s.stop.actives, t)), s.over) == EdgesOf(s.stop, s.over);
  }

  lemma ExecOkShrinks(w: World, lt: set<Task>, lt': set<Task>, g: Execution)
    requires ExecOk(w, lt, g) && lt' <= lt
    ensures ExecOk(w, lt', g)
  {
    hide NoDup, ThreadsOk;
  }

  lemma AddPrimKeepsCore(w: World, s: State, c: Process, p: Prim)
    requires Core(w, s) && Ok(w, s, AddPrim(c, p))
    ensures Core(w, Apply(s, AddPrim(c, p)))
  {
    hide LiveTasks, LivePrims, StopOk, OverOk, ExecOk, ClosedBut;
    var lt, lp := LiveTasks(s.reg), LivePrims(s.reg);
    AddPrimRegisters(w, s.reg, c, p);
    AddPrimKeepsStopOk(w, lt, lp, s.stop, p);
    AddPrimKeepsOverOk(w, lt, lp, s.over, p);
    AddPrimKeepsClosed(w, lt, lp, s.stop, s.over, s.marks, p);
    StoppersAreLive(w, lt, lp, s.stop);
    var stop := s.stop.(prims := s.stop.prims[p := PrimStop([], 0)]);
    assert EdgesOf(stop, s.over.(prims := s.over.prims[p := null])) == EdgesOf(s.stop, s.over.(prims := s.over.prims[p := null]));
  }

  lemma DropPrimKeepsCore(w: World, s: State, p: Prim)
    requires Core(w, s) && Ok(w, s, DropPrim(p))
    ensures Core(w, Apply(s, DropPrim(p)))
  {
    hide LiveTasks, StopOk, OverOk, ExecOk, ClosedBut, Remove;
    var lt, lp := LiveTasks(s.reg), LivePrims(s.reg);
    DropPrimUnregisters(w, s.reg, p);
    DropPrimKeepsStopOk(w, lt, lp, s.stop, p);
    DropPrimKeepsOverOk(w, lt, lp, s.over, p);
    ClosedShrinks(EdgesOf(s.stop, s.over), lt, lp, lt, lp - {p}, s.marks);
  }

  /** Stoppers and overridden tasks do not leave a process, so what remains
    * after dropping a process is closed. */
  lemma DropProcessSeparates(w: World, g: Registry, lt: set<Task>, lp: set<Prim>, stop: StopGraph, over: OverGraph, c: Process)
    requires StopOk(w, lt, lp, stop) && OverOk(w, lt, lp, over) && SameProcess(g, lt, lp, stop, over)
    requires lt <= g.tasks.Keys && lp <= g.prims.Keys
    ensures lt <= stop.tasks.Keys && lt <= over.tasks.Keys && lp <= stop.prims.Keys && lp <= over.prims.Keys
    ensures forall t :: t in lt && g.tasks[t] != c && stop.tasks[t].stopper != null ==> stop.tasks[t].stopper in lp && g.prims[stop.tasks[t].stopper] != c
    ensures forall p, t :: p in lp && g.prims[p] != c && t in stop.prims[p].stopped ==> t in lt && g.tasks[t] != c
    ensures forall p :: p in lp && g.prims[p] != c && over.prims[p] != null ==> over.prims[p] in lt && g.tasks[over.prims[p]] != c
    ensures forall t, p :: t in lt && g.tasks[t] != c && p in over.tasks[t].overriders ==> p in lp && g.prims[p] != c
  {
    hide StopOk, OverOk;
    StoppersAreLive(w, lt, lp, stop);
    OverriddenAreLive(w, lt, lp, over);
    forall p, t | p in lp && g.prims[p] != c && t in stop.prims[p].stopped
      ensures t in lt && g.tasks[t] != c
    {
      assert stop.tasks[t].stopper == p;
    }
    forall t, p | t in lt && g.tasks[t] != c && p in over.tasks[t].overriders
      ensures p in lp && g.prims[p] != c
    {
      assert over.prims[p] == t;
    }
  }

  lemma DropProcessKeepsCore(w: World, s: State, c: Process)
    requires Core(w, s) && Ok(w, s, DropProcess(c))
    ensures Core(w, Apply(s, DropProcess(c)))
  {
    hide StopOk, OverOk, ExecOk, ClosedBut, RemoveAll, Remove, ActiveOf;
    var lt, lp := LiveTasks(s.reg), LivePrims(s.reg);
    var s' := Apply(s, DropProcess(c));
    var lt', lp' := LiveTasks(s'.reg), LivePrims(s'.reg);
    DropProcessUnregisters(w, s.reg, c);
    DropProcessSeparates(w, s.reg, lt, lp, s.stop, s.over, c);
    hide RegistryOk, LiveTasks, LivePrims;
    DropProcessKeepsStopOk(w, lt, lp, lt', lp', s.stop, s.reg.procs[c].tasks);
    DropProcessKeepsOverOk(w, lt, lp, lt', lp', s.over);
    ExecOkShrinks(w, lt, lt', s.run);
    ClosedShrinks(EdgesOf(s.stop, s.over), lt, lp, lt', lp', s.marks);
    assert EdgesOf(s'.stop, s.over) == EdgesOf(s.stop, s.over);
  }

  lemma ExecutionChange(w: World, s: State, run: Execution)
    requires Core(w, s) && (ExecOk(w, LiveTasks(s.reg), s.run) ==> ExecOk(w, LiveTasks(s.reg), run))
    ensures Core(w, s.(run := run))
  {
    hide LiveTasks, LivePrims, RegistryOk, StopOk, OverOk, ExecOk, OwnOk, ClosedBut, SameProcess;
  }

  lemma ThreadStepKeepsCore(w: World, s: State, m: Micro)
    requires Core(w, s) && Ok(w, s, m) && (m.Assign? || m.Detach? || m.AddThread? || m.DropThread? || m.OpenCommit? || m.CloseCommit?)
    ensures Core(w, Apply(s, m))
  {
    hide Core, LiveTasks, LivePrims, RegistryOk, ExecOk, OwnOk, ClosedBut, Remove;
    CoreParts(w, s);
    var lt := LiveTasks(s.reg);
    match m {
      case Assign(h, a) => AssignKeepsExecOk(w, lt, s.run, h, a);
      case Detach(t) => DetachKeepsExecOk(w, lt, s.run, t);
      case AddThread(h) => AddThreadKeepsExecOk(w, lt, s.run, h);
      case DropThread(h) => DropThreadKeepsExecOk(w, lt, s.run, h);
      case OpenCommit => CommitKeepsExecOk(w, lt, s.run);
      case CloseCommit => CommitKeepsExecOk(w, lt, s.run);
    }
    ExecutionChange(w, s, Apply(s, m).run);
  }

  lemma CoreParts(w: World, s: State)
    requires Core(w, s)
    ensures RegistryOk(w, s.reg) && ExecOk(w, LiveTasks(s.reg), s.run) && OwnOk(w, s.own)
    ensures Closed(EdgesOf(s.stop, s.over), LiveTasks(s.reg), LivePrims(s.reg), s.marks)
  {
    hide LiveTasks, LivePrims, RegistryOk, StopOk, OverOk, ExecOk, OwnOk, ClosedBut, SameProcess;
  }

  lemma RegistryChange(w: World, s: State, reg: Registry)
    requires Core(w, s) && RegistryOk(w, reg) && LiveTasks(reg) == LiveTasks(s.reg) && LivePrims(reg) == LivePrims(s.reg)
    requires reg.tasks == s.reg.tasks && reg.prims == s.reg.prims
    ensures Core(w, s.(reg := reg))
  {
    hide LiveTasks, LivePrims, RegistryOk, StopOk, OverOk, ExecOk, OwnOk, ClosedBut;
  }

  lemma CountersChange(w: World, s: State, own: Ownership, marks: Marks)
    requires Core(w, s) && OwnOk(w, own) && Closed(EdgesOf(s.stop, s.over), LiveTasks(s.reg), LivePrims(s.reg), marks)
    ensures Core(w, s.(own := own, marks := marks))
  {
    hide LiveTasks, LivePrims, RegistryOk, StopOk, OverOk, ExecOk, OwnOk, ClosedBut, SameProcess;
  }

  lemma OtherStepKeepsCore(w: World, s: State, m: Micro)
    requires Core(w, s) && Ok(w, s, m) && (m.Take? || m.Release? || m.AddProcess? || m.SetStatus? || m.ClearMarks?)
    ensures Core(w, Apply(s, m))
  {
    hide Core, LiveTasks, LivePrims, RegistryOk, ExecOk, ClosedBut;
    CoreParts(w, s);
    match m {
      case AddProcess(c) =>
        AddProcessRegisters(w, s.reg, c);
        RegistryChange(w, s, Apply(s, m).reg);
      case SetStatus(c, status) =>
        StatusKeepsRegistry(w, s.reg, c, status);
        RegistryChange(w, s, Apply(s, m).reg);
      case Take(p, t) => CountersChange(w, s, Apply(s, m).own, s.marks);
      case Release(p, t) => CountersChange(w, s, Apply(s, m).own, s.marks);
      case ClearMarks(c) => CountersChange(w, s, s.own, Apply(s, m).marks);
    }
  }

  /** Every elementary step keeps the invariant. */
  lemma StepKeepsCore(w: World, s: State, m: Micro)
    requires Core(w, s) && Ok(w, s, m)
    ensures Core(w, Apply(s, m))
  {
    hide Core, Ok, Apply;
    match m
    case Stop(p, t) => StopKeepsCore(w, s, p, t);
    case Resume(t) => ResumeKeepsCore(w, s, t);
    case Link(p, t) => LinkKeepsCore(w, s, p, t);
    case Unlink(p) => UnlinkKeepsCore(w, s, p);
    case AddTask(c, t) => AddTaskKeepsCore(w, s, c, t);
    case DropTask(t) => DropTaskKeepsCore(w, s, t);
    case AddPrim(c, p) => AddPrimKeepsCore(w, s, c, p);
    case DropPrim(p) => DropPrimKeepsCore(w, s, p);
    case DropProcess(c) => DropProcessKeepsCore(w, s, c);
    case Take(_, _) => OtherStepKeepsCore(w, s, m);
    case Release(_, _) => OtherStepKeepsCore(w, s, m);
    case AddProcess(_) => OtherStepKeepsCore(w, s, m);
    case SetStatus(_, _) => OtherStepKeepsCore(w, s, m);
    case ClearMarks(_) => OtherStepKeepsCore(w, s, m);
    case _ => ThreadStepKeepsCore(w, s, m);
  }
}
