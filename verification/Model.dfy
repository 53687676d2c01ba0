/** The state of the scheduler as a value, in groups that change together, and
  * the elementary steps every public function is made of. */
module Model {
  import opened Lists
  import opened Objects
  import opened Marking

  datatype TaskStop = TaskStop(status: Status, stopper: Prim?)
  datatype PrimStop = PrimStop(stopped: seq<Task>, count: int)
  /** Who is stopped by whom, and the list of active tasks. */
  datatype StopGraph = StopGraph(tasks: map<Task, TaskStop>, prims: map<Prim, PrimStop>, actives: seq<Task>)

  datatype TaskOver = TaskOver(overriders: seq<Prim>, count: int)
  /** Which primitive overrides which task. */
  datatype OverGraph = OverGraph(tasks: map<Task, TaskOver>, prims: map<Prim, Task?>)

  datatype TaskRun = TaskRun(thread: Thread?, commit: int)
  datatype ThreadRun = ThreadRun(task: Task?, commit: int, history: seq<Task>, size: int)
  /** Which thread runs or last ran which task, and the commit counter. */
  datatype Execution = Execution(tasks: map<Task, TaskRun>, threads: map<Thread, ThreadRun>,
                                 list: seq<Thread>, count: int, index: int, committing: bool)

  /** The ownership counters. */
  datatype Ownership = Ownership(tasks: map<Task, int>, prims: map<Prim, int>)

  datatype ProcessReg = ProcessReg(tasks: seq<Task>, nbTasks: int, prims: seq<Prim>, nbPrims: int, status: Status)
  /** What is registered where. */
  datatype Registry = Registry(tasks: map<Task, Process?>, prims: map<Prim, Process?>,
                               procs: map<Process, ProcessReg>, list: seq<Process>, count: int)

  datatype State = State(reg: Registry, stop: StopGraph, over: OverGraph, run: Execution, own: Ownership, marks: Marks)

  ghost function LiveTasks(g: Registry): set<Task> {
    set t | t in g.tasks && var p := g.tasks[t]; p != null && p in g.list && p in g.procs && t in g.procs[p].tasks
  }

  ghost function LivePrims(g: Registry): set<Prim> {
    set r | r in g.prims && var p := g.prims[r]; p != null && p in g.list && p in g.procs && r in g.procs[p].prims
  }

  function EdgesOf(stop: StopGraph, over: OverGraph): Edges {
    Edges(map t | t in stop.tasks :: stop.tasks[t].stopper, over.prims)
  }

  // ---------------------------------------------------------------- groups

  function StopTask(g: StopGraph, p: Prim, t: Task): StopGraph {
    if p !in g.prims then g
    else StopGraph(
        g.tasks[t := TaskStop(Stopped, p)],
        g.prims[p := PrimStop(g.prims[p].stopped + [t], g.prims[p].count + 1)],
        Remove(g.actives, t))
  }

  function ResumeTask(g: StopGraph, t: Task): StopGraph {
    if t !in g.tasks || g.tasks[t].stopper == null || g.tasks[t].stopper !in g.prims then g
    else
      var p := g.tasks[t].stopper;
      StopGraph(
        g.tasks[t := TaskStop(Active, null)],
        g.prims[p := PrimStop(Remove(g.prims[p].stopped, t), g.prims[p].count - 1)],
        [t] + g.actives)
  }

  function LinkOverride(g: OverGraph, p: Prim, t: Task): OverGraph {
    if t !in g.tasks then g
    else OverGraph(g.tasks[t := TaskOver([p] + g.tasks[t].overriders, g.tasks[t].count + 1)], g.prims[p := t])
  }

  function UnlinkOverride(g: OverGraph, p: Prim): OverGraph {
    if p !in g.prims || g.prims[p] == null || g.prims[p] !in g.tasks then g
    else
      var t := g.prims[p];
      OverGraph(g.tasks[t := TaskOver(Remove(g.tasks[t].overriders, p), g.tasks[t].count - 1)], g.prims[p := null])
  }

  function DetachTask(g: Execution, t: Task): Execution {
    if t !in g.tasks || g.tasks[t].thread == null || g.tasks[t].thread !in g.threads then g
    else
      var h := g.tasks[t].thread;
      var r := g.threads[h];
      var r' := ThreadRun(r.task, r.commit, Remove(r.history, t), r.size - 1);
      g.(tasks := g.tasks[t := TaskRun(null, g.tasks[t].commit)],
         threads := g.threads[h := if r.task == t then r'.(task := null, commit := USIZE_MAX) else r'])
  }

  function AttachTask(g: Execution, h: Thread, t: Task): Execution {
    if t !in g.tasks || h !in g.threads then g
    else
      var r := g.threads[h];
      g.(tasks := g.tasks[t := TaskRun(h, g.tasks[t].commit)],
         threads := g.threads[h := ThreadRun(r.task, r.commit, [t] + r.history, r.size + 1)])
  }

  function AssignTask(g: Execution, h: Thread, t: Task?): Execution {
    if h !in g.threads then g
    else if t == null then
      g.(threads := g.threads[h := g.threads[h].(task := null, commit := USIZE_MAX)])
    else if t !in g.tasks then g
    else
      var g' := if g.tasks[t].thread == h then g else AttachTask(DetachTask(g, t), h, t);
      g'.(tasks := g'.tasks[t := TaskRun(h, g.index)],
          threads := g'.threads[h := g'.threads[h].(task := t, commit := g.index)])
  }

  function ReleaseCounters(o: Ownership, p: Prim, t: Task): Ownership {
    if p !in o.prims || o.prims[p] == 0 then o
    else
      var o' := o.(prims := o.prims[p := o.prims[p] - 1]);
      if t !in o.tasks || o.tasks[t] == 0 then o' else o'.(tasks := o.tasks[t := o.tasks[t] - 1])
  }

  /** The error code of a release: 1 when one of the two counters is null. */
  function ReleaseError(o: Ownership, p: Prim, t: Task): nat {
    if p in o.prims && o.prims[p] != 0 && t in o.tasks && o.tasks[t] != 0 then 0 else 1
  }

  // ----------------------------------------------------------------- steps

  /** The elementary steps: the static functions of sched.c, and the list and
    * counter updates of registration. */
  datatype Micro =
    | Take(p: Prim, t: Task)
    | Release(p: Prim, t: Task)
    | Link(p: Prim, t: Task)
    | Unlink(p: Prim)
    | Stop(p: Prim, t: Task)
    | Resume(t: Task)
    | Assign(h: Thread, a: Task?)
    | Detach(t: Task)
    | AddTask(c: Process, t: Task)
    | DropTask(t: Task)
    | AddPrim(c: Process, p: Prim)
    | DropPrim(p: Prim)
    | AddThread(h: Thread)
    | DropThread(h: Thread)
    | AddProcess(c: Process)
    | DropProcess(c: Process)
    | SetStatus(c: Process, status: Status)
    | OpenCommit
    | CloseCommit
    | ClearMarks(cleared: Marks)

  function Apply(s: State, m: Micro): State {
    match m
    case Take(p, t) =>
      if p in s.own.prims && t in s.own.tasks
      then s.(own := Ownership(s.own.tasks[t := s.own.tasks[t] + 1], s.own.prims[p := s.own.prims[p] + 1]))
      else s
    case Release(p, t) => s.(own := ReleaseCounters(s.own, p, t))
    case Link(p, t) =>
      var over := LinkOverride(s.over, p, t);
      s.(over := over, marks := Walk(EdgesOf(s.stop, over), s.marks, TaskNode(t)))
    case Unlink(p) =>
      if p !in s.over.prims || s.over.prims[p] == null then s
      else
        var over := UnlinkOverride(s.over, p);
        s.(over := over, marks := Walk(EdgesOf(s.stop, over), s.marks, TaskNode(s.over.prims[p])))
    case Stop(p, t) =>
      var stop := StopTask(s.stop, p, t);
      s.(stop := stop, marks := Walk(EdgesOf(stop, s.over), s.marks, PrimNode(p)))
    case Resume(t) =>
      if t !in s.stop.tasks || s.stop.tasks[t].stopper == null then s
      else
        var stop := ResumeTask(s.stop, t);
        s.(stop := stop, marks := Walk(EdgesOf(stop, s.over), s.marks, PrimNode(s.stop.tasks[t].stopper)))
    case Assign(h, a) => s.(run := AssignTask(s.run, h, a))
    case Detach(t) => s.(run := DetachTask(s.run, t))
    case AddTask(c, t) =>
      if c !in s.reg.procs then s
      else
        var r := s.reg.procs[c];
        s.(reg := s.reg.(tasks := s.reg.tasks[t := c],
                         procs := s.reg.procs[c := r.(tasks := [t] + r.tasks, nbTasks := r.nbTasks + 1)]),
           stop := s.stop.(tasks := s.stop.tasks[t := TaskStop(Active, null)], actives := [t] + s.stop.actives),
           over := s.over.(tasks := s.over.tasks[t := TaskOver([], 0)]),
           run := s.run.(tasks := s.run.tasks[t := TaskRun(null, USIZE_MAX)]),
           own := s.own.(tasks := s.own.tasks[t := 0]),
           marks := s.marks.(tasks := s.marks.tasks - {t}))
    case DropTask(t) =>
      if t !in s.reg.tasks || s.reg.tasks[t] == null || s.reg.tasks[t] !in s.reg.procs then s
      else
        var c := s.reg.tasks[t];
        var r := s.reg.procs[c];
        s.(reg := s.reg.(procs := s.reg.procs[c := r.(tasks := Remove(r.tasks, t), nbTasks := r.nbTasks - 1)]),
           stop := s.stop.(actives := Remove(s.stop.actives, t)))
    case AddPrim(c, p) =>
      if c !in s.reg.procs then s
      else
        var r := s.reg.procs[c];
        s.(reg := s.reg.(prims := s.reg.prims[p := c],
                         procs := s.reg.procs[c := r.(prims := [p] + r.prims, nbPrims := r.nbPrims + 1)]),
           stop := s.stop.(prims := s.stop.prims[p := PrimStop([], 0)]),
           over := s.over.(prims := s.over.prims[p := null]),
           own := s.own.(prims := s.own.prims[p := 0]),
           marks := s.marks.(prims := s.marks.prims - {p}))
    case DropPrim(p) =>
      if p !in s.reg.prims || s.reg.prims[p] == null || s.reg.prims[p] !in s.reg.procs then s
      else
        var c := s.reg.prims[p];
        var r := s.reg.procs[c];
        s.(reg := s.reg.(procs := s.reg.procs[c := r.(prims := Remove(r.prims, p), nbPrims := r.nbPrims - 1)]))
    case AddThread(h) =>
      s.(run := s.run.(threads := s.run.threads[h := ThreadRun(null, USIZE_MAX, [], 0)],
                       list := [h] + s.run.list, count := s.run.count + 1))
    case DropThread(h) =>
      s.(run := s.run.(list := Remove(s.run.list, h), count := s.run.count - 1))
    case AddProcess(c) =>
      s.(reg := s.reg.(procs := s.reg.procs[c := ProcessReg([], 0, [], 0, Active)],
                       list := [c] + s.reg.list, count := s.reg.count + 1))
    case DropProcess(c) =>
      if c !in s.reg.procs then s
      else
        s.(reg := s.reg.(list := Remove(s.reg.list, c), count := s.reg.count - 1),
           stop := s.stop.(actives := RemoveAll(s.stop.actives, ActiveOf(s.stop, s.reg.procs[c].tasks))))
    case SetStatus(c, status) =>
      if c !in s.reg.procs then s
      else s.(reg := s.reg.(procs := s.reg.procs[c := s.reg.procs[c].(status := status)]))
    case OpenCommit =>
      s.(run := s.run.(committing := true, index := (s.run.index + 1) % (USIZE_MAX + 1)))
    case CloseCommit => s.(run := s.run.(committing := false))
    case ClearMarks(c) => s.(marks := Marks(s.marks.tasks - c.tasks, s.marks.prims - c.prims))
  }

  /** The tasks of a list whose status is active, in list order. */
  function ActiveOf(g: StopGraph, ts: seq<Task>): seq<Task> {
    if ts == [] then []
    else
      var n := |ts| - 1;
      ActiveOf(g, ts[..n]) + (if ts[n] in g.tasks && g.tasks[ts[n]].status == Active then [ts[n]] else [])
  }

  /** The steps one after the other. */
  function ApplyAll(s: State, ms: seq<Micro>): State {
    if ms == [] then s
    else Apply(ApplyAll(s, ms[..|ms| - 1]), ms[|ms| - 1])
  }
}
