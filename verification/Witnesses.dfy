/** Small concrete states, for properties that fail on some input. */
module Witnesses {
  import opened Lists
  import opened Objects
  import opened Marking
  import opened Model
  import opened Invariant
  import opened Operations
  import opened Runs

  /** One process with the tasks of `stop`, all of which nothing overrides, and
    * one primitive. */
  ghost function OneProcess(c: Process, p: Prim, ts: seq<Task>, stop: StopGraph, run: Execution, own: Ownership): State {
    State(Registry(map t | t in ts :: c, map[p := c], map[c := ProcessReg(ts, |ts|, [p], 1, Active)], [c], 1),
          stop, OverGraph(map t | t in ts :: TaskOver([], 0), map[p := null]), run, own, Marks({}, {}))
  }

  ghost function WorldOf(c: Process, p: Prim, ts: seq<Task>, threads: set<Thread>): World {
    World(set t | t in ts, {p}, {c}, threads)
  }

  lemma OneProcessLive(c: Process, p: Prim, ts: seq<Task>, stop: StopGraph, run: Execution, own: Ownership)
    ensures var g := OneProcess(c, p, ts, stop, run, own).reg; LiveTasks(g) == (set t | t in ts) && LivePrims(g) == {p}
  {
  }

  lemma OneProcessRegistry(c: Process, p: Prim, ts: seq<Task>, threads: set<Thread>, stop: StopGraph, run: Execution, own: Ownership)
    requires NoDup(ts)
    ensures RegistryOk(WorldOf(c, p, ts, threads), OneProcess(c, p, ts, stop, run, own).reg)
  {
    assert NoDup([p]) && NoDup([c]);
    hide NoDup;
  }

  lemma OneProcessOver(w: World, c: Process, p: Prim, ts: seq<Task>, stop: StopGraph, run: Execution, own: Ownership)
    requires w.tasks == (set t | t in ts) && w.prims == {p}
    ensures OverOk(w, w.tasks, {p}, OneProcess(c, p, ts, stop, run, own).over)
  {
    assert NoDup<Prim>([]);
    hide NoDup;
  }

  lemma OneProcessSame(w: World, c: Process, p: Prim, ts: seq<Task>, stop: StopGraph, run: Execution, own: Ownership)
    requires w.tasks == (set t | t in ts) && w.prims == {p} && StopOk(w, w.tasks, {p}, stop)
    ensures var s := OneProcess(c, p, ts, stop, run, own); SameProcess(s.reg, w.tasks, {p}, s.stop, s.over)
  {
    hide NoDup, ActivesOk, StoppedOk;
  }

  /** The parts of the invariant that such a state has to show. */
  lemma OneProcessCore(c: Process, p: Prim, ts: seq<Task>, threads: set<Thread>, stop: StopGraph, run: Execution, own: Ownership)
    requires NoDup(ts)
    requires var w := WorldOf(c, p, ts, threads);
             StopOk(w, w.tasks, w.prims, stop) && ExecOk(w, w.tasks, run) && OwnOk(w, own)
    ensures Core(WorldOf(c, p, ts, threads), OneProcess(c, p, ts, stop, run, own))
  {
    hide LiveTasks, LivePrims, RegistryOk, StopOk, OverOk, ExecOk, OwnOk, SameProcess, EdgesOf, NoDup;
    var w := WorldOf(c, p, ts, threads);
    OneProcessLive(c, p, ts, stop, run, own);
    OneProcessRegistry(c, p, ts, threads, stop, run, own);
    OneProcessOver(w, c, p, ts, stop, run, own);
    OneProcessSame(w, c, p, ts, stop, run, own);
  }

  // -------------------------------------------------- one task that never ran

  ghost function NeverRan(t: Task, index: int): Execution {
    Execution(map[t := TaskRun(null, USIZE_MAX)], map[], [], 0, index, false)
  }

  ghost function OneActive(t: Task, p: Prim): StopGraph {
    StopGraph(map[t := TaskStop(Active, null)], map[p := PrimStop([], 0)], [t])
  }

  lemma OneActiveOk(w: World, t: Task, p: Prim)
    requires w.tasks == {t} && w.prims == {p}
    ensures StopOk(w, {t}, {p}, OneActive(t, p))
  {
  }

  ghost function AtIndex(t: Task, p: Prim, c: Process, index: int): State {
    OneProcess(c, p, [t], OneActive(t, p), NeverRan(t, index), Ownership(map[t := 0], map[p := 0]))
  }

  /** A process with one task that never ran, at any index below the mark. */
  lemma AtIndexInv(t: Task, p: Prim, c: Process, index: int)
    requires 0 <= index < USIZE_MAX
    ensures var w, s := World({t}, {p}, {c}, {}), AtIndex(t, p, c, index); Inv(w, s) && LiveTask(s, t)
  {
    var w, s := World({t}, {p}, {c}, {}), AtIndex(t, p, c, index);
    assert w.tasks == (set x | x in [t]);
    OneActiveOk(w, t, p);
    assert ExecOk(w, {t}, NeverRan(t, index)) by { assert NoDup<Thread>([]); }
    OneProcessCore(c, p, [t], {}, OneActive(t, p), NeverRan(t, index), Ownership(map[t := 0], map[p := 0]));
    OneProcessLive(c, p, [t], OneActive(t, p), NeverRan(t, index), Ownership(map[t := 0], map[p := 0]));
    hide Core, LiveTasks;
  }

  // ------------------------------------------------------- a running owner

  ghost function Running(t: Task, h: Thread): Execution {
    Execution(map[t := TaskRun(h, 0)], map[h := ThreadRun(t, 0, [t], 1)], [h], 1, 0, false)
  }

  lemma RunningOk(w: World, t: Task, h: Thread)
    requires w.tasks == {t} && w.threads == {h}
    ensures ExecOk(w, {t}, Running(t, h))
  {
    assert NoDup([t]) && NoDup([h]);
    hide NoDup;
  }

  /** Thread `h` runs task `t`, which owns primitive `p` once. */
  ghost function Owner(t: Task, p: Prim, c: Process, h: Thread): State {
    OneProcess(c, p, [t], OneActive(t, p), Running(t, h), Ownership(map[t := 1], map[p := 1]))
  }

  lemma OwnerInv(t: Task, p: Prim, c: Process, h: Thread)
    ensures var w, s := World({t}, {p}, {c}, {h}), Owner(t, p, c, h);
            Inv(w, s) && LiveTasks(s.reg) == {t} && LivePrims(s.reg) == {p}
  {
    var w, s := World({t}, {p}, {c}, {h}), Owner(t, p, c, h);
    assert w.tasks == (set x | x in [t]);
    OneActiveOk(w, t, p);
    RunningOk(w, t, h);
    hide NoDup, OneActive, Running, StopOk, ExecOk;
    OneProcessCore(c, p, [t], {h}, OneActive(t, p), Running(t, h), Ownership(map[t := 1], map[p := 1]));
    OneProcessLive(c, p, [t], OneActive(t, p), Running(t, h), Ownership(map[t := 1], map[p := 1]));
    hide Core, LiveTasks, LivePrims;
  }

  // ---------------------------- a task stopped by the primitive of its process

  ghost function OneStopped(t: Task, u: Task, p: Prim): StopGraph {
    StopGraph(map[t := TaskStop(Stopped, p), u := TaskStop(Active, null)], map[p := PrimStop([t], 1)], [u])
  }

  ghost function Idle(t: Task, u: Task): Execution {
    Execution(map[t := TaskRun(null, USIZE_MAX), u := TaskRun(null, USIZE_MAX)], map[], [], 0, 1, true)
  }

  lemma OneStoppedOk(w: World, t: Task, u: Task, p: Prim)
    requires t != u && w.tasks == {t, u} && w.prims == {p}
    ensures StopOk(w, {t, u}, {p}, OneStopped(t, u, p))
  {
    assert NoDup([u]) && NoDup([t]);
    hide NoDup;
  }

  lemma IdleOk(w: World, t: Task, u: Task)
    requires t != u && w.tasks == {t, u} && w.threads == {}
    ensures ExecOk(w, {t, u}, Idle(t, u))
  {
    assert NoDup<Thread>([]);
    hide NoDup;
  }

  /** In an open commit, `t` is stopped by the primitive of its process and `u` is active. */
  ghost function HalfStopped(t: Task, u: Task, c: Process): State {
    OneProcess(c, c.prim, [t, u], OneStopped(t, u, c.prim), Idle(t, u), Ownership(map[t := 0, u := 0], map[c.prim := 0]))
  }

  lemma HalfStoppedInv(t: Task, u: Task, c: Process)
    requires t != u
    ensures var w, s := World({t, u}, {c.prim}, {c}, {}), HalfStopped(t, u, c);
            Inv(w, s) && LiveTasks(s.reg) == {t, u} && LivePrims(s.reg) == {c.prim} && Waiting(s, c.prim) == [t]
  {
    var w, s := World({t, u}, {c.prim}, {c}, {}), HalfStopped(t, u, c);
    var own := Ownership(map[t := 0, u := 0], map[c.prim := 0]);
    assert w.tasks == (set x | x in [t, u]);
    OneStoppedOk(w, t, u, c.prim);
    IdleOk(w, t, u);
    assert NoDup([t, u]);
    hide NoDup, OneStopped, Idle, StopOk, ExecOk;
    OneProcessCore(c, c.prim, [t, u], {}, OneStopped(t, u, c.prim), Idle(t, u), own);
    OneProcessLive(c, c.prim, [t, u], OneStopped(t, u, c.prim), Idle(t, u), own);
    hide Core, LiveTasks, LivePrims;
  }
}
