/** What registering and unregistering, pausing and resuming, and the two ends
  * of a commit leave in the fields of the objects. The statements name neither
  * plans nor steps. */
module Registering {
  import opened Lists
  import opened Objects
  import opened Marking
  import opened Model
  import opened Invariant
  import opened Operations
  import opened Plans
  import opened Calls
  import opened Runs
  import opened Frames
  import opened Queueing
  import opened Unregistering
  import opened Effects

  // ---------------------------------------------------------- registration

  /** A new thread: idle, without history, first in the list. */
  lemma RegisterThreadEffect(w: World, s: State, h: Thread)
    requires Core(w, s) && Legal(w, s, RegisterThread(h))
    ensures Step(s, RegisterThread(h)) ==
            s.(run := s.run.(threads := s.run.threads[h := ThreadRun(null, 0xFFFF_FFFF_FFFF_FFFF, [], 0)],
                             list := [h] + s.run.list, count := s.run.count + 1))
  {
    hide Core, ApplyAll;
    OneStep(w, s, Micro.AddThread(h));
  }

  /** A new task: active, alone, unmarked, first in its process and in the active list. */
  lemma RegisterTaskEffect(w: World, s: State, c: Process, t: Task)
    requires Core(w, s) && Legal(w, s, RegisterTask(c, t))
    ensures c in s.reg.procs
    ensures var s', r := Step(s, RegisterTask(c, t)), s.reg.procs[c];
            && LiveTasks(s'.reg) == LiveTasks(s.reg) + {t} && LivePrims(s'.reg) == LivePrims(s.reg)
            && s' == State(
                 s.reg.(tasks := s.reg.tasks[t := c], procs := s.reg.procs[c := r.(tasks := [t] + r.tasks, nbTasks := r.nbTasks + 1)]),
                 StopGraph(s.stop.tasks[t := TaskStop(Active, null)], s.stop.prims, [t] + s.stop.actives),
                 s.over.(tasks := s.over.tasks[t := TaskOver([], 0)]),
                 s.run.(tasks := s.run.tasks[t := TaskRun(null, 0xFFFF_FFFF_FFFF_FFFF)]),
                 s.own.(tasks := s.own.tasks[t := 0]),
                 s.marks.(tasks := s.marks.tasks - {t}))
  {
    hide Core, RegistryOk, LiveTasks, LivePrims, ApplyAll;
    CoreParts(w, s);
    ListedAreKnown(w, s.reg);
    LiveAfter(w, s, Micro.AddTask(c, t));
    OneStep(w, s, Micro.AddTask(c, t));
  }

  /** A new primitive: it stops, owns and overrides nothing, and is first in its process. */
  ghost predicate PrimArrives(s: State, s': State, c: Process, r: ProcessReg, p: Prim) {
    && LiveTasks(s'.reg) == LiveTasks(s.reg) && LivePrims(s'.reg) == LivePrims(s.reg) + {p}
    && s'.reg == s'.reg.(tasks := s.reg.tasks, prims := s.reg.prims[p := c],
                         procs := s.reg.procs[c := r.(prims := [p] + r.prims, nbPrims := r.nbPrims + 1)])
    && s'.stop == s.stop.(prims := s.stop.prims[p := PrimStop([], 0)])
    && s'.over == s.over.(prims := s.over.prims[p := null])
    && s'.run == s.run
    && s'.own == s.own.(prims := s.own.prims[p := 0])
    && s'.marks == s.marks.(prims := s.marks.prims - {p})
  }

  lemma PrimRows(w: World, s: State, c: Process, p: Prim)
    requires Core(w, s) && Ok(w, s, Micro.AddPrim(c, p))
    ensures c in s.reg.procs
    ensures var s' := Apply(s, Micro.AddPrim(c, p));
            PrimArrives(s, s', c, s.reg.procs[c], p) && s'.reg.list == s.reg.list && s'.reg.count == s.reg.count
  {
    hide Core, RegistryOk, LiveTasks, LivePrims;
    CoreParts(w, s);
    ListedAreKnown(w, s.reg);
    LiveAfter(w, s, Micro.AddPrim(c, p));
  }

  lemma RegisterPrimEffect(w: World, s: State, c: Process, p: Prim)
    requires Core(w, s) && Legal(w, s, RegisterPrim(c, p))
    ensures c in s.reg.procs
    ensures var s' := Step(s, RegisterPrim(c, p));
            PrimArrives(s, s', c, s.reg.procs[c], p) && s'.reg.list == s.reg.list && s'.reg.count == s.reg.count
  {
    hide Core, LiveTasks, LivePrims, ApplyAll, Apply, PrimArrives;
    PrimRows(w, s, c, p);
    OneStep(w, s, Micro.AddPrim(c, p));
  }

  /** A new process: active, first in the list, without tasks, and with its own
    * primitive as the only one, which makes it one that can be paused. */
  lemma RegisterProcessEffect(w: World, s: State, c: Process)
    requires Core(w, s) && Legal(w, s, RegisterProcess(c))
    ensures var s', p := Step(s, RegisterProcess(c)), c.prim;
            && s'.reg == Registry(s.reg.tasks, s.reg.prims[p := c], s.reg.procs[c := ProcessReg([], 0, [p], 1, Active)],
                                  [c] + s.reg.list, s.reg.count + 1)
            && LiveTasks(s'.reg) == LiveTasks(s.reg) && LivePrims(s'.reg) == LivePrims(s.reg) + {p}
            && s'.stop == s.stop.(prims := s.stop.prims[p := PrimStop([], 0)])
            && s'.over == s.over.(prims := s.over.prims[p := null])
            && s'.run == s.run
            && s'.own == s.own.(prims := s.own.prims[p := 0])
            && s'.marks == s.marks.(prims := s.marks.prims - {p})
            && (s.run.committing ==> Legal(w, s', PauseProcess(c)))
  {
    hide Core, RegistryOk, Ok, AllOk, Apply, ApplyAll, LiveTasks, LivePrims;
    var p := c.prim;
    PlanOk(w, s, RegisterProcess(c));
    TwoSteps(w, s, Micro.AddProcess(c), Micro.AddPrim(c, p));
    CoreParts(w, s);
    LiveAfter(w, s, Micro.AddProcess(c));
    StepKeepsCore(w, s, Micro.AddProcess(c));
    var s1 := Apply(s, Micro.AddProcess(c));
    ProcessRows(s, c);
    PrimRows(w, s1, c, p);
    assert s1.reg.procs[c := ProcessReg([], 0, [p], 1, Active)] == s.reg.procs[c := ProcessReg([], 0, [p], 1, Active)];
    assert [p] + [] == [p];
  }

  lemma ProcessRows(s: State, c: Process)
    ensures Apply(s, Micro.AddProcess(c)) ==
            s.(reg := s.reg.(procs := s.reg.procs[c := ProcessReg([], 0, [], 0, Active)], list := [c] + s.reg.list, count := s.reg.count + 1))
  {
  }

  // -------------------------------------------------------- unregistration

  /** The elements of `a` that are not in `b`, in order. */
  function Outside<T(==)>(a: seq<T>, b: seq<T>): seq<T> {
    if a == [] then [] else (if a[0] in b then [] else [a[0]]) + Outside(a[1..], b)
  }

  lemma {:induction false} RemoveOutside<T>(a: seq<T>, b: seq<T>, x: T)
    ensures Remove(Outside(a, b), x) == Outside(a, b + [x])
  {
    if a != [] {
      RemoveOutside(a[1..], b, x);
      var rest := Outside(a[1..], b);
      assert ([a[0]] + rest)[1..] == rest && [] + rest == rest && [] + Outside(a[1..], b + [x]) == Outside(a[1..], b + [x]);
      assert a[0] in b + [x] <==> a[0] in b || a[0] == x;
    }
  }

  lemma {:induction false} RemoveAllIsOutside<T>(a: seq<T>, b: seq<T>)
    ensures RemoveAll(a, b) == Outside(a, b)
  {
    if b == [] {
      OutsideNothing(a);
    } else {
      var n := |b| - 1;
      RemoveAllIsOutside(a, b[..n]);
      RemoveOutside(a, b[..n], b[n]);
      assert b[..n] + [b[n]] == b;
    }
  }

  lemma {:induction false} OutsideNothing<T>(a: seq<T>)
    ensures Outside(a, []) == a
  {
    if a != [] {
      OutsideNothing(a[1..]);
    }
  }

  lemma {:induction false} OutsideSame<T>(a: seq<T>, b: seq<T>, c: seq<T>)
    requires forall x :: x in a ==> (x in b <==> x in c)
    ensures Outside(a, b) == Outside(a, c)
  {
    if a != [] {
      OutsideSame(a[1..], b, c);
    }
  }

  /** A process leaves the list, and its tasks the active list; no field of its
    * tasks and primitives changes, and nothing of any other object. */
  lemma UnregisterProcessEffect(w: World, s: State, c: Process)
    requires Core(w, s) && Legal(w, s, UnregisterProcess(c))
    ensures c in s.reg.procs
    ensures var s' := Step(s, UnregisterProcess(c));
            && s' == s.(reg := s'.reg, stop := s.stop.(actives := Outside(s.stop.actives, s.reg.procs[c].tasks)))
            && s'.reg == s.reg.(list := s'.reg.list, count := s.reg.count - 1) && Unlinks1(s.reg.list, c, s'.reg.list)
            && (forall t :: LiveTask(s', t) <==> LiveTask(s, t) && t !in s.reg.procs[c].tasks)
            && (forall p :: LivePrim(s', p) <==> LivePrim(s, p) && p in s.reg.prims && s.reg.prims[p] != c)
  {
    hide Core, RegistryOk, LiveTasks, LivePrims, ApplyAll, ActiveOf, RemoveAll, Remove, NoDup;
    CoreParts(w, s);
    ProcessListNoDup(w, s.reg);
    TasksOfProcess(w, s, c);
    ListedAreKnown(w, s.reg);
    LiveAfter(w, s, Micro.DropProcess(c));
    OneStep(w, s, Micro.DropProcess(c));
    RemoveUnlinks(s.reg.list, c);
    ActiveOfFacts(s.stop, s.reg.procs[c].tasks);
    ActivesAreActive(w, s);
    RemoveAllIsOutside(s.stop.actives, ActiveOf(s.stop, s.reg.procs[c].tasks));
    OutsideSame(s.stop.actives, ActiveOf(s.stop, s.reg.procs[c].tasks), s.reg.procs[c].tasks);
  }

  lemma ProcessListNoDup(w: World, g: Registry)
    requires RegistryOk(w, g)
    ensures NoDup(g.list)
  {
    hide NoDup, ProcessOk;
  }

  lemma ActivesAreActive(w: World, s: State)
    requires Core(w, s)
    ensures forall t :: t in s.stop.actives ==> t in s.stop.tasks && s.stop.tasks[t].status == Active
  {
    hide LiveTasks, LivePrims, RegistryOk, StoppersOk, StoppedOk, OverOk, ExecOk, OwnOk, SameProcess, ClosedBut, NoDup;
  }

  lemma ThreadListNoDup(w: World, s: State)
    requires Core(w, s)
    ensures NoDup(s.run.list)
  {
    hide LiveTasks, LivePrims, RegistryOk, StopOk, OverOk, OwnOk, SameProcess, ClosedBut, ThreadsOk, RunnersOk, NoDup;
  }

  /** Unregistering a thread takes it, and only it, out of the list. */
  lemma UnregisterThreadEffect(w: World, s: State, h: Thread)
    requires Core(w, s) && Legal(w, s, UnregisterThread(h))
    ensures var g := Step(s, UnregisterThread(h)).run;
            && Unlinks1(s.run.list, h, g.list) && g.count == s.run.count - 1
            && g.index == s.run.index && g.committing == s.run.committing
  {
    hide Core, AllOk, Ok, Apply, ApplyAll, NoDup;
    UnregisterThreadOk(w, s, h);
    ThreadListNoDup(w, s);
    ThreadTasksAreDetachable(w, s, h);
    var ts := s.run.threads[h].history;
    DetachesFacts(w, s, ts);
    AllOkSplit(w, s, Detaches(ts), [Micro.DropThread(h)]);
    var s1 := ApplyAll(s, Detaches(ts));
    OneStep(w, s1, Micro.DropThread(h));
    DropsThread(s1, h);
    RemoveUnlinks(s.run.list, h);
  }

  // ---------------------------------------------------- pausing, resuming

  /** Of the registry only the status of `c` changed. */
  ghost predicate StatusSet(g: Registry, g': Registry, c: Process, status: Status) {
    c in g.procs && g' == g.(procs := g.procs[c := g.procs[c].(status := status)])
  }

  /** The active tasks of a list, from its head on. */
  function ActiveIn(g: StopGraph, ts: seq<Task>): seq<Task> {
    if ts == [] then []
    else (if ts[0] in g.tasks && g.tasks[ts[0]].status == Active then [ts[0]] else []) + ActiveIn(g, ts[1..])
  }

  lemma {:induction false} ActiveInLast(g: StopGraph, ts: seq<Task>)
    requires ts != []
    ensures var n := |ts| - 1;
            ActiveIn(g, ts) == ActiveIn(g, ts[..n]) + (if ts[n] in g.tasks && g.tasks[ts[n]].status == Active then [ts[n]] else [])
  {
    var n := |ts| - 1;
    if n > 0 {
      ActiveInLast(g, ts[1..]);
      assert ts[1..][..n - 1] == ts[..n][1..];
    }
  }

  lemma {:induction false} ActiveOfIsActiveIn(g: StopGraph, ts: seq<Task>)
    ensures ActiveOf(g, ts) == ActiveIn(g, ts)
  {
    if ts != [] {
      ActiveOfIsActiveIn(g, ts[..|ts| - 1]);
      ActiveInLast(g, ts);
    }
  }

  /** A pause: the process is stopped, its active tasks are appended to the list
    * of its primitive, and nothing else but update marks changes. */
  lemma PauseProcessEffect(w: World, s: State, c: Process)
    requires Core(w, s) && Legal(w, s, PauseProcess(c))
    ensures c in s.reg.procs && c.prim in s.stop.prims
    ensures var s' := Step(s, PauseProcess(c));
            && s' == s.(reg := s'.reg, stop := s'.stop, marks := s'.marks) && StatusSet(s.reg, s'.reg, c, Stopped)
            && s'.stop.tasks.Keys == s.stop.tasks.Keys
            && (forall t :: t in s.stop.tasks ==>
                  s'.stop.tasks[t] == if t in s.reg.procs[c].tasks && s.stop.tasks[t].status == Active then TaskStop(Stopped, c.prim) else s.stop.tasks[t])
            && c.prim in s'.stop.prims && s'.stop.prims == s.stop.prims[c.prim := s'.stop.prims[c.prim]]
            && s'.stop.prims[c.prim].stopped == s.stop.prims[c.prim].stopped + ActiveIn(s.stop, s.reg.procs[c].tasks)
  {
    hide Core, Ok, AllOk, Apply, ApplyAll, LiveTasks, LivePrims, NoDup, Pausable;
    PauseOk(w, s, c);
    PauseIsPausable(s, c);
    var a, m := Stops(c.prim, Pausable(s, c)), Micro.SetStatus(c, Stopped);
    PausableFacts(w, s, c);
    assert c in s.reg.procs;
    PausableIs(s, c);
    ActiveOfIsActiveIn(s.stop, s.reg.procs[c].tasks);
    AllOkSplit(w, s, a, [m]);
    OneStep(w, ApplyAll(s, a), m);
    StatusRows(ApplyAll(s, a), c, Stopped);
  }

  lemma PausableIs(s: State, c: Process)
    requires c in s.reg.procs
    ensures Pausable(s, c) == ActiveOf(s.stop, s.reg.procs[c].tasks)
    ensures forall t :: t in s.stop.tasks ==> (t in Pausable(s, c) <==> t in s.reg.procs[c].tasks && s.stop.tasks[t].status == Active)
  {
    ActiveOfFacts(s.stop, s.reg.procs[c].tasks);
  }

  lemma StatusRows(s: State, c: Process, status: Status)
    requires c in s.reg.procs
    ensures var s' := Apply(s, Micro.SetStatus(c, status)); s' == s.(reg := s'.reg) && StatusSet(s.reg, s'.reg, c, status)
  {
  }

  /** A resume: the process is active and can be paused again, its primitive stops
    * nothing any more, and nothing but the tasks it stopped changes. */
  lemma ResumeProcessEffect(w: World, s: State, c: Process)
    requires Core(w, s) && Legal(w, s, ResumeProcess(c))
    ensures var s' := Step(s, ResumeProcess(c));
            && s' == s.(reg := s'.reg, stop := s'.stop, marks := s'.marks) && StatusSet(s.reg, s'.reg, c, Active)
            && s'.stop.tasks.Keys == s.stop.tasks.Keys
            && (forall t :: t in s.stop.tasks ==> s'.stop.tasks[t] == if t in Waiting(s, c.prim) then TaskStop(Active, null) else s.stop.tasks[t])
            && Waiting(s', c.prim) == [] && (forall q :: LivePrim(s, q) && q != c.prim ==> Waiting(s', q) == Waiting(s, q))
            && Legal(w, s', PauseProcess(c))
  {
    hide Core, Ok, AllOk, Apply, ApplyAll, LiveTasks, LivePrims, NoDup;
    ResumeProcessOk(w, s, c);
    var ts, m := Waiting(s, c.prim), Micro.SetStatus(c, Active);
    AllOkSplit(w, s, Resumes(ts), [m]);
    var s1 := ApplyAll(s, Resumes(ts));
    OneStep(w, s1, m);
    StatusRows(s1, c, Active);
    var s' := Step(s, ResumeProcess(c));
    CallKeepsCore(w, s, ResumeProcess(c));
    SameLive(s.reg, s'.reg, c, Active);
    StoppedOfCore(w, s', c.prim);
    StoppedAreWaiting(w, s, c.prim);
    if Waiting(s', c.prim) != [] {
      HasElement(Waiting(s', c.prim));
    }
    forall q | LivePrim(s, q) && q != c.prim
      ensures Waiting(s', q) == Waiting(s, q)
    {
      OtherQueueStays(w, s, c, q);
    }
  }

  lemma SameLive(g: Registry, g': Registry, c: Process, status: Status)
    requires StatusSet(g, g', c, status)
    ensures LiveTasks(g') == LiveTasks(g) && LivePrims(g') == LivePrims(g)
  {
  }

  lemma OtherQueueStays(w: World, s: State, c: Process, q: Prim)
    requires Core(w, s) && Legal(w, s, ResumeProcess(c)) && LivePrim(s, q) && q != c.prim
    ensures Waiting(Step(s, ResumeProcess(c)), q) == Waiting(s, q)
  {
    hide Core, Step, LivePrims, LiveTasks, Waiting;
    HomeOf(w, s, q);
    WakeKeeps(w, s, q, c.prim, s.reg.prims[q]);
    KeepingCall(w, s, ResumeProcess(c), q);
  }

  // --------------------------------------------------------------- commits

  /** Opening a commit: one flag and one counter, modulo 2^64. */
  lemma OpenCommitEffect(w: World, s: State)
    ensures Step(s, Op.OpenCommit) == s.(run := s.run.(committing := true, index := (s.run.index + 1) % 0x1_0000_0000_0000_0000))
  {
    hide ApplyAll;
    OneStep(w, s, Micro.OpenCommit);
  }

  /** Closing a commit: the flag, the marks the scheduling hook resets, and the
    * tasks and threads of the assignment hook. */
  lemma CloseCommitEffect(w: World, s: State, cleared: Marks, plan: seq<(Thread, Task?)>)
    requires Core(w, s) && Legal(w, s, Op.CloseCommit(cleared, plan))
    ensures var s' := Step(s, Op.CloseCommit(cleared, plan));
            && s' == s.(run := s'.run, marks := Marks(s.marks.tasks - cleared.tasks, s.marks.prims - cleared.prims))
            && s'.run == s.run.(committing := false, tasks := s'.run.tasks, threads := s'.run.threads)
            && (plan == [] ==> s'.run == s.run.(committing := false))
  {
    hide Core, Ok, AllOk, Apply, ApplyAll, Legal, Assigns;
    PlanOk(w, s, Op.CloseCommit(cleared, plan));
    CommitRows(s, cleared);
    AssignsAssign(plan);
    var m, n := Micro.CloseCommit, Micro.ClearMarks(cleared);
    AllOkSplit(w, s, [m, n], Assigns(plan));
    AllOkKeepsCore(w, s, [m, n]);
    var s1 := ApplyAll(s, [m, n]);
    ApplyPair(s, m, n);
    AssignsOnly(s1, Assigns(plan));
  }

  lemma CommitRows(s: State, cleared: Marks)
    ensures Apply(Apply(s, Micro.CloseCommit), Micro.ClearMarks(cleared)) ==
            s.(run := s.run.(committing := false), marks := Marks(s.marks.tasks - cleared.tasks, s.marks.prims - cleared.prims))
  {
  }

  lemma AssignsAssign(plan: seq<(Thread, Task?)>)
    ensures (forall m :: m in Assigns(plan) ==> m.Assign?) && (plan == [] ==> Assigns(plan) == [])
  {
  }

  lemma {:induction false} AssignsOnly(s: State, ms: seq<Micro>)
    requires forall m :: m in ms ==> m.Assign?
    ensures Assigned(s, ApplyAll(s, ms)) && (ms == [] ==> ApplyAll(s, ms) == s)
  {
    if ms != [] {
      var n := |ms| - 1;
      assert ms == ms[..n] + [ms[n]];
      AssignsOnly(s, ms[..n]);
      AssignOnly(ApplyAll(s, ms[..n]), ms[n]);
    }
  }

  lemma AssignOnly(s: State, m: Micro)
    requires m.Assign?
    ensures Assigned(s, Apply(s, m))
  {
    hide Remove;
  }

  // ------------------------------------------- unregistering tasks, primitives

  lemma {:induction false} UnlinksOnly(s: State, ps: seq<Prim>, t: Task)
    requires forall p :: p in ps ==> p in s.over.prims && s.over.prims[p] == t
    ensures var g := ApplyAll(s, Unlinks(ps)).over;
            && g.prims.Keys == s.over.prims.Keys && g.tasks.Keys == s.over.tasks.Keys
            && (forall p :: p in g.prims ==> g.prims[p] == s.over.prims[p] || g.prims[p] == null)
            && (forall u :: u in g.tasks && u != t ==> g.tasks[u] == s.over.tasks[u])
  {
    hide Apply;
    if ps != [] {
      var n := |ps| - 1;
      assert ps == ps[..n] + [ps[n]];
      UnlinksOnly(s, ps[..n], t);
      assert Unlinks(ps) == Unlinks(ps[..n]) + [Micro.Unlink(ps[n])];
      assert (Unlinks(ps[..n]) + [Micro.Unlink(ps[n])])[..n] == Unlinks(ps[..n]);
      UnlinkOnly(ApplyAll(s, Unlinks(ps[..n])), ps[n], t);
    } else {
      assert Unlinks(ps) == [];
    }
  }

  lemma UnlinkOnly(s: State, p: Prim, t: Task)
    requires p in s.over.prims && (s.over.prims[p] == t || s.over.prims[p] == null)
    ensures var g := Apply(s, Micro.Unlink(p)).over;
            && g.prims.Keys == s.over.prims.Keys && g.tasks.Keys == s.over.tasks.Keys
            && (forall q :: q in g.prims ==> g.prims[q] == s.over.prims[q] || g.prims[q] == null)
            && (forall u :: u in g.tasks && u != t ==> g.tasks[u] == s.over.tasks[u])
  {
    hide Walk, EdgesOf, Remove;
  }

  /** Of the registry only the process of `t` changed: it lost the task. */
  ghost predicate TaskDropped(g: Registry, g': Registry, t: Task) {
    && t in g.tasks && g.tasks[t] != null && g.tasks[t] in g.procs
    && var c := g.tasks[t];
    && c in g'.procs && Unlinks1(g.procs[c].tasks, t, g'.procs[c].tasks)
    && g' == g.(procs := g.procs[c := g.procs[c].(tasks := g'.procs[c].tasks, nbTasks := g.procs[c].nbTasks - 1)])
  }

  ghost predicate PrimDropped(g: Registry, g': Registry, p: Prim) {
    && p in g.prims && g.prims[p] != null && g.prims[p] in g.procs
    && var c := g.prims[p];
    && c in g'.procs && Unlinks1(g.procs[c].prims, p, g'.procs[c].prims)
    && g' == g.(procs := g.procs[c := g.procs[c].(prims := g'.procs[c].prims, nbPrims := g.procs[c].nbPrims - 1)])
  }

  lemma ProcessLists(w: World, g: Registry)
    requires RegistryOk(w, g)
    ensures forall c :: c in g.list ==> c in g.procs && NoDup(g.procs[c].tasks) && NoDup(g.procs[c].prims)
  {
    hide NoDup;
  }

  lemma DropTaskRows(w: World, s: State, t: Task)
    requires Core(w, s) && LiveTask(s, t)
    ensures var s' := Apply(s, Micro.DropTask(t));
            && s' == s.(reg := s'.reg, stop := s.stop.(actives := s'.stop.actives))
            && TaskDropped(s.reg, s'.reg, t) && Unlinks1(s.stop.actives, t, s'.stop.actives)
  {
    hide Core, RegistryOk, LivePrims, NoDup, Remove, Unlinks1;
    CoreParts(w, s);
    ListedAreKnown(w, s.reg);
    ProcessLists(w, s.reg);
    ActivesNoDup(w, s);
    var ts := s.reg.procs[s.reg.tasks[t]].tasks;
    RemoveUnlinks(ts, t);
    RemoveUnlinks(s.stop.actives, t);
  }

  lemma DropPrimRows(w: World, s: State, p: Prim)
    requires Core(w, s) && LivePrim(s, p)
    ensures var s' := Apply(s, Micro.DropPrim(p)); s' == s.(reg := s'.reg) && PrimDropped(s.reg, s'.reg, p)
  {
    hide Core, RegistryOk, LiveTasks, NoDup, Remove, Unlinks1;
    CoreParts(w, s);
    ListedAreKnown(w, s.reg);
    ProcessLists(w, s.reg);
    var ps := s.reg.procs[s.reg.prims[p]].prims;
    RemoveUnlinks(ps, p);
  }

  /** The thread of `t` lost it. */
  ghost predicate TaskDetached(g: Execution, g': Execution, t: Task, h: Thread) {
    && t in g.tasks && h in g.threads && h in g'.threads
    && g' == g.(tasks := g.tasks[t := TaskRun(null, g.tasks[t].commit)], threads := g.threads[h := g'.threads[h]])
    && Leaves(g.threads[h], g'.threads[h], t)
  }

  lemma DetachRows(w: World, s: State, t: Task, h: Thread)
    requires Core(w, s) && h in s.run.list && t in s.run.tasks && s.run.tasks[t].thread == h
    ensures var s' := Apply(s, Micro.Detach(t)); s' == s.(run := s'.run) && TaskDetached(s.run, s'.run, t, h)
  {
    hide Core, NoDup, Remove, Unlinks1;
    ThreadTasksAreDetachable(w, s, h);
    RemoveUnlinks(s.run.threads[h].history, t);
  }

  /** What the unregistration of the task of a thread leaves of everything. */
  ghost predicate TaskUnregistered(s: State, s': State, g: Execution, h: Thread, t: Task, next: Task?) {
    && s'.own == s.own && TaskDropped(s.reg, s'.reg, t)
    && s'.stop == s.stop.(actives := s'.stop.actives) && Unlinks1(s.stop.actives, t, s'.stop.actives)
    && s'.over.tasks.Keys == s.over.tasks.Keys && (forall u :: u in s.over.tasks && u != t ==> s'.over.tasks[u] == s.over.tasks[u])
    && TaskDetached(s.run, g, t, h) && Assigns1(g, s'.run, h, next)
  }

  lemma DetachDropRows(w: World, s: State, t: Task, h: Thread)
    requires Core(w, s) && h in s.run.list && t in s.run.tasks && s.run.tasks[t].thread == h
    requires Ok(w, s, Micro.Detach(t)) && Ok(w, Apply(s, Micro.Detach(t)), Micro.DropTask(t))
    ensures var s' := Apply(Apply(s, Micro.Detach(t)), Micro.DropTask(t));
            && s' == s.(reg := s'.reg, stop := s.stop.(actives := s'.stop.actives), run := s'.run)
            && TaskDropped(s.reg, s'.reg, t) && Unlinks1(s.stop.actives, t, s'.stop.actives) && TaskDetached(s.run, s'.run, t, h)
  {
    hide Core, Apply, LivePrims, LiveTasks, TaskDropped, TaskDetached, Unlinks1;
    DetachRows(w, s, t, h);
    StepKeepsCore(w, s, Micro.Detach(t));
    DropTaskRows(w, Apply(s, Micro.Detach(t)), t);
  }

  /** The task leaves its thread, its process and the active list, its overriders
    * override nothing, and the thread gets the hook's choice; no other object changes. */
  lemma UnregisterTaskEffect(w: World, s: State, h: Thread, next: Task?) returns (g: Execution)
    requires Inv(w, s) && Legal(w, s, UnregisterTask(h, next))
    ensures Current(s, h) != null
    ensures TaskUnregistered(s, Step(s, UnregisterTask(h, next)), g, h, Current(s, h), next)
  {
    hide Inv, Core, AllOk, Ok, Apply, ApplyAll, LiveTasks, LivePrims, Legal, TaskDropped, TaskDetached, Unlinks1, Assigns1, Unlinked;
    InvIsCore(w, s);
    RunnerIsActive(w, s, h, next);
    RunnerNamesThread(w, s, h, next);
    PlanOk(w, s, UnregisterTask(h, next));
    var t := Current(s, h);
    OverridersKnown(w, s, t);
    var ps := s.over.tasks[t].overriders;
    var a, b, c := Unlinks(ps), [Micro.Detach(t), Micro.DropTask(t)], [Micro.Assign(h, next)];
    PlainUnregisterPlan(s, h, t, next);
    assert a + b + c == Plan(s, UnregisterTask(h, next));
    hide Plan, Current;
    AllOkSplit(w, s, a + b, c);
    AllOkSplit(w, s, a, b);
    AllOkKeepsCore(w, s, a);
    AllOkKeepsCore(w, s, a + b);
    var s1, s2 := ApplyAll(s, a), ApplyAll(s, a + b);
    OneStep(w, s2, c[0]);
    TwoSteps(w, s1, b[0], b[1]);
    UnlinksOnly(s, ps, t);
    UnlinksKeepRest(s, ps);
    DetachDropRows(w, s1, t, h);
    AssignRows(w, s2, h, next);
    g := s2.run;
  }

  lemma {:induction false} UnlinksKeepRest(s: State, ps: seq<Prim>)
    ensures var s' := ApplyAll(s, Unlinks(ps)); s' == s.(over := s'.over, marks := s'.marks)
  {
    hide Apply;
    if ps != [] {
      var n := |ps| - 1;
      UnlinksKeepRest(s, ps[..n]);
      assert Unlinks(ps)[..n] == Unlinks(ps[..n]);
      UnlinkKeepsRest(ApplyAll(s, Unlinks(ps[..n])), ps[n]);
    } else {
      assert Unlinks(ps) == [];
    }
  }

  lemma UnlinkKeepsRest(s: State, p: Prim)
    ensures var s' := Apply(s, Micro.Unlink(p)); s' == s.(over := s'.over, marks := s'.marks)
  {
    hide Walk, EdgesOf, UnlinkOverride;
  }

  lemma RunnerNamesThread(w: World, s: State, h: Thread, next: Task?)
    requires Core(w, s) && Legal(w, s, UnregisterTask(h, next))
    ensures var t := Current(s, h);
            h in s.run.list && t != null && t in s.run.tasks && s.run.tasks[t].thread == h && t in s.over.tasks
            && LiveTask(s, t) && t in s.stop.tasks
  {
    hide Core, LiveTasks;
    ThreadTasksAreDetachable(w, s, h);
    OverridersKnown(w, s, Current(s, h));
    StatusOfLive(w, s, Current(s, h));
  }

  /** The primitive leaves its process; what its unregistration does to tasks and
    * overrides is PrimGone. */
  lemma UnregisterPrimEffect(w: World, s: State, p: Prim)
    requires Inv(w, s) && Legal(w, s, UnregisterPrim(p))
    ensures var s' := Step(s, UnregisterPrim(p));
            && PrimDropped(s.reg, s'.reg, p) && PrimGone(s, s', p)
  {
    hide Inv, Core, AllOk, Ok, Apply, ApplyAll, LiveTasks, LivePrims, Waiting, NoDup, Resumed, Legal, PrimDropped, PrimGone;
    InvIsCore(w, s);
    PlanOk(w, s, UnregisterPrim(p));
    UnregistersLive(w, s, p);
    DrainedFacts(w, s, p);
    PrimLeavesNothing(w, s, p);
    var ts := Waiting(s, p);
    var b := [Micro.Unlink(p), Micro.DropPrim(p)];
    AllOkSplit(w, s, Resumes(ts), b);
    var s1 := ApplyAll(s, Resumes(ts));
    TwoSteps(w, s1, b[0], b[1]);
    StepKeepsCore(w, s1, b[0]);
    ResumedRegistry(s, s1, ts);
    UnlinkKeepsRest(s1, p);
    var s2 := Apply(s1, b[0]);
    SameRegistryLive(s, s2, p);
    DropPrimRows(w, s2, p);
  }

  lemma ResumedRegistry(s: State, s1: State, ts: seq<Task>)
    requires Resumed(s, s1, ts)
    ensures s1.reg == s.reg
  {
  }

  lemma SameRegistryLive(s: State, s': State, p: Prim)
    requires s'.reg == s.reg && LivePrim(s, p)
    ensures LivePrim(s', p)
  {
  }
}
