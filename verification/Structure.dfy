/** What the invariant says of every reachable state: each task in one list,
  * links and counters in agreement, and update marks on every ancestor. */
module Structure {
  import opened Lists
  import opened Objects
  import opened Marking
  import opened Model
  import opened Invariant
  import opened Operations
  import opened Plans
  import opened Calls
  import opened Runs

  /** How often an object is linked in a list. */
  function Count<T(==)>(s: seq<T>, x: T): nat {
    multiset(s)[x]
  }

  lemma {:induction false} CountedOnce<T>(s: seq<T>, x: T)
    requires NoDup(s)
    ensures Count(s, x) == if x in s then 1 else 0
  {
    if s != [] {
      LastIsNew(s);
      CountedOnce(s[..|s| - 1], x);
    }
  }

  lemma ActivesOfCore(w: World, s: State, t: Task)
    requires Core(w, s) && LiveTask(s, t)
    ensures t in s.stop.tasks && NoDup(s.stop.actives) && (t in s.stop.actives <==> s.stop.tasks[t].status == Active)
    ensures StopperOk(LivePrims(s.reg), s.stop, t)
  {
    hide LiveTasks, LivePrims, RegistryOk, StoppedOk, OverOk, ExecOk, OwnOk, ClosedBut, SameProcess, NoDup, StopperOk;
  }

  /** Each registered task is, exactly once, either in the active list or in the
    * stopped list of its own stopper, a primitive of its process. */
  lemma OnePlace(w: World, ss: seq<State>, ops: seq<Op>, n: nat, t: Task, p: Prim)
    requires IsRun(w, ss, ops) && Inv(w, ss[0]) && n < |ss| && LiveTask(ss[n], t) && LivePrim(ss[n], p)
    ensures t in ss[n].stop.tasks
    ensures var r := ss[n].stop.tasks[t];
            || (r == TaskStop(Active, null) && Count(ss[n].stop.actives, t) == 1)
            || (r.status == Stopped && r.stopper != null && Count(ss[n].stop.actives, t) == 0
                && LivePrim(ss[n], r.stopper) && t in ss[n].reg.tasks && r.stopper in ss[n].reg.prims
                && ss[n].reg.prims[r.stopper] == ss[n].reg.tasks[t])
    ensures Count(Waiting(ss[n], p), t) == if ss[n].stop.tasks[t].stopper == p then 1 else 0
  {
    hide IsRun, Inv, Core, LivePrims, LiveTasks, NoDup, Count;
    RunKeepsInv(w, ss, ops, n);
    InvIsCore(w, ss[n]);
    var s := ss[n];
    ActivesOfCore(w, s, t);
    CountedOnce(s.stop.actives, t);
    StoppedOfCore(w, s, p);
    StoppedAreWaiting(w, s, p);
    CountedOnce(Waiting(s, p), t);
    StopperProcess(w, s, t);
  }

  lemma StopperProcess(w: World, s: State, t: Task)
    requires Core(w, s) && LiveTask(s, t)
    ensures t in s.reg.tasks && t in s.stop.tasks
    ensures var p := s.stop.tasks[t].stopper; p != null ==> p in s.reg.prims && s.reg.prims[p] == s.reg.tasks[t]
  {
    hide ActivesOk, StoppedOk, OverOk, ExecOk, OwnOk, ClosedBut, ProcessOk;
  }

  /** The counters are the list lengths, and an override link and the overrider
    * list it is in agree and stay within one process. */
  lemma LinksAgree(w: World, ss: seq<State>, ops: seq<Op>, n: nat, t: Task, p: Prim)
    requires IsRun(w, ss, ops) && Inv(w, ss[0]) && n < |ss| && LiveTask(ss[n], t) && LivePrim(ss[n], p)
    ensures t in ss[n].over.tasks && p in ss[n].over.prims && p in ss[n].stop.prims && t in ss[n].reg.tasks && p in ss[n].reg.prims
    ensures ss[n].stop.prims[p].count == |ss[n].stop.prims[p].stopped|
    ensures ss[n].over.tasks[t].count == |ss[n].over.tasks[t].overriders|
    ensures Count(ss[n].over.tasks[t].overriders, p) == if ss[n].over.prims[p] == t then 1 else 0
    ensures ss[n].over.prims[p] == t ==> ss[n].reg.prims[p] == ss[n].reg.tasks[t]
  {
    hide IsRun, Inv, Core, LivePrims, LiveTasks, NoDup, Count;
    RunKeepsInv(w, ss, ops, n);
    InvIsCore(w, ss[n]);
    LinksOfCore(w, ss[n], t, p);
    CountedOnce(ss[n].over.tasks[t].overriders, p);
  }

  lemma LinksOfCore(w: World, s: State, t: Task, p: Prim)
    requires Core(w, s) && LiveTask(s, t) && LivePrim(s, p)
    ensures t in s.over.tasks && p in s.over.prims && p in s.stop.prims && t in s.reg.tasks && p in s.reg.prims
    ensures s.stop.prims[p].count == |s.stop.prims[p].stopped|
    ensures s.over.tasks[t].count == |s.over.tasks[t].overriders| && NoDup(s.over.tasks[t].overriders)
    ensures p in s.over.tasks[t].overriders <==> s.over.prims[p] == t
    ensures s.over.prims[p] == t ==> s.reg.prims[p] == s.reg.tasks[t]
  {
    hide ActivesOk, StoppersOk, ExecOk, OwnOk, ClosedBut, NoDup, ProcessOk;
  }

  /** A task is the current task of at most one thread, which it names, with an
    * equal commit index; the history lists are disjoint and hold exactly the
    * tasks that name the thread. */
  lemma OneThread(w: World, ss: seq<State>, ops: seq<Op>, n: nat, t: Task, h: Thread)
    requires IsRun(w, ss, ops) && Inv(w, ss[0]) && n < |ss| && LiveTask(ss[n], t) && h in ss[n].run.list
    ensures var g := ss[n].run;
            && t in g.tasks && h in g.threads
            && Count(g.threads[h].history, t) == (if g.tasks[t].thread == h then 1 else 0)
            && g.threads[h].size == |g.threads[h].history|
            && (g.threads[h].task == t ==> g.tasks[t].thread == h && g.tasks[t].commit == g.threads[h].commit)
            && (forall h' :: h' in g.list && h' in g.threads && g.threads[h].task == t == g.threads[h'].task ==> h' == h)
  {
    hide IsRun, Inv, Core, LivePrims, LiveTasks, NoDup, Count;
    RunKeepsInv(w, ss, ops, n);
    InvIsCore(w, ss[n]);
    var s := ss[n];
    ThreadTasksAreDetachable(w, s, h);
    LiveIsDetachable(w, s, t);
    CountedOnce(s.run.threads[h].history, t);
    HistorySize(w, s, h);
    forall h' | h' in s.run.list
      ensures h' in s.run.threads && (s.run.threads[h'].task == t ==> s.run.tasks[t].thread == h')
    {
      ThreadTasksAreDetachable(w, s, h');
    }
  }

  lemma HistorySize(w: World, s: State, h: Thread)
    requires Core(w, s) && h in s.run.list
    ensures h in s.run.threads && s.run.threads[h].size == |s.run.threads[h].history|
  {
    hide LiveTasks, LivePrims, RegistryOk, StopOk, OverOk, OwnOk, SameProcess, ClosedBut, RunnersOk, NoDup;
  }

  // ------------------------------------------------------------ update marks

  lemma EdgesOfCore(w: World, s: State)
    requires Core(w, s)
    ensures LiveEdges(EdgesOf(s.stop, s.over), LiveTasks(s.reg), LivePrims(s.reg))
    ensures Closed(EdgesOf(s.stop, s.over), LiveTasks(s.reg), LivePrims(s.reg), s.marks)
  {
    hide LiveTasks, LivePrims, RegistryOk, StopOk, OverOk, ExecOk, OwnOk, SameProcess, ClosedBut, LiveEdges;
    EdgesAreLive(w, LiveTasks(s.reg), LivePrims(s.reg), s.stop, s.over);
  }

  /** The parents are fields: the stopper of a task, the task a primitive overrides. */
  lemma ParentsAreFields(w: World, s: State, t: Task, p: Prim)
    requires Core(w, s) && LiveTask(s, t) && LivePrim(s, p)
    ensures t in s.stop.tasks && p in s.over.prims
    ensures var u := s.stop.tasks[t].stopper; Parent(EdgesOf(s.stop, s.over), TaskNode(t)) == if u == null then Root else PrimNode(u)
    ensures var u := s.over.prims[p]; Parent(EdgesOf(s.stop, s.over), PrimNode(p)) == if u == null then Root else TaskNode(u)
  {
    hide Core, LiveTasks, LivePrims;
    StatusOfLive(w, s, t);
    OverriddenOfCore(w, s, p);
  }

  /** In every reachable state the stopper of a marked task is marked, and so is
    * the task a marked primitive overrides. */
  lemma MarkedParents(w: World, ss: seq<State>, ops: seq<Op>, n: nat, t: Task, p: Prim)
    requires IsRun(w, ss, ops) && Inv(w, ss[0]) && n < |ss| && LiveTask(ss[n], t) && LivePrim(ss[n], p)
    ensures t in ss[n].stop.tasks && p in ss[n].over.prims
    ensures t in ss[n].marks.tasks && ss[n].stop.tasks[t].stopper != null ==> ss[n].stop.tasks[t].stopper in ss[n].marks.prims
    ensures p in ss[n].marks.prims && ss[n].over.prims[p] != null ==> ss[n].over.prims[p] in ss[n].marks.tasks
  {
    hide IsRun, Inv, Core, LiveEdges, EdgesOf;
    RunKeepsInv(w, ss, ops, n);
    InvIsCore(w, ss[n]);
    EdgesOfCore(w, ss[n]);
    ParentsAreFields(w, ss[n], t, p);
  }

  /** In every reachable state all ancestors of a marked registered object are
    * marked, also where the parent edges form a deadlock cycle. */
  lemma AncestorsAreMarked(w: World, ss: seq<State>, ops: seq<Op>, n: nat, x: Node, k: nat)
    requires IsRun(w, ss, ops) && Inv(w, ss[0]) && n < |ss|
    requires Live(LiveTasks(ss[n].reg), LivePrims(ss[n].reg), x) && Marked(ss[n].marks, x)
    ensures Marked(ss[n].marks, Up(EdgesOf(ss[n].stop, ss[n].over), x, k))
  {
    hide IsRun, Inv, Core, LivePrims, LiveTasks, LiveEdges, ClosedBut;
    RunKeepsInv(w, ss, ops, n);
    InvIsCore(w, ss[n]);
    EdgesOfCore(w, ss[n]);
    ClosedAncestors(EdgesOf(ss[n].stop, ss[n].over), LiveTasks(ss[n].reg), LivePrims(ss[n].reg), ss[n].marks, x, k);
  }

  /** Where the propagation of a step starts, in the graph it produced. */
  function Start(s: State, m: Micro): Node {
    match m
    case Stop(p, _) => PrimNode(p)
    case Resume(t) => if t in s.stop.tasks && s.stop.tasks[t].stopper != null then PrimNode(s.stop.tasks[t].stopper) else Root
    case Link(_, t) => TaskNode(t)
    case Unlink(p) => if p in s.over.prims && s.over.prims[p] != null then TaskNode(s.over.prims[p]) else Root
    case _ => Root
  }

  /** Stopping, resuming, overriding and un-overriding mark exactly the start and
    * all its ancestors, besides what was marked. */
  lemma StepMarksAncestors(w: World, s: State, m: Micro, a: Node)
    requires Core(w, s) && Ok(w, s, m) && (m.Stop? || m.Resume? || m.Link? || m.Unlink?)
    ensures var s' := Apply(s, m);
            Marked(s'.marks, a) <==> Marked(s.marks, a) || IsAncestor(EdgesOf(s'.stop, s'.over), Start(s, m), a)
  {
    hide Core, LiveTasks, LivePrims, Ok, Apply, IsAncestor, ClosedBut, LiveEdges, Marked;
    var s' := Apply(s, m);
    var e' := EdgesOf(s'.stop, s'.over);
    StepKeepsCore(w, s, m);
    EdgesOfCore(w, s');
    StepIsWalk(w, s, m);
    EdgesOfCore(w, s);
    StartOfStep(w, s, m);
    if Start(s, m) == Root {
      RootAncestors(e', a);
      RootMarked(s.marks);
    } else {
      WalkIsFullAncestorWalk(e', LiveTasks(s.reg), LivePrims(s.reg), s.marks, Start(s, m), a);
    }
  }

  /** Where the propagation starts: the stopping and the former stopper primitive,
    * the overridden and the formerly overridden task are marked afterwards. */
  lemma StartIsMarked(w: World, s: State, m: Micro)
    requires Core(w, s) && Ok(w, s, m)
    ensures m.Stop? ==> m.p in Apply(s, m).marks.prims
    ensures m.Resume? && m.t in s.stop.tasks && s.stop.tasks[m.t].stopper != null ==> s.stop.tasks[m.t].stopper in Apply(s, m).marks.prims
    ensures m.Link? ==> m.t in Apply(s, m).marks.tasks
    ensures m.Unlink? && m.p in s.over.prims && s.over.prims[m.p] != null ==> s.over.prims[m.p] in Apply(s, m).marks.tasks
  {
    if m.Stop? || m.Resume? || m.Link? || m.Unlink? {
      hide Core, LiveTasks, LivePrims, Ok, Apply, IsAncestor, EdgesOf;
      StepMarksAncestors(w, s, m, Start(s, m));
      OwnAncestor(EdgesOf(Apply(s, m).stop, Apply(s, m).over), Start(s, m));
    }
  }

  lemma OwnAncestor(e: Edges, n: Node)
    ensures IsAncestor(e, n, n)
  {
    assert Up(e, n, 0) == n;
  }

  lemma RootAncestors(e: Edges, a: Node)
    ensures IsAncestor(e, Root, a) ==> a == Root
  {
    if IsAncestor(e, Root, a) {
      var k: nat :| Up(e, Root, k) == a;
      RootUp(e, k);
    }
  }

  lemma {:induction false} RootUp(e: Edges, k: nat)
    ensures Up(e, Root, k) == Root
    decreases k
  {
    if k > 0 {
      RootUp(e, k - 1);
    }
  }

  lemma RootMarked(m: Marks)
    ensures Marked(m, Root)
  {
  }

  lemma StepIsWalk(w: World, s: State, m: Micro)
    requires m.Stop? || m.Resume? || m.Link? || m.Unlink?
    ensures var s' := Apply(s, m); s'.reg == s.reg && s'.marks == Walk(EdgesOf(s'.stop, s'.over), s.marks, Start(s, m))
  {
    hide EdgesOf, StopTask, Model.ResumeTask, LinkOverride, UnlinkOverride;
  }

  lemma StartOfStep(w: World, s: State, m: Micro)
    requires Core(w, s) && Ok(w, s, m) && (m.Stop? || m.Resume? || m.Link? || m.Unlink?)
    ensures var s' := Apply(s, m);
            && Live(LiveTasks(s.reg), LivePrims(s.reg), Start(s, m))
            && ClosedBut(EdgesOf(s'.stop, s'.over), LiveTasks(s.reg), LivePrims(s.reg), s.marks, Start(s, m))
  {
    hide LiveTasks, LivePrims, RegistryOk, ExecOk, OwnOk, SameProcess, StopOk, OverOk, Remove, Walk;
    StoppersAreLive(w, LiveTasks(s.reg), LivePrims(s.reg), s.stop);
    OverriddenAreLive(w, LiveTasks(s.reg), LivePrims(s.reg), s.over);
  }
}
