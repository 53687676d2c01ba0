/** The two global totals of the ownership counters (src/sched/sched.c:237-287):
  * which calls keep them in agreement. */
module Totals {
  import opened Lists
  import opened Objects
  import opened Marking
  import opened Model
  import opened Invariant
  import opened Operations
  import opened Plans
  import opened Calls
  import opened Runs
  import opened Holding
  import opened Witnesses

  ghost function PrimTotal(m: map<Prim, int>, ps: set<Prim>): int
    requires ps <= m.Keys
  {
    if ps == {} then 0 else var p :| p in ps; m[p] + PrimTotal(m, ps - {p})
  }

  ghost function TaskTotal(m: map<Task, int>, ts: set<Task>): int
    requires ts <= m.Keys
  {
    if ts == {} then 0 else var t :| t in ts; m[t] + TaskTotal(m, ts - {t})
  }

  /** The units of the matrix in the rows of `ps`. */
  function InRows(h: Matrix, ps: set<Prim>): nat {
    if h == [] then 0 else InRows(h[..|h| - 1], ps) + (if h[|h| - 1].p != null && h[|h| - 1].p in ps then 1 else 0)
  }

  function InColumns(h: Matrix, ts: set<Task>): nat {
    if h == [] then 0 else InColumns(h[..|h| - 1], ts) + (if h[|h| - 1].t != null && h[|h| - 1].t in ts then 1 else 0)
  }

  lemma {:induction false} RowsSplit(h: Matrix, ps: set<Prim>, p: Prim)
    requires p in ps
    ensures InRows(h, ps) == Row(h, p) + InRows(h, ps - {p}) && InRows(h, {}) == 0
  {
    if h != [] {
      RowsSplit(h[..|h| - 1], ps, p);
    }
  }

  lemma {:induction false} ColumnsSplit(h: Matrix, ts: set<Task>, t: Task)
    requires t in ts
    ensures InColumns(h, ts) == Column(h, t) + InColumns(h, ts - {t}) && InColumns(h, {}) == 0
  {
    if h != [] {
      ColumnsSplit(h[..|h| - 1], ts, t);
    }
  }

  lemma {:induction false} NoRows(h: Matrix)
    ensures InRows(h, {}) == 0 && InColumns(h, {}) == 0
  {
    if h != [] {
      NoRows(h[..|h| - 1]);
    }
  }

  lemma {:induction false} PrimTotalIsInRows(m: map<Prim, int>, h: Matrix, ps: set<Prim>)
    requires ps <= m.Keys && forall p :: p in ps ==> m[p] == Row(h, p)
    ensures PrimTotal(m, ps) == InRows(h, ps)
    decreases |ps|
  {
    NoRows(h);
    forall p | p in ps
      ensures m[p] + PrimTotal(m, ps - {p}) == InRows(h, ps)
    {
      RowsSplit(h, ps, p);
      PrimTotalIsInRows(m, h, ps - {p});
    }
  }

  lemma {:induction false} TaskTotalIsInColumns(m: map<Task, int>, h: Matrix, ts: set<Task>)
    requires ts <= m.Keys && forall t :: t in ts ==> m[t] == Column(h, t)
    ensures TaskTotal(m, ts) == InColumns(h, ts)
    decreases |ts|
  {
    NoRows(h);
    forall t | t in ts
      ensures m[t] + TaskTotal(m, ts - {t}) == InColumns(h, ts)
    {
      ColumnsSplit(h, ts, t);
      TaskTotalIsInColumns(m, h, ts - {t});
    }
  }

  /** The units held of an unregistered primitive, and by an unregistered task. */
  function Orphans(h: Matrix): (int, int) {
    if h == [] then (0, 0)
    else
      var (a, b) := Orphans(h[..|h| - 1]);
      (a + (if h[|h| - 1].p == null then 1 else 0), b + (if h[|h| - 1].t == null then 1 else 0))
  }

  lemma {:induction false} RowsAndOrphans(h: Matrix, lt: set<Task>, lp: set<Prim>)
    requires forall u :: u in h ==> (u.p != null ==> u.p in lp) && (u.t != null ==> u.t in lt)
    ensures InRows(h, lp) + Orphans(h).0 == |h| == InColumns(h, lt) + Orphans(h).1
  {
    if h != [] {
      assert h == h[..|h| - 1] + [h[|h| - 1]];
      RowsAndOrphans(h[..|h| - 1], lt, lp);
    }
  }

  /** The two global totals differ only by holdings that unregistered objects
    * left behind. */
  lemma TotalsDiffer(w: World, ss: seq<State>, hs: seq<Matrix>, ops: seq<Op>, n: nat)
    requires MatchedRun(w, ss, hs, ops) && n < |ss|
    ensures LivePrims(ss[n].reg) <= ss[n].own.prims.Keys && LiveTasks(ss[n].reg) <= ss[n].own.tasks.Keys
    ensures PrimTotal(ss[n].own.prims, LivePrims(ss[n].reg)) + Orphans(hs[n]).0
         == TaskTotal(ss[n].own.tasks, LiveTasks(ss[n].reg)) + Orphans(hs[n]).1
  {
    RunMatches(w, ss, hs, ops, n);
    hide MatchedRun, Inv, LiveTasks, LivePrims;
    PrimTotalIsInRows(ss[n].own.prims, hs[n], LivePrims(ss[n].reg));
    TaskTotalIsInColumns(ss[n].own.tasks, hs[n], LiveTasks(ss[n].reg));
    RowsAndOrphans(hs[n], LiveTasks(ss[n].reg), LivePrims(ss[n].reg));
  }

  // --------------------------------------------------------- one call

  /** The owning counts of the registered primitives and the owned counts of the
    * registered tasks have the same total. */
  ghost predicate Agree(s: State) {
    && LivePrims(s.reg) <= s.own.prims.Keys && LiveTasks(s.reg) <= s.own.tasks.Keys
    && PrimTotal(s.own.prims, LivePrims(s.reg)) == TaskTotal(s.own.tasks, LiveTasks(s.reg))
  }

  lemma AgreeIffOrphans(s: State, h: Matrix)
    requires Matches(s, h)
    ensures LivePrims(s.reg) <= s.own.prims.Keys && LiveTasks(s.reg) <= s.own.tasks.Keys
    ensures Agree(s) <==> Orphans(h).0 == Orphans(h).1
  {
    hide LiveTasks, LivePrims;
    PrimTotalIsInRows(s.own.prims, h, LivePrims(s.reg));
    TaskTotalIsInColumns(s.own.tasks, h, LiveTasks(s.reg));
    RowsAndOrphans(h, LiveTasks(s.reg), LivePrims(s.reg));
  }

  ghost function PrimsIn(g: Registry, c: Process): set<Prim> {
    set p | p in LivePrims(g) && g.prims[p] == c
  }

  ghost function TasksIn(g: Registry, c: Process): set<Task> {
    set t | t in LiveTasks(g) && g.tasks[t] == c
  }

  /** What is unregistered owns nothing: the guard of the two error returns; and
    * the totals of a process that is unregistered agree. */
  ghost predicate CutsNothing(s: State, op: Op) {
    match op
    case UnregisterTask(_, _) => UnregisterCode(s, op) == 0
    case UnregisterPrim(_) => UnregisterCode(s, op) == 0
    case UnregisterProcess(c) =>
      && PrimsIn(s.reg, c) <= s.own.prims.Keys && TasksIn(s.reg, c) <= s.own.tasks.Keys
      && PrimTotal(s.own.prims, PrimsIn(s.reg, c)) == TaskTotal(s.own.tasks, TasksIn(s.reg, c))
    case _ => true
  }

  lemma {:induction false} KeepOrphans(h: Matrix, lt: set<Task>, lp: set<Prim>, lt': set<Task>, lp': set<Prim>)
    requires forall u :: u in h ==> (u.p != null ==> u.p in lp) && (u.t != null ==> u.t in lt)
    ensures Orphans(Keep(h, lt', lp')) == (Orphans(h).0 + InRows(h, lp - lp'), Orphans(h).1 + InColumns(h, lt - lt'))
  {
    if h != [] {
      var n := |h| - 1;
      assert h == h[..n] + [h[n]];
      KeepOrphans(h[..n], lt, lp, lt', lp');
      assert Keep(h, lt', lp')[..n] == Keep(h[..n], lt', lp');
    }
  }

  lemma {:induction false} LessOrphans(h: Matrix, p: Prim, t: Task)
    requires Unit(p, t) in h
    ensures Orphans(Less(h, Unit(p, t))) == Orphans(h)
  {
    var n := |h| - 1;
    if h[n] != Unit(p, t) {
      assert h == h[..n] + [h[n]];
      LessOrphans(h[..n], p, t);
      var l := Less(h[..n], Unit(p, t));
      assert (l + [h[n]])[..|l|] == l;
    }
  }

  predicate Drops(m: Micro) {
    m.DropTask? || m.DropPrim? || m.DropProcess?
  }

  lemma StepKeepsOrphans(s: State, h: Matrix, m: Micro)
    requires !Drops(m) && (m.Release? ==> Unit(m.p, m.t) in h)
    ensures Orphans(HeldStep(s, h, m)) == Orphans(h)
  {
    hide Keep, Less;
    match m
    case Take(p, t) => assert (h + [Unit(p, t)])[..|h|] == h;
    case Release(p, t) => LessOrphans(h, p, t);
    case _ =>
  }

  /** What unregistering takes out of the matrix: one side of the units of what
    * is unregistered. */
  lemma DropOrphans(w: World, s: State, h: Matrix, m: Micro)
    requires RegistryOk(w, s.reg) && Ok(w, s, m) && Matches(s, h) && Drops(m)
    ensures m.DropTask? ==> Orphans(HeldStep(s, h, m)) == (Orphans(h).0, Orphans(h).1 + Column(h, m.t))
    ensures m.DropPrim? ==> Orphans(HeldStep(s, h, m)) == (Orphans(h).0 + Row(h, m.p), Orphans(h).1)
    ensures m.DropProcess? ==>
              Orphans(HeldStep(s, h, m)) == (Orphans(h).0 + InRows(h, PrimsIn(s.reg, m.c)), Orphans(h).1 + InColumns(h, TasksIn(s.reg, m.c)))
  {
    hide RegistryOk, Apply, Keep, LiveTasks, LivePrims, Orphans;
    ListedAreKnown(w, s.reg);
    LiveAfter(w, s, m);
    var lt, lp := LiveTasks(s.reg), LivePrims(s.reg);
    var lt', lp' := LiveTasksAfter(s.reg, m), LivePrimsAfter(s.reg, m);
    KeepOrphans(h, lt, lp, lt', lp');
    NoRows(h);
    match m
    case DropTask(t) => ColumnsSplit(h, {t}, t); assert lt - lt' == {t} && lp - lp' == {} && {t} - {t} == {};
    case DropPrim(p) => RowsSplit(h, {p}, p); assert lp - lp' == {p} && lt - lt' == {} && {p} - {p} == {};
    case DropProcess(c) => assert lt - lt' == TasksIn(s.reg, c) && lp - lp' == PrimsIn(s.reg, c);
  }

  lemma {:induction false} StepsKeepOrphans(w: World, s: State, h: Matrix, ms: seq<Micro>)
    requires Core(w, s) && AllOk(w, s, ms) && Matches(s, h) && forall m :: m in ms ==> !Drops(m)
    requires forall i :: 0 < i < |ms| ==> !ms[i].Release?
    requires ms != [] && ms[0].Release? ==> Unit(ms[0].p, ms[0].t) in h
    ensures Orphans(HeldAll(s, h, ms)) == Orphans(h)
  {
    hide Core, Ok, Apply, HeldStep, Balanced, Drops, Orphans;
    if ms != [] {
      var n := |ms| - 1;
      assert ms == ms[..n] + [ms[n]];
      StepsKeepOrphans(w, s, h, ms[..n]);
      assert n == 0 ==> HeldAll(s, h, ms[..n]) == h;
      StepKeepsOrphans(ApplyAll(s, ms[..n]), HeldAll(s, h, ms[..n]), ms[n]);
    }
  }

  // ----------------------------------------- the plans that unregister something

  /** Steps that touch neither counters nor registrations. */
  predicate Plain(m: Micro) {
    m.Resume? || m.Unlink? || m.Detach? || m.Assign?
  }

  lemma {:induction false} PlainSteps(s: State, h: Matrix, ms: seq<Micro>)
    requires forall m :: m in ms ==> Plain(m)
    ensures HeldAll(s, h, ms) == h
    ensures ApplyAll(s, ms).own == s.own && ApplyAll(s, ms).reg == s.reg
  {
    if ms != [] {
      var n := |ms| - 1;
      assert ms == ms[..n] + [ms[n]];
      PlainSteps(s, h, ms[..n]);
      PlainStep(ApplyAll(s, ms[..n]), h, ms[n]);
    }
  }

  lemma PlainStep(s: State, h: Matrix, m: Micro)
    requires Plain(m)
    ensures HeldStep(s, h, m) == h && Apply(s, m).own == s.own && Apply(s, m).reg == s.reg
  {
  }

  /** The plan of an unregistration: plain steps, one drop, plain steps. */
  ghost predicate DropPlan(s: State, op: Op, a: seq<Micro>, m: Micro, b: seq<Micro>) {
    && Plan(s, op) == a + [m] + b
    && (forall x :: x in a ==> Plain(x)) && (forall x :: x in b ==> Plain(x))
    && match op
       case UnregisterTask(h, _) => Current(s, h) != null && m == Micro.DropTask(Current(s, h))
       case UnregisterPrim(p) => m == Micro.DropPrim(p)
       case UnregisterProcess(c) => m == Micro.DropProcess(c)
       case _ => false
  }

  lemma TaskDropPlan(s: State, th: Thread, next: Task?) returns (a: seq<Micro>, m: Micro, b: seq<Micro>)
    requires Current(s, th) != null
    ensures DropPlan(s, UnregisterTask(th, next), a, m, b)
  {
    var t := Current(s, th);
    hide Current;
    var wake := if t in s.stop.tasks && s.stop.tasks[t].status == Stopped then [Micro.Resume(t)] else [];
    var unlinks := Unlinks(if t in s.over.tasks then s.over.tasks[t].overriders else []);
    assert forall x :: x in unlinks ==> Plain(x);
    hide Unlinks;
    a, m, b := wake + unlinks + [Micro.Detach(t)], Micro.DropTask(t), [Micro.Assign(th, next)];
    assert wake + unlinks + [Micro.Detach(t), m, b[0]] == a + [m] + b;
  }

  lemma PrimDropPlan(s: State, p: Prim) returns (a: seq<Micro>, m: Micro, b: seq<Micro>)
    ensures DropPlan(s, UnregisterPrim(p), a, m, b)
  {
    var ts := Resumes(Waiting(s, p));
    assert forall x :: x in ts ==> Plain(x);
    hide Resumes, Waiting;
    a, m, b := ts + [Micro.Unlink(p)], Micro.DropPrim(p), [];
    assert ts + [Micro.Unlink(p), m] == a + [m] + b;
  }

  lemma ProcessDropPlan(s: State, c: Process) returns (a: seq<Micro>, m: Micro, b: seq<Micro>)
    ensures DropPlan(s, UnregisterProcess(c), a, m, b)
  {
    a, m, b := [], Micro.DropProcess(c), [];
  }

  lemma DropPlanOf(w: World, s: State, op: Op) returns (a: seq<Micro>, m: Micro, b: seq<Micro>)
    requires Legal(w, s, op) && (op.UnregisterTask? || op.UnregisterPrim? || op.UnregisterProcess?)
    ensures DropPlan(s, op, a, m, b)
  {
    hide DropPlan, Legal;
    match op
    case UnregisterTask(th, next) => RunnerExists(w, s, th, next); a, m, b := TaskDropPlan(s, th, next);
    case UnregisterPrim(p) => a, m, b := PrimDropPlan(s, p);
    case UnregisterProcess(c) => a, m, b := ProcessDropPlan(s, c);
  }

  lemma RunnerExists(w: World, s: State, th: Thread, next: Task?)
    requires Legal(w, s, UnregisterTask(th, next))
    ensures Current(s, th) != null
  {
    hide LiveTasks;
  }

  /** The state in which a plan drops something has the same counters and
    * registrations as its start, and the matrix afterwards is that of the drop. */
  lemma DropHappens(w: World, s: State, h: Matrix, op: Op, a: seq<Micro>, m: Micro, b: seq<Micro>)
    requires Core(w, s) && Legal(w, s, op) && Matches(s, h) && DropPlan(s, op, a, m, b)
    ensures var s1 := ApplyAll(s, a);
            && Core(w, s1) && Ok(w, s1, m) && s1.own == s.own && s1.reg == s.reg && Matches(s1, h)
            && HeldAfter(s, h, op) == HeldStep(s1, h, m)
            && Step(s, op).reg == Apply(s1, m).reg
  {
    hide Core, Legal, Plan, Ok, Apply, AllOk, HeldStep, Balanced, ApplyAll, HeldAll;
    PlanOk(w, s, op);
    var s1 := ApplyAll(s, a);
    AllOkSplit(w, s, a + [m], b);
    AllOkSplit(w, s, a, [m]);
    AllOkKeepsCore(w, s, a);
    OneStep(w, s1, m);
    PlainSteps(s, h, a);
    ConcatHeld(s, h, a + [m], b);
    ConcatHeld(s, h, a, [m]);
    OneHeld(s1, h, m);
    PlainSteps(ApplyAll(s, a + [m]), HeldStep(s1, h, m), b);
  }

  lemma OneHeld(s: State, h: Matrix, m: Micro)
    ensures HeldAll(s, h, [m]) == HeldStep(s, h, m)
  {
    hide HeldStep, Apply;
    assert [m] == [] + [m];
    LastStep(s, h, [], m);
  }

  lemma CutBalance(w: World, s: State, h: Matrix, op: Op)
    requires Core(w, s) && Legal(w, s, op) && Matches(s, h) && (op.UnregisterTask? || op.UnregisterPrim? || op.UnregisterProcess?)
    requires Orphans(h).0 == Orphans(h).1
    ensures Orphans(HeldAfter(s, h, op)).0 == Orphans(HeldAfter(s, h, op)).1 <==> CutsNothing(s, op)
  {
    hide Core, Legal, Plan, Ok, Apply, AllOk, HeldStep, LiveTasks, LivePrims, Orphans, ApplyAll, HeldAfter;
    var a, m, b := DropPlanOf(w, s, op);
    DropHappens(w, s, h, op, a, m, b);
    var s1 := ApplyAll(s, a);
    CoreParts(w, s1);
    DropOrphans(w, s1, h, m);
    match op
    case UnregisterTask(th, _) => DroppedCounters(w, s, h, op);
    case UnregisterPrim(p) => DroppedCounters(w, s, h, op);
    case UnregisterProcess(c) =>
      PrimTotalIsInRows(s.own.prims, h, PrimsIn(s.reg, c));
      TaskTotalIsInColumns(s.own.tasks, h, TasksIn(s.reg, c));
  }

  lemma DroppedCounters(w: World, s: State, h: Matrix, op: Op)
    requires Legal(w, s, op) && Matches(s, h)
    ensures op.UnregisterTask? && Current(s, op.h) != null ==> Owned(s, Current(s, op.h)) == Column(h, Current(s, op.h))
    ensures op.UnregisterPrim? ==> Owners(s, op.p) == Row(h, op.p)
  {
    hide LiveTasks, LivePrims;
  }

  lemma OtherPlans(s: State, op: Op)
    requires !op.UnregisterTask? && !op.UnregisterPrim? && !op.UnregisterProcess?
    ensures forall m :: m in Plan(s, op) ==> !Drops(m)
  {
    hide Owners, Overridden, ReleaseError, Waiting, ActiveOf, Current;
  }

  /** After any matched call from totals that agree, they agree if and only if
    * nothing was unregistered that still owns or is owned: the return value of
    * the two unregistration functions is 0. */
  lemma AgreementKeptIff(w: World, s: State, h: Matrix, op: Op)
    requires Core(w, s) && Legal(w, s, op) && Matches(s, h) && Matched(s, h, op) && Agree(s)
    ensures Agree(Step(s, op)) <==> CutsNothing(s, op)
  {
    hide Core, Legal, Matches, Matched, AllOk, Plan, Agree, Orphans, Step, HeldAfter, CutsNothing;
    AgreeIffOrphans(s, h);
    CallKeepsMatches(w, s, h, op);
    AgreeIffOrphans(Step(s, op), HeldAfter(s, h, op));
    if op.UnregisterTask? || op.UnregisterPrim? || op.UnregisterProcess? {
      CutBalance(w, s, h, op);
    } else {
      PlanOk(w, s, op);
      OtherPlans(s, op);
      ReleaseComesFirst(s, h, op);
      StepsKeepOrphans(w, s, h, Plan(s, op));
      OtherCalls(s, h, op);
    }
  }

  lemma OtherCalls(s: State, h: Matrix, op: Op)
    requires !op.UnregisterTask? && !op.UnregisterPrim? && !op.UnregisterProcess?
    ensures CutsNothing(s, op) && HeldAfter(s, h, op) == HeldAll(s, h, Plan(s, op))
  {
  }

  // --------------------------------------------------------------- runs

  /** No holding has lost one side only, and both sides are in one process. */
  ghost predicate Whole(s: State, h: Matrix) {
    forall u :: u in h ==>
      && (u.p == null <==> u.t == null)
      && (u.p != null ==> u.p in s.reg.prims && u.t in s.reg.tasks && s.reg.prims[u.p] == s.reg.tasks[u.t])
  }

  lemma {:induction false} WholeBalances(s: State, h: Matrix)
    requires Whole(s, h)
    ensures Orphans(h).0 == Orphans(h).1
  {
    if h != [] {
      var n := |h| - 1;
      assert h == h[..n] + [h[n]];
      WholeBalances(s, h[..n]);
    }
  }

  /** A unit of the matrix after all but the given objects were unregistered. */
  lemma KeptUnit(h: Matrix, lt: set<Task>, lp: set<Prim>, u: Unit) returns (v: Unit)
    requires u in Keep(h, lt, lp)
    ensures v in h && u == Unit(if v.p != null && v.p in lp then v.p else null, if v.t != null && v.t in lt then v.t else null)
  {
    var i :| 0 <= i < |Keep(h, lt, lp)| && Keep(h, lt, lp)[i] == u;
    v := h[i];
  }

  lemma KeepWhole(g: Registry, h: Matrix, lt: set<Task>, lp: set<Prim>, lt': set<Task>, lp': set<Prim>, s: State)
    requires s.reg.tasks == g.tasks && s.reg.prims == g.prims
    requires forall u :: u in h ==>
                && (u.p == null <==> u.t == null)
                && (u.p != null ==> u.p in g.prims && u.t in g.tasks && g.prims[u.p] == g.tasks[u.t] && (u.p in lp' <==> u.t in lt'))
    ensures Whole(s, Keep(h, lt', lp'))
  {
    hide Keep;
    forall u | u in Keep(h, lt', lp')
      ensures (u.p == null <==> u.t == null) && (u.p != null ==> u.p in g.prims && u.t in g.tasks && g.prims[u.p] == g.tasks[u.t])
    {
      var v := KeptUnit(h, lt', lp', u);
    }
  }

  lemma DropKeepsWhole(w: World, s: State, h: Matrix, m: Micro)
    requires RegistryOk(w, s.reg) && Ok(w, s, m) && Matches(s, h) && Whole(s, h) && Drops(m)
    requires m.DropTask? ==> Column(h, m.t) == 0
    requires m.DropPrim? ==> Row(h, m.p) == 0
    ensures Whole(Apply(s, m), HeldStep(s, h, m))
  {
    hide RegistryOk, Keep, LiveTasks, LivePrims, Remove, RemoveAll, ActiveOf, Ok;
    ListedAreKnown(w, s.reg);
    LiveAfter(w, s, m);
    if m.DropTask? {
      AbsentTask(h, m.t);
    } else if m.DropPrim? {
      AbsentPrim(h, m.p);
    }
    DropKeepsHomes(s, m);
    hide Apply;
    KeepWhole(s.reg, h, LiveTasks(s.reg), LivePrims(s.reg), LiveTasksAfter(s.reg, m), LivePrimsAfter(s.reg, m), Apply(s, m));
  }

  lemma DropKeepsHomes(s: State, m: Micro)
    requires Drops(m)
    ensures Apply(s, m).reg.tasks == s.reg.tasks && Apply(s, m).reg.prims == s.reg.prims
  {
    hide Remove, RemoveAll, ActiveOf;
  }

  lemma StepKeepsWhole(w: World, s: State, h: Matrix, m: Micro)
    requires Ok(w, s, m) && Matches(s, h) && Whole(s, h) && !Drops(m)
    ensures Whole(Apply(s, m), HeldStep(s, h, m))
  {
    hide LiveTasks, LivePrims, Walk, Remove, RemoveAll, ActiveOf, Keep, Less, DetachTask, AttachTask, AssignTask, StopTask, Model.ResumeTask,
         LinkOverride, UnlinkOverride, ReleaseCounters, EdgesOf;
    if m.Release? {
      LessFacts(h, Unit(m.p, m.t));
    }
  }

  lemma {:induction false} StepsKeepWhole(w: World, s: State, h: Matrix, ms: seq<Micro>)
    requires Core(w, s) && AllOk(w, s, ms) && Matches(s, h) && Whole(s, h) && forall m :: m in ms ==> !Drops(m)
    requires forall i :: 0 < i < |ms| ==> !ms[i].Release?
    requires ms != [] && ms[0].Release? ==> Unit(ms[0].p, ms[0].t) in h
    ensures Whole(ApplyAll(s, ms), HeldAll(s, h, ms))
  {
    hide Core, Ok, Apply, HeldStep, Balanced, Drops, Whole;
    if ms != [] {
      var n := |ms| - 1;
      assert ms == ms[..n] + [ms[n]];
      StepsKeepWhole(w, s, h, ms[..n]);
      StepsMatch(w, s, h, ms[..n]);
      StepKeepsWhole(w, ApplyAll(s, ms[..n]), HeldAll(s, h, ms[..n]), ms[n]);
    }
  }

  lemma SameHomes(s: State, s': State, h: Matrix)
    requires s'.reg == s.reg
    ensures Whole(s', h) <==> Whole(s, h)
  {
  }

  lemma CutKeepsWhole(w: World, s: State, h: Matrix, op: Op)
    requires Core(w, s) && Legal(w, s, op) && Matches(s, h) && (op.UnregisterTask? || op.UnregisterPrim? || op.UnregisterProcess?)
    requires Whole(s, h) && UnregisterCode(s, op) == 0
    ensures Whole(Step(s, op), HeldAfter(s, h, op))
  {
    hide Core, Legal, Plan, Ok, Apply, AllOk, HeldStep, LiveTasks, LivePrims, ApplyAll, HeldAfter, Whole, Matches;
    var a, m, b := DropPlanOf(w, s, op);
    DropHappens(w, s, h, op, a, m, b);
    var s1 := ApplyAll(s, a);
    CoreParts(w, s1);
    DroppedCounters(w, s, h, op);
    SameHomes(s, s1, h);
    DropKeepsWhole(w, s1, h, m);
    SameHomes(Apply(s1, m), Step(s, op), HeldAfter(s, h, op));
  }

  lemma CallKeepsWhole(w: World, s: State, h: Matrix, op: Op)
    requires Core(w, s) && Legal(w, s, op) && Matches(s, h) && Matched(s, h, op) && Whole(s, h) && UnregisterCode(s, op) == 0
    ensures Whole(Step(s, op), HeldAfter(s, h, op))
  {
    hide Core, Legal, Matches, Matched, AllOk, Plan, Whole, UnregisterCode;
    if op.UnregisterTask? || op.UnregisterPrim? || op.UnregisterProcess? {
      CutKeepsWhole(w, s, h, op);
    } else {
      PlanOk(w, s, op);
      OtherPlans(s, op);
      ReleaseComesFirst(s, h, op);
      StepsKeepWhole(w, s, h, Plan(s, op));
    }
  }

  /** The two totals agree in every state of every matched run in which each
    * unregistration of a task or a primitive returns 0. */
  lemma {:induction false} TotalsAgree(w: World, ss: seq<State>, hs: seq<Matrix>, ops: seq<Op>, n: nat)
    requires MatchedRun(w, ss, hs, ops) && n < |ss| && n < |hs| && n <= |ops| && Whole(ss[0], hs[0])
    requires forall i :: 0 <= i < n ==> UnregisterCode(ss[i], ops[i]) == 0
    ensures Whole(ss[n], hs[n]) && Agree(ss[n])
    decreases n
  {
    hide Inv, Matches, Legal, Step, Matched, HeldAfter, Whole, Agree, Orphans, UnregisterCode;
    RunMatches(w, ss, hs, ops, n);
    if n > 0 {
      TotalsAgree(w, ss, hs, ops, n - 1);
      RunMatches(w, ss, hs, ops, n - 1);
      InvIsCore(w, ss[n - 1]);
      CallKeepsWhole(w, ss[n - 1], hs[n - 1], ops[n - 1]);
    }
    WholeBalances(ss[n], hs[n]);
    AgreeIffOrphans(ss[n], hs[n]);
  }

  /** A concrete failure: a running task that owns a primitive once. The totals
    * agree; unregistering the task, or the primitive, breaks that. */
  lemma OwnerBreaksAgreement(t: Task, p: Prim, c: Process, th: Thread)
    ensures var w, s := World({t}, {p}, {c}, {th}), Owner(t, p, c, th);
            && Inv(w, s) && Agree(s)
            && Legal(w, s, UnregisterTask(th, null)) && UnregisterCode(s, UnregisterTask(th, null)) == 1
            && !Agree(Step(s, UnregisterTask(th, null)))
            && Legal(w, s, UnregisterPrim(p)) && UnregisterCode(s, UnregisterPrim(p)) == 1
            && !Agree(Step(s, UnregisterPrim(p)))
  {
    hide Core, RunActiveBut, LiveTasks, LivePrims, Step, Agree, Orphans;
    var w, s := World({t}, {p}, {c}, {th}), Owner(t, p, c, th);
    OwnerInv(t, p, c, th);
    InvIsCore(w, s);
    var h := [Unit(p, t)];
    OneHolding(p, t);
    assert Matches(s, h);
    AgreeIffOrphans(s, h);
    AgreementKeptIff(w, s, h, UnregisterTask(th, null));
    AgreementKeptIff(w, s, h, UnregisterPrim(p));
  }

  lemma OneHolding(p: Prim, t: Task)
    ensures Orphans([Unit(p, t)]) == (0, 0)
    ensures Balanced({t}, {p}, Ownership(map[t := 1], map[p := 1]), [Unit(p, t)])
  {
    PushSums([], Unit(p, t));
    assert [] + [Unit(p, t)] == [Unit(p, t)] && [Unit(p, t)][..0] == [];
  }
}
