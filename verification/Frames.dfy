/** What the steps that do not concern a primitive leave of it: its place, its
  * owners, the task it overrides and the units held of it. */
module Frames {
  import opened Lists
  import opened Objects
  import opened Marking
  import opened Model
  import opened Invariant
  import opened Operations
  import opened Plans
  import opened Holding

  /** A step that neither takes, releases, registers nor unregisters `p`, a
    * primitive of process `c`. */
  predicate Aside(m: Micro, p: Prim, c: Process) {
    match m
    case Take(q, _) => q != p
    case Release(q, _) => q != p
    case Link(q, _) => q != p
    case AddPrim(_, q) => q != p
    case DropPrim(q) => q != p
    case DropProcess(c') => c' != c
    case _ => true
  }

  ghost predicate Homed(s: State, p: Prim, c: Process) {
    LivePrim(s, p) && p in s.reg.prims && s.reg.prims[p] == c && p in s.own.prims && p in s.over.prims
  }

  /** The unit of `p` taken by `o`, if `o` is still registered. */
  ghost function UnitOf(s: State, p: Prim, o: Task?): Unit {
    Unit(p, if LiveTask(s, o) then o else null)
  }

  lemma HomeOf(w: World, s: State, p: Prim)
    requires Core(w, s) && LivePrim(s, p)
    ensures p in s.reg.prims && s.reg.prims[p] != null && Homed(s, p, s.reg.prims[p])
  {
    hide StopOk, ExecOk, ClosedBut, SameProcess;
  }

  lemma OwnersStay(s: State, m: Micro, p: Prim, c: Process)
    requires Homed(s, p, c) && Aside(m, p, c)
    ensures var s' := Apply(s, m); p in s'.own.prims && p in s'.over.prims && Owners(s', p) == Owners(s, p)
    ensures p in Apply(s, m).reg.prims && Apply(s, m).reg.prims[p] == c
  {
    hide LivePrims, Walk, Remove, RemoveAll, ActiveOf, DetachTask, AttachTask, StopTask, Model.ResumeTask, EdgesOf;
  }

  lemma HomeStays(w: World, s: State, m: Micro, p: Prim, c: Process)
    requires RegistryOk(w, s.reg) && Ok(w, s, m) && Homed(s, p, c) && Aside(m, p, c)
    ensures LivePrim(Apply(s, m), p)
  {
    LiveAfter(w, s, m);
    hide RegistryOk, LiveTasks, LivePrims, Apply;
  }

  lemma AsideStep(w: World, s: State, m: Micro, p: Prim, c: Process)
    requires Core(w, s) && Ok(w, s, m) && Homed(s, p, c) && Aside(m, p, c)
    ensures Homed(Apply(s, m), p, c) && Owners(Apply(s, m), p) == Owners(s, p)
  {
    hide Core, RegistryOk, ExecOk, OwnOk, ClosedBut, LivePrims, Apply, Aside, Ok;
    CoreParts(w, s);
    HomeStays(w, s, m, p, c);
    OwnersStay(s, m, p, c);
  }

  lemma OverridesStay(s: State, m: Micro, p: Prim, c: Process)
    requires Aside(m, p, c) && p in s.over.prims && !(m.Unlink? && m.p == p)
    ensures p in Apply(s, m).over.prims && Apply(s, m).over.prims[p] == s.over.prims[p]
  {
    hide Walk, Remove, RemoveAll, ActiveOf, DetachTask, AttachTask, AssignTask, StopTask, Model.ResumeTask, EdgesOf, ReleaseCounters;
  }

  lemma OverriddenStays(w: World, s: State, m: Micro, p: Prim, c: Process)
    requires Core(w, s) && Homed(s, p, c) && Aside(m, p, c)
    ensures Overridden(Apply(s, m), p) == if m == Micro.Unlink(p) then null else Overridden(s, p)
  {
    hide Core, LivePrims, LiveTasks, Aside, Walk, EdgesOf, Remove;
    if m == Micro.Unlink(p) {
      OverriddenOfCore(w, s, p);
    } else {
      hide Apply;
      OverridesStay(s, m, p, c);
    }
  }

  lemma KeepMaps(h: Matrix, lt: set<Task>, lp: set<Prim>, u: Unit)
    requires u in h
    ensures Unit(if u.p != null && u.p in lp then u.p else null, if u.t != null && u.t in lt then u.t else null) in Keep(h, lt, lp)
  {
    var i :| 0 <= i < |h| && h[i] == u;
    assert Keep(h, lt, lp)[i] in Keep(h, lt, lp);
  }

  lemma TaskStaysGone(w: World, s: State, m: Micro, o: Task?)
    requires RegistryOk(w, s.reg) && Ok(w, s, m) && (o == null || LiveTask(s, o) || !m.AddTask?)
    ensures LiveTask(Apply(s, m), o) ==> LiveTask(s, o)
    ensures LiveTask(s, o) && !m.DropTask? && !m.DropProcess? ==> LiveTask(Apply(s, m), o)
  {
    LiveAfter(w, s, m);
    hide RegistryOk, LiveTasks, LivePrims, Apply, Ok;
  }

  lemma UnitStays(w: World, s: State, h: Matrix, m: Micro, p: Prim, c: Process, o: Task?)
    requires Core(w, s) && Ok(w, s, m) && Homed(s, p, c) && Aside(m, p, c)
    requires UnitOf(s, p, o) in h && (o == null || LiveTask(s, o) || !m.AddTask?)
    ensures UnitOf(Apply(s, m), p, o) in HeldStep(s, h, m)
  {
    hide Core, RegistryOk, ExecOk, OwnOk, ClosedBut, LiveTasks, LivePrims, Apply, Ok, Keep;
    AsideStep(w, s, m, p, c);
    CoreParts(w, s);
    TaskStaysGone(w, s, m, o);
    KeepMaps(h, LiveTasks(Apply(s, m).reg), LivePrims(Apply(s, m).reg), UnitOf(s, p, o));
    if m.Release? {
      LessFacts(h, Unit(m.p, m.t));
    }
  }

  // -------------------------------------------------------------- sequences

  /** A list of steps that leaves `p` aside, and does not register `o` anew. */
  ghost predicate AllAside(s: State, ms: seq<Micro>, p: Prim, c: Process, o: Task?) {
    && (forall m :: m in ms ==> Aside(m, p, c))
    && (forall i :: 0 <= i < |ms| && ms[i].AddTask? ==> o == null || (i == 0 && LiveTask(s, o)))
  }

  lemma AllAsideSplit(s: State, ms: seq<Micro>, p: Prim, c: Process, o: Task?)
    requires AllAside(s, ms, p, c, o) && ms != []
    ensures var n := |ms| - 1;
            && AllAside(s, ms[..n], p, c, o) && Aside(ms[n], p, c)
            && (ms[n].AddTask? ==> o == null || (ms[..n] == [] && LiveTask(s, o)))
            && ms == ms[..n] + [ms[n]]
  {
    hide Aside, LiveTask;
  }

  lemma {:induction false} AsideSteps(w: World, s: State, h: Matrix, ms: seq<Micro>, p: Prim, c: Process, o: Task?)
    requires Core(w, s) && AllOk(w, s, ms) && Homed(s, p, c) && AllAside(s, ms, p, c, o)
    ensures var s' := ApplyAll(s, ms);
            && Core(w, s') && Homed(s', p, c) && Owners(s', p) == Owners(s, p)
            && Overridden(s', p) == (if Micro.Unlink(p) in ms then null else Overridden(s, p))
            && (UnitOf(s, p, o) in h ==> UnitOf(s', p, o) in HeldAll(s, h, ms))
  {
    hide Core, Ok, Apply, Aside, AllAside, Homed, Owners, Overridden, UnitOf, HeldStep, LiveTask;
    if ms != [] {
      var n := |ms| - 1;
      AllAsideSplit(s, ms, p, c, o);
      AsideSteps(w, s, h, ms[..n], p, c, o);
      var s1, h1 := ApplyAll(s, ms[..n]), HeldAll(s, h, ms[..n]);
      assert ms[..n] == [] ==> s1 == s;
      AsideStep(w, s1, ms[n], p, c);
      OverriddenStays(w, s1, ms[n], p, c);
      StepKeepsCore(w, s1, ms[n]);
      if UnitOf(s, p, o) in h {
        UnitStays(w, s1, h1, ms[n], p, c, o);
      }
    }
  }
}
