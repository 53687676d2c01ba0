/** The matrix of holdings: which task holds which primitive how often. The two
  * ownership counters of the source are its row and column sums. */
module Holding {
  import opened Lists
  import opened Objects
  import opened Marking
  import opened Model
  import opened Invariant
  import opened Operations
  import opened Plans
  import opened Calls
  import opened Runs

  /** One unit of the matrix: a taking that was not released yet. An object that
    * was unregistered in the meantime is null. */
  datatype Unit = Unit(p: Prim?, t: Task?)

  type Matrix = seq<Unit>

  /** The sum of the row of `p`. */
  function Row(h: Matrix, p: Prim): nat {
    if h == [] then 0 else Row(h[..|h| - 1], p) + (if h[|h| - 1].p == p then 1 else 0)
  }

  /** The sum of the column of `t`. */
  function Column(h: Matrix, t: Task): nat {
    if h == [] then 0 else Column(h[..|h| - 1], t) + (if h[|h| - 1].t == t then 1 else 0)
  }

  /** The matrix less one unit `u`. */
  function Less(h: Matrix, u: Unit): Matrix {
    if h == [] then []
    else
      var n := |h| - 1;
      if h[n] == u then h[..n] else Less(h[..n], u) + [h[n]]
  }

  /** The matrix after all but the given objects were unregistered. */
  function Keep(h: Matrix, lt: set<Task>, lp: set<Prim>): Matrix {
    seq(|h|, i requires 0 <= i < |h| =>
      Unit(if h[i].p != null && h[i].p in lp then h[i].p else null, if h[i].t != null && h[i].t in lt then h[i].t else null))
  }

  /** The matrix after a step. */
  ghost function HeldStep(s: State, h: Matrix, m: Micro): Matrix {
    match m
    case Take(p, t) => h + [Unit(p, t)]
    case Release(p, t) => Less(h, Unit(p, t))
    case DropTask(_) => Keep(h, LiveTasks(Apply(s, m).reg), LivePrims(Apply(s, m).reg))
    case DropPrim(_) => Keep(h, LiveTasks(Apply(s, m).reg), LivePrims(Apply(s, m).reg))
    case DropProcess(_) => Keep(h, LiveTasks(Apply(s, m).reg), LivePrims(Apply(s, m).reg))
    case _ => h
  }

  ghost function HeldAll(s: State, h: Matrix, ms: seq<Micro>): Matrix {
    if ms == [] then h
    else HeldStep(ApplyAll(s, ms[..|ms| - 1]), HeldAll(s, h, ms[..|ms| - 1]), ms[|ms| - 1])
  }

  lemma LastStep(s: State, h: Matrix, ms: seq<Micro>, m: Micro)
    ensures ApplyAll(s, ms + [m]) == Apply(ApplyAll(s, ms), m)
    ensures HeldAll(s, h, ms + [m]) == HeldStep(ApplyAll(s, ms), HeldAll(s, h, ms), m)
  {
    hide Apply, HeldStep;
    assert (ms + [m])[..|ms|] == ms;
  }

  lemma HeldPair(s: State, h: Matrix, m: Micro, n: Micro)
    ensures HeldAll(s, h, [m, n]) == HeldStep(Apply(s, m), HeldStep(s, h, m), n)
  {
    hide Apply, HeldStep;
    assert [m] == [] + [m] && [m, n] == [m] + [n];
    LastStep(s, h, [], m);
    LastStep(s, h, [m], n);
  }

  lemma {:induction false} ConcatHeld(s: State, h: Matrix, ms: seq<Micro>, ns: seq<Micro>)
    ensures HeldAll(s, h, ms + ns) == HeldAll(ApplyAll(s, ms), HeldAll(s, h, ms), ns)
  {
    hide Apply, HeldStep;
    if ns == [] {
      assert ms + ns == ms;
    } else {
      var n := |ns| - 1;
      ConcatHeld(s, h, ms, ns[..n]);
      ApplyAllConcat(s, ms, ns[..n]);
      assert (ms + ns)[..|ms + ns| - 1] == ms + ns[..n];
    }
  }

  /** Every unit names registered objects, and the counters of the registered
    * objects are the row and column sums. */
  ghost predicate Balanced(lt: set<Task>, lp: set<Prim>, o: Ownership, h: Matrix) {
    && (forall u :: u in h ==> (u.p != null ==> u.p in lp) && (u.t != null ==> u.t in lt))
    && (forall p :: p in lp ==> p in o.prims && o.prims[p] == Row(h, p))
    && (forall t :: t in lt ==> t in o.tasks && o.tasks[t] == Column(h, t))
  }

  ghost predicate Matches(s: State, h: Matrix) {
    Balanced(LiveTasks(s.reg), LivePrims(s.reg), s.own, h)
  }

  // ---------------------------------------------------------- matrix algebra

  lemma {:induction false} LessFacts(h: Matrix, u: Unit)
    ensures forall v :: v in Less(h, u) ==> v in h
    ensures forall v :: v in h && v != u ==> v in Less(h, u)
    ensures u in h ==> forall p: Prim :: Row(Less(h, u), p) == Row(h, p) - (if u.p == p then 1 else 0)
    ensures u in h ==> forall t: Task :: Column(Less(h, u), t) == Column(h, t) - (if u.t == t then 1 else 0)
  {
    if h != [] {
      var n := |h| - 1;
      assert h == h[..n] + [h[n]];
      LessFacts(h[..n], u);
      var l := Less(h[..n], u);
      assert (l + [h[n]])[..|l|] == l;
    }
  }

  lemma PushSums(h: Matrix, u: Unit)
    ensures forall p: Prim :: Row(h + [u], p) == Row(h, p) + (if u.p == p then 1 else 0)
    ensures forall t: Task :: Column(h + [u], t) == Column(h, t) + (if u.t == t then 1 else 0)
  {
    assert (h + [u])[..|h|] == h;
  }

  lemma {:induction false} KeepSums(h: Matrix, lt: set<Task>, lp: set<Prim>)
    ensures forall p :: p in lp ==> Row(Keep(h, lt, lp), p) == Row(h, p)
    ensures forall t :: t in lt ==> Column(Keep(h, lt, lp), t) == Column(h, t)
    ensures forall u :: u in Keep(h, lt, lp) ==> (u.p != null ==> u.p in lp) && (u.t != null ==> u.t in lt)
    ensures forall u :: u in h && (u.p == null || u.p in lp) && (u.t == null || u.t in lt) ==> u in Keep(h, lt, lp)
  {
    if h != [] {
      var n := |h| - 1;
      assert h == h[..n] + [h[n]];
      KeepSums(h[..n], lt, lp);
      assert Keep(h, lt, lp)[..n] == Keep(h[..n], lt, lp);
      assert Keep(h, lt, lp) == Keep(h[..n], lt, lp) + [Keep(h, lt, lp)[n]];
    }
  }

  lemma {:induction false} AbsentPrim(h: Matrix, p: Prim)
    ensures Row(h, p) == 0 <==> forall u :: u in h ==> u.p != p
  {
    if h != [] {
      assert h == h[..|h| - 1] + [h[|h| - 1]];
      AbsentPrim(h[..|h| - 1], p);
    }
  }

  lemma {:induction false} AbsentTask(h: Matrix, t: Task)
    ensures Column(h, t) == 0 <==> forall u :: u in h ==> u.t != t
  {
    if h != [] {
      assert h == h[..|h| - 1] + [h[|h| - 1]];
      AbsentTask(h[..|h| - 1], t);
    }
  }

  // --------------------------------------------------------------- steps

  lemma TakeMatches(lt: set<Task>, lp: set<Prim>, o: Ownership, h: Matrix, p: Prim, t: Task)
    requires Balanced(lt, lp, o, h) && p in lp && t in lt
    ensures Balanced(lt, lp, Ownership(o.tasks[t := o.tasks[t] + 1], o.prims[p := o.prims[p] + 1]), h + [Unit(p, t)])
  {
    PushSums(h, Unit(p, t));
  }

  /** Releasing a unit that is held never fails. */
  lemma ReleaseMatches(lt: set<Task>, lp: set<Prim>, o: Ownership, h: Matrix, p: Prim, t: Task)
    requires Balanced(lt, lp, o, h) && Unit(p, t) in h
    ensures ReleaseError(o, p, t) == 0 && Balanced(lt, lp, ReleaseCounters(o, p, t), Less(h, Unit(p, t)))
  {
    LessFacts(h, Unit(p, t));
    AbsentPrim(h, p);
    AbsentTask(h, t);
  }

  /** A release by a task that does not hold the primitive goes unnoticed if and
    * only if somebody else holds the primitive and the task holds something else. */
  lemma UnheldRelease(lt: set<Task>, lp: set<Prim>, o: Ownership, h: Matrix, p: Prim, t: Task)
    requires Balanced(lt, lp, o, h) && p in lp && t in lt && Unit(p, t) !in h
    ensures ReleaseError(o, p, t) == 0 <==> (exists u :: u in h && u.p == p && u.t != t) && (exists u :: u in h && u.t == t && u.p != p)
  {
    AbsentPrim(h, p);
    AbsentTask(h, t);
    if u :| u in h && u.p == p {
      assert u.t != t;
    }
    if u :| u in h && u.t == t {
      assert u.p != p;
    }
  }

  /** A release that reports an error leaves the counters alone if and only if
    * nobody owns the primitive. */
  lemma FailedRelease(o: Ownership, p: Prim, t: Task)
    requires p in o.prims && t in o.tasks && ReleaseError(o, p, t) != 0
    ensures ReleaseCounters(o, p, t) == o <==> o.prims[p] == 0
  {
    if o.prims[p] != 0 {
      assert ReleaseCounters(o, p, t).prims[p] == o.prims[p] - 1;
    }
  }

  lemma AddMatchesTask(lt: set<Task>, lp: set<Prim>, o: Ownership, h: Matrix, t: Task)
    requires Balanced(lt, lp, o, h) && t !in lt
    ensures Balanced(lt + {t}, lp, o.(tasks := o.tasks[t := 0]), h)
  {
    AbsentTask(h, t);
  }

  lemma AddMatchesPrim(lt: set<Task>, lp: set<Prim>, o: Ownership, h: Matrix, p: Prim)
    requires Balanced(lt, lp, o, h) && p !in lp
    ensures Balanced(lt, lp + {p}, o.(prims := o.prims[p := 0]), h)
  {
    AbsentPrim(h, p);
  }

  lemma BalancedKnown(lt: set<Task>, lp: set<Prim>, o: Ownership, h: Matrix, p: Prim, t: Task)
    requires Balanced(lt, lp, o, h)
    ensures p in lp ==> p in o.prims && o.prims[p] == Row(h, p)
    ensures t in lt ==> t in o.tasks && o.tasks[t] == Column(h, t)
  {
  }

  lemma KeepMatches(lt: set<Task>, lp: set<Prim>, lt': set<Task>, lp': set<Prim>, o: Ownership, h: Matrix)
    requires Balanced(lt, lp, o, h) && lt' <= lt && lp' <= lp
    ensures Balanced(lt', lp', o, Keep(h, lt', lp'))
  {
    KeepSums(h, lt', lp');
  }

  lemma CounterStepMatches(w: World, s: State, h: Matrix, m: Micro)
    requires Ok(w, s, m) && Matches(s, h) && (m.Take? || (m.Release? && Unit(m.p, m.t) in h))
    ensures Matches(Apply(s, m), HeldStep(s, h, m))
    ensures m.Release? ==> ReleaseError(s.own, m.p, m.t) == 0
  {
    hide Balanced, LiveTasks, LivePrims;
    var lt, lp := LiveTasks(s.reg), LivePrims(s.reg);
    if m.Take? {
      TakeMatches(lt, lp, s.own, h, m.p, m.t);
      BalancedKnown(lt, lp, s.own, h, m.p, m.t);
    } else {
      ReleaseMatches(lt, lp, s.own, h, m.p, m.t);
    }
  }

  lemma RegistryStepMatches(w: World, s: State, h: Matrix, m: Micro)
    requires RegistryOk(w, s.reg) && Ok(w, s, m) && Matches(s, h) && !m.Take? && !m.Release?
    ensures Matches(Apply(s, m), HeldStep(s, h, m))
  {
    ListedAreKnown(w, s.reg);
    LiveAfter(w, s, m);
    hide RegistryOk, Balanced, LiveTasks, LivePrims, Walk, Remove, RemoveAll, ActiveOf;
    var lt, lp := LiveTasks(s.reg), LivePrims(s.reg);
    match m
    case AddTask(c, t) => AddMatchesTask(lt, lp, s.own, h, t);
    case AddPrim(c, p) => AddMatchesPrim(lt, lp, s.own, h, p);
    case DropTask(t) => KeepMatches(lt, lp, lt - {t}, lp, s.own, h);
    case DropPrim(p) => KeepMatches(lt, lp, lt, lp - {p}, s.own, h);
    case DropProcess(c) => KeepMatches(lt, lp, LiveTasksAfter(s.reg, m), LivePrimsAfter(s.reg, m), s.own, h);
    case _ =>
  }

  lemma StepMatches(w: World, s: State, h: Matrix, m: Micro)
    requires Core(w, s) && Ok(w, s, m) && Matches(s, h) && (m.Release? ==> Unit(m.p, m.t) in h)
    ensures Matches(Apply(s, m), HeldStep(s, h, m))
    ensures m.Release? ==> ReleaseError(s.own, m.p, m.t) == 0
  {
    hide Core, Ok, Apply, HeldStep, Balanced;
    CoreParts(w, s);
    if m.Take? || m.Release? {
      CounterStepMatches(w, s, h, m);
    } else {
      RegistryStepMatches(w, s, h, m);
    }
  }

  // --------------------------------------------------------------- calls

  /** The release is of a unit the releasing task holds. */
  ghost predicate Matched(s: State, h: Matrix, op: Op) {
    match op
    case ReleaseOwnership(p, t) => Unit(p, t) in h
    case MutexUnlock(p, th) => Overridden(s, p) != null && Current(s, th) == Overridden(s, p) ==> Unit(p, Current(s, th)) in h
    case SemRelease(p, th) => Unit(p, Current(s, th)) in h
    case _ => true
  }

  ghost function HeldAfter(s: State, h: Matrix, op: Op): Matrix {
    HeldAll(s, h, Plan(s, op))
  }

  lemma {:induction false} StepsMatch(w: World, s: State, h: Matrix, ms: seq<Micro>)
    requires Core(w, s) && AllOk(w, s, ms) && Matches(s, h)
    requires forall i :: 0 < i < |ms| ==> !ms[i].Release?
    requires ms != [] && ms[0].Release? ==> Unit(ms[0].p, ms[0].t) in h
    ensures Matches(ApplyAll(s, ms), HeldAll(s, h, ms))
    ensures ms != [] && ms[0].Release? ==> ReleaseError(s.own, ms[0].p, ms[0].t) == 0
  {
    hide Core, Ok, Apply, HeldStep, Balanced, ReleaseError;
    if ms != [] {
      var n := |ms| - 1;
      StepsMatch(w, s, h, ms[..n]);
      AllOkKeepsCore(w, s, ms[..n]);
      assert n == 0 ==> ApplyAll(s, ms[..n]) == s && HeldAll(s, h, ms[..n]) == h;
      StepMatches(w, ApplyAll(s, ms[..n]), HeldAll(s, h, ms[..n]), ms[n]);
    }
  }

  /** Where a plan releases, and that a matched call releases a held unit. */
  lemma ReleaseComesFirst(s: State, h: Matrix, op: Op)
    requires Matched(s, h, op)
    ensures var ms := Plan(s, op);
            && (forall i :: 0 < i < |ms| ==> !ms[i].Release?)
            && (ms != [] && ms[0].Release? ==> Unit(ms[0].p, ms[0].t) in h)
  {
  }

  /** Under matched releases every call keeps the counters equal to the row and
    * column sums, and no release reports an ownership error. */
  lemma CallKeepsMatches(w: World, s: State, h: Matrix, op: Op)
    requires Core(w, s) && Legal(w, s, op) && Matches(s, h) && Matched(s, h, op)
    ensures Matches(Step(s, op), HeldAfter(s, h, op))
    ensures op.MutexUnlock? ==> UnlockCode(s, op.p, op.h) != 3
    ensures op.SemRelease? ==> SemReleaseCode(s, op.p, op.h) == 0
  {
    hide Core, AllOk, Balanced, Legal, Matched, Plan, ReleaseError;
    PlanOk(w, s, op);
    ReleaseComesFirst(s, h, op);
    StepsMatch(w, s, h, Plan(s, op));
    ReleaseCodes(w, s, op);
  }

  lemma ReleaseCodes(w: World, s: State, op: Op)
    requires Legal(w, s, op)
    ensures op.MutexUnlock? && UnlockCode(s, op.p, op.h) == 3 ==>
              var ms := Plan(s, op); ms != [] && ms[0].Release? && ReleaseError(s.own, ms[0].p, ms[0].t) != 0
    ensures op.SemRelease? && SemReleaseCode(s, op.p, op.h) != 0 ==>
              var ms := Plan(s, op); ms != [] && ms[0].Release? && ReleaseError(s.own, ms[0].p, ms[0].t) != 0
  {
    hide LiveTasks, LivePrims;
  }

  // ------------------------------------------------------------------ runs

  /** A run with its matrices of holdings, all releases of which are matched. */
  ghost predicate MatchedRun(w: World, ss: seq<State>, hs: seq<Matrix>, ops: seq<Op>) {
    && IsRun(w, ss, ops) && Inv(w, ss[0]) && |hs| == |ss| && Matches(ss[0], hs[0])
    && forall i :: 0 <= i < |ops| ==> Matched(ss[i], hs[i], ops[i]) && hs[i + 1] == HeldAfter(ss[i], hs[i], ops[i])
  }

  /** In every state of every matched run the two counters are the row and column sums. */
  lemma {:induction false} RunMatches(w: World, ss: seq<State>, hs: seq<Matrix>, ops: seq<Op>, n: nat)
    requires MatchedRun(w, ss, hs, ops) && n < |ss|
    ensures Inv(w, ss[n]) && Matches(ss[n], hs[n])
    decreases n
  {
    hide Inv, Balanced, Legal, Step, Matched, HeldAfter;
    RunKeepsInv(w, ss, ops, n);
    if n > 0 {
      RunMatches(w, ss, hs, ops, n - 1);
      InvIsCore(w, ss[n - 1]);
      CallKeepsMatches(w, ss[n - 1], hs[n - 1], ops[n - 1]);
    }
  }

  /** No matched unlock or release ever reports an ownership error. */
  lemma NoOwnershipError(w: World, ss: seq<State>, hs: seq<Matrix>, ops: seq<Op>, n: nat)
    requires MatchedRun(w, ss, hs, ops) && n < |ops|
    ensures ops[n].MutexUnlock? ==> UnlockCode(ss[n], ops[n].p, ops[n].h) != 3
    ensures ops[n].SemRelease? ==> SemReleaseCode(ss[n], ops[n].p, ops[n].h) == 0
  {
    hide Inv, Balanced, Legal, Step, Matched, HeldAfter, UnlockCode, SemReleaseCode;
    RunMatches(w, ss, hs, ops, n);
    InvIsCore(w, ss[n]);
    CallKeepsMatches(w, ss[n], hs[n], ops[n]);
  }
}
