/** Semaphores over whole runs (src/sched/sem.c): the owning count is takings
  * minus releases, and stays within the limit. */
module Semaphores {
  import opened Objects
  import opened Marking
  import opened Model
  import opened Invariant
  import opened Operations
  import opened Plans
  import opened Calls
  import opened Runs
  import opened Holding
  import opened Frames

  /** Calls that use `p` through the semaphore functions only, with one limit,
    * and keep it registered. */
  ghost predicate SemOnly(s: State, op: Op, p: Prim, limit: int) {
    match op
    case UnregisterPrim(q) => q != p
    case UnregisterProcess(c) => p in s.reg.prims && s.reg.prims[p] != c
    case TakeOwnership(q, _) => q != p
    case ReleaseOwnership(q, _) => q != p
    case MutexLock(q, _, _) => q != p
    case MutexLockNb(q, _) => q != p
    case MutexUnlock(q, _) => q != p
    case OverrideTask(q, _) => q != p
    case UnoverrideTask(q) => q != p
    case SemTake(q, l, _, _) => q == p ==> l == limit
    case SemTakeNb(q, l, _) => q == p ==> l == limit
    case _ => true
  }

  /** A taking that takes; take_nb then returns 1. */
  ghost predicate Takes(s: State, op: Op, p: Prim) {
    (op.SemTake? && op.p == p && Owners(s, p) != op.limit) || (op.SemTakeNb? && op.p == p && Owners(s, p) != op.limit)
  }

  /** A release that returns 0. */
  ghost predicate Releases(s: State, op: Op, p: Prim) {
    op.SemRelease? && op.p == p && SemReleaseCode(s, p, op.h) == 0
  }

  ghost predicate Within(s: State, p: Prim, limit: int) {
    LivePrim(s, p) && 0 <= Owners(s, p) <= limit
  }

  // ----------------------------------------------------------------- calls

  lemma SimpleAside(w: World, s: State, op: Op, p: Prim, c: Process, limit: int)
    requires Legal(w, s, op) && SemOnly(s, op, p, limit) && Homed(s, p, c)
    requires op.RegisterThread? || op.UnregisterThread? || op.RegisterProcess? || op.UnregisterProcess? || op.RegisterTask?
          || op.RegisterPrim? || op.UnregisterPrim? || op.ResumeTask? || op.PauseProcess? || op.ResumeProcess? || op.CloseCommit?
    ensures forall m :: m in Plan(s, op) ==> Aside(m, p, c)
  {
    hide LivePrims, LiveTasks, ActiveOf, Waiting, Assignable;
  }

  lemma SyncAside(s: State, op: Op, p: Prim, c: Process, limit: int)
    requires SemOnly(s, op, p, limit) && !Takes(s, op, p) && !(op.SemRelease? && op.p == p)
    requires !(op.RegisterThread? || op.UnregisterThread? || op.RegisterProcess? || op.UnregisterProcess? || op.RegisterTask?
          || op.RegisterPrim? || op.UnregisterPrim? || op.ResumeTask? || op.PauseProcess? || op.ResumeProcess? || op.CloseCommit?)
    ensures forall m :: m in Plan(s, op) ==> Aside(m, p, c)
  {
    hide ReleaseError, Owners;
  }

  /** A call that neither takes nor releases `p` leaves it aside. */
  lemma PlanAside(w: World, s: State, op: Op, p: Prim, c: Process, limit: int)
    requires Legal(w, s, op) && SemOnly(s, op, p, limit) && Homed(s, p, c)
    requires !Takes(s, op, p) && !(op.SemRelease? && op.p == p)
    ensures forall m :: m in Plan(s, op) ==> Aside(m, p, c)
  {
    hide Legal, SemOnly, Homed, Takes, Plan, Aside;
    if op.RegisterThread? || op.UnregisterThread? || op.RegisterProcess? || op.UnregisterProcess? || op.RegisterTask?
       || op.RegisterPrim? || op.UnregisterPrim? || op.ResumeTask? || op.PauseProcess? || op.ResumeProcess? || op.CloseCommit? {
      SimpleAside(w, s, op, p, c, limit);
    } else {
      SyncAside(s, op, p, c, limit);
    }
  }

  lemma {:induction false} OwnersAside(w: World, s: State, ms: seq<Micro>, p: Prim, c: Process)
    requires Core(w, s) && AllOk(w, s, ms) && Homed(s, p, c) && forall m :: m in ms ==> Aside(m, p, c)
    ensures Homed(ApplyAll(s, ms), p, c) && Owners(ApplyAll(s, ms), p) == Owners(s, p)
  {
    hide Core, Ok, Apply, Aside, Homed, Owners;
    if ms != [] {
      var n := |ms| - 1;
      assert ms == ms[..n] + [ms[n]];
      OwnersAside(w, s, ms[..n], p, c);
      AllOkKeepsCore(w, s, ms[..n]);
      AsideStep(w, ApplyAll(s, ms[..n]), ms[n], p, c);
    }
  }

  lemma TakingMoves(w: World, s: State, op: Op, p: Prim)
    requires Core(w, s) && Legal(w, s, op) && LivePrim(s, p) && Takes(s, op, p)
    ensures LivePrim(Step(s, op), p) && Owners(Step(s, op), p) == Owners(s, p) + 1
  {
    hide Core, LiveTasks, LivePrims, ApplyAll;
    var t := Current(s, op.h);
    OneStep(w, s, Micro.Take(p, t));
    CountersOfCore(w, s, p, t);
  }

  lemma CountersOfCore(w: World, s: State, p: Prim, t: Task)
    requires Core(w, s) && LivePrim(s, p) && LiveTask(s, t)
    ensures p in s.own.prims && t in s.own.tasks && 0 <= s.own.prims[p]
  {
    hide StopOk, ExecOk, ClosedBut, SameProcess, OverOk;
  }

  lemma ReleasePlanIs(s: State, op: Op, p: Prim)
    requires op.SemRelease? && op.p == p && Current(s, op.h) != null
    ensures var t := Current(s, op.h);
            Plan(s, op) == [Micro.Release(p, t)] + (if ReleaseError(s.own, p, t) == 0 then WakeUp(s, p) else [])
    ensures SemReleaseCode(s, p, op.h) == ReleaseError(s.own, p, Current(s, op.h))
  {
  }

  lemma ReleaseMoves(w: World, s: State, p: Prim, t: Task)
    requires Core(w, s) && LivePrim(s, p)
    ensures var s' := Apply(s, Micro.Release(p, t));
            && LivePrim(s', p)
            && Owners(s', p) == (if Owners(s, p) == 0 then 0 else Owners(s, p) - 1)
            && (ReleaseError(s.own, p, t) == 0 ==> Owners(s, p) != 0)
  {
    hide Core, LivePrims;
    HomeOf(w, s, p);
  }

  lemma WakeUpIsAside(s: State, p: Prim, c: Process, ok: bool)
    ensures forall m :: m in (if ok then WakeUp(s, p) else []) ==> Aside(m, p, c)
  {
  }

  /** A release takes one owner off, even where only the task's own counter is
    * null and the call reports an error. */
  lemma ReleasingMoves(w: World, s: State, op: Op, p: Prim)
    requires Core(w, s) && Legal(w, s, op) && LivePrim(s, p) && op.SemRelease? && op.p == p
    ensures LivePrim(Step(s, op), p) && Owners(Step(s, op), p) == (if Owners(s, p) == 0 then 0 else Owners(s, p) - 1)
    ensures Releases(s, op, p) ==> Owners(s, p) != 0
  {
    hide Core, LiveTasks, LivePrims, Legal, Plan, AllOk, Apply, ApplyAll, WakeUp, ReleaseError, Owners, Aside, Homed, SemReleaseCode;
    ReleaserIsTask(w, s, op);
    PlanOk(w, s, op);
    ReleasePlanIs(s, op, p);
    var t := Current(s, op.h);
    var ok := ReleaseError(s.own, p, t) == 0;
    var a, b := [Micro.Release(p, t)], if ok then WakeUp(s, p) else [];
    AllOkSplit(w, s, a, b);
    OneStep(w, s, a[0]);
    ReleaseMoves(w, s, p, t);
    AllOkKeepsCore(w, s, a);
    var s1 := ApplyAll(s, a);
    HomeOf(w, s1, p);
    WakeUpIsAside(s, p, s1.reg.prims[p], ok);
    OwnersAside(w, s1, b, p, s1.reg.prims[p]);
    HomeIsLive(ApplyAll(s1, b), p, s1.reg.prims[p]);
  }

  lemma HomeIsLive(s: State, p: Prim, c: Process)
    requires Homed(s, p, c)
    ensures LivePrim(s, p)
  {
  }

  lemma ReleaserIsTask(w: World, s: State, op: Op)
    requires Legal(w, s, op) && op.SemRelease?
    ensures Current(s, op.h) != null
  {
    hide LiveTasks, LivePrims;
  }

  lemma AsideMoves(w: World, s: State, op: Op, p: Prim, limit: int)
    requires Core(w, s) && Legal(w, s, op) && LivePrim(s, p) && SemOnly(s, op, p, limit)
    requires !Takes(s, op, p) && !(op.SemRelease? && op.p == p)
    ensures LivePrim(Step(s, op), p) && Owners(Step(s, op), p) == Owners(s, p)
  {
    hide Core, LiveTasks, LivePrims, Legal, Plan, AllOk, ApplyAll, Owners, Aside, Homed, SemOnly, Takes;
    PlanOk(w, s, op);
    HomeOf(w, s, p);
    PlanAside(w, s, op, p, s.reg.prims[p], limit);
    OwnersAside(w, s, Plan(s, op), p, s.reg.prims[p]);
    HomeIsLive(Step(s, op), p, s.reg.prims[p]);
  }

  /** The owning count moves by takings and releases only, and never leaves
    * the limit, although the source tests for equality with it. */
  lemma CallMovesCount(w: World, s: State, op: Op, p: Prim, limit: int)
    requires Core(w, s) && Legal(w, s, op) && SemOnly(s, op, p, limit) && Within(s, p, limit)
    ensures Within(Step(s, op), p, limit)
    ensures (op.SemRelease? && op.p == p ==> Releases(s, op, p)) ==>
              Owners(Step(s, op), p) == Owners(s, p) + (if Takes(s, op, p) then 1 else 0) - (if Releases(s, op, p) then 1 else 0)
  {
    hide Core, LivePrims, Legal, Step, Owners;
    if Takes(s, op, p) {
      TakingMoves(w, s, op, p);
    } else if op.SemRelease? && op.p == p {
      ReleasingMoves(w, s, op, p);
    } else {
      hide SemOnly, Takes;
      AsideMoves(w, s, op, p, limit);
    }
  }

  // ------------------------------------------------------------------ runs

  ghost predicate SemRun(w: World, ss: seq<State>, ops: seq<Op>, p: Prim, limit: int) {
    && IsRun(w, ss, ops) && Inv(w, ss[0]) && Within(ss[0], p, limit)
    && forall i :: 0 <= i < |ops| ==> SemOnly(ss[i], ops[i], p, limit)
  }

  lemma SemRunStep(w: World, ss: seq<State>, ops: seq<Op>, p: Prim, limit: int, n: nat)
    requires SemRun(w, ss, ops, p, limit) && n < |ops|
    ensures n + 1 < |ss| && Legal(w, ss[n], ops[n]) && ss[n + 1] == Step(ss[n], ops[n]) && SemOnly(ss[n], ops[n], p, limit)
  {
    hide Inv, Legal, Step, SemOnly, Within;
  }

  lemma SemRunStart(w: World, ss: seq<State>, ops: seq<Op>, p: Prim, limit: int)
    requires SemRun(w, ss, ops, p, limit)
    ensures |ss| == |ops| + 1 && IsRun(w, ss, ops) && Inv(w, ss[0]) && Within(ss[0], p, limit)
  {
    hide Inv, Legal, Step, SemOnly, Within;
  }

  /** In every run the owning count stays between 0 and the limit. */
  lemma {:induction false} CountStaysWithin(w: World, ss: seq<State>, ops: seq<Op>, p: Prim, limit: int, n: nat)
    requires SemRun(w, ss, ops, p, limit) && n < |ss|
    ensures Inv(w, ss[n]) && Within(ss[n], p, limit)
    decreases n
  {
    hide Inv, Core, Legal, Step, SemOnly, Within, IsRun, SemRun;
    SemRunStart(w, ss, ops, p, limit);
    RunKeepsInv(w, ss, ops, n);
    if n > 0 {
      CountStaysWithin(w, ss, ops, p, limit, n - 1);
      SemRunStep(w, ss, ops, p, limit, n - 1);
      InvIsCore(w, ss[n - 1]);
      CallMovesCount(w, ss[n - 1], ops[n - 1], p, limit);
    }
  }

  /** The number of takings of `p` among the first `n` calls. */
  ghost function Takings(ss: seq<State>, ops: seq<Op>, p: Prim, n: nat): nat
    requires n <= |ops| && n < |ss|
  {
    if n == 0 then 0 else Takings(ss, ops, p, n - 1) + (if Takes(ss[n - 1], ops[n - 1], p) then 1 else 0)
  }

  /** The number of releases of `p` that returned 0 among the first `n` calls. */
  ghost function Releasings(ss: seq<State>, ops: seq<Op>, p: Prim, n: nat): nat
    requires n <= |ops| && n < |ss|
  {
    if n == 0 then 0 else Releasings(ss, ops, p, n - 1) + (if Releases(ss[n - 1], ops[n - 1], p) then 1 else 0)
  }

  lemma MatchedReleaseSucceeds(w: World, ss: seq<State>, hs: seq<Matrix>, ops: seq<Op>, p: Prim, n: nat)
    requires MatchedRun(w, ss, hs, ops) && n < |ops| && n < |ss| && ops[n].SemRelease? && ops[n].p == p
    ensures Releases(ss[n], ops[n], p)
  {
    hide MatchedRun, SemReleaseCode;
    NoOwnershipError(w, ss, hs, ops, n);
  }

  /** Conservation: under matched releases, takings minus releases is what the
    * owning count grew by, and lies within the limit. */
  lemma {:induction false} TakingsLessReleases(w: World, ss: seq<State>, hs: seq<Matrix>, ops: seq<Op>, p: Prim, limit: int, n: nat)
    requires SemRun(w, ss, ops, p, limit) && MatchedRun(w, ss, hs, ops) && n <= |ops| && |ss| == |ops| + 1
    ensures Owners(ss[n], p) == Owners(ss[0], p) + Takings(ss, ops, p, n) - Releasings(ss, ops, p, n)
    ensures 0 <= Owners(ss[0], p) + Takings(ss, ops, p, n) - Releasings(ss, ops, p, n) <= limit
    decreases n
  {
    hide Inv, Core, Legal, Step, SemOnly, IsRun, SemRun, MatchedRun, Takes, Releases, Owners, LivePrim;
    CountStaysWithin(w, ss, ops, p, limit, n);
    if n > 0 {
      TakingsLessReleases(w, ss, hs, ops, p, limit, n - 1);
      CountStaysWithin(w, ss, ops, p, limit, n - 1);
      SemRunStep(w, ss, ops, p, limit, n - 1);
      InvIsCore(w, ss[n - 1]);
      if ops[n - 1].SemRelease? && ops[n - 1].p == p {
        MatchedReleaseSucceeds(w, ss, hs, ops, p, n - 1);
      }
      CallMovesCount(w, ss[n - 1], ops[n - 1], p, limit);
    }
  }

  // ------------------------------------------------------- the woken task

  /** Task `t` itself asks for `p`. */
  ghost predicate AsksFor(s: State, op: Op, p: Prim, t: Task) {
    match op
    case TakeOwnership(q, u) => q == p && u == t
    case MutexLock(q, h, _) => q == p && Current(s, h) == t
    case MutexLockNb(q, h) => q == p && Current(s, h) == t
    case SemTake(q, _, h, _) => q == p && Current(s, h) == t
    case SemTakeNb(q, _, h) => q == p && Current(s, h) == t
    case _ => false
  }

  lemma OnlyAskersTake(s: State, op: Op, p: Prim, t: Task)
    requires !AsksFor(s, op, p, t)
    ensures Micro.Take(p, t) !in Plan(s, op)
  {
    hide Owners, ReleaseError, Waiting, ActiveOf;
  }

  lemma {:induction false} NothingHeld(s: State, h: Matrix, ms: seq<Micro>, p: Prim, t: Task)
    requires Unit(p, t) !in h && Micro.Take(p, t) !in ms
    ensures Unit(p, t) !in HeldAll(s, h, ms)
  {
    hide Apply, LiveTasks, LivePrims;
    if ms != [] {
      var n := |ms| - 1;
      assert ms == ms[..n] + [ms[n]];
      NothingHeld(s, h, ms[..n], p, t);
      var h1 := HeldAll(s, h, ms[..n]);
      if ms[n].Release? {
        LessFacts(h1, Unit(ms[n].p, ms[n].t));
      }
    }
  }

  /** Being resumed gives no ownership: a task that holds nothing of `p` holds
    * nothing until it asks for it itself, whoever else takes, releases or
    * resumes in between. */
  lemma {:induction false} HoldsNothingUnasked(w: World, ss: seq<State>, hs: seq<Matrix>, ops: seq<Op>, p: Prim, t: Task, i: nat, n: nat)
    requires MatchedRun(w, ss, hs, ops) && i <= n < |hs| == |ss| == |ops| + 1 && Unit(p, t) !in hs[i]
    requires forall k :: i <= k < n ==> !AsksFor(ss[k], ops[k], p, t)
    ensures Unit(p, t) !in hs[n]
    decreases n
  {
    hide IsRun, Inv, Matches, Matched, AsksFor, Plan;
    if i < n {
      HoldsNothingUnasked(w, ss, hs, ops, p, t, i, n - 1);
      OnlyAskersTake(ss[n - 1], ops[n - 1], p, t);
      NothingHeld(ss[n - 1], hs[n - 1], Plan(ss[n - 1], ops[n - 1]), p, t);
    }
  }
}
