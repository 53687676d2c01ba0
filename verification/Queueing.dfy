/** Wake-up order: a primitive resumes the tasks it stopped first in, first out. */
module Queueing {
  import opened Lists
  import opened Objects
  import opened Marking
  import opened Model
  import opened Invariant
  import opened Operations
  import opened Plans
  import opened Calls
  import opened Runs

  /** The call releases `p` with success. */
  predicate Wakes(s: State, op: Op, p: Prim) {
    match op
    case MutexUnlock(q, h) => q == p && UnlockCode(s, q, h) == 0
    case SemRelease(q, h) => q == p && SemReleaseCode(s, q, h) == 0
    case _ => false
  }

  /** Calls other than unregistering `p` or its process, and resuming tasks
    * that wait for `p` by other means than a release. */
  ghost predicate Fair(s: State, op: Op, p: Prim) {
    match op
    case UnregisterPrim(q) => q != p
    case ResumeProcess(c) => c.prim != p
    case ResumeTask(t) => t !in Waiting(s, p)
    case UnregisterProcess(c) => p in s.reg.prims && s.reg.prims[p] != c
    case _ => true
  }

  /** A step that takes no task out of the queue `q` of `p`, and leaves `p` registered. */
  predicate KeepsQueue(m: Micro, p: Prim, q: seq<Task>, c: Process?) {
    match m
    case Resume(t) => t !in q
    case Stop(p', t) => p' != p
    case AddPrim(_, p') => p' != p
    case DropPrim(p') => p' != p
    case AddProcess(c') => c' != c
    case DropProcess(c') => c' != c
    case _ => true
  }

  /** A step that takes no task out of any queue. */
  predicate Appends(m: Micro) {
    m.Stop? || m.Assign? || m.SetStatus?
  }

  lemma QueueStep(w: World, s: State, m: Micro, p: Prim)
    requires Core(w, s) && Ok(w, s, m) && LivePrim(s, p) && p in s.reg.prims && KeepsQueue(m, p, Waiting(s, p), s.reg.prims[p])
    ensures Waiting(Apply(s, m), p) == Waiting(s, p)
  {
    hide Core, LiveTasks, LivePrims, Walk, RemoveAll, ActiveOf, Remove, NoDup;
    StoppedOfCore(w, s, p);
    if m.Resume? {
      StoppedHasStopper(w, s, m.t);
      assert s.stop.tasks[m.t].stopper != p by {
        StoppedAreWaiting(w, s, p);
      }
    }
  }

  lemma LivePrimStep(w: World, s: State, m: Micro, p: Prim)
    requires RegistryOk(w, s.reg) && Ok(w, s, m) && LivePrim(s, p) && p in s.reg.prims && KeepsQueue(m, p, Waiting(s, p), s.reg.prims[p])
    ensures LivePrim(Apply(s, m), p) && p in Apply(s, m).reg.prims && Apply(s, m).reg.prims[p] == s.reg.prims[p]
  {
    LiveAfter(w, s, m);
    hide RegistryOk, LiveTasks, LivePrims, Waiting, Walk, Remove, RemoveAll, ActiveOf;
  }

  lemma {:induction false} QueueSteps(w: World, s: State, ms: seq<Micro>, p: Prim)
    requires Core(w, s) && AllOk(w, s, ms) && LivePrim(s, p) && p in s.reg.prims
    requires forall m :: m in ms ==> KeepsQueue(m, p, Waiting(s, p), s.reg.prims[p])
    ensures var s' := ApplyAll(s, ms);
            LivePrim(s', p) && p in s'.reg.prims && s'.reg.prims[p] == s.reg.prims[p] && Waiting(s', p) == Waiting(s, p)
  {
    hide Core, Ok, Apply, KeepsQueue, LivePrims, Waiting;
    if ms != [] {
      var n := |ms| - 1;
      assert ms == ms[..n] + [ms[n]];
      QueueSteps(w, s, ms[..n], p);
      AllOkKeepsCore(w, s, ms[..n]);
      CoreParts(w, ApplyAll(s, ms[..n]));
      QueueStep(w, ApplyAll(s, ms[..n]), ms[n], p);
      LivePrimStep(w, ApplyAll(s, ms[..n]), ms[n], p);
    }
  }

  lemma AppendStep(s: State, m: Micro, p: Prim)
    requires p in s.stop.prims && Appends(m)
    ensures p in Apply(s, m).stop.prims && Waiting(s, p) <= Waiting(Apply(s, m), p)
  {
    hide Walk;
  }

  lemma AppendKeepsLive(s: State, m: Micro)
    requires Appends(m)
    ensures LivePrims(Apply(s, m).reg) == LivePrims(s.reg) && Apply(s, m).reg.prims == s.reg.prims
  {
    hide Walk;
    if !m.SetStatus? {
      hide LivePrims;
    }
  }

  lemma {:induction false} AppendSteps(s: State, ms: seq<Micro>, p: Prim)
    requires p in s.stop.prims && forall m :: m in ms ==> Appends(m)
    ensures var s' := ApplyAll(s, ms);
            && p in s'.stop.prims && Waiting(s, p) <= Waiting(s', p)
            && LivePrims(s'.reg) == LivePrims(s.reg) && s'.reg.prims == s.reg.prims
  {
    hide LivePrims, Apply, Appends;
    if ms != [] {
      var n := |ms| - 1;
      assert ms == ms[..n] + [ms[n]];
      AppendSteps(s, ms[..n], p);
      AppendStep(ApplyAll(s, ms[..n]), ms[n], p);
      AppendKeepsLive(ApplyAll(s, ms[..n]), ms[n]);
    }
  }

  // ----------------------------------------------------------------- calls

  /** What a fair call does to the queue of `p`: a successful release takes the
    * head, any other call appends or leaves it. */
  ghost predicate QueueMoves(s: State, s': State, p: Prim, wakes: bool) {
    && LivePrim(s', p)
    && if wakes then Waiting(s', p) == (if Waiting(s, p) == [] then [] else Waiting(s, p)[1..])
       else Waiting(s, p) <= Waiting(s', p)
  }

  lemma KeepingCall(w: World, s: State, op: Op, p: Prim)
    requires Core(w, s) && Legal(w, s, op) && LivePrim(s, p) && p in s.reg.prims
    requires forall m :: m in Plan(s, op) ==> KeepsQueue(m, p, Waiting(s, p), s.reg.prims[p])
    ensures Waiting(Step(s, op), p) == Waiting(s, p) && LivePrim(Step(s, op), p)
  {
    hide Core, AllOk, Legal, Plan, LivePrims, KeepsQueue, Waiting;
    PlanOk(w, s, op);
    QueueSteps(w, s, Plan(s, op), p);
  }

  lemma AppendingCall(w: World, s: State, op: Op, p: Prim)
    requires Core(w, s) && LivePrim(s, p) && forall m :: m in Plan(s, op) ==> Appends(m)
    ensures QueueMoves(s, Step(s, op), p, false)
  {
    hide Core, Plan, LivePrims, Waiting, Appends, NoDup;
    StoppedOfCore(w, s, p);
    AppendSteps(s, Plan(s, op), p);
  }

  /** The stopped tasks of two primitives are disjoint. */
  lemma QueuesDisjoint(w: World, s: State, p: Prim, q: Prim)
    requires Core(w, s) && LivePrim(s, p) && LivePrim(s, q) && p != q
    ensures forall t :: t in Waiting(s, q) ==> t !in Waiting(s, p)
  {
    hide Core, LivePrims, LiveTasks, NoDup;
    StoppedOfCore(w, s, p);
    StoppedOfCore(w, s, q);
  }

  lemma WakeKeeps(w: World, s: State, p: Prim, q: Prim, c: Process?)
    requires Core(w, s) && LivePrim(s, p) && LivePrim(s, q) && p != q
    ensures forall m :: m in WakeUp(s, q) ==> KeepsQueue(m, p, Waiting(s, p), c)
    ensures forall m :: m in Resumes(Waiting(s, q)) ==> KeepsQueue(m, p, Waiting(s, p), c)
  {
    hide Core, LivePrims;
    QueuesDisjoint(w, s, p, q);
  }

  /** A running task waits for nothing. */
  lemma UnregisterKeeps(w: World, s: State, h: Thread, next: Task?, p: Prim, c: Process?)
    requires Inv(w, s) && Legal(w, s, UnregisterTask(h, next)) && LivePrim(s, p)
    ensures forall m :: m in Plan(s, UnregisterTask(h, next)) ==> KeepsQueue(m, p, Waiting(s, p), c)
  {
    hide Core, LivePrims, LiveTasks, Waiting;
    assert ThreadActive(s.run, h);
  }

  lemma SimpleKeeps(w: World, s: State, op: Op, p: Prim)
    requires Core(w, s) && Legal(w, s, op) && Fair(s, op, p) && LivePrim(s, p) && p in s.reg.prims
    requires op.RegisterThread? || op.UnregisterThread? || op.RegisterProcess? || op.UnregisterProcess? || op.RegisterTask?
          || op.RegisterPrim? || op.ResumeTask? || op.OverrideTask? || op.CloseCommit? || op.TakeOwnership? || op.ReleaseOwnership?
          || op.UnoverrideTask? || op.OpenCommit? || op.MutexLockNb? || op.SemTakeNb?
    ensures forall m :: m in Plan(s, op) ==> KeepsQueue(m, p, Waiting(s, p), s.reg.prims[p])
  {
    hide Core, LiveTasks, Waiting, Compatible, Assignable;
  }

  /** Waking up resumes exactly the head of the queue. */
  lemma WakeUpEffect(w: World, s: State, p: Prim)
    requires Core(w, s) && LivePrim(s, p)
    ensures var s' := ApplyAll(s, WakeUp(s, p));
            && LivePrim(s', p)
            && (Waiting(s, p) == [] ==> s' == s)
            && (Waiting(s, p) != [] ==>
                  && Waiting(s', p) == Waiting(s, p)[1..]
                  && Waiting(s, p)[0] in s'.stop.tasks && s'.stop.tasks[Waiting(s, p)[0]] == TaskStop(Active, null))
  {
    StoppedOfCore(w, s, p);
    hide Core, LivePrims, LiveTasks, Walk;
    if Waiting(s, p) != [] {
      OneStep(w, s, Micro.Resume(Waiting(s, p)[0]));
      RemoveHead(Waiting(s, p));
    }
  }

  /** A release with success: the counters, for a mutex the override, and the wake-up. */
  lemma WakingCall(w: World, s: State, op: Op, p: Prim)
    requires Core(w, s) && Legal(w, s, op) && LivePrim(s, p) && Wakes(s, op, p)
    ensures QueueMoves(s, Step(s, op), p, true)
    ensures Waiting(s, p) != [] ==>
              var t, s' := Waiting(s, p)[0], Step(s, op);
              t in s'.stop.tasks && s'.stop.tasks[t] == TaskStop(Active, null)
  {
    hide Core, AllOk, Ok, Apply, Legal, Plan, LivePrims, LiveTasks, Waiting, Wakes, NoDup, WakeUp, ReleaseSteps, KeepsQueue;
    PlanOk(w, s, op);
    var a := ReleaseSteps(s, op);
    WakingPlan(s, op, p);
    StoppedOfCore(w, s, p);
    AllOkSplit(w, s, a, WakeUp(s, p));
    QueueSteps(w, s, a, p);
    AllOkKeepsCore(w, s, a);
    SameWakeUp(s, ApplyAll(s, a), p);
    WakeUpEffect(w, ApplyAll(s, a), p);
  }

  function ReleaseSteps(s: State, op: Op): seq<Micro> {
    match op
    case MutexUnlock(p, h) => if Current(s, h) == null then [] else [Micro.Release(p, Current(s, h)), Micro.Unlink(p)]
    case SemRelease(p, h) => if Current(s, h) == null then [] else [Micro.Release(p, Current(s, h))]
    case _ => []
  }

  lemma WakingPlan(s: State, op: Op, p: Prim)
    requires Wakes(s, op, p)
    ensures Plan(s, op) == ReleaseSteps(s, op) + WakeUp(s, p)
    ensures forall m, q, c :: m in ReleaseSteps(s, op) ==> KeepsQueue(m, p, q, c)
  {
  }

  /** A release that is none leaves the queue. */
  lemma FailedReleaseKeeps(w: World, s: State, op: Op, p: Prim)
    requires Core(w, s) && Legal(w, s, op) && LivePrim(s, p) && p in s.reg.prims && !Wakes(s, op, p)
    requires op.MutexUnlock? || op.SemRelease?
    ensures forall m :: m in Plan(s, op) ==> KeepsQueue(m, p, Waiting(s, p), s.reg.prims[p])
  {
    hide Core, LiveTasks, LivePrims, Waiting, WakeUp;
    if op.p != p {
      if op.SemRelease? || (Overridden(s, op.p) != null && Current(s, op.h) == Overridden(s, op.p)) {
        WakeKeeps(w, s, p, op.p, s.reg.prims[p]);
      }
    }
  }

  lemma KeepingMoves(w: World, s: State, op: Op, p: Prim)
    requires Core(w, s) && Legal(w, s, op) && LivePrim(s, p) && p in s.reg.prims
    requires forall m :: m in Plan(s, op) ==> KeepsQueue(m, p, Waiting(s, p), s.reg.prims[p])
    ensures QueueMoves(s, Step(s, op), p, false)
  {
    hide Core, AllOk, Legal, Plan, Step, LivePrims, KeepsQueue, Waiting;
    KeepingCall(w, s, op, p);
  }

  lemma StoppingMoves(w: World, s: State, op: Op, p: Prim)
    requires Core(w, s) && LivePrim(s, p) && (op.StopThread? || op.PauseProcess?)
    ensures QueueMoves(s, Step(s, op), p, false)
  {
    hide Core, LivePrims, QueueMoves, Step;
    AppendingCall(w, s, op, p);
  }

  lemma UnregisterMoves(w: World, s: State, op: Op, p: Prim)
    requires Inv(w, s) && Legal(w, s, op) && LivePrim(s, p) && p in s.reg.prims && op.UnregisterTask?
    ensures QueueMoves(s, Step(s, op), p, false)
  {
    hide Core, LivePrims, QueueMoves, Step, Plan, Legal, KeepsQueue;
    UnregisterKeeps(w, s, op.h, op.next, p, s.reg.prims[p]);
    KeepingMoves(w, s, op, p);
  }

  lemma NeverWakes(s: State, op: Op, p: Prim)
    ensures !op.MutexUnlock? && !op.SemRelease? ==> !Wakes(s, op, p)
  {
  }

  /** Every fair call moves the queue first in, first out. */
  lemma CallMovesQueue(w: World, s: State, op: Op, p: Prim)
    requires Inv(w, s) && Legal(w, s, op) && LivePrim(s, p) && Fair(s, op, p)
    ensures QueueMoves(s, Step(s, op), p, Wakes(s, op, p))
  {
    InvParts(w, s, p);
    NeverWakes(s, op, p);
    hide Inv, Core, LivePrims, Waiting, QueueMoves, Legal, Plan, Step, Wakes, KeepsQueue;
    match op
    case MutexUnlock(_, _) => ReleaseMoves(w, s, op, p);
    case SemRelease(_, _) => ReleaseMoves(w, s, op, p);
    case UnregisterTask(h, next) => UnregisterMoves(w, s, op, p);
    case UnregisterPrim(q) => DrainingMoves(w, s, op, q, p);
    case ResumeProcess(c) => DrainingMoves(w, s, op, c.prim, p);
    case StopThread(_, _, _) => StoppingMoves(w, s, op, p);
    case PauseProcess(c) => StoppingMoves(w, s, op, p);
    case MutexLock(q, h, next) => LockMoves(w, s, op, q, p);
    case SemTake(q, limit, h, next) => LockMoves(w, s, op, q, p);
    case _ => SimpleKeeps(w, s, op, p); KeepingMoves(w, s, op, p);
  }

  lemma InvParts(w: World, s: State, p: Prim)
    requires Inv(w, s) && LivePrim(s, p)
    ensures Core(w, s) && p in s.reg.prims
  {
    hide Core, RunActiveBut;
    StoppedOfCore(w, s, p);
  }

  lemma ReleaseMoves(w: World, s: State, op: Op, p: Prim)
    requires Core(w, s) && Legal(w, s, op) && LivePrim(s, p) && p in s.reg.prims && (op.MutexUnlock? || op.SemRelease?)
    ensures QueueMoves(s, Step(s, op), p, Wakes(s, op, p))
  {
    hide Core, LivePrims, LiveTasks, Waiting, QueueMoves, Legal, Step, Plan, Wakes;
    if Wakes(s, op, p) {
      WakingCall(w, s, op, p);
    } else {
      FailedReleaseKeeps(w, s, op, p);
      KeepingMoves(w, s, op, p);
    }
  }

  lemma DrainingMoves(w: World, s: State, op: Op, q: Prim, p: Prim)
    requires Core(w, s) && Legal(w, s, op) && LivePrim(s, p) && p in s.reg.prims && p != q
    requires op == UnregisterPrim(q) || (op.ResumeProcess? && op.c.prim == q)
    ensures QueueMoves(s, Step(s, op), p, false)
  {
    hide Core, LivePrims, LiveTasks, Waiting, QueueMoves, Step;
    WakeKeeps(w, s, p, q, s.reg.prims[p]);
    KeepingMoves(w, s, op, p);
  }

  lemma LockMoves(w: World, s: State, op: Op, q: Prim, p: Prim)
    requires Core(w, s) && Legal(w, s, op) && LivePrim(s, p) && p in s.reg.prims
    requires (op.MutexLock? || op.SemTake?) && op.p == q
    ensures QueueMoves(s, Step(s, op), p, false)
  {
    hide Core, LivePrims, LiveTasks, Waiting, QueueMoves, Step, CanStop, Compatible;
    if (op.MutexLock? && Owners(s, q) != 0) || (op.SemTake? && Owners(s, q) == op.limit) {
      AppendingCall(w, s, op, p);
    } else {
      KeepingMoves(w, s, op, p);
    }
  }

  // ------------------------------------------------------------------ runs

  /** The number of successful releases of `p` among the first `n` calls. */
  ghost function Wakeups(ss: seq<State>, ops: seq<Op>, p: Prim, n: nat): nat
    requires n <= |ops| && n < |ss|
  {
    if n == 0 then 0 else Wakeups(ss, ops, p, n - 1) + (if Wakes(ss[n - 1], ops[n - 1], p) then 1 else 0)
  }

  ghost predicate FairRun(w: World, ss: seq<State>, ops: seq<Op>, p: Prim, n: nat) {
    && IsRun(w, ss, ops) && Inv(w, ss[0]) && LivePrim(ss[0], p) && n <= |ops|
    && forall i :: 0 <= i < n ==> Fair(ss[i], ops[i], p)
  }

  lemma MoveOne(s: State, s': State, p: Prim, wakes: bool, i: nat)
    requires QueueMoves(s, s', p, wakes) && i < |Waiting(s, p)|
    ensures LivePrim(s', p)
    ensures !wakes ==> i < |Waiting(s', p)| && Waiting(s', p)[i] == Waiting(s, p)[i]
    ensures wakes && i > 0 ==> i - 1 < |Waiting(s', p)| && Waiting(s', p)[i - 1] == Waiting(s, p)[i]
  {
    hide LivePrims, Waiting;
  }

  /** Waiting is first in, first out with bounded overtaking: a task with `k`
    * tasks ahead is still waiting, one place further per successful release,
    * after up to `k` of them, whatever else happens in between. */
  lemma {:induction false} BoundedOvertaking(w: World, ss: seq<State>, ops: seq<Op>, p: Prim, k: nat, n: nat)
    requires FairRun(w, ss, ops, p, n) && k < |Waiting(ss[0], p)| && Wakeups(ss, ops, p, n) <= k
    ensures Inv(w, ss[n]) && LivePrim(ss[n], p)
    ensures var i := k - Wakeups(ss, ops, p, n); i < |Waiting(ss[n], p)| && Waiting(ss[n], p)[i] == Waiting(ss[0], p)[k]
    decreases n
  {
    hide Inv, Legal, Step, QueueMoves, Fair, Waiting, LivePrim, Wakes;
    RunKeepsInv(w, ss, ops, n);
    if n > 0 {
      BoundedOvertaking(w, ss, ops, p, k, n - 1);
      CallMovesQueue(w, ss[n - 1], ops[n - 1], p);
      MoveOne(ss[n - 1], ss[n], p, Wakes(ss[n - 1], ops[n - 1], p), k - Wakeups(ss, ops, p, n - 1));
    }
  }

  /** The task with `k` tasks ahead is resumed by exactly the (k+1)-th
    * successful release. */
  lemma ResumedInTurn(w: World, ss: seq<State>, ops: seq<Op>, p: Prim, k: nat, n: nat)
    requires FairRun(w, ss, ops, p, n) && k < |Waiting(ss[0], p)| && Wakeups(ss, ops, p, n) == k
    requires n < |ops| && Wakes(ss[n], ops[n], p)
    ensures var t := Waiting(ss[0], p)[k];
            && LiveTask(ss[n], t) && t in ss[n].stop.tasks && ss[n].stop.tasks[t] == TaskStop(Stopped, p)
            && t in ss[n + 1].stop.tasks && ss[n + 1].stop.tasks[t] == TaskStop(Active, null)
  {
    hide Inv, Legal, Step, Waiting, LivePrims, LiveTasks, Wakes, FairRun, NoDup;
    BoundedOvertaking(w, ss, ops, p, k, n);
    RunIsLegal(w, ss, ops, p, n);
    InvParts(w, ss[n], p);
    WakingCall(w, ss[n], ops[n], p);
    QueueHead(w, ss[n], p);
  }

  lemma QueueHead(w: World, s: State, p: Prim)
    requires Core(w, s) && LivePrim(s, p) && Waiting(s, p) != []
    ensures var t := Waiting(s, p)[0]; LiveTask(s, t) && t in s.stop.tasks && s.stop.tasks[t] == TaskStop(Stopped, p)
  {
    hide Core, LivePrims, LiveTasks, NoDup;
    StoppedOfCore(w, s, p);
  }

  lemma RunIsLegal(w: World, ss: seq<State>, ops: seq<Op>, p: Prim, n: nat)
    requires FairRun(w, ss, ops, p, n) && n < |ops|
    ensures n + 1 < |ss| && Legal(w, ss[n], ops[n]) && ss[n + 1] == Step(ss[n], ops[n])
  {
    hide Legal, Step, Inv;
  }
}
