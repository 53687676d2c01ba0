/** Mutexes and semaphores (src/sched/mutex.c, src/sched/sem.c). */
module Sync {
  import opened Objects
  import opened Model
  import opened Invariant
  import opened Operations
  import opened Plans
  import opened Calls
  import opened Runs
  import opened Heap
  import opened Functions

  class Mutex {
    const prim: Prim

    /** sched_mutex_ctor. */
    constructor (sc: Scheduler, prim: Prim, prc: Process)
      requires sc.Valid() && Legal(sc.w, sc.S(), RegisterPrim(prc, prim))
      modifies sc, sc.w.prims, sc.w.procs
      ensures this.prim == prim && sc.Valid() && sc.S() == Step(old(sc.S()), RegisterPrim(prc, prim))
    {
      hide Core, Ok, Apply, Scheduler.Tied, Legal, Step;
      this.prim := prim;
      new;
      SingleStep(sc.w, sc.S(), RegisterPrim(prc, prim));
      sc.RegisterPrim(prc, prim);
    }

    /** sched_mutex_lock; if the mutex is locked the assignment hook picks `next`. */
    method Lock(sc: Scheduler, thread: Thread, next: Task?)
      requires sc.Valid() && Legal(sc.w, sc.S(), MutexLock(prim, thread, next))
      modifies sc, sc.w.tasks, sc.w.prims, sc.w.threads
      ensures sc.Valid() && sc.S() == Step(old(sc.S()), MutexLock(prim, thread, next))
    {
      hide Core, Ok, Apply, Scheduler.Tied, Legal, Step;
      ghost var s := sc.S();
      LockFacts(sc.w, s, prim, thread, next);
      sc.PrimRow(prim);
      sc.ThreadRow(thread);
      if prim.nbOwningTasks != 0 {
        Functions.StopThread(sc, prim, thread, next);
      } else {
        TakeLock(sc, prim, thread);
      }
    }

    /** sched_mutex_lock_nb: 1 if the locking succeeds, 0 if not. */
    method LockNb(sc: Scheduler, thread: Thread) returns (ok: nat)
      requires sc.Valid() && Legal(sc.w, sc.S(), MutexLockNb(prim, thread))
      modifies sc, sc.w.tasks, sc.w.prims
      ensures sc.Valid() && sc.S() == Step(old(sc.S()), MutexLockNb(prim, thread))
      ensures ok == if Owners(old(sc.S()), prim) == 0 then 1 else 0
    {
      hide Core, Ok, Apply, Scheduler.Tied, Legal, Step;
      ghost var s := sc.S();
      LockNbFacts(sc.w, s, prim, thread);
      sc.PrimRow(prim);
      sc.ThreadRow(thread);
      if prim.nbOwningTasks != 0 {
        return 0;
      }
      TakeLock(sc, prim, thread);
      return 1;
    }

    /** sched_mutex_unlock: 0 if unlocked, 1 if nobody owned the mutex, 2 if
      * another task did, 3 on an ownership error. */
    method Unlock(sc: Scheduler, thread: Thread) returns (code: nat)
      requires sc.Valid() && Legal(sc.w, sc.S(), MutexUnlock(prim, thread))
      modifies sc, sc.w.tasks, sc.w.prims
      ensures sc.Valid() && sc.S() == Step(old(sc.S()), MutexUnlock(prim, thread))
      ensures code == UnlockCode(old(sc.S()), prim, thread)
    {
      hide Core, Ok, Apply, Scheduler.Tied, Legal, Step, UnlockCode, ReleaseError, WakeUp, Waiting;
      ghost var s := sc.S();
      UnlockFacts(sc.w, s, prim, thread);
      sc.PrimRow(prim);
      sc.ThreadRow(thread);
      var task := thread.task;
      var owner := prim.overridden;
      if owner == null {
        return 1;
      }
      if task != owner {
        return 2;
      }
      var error := sc.ReleaseOwnership(prim, task);
      if error != 0 {
        return 3;
      }
      sc.Unoverride(prim);
      WakeFirst(sc, prim);
      return 0;
    }
  }

  /** The part of the locking functions that takes the mutex. */
  method TakeLock(sc: Scheduler, prim: Prim, thread: Thread)
    requires sc.Valid() && thread in sc.w.threads && Compatible(sc.S(), prim, Current(sc.S(), thread))
    modifies sc, sc.w.tasks, sc.w.prims
    ensures sc.Valid() && sc.S() == ApplyAll(old(sc.S()), LockPlan(old(sc.S()), prim, thread))
  {
    hide Core, Ok, Apply, Scheduler.Tied, ApplyAll, Compatible;
    ghost var s := sc.S();
    TakeLockFacts(sc.w, s, prim, thread);
    sc.ThreadRow(thread);
    sc.TakeOwnership(prim, thread.task);
    sc.Override(prim, thread.task);
  }

  lemma TakeLockFacts(w: World, s: State, p: Prim, h: Thread)
    requires Core(w, s) && Compatible(s, p, Current(s, h))
    ensures var t := Current(s, h);
            && t != null && Ok(w, s, Micro.Take(p, t)) && Compatible(Apply(s, Micro.Take(p, t)), p, t)
            && h in s.run.threads && Apply(s, Micro.Take(p, t)).run == s.run
            && ApplyAll(s, LockPlan(s, p, h)) == Apply(Apply(Apply(s, Micro.Take(p, t)), Micro.Unlink(p)), Micro.Link(p, t))
  {
    hide Core, LiveTasks, LivePrims;
    LiveObjectsExist(w, s);
    var t := Current(s, h);
    LockSteps(s, Micro.Take(p, t), Micro.Unlink(p), Micro.Link(p, t));
  }

  lemma LockSteps(s: State, m: Micro, n: Micro, k: Micro)
    ensures ApplyAll(s, [m, n, k]) == Apply(Apply(Apply(s, m), n), k)
  {
    hide Apply;
    assert [m, n, k] == [m] + [n, k] && [m][..0] == [];
    ApplyAllConcat(s, [m], [n, k]);
    ApplyPair(Apply(s, m), n, k);
  }

  lemma LockFacts(w: World, s: State, p: Prim, h: Thread, next: Task?)
    requires Core(w, s) && Legal(w, s, MutexLock(p, h, next))
    ensures p in w.prims && h in w.threads && p in s.own.prims
    ensures s.own.prims[p] != 0 ==> Legal(w, s, Op.StopThread(p, h, next)) && Step(s, MutexLock(p, h, next)) == Step(s, Op.StopThread(p, h, next))
    ensures s.own.prims[p] == 0 ==> Compatible(s, p, Current(s, h)) && Step(s, MutexLock(p, h, next)) == ApplyAll(s, LockPlan(s, p, h))
  {
    hide Core, LiveTasks, LivePrims, ApplyAll;
    LiveObjectsExist(w, s);
    KeysOfCore(w, s);
  }

  lemma LockNbFacts(w: World, s: State, p: Prim, h: Thread)
    requires Core(w, s) && Legal(w, s, MutexLockNb(p, h))
    ensures p in w.prims && h in w.threads && p in s.own.prims
    ensures s.own.prims[p] != 0 ==> Step(s, MutexLockNb(p, h)) == s
    ensures s.own.prims[p] == 0 ==> Compatible(s, p, Current(s, h)) && Step(s, MutexLockNb(p, h)) == ApplyAll(s, LockPlan(s, p, h))
  {
    hide Core, LiveTasks, LivePrims;
    LiveObjectsExist(w, s);
    KeysOfCore(w, s);
  }

  /** Resumes the first task the primitive stopped, if any. */
  method WakeFirst(sc: Scheduler, prim: Prim)
    requires sc.Valid() && LivePrim(sc.S(), prim)
    modifies sc, sc.w.tasks, sc.w.prims
    ensures sc.Valid() && sc.S() == ApplyAll(old(sc.S()), WakeUp(old(sc.S()), prim))
  {
    hide Core, Ok, Apply, Scheduler.Tied, ApplyAll;
    ghost var s := sc.S();
    WakeFacts(sc.w, s, prim);
    sc.PrimRow(prim);
    if prim.stopped != [] {
      sc.ResumeTask(prim.stopped[0]);
    }
  }

  lemma WakeFacts(w: World, s: State, p: Prim)
    requires Core(w, s) && LivePrim(s, p)
    ensures p in w.prims && p in s.stop.prims
    ensures var ts := s.stop.prims[p].stopped;
            if ts == [] then ApplyAll(s, WakeUp(s, p)) == s
            else Ok(w, s, Micro.Resume(ts[0])) && ApplyAll(s, WakeUp(s, p)) == Apply(s, Micro.Resume(ts[0]))
  {
    hide Core, Ok, Apply, LiveTasks, LivePrims;
    LiveObjectsExist(w, s);
    StoppedOfCore(w, s, p);
    if Waiting(s, p) != [] {
      OneStep(w, s, Micro.Resume(Waiting(s, p)[0]));
    }
  }

  lemma UnlockFacts(w: World, s: State, p: Prim, h: Thread)
    requires Core(w, s) && Legal(w, s, MutexUnlock(p, h))
    ensures p in w.prims && h in w.threads && p in s.over.prims && h in s.run.threads
    ensures var t, owner := s.run.threads[h].task, s.over.prims[p];
            if owner == null then Step(s, MutexUnlock(p, h)) == s && UnlockCode(s, p, h) == 1
            else if t != owner then Step(s, MutexUnlock(p, h)) == s && UnlockCode(s, p, h) == 2
            else
              && Ok(w, s, Micro.Release(p, t))
              && var s1 := Apply(s, Micro.Release(p, t));
                 if ReleaseError(s.own, p, t) != 0 then Step(s, MutexUnlock(p, h)) == s1 && UnlockCode(s, p, h) == 3
                 else
                   && Ok(w, s1, Micro.Unlink(p)) && UnlockCode(s, p, h) == 0
                   && var s2 := Apply(s1, Micro.Unlink(p));
                      LivePrim(s2, p) && Step(s, MutexUnlock(p, h)) == ApplyAll(s2, WakeUp(s2, p))
  {
    hide Core, Ok, Apply, LiveTasks, LivePrims, ReleaseError, WakeUp;
    LiveObjectsExist(w, s);
    KeysOfCore(w, s);
    OverriddenOfCore(w, s, p);
    var t, owner := Current(s, h), Overridden(s, p);
    if owner != null && t == owner {
      ReleaseOk(w, s, p, t);
      OneStep(w, s, Micro.Release(p, t));
      var s1 := Apply(s, Micro.Release(p, t));
      if ReleaseError(s.own, p, t) == 0 {
        UnlinkOk(w, s1, p);
        var s2 := Apply(s1, Micro.Unlink(p));
        SameWakeUp(s, s2, p);
        ApplyPair(s, Micro.Release(p, t), Micro.Unlink(p));
        ApplyAllConcat(s, [Micro.Release(p, t), Micro.Unlink(p)], WakeUp(s, p));
      }
    }
  }

  class Semaphore {
    const prim: Prim
    const limit: nat

    /** sched_sem_ctor. */
    constructor (sc: Scheduler, prim: Prim, limit: nat, prc: Process)
      requires sc.Valid() && Legal(sc.w, sc.S(), RegisterPrim(prc, prim))
      modifies sc, sc.w.prims, sc.w.procs
      ensures this.prim == prim && this.limit == limit && sc.Valid() && sc.S() == Step(old(sc.S()), RegisterPrim(prc, prim))
    {
      hide Core, Ok, Apply, Scheduler.Tied, Legal, Step;
      this.prim := prim;
      this.limit := limit;
      new;
      SingleStep(sc.w, sc.S(), RegisterPrim(prc, prim));
      sc.RegisterPrim(prc, prim);
    }

    /** sched_sem_take; if no unit is left the assignment hook picks `next`. */
    method Take(sc: Scheduler, thread: Thread, next: Task?)
      requires sc.Valid() && Legal(sc.w, sc.S(), SemTake(prim, limit, thread, next))
      modifies sc, sc.w.tasks, sc.w.prims, sc.w.threads
      ensures sc.Valid() && sc.S() == Step(old(sc.S()), SemTake(prim, limit, thread, next))
    {
      hide Core, Ok, Apply, Scheduler.Tied, Legal, Step;
      SemTakeFacts(sc.w, sc.S(), prim, limit, thread, next);
      sc.PrimRow(prim);
      sc.ThreadRow(thread);
      if prim.nbOwningTasks == limit {
        Functions.StopThread(sc, prim, thread, next);
      } else {
        sc.TakeOwnership(prim, thread.task);
      }
    }

    /** sched_sem_take_nb: 1 if the taking succeeds, 0 if not. */
    method TakeNb(sc: Scheduler, thread: Thread) returns (ok: nat)
      requires sc.Valid() && Legal(sc.w, sc.S(), SemTakeNb(prim, limit, thread))
      modifies sc, sc.w.tasks, sc.w.prims
      ensures sc.Valid() && sc.S() == Step(old(sc.S()), SemTakeNb(prim, limit, thread))
      ensures ok == if Owners(old(sc.S()), prim) == limit then 0 else 1
    {
      hide Core, Ok, Apply, Scheduler.Tied, Legal, Step;
      SemTakeNbFacts(sc.w, sc.S(), prim, limit, thread);
      sc.PrimRow(prim);
      sc.ThreadRow(thread);
      if prim.nbOwningTasks == limit {
        return 0;
      }
      sc.TakeOwnership(prim, thread.task);
      return 1;
    }

    /** sched_sem_release: 0 if released, 1 on an ownership error. */
    method Release(sc: Scheduler, thread: Thread) returns (code: nat)
      requires sc.Valid() && Legal(sc.w, sc.S(), SemRelease(prim, thread))
      modifies sc, sc.w.tasks, sc.w.prims
      ensures sc.Valid() && sc.S() == Step(old(sc.S()), SemRelease(prim, thread))
      ensures code == SemReleaseCode(old(sc.S()), prim, thread)
    {
      hide Core, Ok, Apply, Scheduler.Tied, Legal, Step, ReleaseError, WakeUp, Waiting;
      SemReleaseFacts(sc.w, sc.S(), prim, thread);
      sc.PrimRow(prim);
      sc.ThreadRow(thread);
      var error := sc.ReleaseOwnership(prim, thread.task);
      if error != 0 {
        return 1;
      }
      WakeFirst(sc, prim);
      return 0;
    }
  }

  lemma SemTakeFacts(w: World, s: State, p: Prim, limit: nat, h: Thread, next: Task?)
    requires Core(w, s) && Legal(w, s, SemTake(p, limit, h, next))
    ensures p in w.prims && h in w.threads && p in s.own.prims && h in s.run.threads
    ensures s.own.prims[p] == limit ==>
              Legal(w, s, Op.StopThread(p, h, next)) && Step(s, SemTake(p, limit, h, next)) == Step(s, Op.StopThread(p, h, next))
    ensures s.own.prims[p] != limit ==>
              var t := s.run.threads[h].task;
              t != null && Ok(w, s, Micro.Take(p, t)) && Step(s, SemTake(p, limit, h, next)) == Apply(s, Micro.Take(p, t))
  {
    hide Core, LiveTasks, LivePrims, ApplyAll, Apply;
    LiveObjectsExist(w, s);
    KeysOfCore(w, s);
    if s.own.prims[p] != limit {
      OneStep(w, s, Micro.Take(p, Current(s, h)));
    }
  }

  lemma SemTakeNbFacts(w: World, s: State, p: Prim, limit: nat, h: Thread)
    requires Core(w, s) && Legal(w, s, SemTakeNb(p, limit, h))
    ensures p in w.prims && h in w.threads && p in s.own.prims && h in s.run.threads
    ensures s.own.prims[p] == limit ==> Step(s, SemTakeNb(p, limit, h)) == s
    ensures s.own.prims[p] != limit ==>
              var t := s.run.threads[h].task;
              t != null && Ok(w, s, Micro.Take(p, t)) && Step(s, SemTakeNb(p, limit, h)) == Apply(s, Micro.Take(p, t))
  {
    hide Core, LiveTasks, LivePrims, Apply;
    LiveObjectsExist(w, s);
    KeysOfCore(w, s);
    if s.own.prims[p] != limit {
      OneStep(w, s, Micro.Take(p, Current(s, h)));
    }
  }

  lemma SemReleaseFacts(w: World, s: State, p: Prim, h: Thread)
    requires Core(w, s) && Legal(w, s, SemRelease(p, h))
    ensures p in w.prims && h in w.threads && h in s.run.threads
    ensures var t := s.run.threads[h].task;
            && t != null && Ok(w, s, Micro.Release(p, t)) && SemReleaseCode(s, p, h) == ReleaseError(s.own, p, t)
            && (ReleaseError(s.own, p, t) == 0 || ReleaseError(s.own, p, t) == 1)
            && var s1 := Apply(s, Micro.Release(p, t));
               if ReleaseError(s.own, p, t) != 0 then Step(s, SemRelease(p, h)) == s1
               else LivePrim(s1, p) && Step(s, SemRelease(p, h)) == ApplyAll(s1, WakeUp(s1, p))
  {
    hide Core, Ok, Apply, LiveTasks, LivePrims, WakeUp;
    LiveObjectsExist(w, s);
    KeysOfCore(w, s);
    var t := Current(s, h);
    ReleaseOk(w, s, p, t);
    OneStep(w, s, Micro.Release(p, t));
    var s1 := Apply(s, Micro.Release(p, t));
    SameWakeUp(s, s1, p);
    ApplyAllConcat(s, [Micro.Release(p, t)], WakeUp(s, p));
  }
}
