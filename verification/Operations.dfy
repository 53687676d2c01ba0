/** The public functions as plans: the elementary steps a call takes, computed
  * from the state at its start. */
module Operations {
  import opened Objects
  import opened Marking
  import opened Model
  import opened Invariant

  /** A call of a public function. `next` is what the policy hook assigns to
    * the thread; `cleared` and `plan` are what the hooks do when a commit closes. */
  datatype Op =
    | RegisterThread(h: Thread)
    | UnregisterThread(h: Thread)
    | RegisterProcess(c: Process)
    | UnregisterProcess(c: Process)
    | RegisterTask(c: Process, t: Task)
    | UnregisterTask(h: Thread, next: Task?)
    | RegisterPrim(c: Process, p: Prim)
    | UnregisterPrim(p: Prim)
    | TakeOwnership(p: Prim, t: Task)
    | ReleaseOwnership(p: Prim, t: Task)
    | OverrideTask(p: Prim, t: Task)
    | UnoverrideTask(p: Prim)
    | ResumeTask(t: Task)
    | StopThread(p: Prim, h: Thread, next: Task?)
    | PauseProcess(c: Process)
    | ResumeProcess(c: Process)
    | OpenCommit
    | CloseCommit(cleared: Marks, plan: seq<(Thread, Task?)>)
    | MutexLock(p: Prim, h: Thread, next: Task?)
    | MutexLockNb(p: Prim, h: Thread)
    | MutexUnlock(p: Prim, h: Thread)
    | SemTake(p: Prim, limit: int, h: Thread, next: Task?)
    | SemTakeNb(p: Prim, limit: int, h: Thread)
    | SemRelease(p: Prim, h: Thread)

  // ----------------------------------------------------------------- plans

  function Resumes(ts: seq<Task>): seq<Micro> {
    seq(|ts|, i requires 0 <= i < |ts| => Micro.Resume(ts[i]))
  }

  function Stops(p: Prim, ts: seq<Task>): seq<Micro> {
    seq(|ts|, i requires 0 <= i < |ts| => Micro.Stop(p, ts[i]))
  }

  function Unlinks(ps: seq<Prim>): seq<Micro> {
    seq(|ps|, i requires 0 <= i < |ps| => Micro.Unlink(ps[i]))
  }

  function Detaches(ts: seq<Task>): seq<Micro> {
    seq(|ts|, i requires 0 <= i < |ts| => Micro.Detach(ts[i]))
  }

  function Assigns(plan: seq<(Thread, Task?)>): seq<Micro> {
    seq(|plan|, i requires 0 <= i < |plan| => Micro.Assign(plan[i].0, plan[i].1))
  }

  function Current(s: State, h: Thread): Task? {
    if h in s.run.threads then s.run.threads[h].task else null
  }

  function Overridden(s: State, p: Prim): Task? {
    if p in s.over.prims then s.over.prims[p] else null
  }

  function Owners(s: State, p: Prim): int {
    if p in s.own.prims then s.own.prims[p] else 0
  }

  function Owned(s: State, t: Task?): int {
    if t in s.own.tasks then s.own.tasks[t] else 0
  }

  function Waiting(s: State, p: Prim): seq<Task> {
    if p in s.stop.prims then s.stop.prims[p].stopped else []
  }

  /** The head of the waiting list, if any. */
  function WakeUp(s: State, p: Prim): seq<Micro> {
    if Waiting(s, p) == [] then [] else [Micro.Resume(Waiting(s, p)[0])]
  }

  function StopPlan(s: State, p: Prim, h: Thread, next: Task?): seq<Micro> {
    if Current(s, h) == null then [] else [Micro.Stop(p, Current(s, h)), Micro.Assign(h, next)]
  }

  function LockPlan(s: State, p: Prim, h: Thread): seq<Micro> {
    if Current(s, h) == null then []
    else [Micro.Take(p, Current(s, h)), Micro.Unlink(p), Micro.Link(p, Current(s, h))]
  }

  function UnregisterPlan(s: State, h: Thread, t: Task, next: Task?): seq<Micro> {
    (if t in s.stop.tasks && s.stop.tasks[t].status == Stopped then [Micro.Resume(t)] else [])
    + Unlinks(if t in s.over.tasks then s.over.tasks[t].overriders else [])
    + [Micro.Detach(t), Micro.DropTask(t), Micro.Assign(h, next)]
  }

  /** The return value of sched_mutex_unlock. */
  function UnlockCode(s: State, p: Prim, h: Thread): nat {
    var owner := Overridden(s, p);
    if owner == null then 1
    else if Current(s, h) != owner then 2
    else if ReleaseError(s.own, p, owner) != 0 then 3
    else 0
  }

  function UnlockPlan(s: State, p: Prim, h: Thread): seq<Micro> {
    var owner := Overridden(s, p);
    if owner == null || Current(s, h) != owner then []
    else if ReleaseError(s.own, p, owner) != 0 then [Micro.Release(p, owner)]
    else [Micro.Release(p, owner), Micro.Unlink(p)] + WakeUp(s, p)
  }

  /** The return value of sched_sem_release. */
  function SemReleaseCode(s: State, p: Prim, h: Thread): nat {
    var t := Current(s, h);
    if t == null then 1 else ReleaseError(s.own, p, t)
  }

  function SemReleasePlan(s: State, p: Prim, h: Thread): seq<Micro> {
    var t := Current(s, h);
    if t == null then []
    else if ReleaseError(s.own, p, t) != 0 then [Micro.Release(p, t)]
    else [Micro.Release(p, t)] + WakeUp(s, p)
  }

  function SemTakePlan(s: State, p: Prim, h: Thread): seq<Micro> {
    if Current(s, h) == null then [] else [Micro.Take(p, Current(s, h))]
  }

  /** The return value of process_unregister_task and process_unregister_prim: 1
    * if something is still owned. */
  function UnregisterCode(s: State, op: Op): nat {
    match op
    case UnregisterTask(h, _) => if Owned(s, Current(s, h)) != 0 then 1 else 0
    case UnregisterPrim(p) => if Owners(s, p) != 0 then 1 else 0
    case _ => 0
  }

  function Plan(s: State, op: Op): seq<Micro> {
    match op
    case RegisterThread(h) => [Micro.AddThread(h)]
    case UnregisterThread(h) =>
      Detaches(if h in s.run.threads then s.run.threads[h].history else []) + [Micro.DropThread(h)]
    case RegisterProcess(c) => [Micro.AddProcess(c), Micro.AddPrim(c, c.prim)]
    case UnregisterProcess(c) => [Micro.DropProcess(c)]
    case RegisterTask(c, t) => [Micro.AddTask(c, t)]
    case UnregisterTask(h, next) =>
      if Current(s, h) == null then [] else UnregisterPlan(s, h, Current(s, h), next)
    case RegisterPrim(c, p) => [Micro.AddPrim(c, p)]
    case UnregisterPrim(p) => Resumes(Waiting(s, p)) + [Micro.Unlink(p), Micro.DropPrim(p)]
    case TakeOwnership(p, t) => [Micro.Take(p, t)]
    case ReleaseOwnership(p, t) => [Micro.Release(p, t)]
    case OverrideTask(p, t) => [Micro.Unlink(p), Micro.Link(p, t)]
    case UnoverrideTask(p) => [Micro.Unlink(p)]
    case ResumeTask(t) => [Micro.Resume(t)]
    case StopThread(p, h, next) => StopPlan(s, p, h, next)
    case PauseProcess(c) =>
      Stops(c.prim, ActiveOf(s.stop, if c in s.reg.procs then s.reg.procs[c].tasks else [])) + [Micro.SetStatus(c, Stopped)]
    case ResumeProcess(c) => Resumes(Waiting(s, c.prim)) + [Micro.SetStatus(c, Active)]
    case OpenCommit => [Micro.OpenCommit]
    case CloseCommit(cleared, plan) => [Micro.CloseCommit, Micro.ClearMarks(cleared)] + Assigns(plan)
    case MutexLock(p, h, next) => if Owners(s, p) != 0 then StopPlan(s, p, h, next) else LockPlan(s, p, h)
    case MutexLockNb(p, h) => if Owners(s, p) != 0 then [] else LockPlan(s, p, h)
    case MutexUnlock(p, h) => UnlockPlan(s, p, h)
    case SemTake(p, limit, h, next) => if Owners(s, p) == limit then StopPlan(s, p, h, next) else SemTakePlan(s, p, h)
    case SemTakeNb(p, limit, h) => if Owners(s, p) == limit then [] else SemTakePlan(s, p, h)
    case SemRelease(p, h) => SemReleasePlan(s, p, h)
  }

  function Step(s: State, op: Op): State {
    ApplyAll(s, Plan(s, op))
  }

  // ------------------------------------------------------------ legal calls

  ghost predicate Assignable(s: State, a: Task?, t: Task?) {
    a != null ==> ActiveTask(s, a) && a != t
  }

  /** The checks of primitive_stop_thread, and the contract of s_assign_one. */
  ghost predicate CanStop(s: State, p: Prim, h: Thread, next: Task?) {
    var t := Current(s, h);
    && h in s.run.list && Compatible(s, p, t) && t in s.run.tasks && s.run.tasks[t].commit == s.run.index
    && Assignable(s, next, t)
  }

  /** The checks each function makes on its arguments, the contracts of the
    * hooks, and that objects being registered are not linked anywhere. */
  ghost predicate Legal(w: World, s: State, op: Op) {
    match op
    case RegisterThread(h) => h in w.threads && h !in s.run.list
    case UnregisterThread(h) => h in s.run.list && s.run.committing
    case RegisterProcess(c) => c in w.procs && c !in s.reg.list && c.prim in w.prims && !LivePrim(s, c.prim)
    case UnregisterProcess(c) => c in s.reg.list && s.run.committing
    case RegisterTask(c, t) => Ok(w, s, Micro.AddTask(c, t))
    case UnregisterTask(h, next) =>
      var t := Current(s, h);
      && h in s.run.list && LiveTask(s, t) && s.run.threads[h].commit == s.run.index && Assignable(s, next, t)
    case RegisterPrim(c, p) => c in s.reg.list && p in w.prims && !LivePrim(s, p)
    case UnregisterPrim(p) => LivePrim(s, p)
    case TakeOwnership(p, t) => Compatible(s, p, t)
    case ReleaseOwnership(p, t) => Compatible(s, p, t)
    case OverrideTask(p, t) => Compatible(s, p, t)
    case UnoverrideTask(p) => LivePrim(s, p)
    case ResumeTask(t) => Ok(w, s, Micro.Resume(t))
    case StopThread(p, h, next) => CanStop(s, p, h, next)
    case PauseProcess(c) =>
      && c in s.reg.list && c in s.reg.procs && s.run.committing && s.reg.procs[c].status == Active
      && LivePrim(s, c.prim) && s.reg.prims[c.prim] == c
    case ResumeProcess(c) =>
      && c in s.reg.list && c in s.reg.procs && s.run.committing && s.reg.procs[c].status == Stopped
      && LivePrim(s, c.prim) && s.reg.prims[c.prim] == c
    case OpenCommit => !s.run.committing && s.run.index + 1 < USIZE_MAX
    case CloseCommit(cleared, plan) =>
      && s.run.committing && Ok(w, s, Micro.ClearMarks(cleared))
      && forall i :: 0 <= i < |plan| ==> plan[i].0 in s.run.list && Assignable(s, plan[i].1, null)
    case MutexLock(p, h, next) =>
      if Owners(s, p) != 0 then CanStop(s, p, h, next) else h in s.run.list && Compatible(s, p, Current(s, h))
    case MutexLockNb(p, h) =>
      h in s.run.list && LivePrim(s, p) && (Owners(s, p) == 0 ==> Compatible(s, p, Current(s, h)))
    case MutexUnlock(p, h) =>
      h in s.run.list && LivePrim(s, p) && (Overridden(s, p) != null && Current(s, h) == Overridden(s, p) ==> Compatible(s, p, Current(s, h)))
    case SemTake(p, limit, h, next) =>
      if Owners(s, p) == limit then CanStop(s, p, h, next) else h in s.run.list && Compatible(s, p, Current(s, h))
    case SemTakeNb(p, limit, h) =>
      h in s.run.list && LivePrim(s, p) && (Owners(s, p) != limit ==> Compatible(s, p, Current(s, h)))
    case SemRelease(p, h) => h in s.run.list && Compatible(s, p, Current(s, h))
  }
}
