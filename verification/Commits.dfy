/** The commit index (src/sched/sched.c:12-25, 1015-1048): opening a commit by
  * one increment clears every activity flag at once. */
module Commits {
  import opened Objects
  import opened Marking
  import opened Model
  import opened Invariant
  import opened Operations
  import opened Calls
  import opened Runs
  import opened Witnesses

  ghost predicate TaskActive(g: Execution, t: Task) {
    t in g.tasks && g.tasks[t].commit == g.index
  }

  /** The registered objects whose activity check succeeds. */
  datatype Flags = Flags(tasks: set<Task>, threads: set<Thread>)

  ghost function ActivityFlags(s: State): Flags {
    Flags(set t | t in LiveTasks(s.reg) && TaskActive(s.run, t), set h | h in s.run.list && ThreadActive(s.run, h))
  }

  const NONE: Flags := Flags({}, {})

  /** While a commit is open every flag is clear. */
  lemma CommittingIsClear(w: World, s: State)
    requires Core(w, s) && s.run.committing
    ensures ActivityFlags(s) == NONE
  {
    hide Core, LiveTasks, LivePrims;
    CommittingIsIdle(w, s);
    forall t | t in LiveTasks(s.reg)
      ensures !TaskActive(s.run, t)
    {
      CommitOfLive(w, s, t);
    }
  }

  /** Opening a commit changes nothing but the commit state, and all flags are
    * clear afterwards: the increment refines clearing each flag. */
  lemma OpeningClearsFlags(w: World, s: State)
    requires Core(w, s) && Legal(w, s, Op.OpenCommit)
    ensures var s' := Step(s, Op.OpenCommit);
            ActivityFlags(s') == NONE && s' == s.(run := s.run.(committing := true, index := s.run.index + 1))
  {
    hide Core, ApplyAll, ActivityFlags;
    IndexOfCore(w, s);
    OneStep(w, s, Micro.OpenCommit);
    CallKeepsCore(w, s, Op.OpenCommit);
    CommittingIsClear(w, Step(s, Op.OpenCommit));
  }

  lemma CommittingLasts(s: State, op: Op)
    requires s.run.committing && !op.CloseCommit?
    ensures Step(s, op).run.committing
  {
    hide Owners, Overridden, ReleaseError, Waiting, ActiveOf, Current, ApplyAll;
    assert forall m :: m in Plan(s, op) ==> !m.CloseCommit?;
    hide Plan;
    StaysCommitting(s, Plan(s, op));
  }

  /** From the opening of a commit until it is closed, no task and no thread is
    * active, whatever is called in between. */
  lemma {:induction false} ClearUntilClosed(w: World, ss: seq<State>, ops: seq<Op>, i: nat, n: nat)
    requires IsRun(w, ss, ops) && Inv(w, ss[0]) && i < n <= |ops| && ops[i].OpenCommit?
    requires forall k :: i < k < n ==> !ops[k].CloseCommit?
    ensures ss[n].run.committing && ActivityFlags(ss[n]) == NONE
    decreases n
  {
    hide Inv, Legal, Step, ActivityFlags;
    RunKeepsInv(w, ss, ops, n);
    RunKeepsInv(w, ss, ops, n - 1);
    InvIsCore(w, ss[n]);
    InvIsCore(w, ss[n - 1]);
    if i == n - 1 {
      OpeningClearsFlags(w, ss[i]);
    } else {
      ClearUntilClosed(w, ss, ops, i, n - 1);
      CommittingLasts(ss[n - 1], ops[n - 1]);
      CommittingIsClear(w, ss[n]);
    }
  }

  // ------------------------------------------------- at the largest index

  /** Without the bound on the index, the increment clears the flags if and only
    * if the new index is not the "never active" mark, or no registered task
    * carries that mark. */
  lemma OpeningClearsFlagsIff(w: World, s: State)
    requires Core(w, s) && !s.run.committing
    ensures ActivityFlags(Apply(s, Micro.OpenCommit)) == NONE <==>
            s.run.index + 1 != USIZE_MAX || forall t :: t in LiveTasks(s.reg) && t in s.run.tasks ==> s.run.tasks[t].commit != USIZE_MAX
  {
    var s' := Apply(s, Micro.OpenCommit);
    IndexOfCore(w, s);
    hide Core, LiveTasks, LivePrims;
    forall t | t in LiveTasks(s.reg)
      ensures t in s.run.tasks && (TaskActive(s'.run, t) <==> s.run.index + 1 == USIZE_MAX && s.run.tasks[t].commit == USIZE_MAX)
    {
      CommitOfLive(w, s, t);
    }
    forall h | h in s.run.list
      ensures !ThreadActive(s'.run, h)
    {
      ThreadCommit(w, s, h);
    }
    if t :| t in LiveTasks(s.reg) && t in s.run.tasks && s.run.tasks[t].commit == USIZE_MAX && s.run.index + 1 == USIZE_MAX {
      assert t in ActivityFlags(s').tasks;
    }
  }

  lemma ThreadCommit(w: World, s: State, h: Thread)
    requires Core(w, s) && h in s.run.list
    ensures h in s.run.threads && CommitOk(s.run, s.run.threads[h].commit)
    ensures s.run.threads[h].task == null <==> s.run.threads[h].commit == USIZE_MAX
  {
    hide LiveTasks, LivePrims, RegistryOk, StopOk, OverOk, OwnOk, SameProcess, ClosedBut;
  }

  /** A concrete failure: at the last index before the mark, with one registered
    * task that never ran, opening a commit makes that task active. */
  lemma NeverRunTaskBecomesActive(t: Task, p: Prim, c: Process)
    ensures var w, s := World({t}, {p}, {c}, {}), AtIndex(t, p, c, USIZE_MAX - 1);
            && Inv(w, s) && LiveTask(s, t) && !s.run.committing
            && t in ActivityFlags(Apply(s, Micro.OpenCommit)).tasks && ActivityFlags(Apply(s, Micro.OpenCommit)) != NONE
  {
    hide Inv, LiveTasks;
    AtIndexInv(t, p, c, USIZE_MAX - 1);
  }
}
