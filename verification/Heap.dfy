/** The scheduler as it is in memory: objects whose fields and lists the
  * functions of src/sched/sched.c update in place, tied row by row to the state
  * the specification speaks of. */
module Heap {
  import opened Lists
  import opened Objects
  import opened Marking
  import opened Model
  import opened Invariant
  import opened Plans
  import opened Calls
  import opened Runs
  import opened Structure

  class Scheduler {
    var commitOpened: bool
    var commitIndex: int
    var actives: seq<Task>
    var processes: seq<Process>
    var nbProcesses: int
    var threads: seq<Thread>
    var nbThreads: int

    ghost const w: World
    ghost var reg: Registry
    ghost var stop: StopGraph
    ghost var over: OverGraph
    ghost var run: Execution
    ghost var own: Ownership
    ghost var marks: Marks

    /** An idle scheduler over the objects of `w`, none of which is registered. */
    constructor (ghost w: World)
      ensures this.w == w && Valid() && Inv(w, S()) && S() == Initial(S())
    {
      hide Inv, Core, RunActiveBut, Sized, Initial, Rows, RowsOf, Tied;
      this.w := w;
      commitOpened, commitIndex := false, 0;
      actives, processes, nbProcesses, threads, nbThreads := [], [], 0, [], 0;
      ghost var s := Rows(w);
      reg, stop, over, run, own, marks := s.reg, s.stop, s.over, s.run, s.own, s.marks;
      new;
      RowsFacts(w);
      RowsAreTied();
      IdleFacts(w, S());
      InvIsCore(w, S());
    }

    lemma RowsAreTied()
      requires RowsOf(w, S()) && commitOpened == false && commitIndex == 0
      requires actives == [] && processes == [] && nbProcesses == 0 && threads == [] && nbThreads == 0
      ensures Tied()
    {
    }

    ghost function S(): State
      reads this`reg, this`stop, this`over, this`run, this`own, this`marks
    {
      State(reg, stop, over, run, own, marks)
    }

    ghost predicate RegTied()
      reads this`reg, this`processes, this`nbProcesses, w.tasks`process, w.prims`process,
            w.procs`tasks, w.procs`nbTasks, w.procs`primitives, w.procs`nbPrimitives, w.procs`status
    {
      && reg.tasks.Keys == w.tasks && reg.prims.Keys == w.prims && reg.procs.Keys == w.procs
      && reg.list == processes && reg.count == nbProcesses
      && (forall t :: t in w.tasks ==> reg.tasks[t] == t.process)
      && (forall p :: p in w.prims ==> reg.prims[p] == p.process)
      && (forall c :: c in w.procs ==> reg.procs[c] == ProcessReg(c.tasks, c.nbTasks, c.primitives, c.nbPrimitives, c.status))
    }

    ghost predicate StopTied()
      reads this`stop, this`actives, w.tasks`status, w.tasks`stopper, w.prims`stopped, w.prims`nbStoppedTasks
    {
      && stop.tasks.Keys == w.tasks && stop.prims.Keys == w.prims && stop.actives == actives
      && (forall t :: t in w.tasks ==> stop.tasks[t] == TaskStop(t.status, t.stopper))
      && (forall p :: p in w.prims ==> stop.prims[p] == PrimStop(p.stopped, p.nbStoppedTasks))
    }

    ghost predicate OverTied()
      reads this`over, w.tasks`overriders, w.tasks`nbOverrides, w.prims`overridden
    {
      && over.tasks.Keys == w.tasks && over.prims.Keys == w.prims
      && (forall t :: t in w.tasks ==> over.tasks[t] == TaskOver(t.overriders, t.nbOverrides))
      && (forall p :: p in w.prims ==> over.prims[p] == p.overridden)
    }

    ghost predicate RunTied()
      reads this`run, this`threads, this`nbThreads, this`commitIndex, this`commitOpened, w.tasks`thread, w.tasks`commit,
            w.threads`task, w.threads`commit, w.threads`history, w.threads`historySize
    {
      && run.tasks.Keys == w.tasks && run.threads.Keys == w.threads
      && run.list == threads && run.count == nbThreads && run.index == commitIndex && run.committing == commitOpened
      && (forall t :: t in w.tasks ==> run.tasks[t] == TaskRun(t.thread, t.commit))
      && (forall h :: h in w.threads ==> run.threads[h] == ThreadRun(h.task, h.commit, h.history, h.historySize))
    }

    ghost predicate OwnTied()
      reads this`own, w.tasks`nbOwnedPrimitives, w.prims`nbOwningTasks
    {
      && own.tasks.Keys == w.tasks && own.prims.Keys == w.prims
      && (forall t :: t in w.tasks ==> own.tasks[t] == t.nbOwnedPrimitives)
      && (forall p :: p in w.prims ==> own.prims[p] == p.nbOwningTasks)
    }

    ghost predicate MarksTied()
      reads this`marks, w.tasks`updated, w.prims`updated
    {
      && (forall t :: t in w.tasks ==> (t.updated <==> t in marks.tasks))
      && (forall p :: p in w.prims ==> (p.updated <==> p in marks.prims))
    }

    /** The objects in memory are those of the specification's state. */
    ghost predicate Tied()
      reads this, w.tasks, w.prims, w.procs, w.threads
    {
      RegTied() && StopTied() && OverTied() && RunTied() && OwnTied() && MarksTied()
    }

    ghost predicate Valid()
      reads this, w.tasks, w.prims, w.procs, w.threads
    {
      Tied() && Core(w, S())
    }

    // One group tied, and all the others: what an update of the group leaves as it was.

    ghost predicate ButReg()
      reads this`stop, this`actives, w.tasks`status, w.tasks`stopper, w.prims`stopped, w.prims`nbStoppedTasks
      reads this`over, w.tasks`overriders, w.tasks`nbOverrides, w.prims`overridden
      reads this`run, this`threads, this`nbThreads, this`commitIndex, this`commitOpened, w.tasks`thread, w.tasks`commit,
            w.threads`task, w.threads`commit, w.threads`history, w.threads`historySize
      reads this`own, w.tasks`nbOwnedPrimitives, w.prims`nbOwningTasks
      reads this`marks, w.tasks`updated, w.prims`updated
    {
      StopTied() && OverTied() && RunTied() && OwnTied() && MarksTied()
    }

    ghost predicate ButStop()
      reads this`reg, this`processes, this`nbProcesses, w.tasks`process, w.prims`process,
            w.procs`tasks, w.procs`nbTasks, w.procs`primitives, w.procs`nbPrimitives, w.procs`status
      reads this`over, w.tasks`overriders, w.tasks`nbOverrides, w.prims`overridden
      reads this`run, this`threads, this`nbThreads, this`commitIndex, this`commitOpened, w.tasks`thread, w.tasks`commit,
            w.threads`task, w.threads`commit, w.threads`history, w.threads`historySize
      reads this`own, w.tasks`nbOwnedPrimitives, w.prims`nbOwningTasks
      reads this`marks, w.tasks`updated, w.prims`updated
    {
      RegTied() && OverTied() && RunTied() && OwnTied() && MarksTied()
    }

    ghost predicate ButOver()
      reads this`reg, this`processes, this`nbProcesses, w.tasks`process, w.prims`process,
            w.procs`tasks, w.procs`nbTasks, w.procs`primitives, w.procs`nbPrimitives, w.procs`status
      reads this`stop, this`actives, w.tasks`status, w.tasks`stopper, w.prims`stopped, w.prims`nbStoppedTasks
      reads this`run, this`threads, this`nbThreads, this`commitIndex, this`commitOpened, w.tasks`thread, w.tasks`commit,
            w.threads`task, w.threads`commit, w.threads`history, w.threads`historySize
      reads this`own, w.tasks`nbOwnedPrimitives, w.prims`nbOwningTasks
      reads this`marks, w.tasks`updated, w.prims`updated
    {
      RegTied() && StopTied() && RunTied() && OwnTied() && MarksTied()
    }

    ghost predicate ButRun()
      reads this`reg, this`processes, this`nbProcesses, w.tasks`process, w.prims`process,
            w.procs`tasks, w.procs`nbTasks, w.procs`primitives, w.procs`nbPrimitives, w.procs`status
      reads this`stop, this`actives, w.tasks`status, w.tasks`stopper, w.prims`stopped, w.prims`nbStoppedTasks
      reads this`over, w.tasks`overriders, w.tasks`nbOverrides, w.prims`overridden
      reads this`own, w.tasks`nbOwnedPrimitives, w.prims`nbOwningTasks
      reads this`marks, w.tasks`updated, w.prims`updated
    {
      RegTied() && StopTied() && OverTied() && OwnTied() && MarksTied()
    }

    lemma SplitReg()
      ensures Tied() <==> RegTied() && ButReg()
    {
      hide RegTied, StopTied, OverTied, RunTied, OwnTied, MarksTied;
    }

    lemma SplitStop()
      ensures Tied() <==> StopTied() && ButStop()
    {
      hide RegTied, StopTied, OverTied, RunTied, OwnTied, MarksTied;
    }

    lemma SplitOver()
      ensures Tied() <==> OverTied() && ButOver()
    {
      hide RegTied, StopTied, OverTied, RunTied, OwnTied, MarksTied;
    }

    lemma SplitRun()
      ensures Tied() <==> RunTied() && ButRun()
    {
      hide RegTied, StopTied, OverTied, RunTied, OwnTied, MarksTied;
    }

    // The rows of the objects.

    lemma TaskRow(t: Task)
      requires Tied() && t in w.tasks
      ensures t in reg.tasks && reg.tasks[t] == t.process
      ensures t in stop.tasks && stop.tasks[t] == TaskStop(t.status, t.stopper)
      ensures t in over.tasks && over.tasks[t] == TaskOver(t.overriders, t.nbOverrides)
      ensures t in run.tasks && run.tasks[t] == TaskRun(t.thread, t.commit)
      ensures t in own.tasks && own.tasks[t] == t.nbOwnedPrimitives
    {
    }

    lemma PrimRow(p: Prim)
      requires Tied() && p in w.prims
      ensures p in reg.prims && reg.prims[p] == p.process
      ensures p in stop.prims && stop.prims[p] == PrimStop(p.stopped, p.nbStoppedTasks)
      ensures p in over.prims && over.prims[p] == p.overridden
      ensures p in own.prims && own.prims[p] == p.nbOwningTasks
    {
    }

    lemma ThreadRow(h: Thread)
      requires Tied() && h in w.threads
      ensures h in run.threads && run.threads[h] == ThreadRun(h.task, h.commit, h.history, h.historySize)
    {
    }

    lemma ProcessRow(c: Process)
      requires Tied() && c in w.procs
      ensures c in reg.procs && reg.procs[c] == ProcessReg(c.tasks, c.nbTasks, c.primitives, c.nbPrimitives, c.status)
    {
    }

    // ------------------------------------------------------ update propagation

    lemma TaskParent(lt: set<Task>, lp: set<Prim>, t: Task)
      requires Tied() && LiveEdges(EdgesOf(stop, over), lt, lp) && t in lt
      ensures t in w.tasks && Known(EdgesOf(stop, over), TaskNode(t))
      ensures Parent(EdgesOf(stop, over), TaskNode(t)) == (if t.stopper == null then Root else PrimNode(t.stopper))
      ensures t.stopper != null ==> t.stopper in lp
    {
      hide RegTied, RunTied, OwnTied, MarksTied;
    }

    lemma PrimParent(lt: set<Task>, lp: set<Prim>, p: Prim)
      requires Tied() && LiveEdges(EdgesOf(stop, over), lt, lp) && p in lp
      ensures p in w.prims && Known(EdgesOf(stop, over), PrimNode(p))
      ensures Parent(EdgesOf(stop, over), PrimNode(p)) == (if p.overridden == null then Root else TaskNode(p.overridden))
      ensures p.overridden != null ==> p.overridden in lt
    {
      hide RegTied, RunTied, OwnTied, MarksTied;
    }

    /** Sets the update flag of a task, unless it is set. */
    method MarkTask(t: Task) returns (found: bool)
      requires Tied() && t in w.tasks
      modifies this`marks, t`updated
      ensures Tied() && found == Marked(old(marks), TaskNode(t))
      ensures S() == old(S()).(marks := if found then old(marks) else Mark(old(marks), TaskNode(t)))
    {
      hide RegTied, StopTied, OverTied, RunTied, OwnTied;
      found := t.updated;
      if !found {
        t.updated := true;
        marks := Mark(marks, TaskNode(t));
      }
    }

    method MarkPrim(p: Prim) returns (found: bool)
      requires Tied() && p in w.prims
      modifies this`marks, p`updated
      ensures Tied() && found == Marked(old(marks), PrimNode(p))
      ensures S() == old(S()).(marks := if found then old(marks) else Mark(old(marks), PrimNode(p)))
    {
      hide RegTied, StopTied, OverTied, RunTied, OwnTied;
      found := p.updated;
      if !found {
        p.updated := true;
        marks := Mark(marks, PrimNode(p));
      }
    }

    /** task_propagate_update. */
    method TaskPropagateUpdate(start: Task, ghost lt: set<Task>, ghost lp: set<Prim>)
      requires Tied() && LiveEdges(EdgesOf(stop, over), lt, lp) && start in lt
      modifies this`marks, w.tasks`updated, w.prims`updated
      ensures Tied() && S() == old(S()).(marks := Walk(EdgesOf(old(stop), old(over)), old(marks), TaskNode(start)))
    {
      hide Walk, LiveEdges, Marked, Mark, Known, Parent, Tied, Unmarked, EdgesOf;
      ghost var e := EdgesOf(stop, over);
      var task := start;
      while true
        invariant task in lt && Tied() && S() == old(S()).(marks := marks)
        invariant Walk(e, marks, TaskNode(task)) == Walk(e, old(marks), TaskNode(start))
        decreases Unmarked(e, marks)
      {
        TaskParent(lt, lp, task);
        WalkRound(e, marks, TaskNode(task));
        var found := MarkTask(task);
        if found {
          break;
        }
        var prim := task.stopper;
        if prim == null {
          WalkFromRoot(e, marks);
          break;
        }
        PrimParent(lt, lp, prim);
        WalkRound(e, marks, PrimNode(prim));
        found := MarkPrim(prim);
        if found {
          break;
        }
        if prim.overridden == null {
          WalkFromRoot(e, marks);
          break;
        }
        task := prim.overridden;
      }
    }

    /** primitive_propagate_update. */
    method PrimPropagateUpdate(start: Prim, ghost lt: set<Task>, ghost lp: set<Prim>)
      requires Tied() && LiveEdges(EdgesOf(stop, over), lt, lp) && start in lp
      modifies this`marks, w.tasks`updated, w.prims`updated
      ensures Tied() && S() == old(S()).(marks := Walk(EdgesOf(old(stop), old(over)), old(marks), PrimNode(start)))
    {
      hide Walk, LiveEdges, Marked, Mark, Known, Parent, Tied, Unmarked, EdgesOf;
      ghost var e := EdgesOf(stop, over);
      var prim := start;
      while true
        invariant prim in lp && Tied() && S() == old(S()).(marks := marks)
        invariant Walk(e, marks, PrimNode(prim)) == Walk(e, old(marks), PrimNode(start))
        decreases Unmarked(e, marks)
      {
        PrimParent(lt, lp, prim);
        WalkRound(e, marks, PrimNode(prim));
        var found := MarkPrim(prim);
        if found {
          break;
        }
        var task := prim.overridden;
        if task == null {
          WalkFromRoot(e, marks);
          break;
        }
        TaskParent(lt, lp, task);
        WalkRound(e, marks, TaskNode(task));
        found := MarkTask(task);
        if found {
          break;
        }
        if task.stopper == null {
          WalkFromRoot(e, marks);
          break;
        }
        prim := task.stopper;
      }
    }

    // ------------------------------------------------------------- stopping

    /** Appends the task to the list of the primitive that stops it. */
    method LinkStopped(prim: Prim, task: Task)
      requires Tied() && prim in w.prims && task in w.tasks
      modifies this`stop, task`stopper, prim`stopped, prim`nbStoppedTasks
      ensures Tied() && S() == old(S()).(stop := LinkedStop(old(stop), prim, task))
    {
      hide Tied, ButStop;
      SplitStop();
      task.stopper := prim;
      prim.stopped := prim.stopped + [task];
      prim.nbStoppedTasks := prim.nbStoppedTasks + 1;
      stop := LinkedStop(stop, prim, task);
      assert ButStop() by { hide StopTied; }
      assert StopTied() by { hide ButStop; }
      SplitStop();
    }

    method Deactivate(task: Task)
      requires Tied() && task in w.tasks
      modifies this`stop, this`actives, task`status
      ensures Tied() && S() == old(S()).(stop := Deactivated(old(stop), task))
    {
      hide Tied, ButStop, Remove;
      SplitStop();
      actives := Remove(actives, task);
      task.status := Stopped;
      stop := Deactivated(stop, task);
      assert ButStop() by { hide StopTied; }
      assert StopTied() by { hide ButStop; }
      SplitStop();
    }

    /** primitive_stop_task. */
    method StopTask(prim: Prim, task: Task)
      requires Valid() && Ok(w, S(), Micro.Stop(prim, task))
      modifies this, w.tasks, w.prims
      ensures Valid() && S() == Apply(old(S()), Micro.Stop(prim, task))
    {
      hide Core, Ok, Walk, LiveEdges, LiveTasks, LivePrims, Tied, Remove, EdgesOf, LinkedStop, Deactivated, Apply;
      ghost var s := S();
      StopFacts(w, s, prim, task);
      LinkStopped(prim, task);
      PrimPropagateUpdate(prim, LiveTasks(reg), LivePrims(reg));
      Deactivate(task);
      StepKeepsCore(w, s, Micro.Stop(prim, task));
    }

    method InsertActive(task: Task)
      requires Tied()
      modifies this`stop, this`actives
      ensures Tied() && S() == old(S()).(stop := old(stop).(actives := [task] + old(stop).actives))
    {
      hide Tied, ButStop;
      SplitStop();
      actives := [task] + actives;
      stop := stop.(actives := actives);
      assert ButStop() by { hide StopTied; }
      assert StopTied() by { hide ButStop; }
      SplitStop();
    }

    /** Takes the task out of the list of its stopper. */
    method UnlinkStopped(prim: Prim, task: Task)
      requires Tied() && prim in w.prims && task in w.tasks && task.stopper == prim
      modifies this`stop, task`stopper, prim`stopped, prim`nbStoppedTasks
      ensures Tied() && S() == old(S()).(stop := UnlinkedStop(old(stop), prim, task))
    {
      hide Tied, ButStop, Remove;
      SplitStop();
      task.stopper := null;
      prim.stopped := Remove(prim.stopped, task);
      prim.nbStoppedTasks := prim.nbStoppedTasks - 1;
      stop := UnlinkedStop(stop, prim, task);
      assert ButStop() by { hide StopTied; }
      assert StopTied() by { hide ButStop; }
      SplitStop();
    }

    method Activate(task: Task)
      requires Tied() && task in w.tasks
      modifies this`stop, task`status
      ensures Tied() && S() == old(S()).(stop := Activated(old(stop), task))
    {
      hide Tied, ButStop;
      SplitStop();
      task.status := Active;
      stop := Activated(stop, task);
      assert ButStop() by { hide StopTied; }
      assert StopTied() by { hide ButStop; }
      SplitStop();
    }

    /** primitive_resume_task. */
    method ResumeTask(task: Task)
      requires Valid() && Ok(w, S(), Micro.Resume(task))
      modifies this, w.tasks, w.prims
      ensures Valid() && S() == Apply(old(S()), Micro.Resume(task))
    {
      hide Core, Ok, Walk, LiveEdges, LiveTasks, LivePrims, Tied, Remove, EdgesOf, UnlinkedStop, Activated, Apply;
      ghost var s := S();
      ResumeFacts(w, s, task);
      TaskRow(task);
      var prim := task.stopper;
      InsertActive(task);
      TaskRow(task);
      UnlinkStopped(prim, task);
      PrimPropagateUpdate(prim, LiveTasks(reg), LivePrims(reg));
      Activate(task);
      StepKeepsCore(w, s, Micro.Resume(task));
    }

    // ----------------------------------------------------------- overriding

    method DropOverride(prim: Prim, task: Task)
      requires Tied() && prim in w.prims && task in w.tasks && prim.overridden == task
      modifies this`over, prim`overridden, task`overriders, task`nbOverrides
      ensures Tied() && S() == old(S()).(over := UnlinkOverride(old(over), prim))
    {
      hide Tied, ButOver, Remove;
      SplitOver();
      prim.overridden := null;
      task.overriders := Remove(task.overriders, prim);
      task.nbOverrides := task.nbOverrides - 1;
      over := UnlinkOverride(over, prim);
      assert ButOver() by { hide OverTied; }
      assert OverTied() by { hide ButOver; }
      SplitOver();
    }

    method AddOverride(prim: Prim, task: Task)
      requires Tied() && prim in w.prims && task in w.tasks
      modifies this`over, prim`overridden, task`overriders, task`nbOverrides
      ensures Tied() && S() == old(S()).(over := LinkOverride(old(over), prim, task))
    {
      hide Tied, ButOver;
      SplitOver();
      prim.overridden := task;
      task.overriders := [prim] + task.overriders;
      task.nbOverrides := task.nbOverrides + 1;
      over := LinkOverride(over, prim, task);
      assert ButOver() by { hide OverTied; }
      assert OverTied() by { hide ButOver; }
      SplitOver();
    }

    /** primitive_unoverride_task. */
    method Unoverride(prim: Prim)
      requires Valid() && Ok(w, S(), Micro.Unlink(prim))
      modifies this, w.tasks, w.prims
      ensures Valid() && S() == Apply(old(S()), Micro.Unlink(prim))
    {
      hide Core, Ok, Walk, LiveEdges, LiveTasks, LivePrims, Tied, Remove, EdgesOf, UnlinkOverride, Apply;
      ghost var s := S();
      UnlinkFacts(w, s, prim);
      PrimRow(prim);
      var task := prim.overridden;
      if task == null {
        return;
      }
      DropOverride(prim, task);
      TaskPropagateUpdate(task, LiveTasks(reg), LivePrims(reg));
      StepKeepsCore(w, s, Micro.Unlink(prim));
    }

    /** primitive_override_task. */
    method Override(prim: Prim, task: Task)
      requires Valid() && Compatible(S(), prim, task)
      modifies this, w.tasks, w.prims
      ensures Valid() && S() == Apply(Apply(old(S()), Micro.Unlink(prim)), Micro.Link(prim, task))
    {
      hide Core, Ok, Walk, LiveEdges, LiveTasks, LivePrims, Tied, EdgesOf, LinkOverride, Apply, Compatible;
      OverrideIsOk(w, S(), prim, task);
      Unoverride(prim);
      ghost var s := S();
      LinkFacts(w, s, prim, task);
      AddOverride(prim, task);
      TaskPropagateUpdate(task, LiveTasks(reg), LivePrims(reg));
      StepKeepsCore(w, s, Micro.Link(prim, task));
    }

    // ------------------------------------------------------------ ownership

    /** primitive_take_ownership. */
    method TakeOwnership(prim: Prim, task: Task)
      requires Valid() && Ok(w, S(), Micro.Take(prim, task))
      modifies this, w.tasks, w.prims
      ensures Valid() && S() == Apply(old(S()), Micro.Take(prim, task))
    {
      hide Core, Ok, RegTied, StopTied, OverTied, RunTied, MarksTied, Apply;
      ghost var s := S();
      TakeFacts(w, s, prim, task);
      StepKeepsCore(w, s, Micro.Take(prim, task));
      prim.nbOwningTasks := prim.nbOwningTasks + 1;
      task.nbOwnedPrimitives := task.nbOwnedPrimitives + 1;
      own := Apply(s, Micro.Take(prim, task)).own;
    }

    /** primitive_release_ownership: the counter of the primitive stays
      * decremented if only that of the task is null. */
    method ReleaseOwnership(prim: Prim, task: Task) returns (err: nat)
      requires Valid() && Ok(w, S(), Micro.Release(prim, task))
      modifies this, w.tasks, w.prims
      ensures Valid() && S() == Apply(old(S()), Micro.Release(prim, task))
      ensures err == ReleaseError(old(own), prim, task)
    {
      hide Core, Ok, RegTied, StopTied, OverTied, RunTied, MarksTied, Apply;
      ghost var s := S();
      ReleaseFacts(w, s, prim, task);
      StepKeepsCore(w, s, Micro.Release(prim, task));
      own := ReleaseCounters(own, prim, task);
      if prim.nbOwningTasks == 0 {
        return 1;
      }
      prim.nbOwningTasks := prim.nbOwningTasks - 1;
      if task.nbOwnedPrimitives == 0 {
        return 1;
      }
      task.nbOwnedPrimitives := task.nbOwnedPrimitives - 1;
      return 0;
    }

    // ------------------------------------------------------------ execution

    method ShrinkHistory(thread: Thread)
      requires Tied() && thread in w.threads && thread in run.threads
      modifies this`run, thread`historySize
      ensures Tied() && S() == old(S()).(run := old(run).(threads := old(run).threads[thread := old(run).threads[thread].(size := old(run).threads[thread].size - 1)]))
    {
      hide Tied, ButRun;
      SplitRun();
      thread.historySize := thread.historySize - 1;
      run := run.(threads := run.threads[thread := run.threads[thread].(size := run.threads[thread].size - 1)]);
      assert ButRun() by { hide RunTied; }
      assert RunTied() by { hide ButRun; }
      SplitRun();
    }

    method ForgetThread(task: Task)
      requires Tied() && task in w.tasks && task in run.tasks
      modifies this`run, task`thread
      ensures Tied() && S() == old(S()).(run := old(run).(tasks := old(run).tasks[task := old(run).tasks[task].(thread := null)]))
    {
      hide Tied, ButRun;
      SplitRun();
      task.thread := null;
      run := run.(tasks := run.tasks[task := run.tasks[task].(thread := null)]);
      assert ButRun() by { hide RunTied; }
      assert RunTied() by { hide ButRun; }
      SplitRun();
    }

    method UnlinkHistory(thread: Thread, task: Task)
      requires Tied() && thread in w.threads && thread in run.threads
      modifies this`run, thread`history
      ensures Tied() && S() == old(S()).(run := old(run).(threads := old(run).threads[thread := old(run).threads[thread].(history := Remove(old(run).threads[thread].history, task))]))
    {
      hide Tied, ButRun, Remove;
      SplitRun();
      thread.history := Remove(thread.history, task);
      run := run.(threads := run.threads[thread := run.threads[thread].(history := Remove(run.threads[thread].history, task))]);
      assert ButRun() by { hide RunTied; }
      assert RunTied() by { hide ButRun; }
      SplitRun();
    }

    /** thread_unregister_task. */
    method DetachTask(task: Task)
      requires Valid() && Ok(w, S(), Micro.Detach(task))
      modifies this, w.tasks, w.threads
      ensures Valid() && S() == Apply(old(S()), Micro.Detach(task))
    {
      hide Core, Ok, Tied, Apply, Model.DetachTask, Model.AssignTask, Remove, OffHistory;
      ghost var s := S();
      DetachFacts(w, s, task);
      StepKeepsCore(w, s, Micro.Detach(task));
      TaskRow(task);
      var thread := task.thread;
      if thread == null {
        return;
      }
      ThreadRow(thread);
      ShrinkHistory(thread);
      ForgetThread(task);
      UnlinkHistory(thread, task);
      OffHistorySteps(s.run, thread, task);
      if thread.task == task {
        ClearThread(thread);
      }
    }

    method ClearThread(thread: Thread)
      requires Tied() && thread in w.threads
      modifies this`run, thread`task, thread`commit
      ensures Tied() && S() == old(S()).(run := Model.AssignTask(old(run), thread, null))
    {
      hide Tied, ButRun;
      SplitRun();
      thread.task := null;
      thread.commit := USIZE_MAX;
      run := Model.AssignTask(run, thread, null);
      assert ButRun() by { hide RunTied; }
      assert RunTied() by { hide ButRun; }
      SplitRun();
    }

    method AddHistory(thread: Thread, task: Task)
      requires Tied() && thread in w.threads && task in w.tasks
      modifies this`run, task`thread, thread`history, thread`historySize
      ensures Tied() && S() == old(S()).(run := AttachTask(old(run), thread, task))
    {
      hide Tied, ButRun;
      SplitRun();
      task.thread := thread;
      thread.historySize := thread.historySize + 1;
      thread.history := [task] + thread.history;
      run := AttachTask(run, thread, task);
      assert ButRun() by { hide RunTied; }
      assert RunTied() by { hide ButRun; }
      SplitRun();
    }

    method Select(thread: Thread, task: Task)
      requires Tied() && thread in w.threads && task in w.tasks
      modifies this`run, task`commit, thread`task, thread`commit
      ensures Tied() && S() == old(S()).(run := Selected(old(run), thread, task))
    {
      hide Tied, ButRun;
      SplitRun();
      thread.task := task;
      task.commit := commitIndex;
      thread.commit := task.commit;
      run := Selected(run, thread, task);
      assert ButRun() by { hide RunTied; }
      assert RunTied() by { hide ButRun; }
      SplitRun();
    }

    /** thread_assign_task. */
    method AssignTask(thread: Thread, task: Task?)
      requires Valid() && Ok(w, S(), Micro.Assign(thread, task))
      modifies this, w.tasks, w.threads
      ensures Valid() && S() == Apply(old(S()), Micro.Assign(thread, task))
    {
      hide Core, Ok, Tied, Apply, Model.DetachTask, AttachTask, Selected, Model.AssignTask;
      ghost var s := S();
      AssignFacts(w, s, thread, task);
      StepKeepsCore(w, s, Micro.Assign(thread, task));
      if task == null {
        ClearThread(thread);
        return;
      }
      TaskRow(task);
      if task.thread != thread {
        DetachTask(task);
        AddHistory(thread, task);
      }
      Select(thread, task);
    }

    // ---------------------------------------------------------- registration

    method InitStop(task: Task)
      requires Tied() && task in w.tasks
      modifies this`stop, this`actives, task`status, task`stopper
      ensures Tied() && S() == old(S()).(stop := StopGraph(old(stop).tasks[task := TaskStop(Active, null)], old(stop).prims, [task] + old(stop).actives))
    {
      hide Tied, ButStop;
      SplitStop();
      task.status := Active;
      task.stopper := null;
      actives := [task] + actives;
      stop := StopGraph(stop.tasks[task := TaskStop(Active, null)], stop.prims, actives);
      assert ButStop() by { hide StopTied; }
      assert StopTied() by { hide ButStop; }
      SplitStop();
    }

    method InitOver(task: Task)
      requires Tied() && task in w.tasks
      modifies this`over, task`overriders, task`nbOverrides
      ensures Tied() && S() == old(S()).(over := old(over).(tasks := old(over).tasks[task := TaskOver([], 0)]))
    {
      hide Tied, ButOver;
      SplitOver();
      task.nbOverrides := 0;
      task.overriders := [];
      over := over.(tasks := over.tasks[task := TaskOver([], 0)]);
      assert ButOver() by { hide OverTied; }
      assert OverTied() by { hide ButOver; }
      SplitOver();
    }

    method InitRun(task: Task)
      requires Tied() && task in w.tasks
      modifies this`run, task`thread, task`commit
      ensures Tied() && S() == old(S()).(run := old(run).(tasks := old(run).tasks[task := TaskRun(null, USIZE_MAX)]))
    {
      hide Tied, ButRun;
      SplitRun();
      task.commit := USIZE_MAX;
      task.thread := null;
      run := run.(tasks := run.tasks[task := TaskRun(null, USIZE_MAX)]);
      assert ButRun() by { hide RunTied; }
      assert RunTied() by { hide ButRun; }
      SplitRun();
    }

    method InitOwned(task: Task)
      requires Tied() && task in w.tasks
      modifies this`own, task`nbOwnedPrimitives
      ensures Tied() && S() == old(S()).(own := old(own).(tasks := old(own).tasks[task := 0]))
    {
      hide RegTied, StopTied, OverTied, RunTied, MarksTied;
      task.nbOwnedPrimitives := 0;
      own := own.(tasks := own.tasks[task := 0]);
    }

    method Unmark(task: Task)
      requires Tied() && task in w.tasks
      modifies this`marks, task`updated
      ensures Tied() && S() == old(S()).(marks := old(marks).(tasks := old(marks).tasks - {task}))
    {
      hide RegTied, StopTied, OverTied, RunTied, OwnTied;
      task.updated := false;
      marks := marks.(tasks := marks.tasks - {task});
    }

    method Enroll(prc: Process, task: Task)
      requires Tied() && prc in w.procs && task in w.tasks
      modifies this`reg, task`process, prc`tasks, prc`nbTasks
      ensures Tied() && S() == old(S()).(reg := Enrolled(old(reg), prc, task))
    {
      hide Tied, ButReg;
      SplitReg();
      task.process := prc;
      prc.tasks := [task] + prc.tasks;
      prc.nbTasks := prc.nbTasks + 1;
      reg := Enrolled(reg, prc, task);
      assert ButReg() by { hide RegTied; }
      assert RegTied() by { hide ButReg; }
      SplitReg();
    }

    /** process_register_task. */
    method RegisterTask(prc: Process, task: Task)
      requires Valid() && Ok(w, S(), Micro.AddTask(prc, task))
      modifies this, w.tasks, w.procs
      ensures Valid() && S() == Apply(old(S()), Micro.AddTask(prc, task))
    {
      hide Core, Ok, Tied, Apply, Enrolled;
      ghost var s := S();
      AddTaskFacts(w, s, prc, task);
      StepKeepsCore(w, s, Micro.AddTask(prc, task));
      InitStop(task);
      InitRun(task);
      Unmark(task);
      InitOwned(task);
      InitOver(task);
      Enroll(prc, task);
    }

    method InitPrimStop(prim: Prim)
      requires Tied() && prim in w.prims
      modifies this`stop, prim`stopped, prim`nbStoppedTasks
      ensures Tied() && S() == old(S()).(stop := old(stop).(prims := old(stop).prims[prim := PrimStop([], 0)]))
    {
      hide Tied, ButStop;
      SplitStop();
      prim.nbStoppedTasks := 0;
      prim.stopped := [];
      stop := stop.(prims := stop.prims[prim := PrimStop([], 0)]);
      assert ButStop() by { hide StopTied; }
      assert StopTied() by { hide ButStop; }
      SplitStop();
    }

    method InitOwners(prim: Prim)
      requires Tied() && prim in w.prims
      modifies this`own, prim`nbOwningTasks
      ensures Tied() && S() == old(S()).(own := old(own).(prims := old(own).prims[prim := 0]))
    {
      hide RegTied, StopTied, OverTied, RunTied, MarksTied;
      prim.nbOwningTasks := 0;
      own := own.(prims := own.prims[prim := 0]);
    }

    method UnmarkPrim(prim: Prim)
      requires Tied() && prim in w.prims
      modifies this`marks, prim`updated
      ensures Tied() && S() == old(S()).(marks := old(marks).(prims := old(marks).prims - {prim}))
    {
      hide RegTied, StopTied, OverTied, RunTied, OwnTied;
      prim.updated := false;
      marks := marks.(prims := marks.prims - {prim});
    }

    method InitOverridden(prim: Prim)
      requires Tied() && prim in w.prims
      modifies this`over, prim`overridden
      ensures Tied() && S() == old(S()).(over := old(over).(prims := old(over).prims[prim := null]))
    {
      hide RegTied, StopTied, RunTied, OwnTied, MarksTied;
      prim.overridden := null;
      over := over.(prims := over.prims[prim := null]);
    }

    method EnrollPrim(prc: Process, prim: Prim)
      requires Tied() && prc in w.procs && prim in w.prims
      modifies this`reg, prim`process, prc`primitives, prc`nbPrimitives
      ensures Tied() && S() == old(S()).(reg := EnrolledPrim(old(reg), prc, prim))
    {
      hide Tied, ButReg;
      SplitReg();
      prim.process := prc;
      prc.primitives := [prim] + prc.primitives;
      prc.nbPrimitives := prc.nbPrimitives + 1;
      reg := EnrolledPrim(reg, prc, prim);
      assert ButReg() by { hide RegTied; }
      assert RegTied() by { hide ButReg; }
      SplitReg();
    }

    /** process_register_prim. */
    method RegisterPrim(prc: Process, prim: Prim)
      requires Valid() && Ok(w, S(), Micro.AddPrim(prc, prim))
      modifies this, w.prims, w.procs
      ensures Valid() && S() == Apply(old(S()), Micro.AddPrim(prc, prim))
    {
      hide Core, Ok, Tied, Apply, EnrolledPrim;
      ghost var s := S();
      AddPrimFacts(w, s, prc, prim);
      StepKeepsCore(w, s, Micro.AddPrim(prc, prim));
      UnmarkPrim(prim);
      InitOwners(prim);
      InitPrimStop(prim);
      InitOverridden(prim);
      EnrollPrim(prc, prim);
    }

    method RemoveActive(task: Task)
      requires Tied()
      modifies this`stop, this`actives
      ensures Tied() && S() == old(S()).(stop := old(stop).(actives := Remove(old(stop).actives, task)))
    {
      hide Tied, ButStop, Remove;
      SplitStop();
      actives := Remove(actives, task);
      stop := stop.(actives := actives);
      assert ButStop() by { hide StopTied; }
      assert StopTied() by { hide ButStop; }
      SplitStop();
    }

    method Unenroll(prc: Process, task: Task)
      requires Tied() && prc in w.procs
      modifies this`reg, prc`tasks, prc`nbTasks
      ensures Tied() && S() == old(S()).(reg := Unenrolled(old(reg), prc, task))
    {
      hide Tied, ButReg, Remove;
      SplitReg();
      prc.tasks := Remove(prc.tasks, task);
      prc.nbTasks := prc.nbTasks - 1;
      reg := Unenrolled(reg, prc, task);
      assert ButReg() by { hide RegTied; }
      assert RegTied() by { hide ButReg; }
      SplitReg();
    }

    /** The last part of process_unregister_task. */
    method DropTask(task: Task)
      requires Valid() && Ok(w, S(), Micro.DropTask(task))
      modifies this, w.procs
      ensures Valid() && S() == Apply(old(S()), Micro.DropTask(task))
    {
      hide Core, Ok, Tied, Apply, Unenrolled, Remove;
      ghost var s := S();
      DropTaskFacts(w, s, task);
      StepKeepsCore(w, s, Micro.DropTask(task));
      TaskRow(task);
      RemoveActive(task);
      Unenroll(task.process, task);
    }

    method UnenrollPrim(prc: Process, prim: Prim)
      requires Tied() && prc in w.procs
      modifies this`reg, prc`primitives, prc`nbPrimitives
      ensures Tied() && S() == old(S()).(reg := UnenrolledPrim(old(reg), prc, prim))
    {
      hide Tied, ButReg, Remove;
      SplitReg();
      prc.primitives := Remove(prc.primitives, prim);
      prc.nbPrimitives := prc.nbPrimitives - 1;
      reg := UnenrolledPrim(reg, prc, prim);
      assert ButReg() by { hide RegTied; }
      assert RegTied() by { hide ButReg; }
      SplitReg();
    }

    /** The last part of process_unregister_prim. */
    method DropPrim(prim: Prim)
      requires Valid() && Ok(w, S(), Micro.DropPrim(prim))
      modifies this, w.procs
      ensures Valid() && S() == Apply(old(S()), Micro.DropPrim(prim))
    {
      hide Core, Ok, Tied, Apply, UnenrolledPrim, Remove;
      ghost var s := S();
      DropPrimFacts(w, s, prim);
      StepKeepsCore(w, s, Micro.DropPrim(prim));
      PrimRow(prim);
      UnenrollPrim(prim.process, prim);
    }

    // ----------------------------------------------- threads and processes

    method EmptyHistory(thread: Thread)
      requires Tied() && thread in w.threads && thread in run.threads
      modifies this`run, thread`history, thread`historySize
      ensures Tied() && S() == old(S()).(run := old(run).(threads := old(run).threads[thread := old(run).threads[thread].(history := [], size := 0)]))
    {
      hide Tied, ButRun;
      SplitRun();
      thread.history := [];
      thread.historySize := 0;
      run := run.(threads := run.threads[thread := run.threads[thread].(history := [], size := 0)]);
      assert ButRun() by { hide RunTied; }
      assert RunTied() by { hide ButRun; }
      SplitRun();
    }

    method ListThread(thread: Thread)
      requires Tied()
      modifies this`run, this`threads, this`nbThreads
      ensures Tied() && S() == old(S()).(run := old(run).(list := [thread] + old(run).list, count := old(run).count + 1))
    {
      hide Tied, ButRun;
      SplitRun();
      threads := [thread] + threads;
      nbThreads := nbThreads + 1;
      run := run.(list := threads, count := nbThreads);
      assert ButRun() by { hide RunTied; }
      assert RunTied() by { hide ButRun; }
      SplitRun();
    }

    /** sched_register_thread. */
    method RegisterThread(thread: Thread)
      requires Valid() && Ok(w, S(), Micro.AddThread(thread))
      modifies this, w.threads
      ensures Valid() && S() == Apply(old(S()), Micro.AddThread(thread))
    {
      hide Core, Ok, Tied, Apply;
      ghost var s := S();
      StepKeepsCore(w, s, Micro.AddThread(thread));
      AddThreadFacts(w, s, thread);
      ThreadRow(thread);
      ClearThread(thread);
      EmptyHistory(thread);
      assert run.threads == s.run.threads[thread := ThreadRun(null, USIZE_MAX, [], 0)];
      ListThread(thread);
    }

    method RemoveThread(thread: Thread)
      requires Tied()
      modifies this`run, this`threads, this`nbThreads
      ensures Tied() && S() == old(S()).(run := old(run).(list := Remove(old(run).list, thread), count := old(run).count - 1))
    {
      hide Tied, ButRun, Remove;
      SplitRun();
      threads := Remove(threads, thread);
      nbThreads := nbThreads - 1;
      run := run.(list := threads, count := nbThreads);
      assert ButRun() by { hide RunTied; }
      assert RunTied() by { hide ButRun; }
      SplitRun();
    }

    /** The last part of sched_unregister_thread. */
    method DropThread(thread: Thread)
      requires Valid() && Ok(w, S(), Micro.DropThread(thread))
      modifies this
      ensures Valid() && S() == Apply(old(S()), Micro.DropThread(thread))
    {
      hide Core, Ok, Tied, Apply, Remove;
      ghost var s := S();
      StepKeepsCore(w, s, Micro.DropThread(thread));
      DropThreadFacts(w, s, thread);
      RemoveThread(thread);
    }

    method NoTasks(prc: Process)
      requires Tied() && prc in w.procs && prc in reg.procs
      modifies this`reg, prc`tasks
      ensures Tied() && S() == old(S()).(reg := old(reg).(procs := old(reg).procs[prc := old(reg).procs[prc].(tasks := [])]))
    {
      hide Tied, ButReg;
      SplitReg();
      prc.tasks := [];
      reg := reg.(procs := reg.procs[prc := reg.procs[prc].(tasks := [])]);
      assert ButReg() by { hide RegTied; }
      assert RegTied() by { hide ButReg; }
      SplitReg();
    }

    method NoTaskCount(prc: Process)
      requires Tied() && prc in w.procs && prc in reg.procs
      modifies this`reg, prc`nbTasks
      ensures Tied() && S() == old(S()).(reg := old(reg).(procs := old(reg).procs[prc := old(reg).procs[prc].(nbTasks := 0)]))
    {
      hide Tied, ButReg;
      SplitReg();
      prc.nbTasks := 0;
      reg := reg.(procs := reg.procs[prc := reg.procs[prc].(nbTasks := 0)]);
      assert ButReg() by { hide RegTied; }
      assert RegTied() by { hide ButReg; }
      SplitReg();
    }

    method NoPrims(prc: Process)
      requires Tied() && prc in w.procs && prc in reg.procs
      modifies this`reg, prc`primitives
      ensures Tied() && S() == old(S()).(reg := old(reg).(procs := old(reg).procs[prc := old(reg).procs[prc].(prims := [])]))
    {
      hide Tied, ButReg;
      SplitReg();
      prc.primitives := [];
      reg := reg.(procs := reg.procs[prc := reg.procs[prc].(prims := [])]);
      assert ButReg() by { hide RegTied; }
      assert RegTied() by { hide ButReg; }
      SplitReg();
    }

    method NoPrimCount(prc: Process)
      requires Tied() && prc in w.procs && prc in reg.procs
      modifies this`reg, prc`nbPrimitives
      ensures Tied() && S() == old(S()).(reg := old(reg).(procs := old(reg).procs[prc := old(reg).procs[prc].(nbPrims := 0)]))
    {
      hide Tied, ButReg;
      SplitReg();
      prc.nbPrimitives := 0;
      reg := reg.(procs := reg.procs[prc := reg.procs[prc].(nbPrims := 0)]);
      assert ButReg() by { hide RegTied; }
      assert RegTied() by { hide ButReg; }
      SplitReg();
    }

    method ListProcess(prc: Process)
      requires Tied()
      modifies this`reg, this`processes, this`nbProcesses
      ensures Tied() && S() == old(S()).(reg := old(reg).(list := [prc] + old(reg).list, count := old(reg).count + 1))
    {
      hide Tied, ButReg;
      SplitReg();
      processes := [prc] + processes;
      nbProcesses := nbProcesses + 1;
      reg := reg.(list := processes, count := nbProcesses);
      assert ButReg() by { hide RegTied; }
      assert RegTied() by { hide ButReg; }
      SplitReg();
    }

    /** The first part of sched_register_process. */
    method AddProcess(prc: Process)
      requires Valid() && Ok(w, S(), Micro.AddProcess(prc))
      modifies this, w.procs
      ensures Valid() && S() == Apply(old(S()), Micro.AddProcess(prc))
    {
      hide Core, Ok, Tied, Apply;
      ghost var s := S();
      StepKeepsCore(w, s, Micro.AddProcess(prc));
      AddProcessFacts(w, s, prc);
      ProcessRow(prc);
      ChangeStatus(prc, Active);
      NoTasks(prc);
      NoTaskCount(prc);
      NoPrims(prc);
      NoPrimCount(prc);
      FreshProcessSteps(s.reg, prc);
      ListProcess(prc);
    }

    method UnlistProcess(prc: Process)
      requires Tied()
      modifies this`reg, this`processes, this`nbProcesses
      ensures Tied() && S() == old(S()).(reg := old(reg).(list := Remove(old(reg).list, prc), count := old(reg).count - 1))
    {
      hide Tied, ButReg, Remove;
      SplitReg();
      processes := Remove(processes, prc);
      nbProcesses := nbProcesses - 1;
      reg := reg.(list := processes, count := nbProcesses);
      assert ButReg() by { hide RegTied; }
      assert RegTied() by { hide ButReg; }
      SplitReg();
    }

    /** sched_unregister_process. */
    method UnregisterProcess(prc: Process)
      requires Valid() && Ok(w, S(), Micro.DropProcess(prc))
      modifies this
      ensures Valid() && S() == Apply(old(S()), Micro.DropProcess(prc))
    {
      hide Core, Ok, Tied, Apply, Remove, RemoveAll, ActiveOf;
      ghost var s := S();
      StepKeepsCore(w, s, Micro.DropProcess(prc));
      DropProcessFacts(w, s, prc);
      ProcessRow(prc);
      var ts := prc.tasks;
      var i := 0;
      NoneRemoved(s.stop.actives, s.stop);
      assert ts[..0] == [];
      while i < |ts|
        invariant 0 <= i <= |ts| && Tied()
        invariant S() == s.(stop := s.stop.(actives := RemoveAll(s.stop.actives, ActiveOf(s.stop, ts[..i]))))
      {
        TaskRow(ts[i]);
        if ts[i].status == Active {
          RemoveActive(ts[i]);
        }
        RemovesNext(s.stop, ts, i);
        i := i + 1;
      }
      assert ts[..|ts|] == ts;
      UnlistProcess(prc);
    }

    method ChangeStatus(prc: Process, status: Status)
      requires Tied() && prc in w.procs && prc in reg.procs
      modifies this`reg, prc`status
      ensures Tied() && S() == old(S()).(reg := old(reg).(procs := old(reg).procs[prc := old(reg).procs[prc].(status := status)]))
    {
      hide Tied, ButReg;
      ProcessRow(prc);
      SplitReg();
      prc.status := status;
      reg := reg.(procs := reg.procs[prc := ProcessReg(prc.tasks, prc.nbTasks, prc.primitives, prc.nbPrimitives, prc.status)]);
      assert ButReg() by { hide RegTied; }
      assert RegTied() by { hide ButReg; }
      SplitReg();
    }

    /** Marks a process active or stopped. */
    method SetStatus(prc: Process, status: Status)
      requires Valid() && Ok(w, S(), Micro.SetStatus(prc, status))
      modifies this, w.procs
      ensures Valid() && S() == Apply(old(S()), Micro.SetStatus(prc, status))
    {
      hide Core, Ok, Tied, Apply;
      ghost var s := S();
      StepKeepsCore(w, s, Micro.SetStatus(prc, status));
      SetStatusFacts(w, s, prc, status);
      ProcessRow(prc);
      ChangeStatus(prc, status);
    }

    // -------------------------------------------------------------- commits

    method SetCommit(committing: bool, index: int)
      requires Tied()
      modifies this`run, this`commitOpened, this`commitIndex
      ensures Tied() && S() == old(S()).(run := old(run).(committing := committing, index := index))
    {
      hide Tied, ButRun;
      SplitRun();
      commitOpened := committing;
      commitIndex := index;
      run := run.(committing := committing, index := index);
      assert ButRun() by { hide RunTied; }
      assert RunTied() by { hide ButRun; }
      SplitRun();
    }

    /** sched_open_commit. The invariant survives exactly if the new index is not
      * the "never active" mark. */
    method OpenCommit()
      requires Valid() && !commitOpened
      modifies this
      ensures Tied() && S() == Apply(old(S()), Micro.OpenCommit)
      ensures Valid() <==> old(commitIndex) + 1 < USIZE_MAX
    {
      hide Core, Tied, Apply;
      ghost var s := S();
      CommitFields();
      OpenFacts(w, s);
      CommitFacts(s);
      SetCommit(true, (commitIndex + 1) % (USIZE_MAX + 1));
    }

    /** The first part of sched_close_commit. */
    method EndCommit()
      requires Valid() && Ok(w, S(), Micro.CloseCommit)
      modifies this
      ensures Valid() && S() == Apply(old(S()), Micro.CloseCommit)
    {
      hide Core, Ok, Tied, Apply;
      ghost var s := S();
      StepKeepsCore(w, s, Micro.CloseCommit);
      CommitFacts(s);
      CommitFields();
      SetCommit(false, commitIndex);
    }

    lemma CommitFields()
      requires Tied()
      ensures run.index == commitIndex && run.committing == commitOpened && run.list == threads && run.count == nbThreads
    {
    }

    method Unflag(cleared: Marks)
      requires Tied()
      modifies this`marks, cleared.tasks`updated, cleared.prims`updated
      ensures Tied() && S() == old(S()).(marks := Marks(old(marks).tasks - cleared.tasks, old(marks).prims - cleared.prims))
    {
      hide RegTied, StopTied, OverTied, RunTied, OwnTied;
      forall t | t in cleared.tasks {
        t.updated := false;
      }
      forall p | p in cleared.prims {
        p.updated := false;
      }
      marks := Marks(marks.tasks - cleared.tasks, marks.prims - cleared.prims);
    }

    /** What the scheduling hook may do: reset update flags. */
    method ClearMarks(cleared: Marks)
      requires Valid() && Ok(w, S(), Micro.ClearMarks(cleared))
      modifies this, cleared.tasks`updated, cleared.prims`updated
      ensures Valid() && S() == Apply(old(S()), Micro.ClearMarks(cleared))
    {
      hide Core, Ok, Tied, Apply;
      ghost var s := S();
      StepKeepsCore(w, s, Micro.ClearMarks(cleared));
      ClearFacts(s, cleared);
      Unflag(cleared);
    }
  }

  // ------------------------------------------- the groups between two updates

  /** The objects as they are, none of them registered. */
  ghost function Rows(w: World): State
    reads w.tasks, w.prims, w.procs, w.threads
  {
    State(Registry(map t | t in w.tasks :: t.process, map p | p in w.prims :: p.process,
                   map c | c in w.procs :: ProcessReg(c.tasks, c.nbTasks, c.primitives, c.nbPrimitives, c.status), [], 0),
          StopGraph(map t | t in w.tasks :: TaskStop(t.status, t.stopper),
                    map p | p in w.prims :: PrimStop(p.stopped, p.nbStoppedTasks), []),
          OverGraph(map t | t in w.tasks :: TaskOver(t.overriders, t.nbOverrides), map p | p in w.prims :: p.overridden),
          Execution(map t | t in w.tasks :: TaskRun(t.thread, t.commit),
                    map h | h in w.threads :: ThreadRun(h.task, h.commit, h.history, h.historySize), [], 0, 0, false),
          Ownership(map t | t in w.tasks :: t.nbOwnedPrimitives, map p | p in w.prims :: p.nbOwningTasks),
          Marks(set t | t in w.tasks && t.updated, set p | p in w.prims && p.updated))
  }

  ghost predicate RowsOf(w: World, s: State)
    reads w.tasks, w.prims, w.procs, w.threads
  {
    && s.reg.tasks.Keys == s.stop.tasks.Keys == s.over.tasks.Keys == s.run.tasks.Keys == s.own.tasks.Keys == w.tasks
    && s.reg.prims.Keys == s.stop.prims.Keys == s.over.prims.Keys == s.own.prims.Keys == w.prims
    && s.reg.procs.Keys == w.procs && s.run.threads.Keys == w.threads
    && s.reg.list == [] && s.reg.count == 0 && s.stop.actives == []
    && s.run.list == [] && s.run.count == 0 && s.run.index == 0 && !s.run.committing
    && (forall t :: t in w.tasks ==>
          && s.reg.tasks[t] == t.process && s.stop.tasks[t] == TaskStop(t.status, t.stopper)
          && s.over.tasks[t] == TaskOver(t.overriders, t.nbOverrides) && s.run.tasks[t] == TaskRun(t.thread, t.commit)
          && s.own.tasks[t] == t.nbOwnedPrimitives && (t.updated <==> t in s.marks.tasks))
    && (forall p :: p in w.prims ==>
          && s.reg.prims[p] == p.process && s.stop.prims[p] == PrimStop(p.stopped, p.nbStoppedTasks)
          && s.over.prims[p] == p.overridden && s.own.prims[p] == p.nbOwningTasks && (p.updated <==> p in s.marks.prims))
    && (forall c :: c in w.procs ==> s.reg.procs[c] == ProcessReg(c.tasks, c.nbTasks, c.primitives, c.nbPrimitives, c.status))
    && (forall h :: h in w.threads ==> s.run.threads[h] == ThreadRun(h.task, h.commit, h.history, h.historySize))
  }

  lemma RowsFacts(w: World)
    ensures RowsOf(w, Rows(w))
  {
  }

  lemma IdleFacts(w: World, s: State)
    requires RowsOf(w, s)
    ensures Inv(w, s) && s == Initial(s)
  {
    hide Inv;
    InitialInv(w, s);
  }

  function LinkedStop(g: StopGraph, p: Prim, t: Task): StopGraph {
    if t !in g.tasks || p !in g.prims then g
    else g.(tasks := g.tasks[t := TaskStop(g.tasks[t].status, p)],
            prims := g.prims[p := PrimStop(g.prims[p].stopped + [t], g.prims[p].count + 1)])
  }

  function Deactivated(g: StopGraph, t: Task): StopGraph {
    if t !in g.tasks then g
    else g.(tasks := g.tasks[t := TaskStop(Stopped, g.tasks[t].stopper)], actives := Remove(g.actives, t))
  }

  function UnlinkedStop(g: StopGraph, p: Prim, t: Task): StopGraph {
    if t !in g.tasks || p !in g.prims then g
    else g.(tasks := g.tasks[t := TaskStop(g.tasks[t].status, null)],
            prims := g.prims[p := PrimStop(Remove(g.prims[p].stopped, t), g.prims[p].count - 1)])
  }

  function Activated(g: StopGraph, t: Task): StopGraph {
    if t !in g.tasks then g else g.(tasks := g.tasks[t := TaskStop(Active, g.tasks[t].stopper)])
  }

  function OffHistory(g: Execution, h: Thread, t: Task): Execution {
    if t !in g.tasks || h !in g.threads then g
    else g.(tasks := g.tasks[t := TaskRun(null, g.tasks[t].commit)],
            threads := g.threads[h := g.threads[h].(history := Remove(g.threads[h].history, t), size := g.threads[h].size - 1)])
  }

  lemma FreshProcessSteps(g: Registry, c: Process)
    requires c in g.procs
    ensures var g1 := g.(procs := g.procs[c := g.procs[c].(status := Active)]);
            var g2 := g1.(procs := g1.procs[c := g1.procs[c].(tasks := [])]);
            var g3 := g2.(procs := g2.procs[c := g2.procs[c].(nbTasks := 0)]);
            var g4 := g3.(procs := g3.procs[c := g3.procs[c].(prims := [])]);
            g4.(procs := g4.procs[c := g4.procs[c].(nbPrims := 0)]) == g.(procs := g.procs[c := ProcessReg([], 0, [], 0, Active)])
  {
  }

  lemma OffHistorySteps(g: Execution, h: Thread, t: Task)
    requires t in g.tasks && h in g.threads
    ensures var g1 := g.(threads := g.threads[h := g.threads[h].(size := g.threads[h].size - 1)]);
            var g2 := g1.(tasks := g1.tasks[t := g1.tasks[t].(thread := null)]);
            g2.(threads := g2.threads[h := g2.threads[h].(history := Remove(g2.threads[h].history, t))]) == OffHistory(g, h, t)
  {
    hide Remove;
  }

  function Selected(g: Execution, h: Thread, t: Task): Execution {
    if t !in g.tasks || h !in g.threads then g
    else g.(tasks := g.tasks[t := TaskRun(g.tasks[t].thread, g.index)],
            threads := g.threads[h := g.threads[h].(task := t, commit := g.index)])
  }

  function Enrolled(g: Registry, c: Process, t: Task): Registry {
    if c !in g.procs then g
    else g.(tasks := g.tasks[t := c], procs := g.procs[c := g.procs[c].(tasks := [t] + g.procs[c].tasks, nbTasks := g.procs[c].nbTasks + 1)])
  }

  function EnrolledPrim(g: Registry, c: Process, p: Prim): Registry {
    if c !in g.procs then g
    else g.(prims := g.prims[p := c], procs := g.procs[c := g.procs[c].(prims := [p] + g.procs[c].prims, nbPrims := g.procs[c].nbPrims + 1)])
  }

  function Unenrolled(g: Registry, c: Process, t: Task): Registry {
    if c !in g.procs then g
    else g.(procs := g.procs[c := g.procs[c].(tasks := Remove(g.procs[c].tasks, t), nbTasks := g.procs[c].nbTasks - 1)])
  }

  function UnenrolledPrim(g: Registry, c: Process, p: Prim): Registry {
    if c !in g.procs then g
    else g.(procs := g.procs[c := g.procs[c].(prims := Remove(g.procs[c].prims, p), nbPrims := g.procs[c].nbPrims - 1)])
  }

  lemma KeysOfCore(w: World, s: State)
    requires Core(w, s)
    ensures s.run.tasks.Keys == w.tasks && s.run.threads.Keys == w.threads
    ensures s.reg.tasks.Keys == w.tasks && s.reg.prims.Keys == w.prims && s.reg.procs.Keys == w.procs
    ensures forall h :: h in s.run.list ==> h in w.threads
    ensures forall c :: c in s.reg.list ==> c in w.procs
  {
    hide LiveTasks, LivePrims, StopOk, OverOk, OwnOk, SameProcess, ClosedBut, NoDup, ThreadOk, RunnersOk, ProcessOk;
  }

  lemma DetachFacts(w: World, s: State, t: Task)
    requires Core(w, s) && Ok(w, s, Micro.Detach(t))
    ensures t in w.tasks && t in s.run.tasks
    ensures var h := s.run.tasks[t].thread;
            if h == null then Apply(s, Micro.Detach(t)) == s
            else
              && h in w.threads && h in s.run.threads
              && var g := OffHistory(s.run, h, t);
                 Apply(s, Micro.Detach(t)) == s.(run := if s.run.threads[h].task == t then Model.AssignTask(g, h, null) else g)
  {
    hide Core, Remove;
    KeysOfCore(w, s);
  }

  lemma AssignFacts(w: World, s: State, h: Thread, t: Task?)
    requires Core(w, s) && Ok(w, s, Micro.Assign(h, t))
    ensures h in w.threads
    ensures t == null ==> Apply(s, Micro.Assign(h, t)) == s.(run := Model.AssignTask(s.run, h, null))
    ensures t != null ==>
              && t in w.tasks && t in s.run.tasks && Ok(w, s, Micro.Detach(t))
              && var s1 := Apply(s, Micro.Detach(t));
              && s1 == s.(run := s1.run)
              && Apply(s, Micro.Assign(h, t)) == s.(run := Selected(if s.run.tasks[t].thread == h then s.run else AttachTask(s1.run, h, t), h, t))
  {
    hide Core, LiveTasks, Remove;
    KeysOfCore(w, s);
    if t != null {
      LiveIsDetachable(w, s, t);
      LiveObjectsExist(w, s);
    }
  }

  lemma AddTaskFacts(w: World, s: State, c: Process, t: Task)
    requires Core(w, s) && Ok(w, s, Micro.AddTask(c, t))
    ensures c in w.procs && t in w.tasks
    ensures Apply(s, Micro.AddTask(c, t)) ==
            State(Enrolled(s.reg, c, t),
                  StopGraph(s.stop.tasks[t := TaskStop(Active, null)], s.stop.prims, [t] + s.stop.actives),
                  s.over.(tasks := s.over.tasks[t := TaskOver([], 0)]),
                  s.run.(tasks := s.run.tasks[t := TaskRun(null, USIZE_MAX)]),
                  s.own.(tasks := s.own.tasks[t := 0]),
                  s.marks.(tasks := s.marks.tasks - {t}))
  {
    hide Core, LiveTasks;
    KeysOfCore(w, s);
  }

  lemma AddPrimFacts(w: World, s: State, c: Process, p: Prim)
    requires Core(w, s) && Ok(w, s, Micro.AddPrim(c, p))
    ensures c in w.procs && p in w.prims
    ensures Apply(s, Micro.AddPrim(c, p)) ==
            State(EnrolledPrim(s.reg, c, p),
                  s.stop.(prims := s.stop.prims[p := PrimStop([], 0)]),
                  s.over.(prims := s.over.prims[p := null]),
                  s.run,
                  s.own.(prims := s.own.prims[p := 0]),
                  s.marks.(prims := s.marks.prims - {p}))
  {
    hide Core, LivePrims;
    KeysOfCore(w, s);
  }

  lemma ProcessOfLive(w: World, s: State)
    requires Core(w, s)
    ensures forall t :: LiveTask(s, t) ==> t in w.tasks && t in s.reg.tasks && s.reg.tasks[t] != null && s.reg.tasks[t] in w.procs
    ensures forall p :: LivePrim(s, p) ==> p in w.prims && p in s.reg.prims && s.reg.prims[p] != null && s.reg.prims[p] in w.procs
  {
    hide StopOk, OverOk, ExecOk, OwnOk, SameProcess, ClosedBut, NoDup, ProcessOk;
  }

  lemma DropTaskFacts(w: World, s: State, t: Task)
    requires Core(w, s) && Ok(w, s, Micro.DropTask(t))
    ensures t in w.tasks && t in s.reg.tasks && s.reg.tasks[t] != null && s.reg.tasks[t] in w.procs
    ensures Apply(s, Micro.DropTask(t)) == s.(reg := Unenrolled(s.reg, s.reg.tasks[t], t), stop := s.stop.(actives := Remove(s.stop.actives, t)))
  {
    hide Core, LiveTasks, Remove;
    KeysOfCore(w, s);
    ProcessOfLive(w, s);
  }

  lemma DropPrimFacts(w: World, s: State, p: Prim)
    requires Core(w, s) && Ok(w, s, Micro.DropPrim(p))
    ensures p in w.prims && p in s.reg.prims && s.reg.prims[p] != null && s.reg.prims[p] in w.procs
    ensures Apply(s, Micro.DropPrim(p)) == s.(reg := UnenrolledPrim(s.reg, s.reg.prims[p], p))
  {
    hide Core, LivePrims, Remove;
    KeysOfCore(w, s);
    ProcessOfLive(w, s);
  }

  lemma AddThreadFacts(w: World, s: State, h: Thread)
    requires Ok(w, s, Micro.AddThread(h))
    ensures h in w.threads
    ensures Apply(s, Micro.AddThread(h)) ==
            s.(run := s.run.(threads := s.run.threads[h := ThreadRun(null, USIZE_MAX, [], 0)], list := [h] + s.run.list, count := s.run.count + 1))
  {
  }

  lemma DropThreadFacts(w: World, s: State, h: Thread)
    ensures Apply(s, Micro.DropThread(h)) == s.(run := s.run.(list := Remove(s.run.list, h), count := s.run.count - 1))
  {
    hide Remove;
  }

  lemma AddProcessFacts(w: World, s: State, c: Process)
    requires Ok(w, s, Micro.AddProcess(c))
    ensures c in w.procs
    ensures Apply(s, Micro.AddProcess(c)) ==
            s.(reg := s.reg.(procs := s.reg.procs[c := ProcessReg([], 0, [], 0, Active)], list := [c] + s.reg.list, count := s.reg.count + 1))
  {
  }

  lemma DropProcessFacts(w: World, s: State, c: Process)
    requires Core(w, s) && Ok(w, s, Micro.DropProcess(c))
    ensures c in w.procs && c in s.reg.procs && forall t :: t in s.reg.procs[c].tasks ==> t in w.tasks
    ensures Apply(s, Micro.DropProcess(c)) ==
            s.(reg := s.reg.(list := Remove(s.reg.list, c), count := s.reg.count - 1),
               stop := s.stop.(actives := RemoveAll(s.stop.actives, ActiveOf(s.stop, s.reg.procs[c].tasks))))
  {
    hide Core, Remove, RemoveAll, ActiveOf, LiveTasks, LivePrims;
    KeysOfCore(w, s);
    TasksOfProcess(w, s, c);
    ProcessOfLive(w, s);
  }

  lemma NoneRemoved(s: seq<Task>, g: StopGraph)
    ensures RemoveAll(s, ActiveOf(g, [])) == s
  {
  }

  lemma RemovesNext(g: StopGraph, ts: seq<Task>, i: nat)
    requires i < |ts|
    ensures var rest := RemoveAll(g.actives, ActiveOf(g, ts[..i]));
            RemoveAll(g.actives, ActiveOf(g, ts[..i + 1]))
            == if ts[i] in g.tasks && g.tasks[ts[i]].status == Active then Remove(rest, ts[i]) else rest
  {
    hide Remove;
    assert ts[..i + 1][..i] == ts[..i];
    var a := ActiveOf(g, ts[..i]);
    assert (a + [ts[i]])[..|a|] == a;
    assert a + [] == a;
  }

  lemma SetStatusFacts(w: World, s: State, c: Process, status: Status)
    requires Core(w, s) && Ok(w, s, Micro.SetStatus(c, status))
    ensures c in w.procs && c in s.reg.procs
    ensures Apply(s, Micro.SetStatus(c, status)) == s.(reg := s.reg.(procs := s.reg.procs[c := s.reg.procs[c].(status := status)]))
  {
    hide Core;
    KeysOfCore(w, s);
  }

  lemma OpenFacts(w: World, s: State)
    requires Core(w, s) && !s.run.committing
    ensures Core(w, Apply(s, Micro.OpenCommit)) <==> s.run.index + 1 < USIZE_MAX
  {
    hide Core;
    IndexOfCore(w, s);
    if s.run.index + 1 < USIZE_MAX {
      StepKeepsCore(w, s, Micro.OpenCommit);
    } else if Core(w, Apply(s, Micro.OpenCommit)) {
      IndexOfCore(w, Apply(s, Micro.OpenCommit));
    }
  }

  lemma CommitFacts(s: State)
    ensures Apply(s, Micro.OpenCommit) == s.(run := s.run.(committing := true, index := (s.run.index + 1) % (USIZE_MAX + 1)))
    ensures Apply(s, Micro.CloseCommit) == s.(run := s.run.(committing := false))
  {
  }

  lemma ClearFacts(s: State, c: Marks)
    ensures Apply(s, Micro.ClearMarks(c)) == s.(marks := Marks(s.marks.tasks - c.tasks, s.marks.prims - c.prims))
  {
  }

  lemma StopFacts(w: World, s: State, p: Prim, t: Task)
    requires Core(w, s) && Ok(w, s, Micro.Stop(p, t))
    ensures t in w.tasks && p in w.prims && p in LivePrims(s.reg)
    ensures var g := LinkedStop(s.stop, p, t);
            && LiveEdges(EdgesOf(g, s.over), LiveTasks(s.reg), LivePrims(s.reg))
            && Apply(s, Micro.Stop(p, t)) == s.(stop := Deactivated(g, t), marks := Walk(EdgesOf(g, s.over), s.marks, PrimNode(p)))
  {
    hide Core, LiveTasks, LivePrims, LiveEdges, Remove, Walk;
    LiveObjectsExist(w, s);
    StoppedOfCore(w, s, p);
    StepKeepsCore(w, s, Micro.Stop(p, t));
    EdgesOfCore(w, Apply(s, Micro.Stop(p, t)));
    assert Deactivated(LinkedStop(s.stop, p, t), t) == Model.StopTask(s.stop, p, t);
    assert EdgesOf(LinkedStop(s.stop, p, t), s.over) == EdgesOf(Model.StopTask(s.stop, p, t), s.over);
  }

  lemma ResumeFacts(w: World, s: State, t: Task)
    requires Core(w, s) && Ok(w, s, Micro.Resume(t))
    ensures t in w.tasks && t in s.stop.tasks
    ensures var p := s.stop.tasks[t].stopper;
            && p != null && p in w.prims && p in LivePrims(s.reg)
            && var g := UnlinkedStop(s.stop.(actives := [t] + s.stop.actives), p, t);
            && LiveEdges(EdgesOf(g, s.over), LiveTasks(s.reg), LivePrims(s.reg))
            && Apply(s, Micro.Resume(t)) == s.(stop := Activated(g, t), marks := Walk(EdgesOf(g, s.over), s.marks, PrimNode(p)))
  {
    hide Core, LiveTasks, LivePrims, LiveEdges, Remove, Walk;
    LiveObjectsExist(w, s);
    StoppedHasStopper(w, s, t);
    StepKeepsCore(w, s, Micro.Resume(t));
    EdgesOfCore(w, Apply(s, Micro.Resume(t)));
    var p := s.stop.tasks[t].stopper;
    var g := UnlinkedStop(s.stop.(actives := [t] + s.stop.actives), p, t);
    assert Activated(g, t) == Model.ResumeTask(s.stop, t);
    assert EdgesOf(g, s.over) == EdgesOf(Model.ResumeTask(s.stop, t), s.over);
  }

  lemma UnlinkFacts(w: World, s: State, p: Prim)
    requires Core(w, s) && Ok(w, s, Micro.Unlink(p))
    ensures p in w.prims && p in s.over.prims
    ensures var t := s.over.prims[p];
            if t == null then Apply(s, Micro.Unlink(p)) == s
            else
              && t in w.tasks && t in LiveTasks(s.reg)
              && var g := UnlinkOverride(s.over, p);
              && LiveEdges(EdgesOf(s.stop, g), LiveTasks(s.reg), LivePrims(s.reg))
              && Apply(s, Micro.Unlink(p)) == s.(over := g, marks := Walk(EdgesOf(s.stop, g), s.marks, TaskNode(t)))
  {
    hide Core, LiveTasks, LivePrims, LiveEdges, Walk, EdgesOf, UnlinkOverride;
    LiveObjectsExist(w, s);
    OverriddenOfCore(w, s, p);
    StepKeepsCore(w, s, Micro.Unlink(p));
    EdgesOfCore(w, Apply(s, Micro.Unlink(p)));
  }

  lemma OverrideIsOk(w: World, s: State, p: Prim, t: Task)
    requires Core(w, s) && Compatible(s, p, t)
    ensures Ok(w, s, Micro.Unlink(p)) && Ok(w, Apply(s, Micro.Unlink(p)), Micro.Link(p, t))
  {
    hide Core, Compatible, Ok, Apply;
    OverrideOk(w, s, p, t);
    TwoSteps(w, s, Micro.Unlink(p), Micro.Link(p, t));
  }

  lemma LinkFacts(w: World, s: State, p: Prim, t: Task)
    requires Core(w, s) && Ok(w, s, Micro.Link(p, t))
    ensures p in w.prims && t in w.tasks && t in LiveTasks(s.reg)
    ensures var g := LinkOverride(s.over, p, t);
            && LiveEdges(EdgesOf(s.stop, g), LiveTasks(s.reg), LivePrims(s.reg))
            && Apply(s, Micro.Link(p, t)) == s.(over := g, marks := Walk(EdgesOf(s.stop, g), s.marks, TaskNode(t)))
  {
    hide Core, LiveTasks, LivePrims, LiveEdges, Walk, EdgesOf, LinkOverride;
    LiveObjectsExist(w, s);
    StepKeepsCore(w, s, Micro.Link(p, t));
    EdgesOfCore(w, Apply(s, Micro.Link(p, t)));
  }

  lemma TakeFacts(w: World, s: State, p: Prim, t: Task)
    requires Core(w, s) && Ok(w, s, Micro.Take(p, t))
    ensures p in w.prims && t in w.tasks && p in s.own.prims && t in s.own.tasks
    ensures Apply(s, Micro.Take(p, t)) == s.(own := Ownership(s.own.tasks[t := s.own.tasks[t] + 1], s.own.prims[p := s.own.prims[p] + 1]))
  {
    hide Core, LiveTasks, LivePrims;
    LiveObjectsExist(w, s);
  }

  lemma ReleaseFacts(w: World, s: State, p: Prim, t: Task)
    requires Core(w, s) && Ok(w, s, Micro.Release(p, t))
    ensures p in w.prims && t in w.tasks && p in s.own.prims && t in s.own.tasks
    ensures Apply(s, Micro.Release(p, t)) == s.(own := ReleaseCounters(s.own, p, t))
  {
    hide Core, LiveTasks, LivePrims, ReleaseCounters;
    LiveObjectsExist(w, s);
  }

  lemma WalkFromRoot(e: Edges, m: Marks)
    ensures Walk(e, m, Root) == m
  {
  }
}
