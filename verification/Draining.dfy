/** The loops that remove the object being visited (src/sched/sched.c:604-613,
  * 692-700, 811-819): what is left of the list is always the part not yet
  * visited, so the next object is its head. */
module Draining {
  import opened Lists
  import opened Objects
  import opened Marking
  import opened Model
  import opened Invariant
  import opened Operations
  import opened Plans
  import opened Calls

  lemma HeadGone<T>(ts: seq<T>, i: nat)
    requires NoDup(ts) && i < |ts|
    ensures Remove(ts[i..], ts[i]) == ts[i + 1..]
  {
    RemoveHead(ts[i..]);
  }

  lemma LastPart<T>(ts: seq<T>, i: nat)
    requires 0 < i <= |ts|
    ensures ts[..i] == ts[..i - 1] + [ts[i - 1]] && ts[..i][..i - 1] == ts[..i - 1]
  {
  }

  lemma PartNoDup<T>(ts: seq<T>, i: nat)
    requires NoDup(ts) && i <= |ts|
    ensures NoDup(ts[..i]) && (i < |ts| ==> ts[i] !in ts[..i])
  {
  }

  // ----------------------------------------------------------- stopped tasks

  lemma ResumeTakesOne(s: State, p: Prim, t: Task)
    requires p in s.stop.prims && t in s.stop.tasks && s.stop.tasks[t].stopper == p
    ensures p in Apply(s, Micro.Resume(t)).stop.prims
    ensures Waiting(Apply(s, Micro.Resume(t)), p) == Remove(Waiting(s, p), t)
  {
    hide Walk, EdgesOf, Remove;
  }

  /** Unregistering a primitive and resuming a process. */
  lemma {:induction false} StoppedDrains(w: World, s: State, p: Prim, i: nat)
    requires Core(w, s) && LivePrim(s, p) && i <= |Waiting(s, p)|
    ensures var s1 := ApplyAll(s, Resumes(Waiting(s, p)[..i]));
            p in s1.stop.prims && Waiting(s1, p) == Waiting(s, p)[i..]
    decreases i
  {
    hide Core, Ok, Apply, LivePrims, LiveTasks, NoDup;
    StoppedOfCore(w, s, p);
    var ts := Waiting(s, p);
    if i > 0 {
      StoppedDrains(w, s, p, i - 1);
      LastPart(ts, i);
      PartNoDup(ts, i - 1);
      assert Resumes(ts[..i]) == Resumes(ts[..i - 1]) + [Micro.Resume(ts[i - 1])];
      ResumesFacts(w, s, ts[..i - 1]);
      var s1 := ApplyAll(s, Resumes(ts[..i - 1]));
      assert (Resumes(ts[..i - 1]) + [Micro.Resume(ts[i - 1])])[..i - 1] == Resumes(ts[..i - 1]);
      ResumeTakesOne(s1, p, ts[i - 1]);
      HeadGone(ts, i - 1);
    } else {
      assert Resumes(ts[..0]) == [];
    }
  }

  // -------------------------------------------------------------- overriders

  lemma UnlinkTakesOne(s: State, p: Prim, t: Task)
    requires p in s.over.prims && s.over.prims[p] == t && t in s.over.tasks
    ensures var g := Apply(s, Micro.Unlink(p)).over; t in g.tasks && g.tasks[t].overriders == Remove(s.over.tasks[t].overriders, p)
  {
    hide Walk, EdgesOf, Remove;
  }

  lemma OverriderLists(w: World, s: State, t: Task)
    requires Core(w, s) && LiveTask(s, t)
    ensures t in s.over.tasks && NoDup(s.over.tasks[t].overriders)
  {
    hide RegistryOk, StopOk, ExecOk, OwnOk, SameProcess, ClosedBut, LiveTasks, LivePrims, NoDup;
  }

  /** Unregistering a task. */
  lemma {:induction false} OverridersDrain(w: World, s: State, t: Task, i: nat)
    requires Core(w, s) && LiveTask(s, t) && t in s.over.tasks && i <= |s.over.tasks[t].overriders|
    ensures var s1 := ApplyAll(s, Unlinks(s.over.tasks[t].overriders[..i]));
            t in s1.over.tasks && s1.over.tasks[t].overriders == s.over.tasks[t].overriders[i..]
    decreases i
  {
    hide Core, Ok, Apply, LivePrims, LiveTasks, NoDup;
    OverridersKnown(w, s, t);
    OverriderLists(w, s, t);
    var ps := s.over.tasks[t].overriders;
    if i > 0 {
      OverridersDrain(w, s, t, i - 1);
      LastPart(ps, i);
      PartNoDup(ps, i - 1);
      assert Unlinks(ps[..i]) == Unlinks(ps[..i - 1]) + [Micro.Unlink(ps[i - 1])];
      assert forall p :: p in ps[..i - 1] ==> Ok(w, s, Micro.Unlink(p)) by { UnlinksAreOk(w, s, ps); }
      UnlinksFacts(w, s, ps[..i - 1]);
      var s1 := ApplyAll(s, Unlinks(ps[..i - 1]));
      assert (Unlinks(ps[..i - 1]) + [Micro.Unlink(ps[i - 1])])[..i - 1] == Unlinks(ps[..i - 1]);
      UnlinkTakesOne(s1, ps[i - 1], t);
      HeadGone(ps, i - 1);
    } else {
      assert Unlinks(ps[..0]) == [];
    }
  }

  lemma UnlinksAreOk(w: World, s: State, ps: seq<Prim>)
    requires forall p :: p in ps ==> LivePrim(s, p)
    ensures forall p :: p in ps ==> Ok(w, s, Micro.Unlink(p))
  {
  }

  // --------------------------------------------------------------- histories

  lemma DetachTakesOne(s: State, h: Thread, t: Task)
    requires h in s.run.threads && t in s.run.tasks && s.run.tasks[t].thread == h
    ensures var g := Apply(s, Micro.Detach(t)).run; h in g.threads && g.threads[h].history == Remove(s.run.threads[h].history, t)
  {
    hide Remove;
  }

  /** Unregistering a thread. */
  lemma {:induction false} HistoryDrains(w: World, s: State, h: Thread, i: nat)
    requires Core(w, s) && h in s.run.list && h in s.run.threads && i <= |s.run.threads[h].history|
    ensures var s1 := ApplyAll(s, Detaches(s.run.threads[h].history[..i]));
            h in s1.run.threads && s1.run.threads[h].history == s.run.threads[h].history[i..]
    decreases i
  {
    hide Core, Ok, Apply, NoDup;
    ThreadTasksAreDetachable(w, s, h);
    var ts := s.run.threads[h].history;
    if i > 0 {
      HistoryDrains(w, s, h, i - 1);
      LastPart(ts, i);
      PartNoDup(ts, i - 1);
      assert Detaches(ts[..i]) == Detaches(ts[..i - 1]) + [Micro.Detach(ts[i - 1])];
      DetachesFacts(w, s, ts[..i - 1]);
      var s1 := ApplyAll(s, Detaches(ts[..i - 1]));
      assert (Detaches(ts[..i - 1]) + [Micro.Detach(ts[i - 1])])[..i - 1] == Detaches(ts[..i - 1]);
      DetachTakesOne(s1, h, ts[i - 1]);
      HeadGone(ts, i - 1);
    } else {
      assert Detaches(ts[..0]) == [];
    }
  }
}
