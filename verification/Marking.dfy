/** Update propagation in the tasks-primitives tree (src/sched/sched.c:28-120):
  * the walk that stops at the first marked object, and why it still marks
  * every ancestor, whether or not the parent edges form a deadlock cycle. */
module Marking {
  import opened Objects

  /** Parent edges: the stopper of a task, the task a primitive overrides. */
  datatype Edges = Edges(stopper: map<Task, Prim?>, overridden: map<Prim, Task?>)

  /** The objects whose "updated" flag is set. */
  datatype Marks = Marks(tasks: set<Task>, prims: set<Prim>)

  datatype Node = TaskNode(task: Task) | PrimNode(prim: Prim) | Root

  predicate Marked(m: Marks, n: Node) {
    match n
    case TaskNode(t) => t in m.tasks
    case PrimNode(p) => p in m.prims
    case Root => true
  }

  function Mark(m: Marks, n: Node): Marks {
    match n
    case TaskNode(t) => m.(tasks := m.tasks + {t})
    case PrimNode(p) => m.(prims := m.prims + {p})
    case Root => m
  }

  function Parent(e: Edges, n: Node): Node {
    match n
    case TaskNode(t) => if t in e.stopper && e.stopper[t] != null then PrimNode(e.stopper[t]) else Root
    case PrimNode(p) => if p in e.overridden && e.overridden[p] != null then TaskNode(e.overridden[p]) else Root
    case Root => Root
  }

  predicate Known(e: Edges, n: Node) {
    match n
    case TaskNode(t) => t in e.stopper
    case PrimNode(p) => p in e.overridden
    case Root => true
  }

  function Unmarked(e: Edges, m: Marks): nat {
    |e.stopper.Keys - m.tasks| + |e.overridden.Keys - m.prims|
  }

  lemma MarkShrinks(e: Edges, m: Marks, n: Node)
    requires Known(e, n) && !Marked(m, n)
    ensures Unmarked(e, Mark(m, n)) < Unmarked(e, m)
  {
    match n
    case TaskNode(t) => AddingShrinks(e.stopper.Keys, m.tasks, t);
    case PrimNode(p) => AddingShrinks(e.overridden.Keys, m.prims, p);
  }

  lemma AddingShrinks<T>(all: set<T>, s: set<T>, x: T)
    requires x in all && x !in s
    ensures |all - (s + {x})| < |all - s|
  {
    assert all - (s + {x}) == (all - s) - {x};
  }

  /** Marks `n` and its parents until a marked object or a root is met. */
  function Walk(e: Edges, m: Marks, n: Node): Marks
    decreases Unmarked(e, m)
  {
    if !Known(e, n) || Marked(m, n) then m
    else
      MarkShrinks(e, m, n);
      Walk(e, Mark(m, n), Parent(e, n))
  }

  /** One round of the walk. */
  lemma WalkRound(e: Edges, m: Marks, n: Node)
    ensures Marked(m, n) ==> Walk(e, m, n) == m
    ensures Known(e, n) && !Marked(m, n) ==>
              Unmarked(e, Mark(m, n)) < Unmarked(e, m) && Walk(e, m, n) == Walk(e, Mark(m, n), Parent(e, n))
  {
    if Known(e, n) && !Marked(m, n) {
      MarkShrinks(e, m, n);
    }
  }

  /** The object reached after `k` parent edges. */
  function Up(e: Edges, n: Node, k: nat): Node
    decreases k
  {
    if k == 0 then n else Up(e, Parent(e, n), k - 1)
  }

  ghost predicate IsAncestor(e: Edges, n: Node, a: Node) {
    exists k: nat :: Up(e, n, k) == a
  }

  /** Registered objects: their parents are registered too. */
  ghost predicate Live(lt: set<Task>, lp: set<Prim>, n: Node) {
    match n
    case TaskNode(t) => t in lt
    case PrimNode(p) => p in lp
    case Root => true
  }

  ghost predicate LiveEdges(e: Edges, lt: set<Task>, lp: set<Prim>) {
    && lt <= e.stopper.Keys && lp <= e.overridden.Keys
    && (forall t :: t in lt ==> Live(lt, lp, Parent(e, TaskNode(t))))
    && (forall p :: p in lp ==> Live(lt, lp, Parent(e, PrimNode(p))))
  }

  /** The parent of a marked registered object is marked, `x` excepted. */
  ghost predicate ClosedBut(e: Edges, lt: set<Task>, lp: set<Prim>, m: Marks, x: Node) {
    && (forall t :: t in lt && t in m.tasks ==> var n := Parent(e, TaskNode(t)); n == x || Marked(m, n))
    && (forall p :: p in lp && p in m.prims ==> var n := Parent(e, PrimNode(p)); n == x || Marked(m, n))
  }

  ghost predicate Closed(e: Edges, lt: set<Task>, lp: set<Prim>, m: Marks) {
    ClosedBut(e, lt, lp, m, Root)
  }

  lemma MarkMovesGap(e: Edges, lt: set<Task>, lp: set<Prim>, m: Marks, n: Node)
    requires LiveEdges(e, lt, lp) && Live(lt, lp, n) && ClosedBut(e, lt, lp, m, n) && !Marked(m, n)
    ensures Known(e, n) && ClosedBut(e, lt, lp, Mark(m, n), Parent(e, n)) && Live(lt, lp, Parent(e, n))
  {
  }

  lemma GapIsFilled(e: Edges, lt: set<Task>, lp: set<Prim>, m: Marks, n: Node)
    requires ClosedBut(e, lt, lp, m, n) && Marked(m, n)
    ensures Closed(e, lt, lp, m)
  {
  }

  /** A walk from the one object that may break the closure restores it. */
  lemma {:induction false} WalkCloses(e: Edges, lt: set<Task>, lp: set<Prim>, m: Marks, n: Node)
    requires LiveEdges(e, lt, lp) && Live(lt, lp, n) && ClosedBut(e, lt, lp, m, n)
    ensures Closed(e, lt, lp, Walk(e, m, n)) && Marked(Walk(e, m, n), n)
    ensures m.tasks <= Walk(e, m, n).tasks && m.prims <= Walk(e, m, n).prims
    decreases Unmarked(e, m)
  {
    hide ClosedBut, LiveEdges, Live, Parent;
    if Marked(m, n) {
      GapIsFilled(e, lt, lp, m, n);
    } else {
      MarkMovesGap(e, lt, lp, m, n);
      MarkShrinks(e, m, n);
      WalkCloses(e, lt, lp, Mark(m, n), Parent(e, n));
    }
  }

  /** A walk marks nothing but ancestors of its start. */
  lemma {:induction false} WalkMarksOnlyAncestors(e: Edges, m: Marks, n: Node, a: Node)
    requires Marked(Walk(e, m, n), a)
    ensures Marked(m, a) || IsAncestor(e, n, a)
    decreases Unmarked(e, m)
  {
    if Known(e, n) && !Marked(m, n) {
      MarkShrinks(e, m, n);
      WalkMarksOnlyAncestors(e, Mark(m, n), Parent(e, n), a);
      ParentsAncestor(e, n, a);
      assert Up(e, n, 0) == n;
    }
  }

  lemma ParentsAncestor(e: Edges, n: Node, a: Node)
    ensures IsAncestor(e, Parent(e, n), a) ==> IsAncestor(e, n, a)
  {
    if IsAncestor(e, Parent(e, n), a) {
      var k: nat :| Up(e, Parent(e, n), k) == a;
      assert Up(e, n, k + 1) == a;
    }
  }

  /** In a closed set of marks, all ancestors of a marked object are marked. */
  lemma {:induction false} ClosedAncestors(e: Edges, lt: set<Task>, lp: set<Prim>, m: Marks, n: Node, k: nat)
    requires LiveEdges(e, lt, lp) && Live(lt, lp, n) && Closed(e, lt, lp, m) && Marked(m, n)
    ensures Marked(m, Up(e, n, k))
    decreases k
  {
    if k > 0 {
      ClosedAncestors(e, lt, lp, m, Parent(e, n), k - 1);
    }
  }

  /** The early-stopping walk equals the full ancestor walk: it adds exactly
    * the start and all its ancestors to the marks. */
  lemma WalkIsFullAncestorWalk(e: Edges, lt: set<Task>, lp: set<Prim>, m: Marks, n: Node, a: Node)
    requires LiveEdges(e, lt, lp) && Live(lt, lp, n) && ClosedBut(e, lt, lp, m, n)
    ensures Marked(Walk(e, m, n), a) <==> Marked(m, a) || IsAncestor(e, n, a)
  {
    WalkCloses(e, lt, lp, m, n);
    if Marked(Walk(e, m, n), a) {
      WalkMarksOnlyAncestors(e, m, n, a);
    } else if IsAncestor(e, n, a) {
      var k: nat :| Up(e, n, k) == a;
      ClosedAncestors(e, lt, lp, Walk(e, m, n), n, k);
    }
  }

  lemma DeadlockParents(e: Edges, t: Task, u: Task, a: Prim, b: Prim)
    requires e == Edges(map[t := b, u := a], map[a := t, b := u]) && t != u && a != b
    ensures Parent(e, TaskNode(t)) == PrimNode(b) && Parent(e, PrimNode(b)) == TaskNode(u)
    ensures Parent(e, TaskNode(u)) == PrimNode(a) && Parent(e, PrimNode(a)) == TaskNode(t)
    ensures Known(e, TaskNode(t)) && Known(e, PrimNode(b)) && Known(e, TaskNode(u)) && Known(e, PrimNode(a))
  {
  }

  /** Two tasks that wait for each other's mutexes: the parent edges form a
    * cycle, and the walk ends having marked all of it. */
  lemma DeadlockCycle(t: Task, u: Task, a: Prim, b: Prim)
    requires t != u && a != b
    ensures var e := Edges(map[t := b, u := a], map[a := t, b := u]);
            && Up(e, TaskNode(t), 4) == TaskNode(t)
            && Walk(e, Marks({}, {}), TaskNode(t)) == Marks({t, u}, {a, b})
  {
    hide Walk, Parent, Known, Unmarked;
    var e := Edges(map[t := b, u := a], map[a := t, b := u]);
    DeadlockParents(e, t, u, a, b);
    var m := Marks({}, {});
    var m1 := Mark(m, TaskNode(t));
    var m2 := Mark(m1, PrimNode(b));
    var m3 := Mark(m2, TaskNode(u));
    var m4 := Mark(m3, PrimNode(a));
    WalkRound(e, m, TaskNode(t));
    WalkRound(e, m1, PrimNode(b));
    WalkRound(e, m2, TaskNode(u));
    WalkRound(e, m3, PrimNode(a));
    WalkRound(e, m4, TaskNode(t));
    assert m4.tasks == {t, u} && m4.prims == {a, b};
  }
}
