/** The objects of the scheduler (include/sched/sched.h). Lists are sequences:
  * inserting after the head makes an element first, inserting before it makes
  * it last. Back pointers to the one scheduler are not stored. */
module Objects {

  datatype Status = Unregistered | Stopped | Active

  /** The largest `usize`; as a commit index it marks "never active". */
  const USIZE_MAX: int := 0xFFFF_FFFF_FFFF_FFFF

  class Task {
    var status: Status
    var updated: bool
    var commit: int
    var process: Process?
    var nbOwnedPrimitives: nat
    var stopper: Prim?
    var nbOverrides: int
    var overriders: seq<Prim>
    var thread: Thread?
  }

  class Prim {
    var process: Process?
    var updated: bool
    var nbOwningTasks: nat
    var nbStoppedTasks: int
    var stopped: seq<Task>
    var overridden: Task?
  }

  class Process {
    var status: Status
    var tasks: seq<Task>
    var nbTasks: int
    var primitives: seq<Prim>
    var nbPrimitives: int
    /** The primitive that stops the whole process. */
    const prim: Prim

    constructor (prim: Prim) {
      this.prim := prim;
    }
  }

  class Thread {
    var commit: int
    var task: Task?
    /** Most recent first. */
    var history: seq<Task>
    var historySize: int
  }

  /** All objects that may ever be registered. */
  datatype World = World(tasks: set<Task>, prims: set<Prim>, procs: set<Process>, threads: set<Thread>)
}
