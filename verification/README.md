# A verified model of kerneltk's scheduler and ELF loader

The project models two parts of the repository in Dafny and proves what they are for.

**The scheduler** (`src/sched/sched.c`, `mutex.c`, `sem.c`). Tasks, primitives, processes and threads refer to each
other through lists, back references and counters.

- `Objects`, `Heap`, `Functions` and `Sync` are the program: classes whose methods update the
  fields in place, in the order of the source, with its loops. Their contracts tie the new memory to a specification
  state: `S() == Step(old(S()), call)`.
- `Model` and `Operations` are that specification: the state as a value in six groups, twenty elementary steps, and
  each public function as the plan of the steps it takes. `Invariant`, `Plans` and `Calls` prove that every step of
  every plan is legal where it is taken and that the scheduler-wide invariant is kept; `Draining` that the loops which
  remove the visited object take the list from its head.
- On top of it stand the theorems about whole runs, any sequence of legal calls from any state with the invariant:
  `Runs` (no active thread runs a stopped task), `Structure` (one place per task, links, counters, update marks),
  `Pausing`, `Queueing` (first in, first out), `Holding` (the ownership counters are row and column sums), `Totals`,
  `Mutexes`, `Semaphores`, `Commits`, `Unregistering` and `RoundTrips`; `Witnesses` holds small concrete states.
- `Effects` and `Registering` say of every public call what it leaves in the fields of the objects and that it leaves
  everything else alone, without plans and steps, so that the plans are held to the source as well.

**The relocatable loader** (`src/loader/loader.c`, `arch/rel_x86.c`). `Tables`, `Symbols`, `Images` and `Loader` are
its three passes, with their table loops, error codes and partial effects. Each pass is proved to do what a list of
results, one per table entry, says up to the first failure. `Widths` and `Patching` treat the bytes, `Resolution` who
gets which address, `Positions` the independence of the load address; `Loading` composes the passes. `Readings` and
`Relocating`, with the last part of `Resolution`, state results, writes and failures in the fields and the numbers of
the headers only. Section 4.4 of the System V AMD64 psABI and the
chapters "Symbol Table" and "Relocation" of the System V gABI are what the results are compared with.

## Decisions

Hooks. What the `s_ops` hooks decide is a parameter of the call: `next` is the task `s_assign_one` picks, `cleared`
the flags `s_schedule` resets and `plan` the assignments of `s_assign_all`. `Legal` holds what is demanded of them: only
active registered tasks (or none) are assigned, and the marks stay closed under the parent edges.

Checks. `ns_check` is a precondition. `Legal` also demands that an object being registered is not linked anywhere:
it is not registered, and a task is in no thread's history. One scheduler exists, so the back pointers to it are left
out; an object's `process` field is kept. The source has no constructor for it (`include/sched/sched.h:381`); the model's
makes an idle one.

Where the code departs from its stated intent and would corrupt its own structures, the intent is modelled:

- The task flag "updated" has the value of the status ACTIVE (`include/sched/sched.h:35`, `include/sched/sched.h:115`);
  it is a field of its own here.
- The overrider list is linked through `p_siblings` (`src/sched/sched.c:316`, `src/sched/sched.c:361`) and walked through
  `p_overriders` (`src/sched/sched.c:606`); it is one list here.
- "Resume the first task" takes the list head for the task (`src/sched/mutex.c:144`, `src/sched/sem.c:117`); here it is the
  first element.
- `sched_resume_process` walks the stopped list through `t_siblings` (`src/sched/sched.c:963`); here it walks that list.
- `primitive_stop_task` checks that the task is active in the current commit (`src/sched/sched.c:452`), which no task is
  while a process is paused; pausing demands status ACTIVE, and the check is made where a thread's task is stopped.
- `process_register_prim` resets the counter of the process and does not link the primitive (`src/sched/sched.c:652-661`);
  here it is linked and counted.
- `process_unregister_task` removes the task from the active list twice and never from its process
  (`src/sched/sched.c:600`, `src/sched/sched.c:622`); here it leaves both where the second removal is.

Where it does not, the code is followed:

- `primitive_release_ownership` decrements the primitive's counter even if the task's is null (`src/sched/sched.c:273-282`).
- Unlocking a mutex resumes the first waiting task but makes nobody the owner, unlike its comment says
  (`include/sched/mutex.h:55-56`).
- `rmld_apply_relocations` returns 0 whatever happened (`src/loader/loader.c:668`); the model has the caught error as a
  second result.
- `loader_assign_symbols` returns the error code, not the index of the failing table its comment promises
  (`src/loader/loader.c:447-449`, `src/loader/loader.c:492`).
- The signed range check of a width accepts values of twice the range (`arch/rel_x86.c:71`); the exact condition under
  which an accepted value is right is proved, with a value for which it is wrong.
- Name offsets are scaled by the entry size of the string table, and a null entry size is an error
  (`src/loader/loader.c:213`, `src/loader/loader.c:375`).

Three properties do not hold as one would first state them; each has its exact condition and a concrete state that
satisfies the invariant and fails it.

- The two totals of ownership counters agree. A call keeps that if and only if what it unregisters owns nothing, that is
  if `process_unregister_task` and `process_unregister_prim` return 0, or the totals of an unregistered process agree
  (`Totals.AgreementKeptIff`, `Totals.OwnerBreaksAgreement`).
- Resuming a paused process restores it. It does exactly if the process's primitive had stopped no task before
  (`Pausing.RestoredIff`, `Pausing.StoppedTaskIsResumed`).
- Opening a commit clears every activity flag. It does exactly if the new index is not the "never active" mark or every
  registered task has run (`Commits.OpeningClearsFlagsIff`, `Commits.NeverRunTaskBecomesActive`).

Loader. Pointers into the image are offsets from its first byte, tables do not reach past the end of the address space,
and the tables of an image are read as records; no relocation site overlaps a table. `try` and `throw_error` are
results that stop the pass.

## Model

| member | source | states |
|---|---|---|
| Marking.WalkCloses | src/sched/sched.c:36-120 | A propagation from the one object whose parent may be unmarked leaves the marks closed under the parent edges, keeps all old marks and marks its start |
| Marking.WalkMarksOnlyAncestors | src/sched/sched.c:36-120 | A propagation marks nothing but ancestors of its start |
| Marking.ClosedAncestors | src/sched/sched.c:36-120 | In closed marks every ancestor of a marked object, at any distance, is marked |
| Marking.WalkIsFullAncestorWalk | src/sched/sched.c:36-120 | The walk that stops at the first marked object adds exactly the start and all its ancestors, whatever the shape of the graph |
| Marking.DeadlockCycle | src/sched/sched.c:36-120 | Two tasks waiting for each other's mutexes form a cycle of parents, and the walk ends having marked all of it |
| Heap.Scheduler.TaskPropagateUpdate | src/sched/sched.c:36-75 | The loop over the flags terminates, sets exactly the marks of the specified walk and changes nothing else |
| Heap.Scheduler.PrimPropagateUpdate | src/sched/sched.c:83-120 | The same, started from a primitive |
| Structure.AncestorsAreMarked | src/sched/sched.c:36-120 | In every state of every run all ancestors of a marked registered object are marked, also around deadlock cycles |
| Structure.StepMarksAncestors | src/sched/sched.c:295-479 | Each override, un-override, stop and resume marks exactly its start and all ancestors in the new graph, besides what was marked |
| Structure.ParentsAreFields | src/sched/sched.c:28-120 | The parent of a task is its stopper, that of a primitive the task it overrides |
| Structure.MarkedParents | src/sched/sched.c:28-120 | In every reachable state the stopper of a marked task and the task a marked primitive overrides are marked |
| Structure.StartIsMarked | src/sched/sched.c:295-479 | Every stop and resume marks the primitive, every override and un-override the task |
| Heap.Scheduler.constructor | include/sched/sched.h:341-381 | A scheduler with nothing registered satisfies the invariant of runs |
| Heap.Scheduler.StopTask | src/sched/sched.c:442-479 | In memory: the task's stopper, status and lists, the counter and the marks are those of the specified step; the invariant is kept |
| Heap.Scheduler.ResumeTask | src/sched/sched.c:399-439 | In memory: the inverse update, the task first in the active list |
| Heap.Scheduler.Unoverride | src/sched/sched.c:295-388 | In memory: the primitive overrides nothing, is out of the task's list, and the update is propagated from that task |
| Heap.Scheduler.Override | src/sched/sched.c:339-372 | In memory: an old override is released first, then the primitive is first in the new task's overrider list |
| Heap.Scheduler.TakeOwnership | src/sched/sched.c:237-251 | In memory: both ownership counters grow by one |
| Heap.Scheduler.ReleaseOwnership | src/sched/sched.c:262-287 | In memory: both counters shrink, with the partial decrement and the error code of the source |
| Heap.Scheduler.DetachTask | src/sched/sched.c:130-162 | In memory: the task leaves its thread's history, and the thread is idle if it ran the task |
| Heap.Scheduler.AssignTask | src/sched/sched.c:171-223 | In memory: the task is transferred if needed and made current, with equal commit indices |
| Heap.Scheduler.RegisterTask | src/sched/sched.c:524-555 | In memory: an active task in the lists of its process and of the scheduler |
| Heap.Scheduler.RegisterPrim | src/sched/sched.c:644-663 | In memory: an empty primitive, linked and counted in its process |
| Heap.Scheduler.RegisterThread | src/sched/sched.c:738-755 | In memory: an idle thread with an empty history |
| Heap.Scheduler.UnregisterProcess | src/sched/sched.c:839-880 | In memory: the loop takes exactly the process's active tasks out of the active list |
| Heap.Scheduler.OpenCommit | src/sched/sched.c:1015-1026 | In memory: the index is incremented modulo 2^64, the commit opened; the invariant survives if and only if the new index is below 2^64 - 1 |
| Functions.StopThread | src/sched/sched.c:489-511 | In memory: the thread's task is stopped and the hook's choice assigned |
| Functions.UnregisterTask | src/sched/sched.c:567-635 | In memory: the loop un-overrides every overrider of the task while the list shrinks; the result is 1 if the task owned something |
| Functions.UnregisterPrim | src/sched/sched.c:673-717 | In memory: the loop resumes every stopped task while the list shrinks; the result is 1 if the primitive was owned |
| Functions.RegisterProcess | src/sched/sched.c:762-783 | In memory: an empty active process with its own primitive |
| Functions.UnregisterThread | src/sched/sched.c:791-829 | In memory: the loop takes every task of the history off the thread |
| Functions.PauseProcess | src/sched/sched.c:889-930 | In memory: the loop stops, through the process's primitive, exactly the tasks active when it began |
| Functions.ResumeProcess | src/sched/sched.c:940-976 | In memory: the loop resumes exactly the tasks the process's primitive stopped |
| Functions.CloseCommit | src/sched/sched.c:1034-1048 | In memory: the commit is closed, then the hooks clear flags and assign tasks |
| Sync.Mutex.constructor | src/sched/mutex.c:14-23 | The mutex's primitive is registered |
| Sync.Mutex.Lock | src/sched/mutex.c:32-54 | In memory: takes and overrides if nobody owns the mutex, stops the thread's task otherwise |
| Sync.Mutex.LockNb | src/sched/mutex.c:63-88 | In memory: the same without blocking; 1 if and only if nobody owned the mutex |
| Sync.Mutex.Unlock | src/sched/mutex.c:99-154 | In memory: the four results, the release and the wake-up of the first waiting task |
| Sync.Semaphore.constructor | src/sched/sem.c:13-27 | The semaphore's limit is set and its primitive registered |
| Sync.Semaphore.Take | src/sched/sem.c:35-56 | In memory: takes a unit unless the count equals the limit, stops the thread's task otherwise |
| Sync.Semaphore.TakeNb | src/sched/sem.c:65-86 | In memory: the same without blocking; 0 if and only if the count equals the limit |
| Sync.Semaphore.Release | src/sched/sem.c:97-126 | In memory: the release, the wake-up and the result |
| Effects.TakeEffect | src/sched/sched.c:237-251 | Both counters grow by one, nothing else changes |
| Effects.ReleaseEffect | src/sched/sched.c:262-287 | The primitive's counter shrinks unless null, then the task's unless null; the result is 0 exactly if both were positive |
| Effects.UnoverrideEffect | src/sched/sched.c:380-388 | The primitive overrides nothing and is out of the list of the task it overrode, whose counter shrinks; only update marks change besides |
| Effects.OverrideEffect | src/sched/sched.c:339-372 | The primitive overrides the task, first in its list, and is out of the list of the task it overrode before; only update marks change besides |
| Effects.ResumeTaskEffect | src/sched/sched.c:399-439 | The task is active, first in the active list and out of its stopper's list, whose counter shrinks; only update marks change besides |
| Effects.StopThreadEffect | src/sched/sched.c:489-511 | The thread's task is stopped, last in the primitive's list, and out of the active list; the thread gets the hook's choice |
| Effects.AssignRows | src/sched/sched.c:171-223 | A task of another thread leaves its history, which idles that thread if it ran the task, and comes first in the new one; a task of the same thread keeps its place; the indices are the current one |
| Effects.LockEffect | src/sched/mutex.c:32-54 | With no owner the task owns the mutex and is overridden; otherwise it is stopped by it, last in the queue, and the thread gets the hook's choice |
| Effects.LockNbEffect | src/sched/mutex.c:63-88 | The same without blocking: an owned mutex changes nothing |
| Effects.UnlockEffect | src/sched/mutex.c:99-154 | Each of the four results, when it is given and what it leaves: counters, override and the head of the queue |
| Effects.SemTakeEffect | src/sched/sem.c:35-56 | At the limit the task is stopped, last in the queue; otherwise it takes one unit |
| Effects.SemTakeNbEffect | src/sched/sem.c:65-86 | The same without blocking: at the limit nothing changes |
| Effects.SemReleaseEffect | src/sched/sem.c:97-126 | Counters, result and the head of the queue |
| Registering.RegisterThreadEffect | src/sched/sched.c:738-755 | An idle thread without history, first in the list; nothing else changes |
| Registering.RegisterTaskEffect | src/sched/sched.c:524-555 | An active, unmarked task without stopper, thread, overriders and ownerships, first in its lists; nothing else changes |
| Registering.RegisterPrimEffect | src/sched/sched.c:644-663 | A primitive that stops, owns and overrides nothing, first in its process; nothing else changes |
| Registering.RegisterProcessEffect | src/sched/sched.c:762-783 | An active process, first in the list, without tasks, whose own primitive is registered as its only one; it can be paused; nothing else changes |
| Registering.UnregisterThreadEffect | src/sched/sched.c:791-829 | The thread, and only it, leaves the list |
| Registering.UnregisterProcessEffect | src/sched/sched.c:839-880 | The process leaves the list and its tasks the active list, whose order stays; nothing else changes |
| Registering.UnregisterTaskEffect | src/sched/sched.c:567-635 | The task leaves its process, its thread and the active list; the thread gets the hook's choice; no other object's lists change |
| Registering.UnregisterPrimEffect | src/sched/sched.c:673-717 | The primitive leaves its process; tasks it stopped are active, the task it overrode is not overridden by it |
| Registering.PauseProcessEffect | src/sched/sched.c:889-930 | The status, and the active tasks appended in list order to the primitive of the process; nothing else but update marks changes |
| Registering.ResumeProcessEffect | src/sched/sched.c:940-976 | The status, and exactly the tasks its primitive stopped; the other queues stay; it can be paused again |
| Registering.OpenCommitEffect | src/sched/sched.c:1015-1026 | The flag and the index modulo 2^64; nothing else changes |
| Registering.CloseCommitEffect | src/sched/sched.c:1034-1048 | The flag, the marks the hook resets, and tasks and threads the hook assigns; nothing else changes |
| Functions.SingleStep | src/sched/sched.c:237-1026 | A public call made of one step is that step, so the methods specified by a step refine the call |
| Invariant.StepKeepsCore | src/sched/sched.c:130-880 | Every elementary update keeps the invariant over stop graph, override graph, threads, counters, registry and marks |
| Invariant.LiveAfter | src/sched/sched.c:524-880 | What each elementary update does to the sets of registered tasks and primitives, and which leave them |
| Plans.ResumesFacts | src/sched/sched.c:692-700 | Draining a stopped list: each task is still stopped when its turn comes, all are active at the end, nothing else changes |
| Plans.StopsFacts | src/sched/sched.c:913-925 | Stopping tasks one after the other appends them in order and touches no other task |
| Plans.UnlinksFacts | src/sched/sched.c:604-613 | Draining an overrider list un-overrides exactly its primitives |
| Plans.DetachesFacts | src/sched/sched.c:811-819 | Draining a history takes exactly its tasks off the thread and keeps every other history |
| Draining.StoppedDrains | src/sched/sched.c:692-700 | After i rounds the stopped list is what the loop has not visited: the next task is always its head |
| Draining.OverridersDrain | src/sched/sched.c:604-613 | The same for the overriders of a task being unregistered |
| Draining.HistoryDrains | src/sched/sched.c:811-819 | The same for the history of a thread being unregistered |
| Calls.CallKeepsCore | src/sched/sched.c:171-1048 | Every legal public call keeps the scheduler-wide invariant |
| Runs.InitialInv | include/sched/sched.h:341-381 | The invariant holds of a scheduler with nothing registered |
| Runs.CallKeepsRunActive | src/sched/sched.c:20-25 | No legal call lets an active thread run a task that is not active |
| Runs.RunKeepsInv | src/sched/sched.c:171-1048 | The invariant holds in every state of every run |
| Runs.ActiveThreadsRunActiveTasks | src/sched/sched.c:20-25 | In every state of every run an active thread's task is registered, ACTIVE, without stopper, and names the thread with an equal commit index |
| Structure.OnePlace | src/sched/sched.c:399-479 | In every reachable state a registered task is, exactly once, in the active list (ACTIVE, no stopper) or in the stopped list of its own stopper (STOPPED, same process), and in no other stopped list |
| Structure.LinksAgree | src/sched/sched.c:295-388 | In every reachable state the counters are the list lengths, and a primitive is in a task's overrider list, once, exactly if it overrides that task, within one process |
| Structure.OneThread | src/sched/sched.c:130-223 | In every reachable state a task is current of at most one thread, which it names with an equal commit index; the histories are disjoint, hold exactly the tasks naming the thread, and are counted |
| Pausing.PauseEffect | src/sched/sched.c:889-930 | A pause stops exactly the active tasks of the process, all through its primitive, in list order |
| Pausing.ResumeEffect | src/sched/sched.c:940-976 | A resume activates exactly the tasks the process's primitive stopped |
| Pausing.CallKeepsFrozen | src/sched/sched.c:237-511 | No call other than the named exceptions changes status or stopper of a paused process's tasks |
| Pausing.PausedStaysStopped | src/sched/sched.c:889-930 | From a pause on, through any allowed calls, no task of the process is active |
| Pausing.ResumeRestores | src/sched/sched.c:940-976 | The resume after a pause and any allowed calls restores each task's status and stopper; tasks stopped by other primitives are untouched |
| Pausing.RestoredIff | src/sched/sched.c:940-976 | The restoration is exact if and only if the process's primitive stopped no task before the pause |
| Pausing.StoppedTaskIsResumed | src/sched/sched.c:940-976 | A concrete state in which a task stopped by the process's primitive before the pause is active after the resume |
| Queueing.CallMovesQueue | src/sched/sched.c:399-479 | Any fair call only appends to a stopped list, except a successful unlock or release, which drops exactly its head |
| Queueing.WakingCall | src/sched/mutex.c:137-148 | A successful unlock or release resumes exactly the head of the waiting tasks |
| Queueing.BoundedOvertaking | src/sched/sem.c:105-121 | A task with k tasks ahead moves up by one with each successful release and by nothing else, in any interleaving |
| Queueing.ResumedInTurn | src/sched/sem.c:105-121 | It is stopped until, and resumed by, the (k+1)-th successful release |
| Holding.ReleaseMatches | src/sched/sched.c:262-287 | Releasing a unit that is held succeeds and keeps the counters the row and column sums |
| Holding.CallKeepsMatches | src/sched/sched.c:237-287 | Under matched releases every call keeps the counters the sums of the holdings, and no release reports an ownership error |
| Holding.RunMatches | src/sched/sched.c:237-287 | In every state of every matched run each counter is the row or column sum of one matrix of holdings |
| Holding.NoOwnershipError | src/sched/mutex.c:131-135 | In matched runs an unlock never returns 3, a semaphore release never 1 |
| Holding.UnheldRelease | src/sched/sched.c:262-287 | A release by a task that does not hold the primitive goes unnoticed if and only if somebody else holds it and the task holds something else |
| Holding.FailedRelease | src/sched/sched.c:273-282 | A release with an error leaves the counters alone if and only if nobody owns the primitive |
| Totals.AgreementKeptIff | src/sched/sched.c:262-287 | From totals that agree, any matched call leaves them in agreement if and only if nothing that owns or is owned is unregistered: the unregistration returns 0, or the totals of the unregistered process agree |
| Totals.TotalsAgree | src/sched/sched.c:237-287 | From holdings with both sides registered, the totals agree in every state of every matched run whose unregistrations of tasks and primitives return 0; processes may be unregistered |
| Totals.OwnerBreaksAgreement | src/sched/sched.c:567-717 | A concrete state with a running owner whose unregistration, or that of its primitive, breaks the agreement |
| Totals.TotalsDiffer | src/sched/sched.c:237-287 | In every matched run the totals differ exactly by the holdings of which one side was unregistered |
| Mutexes.UnlockCodes | src/sched/mutex.c:99-154 | In each phase of a mutex: 0 for the owner, 2 for any other task, 1 if nobody owns it; never 3 |
| Mutexes.CallMovesPhase | src/sched/mutex.c:32-154 | Every call moves the fields of a mutex and the holdings as a machine with the phases free, held and abandoned does |
| Mutexes.ConstructedIsFree | src/sched/mutex.c:14-23 | A new mutex is free |
| Mutexes.RunMovesPhase | src/sched/mutex.c:32-154 | The same over whole runs; unlocks need no assumption of matching |
| Mutexes.OwningCount | src/sched/mutex.c:32-154 | In every state the owning count is 0 or 1; if a task is overridden the count is 1 and that task holds the mutex, and a count of 1 without an overridden task means the holder was unregistered |
| Mutexes.OnlyTheOwnerUnlocks | src/sched/mutex.c:99-154 | In every state of every run only the owner's unlock returns 0 |
| Mutexes.MutualExclusion | src/sched/mutex.c:32-154 | Between two successful lockings the task that locked first unlocked successfully |
| Mutexes.UnlockLeavesWaiters | src/sched/mutex.c:99-154 | A successful unlock leaves the mutex free and drops the head of its queue; tasks are left waiting for a mutex nobody owns if and only if two or more waited |
| Mutexes.WaitersWaitForLock | src/sched/mutex.c:99-154 | In any run such tasks stay waiting, in order, until somebody locks the mutex again |
| Mutexes.AbandonedForGood | src/sched/sched.c:567-635 | Once the owner unregisters holding the mutex, no locking ever succeeds and every unlock returns 1 |
| Semaphores.CallMovesCount | src/sched/sem.c:35-126 | The count moves by takings and releases only and never leaves 0 to the limit, although equality is tested |
| Semaphores.CountStaysWithin | src/sched/sem.c:35-126 | The bounds hold in every state of every run, matched or not |
| Semaphores.TakingsLessReleases | src/sched/sem.c:35-126 | Under matched releases takings minus releases is the growth of the count and lies within the limit |
| Semaphores.HoldsNothingUnasked | src/sched/sem.c:113-121 | A resumed task gets no ownership: a task that holds nothing holds nothing until it asks itself |
| Commits.OpeningClearsFlags | src/sched/sched.c:1015-1026 | Opening a commit by one increment clears the activity flag of every task and thread, and changes nothing else |
| Commits.ClearUntilClosed | src/sched/sched.c:1015-1048 | No task or thread becomes active before the commit is closed, whatever is called |
| Commits.OpeningClearsFlagsIff | src/sched/sched.c:12-25 | Without the bound on the index, all flags are cleared if and only if the new index is not the "never active" mark or no registered task carries it |
| Commits.NeverRunTaskBecomesActive | src/sched/sched.c:12-25 | A concrete state with the invariant and one registered task, at the last index, in which opening a commit activates the task |
| RoundTrips.StopThenResume | src/sched/sched.c:399-479 | Resuming the task just stopped restores every stopper, status, stopped list and counter; the task comes first in the active list |
| RoundTrips.OverrideThenUnoverride | src/sched/sched.c:295-388 | Un-overriding undoes an override, up to update marks |
| RoundTrips.TakeThenRelease | src/sched/sched.c:237-287 | Releasing undoes taking, without error |
| RoundTrips.LockThenUnlock | src/sched/mutex.c:63-154 | Unlocking a mutex nobody waits for returns 0 and undoes its locking, up to update marks |
| RoundTrips.HookIsObeyed | src/sched/sched.c:489-635 | After its task is stopped or unregistered a thread runs the hook's choice in the current commit, or is idle |
| RoundTrips.AssignmentsHold | src/sched/sched.c:1034-1048 | After a commit is closed every thread runs the task the hook gave it |
| Unregistering.PrimLeavesNothing | src/sched/sched.c:673-717 | Afterwards no registered task is stopped by the primitive or lists it; its tasks are active; all other lists, statuses and links are as they were |
| Unregistering.TaskLeavesNothing | src/sched/sched.c:567-635 | Afterwards no list, thread or primitive refers to the task; other tasks keep status and stopper, other primitives what they override |
| Unregistering.ThreadLeavesNothing | src/sched/sched.c:791-829 | Afterwards no registered task names the thread; its tasks keep their status, all other threads are as they were |
| Tables.TablesAreFinite | src/loader/loader.c:68-80 | Both ways to make a table exclude an endless iteration |
| Tables.EntriesAreCounted | src/loader/loader.c:142-159 | The lookup accepts exactly the indices below ceil(size / entry size) |
| Tables.HeaderCount | src/loader/loader.c:68-80 | The section table has the announced number of entries, none for entry size 0 |
| Tables.Iterate | src/loader/loader.c:24-28 | The iteration visits exactly the entries the lookup accepts, in order, and ends |
| Tables.DoneIsPrefix | src/loader/loader.c:567-612 | The entries done are those before the first failure, whose error is reported |
| Symbols.FindDefinition | src/loader/loader.c:255-276 | The address of the first defined entry of the name, 0 if there is none |
| Symbols.SymbolList.Define | src/loader/loader.c:403-426 | In place: the first undefined query of the name is defined, no other entry changes |
| Symbols.QueriesFollowRule | src/loader/loader.c:403-426 | The j-th initially undefined query of a name gets the j-th address of that name; defined entries never change |
| Images.FirstNobits | src/loader/loader.c:113-115 | The first non-empty section without bits |
| Loader.Environment.constructor | src/loader/loader.c:58-82 | The environment describes the section table of the ELF header |
| Loader.Environment.AssignSections | src/loader/loader.c:93-130 | Every section before the first non-empty one of type 8 is placed at base plus offset modulo 2^64, and no other; 0 exactly if there is none, otherwise 1 |
| Loader.Environment.UpdateAddress | src/loader/loader.c:290-326 | The value of a symbol of a section, 0 for reserved indices, or the error of the section lookup |
| Loader.Environment.AssignSymbol | src/loader/loader.c:369-428 | One symbol, also over its fields: its value as imported, placed or null, the query its name answers, or errors 2 and 3 without effect |
| Loader.Environment.AssignSymbolTable | src/loader/loader.c:345-430 | One table, up to its first failing symbol |
| Loader.Environment.AssignSymbols | src/loader/loader.c:451-494 | All symbol tables, up to the first failure, whose error is returned |
| Readings.SectionIs | src/loader/loader.c:169-189 | A section lookup succeeds exactly for an existing section of the type; error 2 for a bad index, 3 for a bad type |
| Readings.StringsIs | src/loader/loader.c:358-366 | When the string table of a symbol table is found: entry sizes not null, the link names a section of type 3; otherwise which error |
| Readings.TargetIs | src/loader/loader.c:545-564 | The link names the symbol table, of type 2, the info the section to patch, of type 1; when the setup succeeds, and otherwise which of errors 4, 2 and 3 |
| Readings.EntryExists | src/loader/loader.c:199-222 | An entry of a section exists if and only if the entry size is not null and the entry starts before its end |
| Readings.PassIsPlacing | src/loader/loader.c:93-130 | The first pass over the header fields: result 0 exactly if all sections of type 8 are empty, and which sections are placed where |
| Readings.SymbolItemIs | src/loader/loader.c:369-401 | One symbol over the fields: its name, its value in each of the three cases, and each error |
| Readings.RelocationItemIs | src/loader/loader.c:567-612 | One entry over the fields: errors 5, 2, 6, 7 and 8 in this order, or the site and a value congruent to S + A - P |
| Relocating.EntryResult | src/loader/loader.c:527-614 | The same for entry k of relocation table i of an image, with A from the entry in tables of type 4 and 0 in those of type 9 |
| Relocating.RelocationsSucceedIff | src/loader/loader.c:626-668 | The pass reports no error exactly if every table names a symbol table and a section of program data and no entry has an error; then there is one patch per entry |
| Relocating.WrittenPatch | src/loader/loader.c:567-612 | Each patch a pass writes, failing or not, is that of its entry in the order of sections and entries: its address, its value modulo 2^32, and which symbol S it is for |
| Relocating.AllWritten | src/loader/loader.c:626-668 | A pass without error writes the patches of all entries |
| Relocating.FirstError | src/loader/loader.c:603-610 | The error of a failing pass is that of the first table or entry that has one |
| Resolution.PassSucceedsIff | src/loader/loader.c:451-494 | The pass over the symbol tables succeeds exactly if every table names a string table, every name lies in it and every symbol of a section names a section of program data |
| Resolution.SymbolValues | src/loader/loader.c:369-401 | After a successful pass an undefined symbol has the address of the first definition of its name, or 0; a symbol of a section that section's address added; any other 0 |
| Resolution.QueriesAnswered | src/loader/loader.c:403-426 | After a successful pass the j-th undefined query of a name has the address of the j-th symbol of that name with an address, in the order of sections and entries |
| Widths.AcceptsIs | arch/rel_x86.c:6-118 | Which values each width accepts, relative and absolute |
| Resolution.PassFollowsRule | src/loader/loader.c:451-494 | After a successful pass each symbol has the value of the declarative rule, and each query the address of the matching symbol in traversal order |
| Widths.WriteAt | arch/rel_x86.c:76 | A write changes exactly the bytes it covers |
| Widths.ReadBack | arch/rel_x86.c:76 | What was written is read back |
| Widths.StoredIsCongruent | arch/rel_x86.c:174-187 | What is stored is congruent to S + A - P modulo 2^w |
| Widths.ExactIffFits | arch/rel_x86.c:44-80 | P plus the sign-extended stored value is S + A if and only if S + A - P fits in w signed bits |
| Widths.AcceptedButWrong | arch/rel_x86.c:71-73 | What the source's check accepts is wrong exactly for the values in its surplus range |
| Widths.AcceptedAtTwoGigabytes | arch/rel_x86.c:71-73 | A concrete value that is accepted and misses its target by 2^32 |
| Widths.Memory.Rel | arch/rel_x86.c:6-118 | The stored bytes and the result for each width; a rejected value writes nothing |
| Widths.Memory.ApplyRelocation | arch/rel_x86.c:133-190 | 7 for other types than 2 and 4, 8 out of range, otherwise 0 and S + A - P modulo 2^32 in four bytes |
| Patching.BytesAfter | src/loader/loader.c:567-612 | After any patches a byte is that of the last patch covering it, or as it was |
| Patching.OutsideIsKept | src/loader/loader.c:567-612 | No byte outside a processed site changes |
| Patching.WriteTwice | src/loader/loader.c:567-612 | Writing a list of patches a second time changes nothing, also where they overlap |
| Patching.AnyOrder | src/loader/loader.c:567-612 | Disjoint patches may be written in any order |
| Loader.Environment.ApplyEntry | src/loader/loader.c:567-612 | One entry, also over its fields: its five errors in order, or S + A - P modulo 2^32 written at its site |
| Loader.Environment.ApplyTable | src/loader/loader.c:527-614 | One relocation table, up to its first failing entry |
| Loader.Environment.ApplyRelocations | src/loader/loader.c:626-670 | All relocation tables: exactly the entries before the first failure are written; the returned value is 0 in any case |
| Positions.InternalAddress | src/loader/loader.c:290-326 | An internal symbol's address is its offset in the image plus the base, modulo 2^64 |
| Positions.ValueStays | arch/rel_x86.c:175 | Moving symbol and site together leaves the relocation value |
| Positions.LoadsAgree | src/loader/loader.c:567-612 | Two complete loads of one image at different bases stop alike and write the same bytes at corresponding places |
| Loading.Load | src/loader/loader.c:58-670 | The three passes in order, stopping at the first error: image, memory, queries and error of a complete load, and which error stops an incomplete one |
| Loading.LoadTwice | src/loader/loader.c:58-670 | Two loads of a self-contained image at different bases return the same error and leave corresponding bytes equal |
| Loading.RelocateTwice | src/loader/loader.c:626-670 | Calling the relocation pass twice leaves the memory and the error of one call, also after a failure or with overlapping sites |
| Loading.EntriesInAnyOrder | src/loader/loader.c:567-612 | Permuting the entries of the relocation tables of an image whose pass succeeds with disjoint sites changes neither success nor memory |

## Left out

- Locks: `sched_lock`, `sched_unlock` and the spinlock are foreign code; each scheduler call is one atomic step.
- The scheduling policy behind `sched_ops`: not in the repository; only the demands on its results are modelled.
- The hooks that only report (`s_stopped`, `s_resumed`, `s_unregistered`, override taken and released): they are taken
  to change nothing of the scheduler.
- The pointers inside `dlist` nodes: lists are sequences, so mistakes that only concern the node used to link an object
  are outside the model (see the decisions above); a loop that removes the visited element goes over the list as it was
  when the loop began, and `Draining` proves that this is the list itself, taken from its head.
- Counters of type `usize` other than the commit index do not wrap; their overflow needs 2^64 objects or takings.
- Several schedulers, and calls on objects that are not registered.
- After a process is unregistered its tasks may remain in the history of threads, as in the source; such a task may
  not be registered again before its thread is unregistered.
- Pausing and resuming demand that the process's own primitive is still registered.
- Runs beyond the commit index 2^64 - 1: `Legal` demands a smaller index of a run's calls; `Heap.Scheduler.OpenCommit` and
  `Commits.OpeningClearsFlagsIff` say what happens at the boundary.
- Unregistering a process: it resets no links, as the source says; the invariant covers what remains registered.
- Images with overlapping or misaligned records, and sites that overlap tables.
- `src/taskman.c` and `include/taskman.h`: mostly unwritten in the source.
- `src/loader/elf.c`, `include/loader/elf32.h`, the tests and the build files: independent branches or declarations.
