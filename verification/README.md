# A verified model of the Alux kernel's protocols

Alux is a small microkernel.  Four of its parts are concurrent protocols or state machines, and
this project models those four in Dafny and proves what they promise, for any number of tasks,
threads, CPUs, ports and callers, and for every interleaving.

**Tasks, threads, scheduler and collector.**  `Kernel` is a transition system whose steps are the
lock-protected sections of `Task`, `Thread`, `HoldScope`, `RRScheduler::Switch` and the collector's
`Dealloc` calls.  Nothing in the guards of its steps mentions deletion: that no step touches a
deleted task or thread is proved.  `KernelInvariant`, `KernelMoves` and `KernelSteps` carry the
induction over all runs.  The results are `KernelTheorems` (safety), `KernelProgress` (order, dead
tasks, lookups), `KernelTimeouts` (deadlines), `KernelKills` and `KernelExits` (who kills whom, hold
scopes, leaving), `KernelLedger` (references counted by calls, completion) and `Bypass` (bounded
waiting).  `Objects` and `Scopes` hold the same code as classes that are updated in place, with
contracts written in the counter functions (`TaskCounters`, `ThreadCounters`) from which the
transition system is built.  `Collector` is the parking of the collector's thread.

**Ports, terminals and connections.**  `Ipc` splits `Port`, `Terminal`, `Connection`, `ThreadPort`
and `PollState` into their locked sections, with any number of actors between them; `IpcInvariant`,
`IpcSteps` and `IpcConnect` prove the invariant, `IpcTheorems`, `IpcOrder`, `IpcArrival` and
`IpcPorts` the results.  `IpcObjects` has the classes, each call with nobody else running.

**Parking.**  `NoncriticalLock` and `Sleep` rest on one contract of the scheduler: a thread sets its
deadline, then releases the lock, then yields, and is dispatched only when the deadline has passed.
`KernelTimeouts` proves that contract of the scheduler.

**The executable map.**  `ExecutableSpace` gives the fault handler as functions on addresses, the user
map and physical memory, byte by byte.  `ExecutableProofs` shows that running any sequence of loads
and stores against it is running them against a private flat array, while others use the same
machine.  `ExecutableMapping` says what is mapped.  `ExecutableMap` is the class with its arrays of sectors and
frames.

A run is a sequence of states joined by enabled steps from an initial state; most theorems speak of
an arbitrary state `r.states[i]` of an arbitrary run `r`.

## What the code does where it differs from its documentation

* `Port::SetTerminal` is documented to set a terminal on a port that has none.  The test in the code
  is the other way round, so that no port ever acquires a terminal; `IpcObjects.NeverAcquires`
  proves it of the code as written.  The transition system `Ipc` follows the documented contract:
  `NewTerminal` builds a terminal for a port without one and sets it there.
* `Task::Kill` is documented to kill the task.  With reason -1, which stands for "alive", it does
  not, and the next reason is the one recorded: `TaskCounters.MinusOneIsNoKill`.  It kills exactly
  when the reason is another (`TaskCounters.KillsExactly`), and `KernelKills.KilledExactly` says so
  of whole runs.  The repository's one caller passes 0 or 1 (kernel/src/syscall/task.cpp:10), so that
  no task of the present kernel meets the exception.

## Model

| member | source | states |
|---|---|---|
| KernelTheorems.RetainConservation | kernel/src/threads/thread.cpp:62-112 | In every reachable state a task's retain count is the references its callers hold, plus the retain counts of all its threads, plus the number of its threads thrown away but not yet done with it. |
| KernelTheorems.ThreadConservation | kernel/src/threads/thread.cpp:62-80 | A thread's retain count is its callers' references plus one for each CPU that keeps it, even in the middle of a scan. |
| KernelTheorems.HoldBalance | kernel/src/tasks/hold-scope.cpp:7-55 | A task's hold count is its creator's hold plus the number of its threads inside an outermost scope, whatever the nesting and however scopes end. |
| KernelTheorems.ScopeProtects | kernel/src/tasks/task.cpp:38-54 | While a thread is inside a scope its task is neither thrown away nor deleted, and neither is the thread. |
| KernelTheorems.ScopeRetainable | kernel/src/syscall/thread.cpp:28-29 | A running thread inside a scope, and so its task, can always be retained: the launcher of threads and the waiter of a lock do so without looking. |
| KernelTheorems.SwitchNetsOne | kernel/src/scheduler/rr-scheduler.cpp:121-177 | Outside a Switch a thread's count exceeds its callers' references by one if it runs and by nothing if it does not: all other retains of the scans have been undone. |
| KernelLedger.BorrowedExactly | kernel/src/threads/thread.cpp:62-80 | The callers' references to a thread are the creator's one plus what Find gave less what was released, call by call. |
| KernelLedger.TaskBorrowedExactly | kernel/src/tasks/task.cpp:19-36 | The callers' references to a task are what Find gave less what was released or passed on to a new thread. |
| KernelLedger.CreatorHoldExactly | kernel/src/tasks/task.cpp:46-54 | The creator's hold lasts from the making of the task to the creator's Unhold. |
| KernelLedger.MarksExactly | kernel/src/threads/thread.cpp:49-60 | A thread counts as in its task, in the run list, and scheduled exactly when the call that puts it there has been made. |
| KernelLedger.TaskListedExactly | kernel/src/tasks/task.cpp:12-17 | A task is in the task list from the call that puts it there until the collector takes it off. |
| KernelTheorems.DispatchExclusive | kernel/src/scheduler/rr-scheduler.cpp:126-158 | No thread is current or picked on two CPUs, and `running` holds exactly for threads that are current or picked somewhere. |
| KernelTheorems.NoUseAfterDelete | kernel/src/threads/thread.cpp:88-112 | No step of any run reads or writes a deleted task or thread or a deleted run-list entry, including the links of run-list neighbours. |
| KernelTheorems.TouchesComplete | kernel/src/scheduler/rr-scheduler.cpp:35-53 | The footprints of that result miss nothing: outside them a step leaves every task, thread and entry as it was, except for the entry that Add makes. |
| KernelTheorems.RunListAlive | kernel/src/scheduler/rr-scheduler.cpp:35-53 | The run list has no duplicates, and every entry refers to an undeleted thread of an undeleted task. |
| KernelTheorems.DeletedOnce | kernel/src/threads/thread.cpp:101-111 | No two steps of a run delete the same task, thread or run-list entry. |
| KernelTheorems.OnePath | kernel/src/tasks/task.cpp:68-79 | A thread met by Task::Dealloc is unkilled, unreferenced and was never thrown away; a thread deallocated on its own was killed and came through the queue; a queued task shares the queue with none of its threads. |
| KernelTheorems.RunPersists | kernel/src/threads/thread.cpp:88-112 | A thread's task never changes, deletion is final, and an entry that was removed never comes back. |
| KernelProgress.ThrownExactlyWhenSpent | kernel/src/tasks/task.cpp:27-36 | A step throws an object away if and only if it takes the object's last reference, and then never again. |
| TaskCounters.KillsExactly | kernel/src/tasks/task.cpp:56-61 | After Kill the task is killed if and only if it was before or the reason is not -1. |
| TaskCounters.MinusOneIsNoKill | kernel/src/tasks/task.cpp:56-61 | With reason -1 an unkilled task stays unkilled and the next reason is still recorded. |
| TaskCounters.FirstReasonWins | kernel/src/tasks/task.cpp:56-61 | Of two reasons that kill, the first is the one kept. |
| KernelKills.KilledExactly | kernel/src/tasks/hold-scope.cpp:46-55 | In any run a task is killed if and only if an earlier step called Kill on it with a reason other than -1: from outside, or a thread of the task that had called ExitTask with that status. |
| KernelKills.FirstReasonStays | kernel/src/tasks/task.cpp:56-61 | The reason of the first call that kills, the status given to ExitTask included, is the task's reason in every later state. |
| KernelKills.ExitThreadSpares | kernel/src/tasks/hold-scope.cpp:36-44 | A thread that left through ExitThread never goes on to kill its task. |
| KernelKills.LeavesOnce | kernel/src/tasks/hold-scope.cpp:36-55 | A thread calls ExitThread, ExitTask or the exit outside scopes at most once in its life, one of them. |
| KernelExits.ScopesNest | kernel/src/tasks/hold-scope.cpp:7-34 | A thread is inside a scope exactly as long as it has been admitted to more scopes than it has left; HoldBalance counts it in that time. |
| KernelExits.EnteredExactly | kernel/src/tasks/hold-scope.cpp:7-25 | A scope is entered if and only if the thread is inside one or its task is unkilled, held or not; otherwise the thread turns to killing itself. |
| KernelExits.NoEntryAfterKill | kernel/src/tasks/task.cpp:38-44 | Once a task is killed its hold count only falls, and no thread of it gets into a scope from outside. |
| KernelExits.ThreadKilledExactly | kernel/src/threads/thread.cpp:82-86 | A thread is killed if and only if it has called ExitThread, ExitTask or the exit outside scopes, or killed itself after a refused scope. |
| KernelExits.OnlyRefusedKillThemselves | kernel/src/tasks/hold-scope.cpp:12-18 | Only a thread that was refused a scope kills itself: it was in none, and its task had been killed. |
| KernelExits.ExitCompletes | kernel/src/tasks/hold-scope.cpp:36-55 | A thread on its way out always has its next section enabled, each brings it nearer to the final yield, and it makes no other call. |
| KernelExits.NoReturn | kernel/src/tasks/hold-scope.cpp:36-55 | After any of the calls that end a thread it is on its way out for good. |
| KernelExits.KilledStaysOff | kernel/src/threads/thread.cpp:29-42 | A killed thread that has given its CPU away is executed by no CPU ever again. |
| KernelProgress.CollectedInOrder | kernel/src/scheduler/garbage-collector.cpp:10-25 | The k-th object the collector takes is the k-th one thrown away, and none is taken twice. |
| KernelLedger.CollectedIsDeleted | kernel/src/scheduler/garbage-collector.cpp:10-25 | Between two objects everything the collector has taken is deleted, a deleted task has taken all its threads with it, and the run list has an entry for exactly the undeleted threads added to it. |
| KernelLedger.DeallocCompletes | kernel/src/threads/thread.cpp:88-112 | Inside a Dealloc the collector has a section to run unless a Switch holds the run list, and each section brings the end nearer. |
| KernelProgress.DeadStaysDead | kernel/src/tasks/task.cpp:19-25 | Killed with no holds is final: from then on the task's count and those of its threads only fall, and no CPU takes up one of its threads. |
| KernelProgress.NeverDispatchedAgain | kernel/src/scheduler/rr-scheduler.cpp:130-141 | A thread of a dead task that no CPU keeps is never dispatched again. |
| KernelProgress.FoundThreadSurvives | kernel/src/containers/retain-hash-map.hpp:15-26 | A thread returned by Find, and its task, are neither deleted nor thrown away before the caller releases the thread, however many of the other references go meanwhile. |
| KernelProgress.FoundTaskSurvives | kernel/src/containers/retain-hash-map.hpp:15-26 | The same for a task. |
| Bypass.BoundedBypass | kernel/src/scheduler/rr-scheduler.cpp:121-177 | A thread is ready when it is in the run list, may be retained, and its deadline has passed by the clock. One that stays ready is dispatched before more than k calls of Switch finish on all CPUs together, k being the entries ahead of it that do not run, plus one if a scan is in progress at the start, plus one for each CPU whose Switch had read the clock before the deadline. |
| Bypass.NeverOvertaken | kernel/src/scheduler/rr-scheduler.cpp:161-177 | While it waits, the number of waiting entries ahead of it never rises, and each finished Switch lowers it, but for one that had read the clock too early. |
| Bypass.StepBudget | kernel/src/scheduler/rr-scheduler.cpp:126-143 | The single-step form: no step raises what a waiting thread still has to wait for, and the end of a Switch lowers it. |
| KernelTimeouts.PickedExactlyWhenDue | kernel/src/scheduler/rr-scheduler.cpp:121-142 | A thread that a scan looks at is picked if and only if it is not running and its deadline had passed when this Switch read the clock. |
| KernelTimeouts.NeverEarly | kernel/src/scheduler/rr-scheduler.cpp:134 | So no thread is picked while the clock is below its deadline. |
| KernelTimeouts.TimeoutKept | kernel/src/scheduler/rr-scheduler.cpp:55-72 | A thread that set a timeout and then gave its CPU away is executed by no CPU until the clock reaches the deadline, unless somebody clears the timeout. |
| KernelTimeouts.DeadlineExactly | kernel/src/scheduler/rr-scheduler.cpp:55-85 | A thread's deadline is what its last SetTimeout asked for, or 0 if ClearTimeout was called since or neither ever was. |
| KernelTimeouts.ClockCounts | kernel/src/scheduler/rr-scheduler.cpp:124 | The clock of all this moves by its ticks and by nothing else. |
| KernelLedger.SwitchNeverStuck | kernel/src/scheduler/rr-scheduler.cpp:121-145 | A Switch in progress has a next section, or waits for the CPU that holds the run list, which has one. |
| KernelLedger.SwitchAdvances | kernel/src/scheduler/rr-scheduler.cpp:121-158 | Each section of a Switch after the clock reading brings its end nearer. |
| Objects.GarbageCollector.Add | kernel/src/scheduler/garbage-collector.cpp:27-33 | The object joins the end of the queue and the collector's timeout is cleared. |
| Objects.GarbageCollector.Take | kernel/src/scheduler/garbage-collector.cpp:13-23 | The oldest object leaves the queue, or the thread parks on the infinite timeout and the queue stays empty. |
| Objects.Task.Retain | kernel/src/tasks/task.cpp:19-25 | Refused exactly for a dead task; otherwise one more reference and nothing else. |
| Objects.Task.Release | kernel/src/tasks/task.cpp:27-36 | One reference less; the task goes to the collector, and wakes it, exactly when that was the last one of a dead task; otherwise the collector is left alone. |
| Objects.Task.Hold | kernel/src/tasks/task.cpp:38-44 | Refused exactly for a killed task. |
| Objects.Task.Unhold | kernel/src/tasks/task.cpp:46-54 | One hold less; the task goes to the collector, and wakes it, exactly when nothing keeps it any more; otherwise the collector is left alone. |
| Objects.Task.Kill | kernel/src/tasks/task.cpp:56-61 | The reason is recorded unless one other than -1 has been, and no count changes. |
| Objects.Task.Dealloc | kernel/src/tasks/task.cpp:68-79 | Every thread left in the list is deallocated, and the run list keeps exactly the other threads' entries in order; counts, thread list and collector are untouched. |
| Objects.Thread.constructor | kernel/src/threads/thread.hpp:157-160 | A new thread is retained once and unkilled. |
| Objects.Thread.AddToScheduler | kernel/src/scheduler/rr-scheduler.cpp:35-43 | The thread gets a fresh entry, due at once and not running, at the end of the run list. |
| Objects.Thread.Retain | kernel/src/threads/thread.cpp:62-69 | Both counts rise together, or, exactly for a killed thread or a dead task, neither does. |
| Objects.Thread.Release | kernel/src/threads/thread.cpp:71-80 | The last reference to a killed thread sends it to the collector and keeps its task's reference; any other gives that back; the collector is woken exactly when something was thrown away. |
| Objects.Thread.Kill | kernel/src/threads/thread.cpp:82-86 | The thread is marked and its counts stay. |
| Objects.Thread.Dealloc | kernel/src/threads/thread.cpp:101-111 | The thread leaves the run list; a killed one also leaves its task's list and returns the reference it kept; an unkilled one changes neither list nor counts. |
| Objects.ThreadObj.TryPick | kernel/src/scheduler/rr-scheduler.cpp:130-142 | An entry is picked exactly when its thread may be retained, is due and is not running; otherwise no count changes and nothing is thrown away. |
| Objects.RRScheduler.ResignCurrent | kernel/src/scheduler/rr-scheduler.cpp:161-177 | The current thread's entry moves to the back and stops running, one reference to it is returned with all that this throws away, and all other entries keep their order and counts. |
| Objects.RRScheduler.Scan | kernel/src/scheduler/rr-scheduler.cpp:129-142 | The first eligible entry of the list is found; only its thread and that thread's task gain a reference. |
| Objects.RRScheduler.Switch | kernel/src/scheduler/rr-scheduler.cpp:121-158 | Over a whole call the picked thread gains one reference, the resigned one loses one, their tasks follow, nothing else changes, and the pick is the first eligible entry of the reordered list. |
| Objects.RRScheduler.SetTimeout | kernel/src/scheduler/rr-scheduler.cpp:55-72 | Deadline and yield as one call: the thread gives its CPU and its reference away and is not picked again before the deadline; any other thread is picked only if it was eligible, and none only if none was. |
| Objects.RRScheduler.ClearTimeout | kernel/src/scheduler/rr-scheduler.cpp:82-85 | The run list stays valid, and from then on the thread is eligible at every clock value if and only if it may be retained and is not running. |
| Scopes.HoldScope.Enter | kernel/src/tasks/hold-scope.cpp:7-25 | Only the outermost scope takes a hold; a refused hold kills the thread and leaves the task as it was. |
| Scopes.HoldScope.Leave | kernel/src/tasks/hold-scope.cpp:27-34 | The scope that took the hold gives it back, and criticality is restored. |
| Scopes.HoldScope.ExitThread | kernel/src/tasks/hold-scope.cpp:36-44 | The thread is killed and its one hold returned. |
| Scopes.HoldScope.ExitTask | kernel/src/tasks/hold-scope.cpp:46-55 | The thread and then its task are killed before the hold is returned. |
| Scopes.Nest | kernel/src/tasks/hold-scope.hpp:12-25 | Scopes nested to any depth leave the task's counts, the thread's flag, the queue and criticality as they were. |
| Scopes.ThreadMap.Find | kernel/src/containers/retain-hash-map.hpp:15-26 | The answer is the thread with that identifier, retained once; NULL only when there is none or it refuses; nothing else is retained. |
| Collector.TakenInOrder | kernel/src/scheduler/garbage-collector.cpp:10-33 | Objects are taken in the order added, each once, and the queue is exactly the rest, even when a Dealloc adds more. |
| Collector.ParkedMeansEmpty | kernel/src/scheduler/garbage-collector.cpp:15-18 | Parked at its own idle wait, the collector's deadline is infinite if the queue is empty and 0 otherwise. |
| Collector.NeverStuck | kernel/src/scheduler/garbage-collector.cpp:27-33 | With work queued the collector can always go on unless something else makes it wait. |
| Collector.TakenWithinTurns | kernel/src/scheduler/garbage-collector.cpp:12-24 | An object with k others ahead of it is handed to Dealloc within k + 1 turns of the loop. |
| Collector.DeadlineExactly | kernel/src/scheduler/garbage-collector.cpp:12-33 | The deadline of the collector's thread changes only by adding an object, by parking for want of one, and by a wait inside a Dealloc and its waker; taking an object leaves it. |
| Collector.DeallocsFinish | kernel/src/scheduler/garbage-collector.cpp:12-24 | One object at a time: a Dealloc has ended for every object taken but the one at hand, and each wait inside one is returned from once. |
| IpcTheorems.DeliveryTrace | kernel/src/ipc/connection.cpp:6-61 | What a port gets through one terminal is empty or Opened, then data, then at most one Closed; each piece of data was sent at the other end and arrives at most once. |
| IpcOrder.ClosedDelivered | kernel/src/ipc/connection.cpp:36-61 | The converse at the end of the trace: once the terminal at the other end is deleted, a port that still has its terminal has received Closed. |
| IpcOrder.SentInOrder | kernel/src/ipc/connection.cpp:18-34 | Two messages that one actor sends one after the other arrive in that order where both arrive. |
| IpcArrival.DataArrives | kernel/src/ipc/connection.cpp:18-34 | When a call of SendToRemote on a connected port is done, its message is in the log of the terminal at the other end, if that still has its port. |
| IpcArrival.LostWithoutPort | kernel/src/ipc/terminal.cpp:45-49 | A message sent after the other port was gone never arrives there. |
| IpcArrival.ConnectCompletes | kernel/src/ipc/connection.cpp:6-16 | When Connect is done both terminals know the one connection, and Opened is the first thing both ports have got, where they are still there. |
| IpcArrival.CallsAdvance | kernel/src/ipc/connection.cpp:18-61 | Each section that an actor runs brings the end of its call nearer. |
| IpcArrival.CallsNeverStuck | kernel/src/ipc/connection.cpp:9-15 | An actor inside a call can go on, or waits for an actor inside Connect, which can. |
| IpcTheorems.PostsAll | kernel/src/ipc/terminal.cpp:45-49 | Every change of a delivery log or of a port's last message is one the function `Posts` accounts for. |
| IpcPorts.PostReaches | kernel/src/ipc/terminal.cpp:45-49 | Conversely each post of `Posts` ends up in the log, as the port's last message, and with the port queued. |
| IpcPorts.LastMessageExactly | kernel/src/threads/thread-port.cpp:23-26 | A port keeps the message posted to it last, over whole runs and whichever terminal it came through. |
| IpcTheorems.CutForGood | kernel/src/ipc/terminal.cpp:51-55 | A terminal never regains a port it lost, its log only grows, and not at all once the port is gone. |
| IpcTheorems.SeverReturns | kernel/src/ipc/port.cpp:20-40 | When the Sever that took a port's terminal returns, no terminal can reach the port. |
| IpcTheorems.SilentAfterSever | kernel/src/syscall/port.cpp:17-27 | After the Sever of a port that is being destroyed, no step of any kind posts to it again. |
| IpcOrder.SilentUntilNewTerminal | kernel/src/ipc/port.cpp:20-25 | After any Sever that took a terminal has returned, nothing is posted to the port until it is given a new terminal. |
| IpcTheorems.RetiredForGood | kernel/src/syscall/port.cpp:24-25 | A port being destroyed never comes back into use. |
| IpcPorts.DestroyRetires | kernel/src/syscall/port.cpp:17-27 | From the call that destroys a port on it is being severed or is retired, never back in use. |
| IpcPorts.PhasesFollow | kernel/src/syscall/port.cpp:17-27 | A port goes from one phase to the next only by the call for it; a Sever ends as it was begun, with the port retired or back in use; the port's thread stays. |
| IpcPorts.SeveringExactly | kernel/src/ipc/port.cpp:20-25 | A port is being severed exactly as long as a Sever that took its terminal has not returned. |
| IpcPorts.PortStaysWithThread | kernel/src/threads/thread-port.cpp:5-9 | A port belongs to the thread it was made for as long as it exists. |
| IpcPorts.TerminalUntilSever | kernel/src/ipc/port.cpp:20-40 | A port and the terminal built for it have each other until a Sever of the port begins. |
| IpcTheorems.PendingExact | kernel/src/threads/poll-state.cpp:16-31 | A pending list has no duplicates, contains a port exactly when its `isQueued` is set, and never contains a destroyed port. |
| IpcPorts.PendingInOrder | kernel/src/threads/poll-state.cpp:16-31 | A pending list is first in, first out: ports stay in the order in which they were queued. |
| IpcTheorems.NoUseAfterDelete | kernel/src/ipc/terminal.cpp:17-49 | No step touches a deleted terminal or a freed connection. |
| IpcTheorems.FootprintsComplete | kernel/src/ipc/connection.cpp:18-61 | The footprints of that result miss nothing: outside them a step leaves every terminal and connection as it was. |
| IpcTheorems.AssertionsHold | kernel/src/ipc/port.cpp:27-40 | The code's assertions never fail: a port's terminal can be retained, senders and closers are registered, a severed terminal is retained. |
| IpcTheorems.FreedBySecondClose | kernel/src/ipc/connection.cpp:36-61 | A connection loses its ends one Close at a time, is freed exactly when the second is gone, and names only undeleted terminals. |
| IpcPorts.TerminalConservation | kernel/src/ipc/terminal.cpp:17-30 | A terminal's count is its creator's reference plus those held by calls under way; without count and port it has exactly one actor about to throw it away, once. |
| IpcPorts.CreatorExactly | kernel/src/ipc/terminal.cpp:6-15 | The creator has its reference, lent to Connect meanwhile, from the making of the terminal until it gives it up. |
| IpcPorts.QuietTerminals | kernel/src/ipc/terminal.cpp:24-43 | When all calls have returned, a terminal is alive exactly if its creator or its port has it; any other is in the collector's queue or deleted. |
| IpcPorts.TerminalsInOrder | kernel/src/scheduler/garbage-collector.cpp:10-25 | Terminals are deallocated in the order in which they were thrown away. |
| IpcObjects.NeverAcquires | kernel/src/ipc/port.cpp:5-10 | As written, no sequence of calls gives a port its first terminal, and on every port SetTerminal answers the opposite of what its header asks for. |
| IpcObjects.Port.SetTerminal | kernel/src/ipc/port.cpp:5-10 | The port's terminal and the answer are those of the test as written. |
| IpcObjects.Port.GetTerminal | kernel/src/ipc/port.cpp:27-40 | The port's terminal, retained, and taken from the port if asked; the retain cannot fail. |
| IpcObjects.Port.SendToRemote | kernel/src/ipc/port.cpp:12-18 | The port at the other end receives the message and wakes its thread if that is polling; both terminals keep their counts and the collectors are left alone. |
| IpcObjects.Port.Sever | kernel/src/ipc/port.cpp:20-25 | The terminal loses its port and keeps its count; it is thrown away, waking the collector, exactly when nobody refers to it. |
| IpcObjects.Port.Destroy | kernel/src/syscall/port.cpp:24-25 | Severed, off the pending list and deleted, in that order; its terminal no longer names it, keeps its count, and is thrown away exactly when nobody refers to it. |
| IpcObjects.Port.Dealloc | kernel/src/threads/thread-port.cpp:15-21 | With `remove`, the port also leaves the pending list, and only that port. |
| IpcObjects.FreePorts | kernel/src/threads/thread.cpp:91-99 | Every port of a dying thread is severed and freed; no terminal names any of them, terminals keep their counts, and those nobody refers to are thrown away. |
| IpcObjects.Port.SendToThis | kernel/src/threads/thread-port.cpp:23-26 | The message is kept, the port queued once, and a polling thread woken exactly when the port was not queued before. |
| IpcObjects.PollState.AddToPending | kernel/src/threads/poll-state.cpp:16-24 | Appended unless already queued; a polling thread is woken exactly when it was appended. |
| IpcObjects.PollState.RemovePending | kernel/src/threads/poll-state.cpp:26-31 | Exactly this port leaves the list; the others keep their order. |
| IpcObjects.Terminal.Retain | kernel/src/ipc/terminal.cpp:17-22 | Refused exactly once the port is gone. |
| IpcObjects.Terminal.Release | kernel/src/ipc/terminal.cpp:24-30 | Thrown away, waking the collector, exactly with the last reference of a severed terminal; otherwise the collector is left alone. |
| IpcObjects.Terminal.Deliver | kernel/src/ipc/terminal.cpp:45-49 | The port receives the message, with the wakeup, if it is still there; otherwise nothing happens. |
| IpcObjects.Terminal.Dealloc | kernel/src/ipc/terminal.cpp:32-43 | The terminal leaves its connection; the other port hears Closed and the other terminal keeps its count, or the connection is freed if the other end is gone. |
| IpcObjects.Connection.Connect | kernel/src/ipc/connection.cpp:6-16 | Both terminals know the new connection and both ports hold Opened, each queued once, with the wakeups, also when both belong to one thread. |
| IpcObjects.Connection.SendToRemote | kernel/src/ipc/connection.cpp:18-34 | The other end's port receives the message, its terminal's count is as before and the collector is left alone. |
| IpcObjects.Connection.Close | kernel/src/ipc/connection.cpp:36-61 | The sender's end is cleared; freed exactly when the other was already gone, else the other port receives Closed. |
| NoncriticalLock.MutualExclusion | kernel/src/util/noncritical-lock.cpp:8-64 | At most one actor is between Seize and Release. |
| NoncriticalLock.FirstComeFirstServed | kernel/src/util/noncritical-lock.cpp:45-64 | The lock is granted in the order of the calls to Seize; a held lock has exactly one token, with its owner, its releaser or on its way, and a free lock has no queue. |
| NoncriticalLock.NoOvertaking | kernel/src/util/noncritical-lock.cpp:11-16 | A newcomer that gets the lock at once finds nobody waiting, queued or already handed to. |
| NoncriticalLock.NoLostWakeup | kernel/src/util/noncritical-lock.cpp:33-42 | A parked waiter whose deadline was cleared owns the lock, and one that was handed the lock has exactly one releaser about to clear its deadline. |
| NoncriticalLock.RecordNeverStale | kernel/src/util/noncritical-lock.cpp:55-63 | A waiter's record is never written, nor its thread woken, after its Seize can have returned. |
| NoncriticalLock.NeverStuck | kernel/src/util/noncritical-lock.cpp:8-64 | While the lock is held its owner can release it or a section of a handover can run. |
| NoncriticalLock.SectionsAdvance | kernel/src/util/noncritical-lock.cpp:33-64 | Each section of a handover brings its actor nearer to owning the lock or being done. |
| NoncriticalLock.Lock.Enter | kernel/src/util/noncritical-lock.cpp:11-36 | A free lock is taken; otherwise a fresh record that does not own the lock joins the end of the queue. |
| NoncriticalLock.Lock.Release | kernel/src/util/noncritical-lock.cpp:45-64 | The oldest waiter becomes the owner while the lock stays held; without waiters the lock is free. |
| Sleep.SleepingExcludesCancelled | kernel/src/threads/sleep-state.cpp:15-36 | `sleeping` is set exactly inside a sleep, and then no cancellation is pending. |
| Sleep.CancelledExactlyWhenOwed | kernel/src/threads/sleep-state.cpp:61-69 | `cancelled` is set exactly when a cancellation came while the thread was awake and no sleep has begun since. |
| Sleep.CancelBeforeSleep | kernel/src/threads/sleep-state.cpp:22-29 | A sleep returns at once if and only if it asked for no time or such a cancellation is owed, and it uses the cancellation up. |
| Sleep.CancelDuringSleep | kernel/src/threads/sleep-state.cpp:31-35 | Through a whole sleep the deadline is the one asked for until the first cancellation and 0 from then on. |
| Sleep.WakesExactlyWhenDue | kernel/src/scheduler/rr-scheduler.cpp:64-85 | A parked sleep can wake if and only if its time has come or it was cancelled, and that stays so until it wakes. |
| Sleep.DeadlineExactly | kernel/src/threads/sleep-state.cpp:15-69 | The deadline changes only by a sleep that parks, by a timeout of another kind, and by a cancellation of a sleep under way: cancelling an awake thread leaves it as it was. |
| Sleep.AsleepExactly | kernel/src/threads/sleep-state.cpp:31-36 | A sleep that parked is over when its last section has run, and not before. |
| Sleep.SleepCompletes | kernel/src/threads/sleep-state.cpp:31-36 | A sleep that is due has a section to run, and each brings its end nearer. |
| Sleep.ClockIsLastTick | kernel/src/scheduler/rr-scheduler.cpp:124 | The clock by which a sleep is due is what the last tick set. |
| Sleep.SleepState.Sleep | kernel/src/threads/sleep-state.cpp:15-36 | The first section: it parks exactly when time was asked for and no cancellation is pending. |
| Sleep.SleepState.SleepInfinite | kernel/src/threads/sleep-state.cpp:38-59 | The same without a time limit. |
| Sleep.SleepState.Leave | kernel/src/threads/sleep-state.cpp:34-36 | Leaving a sleep clears both flags. |
| Sleep.SleepState.Cancel | kernel/src/threads/sleep-state.cpp:61-69 | Recorded for the next sleep when awake; clears the deadline of the present one when asleep. |
| ExecutableProofs.LoadsReturnFlat | kernel/src/arch/x64/executable-map.cpp:86-149 | In any run of loads and stores, served by the fault handler wherever the mapping forbids them, every load returns what a private flat array that starts as the image would hold, whatever others do meanwhile to other memory, other frames and the rest of the user map. |
| ExecutableProofs.HandledFaultPermits | kernel/src/arch/x64/executable-map.cpp:26-45 | A handled fault leaves the access permitted and what the program sees unchanged, and allocates a frame exactly for a write. |
| ExecutableProofs.TrueExactlyWhenServed | kernel/src/arch/all/executable-map.hpp:33-35 | The answer is true if and only if the address belongs to the program, and if and only if the access that faulted is now permitted; a refused fault changes nothing. |
| ExecutableProofs.AccessesGoThrough | kernel/src/memory/page-fault.cpp:10-17 | Every access inside the program succeeds after at most one fault, in every reachable state. |
| ExecutableProofs.ImageUnchanged | kernel/src/arch/x64/executable-map.cpp:133-149 | The image in memory is never written. |
| ExecutableProofs.FramesConserved | kernel/src/arch/x64/executable-map.cpp:122-149 | The frames allocated and live are those of others and, apart from these, exactly the non-zero writables of mode-2 sectors; no two pages share one. |
| ExecutableProofs.ProgramsIsolated | kernel/src/arch/x64/executable-map.cpp:133-149 | An access of one program is, to another program on the same machine, an interference of the kind its own results allow for, provided new frames are not taken from the other's image; their frames stay disjoint. |
| ExecutableProofs.SharedImageClear | kernel/src/arch/x64/executable-map.cpp:133-149 | Two programs started from one image always meet that proviso. |
| ExecutableProofs.PagesStayPrivate | kernel/src/arch/x64/executable-map.cpp:95-131 | A sector's mode never falls, and a page that got a frame keeps it. |
| ExecutableMapping.MappedExactly | kernel/src/arch/x64/executable-map.cpp:86-131 | In any run a byte is mapped if and only if its sector is mapped as a whole or an access has faulted in its page since the sector went over to single pages; the switch leaves nothing mapped. |
| ExecutableMapping.PrivateExactlyWhenWritten | kernel/src/arch/x64/executable-map.cpp:95-149 | A page has its own frame, mapped writable, if and only if it was written; whatever else is mapped is the image, read-only. |
| ExecutableProofs.NewMapStarts | kernel/src/arch/x64/executable-map.cpp:52-67 | A newly built map is an initial state of such a run and owns no frame, whatever else is allocated. |
| ExecutableProofs.FreedOnce | kernel/src/arch/x64/executable-map.cpp:69-84 | The destructor does not meet the frame of a page again after freeing it. |
| ExecutableMap.ExecutableMap.constructor | kernel/src/arch/x64/executable-map.cpp:52-67 | One unmapped sector for each 2 MB, laid out over the program and the image. |
| ExecutableMap.ExecutableMap.HandlePageFault | kernel/src/arch/x64/executable-map.cpp:26-45 | The class does to its arrays, the user map and memory what the function of that name does to their values, and answers the same. |
| ExecutableMap.ExecutableMap.HandleReadFault | kernel/src/arch/x64/executable-map.cpp:86-93 | The same for read faults: a large page, a small page, or nothing. |
| ExecutableMap.ExecutableMap.HandleWriteFault | kernel/src/arch/x64/executable-map.cpp:95-100 | The same for write faults. |
| ExecutableMap.ExecutableMap.MapROLargePage | kernel/src/arch/x64/executable-map.cpp:102-110 | The whole sector is mapped read-only onto the image and its mode becomes 1. |
| ExecutableMap.ExecutableMap.MapROSmallPage | kernel/src/arch/x64/executable-map.cpp:112-120 | One page is mapped read-only onto the image. |
| ExecutableMap.ExecutableMap.SwitchToWritable | kernel/src/arch/x64/executable-map.cpp:122-131 | A sector mapped as a whole is unmapped, and it gets a fresh array of zero frames and mode 2. |
| ExecutableMap.ExecutableMap.MapWritablePage | kernel/src/arch/x64/executable-map.cpp:133-149 | The page gets the new frame, is mapped writable, and holds a copy of the image's page; nothing else changes. |
| ExecutableMap.ExecutableMap.Delete | kernel/src/arch/x64/executable-map.cpp:69-84 | Each frame of the map is freed exactly once (a frame may only be freed while live), and the frames of others stay allocated. |

## Left out

- KernelProgress.NeverDispatchedAgain: asks that no CPU keeps the thread at the moment its task dies, because a Switch that retained it just before may still dispatch it once.
- Objects.Thread.Dealloc: begins after the loop over the thread's ports, which is IpcObjects.FreePorts, because module Objects knows no ports.
- IpcObjects.FreePorts: takes the ports in a recursion, one a call, over a snapshot of the port list, and does not say in which order the terminals are thrown away.
- Objects.Task.Dealloc: walks a snapshot of the thread list, because the iterators of the hash map stay valid or not in code that is not part of this model.
- ExecutableMap.ExecutableMap.constructor: asks for at least one sector, because the code never sets the sector array of an empty image.
- ExecutableProofs.HandledFaultPermits: speaks of faults that the present mapping really forbids; two threads that fault on one page at a time reach code that does not look for an existing private page.
- The failure path of `Thread::AddToTask`, where Release would reach an assertion; threads are added to their task before they are scheduled or killed.
- Threads that kill others: as documented, a thread only kills itself, and a task is killed only by someone who holds or retains it.
- Ports freed by `Thread::Dealloc` in the transition systems: `Kernel` has no ports, and `Ipc` deletes ports only as `DestroyPortSyscall` does; a port freed with `Dealloc(false)` leaves its thread's pending list to die with the thread.
- Concurrent calls on one port by threads other than its own: a port is severed and destroyed by its owner, each terminal is set on its port when it is built, and is connected at most once.
- Lock guards that release a lock inside an object that is already freed; a locked section is one step.
- The collector's thread as a waiter on a `NoncriticalLock`: `Add` may clear its deadline there, so the lock's wakeup results are for other waiters.
- The reference that a parked waiter of a `NoncriticalLock` takes on its own thread while it waits; it cannot be refused, because a waiter is inside a hold scope (KernelTheorems.ScopeRetainable) or is a kernel thread whose task nobody kills.
- The width of counters, addresses, sector indices and clock values; the model's integers are unbounded, and the clock only moves forward.
- `ClearTimeout` through a pending list in `Kernel`, which needs a polling thread; no code sets `polling`.
- `PollState::Poll` and `PollTimeout`, which are empty, and so everything that would take a port off the pending list except `RemovePending`.
- Failing allocations of frames, which panic; what `Rereserve` and `ReserveAt` do inside the user map; page tables, timers, identifier pools and context switches.
- Boot code, the console, system call dispatch, memory system calls and time conversion: hardware, input and output, or flat tables.
