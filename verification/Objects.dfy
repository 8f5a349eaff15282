/**
 * The kernel's objects as the code has them: tasks, threads, hold scopes, the scheduler's run
 * list and the collector's queue, updated in place.  Every contract is stated with the counter
 * functions that the transition system of module Kernel is built from.  `deleted` marks an
 * object after its `delete this`; no method may be called on a deleted object.
 */
module Objects {
  import opened Common
  import opened TaskCounters
  import opened ThreadCounters
  import Collector

  class GarbageCollector {
    var objects: seq<object>
    var deadline: nat  // the timeout of the collector's thread

    constructor ()
      ensures objects == [] && deadline == 0
    {
      objects, deadline := [], 0;
    }

    function Value(): Collector.Queue<object>
      reads this
    {
      Collector.Queue(objects, deadline)
    }

    /** ThrowAway: append, and make sure the collector's thread is not left sleeping. */
    method Add(o: object)
      modifies this
      ensures objects == old(objects) + [o] && deadline == 0
      ensures Value() == Collector.Added(old(Value()), o)
    {
      objects := objects + [o];
      deadline := 0;
    }

    /** The locked section of Main: take the oldest object, or park when there is none. */
    method Take() returns (o: object?)
      modifies this
      ensures objects == if old(objects) == [] then [] else old(objects)[1..]
      ensures deadline == if old(objects) == [] then INFINITE else old(deadline)
      ensures Value() == Collector.Shifted(old(Value()))
      ensures o == if old(objects) == [] then null else old(objects)[0]
    {
      if objects == [] {
        o := null;
        deadline := INFINITE;
      } else {
        o := objects[0];
        objects := objects[1..];
      }
    }
  }

  /** The collector after a call that may drop a last reference: woken with o queued, or left alone. */
  function ThrownTo(q: Collector.Queue<object>, thrown: bool, o: object): Collector.Queue<object> {
    if thrown then Collector.Added(q, o) else q
  }

  class Task {
    const scheduler: RRScheduler
    var retainCount: int
    var holdCount: int
    var killReason: int
    var inScheduler: bool
    var threadList: seq<Thread>
    var deleted: bool

    constructor (sched: RRScheduler)
      ensures scheduler == sched && Counts() == TaskCounts(0, 1, -1)
      ensures !inScheduler && threadList == [] && !deleted
    {
      scheduler := sched;
      retainCount, holdCount, killReason := 0, 1, -1;
      inScheduler, threadList, deleted := false, [], false;
    }

    function Counts(): TaskCounts
      reads this
    {
      TaskCounts(retainCount, holdCount, killReason)
    }

    method AddToScheduler()
      requires !deleted
      modifies this`inScheduler
      ensures inScheduler
    {
      inScheduler := true;
    }

    method Retain() returns (ok: bool)
      requires !deleted
      modifies this`retainCount
      ensures ok <==> !Dead(old(Counts()))
      ensures Counts() == if ok then Retained(old(Counts())) else old(Counts())
    {
      if killReason != -1 && holdCount == 0 { return false; }
      retainCount := retainCount + 1;
      return true;
    }

    method Release()
      requires !deleted
      modifies this`retainCount, scheduler.collector
      ensures Counts() == Released(old(Counts()))
      ensures scheduler.collector.Value() == ThrownTo(old(scheduler.collector.Value()), Spent(Counts()), this)
    {
      retainCount := retainCount - 1;
      if retainCount == 0 && holdCount == 0 && killReason != -1 {
        scheduler.collector.Add(this);
      }
    }

    method Hold() returns (ok: bool)
      requires !deleted
      modifies this`holdCount
      ensures ok <==> !Killed(old(Counts()))
      ensures Counts() == if ok then Held(old(Counts())) else old(Counts())
    {
      if killReason != -1 { return false; }
      holdCount := holdCount + 1;
      return true;
    }

    method Unhold()
      requires !deleted
      modifies this`holdCount, scheduler.collector
      ensures Counts() == Unheld(old(Counts()))
      ensures scheduler.collector.Value() == ThrownTo(old(scheduler.collector.Value()), Spent(Counts()), this)
    {
      holdCount := holdCount - 1;
      if retainCount == 0 && holdCount == 0 && killReason != -1 {
        scheduler.collector.Add(this);
      }
    }

    method Kill(reason: int)
      requires !deleted
      modifies this`killReason
      ensures killReason == if old(killReason) != -1 then old(killReason) else reason
      ensures Counts() == KilledFor(old(Counts()), reason)
    {
      if killReason != -1 { return; }
      killReason := reason;
    }

    /** What the collector finds when it deallocates a task (module KernelTheorems proves it does). */
    predicate Collectable()
      reads this, threadList
    {
      && !deleted && Distinct(threadList)
      && forall th | th in threadList :: th.task == this && !th.deleted && !th.killed
    }

    /**
     * Deallocates the threads left in the list, walking a snapshot of it.  The run list keeps
     * exactly the entries of other threads, in order, and nothing is thrown away.
     */
    method Dealloc()
      requires Collectable()
      modifies this`deleted, this`inScheduler, threadList`deleted, scheduler`threads
      ensures deleted && !inScheduler
      ensures forall th | th in threadList :: th.deleted
      ensures scheduler.threads == WithoutAll(old(scheduler.threads), old(EntriesOf(threadList)))
    {
      ghost var entries := EntriesOf(threadList);
      var snapshot := threadList;
      var i := 0;
      while i < |snapshot|
        invariant 0 <= i <= |snapshot| && threadList == snapshot && !deleted
        invariant forall k | 0 <= k < |snapshot| :: snapshot[k].deleted <==> k < i
        invariant scheduler.threads == WithoutAll(old(scheduler.threads), entries[..i])
      {
        snapshot[i].Dealloc();
        WithoutAllSnoc(old(scheduler.threads), entries, i);
        i := i + 1;
      }
      assert entries[..i] == entries;
      inScheduler := false;
      deleted := true;
    }
  }

  lemma WithoutAllSnoc(l: seq<ThreadObj>, es: seq<ThreadObj?>, i: nat)
    requires i < |es|
    ensures WithoutAll(l, es[..i + 1]) == Unlinked(WithoutAll(l, es[..i]), es[i])
  {
    assert es[..i + 1][..i] == es[..i];
  }

  function EntriesOf(ths: seq<Thread>): (es: seq<ThreadObj?>)
    reads ths
    ensures |es| == |ths| && forall k | 0 <= k < |ths| :: es[k] == ths[k].entry
  {
    if ths == [] then [] else EntriesOf(ths[..|ths| - 1]) + [ths[|ths| - 1].entry]
  }

  /** Remove: an entry leaves the run list; a thread that was never added has none. */
  function Unlinked(l: seq<ThreadObj>, e: ThreadObj?): seq<ThreadObj> {
    if e == null then l else Without<ThreadObj>(l, e)
  }

  function WithoutAll(l: seq<ThreadObj>, es: seq<ThreadObj?>): seq<ThreadObj> {
    if es == [] then l else Unlinked(WithoutAll(l, es[..|es| - 1]), es[|es| - 1])
  }

  class Thread {
    const task: Task
    const id: nat
    var retainCount: int
    var killed: bool
    var inTask: bool
    var holdingTask: bool
    var entry: ThreadObj?  // schedulerUserInfo; set while inScheduler
    var deleted: bool

    /** The thread is born retained and takes over the caller's reference to the task. */
    constructor (t: Task, identifier: nat)
      ensures task == t && id == identifier && Counts() == ThreadCounts(1, false)
      ensures !inTask && !holdingTask && entry == null && !deleted
    {
      task, id := t, identifier;
      retainCount, killed := 1, false;
      inTask, holdingTask, entry, deleted := false, false, null, false;
    }

    function Counts(): ThreadCounts
      reads this
    {
      ThreadCounts(retainCount, killed)
    }

    method AddToTask()
      requires !deleted && !task.deleted && task.inScheduler && !inTask && this !in task.threadList
      modifies this`inTask, task`threadList
      ensures inTask && task.threadList == old(task.threadList) + [this]
    {
      task.threadList := task.threadList + [this];
      inTask := true;
    }

    method AddToScheduler()
      requires !deleted && !task.deleted && inTask && entry == null && task.scheduler.Valid()
      modifies this`entry, task.scheduler`threads, task.scheduler`clients, task.scheduler`owners, task.scheduler`entries
      ensures entry != null && fresh(entry) && entry.thread == this && entry.deadline == 0 && !entry.running
      ensures task.scheduler.threads == old(task.scheduler.threads) + [entry] && task.scheduler.Valid()
    {
      var sched := task.scheduler;
      var e := new ThreadObj(this);
      DistinctSnoc<ThreadObj>(sched.threads, e);
      sched.threads := sched.threads + [e];
      sched.clients, sched.owners, sched.entries := sched.clients + {this}, sched.owners + {task}, sched.entries + {e};
      entry := e;
    }

    /** Both counts rise together, or nothing changes. */
    method Retain() returns (ok: bool)
      requires !deleted && !task.deleted
      modifies this`retainCount, task`retainCount
      ensures ok <==> !old(killed) && !Dead(old(task.Counts()))
      ensures Counts() == if ok then ThreadRetained(old(Counts())) else old(Counts())
      ensures task.Counts() == if ok then Retained(old(task.Counts())) else old(task.Counts())
    {
      if killed { return false; }
      ok := task.Retain();
      if !ok { return; }
      retainCount := retainCount + 1;
    }

    /** The last reference to a killed thread goes to the collector with the task's; any other gives it back. */
    method Release()
      requires !deleted && !task.deleted
      modifies this`retainCount, task`retainCount, task.scheduler.collector
      ensures Counts() == ThreadReleased(old(Counts()))
      ensures task.Counts() == if LastOfKilled(Counts()) then old(task.Counts()) else Released(old(task.Counts()))
      ensures task.scheduler.collector.Value()
           == if LastOfKilled(Counts()) then Collector.Added(old(task.scheduler.collector.Value()), this)
              else ThrownTo(old(task.scheduler.collector.Value()), Spent(task.Counts()), task)
    {
      retainCount := retainCount - 1;
      if retainCount == 0 && killed {
        task.scheduler.collector.Add(this);
      } else {
        task.Release();
      }
    }

    method Kill()
      requires !deleted
      modifies this`killed
      ensures Counts() == ThreadKilled(old(Counts()))
    {
      killed := true;
    }

    /**
     * Unlinks the thread from the run list.  A killed thread also leaves its task's list and gives
     * back the task reference it kept; an unkilled one is being deallocated by its task, whose
     * list and counts stay as they are.
     */
    method Dealloc()
      requires !deleted && !task.deleted
      modifies this`deleted, task.scheduler`threads
      modifies (if killed then {task} else {})`retainCount, (if killed then {task} else {})`threadList
      modifies if killed then {task.scheduler.collector} else {}
      ensures deleted
      ensures task.scheduler.threads == Unlinked(old(task.scheduler.threads), entry)
      ensures task.threadList == if killed && inTask then Without(old(task.threadList), this) else old(task.threadList)
      ensures task.Counts() == if killed then Released(old(task.Counts())) else old(task.Counts())
      ensures task.scheduler.collector.Value()
           == if killed then ThrownTo(old(task.scheduler.collector.Value()), Spent(task.Counts()), task)
              else old(task.scheduler.collector.Value())
    {
      if entry != null {
        task.scheduler.threads := Without<ThreadObj>(task.scheduler.threads, entry);
      }
      if killed {
        if inTask {
          task.threadList := Without(task.threadList, this);
        }
        task.Release();
      }
      deleted := true;
    }
  }

  class ThreadObj {
    const thread: Thread
    var deadline: nat
    var running: bool

    constructor (t: Thread)
      ensures thread == t && deadline == 0 && !running
    {
      thread := t;
      deadline, running := 0, false;
    }

    /**
     * One iteration of Switch's scan: a retain that does not lead to a dispatch is undone, so that
     * either the entry is marked running and keeps one reference to its thread, or nothing changed.
     */
    method TryPick(now: nat) returns (picked: bool)
      requires !thread.deleted && !thread.task.deleted
      modifies this`running, thread`retainCount, thread.task`retainCount, thread.task.scheduler.collector
      ensures picked == old(EligibleBut(now, null)) && running == (old(running) || picked)
      ensures thread.Counts() == if picked then ThreadRetained(old(thread.Counts())) else old(thread.Counts())
      ensures thread.task.Counts() == if picked then Retained(old(thread.task.Counts())) else old(thread.task.Counts())
      ensures thread.task.scheduler.collector.Value() == old(thread.task.scheduler.collector.Value())
    {
      var ok := thread.Retain();
      if !ok { return false; }
      if !(deadline > now || running) {
        running := true;
        return true;
      }
      thread.Release();
      return false;
    }

    /** What Switch looks for when `resigned` is about to stop running. */
    predicate EligibleBut(now: nat, resigned: Thread?)
      reads this, thread, thread.task
    {
      !thread.killed && !Dead(thread.task.Counts()) && deadline <= now && (running ==> thread == resigned)
    }
  }

  /** Which entries of a list Switch may pick. */
  function Choices(order: seq<ThreadObj>, now: nat, resigned: Thread?): (bs: seq<bool>)
    reads order, set e | e in order :: e.thread, set e | e in order :: e.thread.task
    ensures |bs| == |order| && forall k | 0 <= k < |order| :: bs[k] == order[k].EligibleBut(now, resigned)
  {
    if order == [] then [] else [order[0].EligibleBut(now, resigned)] + Choices(order[1..], now, resigned)
  }

  /** The position of the first `true`, or the length of the list. */
  function First(bs: seq<bool>): (k: nat)
    ensures k <= |bs| && (k < |bs| ==> bs[k])
    ensures forall j | 0 <= j < k :: !bs[j]
  {
    if bs == [] || bs[0] then 0 else 1 + First(bs[1..])
  }

  lemma FirstIs(bs: seq<bool>, i: nat)
    requires i <= |bs| && (i < |bs| ==> bs[i]) && forall j | 0 <= j < i :: !bs[j]
    ensures First(bs) == i
  {
  }

  class RRScheduler {
    const collector: GarbageCollector
    var threads: seq<ThreadObj>
    ghost var clients: set<Thread>     // every thread that was ever added,
    ghost var owners: set<Task>        // the tasks of these,
    ghost var entries: set<ThreadObj>  // and the entries they were given

    constructor (c: GarbageCollector)
      ensures collector == c && threads == [] && Valid()
    {
      collector := c;
      threads, clients, owners, entries := [], {}, {}, {};
    }

    /** The run list as module KernelTheorems proves it to be: nothing deleted, one entry per thread. */
    ghost predicate Valid()
      reads this, clients`entry, clients`deleted, owners`deleted
    {
      && Distinct(threads)
      && (forall th | th in clients :: th.task in owners && th.task.scheduler == this)
      && (forall e | e in threads ::
          e in entries && e.thread in clients && e.thread.entry == e && !e.thread.deleted && !e.thread.task.deleted)
    }

    /**
     * A waker's call: from now on the thread waits for nothing but its turn, whatever the clock says.
     */
    method ClearTimeout(th: Thread)
      requires Valid() && th.entry != null && th.entry in threads && th.entry.thread == th
      modifies th.entry`deadline
      ensures Valid() && th.entry.deadline == 0
      ensures forall now: nat ::
        th.entry.EligibleBut(now, null) <==> !th.killed && !Dead(th.task.Counts()) && !th.entry.running
    {
      th.entry.deadline := 0;
    }

    /** The run list once th has gone to the back. */
    function Order(th: Thread?): seq<ThreadObj>
      reads this, if th == null then {} else {th}
      requires th != null ==> th.entry != null
    {
      if th == null then threads else Requeued<ThreadObj>(threads, th.entry)
    }

    lemma OrderMembers(th: Thread?)
      requires Distinct(threads) && (th != null ==> th.entry != null && th.entry in threads)
      ensures Distinct(Order(th)) && forall e :: e in Order(th) <==> e in threads
    {
      if th != null { RequeuedMembers<ThreadObj>(threads, th.entry); }
    }

    /** The task reference ResignCurrent returns, unless the thread is thrown away with it. */
    function ReturnedBy(current: Thread?, k: Task): int
      reads if current == null then {} else {current}
    {
      if current != null && current.task == k && !LastOfKilled(ThreadReleased(current.Counts())) then 1 else 0
    }

    /** The collector once the current thread's reference has been returned. */
    function QueueAfter(current: Thread?): Collector.Queue<object>
      reads this, collector, if current == null then {} else {current, current.task}
    {
      if current == null then collector.Value()
      else if LastOfKilled(ThreadReleased(current.Counts())) then Collector.Added(collector.Value(), current)
      else ThrownTo(collector.Value(), Spent(Released(current.task.Counts())), current.task)
    }

    /** The current thread goes to the back of the list and gives its reference back. */
    method ResignCurrent(th: Thread?)
      requires Valid() && (th != null ==> th.entry != null && th.entry in threads && th.entry.thread == th)
      modifies this`threads, clients`retainCount, owners`retainCount, entries`running, collector
      ensures Valid() && threads == old(Order(th)) && forall e :: e in threads <==> e in old(threads)
      ensures th != null ==> threads == Without<ThreadObj>(old(threads), th.entry) + [th.entry]
      ensures forall e | e in entries :: e.running == (old(e.running) && (th == null || e != th.entry))
      ensures forall t | t in clients :: t.retainCount == old(t.retainCount) - (if t == th then 1 else 0)
      ensures forall k | k in owners :: k.retainCount == old(k.retainCount) - old(ReturnedBy(th, k))
      ensures collector.Value() == old(QueueAfter(th))
    {
      OrderMembers(th);
      if th == null { return; }
      threads := Order(th);
      th.entry.running := false;
      th.Release();
    }

    /**
     * The scan of Switch.  It finds the first eligible entry, marks it running and keeps one
     * reference to its thread; every other thread and task ends with the count it had.
     */
    method Scan(now: nat) returns (next: ThreadObj?)
      requires Valid()
      modifies clients`retainCount, owners`retainCount, entries`running, collector
      ensures Valid() && collector.Value() == old(collector.Value())
      ensures var k := First(old(Choices(threads, now, null))); next == if k < |threads| then threads[k] else null
      ensures forall e | e in entries :: e.running == (old(e.running) || e == next)
      ensures forall t | t in clients ::
        t.retainCount == old(t.retainCount) + (if next != null && t == next.thread then 1 else 0)
      ensures forall k | k in owners ::
        k.retainCount == old(k.retainCount) + (if next != null && k == next.thread.task then 1 else 0)
    {
      ghost var bs := Choices(threads, now, null);
      var i := 0;
      while i < |threads|
        invariant 0 <= i <= |threads| && Valid()
        invariant collector.Value() == old(collector.Value())
        invariant forall e | e in entries :: e.running == old(e.running)
        invariant forall t | t in clients :: t.retainCount == old(t.retainCount)
        invariant forall k | k in owners :: k.retainCount == old(k.retainCount)
        invariant forall j | 0 <= j < i :: !bs[j]
      {
        assert threads[i].EligibleBut(now, null) == bs[i];
        var picked := threads[i].TryPick(now);
        if picked {
          FirstIs(bs, i);
          return threads[i];
        }
        i := i + 1;
      }
      next := null;
      FirstIs(bs, i);
    }

    /**
     * One whole call on one CPU.  The current thread's entry goes to the back of the list; the
     * first entry of the new list that may be retained, is due and is not running on another CPU
     * is picked.  Over the whole call the picked thread gains one reference, the resigned one
     * loses one, their tasks follow, and no other count changes.
     */
    method Switch(current: Thread?, now: nat) returns (next: ThreadObj?)
      requires Valid()
        && (current != null ==> current.entry != null && current.entry in threads && current.entry.thread == current)
      modifies this`threads, clients`retainCount, owners`retainCount, entries`running, collector
      ensures Valid() && threads == old(Order(current)) && collector.Value() == old(QueueAfter(current))
      ensures var k := First(old(Choices(Order(current), now, current)));
        next == if k < |threads| then threads[k] else null
      ensures forall e | e in entries ::
        e.running == (e == next || (old(e.running) && (current == null || e != current.entry)))
      ensures forall t | t in clients ::
        t.retainCount == old(t.retainCount) + (if next != null && t == next.thread then 1 else 0)
          - (if t == current then 1 else 0)
      ensures forall k | k in owners ::
        k.retainCount
        == old(k.retainCount) + (if next != null && k == next.thread.task then 1 else 0) - old(ReturnedBy(current, k))
    {
      ghost var order := Order(current);
      ghost var bs := Choices(order, now, current);
      OrderMembers(current);
      ResignCurrent(current);
      assert Choices(order, now, null) == bs by {
        forall k | 0 <= k < |order| ensures order[k].EligibleBut(now, null) == bs[k] {}
      }
      next := Scan(now);
    }

    /**
     * The running thread sets its deadline and yields (the lock that the caller hands over is
     * released in between).  It is not picked again before the deadline; any other thread is picked
     * as by any Switch.
     */
    method SetTimeout(th: Thread, deadline: nat, now: nat) returns (next: ThreadObj?)
      requires Valid() && th.entry != null && th.entry in threads && th.entry.thread == th
      modifies this`threads, th.entry`deadline, clients`retainCount, owners`retainCount, entries`running, collector
      ensures Valid() && threads == old(Order(th)) && th.entry.deadline == deadline
      ensures next == th.entry ==> deadline <= now && !th.killed
      ensures next != null && next != th.entry ==> next in threads && old(next.EligibleBut(now, th))
      ensures next == null ==> forall e | e in threads && e != th.entry :: !old(e.EligibleBut(now, th))
      ensures th.retainCount == old(th.retainCount) - (if next == th.entry then 0 else 1)
      ensures th.entry.running == (next == th.entry)
    {
      OrderMembers(th);
      th.entry.deadline := deadline;
      ghost var order := Order(th);
      ghost var k := First(Choices(order, now, th));
      assert k < |order| ==> order[k] in threads && order[k].EligibleBut(now, th);
      assert k < |order| && order[k] != th.entry ==> old(order[k].EligibleBut(now, th));
      assert k == |order| ==> forall e | e in order && e != th.entry :: !old(e.EligibleBut(now, th));
      next := Switch(th, now);
    }
  }
}
