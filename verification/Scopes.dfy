/** Hold scopes and the lookup that returns retained threads, on the objects of module Objects. */
module Scopes {
  import opened Common
  import opened TaskCounters
  import opened ThreadCounters
  import opened Objects

  /**
   * A scope object on the stack of a running thread.  `wasCritical` is the criticality to restore;
   * it is passed in and out of the methods because it belongs to the CPU.
   */
  class HoldScope {
    const thread: Thread
    const didHold: bool
    const wasCritical: bool

    constructor (th: Thread, held: bool, critical: bool)
      ensures thread == th && didHold == held && wasCritical == critical
    {
      thread, didHold, wasCritical := th, held, critical;
    }

    /**
     * The constructor of the code.  Only the outermost scope of a thread takes a hold.  When the
     * hold is refused the thread is killed and there is no scope: the code yields for good.
     */
    static method Enter(th: Thread, critical: bool) returns (scope: HoldScope?, nowCritical: bool)
      requires !th.deleted && !th.task.deleted
      modifies th`holdingTask, th`killed, th.task`holdCount
      ensures scope == null <==> !old(th.holdingTask) && Killed(old(th.task.Counts()))
      ensures scope == null ==>
        th.Counts() == ThreadKilled(old(th.Counts())) && th.task.Counts() == old(th.task.Counts())
      ensures scope == null ==> th.holdingTask == old(th.holdingTask) && nowCritical == critical
      ensures scope != null ==>
        && fresh(scope) && scope.thread == th && scope.didHold == !old(th.holdingTask) && scope.wasCritical == critical
        && th.holdingTask && !nowCritical && th.Counts() == old(th.Counts())
        && th.task.Counts() == if scope.didHold then Held(old(th.task.Counts())) else old(th.task.Counts())
    {
      var didHold := !th.holdingTask;
      if didHold {
        var ok := th.task.Hold();
        if !ok {
          th.Kill();
          return null, critical;
        }
        th.holdingTask := true;
      }
      scope := new HoldScope(th, didHold, critical);
      nowCritical := false;
    }

    /** The destructor: the scope that took the hold gives it back, and criticality is restored. */
    method Leave() returns (nowCritical: bool)
      requires !thread.deleted && !thread.task.deleted
      modifies thread`holdingTask, thread.task`holdCount, thread.task.scheduler.collector
      ensures nowCritical == wasCritical
      ensures thread.holdingTask == (old(thread.holdingTask) && !didHold)
      ensures thread.task.Counts() == if didHold then Unheld(old(thread.task.Counts())) else old(thread.task.Counts())
      ensures thread.task.scheduler.collector.Value()
           == ThrownTo(old(thread.task.scheduler.collector.Value()), didHold && Spent(thread.task.Counts()),
             thread.task)
    {
      nowCritical := wasCritical;
      if didHold {
        thread.holdingTask := false;
        thread.task.Unhold();
      }
    }

    /** Ends the thread: whichever scope is asked, the one hold of the thread is given back. */
    method ExitThread()
      requires !thread.deleted && !thread.task.deleted
      modifies thread`killed, thread.task`holdCount, thread.task.scheduler.collector
      ensures thread.Counts() == ThreadKilled(old(thread.Counts()))
      ensures thread.task.Counts() == Unheld(old(thread.task.Counts()))
      ensures thread.task.scheduler.collector.Value()
           == ThrownTo(old(thread.task.scheduler.collector.Value()), Spent(thread.task.Counts()), thread.task)
    {
      thread.Kill();
      thread.task.Unhold();
    }

    method ExitTask(status: int)
      requires !thread.deleted && !thread.task.deleted
      modifies thread`killed, thread.task`killReason, thread.task`holdCount, thread.task.scheduler.collector
      ensures thread.Counts() == ThreadKilled(old(thread.Counts()))
      ensures thread.task.Counts() == Unheld(KilledFor(old(thread.task.Counts()), status))
      ensures thread.task.scheduler.collector.Value()
           == ThrownTo(old(thread.task.scheduler.collector.Value()), Spent(thread.task.Counts()), thread.task)
    {
      thread.Kill();
      thread.task.Kill(status);
      thread.task.Unhold();
    }
  }

  /** Enter and Leave, nested to any depth, give every hold back and change nothing else. */
  method Nest(th: Thread, depth: nat, critical: bool) returns (ok: bool, nowCritical: bool)
    requires !th.deleted && !th.task.deleted && (th.holdingTask ==> th.task.holdCount > 0)
    requires th.task.retainCount > 0 && th.task.holdCount >= 0
    modifies th`holdingTask, th`killed, th.task`holdCount, th.task.scheduler.collector
    ensures ok <==> depth == 0 || old(th.holdingTask) || !Killed(old(th.task.Counts()))
    ensures th.task.Counts() == old(th.task.Counts()) && th.holdingTask == old(th.holdingTask)
    ensures th.task.scheduler.collector.Value() == old(th.task.scheduler.collector.Value())
    ensures nowCritical == critical
    ensures th.killed == (old(th.killed) || !ok)
  {
    if depth == 0 { return true, critical; }
    var scope, inside := HoldScope.Enter(th, critical);
    if scope == null { return false, inside; }
    ok, inside := Nest(th, depth - 1, inside);
    nowCritical := scope.Leave();
  }

  const BUCKETS: nat := 0x10

  /** The thread list of a task: a hash map whose lookup returns retained threads. */
  class ThreadMap {
    var buckets: seq<seq<Thread>>

    constructor ()
      ensures buckets == seq(BUCKETS, _ => [])
    {
      buckets := seq(BUCKETS, _ => []);
    }

    /** Each thread sits in the bucket of its identifier, and identifiers are not shared. */
    predicate Valid()
      reads this
    {
      && |buckets| == BUCKETS
      && (forall b, i | 0 <= b < BUCKETS && 0 <= i < |buckets[b]| :: buckets[b][i].id % BUCKETS == b)
      && (forall b, i, j | 0 <= b < BUCKETS && 0 <= i < j < |buckets[b]| :: buckets[b][i].id != buckets[b][j].id)
    }

    predicate Contains(th: Thread)
      requires Valid()
      reads this
    {
      th in buckets[th.id % BUCKETS]
    }

    /**
     * The answer is the one thread with this identifier, retained; NULL when there is none, or
     * when it refuses because it or its task is dying.  Nothing else is retained.
     */
    method Find(id: nat) returns (r: Thread?)
      requires Valid() && forall th | th in buckets[id % BUCKETS] :: !th.deleted && !th.task.deleted
      modifies (set th | th in buckets[id % BUCKETS])`retainCount
      modifies (set th | th in buckets[id % BUCKETS] :: th.task)`retainCount
      ensures r != null ==>
        && Contains(r) && r.id == id
        && r.Counts() == ThreadRetained(old(r.Counts())) && r.task.Counts() == Retained(old(r.task.Counts()))
      ensures r == null ==>
        forall th | th in buckets[id % BUCKETS] && th.id == id :: th.killed || Dead(th.task.Counts())
      ensures forall th | th in buckets[id % BUCKETS] && th != r :: th.Counts() == old(th.Counts())
      ensures forall th | th in buckets[id % BUCKETS] && (r == null || th.task != r.task) ::
        th.task.Counts() == old(th.task.Counts())
    {
      var bucket := buckets[id % BUCKETS];
      var i := 0;
      while i < |bucket|
        invariant 0 <= i <= |bucket|
        invariant forall j | 0 <= j < i :: bucket[j].id != id
        invariant forall th | th in bucket ::
          th.Counts() == old(th.Counts()) && th.task.Counts() == old(th.task.Counts())
      {
        if bucket[i].id == id {
          var ok := bucket[i].Retain();
          if !ok { return null; }
          return bucket[i];
        }
        i := i + 1;
      }
      r := null;
    }
  }
}
