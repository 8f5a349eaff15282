/**
 * How the invariant travels through one section.
 *
 * Each move changes one component and passes a reference from or to the hand, so that a step is a
 * short chain of moves: taking a caller's reference into the hand, then giving it back to the task,
 * say.  Throwing an object away is the one move that empties the hand into the queue.  The moves
 * are stated for an arbitrary hand, and `Inv` is the invariant with nothing in the hand.
 */
module KernelMoves {
  import opened Common
  import opened TaskCounters
  import opened ThreadCounters
  import opened Kernel
  import opened KernelInvariant

  /** The hand holds nothing of a task other than t. */
  predicate OnlyTask(x: Hand, t: nat) {
    (x.TaskRef? ==> x.t == t) && (x.TaskHold? ==> x.t == t)
  }

  lemma SumsNatural(s: State, t: nat)
    requires ThreadsOk(s)
    ensures RetainSum(s.threads, t) >= 0 && HoldSum(s.threads, t) >= 0
  {
    SumsBound(s.threads, t);
  }

  /** A task changes without its last reference going. */
  lemma TaskMove(s: State, t: nat, k: TaskRec, x: Hand, y: Hand)
    requires Holding(s, x) && t < |s.tasks|
    requires !Spent(s.tasks[t].counts) && !Spent(k.counts) && k.freed == s.tasks[t].freed
    requires OnlyTask(x, t) && OnlyTask(y, t) && !x.ThreadRef? && !y.ThreadRef?
    requires k.counts.retainCount - k.direct - One(y == TaskRef(t))
             == s.tasks[t].counts.retainCount - s.tasks[t].direct - One(x == TaskRef(t))
    requires k.counts.holdCount - One(k.creatorHold) - One(y == TaskHold(t))
             == s.tasks[t].counts.holdCount - One(s.tasks[t].creatorHold) - One(x == TaskHold(t))
    ensures Holding(SetTask(s, t, k), y)
  {
    SumsNatural(s, t);
    var s' := SetTask(s, t, k);
    assert SumOk(s, x, t) && TaskOk(s, t);
    forall u | 0 <= u < |s.tasks| ensures SumOk(s', y, u) && TaskOk(s', u) {
      assert SumOk(s, x, u) && TaskOk(s, u);
    }
    forall th | 0 <= th < |s.threads| ensures CountOk(s', y, th) && FateOk(s', th) {
      assert CountOk(s, x, th) && FateOk(s, th);
    }
    forall c | 0 <= c < |s.cpus| ensures CpuOk(s', c) { assert CpuOk(s, c); }
  }

  /** The last reference or hold of a killed task goes: it is thrown away. */
  lemma SpendTask(s: State, t: nat, k: TaskCounts, x: Hand)
    requires Holding(s, x) && t < |s.tasks|
    requires !Spent(s.tasks[t].counts) && Spent(k)
    requires x == TaskRef(t) || x == TaskHold(t)
    requires k.retainCount == s.tasks[t].counts.retainCount - One(x == TaskRef(t))
    requires k.holdCount == s.tasks[t].counts.holdCount - One(x == TaskHold(t))
    ensures Inv(ThrowAway(SetCounts(s, t, k), ATask(t)))
  {
    SumsNatural(s, t);
    var s' := ThrowAway(SetCounts(s, t, k), ATask(t));
    assert SumOk(s, x, t) && TaskOk(s, t);
    assert History(s') == History(s) + [ATask(t)];
    assert !ThrownOnce(s, ATask(t));
    DistinctSnoc(History(s), ATask(t));
    assert !OnTask(s.gc, t);
    forall u | 0 <= u < |s.tasks| ensures SumOk(s', Empty, u) && TaskOk(s', u) {
      assert SumOk(s, x, u) && TaskOk(s, u);
    }
    forall th | 0 <= th < |s.threads| ensures CountOk(s', Empty, th) && FateOk(s', th) {
      assert CountOk(s, x, th) && FateOk(s, th);
    }
    forall c | 0 <= c < |s.cpus| ensures CpuOk(s', c) { assert CpuOk(s, c); }
  }

  lemma ReleaseTaskMove(s: State, t: nat)
    requires Holding(s, TaskRef(t)) && t < |s.tasks|
    ensures Inv(TaskRelease(s, t))
  {
    SumsNatural(s, t);
    assert SumOk(s, TaskRef(t), t);
    var k := s.tasks[t].counts;
    if Spent(Released(k)) {
      SpendTask(s, t, Released(k), TaskRef(t));
    } else {
      TaskMove(s, t, s.tasks[t].(counts := Released(k)), TaskRef(t), Empty);
    }
  }

  lemma UnholdMove(s: State, t: nat)
    requires Holding(s, TaskHold(t)) && t < |s.tasks|
    ensures Inv(TaskUnhold(s, t))
  {
    SumsNatural(s, t);
    assert SumOk(s, TaskHold(t), t);
    var k := s.tasks[t].counts;
    if Spent(Unheld(k)) {
      SpendTask(s, t, Unheld(k), TaskHold(t));
    } else {
      TaskMove(s, t, s.tasks[t].(counts := Unheld(k)), TaskHold(t), Empty);
    }
  }

  /** Thread th may change to r while the hand goes from x to y: nothing is thrown away. */
  predicate Fits(s: State, th: nat, r: ThreadRec, x: Hand, y: Hand)
    requires th < |s.threads|
  {
    var o := s.threads[th];
    && LocalOk(r) && r.task == o.task && r.fate == o.fate
    && r.enqueued == o.enqueued && r.running == o.running
    && LastOfKilled(r.counts) == LastOfKilled(o.counts)
    && (r.counts.killed == o.counts.killed || r.fate.Active?)
    && (r.listed ==> o.listed || r.fate.Active?)
    && OnlyTask(x, r.task) && OnlyTask(y, r.task)
    && (x.ThreadRef? ==> x.th == th) && (y.ThreadRef? ==> y.th == th)
    && r.counts.retainCount - r.clients - One(y == ThreadRef(th))
       == o.counts.retainCount - o.clients - One(x == ThreadRef(th))
    && RetainShare(r, r.task) + One(y == TaskRef(r.task)) == RetainShare(o, r.task) + One(x == TaskRef(r.task))
    && HoldShare(r, r.task) + One(y == TaskHold(r.task)) == HoldShare(o, r.task) + One(x == TaskHold(r.task))
  }

  lemma ThreadMoveCounts(s: State, th: nat, r: ThreadRec, x: Hand, y: Hand)
    requires Holding(s, x) && th < |s.threads| && Fits(s, th, r, x, y)
    ensures CountsOk(SetThread(s, th, r), y) && SumsOk(SetThread(s, th, r), y)
  {
    var s' := SetThread(s, th, r);
    SumsUpdate(s.threads, th, r);
    forall t | 0 <= t < |s.tasks| ensures SumOk(s', y, t) {
      assert SumOk(s, x, t);
    }
    forall u | 0 <= u < |s.threads| ensures CountOk(s', y, u) {
      assert CountOk(s, x, u);
    }
  }

  lemma ThreadMoveFates(s: State, th: nat, r: ThreadRec, x: Hand, y: Hand)
    requires Holding(s, x) && th < |s.threads| && Fits(s, th, r, x, y)
    ensures ThreadsOk(SetThread(s, th, r)) && FatesOk(SetThread(s, th, r))
  {
    var s' := SetThread(s, th, r);
    forall t | 0 <= t < |s.tasks| ensures TaskOk(s', t) {
      assert TaskOk(s, t);
    }
    forall u | 0 <= u < |s.threads| ensures FateOk(s', u) {
      assert FateOk(s, u);
    }
  }

  /** A CPU waiting to switch away from a thread did not interrupt its exit sequence. */
  predicate FlowFree(s: State, th: nat, r: ThreadRec)
    requires th < |s.threads|
  {
    Preemptible(r.flow) || r.flow == s.threads[th].flow
    || forall c | 0 <= c < |s.cpus| :: !(s.cpus[c].Waiting? && s.cpus[c].cur == Some(th))
  }

  lemma ThreadMove(s: State, th: nat, r: ThreadRec, x: Hand, y: Hand)
    requires Holding(s, x) && th < |s.threads| && Fits(s, th, r, x, y) && FlowFree(s, th, r)
    ensures Holding(SetThread(s, th, r), y)
  {
    var s' := SetThread(s, th, r);
    ThreadMoveCounts(s, th, r, x, y);
    ThreadMoveFates(s, th, r, x, y);
    forall c | 0 <= c < |s.cpus| ensures CpuOk(s', c) { assert CpuOk(s, c); }
    assert QueueOk(s');
    assert GcOk(s');
  }

  /** With a reference in hand the thread is alive, and so is its task. */
  lemma InHandAlive(s: State, th: nat)
    requires Holding(s, ThreadRef(th)) && th < |s.threads|
    ensures s.threads[th].counts.retainCount >= 1 + s.threads[th].clients + One(s.threads[th].running)
    ensures s.threads[th].fate.Active?
    ensures s.tasks[s.threads[th].task].counts.retainCount >= s.threads[th].counts.retainCount
    ensures !s.tasks[s.threads[th].task].freed && !OnTask(s.gc, s.threads[th].task)
  {
    var t := s.threads[th].task;
    assert CountOk(s, ThreadRef(th), th) && SumOk(s, ThreadRef(th), t) && TaskOk(s, t);
    ReferencesAtLeast(s.cpus, th);
    SumsBound(s.threads, t);
    assert RetainShare(s.threads[th], t) <= RetainSum(s.threads, t);
  }

  function ThreadThrown(s: State, th: nat): State
    requires th < |s.threads|
  {
    ThrowAway(SetThread(s, th, s.threads[th].(counts := ThreadReleased(s.threads[th].counts), fate := Thrown)),
      AThread(th))
  }

  lemma ThrowThreadCounts(s: State, th: nat)
    requires Holding(s, ThreadRef(th)) && th < |s.threads| && LastOfKilled(ThreadReleased(s.threads[th].counts))
    requires s.threads[th].fate.Active? && !InScope(s.threads[th])
    ensures CountsOk(ThreadThrown(s, th), Empty) && SumsOk(ThreadThrown(s, th), Empty)
  {
    var s' := ThreadThrown(s, th);
    SumsUpdate(s.threads, th, s'.threads[th]);
    forall t | 0 <= t < |s.tasks| ensures SumOk(s', Empty, t) { assert SumOk(s, ThreadRef(th), t); }
    forall u | 0 <= u < |s.threads| ensures CountOk(s', Empty, u) { assert CountOk(s, ThreadRef(th), u); }
  }

  lemma ThrowThreadFates(s: State, th: nat)
    requires Holding(s, ThreadRef(th)) && th < |s.threads| && LastOfKilled(ThreadReleased(s.threads[th].counts))
    requires s.threads[th].fate.Active? && !s.tasks[s.threads[th].task].freed
    ensures FatesOk(ThreadThrown(s, th)) && CpusOk(ThreadThrown(s, th))
  {
    var s' := ThreadThrown(s, th);
    forall t | 0 <= t < |s.tasks| ensures TaskOk(s', t) { assert TaskOk(s, t); }
    forall u | 0 <= u < |s.threads| ensures FateOk(s', u) { assert FateOk(s, u); }
    forall c | 0 <= c < |s.cpus| ensures CpuOk(s', c) { assert CpuOk(s, c); }
  }

  lemma ThrowThreadQueue(s: State, th: nat)
    requires Holding(s, ThreadRef(th)) && th < |s.threads| && LastOfKilled(ThreadReleased(s.threads[th].counts))
    requires s.threads[th].counts.retainCount >= 1
    ensures QueueOk(ThreadThrown(s, th))
  {
    assert History(ThreadThrown(s, th)) == History(s) + [AThread(th)];
    assert !ThrownOnce(s, AThread(th));
    DistinctSnoc(History(s), AThread(th));
  }

  /** The last reference to a killed thread goes: the thread is thrown away with its task reference. */
  lemma ThrowThreadMove(s: State, th: nat)
    requires Holding(s, ThreadRef(th)) && th < |s.threads|
    requires LastOfKilled(ThreadReleased(s.threads[th].counts))
    ensures Inv(ThreadRelease(s, th))
  {
    InHandAlive(s, th);
    assert CountOk(s, ThreadRef(th), th);
    assert !InScope(s.threads[th]);
    ThrowThreadCounts(s, th);
    ThrowThreadFates(s, th);
    ThrowThreadQueue(s, th);
    assert ThreadRelease(s, th) == ThreadThrown(s, th);
  }

  lemma ReleaseThreadMove(s: State, th: nat)
    requires Holding(s, ThreadRef(th)) && th < |s.threads|
    ensures Inv(ThreadRelease(s, th))
  {
    var n := ThreadReleased(s.threads[th].counts);
    if LastOfKilled(n) {
      ThrowThreadMove(s, th);
    } else {
      InHandAlive(s, th);
      var r := s.threads[th].(counts := n);
      ThreadMove(s, th, r, ThreadRef(th), TaskRef(r.task));
      ReleaseTaskMove(SetThread(s, th, r), r.task);
    }
  }

  /** A thread that can be retained is undeleted, and its task is too. */
  lemma RetainableAlive(s: State, th: nat)
    requires Inv(s) && th < |s.threads| && ThreadRetainable(s, th)
    ensures s.threads[th].fate.Active? && !s.tasks[s.threads[th].task].freed
  {
    assert FateOk(s, th) && TaskOk(s, s.threads[th].task);
  }

  lemma RetainTaskMove(s: State, t: nat)
    requires Inv(s) && t < |s.tasks| && !Dead(s.tasks[t].counts)
    ensures Holding(SetCounts(s, t, Retained(s.tasks[t].counts)), TaskRef(t))
  {
    TaskMove(s, t, s.tasks[t].(counts := Retained(s.tasks[t].counts)), Empty, TaskRef(t));
  }

  lemma RetainThreadMove(s: State, th: nat)
    requires Inv(s) && th < |s.threads| && ThreadRetainable(s, th)
    ensures Holding(ThreadRetain(s, th), ThreadRef(th))
  {
    var r := s.threads[th];
    RetainableAlive(s, th);
    RetainTaskMove(s, r.task);
    var s1 := SetCounts(s, r.task, Retained(s.tasks[r.task].counts));
    ThreadMove(s1, th, r.(counts := ThreadRetained(r.counts)), TaskRef(r.task), ThreadRef(th));
  }

  /** A CPU goes to its next section, taking the reference in hand or putting one there. */
  lemma CpuMove(s: State, c: nat, v: Cpu, h: Option<nat>, x: Hand, y: Hand)
    requires Holding(s, x) && c < |s.cpus|
    requires !x.TaskRef? && !x.TaskHold? && !y.TaskRef? && !y.TaskHold?
    requires forall th: nat ::
      One(Refers(v, th)) + One(y == ThreadRef(th)) == One(Refers(s.cpus[c], th)) + One(x == ThreadRef(th))
    requires forall th: nat :: Executes(v, th) == Executes(s.cpus[c], th)
    requires CpuOk(SetCpu(s, c, v).(holder := h), c)
    requires h == s.holder || (h.None? && s.holder == Some(c)) || (h == Some(c) && s.holder.None?)
    ensures Holding(SetCpu(s, c, v).(holder := h), y)
  {
    var s' := SetCpu(s, c, v).(holder := h);
    ReferencesUpdate(s.cpus, c, v);
    forall t | 0 <= t < |s.tasks| ensures SumOk(s', y, t) && TaskOk(s', t) {
      assert SumOk(s, x, t) && TaskOk(s, t);
    }
    forall u: nat | u < |s.threads| ensures CountOk(s', y, u) && FateOk(s', u) {
      assert CountOk(s, x, u) && FateOk(s, u);
    }
    forall d | 0 <= d < |s.cpus| ensures CpuOk(s', d) { assert CpuOk(s, d); }
  }
}
