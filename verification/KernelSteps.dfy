/**
 * Every step of the kernel keeps the invariant, so every reachable state satisfies it.
 *
 * The steps come in four groups: calls that any code may make, what the thread on a CPU does to
 * itself, the sections of Switch, and the collector's loop.  A step that passes a reference on is a
 * chain of moves (module KernelMoves).  A step that changes a list, the lock's holder, `running` or
 * the collector's place is proved object by object from the predicates of the invariant.  The last
 * lemma of the file extends the invariant from the initial state to every state of every run.
 */
module KernelSteps {
  import opened Common
  import opened TaskCounters
  import opened ThreadCounters
  import opened Kernel
  import opened KernelInvariant
  import opened KernelMoves

  // ---- calls -------------------------------------------------------------

  lemma NewTaskKeeps(s: State)
    requires Inv(s)
    ensures Inv(s.(tasks := s.tasks + [FreshTask]))
  {
    var s' := s.(tasks := s.tasks + [FreshTask]);
    var n := |s.tasks|;
    NoThreadsOf(s.threads, n);
    forall t | 0 <= t < |s'.tasks| ensures SumOk(s', Empty, t) && TaskOk(s', t) {
      if t < n { assert SumOk(s, Empty, t) && TaskOk(s, t); }
    }
    forall u | 0 <= u < |s.threads| ensures CountOk(s', Empty, u) && FateOk(s', u) {
      assert CountOk(s, Empty, u) && FateOk(s, u);
    }
    forall c | 0 <= c < |s.cpus| ensures CpuOk(s', c) { assert CpuOk(s, c); }
  }

  lemma {:induction false} NoThreadsOf(rs: seq<ThreadRec>, t: nat)
    requires forall i | 0 <= i < |rs| :: rs[i].task < t
    ensures RetainSum(rs, t) == 0 && HoldSum(rs, t) == 0
  {
    if rs != [] { NoThreadsOf(rs[1..], t); }
  }

  lemma ListTaskKeeps(s: State, t: nat)
    requires Inv(s) && ClientEnabled(s, ListTask(t))
    ensures Inv(ApplyClient(s, ListTask(t)))
  {
    assert SumOk(s, Empty, t) && TaskOk(s, t);
    SumsNatural(s, t);
    TaskMove(s, t, s.tasks[t].(listed := true), Empty, Empty);
  }

  lemma FindTaskKeeps(s: State, t: nat)
    requires Inv(s) && t < |s.tasks|
    ensures ClientEnabled(s, FindTask(t)) ==> Inv(ApplyClient(s, FindTask(t)))
  {
    var k := s.tasks[t];
    if !Dead(k.counts) {
      TaskMove(s, t, k.(counts := Retained(k.counts), direct := k.direct + 1), Empty, Empty);
    }
  }

  lemma DirectKeepsAlive(s: State, t: nat)
    requires Inv(s) && t < |s.tasks| && s.tasks[t].direct > 0
    ensures s.tasks[t].counts.retainCount >= s.tasks[t].direct && !s.tasks[t].freed && !OnTask(s.gc, t)
  {
    assert SumOk(s, Empty, t) && TaskOk(s, t);
    SumsNatural(s, t);
  }

  lemma TakeDirect(s: State, t: nat)
    requires Inv(s) && t < |s.tasks| && s.tasks[t].direct > 0
    ensures Holding(SetTask(s, t, s.tasks[t].(direct := s.tasks[t].direct - 1)), TaskRef(t))
  {
    DirectKeepsAlive(s, t);
    TaskMove(s, t, s.tasks[t].(direct := s.tasks[t].direct - 1), Empty, TaskRef(t));
  }

  lemma DropTaskKeeps(s: State, t: nat)
    requires Inv(s) && ClientEnabled(s, DropTask(t))
    ensures Inv(ApplyClient(s, DropTask(t)))
  {
    TakeDirect(s, t);
    ReleaseTaskMove(SetTask(s, t, s.tasks[t].(direct := s.tasks[t].direct - 1)), t);
  }

  lemma CreatorUnholdKeeps(s: State, t: nat)
    requires Inv(s) && ClientEnabled(s, CreatorUnhold(t))
    ensures Inv(ApplyClient(s, CreatorUnhold(t)))
  {
    assert SumOk(s, Empty, t);
    SumsNatural(s, t);
    TaskMove(s, t, s.tasks[t].(creatorHold := false), Empty, TaskHold(t));
    UnholdMove(SetTask(s, t, s.tasks[t].(creatorHold := false)), t);
  }

  lemma KillTaskKeeps(s: State, t: nat, reason: int)
    requires Inv(s) && t < |s.tasks| && (s.tasks[t].counts.retainCount > 0 || s.tasks[t].counts.holdCount > 0)
    ensures Inv(SetCounts(s, t, KilledFor(s.tasks[t].counts, reason)))
  {
    TaskMove(s, t, s.tasks[t].(counts := KilledFor(s.tasks[t].counts, reason)), Empty, Empty);
  }

  /** Creating a thread turns the task reference in hand into its own first reference. */
  lemma NewThreadCounts(s: State, t: nat)
    requires Holding(s, TaskRef(t)) && t < |s.tasks|
    ensures var s' := s.(threads := s.threads + [FreshThread(t)]);
      CountsOk(s', Empty) && SumsOk(s', Empty) && CpusOk(s')
  {
    var s' := s.(threads := s.threads + [FreshThread(t)]);
    var n := |s.threads|;
    SumsSnoc(s.threads, FreshThread(t));
    forall u | 0 <= u < |s.tasks| ensures SumOk(s', Empty, u) { assert SumOk(s, TaskRef(t), u); }
    ReferencesAtLeast(s.cpus, n);
    forall c | 0 <= c < |s.cpus| ensures CpuOk(s', c) && !Refers(s.cpus[c], n) { assert CpuOk(s, c); }
    forall u: nat | u < |s'.threads| ensures CountOk(s', Empty, u) {
      if u < n { assert CountOk(s, TaskRef(t), u); }
    }
  }

  lemma NewThreadKeeps(s: State, t: nat)
    requires Inv(s) && ClientEnabled(s, NewThread(t))
    ensures Inv(ApplyClient(s, NewThread(t)))
  {
    DirectKeepsAlive(s, t);
    TakeDirect(s, t);
    var s1 := SetTask(s, t, s.tasks[t].(direct := s.tasks[t].direct - 1));
    NewThreadCounts(s1, t);
    NewThreadFates(s1, t);
  }

  lemma NewThreadFates(s: State, t: nat)
    requires Holding(s, TaskRef(t)) && t < |s.tasks| && !s.tasks[t].freed && !OnTask(s.gc, t)
    ensures var s' := s.(threads := s.threads + [FreshThread(t)]);
            ThreadsOk(s') && ListOk(s') && QueueOk(s') && FatesOk(s') && GcOk(s')
  {
    var s' := s.(threads := s.threads + [FreshThread(t)]);
    var n := |s.threads|;
    forall u | 0 <= u < |s.tasks| ensures TaskOk(s', u) { assert TaskOk(s, u); }
    assert !ThrownOnce(s, AThread(n));
    forall u: nat | u < |s'.threads| ensures FateOk(s', u) {
      if u < n { assert FateOk(s, u); }
    }
    assert forall o :: ThrownOnce(s', o) <==> ThrownOnce(s, o);
  }

  lemma ClientAlive(s: State, th: nat)
    requires Inv(s) && th < |s.threads| && (s.threads[th].clients > 0 || s.threads[th].running)
    ensures s.threads[th].fate.Active? && s.threads[th].counts.retainCount >= 1
    ensures !s.tasks[s.threads[th].task].freed && !OnTask(s.gc, s.threads[th].task)
    ensures s.tasks[s.threads[th].task].counts.retainCount >= s.threads[th].counts.retainCount
  {
    var t := s.threads[th].task;
    assert CountOk(s, Empty, th) && SumOk(s, Empty, t) && TaskOk(s, t);
    SumsBound(s.threads, t);
    assert RetainShare(s.threads[th], t) <= RetainSum(s.threads, t);
  }

  lemma AddToTaskKeeps(s: State, th: nat)
    requires Inv(s) && ClientEnabled(s, AddToTask(th))
    ensures Inv(ApplyClient(s, AddToTask(th)))
  {
    ClientAlive(s, th);
    ThreadMove(s, th, s.threads[th].(inTask := true, listed := true), Empty, Empty);
  }

  lemma EnqueueTasks(s: State, th: nat)
    requires Inv(s) && ClientEnabled(s, Enqueue(th))
    ensures var s' := ApplyClient(s, Enqueue(th)); forall t | 0 <= t < |s.tasks| :: SumOk(s', Empty, t) && TaskOk(s', t)
  {
    var s' := ApplyClient(s, Enqueue(th));
    SumsUpdate(s.threads, th, s'.threads[th]);
    forall t | 0 <= t < |s.tasks| ensures SumOk(s', Empty, t) && TaskOk(s', t) {
      assert SumOk(s, Empty, t) && TaskOk(s, t);
    }
  }

  lemma EnqueueThreads(s: State, th: nat)
    requires Inv(s) && ClientEnabled(s, Enqueue(th))
    ensures var s' := ApplyClient(s, Enqueue(th));
      forall u | 0 <= u < |s.threads| :: CountOk(s', Empty, u) && FateOk(s', u)
  {
    var s' := ApplyClient(s, Enqueue(th));
    forall u | 0 <= u < |s.threads| ensures CountOk(s', Empty, u) && FateOk(s', u) {
      assert CountOk(s, Empty, u) && FateOk(s, u);
    }
  }

  lemma EnqueueKeeps(s: State, th: nat)
    requires Inv(s) && ClientEnabled(s, Enqueue(th))
    ensures Inv(ApplyClient(s, Enqueue(th)))
  {
    ClientAlive(s, th);
    var s' := ApplyClient(s, Enqueue(th));
    EnqueueTasks(s, th);
    assert th !in s.list;
    DistinctSnoc(s.list, th);
    assert !OnThread(s.gc, th);
    EnqueueThreads(s, th);
    forall c | 0 <= c < |s.cpus| ensures CpuOk(s', c) { assert CpuOk(s, c); }
    assert ListOk(s');
  }

  lemma MarkScheduledKeeps(s: State, th: nat)
    requires Inv(s) && ClientEnabled(s, MarkScheduled(th))
    ensures Inv(ApplyClient(s, MarkScheduled(th)))
  {
    ThreadMove(s, th, s.threads[th].(inScheduler := true), Empty, Empty);
  }

  lemma FindThreadKeeps(s: State, th: nat)
    requires Inv(s) && ClientEnabled(s, FindThread(th))
    ensures Inv(ApplyClient(s, FindThread(th)))
  {
    if ThreadRetainable(s, th) {
      RetainThreadMove(s, th);
      var s1 := ThreadRetain(s, th);
      assert CountOk(s1, ThreadRef(th), th);
      ThreadMove(s1, th, s1.threads[th].(clients := s1.threads[th].clients + 1), ThreadRef(th), Empty);
    }
  }

  /** A caller's reference comes into the hand. */
  lemma TakeClient(s: State, th: nat)
    requires Inv(s) && ClientEnabled(s, DropThread(th))
    ensures Holding(SetThread(s, th, s.threads[th].(clients := s.threads[th].clients - 1)), ThreadRef(th))
  {
    ThreadMove(s, th, s.threads[th].(clients := s.threads[th].clients - 1), Empty, ThreadRef(th));
  }

  lemma DropThreadKeeps(s: State, th: nat)
    requires Inv(s) && ClientEnabled(s, DropThread(th))
    ensures Inv(ApplyClient(s, DropThread(th)))
  {
    var r := s.threads[th].(clients := s.threads[th].clients - 1);
    TakeClient(s, th);
    ReleaseThreadMove(SetThread(s, th, r), th);
  }

  lemma DeadlineKeeps(s: State, th: nat, d: nat)
    requires Inv(s) && th < |s.threads|
    ensures Inv(SetThread(s, th, s.threads[th].(deadline := d)))
  {
    ThreadMove(s, th, s.threads[th].(deadline := d), Empty, Empty);
  }

  lemma ClientKeeps(s: State, a: ClientStep)
    requires Inv(s) && ClientEnabled(s, a)
    ensures Inv(ApplyClient(s, a))
  {
    match a
    case NewTask => NewTaskKeeps(s);
    case ListTask(t) => ListTaskKeeps(s, t);
    case FindTask(t) => FindTaskKeeps(s, t);
    case DropTask(t) => DropTaskKeeps(s, t);
    case CreatorUnhold(t) => CreatorUnholdKeeps(s, t);
    case KillTask(t, reason) => KillTaskKeeps(s, t, reason);
    case NewThread(t) => NewThreadKeeps(s, t);
    case AddToTask(th) => AddToTaskKeeps(s, th);
    case Enqueue(th) => EnqueueKeeps(s, th);
    case MarkScheduled(th) => MarkScheduledKeeps(s, th);
    case FindThread(th) => FindThreadKeeps(s, th);
    case DropThread(th) => DropThreadKeeps(s, th);
    case ClearTimeout(th) => DeadlineKeeps(s, th, 0);
  }

  // ---- the running thread ------------------------------------------------

  /** The thread a CPU runs is `running`, and no other CPU is about to switch away from it. */
  lemma RunsAlone(s: State, c: nat)
    requires Inv(s) && RunsThread(s, c)
    ensures var th := s.cpus[c].th; s.threads[th].running
    ensures var th := s.cpus[c].th;
            forall d | 0 <= d < |s.cpus| :: !(s.cpus[d].Waiting? && s.cpus[d].cur == Some(th))
  {
    var th := s.cpus[c].th;
    assert CountOk(s, Empty, th);
    ExecutesSome(s.cpus, th, c);
    forall d | 0 <= d < |s.cpus| ensures !(s.cpus[d].Waiting? && s.cpus[d].cur == Some(th)) {
      if s.cpus[d].Waiting? && s.cpus[d].cur == Some(th) {
        if c < d { ExecutesOnce(s.cpus, th, c, d); } else { ExecutesOnce(s.cpus, th, d, c); }
      }
    }
  }

  lemma HoldMove(s: State, th: nat)
    requires Inv(s) && th < |s.threads| && s.threads[th].flow.Normal? && s.threads[th].depth == 0
    requires !Killed(s.tasks[s.threads[th].task].counts)
    ensures Inv(Entered(s, th))
  {
    var r := s.threads[th];
    var k := s.tasks[r.task].counts;
    TaskMove(s, r.task, s.tasks[r.task].(counts := Held(k)), Empty, TaskHold(r.task));
    ThreadMove(SetCounts(s, r.task, Held(k)), th, r.(depth := 1, holdingTask := true), TaskHold(r.task), Empty);
  }

  lemma EnterKeeps(s: State, c: nat)
    requires Inv(s) && ExecEnabled(s, c, EnterScope)
    ensures Inv(ApplyExec(s, c, EnterScope))
  {
    RunsAlone(s, c);
    var th := s.cpus[c].th;
    var r := s.threads[th];
    if r.holdingTask {
      ThreadMove(s, th, r.(depth := r.depth + 1), Empty, Empty);
    } else if Killed(s.tasks[r.task].counts) {
      ThreadMove(s, th, r.(flow := KillingSelf), Empty, Empty);
    } else {
      HoldMove(s, th);
    }
  }

  lemma LeaveKeeps(s: State, c: nat)
    requires Inv(s) && ExecEnabled(s, c, LeaveScope)
    ensures Inv(ApplyExec(s, c, LeaveScope))
  {
    RunsAlone(s, c);
    var th := s.cpus[c].th;
    var r := s.threads[th];
    if r.depth > 1 {
      ThreadMove(s, th, r.(depth := r.depth - 1), Empty, Empty);
    } else {
      var r' := r.(depth := 0, holdingTask := false);
      ThreadMove(s, th, r', Empty, TaskHold(r.task));
      UnholdMove(SetThread(s, th, r'), r.task);
    }
  }

  lemma KillKeeps(s: State, c: nat, f: Flow)
    requires Inv(s) && RunsThread(s, c)
    requires var r := s.threads[s.cpus[c].th];
             (r.flow.Normal? && r.depth > 0 && (f.KillingTask? || f.Unholding?))
             || ((r.flow.KillingSelf? || (r.flow.Normal? && r.depth == 0)) && f.Yielding?)
    ensures var th := s.cpus[c].th; var r := s.threads[th];
            Inv(SetThread(s, th, r.(counts := ThreadKilled(r.counts), flow := f)))
  {
    RunsAlone(s, c);
    var th := s.cpus[c].th;
    var r := s.threads[th];
    ClientAlive(s, th);
    ThreadMove(s, th, r.(counts := ThreadKilled(r.counts), flow := f), Empty, Empty);
  }

  lemma ExitKillTaskKeeps(s: State, c: nat)
    requires Inv(s) && ExecEnabled(s, c, ExitKillTask)
    ensures Inv(ApplyExec(s, c, ExitKillTask))
  {
    RunsAlone(s, c);
    var th := s.cpus[c].th;
    var r := s.threads[th];
    ClientAlive(s, th);
    KillTaskKeeps(s, r.task, r.flow.status);
    var s1 := SetCounts(s, r.task, KilledFor(s.tasks[r.task].counts, r.flow.status));
    ThreadMove(s1, th, r.(flow := Unholding), Empty, Empty);
  }

  lemma ExitUnholdKeeps(s: State, c: nat)
    requires Inv(s) && ExecEnabled(s, c, ExitUnhold)
    ensures Inv(ApplyExec(s, c, ExitUnhold))
  {
    var th := s.cpus[c].th;
    var r := s.threads[th];
    ThreadMove(s, th, r.(flow := Yielding), Empty, TaskHold(r.task));
    UnholdMove(SetThread(s, th, r.(flow := Yielding)), r.task);
  }

  lemma ExecKeeps(s: State, c: nat, a: ExecStep)
    requires Inv(s) && ExecEnabled(s, c, a)
    ensures Inv(ApplyExec(s, c, a))
  {
    match a
    case EnterScope => EnterKeeps(s, c);
    case LeaveScope => LeaveKeeps(s, c);
    case ExitThread => KillKeeps(s, c, Unholding);
    case ExitTask(status) => KillKeeps(s, c, KillingTask(status));
    case ExitKillTask => ExitKillTaskKeeps(s, c);
    case ExitUnhold => ExitUnholdKeeps(s, c);
    case KillSelf => KillKeeps(s, c, Yielding);
    case ExitCurrent => KillKeeps(s, c, Yielding);
    case SetTimeout(d) => DeadlineKeeps(s, s.cpus[c].th, d);
  }

  // ---- Switch ------------------------------------------------------------

  lemma ReadClockKeeps(s: State, c: nat)
    requires Inv(s) && SwitchEnabled(s, c, ReadClock)
    ensures Inv(ApplySwitch(s, c, ReadClock))
  {
    var v := s.cpus[c];
    assert CpuOk(s, c);
    CpuMove(s, c, Waiting(if v.Idle? then None else Some(v.th), s.clock), s.holder, Empty, Empty);
  }

  /** Moving an entry to the back of the list, as ResignCurrent does. */
  lemma RequeueKeeps(s: State, th: nat, x: Hand)
    requires Holding(s, x) && th in s.list && s.holder.None?
    ensures Holding(s.(list := Without(s.list, th) + [th]), x)
  {
    var s' := s.(list := Without(s.list, th) + [th]);
    WithoutMembers(s.list, th);
    DistinctSnoc(Without(s.list, th), th);
    forall t | 0 <= t < |s.tasks| ensures SumOk(s', x, t) && TaskOk(s', t) {
      assert SumOk(s, x, t) && TaskOk(s, t);
    }
    forall u | 0 <= u < |s.threads| ensures CountOk(s', x, u) && FateOk(s', u) {
      assert CountOk(s, x, u) && FateOk(s, u);
    }
    forall c | 0 <= c < |s.cpus| ensures CpuOk(s', c) { assert CpuOk(s, c); }
  }

  /** CPU c may start or stop executing th, keeping its reference. */
  predicate Handover(s: State, c: nat, th: nat, v: Cpu, h: Option<nat>, b: bool)
    requires c < |s.cpus| && th < |s.threads|
  {
    && s.threads[th].enqueued && s.threads[th].running != b
    && (v.Picked? || v.Resigned?) && v.th == th && v.Picked? == b
    && Refers(s.cpus[c], th) && Executes(s.cpus[c], th) == !b
    && (forall d | 0 <= d < |s.cpus| && s.cpus[d].Waiting? && s.cpus[d].cur == Some(th) :: d == c)
    && (s.threads[th].flow.KillingTask? || s.threads[th].flow.Unholding? ==> b)
    && ((h.None? && s.holder == Some(c)) || (h == Some(c) && s.holder.None?))
  }

  lemma HandoverCounts(s: State, c: nat, th: nat, v: Cpu, h: Option<nat>, b: bool)
    requires Inv(s) && c < |s.cpus| && th < |s.threads| && Handover(s, c, th, v, h, b)
    ensures var s' := SetCpu(SetThread(s, th, s.threads[th].(running := b)), c, v).(holder := h);
            ThreadsOk(s') && CountsOk(s', Empty)
  {
    var s' := SetCpu(SetThread(s, th, s.threads[th].(running := b)), c, v).(holder := h);
    ReferencesUpdate(s.cpus, c, v);
    ReferencesAtLeast(s.cpus, th);
    assert CountOk(s, Empty, th);
    forall u: nat | u < |s.threads| ensures CountOk(s', Empty, u) { assert CountOk(s, Empty, u); }
  }

  /** `running` and the CPU that executes the thread change together. */
  lemma RunningCpus(s: State, c: nat, th: nat, v: Cpu, h: Option<nat>, b: bool)
    requires Inv(s) && c < |s.cpus| && th < |s.threads| && Handover(s, c, th, v, h, b)
    requires CpuOk(SetCpu(s, c, v).(holder := h), c)
    ensures var s' := SetCpu(SetThread(s, th, s.threads[th].(running := b)), c, v).(holder := h);
            forall d | 0 <= d < |s.cpus| :: CpuOk(s', d)
  {
    var s' := SetCpu(SetThread(s, th, s.threads[th].(running := b)), c, v).(holder := h);
    forall d | 0 <= d < |s.cpus| ensures CpuOk(s', d) { assert CpuOk(s, d); }
  }

  lemma RunningTasks(s: State, c: nat, th: nat, v: Cpu, h: Option<nat>, b: bool)
    requires Inv(s) && c < |s.cpus| && th < |s.threads|
    ensures var s' := SetCpu(SetThread(s, th, s.threads[th].(running := b)), c, v).(holder := h);
            forall t | 0 <= t < |s.tasks| :: SumOk(s', Empty, t) && TaskOk(s', t)
  {
    var s' := SetCpu(SetThread(s, th, s.threads[th].(running := b)), c, v).(holder := h);
    SumsUpdate(s.threads, th, s'.threads[th]);
    forall t | 0 <= t < |s.tasks| ensures SumOk(s', Empty, t) && TaskOk(s', t) {
      assert SumOk(s, Empty, t) && TaskOk(s, t);
    }
  }

  lemma RunningMove(s: State, c: nat, th: nat, v: Cpu, h: Option<nat>, b: bool)
    requires Inv(s) && c < |s.cpus| && th < |s.threads| && Handover(s, c, th, v, h, b)
    requires CpuOk(SetCpu(s, c, v).(holder := h), c)
    ensures Inv(SetCpu(SetThread(s, th, s.threads[th].(running := b)), c, v).(holder := h))
  {
    var r := s.threads[th].(running := b);
    var s' := SetCpu(SetThread(s, th, r), c, v).(holder := h);
    HandoverCounts(s, c, th, v, h, b);
    RunningTasks(s, c, th, v, h, b);
    forall u | 0 <= u < |s.threads| ensures FateOk(s', u) { assert FateOk(s, u); }
    RunningCpus(s, c, th, v, h, b);
  }

  lemma ExecutorAlone(s: State, c: nat, th: nat)
    requires Inv(s) && c < |s.cpus| && th < |s.threads| && Executes(s.cpus[c], th)
    ensures s.threads[th].running
    ensures forall d | 0 <= d < |s.cpus| && Executes(s.cpus[d], th) :: d == c
  {
    assert CountOk(s, Empty, th);
    ExecutesSome(s.cpus, th, c);
    forall d | 0 <= d < |s.cpus| && Executes(s.cpus[d], th) ensures d == c {
      if c < d { ExecutesOnce(s.cpus, th, c, d); }
      if d < c { ExecutesOnce(s.cpus, th, d, c); }
    }
  }

  /** A thread with a reference is in the run list once it was enqueued. */
  lemma ReferredInList(s: State, th: nat)
    requires Inv(s) && th < |s.threads| && s.threads[th].enqueued && s.threads[th].counts.retainCount >= 1
    ensures th in s.list && s.threads[th].fate.Active?
  {
    var t := s.threads[th].task;
    assert FateOk(s, th) && SumOk(s, Empty, t);
    SumsBound(s.threads, t);
    assert RetainShare(s.threads[th], t) <= RetainSum(s.threads, t);
    assert Linked(s.gc, th, s.threads[th]);
  }

  lemma SeizeKeeps(s: State, c: nat)
    requires Inv(s) && SwitchEnabled(s, c, Seize)
    ensures Inv(ApplySwitch(s, c, Seize))
  {
    var v := s.cpus[c];
    assert CpuOk(s, c);
    match v.cur
    case None =>
      CpuMove(s, c, Scanning(0, v.now), Some(c), Empty, Empty);
    case Some(th) =>
      ExecutorAlone(s, c, th);
      ReferredInList(s, th);
      RequeueKeeps(s, th, Empty);
      var s1 := s.(list := Without(s.list, th) + [th]);
      assert CpuOk(s1, c);
      RunningMove(s1, c, th, Resigned(th, v.now), Some(c), false);
      assert ApplySwitch(s, c, Seize)
          == SetCpu(SetThread(s1, th, s1.threads[th].(running := false)), c, Resigned(th, v.now)).(holder := Some(c));
  }

  lemma ReleaseResignedKeeps(s: State, c: nat)
    requires Inv(s) && SwitchEnabled(s, c, ReleaseResigned)
    ensures Inv(ApplySwitch(s, c, ReleaseResigned))
  {
    var v := s.cpus[c];
    assert CpuOk(s, c);
    CpuMove(s, c, Scanning(0, v.now), s.holder, Empty, ThreadRef(v.th));
    ReleaseThreadMove(SetCpu(s, c, Scanning(0, v.now)), v.th);
  }

  lemma TryRetainKeeps(s: State, c: nat)
    requires Inv(s) && SwitchEnabled(s, c, TryRetain)
    ensures Inv(ApplySwitch(s, c, TryRetain))
  {
    var v := s.cpus[c];
    var th := s.list[v.i];
    assert CpuOk(s, c);
    if ThreadRetainable(s, th) {
      RetainThreadMove(s, th);
      var s1 := ThreadRetain(s, th);
      assert CpuOk(s1, c);
      CpuMove(s1, c, Checking(v.i, th, v.now), s.holder, ThreadRef(th), Empty);
    } else {
      CpuMove(s, c, Scanning(v.i + 1, v.now), s.holder, Empty, Empty);
    }
  }

  lemma DecideKeeps(s: State, c: nat)
    requires Inv(s) && SwitchEnabled(s, c, Decide)
    ensures Inv(ApplySwitch(s, c, Decide))
  {
    var v := s.cpus[c];
    var r := s.threads[v.th];
    assert CpuOk(s, c);
    if r.deadline > v.now || r.running {
      CpuMove(s, c, Skipping(v.i, v.th, v.now), s.holder, Empty, Empty);
    } else {
      assert CountOk(s, Empty, v.th);
      forall d | 0 <= d < |s.cpus| ensures !(s.cpus[d].Waiting? && s.cpus[d].cur == Some(v.th)) {
        if s.cpus[d].Waiting? && s.cpus[d].cur == Some(v.th) { ExecutesSome(s.cpus, v.th, d); }
      }
      RunningMove(s, c, v.th, Picked(v.th), None, true);
    }
  }

  lemma SkipKeeps(s: State, c: nat)
    requires Inv(s) && SwitchEnabled(s, c, Skip)
    ensures Inv(ApplySwitch(s, c, Skip))
  {
    var v := s.cpus[c];
    assert CpuOk(s, c);
    CpuMove(s, c, Scanning(v.i + 1, v.now), s.holder, Empty, ThreadRef(v.th));
    ReleaseThreadMove(SetCpu(s, c, Scanning(v.i + 1, v.now)), v.th);
  }

  lemma SwitchKeeps(s: State, c: nat, a: SwitchStep)
    requires Inv(s) && SwitchEnabled(s, c, a)
    ensures Inv(ApplySwitch(s, c, a))
  {
    assert CpuOk(s, c);
    match a
    case ReadClock => ReadClockKeeps(s, c);
    case Seize => SeizeKeeps(s, c);
    case ReleaseResigned => ReleaseResignedKeeps(s, c);
    case TryRetain => TryRetainKeeps(s, c);
    case Decide => DecideKeeps(s, c);
    case Skip => SkipKeeps(s, c);
    case EndScan => CpuMove(s, c, Idle, None, Empty, Empty);
    case SetCurrent => CpuMove(s, c, Running(s.cpus[c].th), s.holder, Empty, Empty);
  }

  // ---- the collector -----------------------------------------------------

  /** Only the collector's position and the run list change. */
  lemma GcMove(s: State, g: Gc, l: seq<nat>)
    requires Inv(s)
    requires var s' := s.(gc := g, list := l); ListOk(s') && GcOk(s')
    requires l == s.list || s.holder.None?
    requires forall th: nat :: OnThread(g, th) == OnThread(s.gc, th)
    requires forall t: nat :: OnTask(g, t) == OnTask(s.gc, t)
    requires !(s.gc.GcThread? && s.gc.stage.Delete?)
    ensures Inv(s.(gc := g, list := l))
  {
    var s' := s.(gc := g, list := l);
    forall t | 0 <= t < |s.tasks| ensures SumOk(s', Empty, t) && TaskOk(s', t) {
      assert SumOk(s, Empty, t) && TaskOk(s, t);
    }
    forall u: nat | u < |s.threads| ensures CountOk(s', Empty, u) && FateOk(s', u) {
      assert CountOk(s, Empty, u) && FateOk(s, u);
    }
    forall c | 0 <= c < |s.cpus| ensures CpuOk(s', c) { assert CpuOk(s, c); }
  }

  /** No thread of a spent task has references, is thrown away, or is still being created. */
  lemma SpentThread(s: State, th: nat)
    requires Inv(s) && th < |s.threads| && Spent(s.tasks[s.threads[th].task].counts)
    ensures s.threads[th].counts.retainCount == 0 && !s.threads[th].fate.Thrown? && !InScope(s.threads[th])
    ensures s.threads[th].inScheduler
  {
    var t := s.threads[th].task;
    assert SumOk(s, Empty, t);
    SumsBound(s.threads, t);
    assert RetainShare(s.threads[th], t) <= RetainSum(s.threads, t)
      && HoldShare(s.threads[th], t) <= HoldSum(s.threads, t);
  }

  /** The oldest object leaves the queue and stays in the history. */
  lemma GcShiftQueue(s: State)
    requires Inv(s) && GcEnabled(s, GcShift)
    ensures var s' := ApplyGc(s, GcShift); var o := s.queue[0];
            && History(s') == History(s) && o in History(s) && o !in s'.queue
            && forall p :: p in s.queue <==> p == o || p in s'.queue
  {
    var s' := ApplyGc(s, GcShift);
    var o := s.queue[0];
    assert s.queue == [o] + s.queue[1..];
    assert History(s') == History(s);
    forall j | 0 <= j < |s'.queue| ensures s'.queue[j] != o {
      assert s'.queue[j] == History(s)[|s.taken| + 1 + j] && o == History(s)[|s.taken|];
    }
  }

  lemma GcShiftThreads(s: State)
    requires Inv(s) && GcEnabled(s, GcShift)
    ensures var s' := ApplyGc(s, GcShift); forall u: nat | u < |s.threads| :: CountOk(s', Empty, u) && FateOk(s', u)
  {
    var s' := ApplyGc(s, GcShift);
    GcShiftQueue(s);
    forall u: nat | u < |s.threads| ensures CountOk(s', Empty, u) && FateOk(s', u) {
      assert CountOk(s, Empty, u) && FateOk(s, u);
    }
  }

  lemma GcShiftKeeps(s: State)
    requires Inv(s) && GcEnabled(s, GcShift)
    ensures Inv(ApplyGc(s, GcShift))
  {
    var s' := ApplyGc(s, GcShift);
    GcShiftQueue(s);
    forall t | 0 <= t < |s.tasks| ensures SumOk(s', Empty, t) && TaskOk(s', t) {
      assert SumOk(s, Empty, t) && TaskOk(s, t);
    }
    GcShiftThreads(s);
    forall c | 0 <= c < |s.cpus| ensures CpuOk(s', c) { assert CpuOk(s, c); }
    GcShiftStart(s);
  }

  lemma GcShiftStart(s: State)
    requires Inv(s) && GcEnabled(s, GcShift)
    ensures GcOk(ApplyGc(s, GcShift)) && ListOk(ApplyGc(s, GcShift))
  {
    var s' := ApplyGc(s, GcShift);
    var o := s.queue[0];
    assert o in s.queue && o in History(s);
    match o
    case AThread(th) => assert FateOk(s, th);
    case ATask(t) =>
      assert TaskOk(s, t);
      forall u | 0 <= u < |s.threads| && s.threads[u].task == t && !s.threads[u].fate.Freed?
        ensures u in ListedThreads(s, t) && s.threads[u].fate.Active?
      {
        SpentThread(s, u);
        assert FateOk(s, u);
      }
      forall u | u in ListedThreads(s, t) ensures s.threads[u].fate.Active? {
        SpentThread(s, u);
        assert FateOk(s, u);
      }
  }

  lemma GcUnlinkKeeps(s: State)
    requires Inv(s) && GcEnabled(s, GcUnlink)
    ensures Inv(ApplyGc(s, GcUnlink))
  {
    var th := s.gc.th;
    var r := s.threads[th];
    assert CountOk(s, Empty, th);
    if s.gc.within.Inside? { SpentThread(s, th); }
    assert r.counts.retainCount == 0 && r.inScheduler;
    WithoutMembers(s.list, th);
    var g := s.gc.(stage := if r.counts.killed then Unlist else Delete);
    assert r.counts.killed <==> s.gc.within.Alone?;
    if g.stage.Delete? {
      GcUnlinkInside(s);
    } else {
      GcMove(s, g, Without(s.list, th));
    }
  }

  lemma GcUnlinkInside(s: State)
    requires Inv(s) && GcEnabled(s, GcUnlink) && s.gc.within.Inside? && s.threads[s.gc.th].inScheduler
    ensures Inv(s.(gc := s.gc.(stage := Delete), list := Without(s.list, s.gc.th)))
  {
    WithoutMembers(s.list, s.gc.th);
    GcMove(s, s.gc.(stage := Delete), Without(s.list, s.gc.th));
  }

  lemma GcUnlistKeeps(s: State)
    requires Inv(s) && GcEnabled(s, GcUnlist)
    ensures Inv(ApplyGc(s, GcUnlist))
  {
    var th := s.gc.th;
    var r := s.threads[th];
    assert CountOk(s, Empty, th);
    ThreadMove(s, th, r.(listed := false), Empty, Empty);
    GcMove(SetThread(s, th, r.(listed := false)), s.gc.(stage := ReleaseTask), s.list);
  }

  /** The thread gives its task's reference back before it is deleted. */
  lemma DetachThreads(s: State)
    requires Inv(s) && GcEnabled(s, GcReleaseTask)
    ensures var s' := SetThread(s, s.gc.th, s.threads[s.gc.th].(fate := Detached)).(gc := s.gc.(stage := Delete));
            forall u | 0 <= u < |s.threads| :: CountOk(s', TaskRef(s.threads[s.gc.th].task), u) && FateOk(s', u)
  {
    var th := s.gc.th;
    var s' := SetThread(s, th, s.threads[th].(fate := Detached)).(gc := s.gc.(stage := Delete));
    forall u | 0 <= u < |s.threads| ensures CountOk(s', TaskRef(s.threads[th].task), u) && FateOk(s', u) {
      assert CountOk(s, Empty, u) && FateOk(s, u);
    }
  }

  lemma DetachMove(s: State)
    requires Inv(s) && GcEnabled(s, GcReleaseTask)
    ensures Holding(SetThread(s, s.gc.th, s.threads[s.gc.th].(fate := Detached)).(gc := s.gc.(stage := Delete)),
                    TaskRef(s.threads[s.gc.th].task))
  {
    var th := s.gc.th;
    var r := s.threads[th].(fate := Detached);
    var s' := SetThread(s, th, r).(gc := s.gc.(stage := Delete));
    SumsUpdate(s.threads, th, r);
    forall t | 0 <= t < |s.tasks| ensures SumOk(s', TaskRef(r.task), t) && TaskOk(s', t) {
      assert SumOk(s, Empty, t) && TaskOk(s, t);
    }
    DetachThreads(s);
    forall c | 0 <= c < |s.cpus| ensures CpuOk(s', c) { assert CpuOk(s, c); }
  }

  lemma GcReleaseTaskKeeps(s: State)
    requires Inv(s) && GcEnabled(s, GcReleaseTask)
    ensures Inv(ApplyGc(s, GcReleaseTask))
  {
    var th := s.gc.th;
    DetachMove(s);
    ReleaseTaskMove(SetThread(s, th, s.threads[th].(fate := Detached)).(gc := s.gc.(stage := Delete)),
      s.threads[th].task);
  }

  lemma GcDeleteCounts(s: State)
    requires Inv(s) && GcEnabled(s, GcDelete)
    ensures var s' := ApplyGc(s, GcDelete); CountsOk(s', Empty) && CpusOk(s') && SumsOk(s', Empty)
  {
    var s' := ApplyGc(s, GcDelete);
    SumsUpdate(s.threads, s.gc.th, s.threads[s.gc.th].(fate := Freed));
    forall t | 0 <= t < |s.tasks| ensures SumOk(s', Empty, t) { assert SumOk(s, Empty, t); }
    forall u | 0 <= u < |s.threads| ensures CountOk(s', Empty, u) { assert CountOk(s, Empty, u); }
    forall c | 0 <= c < |s.cpus| ensures CpuOk(s', c) { assert CpuOk(s, c); }
  }

  lemma GcDeleteKeeps(s: State)
    requires Inv(s) && GcEnabled(s, GcDelete)
    ensures Inv(ApplyGc(s, GcDelete))
  {
    var s' := ApplyGc(s, GcDelete);
    GcDeleteCounts(s);
    if s.gc.within.Inside? { SpentThread(s, s.gc.th); }
    forall t | 0 <= t < |s.tasks| ensures TaskOk(s', t) { assert TaskOk(s, t); }
    forall u | 0 <= u < |s.threads| ensures FateOk(s', u) { assert FateOk(s, u); }
  }

  lemma GcTaskKeeps(s: State, a: GcStep)
    requires Inv(s) && GcEnabled(s, a) && (a.GcPick? || a.GcUnlistTask? || a.GcDeleteTask?)
    ensures Inv(ApplyGc(s, a))
  {
    match a
    case GcPick(th) =>
      assert s.gc.todo - {th} + {th} == s.gc.todo;
      GcMove(s, GcThread(th, Unlink, Inside(s.gc.t, s.gc.todo - {th})), s.list);
    case GcUnlistTask => GcUnlistTaskKeeps(s);
    case GcDeleteTask => GcDeleteTaskKeeps(s);
  }

  lemma GcUnlistTaskKeeps(s: State)
    requires Inv(s) && GcEnabled(s, GcUnlistTask)
    ensures Inv(ApplyGc(s, GcUnlistTask))
  {
    var s' := ApplyGc(s, GcUnlistTask);
    forall t | 0 <= t < |s.tasks| ensures SumOk(s', Empty, t) && TaskOk(s', t) {
      assert SumOk(s, Empty, t) && TaskOk(s, t);
    }
    forall u | 0 <= u < |s.threads| ensures CountOk(s', Empty, u) && FateOk(s', u) {
      assert CountOk(s, Empty, u) && FateOk(s, u);
    }
    forall c | 0 <= c < |s.cpus| ensures CpuOk(s', c) { assert CpuOk(s, c); }
  }

  lemma GcDeleteTaskKeeps(s: State)
    requires Inv(s) && GcEnabled(s, GcDeleteTask)
    ensures Inv(ApplyGc(s, GcDeleteTask))
  {
    var s' := ApplyGc(s, GcDeleteTask);
    forall t | 0 <= t < |s.tasks| ensures SumOk(s', Empty, t) && TaskOk(s', t) {
      assert SumOk(s, Empty, t) && TaskOk(s, t);
    }
    forall u | 0 <= u < |s.threads| ensures CountOk(s', Empty, u) && FateOk(s', u) {
      assert CountOk(s, Empty, u) && FateOk(s, u);
    }
    forall c | 0 <= c < |s.cpus| ensures CpuOk(s', c) { assert CpuOk(s, c); }
  }

  lemma GcKeeps(s: State, a: GcStep)
    requires Inv(s) && GcEnabled(s, a)
    ensures Inv(ApplyGc(s, a))
  {
    match a
    case GcShift => GcShiftKeeps(s);
    case GcUnlink => GcUnlinkKeeps(s);
    case GcUnlist => GcUnlistKeeps(s);
    case GcReleaseTask => GcReleaseTaskKeeps(s);
    case GcDelete => GcDeleteKeeps(s);
    case _ => GcTaskKeeps(s, a);
  }

  // ---- runs --------------------------------------------------------------

  lemma TickKeeps(s: State)
    requires Inv(s)
    ensures Inv(s.(clock := s.clock + 1))
  {
    var s' := s.(clock := s.clock + 1);
    forall t | 0 <= t < |s.tasks| ensures SumOk(s', Empty, t) && TaskOk(s', t) {
      assert SumOk(s, Empty, t) && TaskOk(s, t);
    }
    forall u | 0 <= u < |s.threads| ensures CountOk(s', Empty, u) && FateOk(s', u) {
      assert CountOk(s, Empty, u) && FateOk(s, u);
    }
    forall c | 0 <= c < |s.cpus| ensures CpuOk(s', c) { assert CpuOk(s, c); }
  }

  lemma StepKeeps(s: State, a: Step)
    requires Inv(s) && Enabled(s, a)
    ensures Inv(Apply(s, a))
  {
    match a
    case Call(b) => ClientKeeps(s, b);
    case Exec(c, b) => ExecKeeps(s, c, b);
    case Sched(c, b) => SwitchKeeps(s, c, b);
    case Collect(b) => GcKeeps(s, b);
    case Tick => TickKeeps(s);
  }

  lemma InitInv(s: State)
    requires Init(s)
    ensures Inv(s)
  {
    assert forall c | 0 <= c < |s.cpus| :: CpuOk(s, c);
  }

  /** Every state of every run satisfies the invariant. */
  lemma {:induction false} RunInv(r: Run, i: nat)
    requires IsRun(r) && i < |r.states|
    ensures Inv(r.states[i])
  {
    if i == 0 {
      InitInv(r.states[0]);
    } else {
      RunInv(r, i - 1);
      StepKeeps(r.states[i - 1], r.steps[i - 1]);
    }
  }
}
