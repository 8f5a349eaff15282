/** Properties of whole runs: collection order, dead tasks, lookups, and the bypass bound. */
module KernelProgress {
  import opened Common
  import opened TaskCounters
  import opened ThreadCounters
  import opened Kernel
  import opened KernelInvariant
  import opened KernelMoves
  import opened KernelSteps
  import opened KernelTheorems

  // ---- what is thrown away, and in which order it is collected -----------

  ghost predicate Grows(s: State, s': State) {
    History(s') == History(s) || (exists o :: History(s') == History(s) + [o])
  }

  /** Appending to the queue appends to the history. */
  lemma QueueSnoc(s: State)
    ensures forall o: Obj :: s.taken + (s.queue + [o]) == (s.taken + s.queue) + [o]
  {
  }

  lemma ClientGrows(s: State, a: ClientStep)
    requires ClientEnabled(s, a)
    ensures Grows(s, ApplyClient(s, a)) && s.taken == ApplyClient(s, a).taken
  {
    QueueSnoc(s);
  }

  lemma ExecGrows(s: State, c: nat, a: ExecStep)
    requires ExecEnabled(s, c, a)
    ensures Grows(s, ApplyExec(s, c, a)) && s.taken == ApplyExec(s, c, a).taken
  {
    QueueSnoc(s);
  }

  lemma SwitchGrows(s: State, c: nat, a: SwitchStep)
    requires SwitchEnabled(s, c, a)
    ensures Grows(s, ApplySwitch(s, c, a)) && s.taken == ApplySwitch(s, c, a).taken
  {
    QueueSnoc(s);
  }

  lemma GcGrows(s: State, a: GcStep)
    requires GcEnabled(s, a)
    ensures Grows(s, ApplyGc(s, a)) && s.taken <= ApplyGc(s, a).taken
  {
    if a.GcShift? {
      assert s.queue == [s.queue[0]] + s.queue[1..];
      assert History(Shifted(s)) == History(s);
    } else {
      QueueSnoc(s);
    }
  }

  lemma StepGrows(s: State, a: Step)
    requires Enabled(s, a)
    ensures Grows(s, Apply(s, a)) && s.taken <= Apply(s, a).taken
  {
    match a
    case Call(b) => ClientGrows(s, b);
    case Exec(c, b) => ExecGrows(s, c, b);
    case Sched(c, b) => SwitchGrows(s, c, b);
    case Collect(b) => GcGrows(s, b);
    case Tick =>
  }

  lemma PrefixTrans<T>(a: seq<T>, b: seq<T>, c: seq<T>)
    requires a <= b && b <= c
    ensures a <= c
  {
  }

  /**
   * An object is thrown away by exactly the step that takes its last reference, and by no other
   * step: afterwards it stays in the history once and for all.
   */
  lemma ThrownExactlyWhenSpent(r: Run, i: nat, o: Obj)
    requires IsRun(r) && i < |r.steps|
    ensures var s, s' := r.states[i], r.states[i + 1];
            History(s') == History(s) + [o] <==> !ThrownOnce(s, o) && ThrownOnce(s', o)
    ensures ThrownOnce(r.states[i], o) ==> ThrownOnce(r.states[i + 1], o)
  {
    var s, s' := r.states[i], r.states[i + 1];
    RunInv(r, i);
    RunInv(r, i + 1);
    StepGrows(s, r.steps[i]);
    if History(s') == History(s) + [o] {
      assert History(s')[|History(s)|] == o;
      assert forall k | 0 <= k < |History(s)| :: History(s')[k] == History(s)[k] && History(s')[k] != o;
    } else if History(s') != History(s) {
      var p :| History(s') == History(s) + [p];
      assert forall x :: x in History(s') <==> x in History(s) || x == p;
    }
  }

  predicate GrowsAt(r: Run, k: nat)
    requires k < |r.steps| < |r.states|
  {
    History(r.states[k]) <= History(r.states[k + 1]) && r.states[k].taken <= r.states[k + 1].taken
  }

  lemma EachGrows(r: Run)
    requires IsRun(r)
    ensures forall k | 0 <= k < |r.steps| :: GrowsAt(r, k)
  {
    forall k | 0 <= k < |r.steps| ensures GrowsAt(r, k) { StepGrows(r.states[k], r.steps[k]); }
  }

  lemma {:induction false} GrowsChain(r: Run, i: nat, j: nat)
    requires i <= j <= |r.steps| < |r.states|
    requires forall k | 0 <= k < |r.steps| :: GrowsAt(r, k)
    ensures History(r.states[i]) <= History(r.states[j]) && r.states[i].taken <= r.states[j].taken
  {
    if i < j {
      GrowsChain(r, i, j - 1);
      assert GrowsAt(r, j - 1);
      PrefixTrans(History(r.states[i]), History(r.states[j - 1]), History(r.states[j]));
      PrefixTrans(r.states[i].taken, r.states[j - 1].taken, r.states[j].taken);
    }
  }

  lemma HistoryExtends(r: Run, i: nat, j: nat)
    requires IsRun(r) && i <= j < |r.states|
    ensures History(r.states[i]) <= History(r.states[j]) && r.states[i].taken <= r.states[j].taken
  {
    EachGrows(r);
    GrowsChain(r, i, j);
  }

  /** The k-th object the collector takes is the k-th object added, and no object is taken twice. */
  lemma CollectedInOrder(r: Run, i: nat, j: nat, k: nat)
    requires IsRun(r) && i <= j < |r.states|
    requires k < |History(r.states[i])| && k < |r.states[j].taken|
    ensures r.states[j].taken[k] == History(r.states[i])[k]
    ensures Distinct(r.states[j].taken)
  {
    RunInv(r, j);
    HistoryExtends(r, i, j);
    var h := History(r.states[j]);
    assert r.states[j].taken[k] == h[k] && History(r.states[i])[k] == h[k];
    forall a, b | 0 <= a < b < |r.states[j].taken| ensures r.states[j].taken[a] != r.states[j].taken[b] {
      assert h[a] == r.states[j].taken[a] && h[b] == r.states[j].taken[b];
    }
  }

  // ---- dead tasks --------------------------------------------------------

  /** From s to s' the dead task t gained nothing. */
  predicate Fades(s: State, s': State, t: nat)
    requires t < |s.tasks|
  {
    && t < |s'.tasks| && |s.threads| <= |s'.threads|
    && Dead(s'.tasks[t].counts)
    && s'.tasks[t].counts.retainCount <= s.tasks[t].counts.retainCount
    && (forall th | 0 <= th < |s.threads| && s.threads[th].task == t ::
          && s'.threads[th].task == t
          && s'.threads[th].counts.retainCount <= s.threads[th].counts.retainCount
          && References(s'.cpus, th) <= References(s.cpus, th))
  }

  lemma NoHoldsWhenDead(s: State, t: nat)
    requires Inv(s) && t < |s.tasks| && s.tasks[t].counts.holdCount == 0
    ensures !s.tasks[t].creatorHold
    ensures forall th | 0 <= th < |s.threads| && s.threads[th].task == t :: !InScope(s.threads[th])
  {
    assert SumOk(s, Empty, t);
    SumsBound(s.threads, t);
    forall th | 0 <= th < |s.threads| && s.threads[th].task == t ensures !InScope(s.threads[th]) {
      assert HoldShare(s.threads[th], t) <= HoldSum(s.threads, t);
    }
  }

  lemma ReleaseFades(s: State, a: ClientStep, t: nat)
    requires Inv(s) && ClientEnabled(s, a) && t < |s.tasks| && Dead(s.tasks[t].counts) && GivesUp(a)
    ensures Fades(s, ApplyClient(s, a), t)
  {
    NoHoldsWhenDead(s, t);
  }

  lemma ClientFades(s: State, a: ClientStep, t: nat)
    requires Inv(s) && ClientEnabled(s, a) && t < |s.tasks| && Dead(s.tasks[t].counts)
    ensures Fades(s, ApplyClient(s, a), t)
  {
    if GivesUp(a) { ReleaseFades(s, a, t); }
  }

  lemma ExecFades(s: State, c: nat, a: ExecStep, t: nat)
    requires Inv(s) && ExecEnabled(s, c, a) && t < |s.tasks| && Dead(s.tasks[t].counts)
    ensures Fades(s, ApplyExec(s, c, a), t)
  {
    NoHoldsWhenDead(s, t);
  }

  lemma SwitchKeepsOthers(s: State, c: nat, a: SwitchStep)
    requires SwitchEnabled(s, c, a)
    ensures var s' := ApplySwitch(s, c, a); |s'.cpus| == |s.cpus| && s'.cpus == s.cpus[c := s'.cpus[c]]
  {
  }

  lemma SwitchTakesNothing(s: State, c: nat, a: SwitchStep, th: nat)
    requires Inv(s) && SwitchEnabled(s, c, a) && th < |s.threads| && Dead(s.tasks[s.threads[th].task].counts)
    ensures var s' := ApplySwitch(s, c, a); c < |s'.cpus| && (Refers(s'.cpus[c], th) ==> Refers(s.cpus[c], th))
  {
    assert CpuOk(s, c);
  }

  lemma SwitchCountsFall(s: State, c: nat, a: SwitchStep, t: nat)
    requires Inv(s) && SwitchEnabled(s, c, a) && t < |s.tasks| && Dead(s.tasks[t].counts)
    ensures var s' := ApplySwitch(s, c, a);
            && t < |s'.tasks| && Dead(s'.tasks[t].counts) && |s'.threads| == |s.threads|
            && s'.tasks[t].counts.retainCount <= s.tasks[t].counts.retainCount
            && forall th | 0 <= th < |s.threads| && s.threads[th].task == t ::
                 s'.threads[th].task == t && s'.threads[th].counts.retainCount <= s.threads[th].counts.retainCount
  {
    assert CpuOk(s, c);
  }

  lemma SwitchFades(s: State, c: nat, a: SwitchStep, t: nat)
    requires Inv(s) && SwitchEnabled(s, c, a) && t < |s.tasks| && Dead(s.tasks[t].counts)
    ensures Fades(s, ApplySwitch(s, c, a), t)
  {
    var s' := ApplySwitch(s, c, a);
    SwitchCountsFall(s, c, a, t);
    SwitchKeepsOthers(s, c, a);
    forall th | 0 <= th < |s.threads| && s.threads[th].task == t
      ensures References(s'.cpus, th) <= References(s.cpus, th)
    {
      SwitchTakesNothing(s, c, a, th);
      ReferencesUpdate(s.cpus, c, s'.cpus[c]);
    }
  }

  lemma StepFades(s: State, a: Step, t: nat)
    requires Inv(s) && Enabled(s, a) && t < |s.tasks| && Dead(s.tasks[t].counts)
    ensures Fades(s, Apply(s, a), t)
  {
    match a
    case Call(b) => ClientFades(s, b, t);
    case Exec(c, b) => ExecFades(s, c, b, t);
    case Sched(c, b) => SwitchFades(s, c, b, t);
    case Collect(b) => assert Fades(s, ApplyGc(s, b), t);
    case Tick =>
  }

  predicate FadesAt(r: Run, t: nat, k: nat)
    requires k < |r.steps| < |r.states|
  {
    t < |r.states[k].tasks| && Dead(r.states[k].tasks[t].counts) ==> Fades(r.states[k], r.states[k + 1], t)
  }

  lemma EachFades(r: Run, t: nat)
    requires IsRun(r)
    ensures forall k | 0 <= k < |r.steps| :: FadesAt(r, t, k)
  {
    forall k | 0 <= k < |r.steps| ensures FadesAt(r, t, k) {
      RunInv(r, k);
      if t < |r.states[k].tasks| && Dead(r.states[k].tasks[t].counts) { StepFades(r.states[k], r.steps[k], t); }
    }
  }

  lemma {:induction false} FadesChain(r: Run, i: nat, j: nat, t: nat)
    requires i <= j <= |r.steps| < |r.states|
    requires t < |r.states[i].tasks| && Dead(r.states[i].tasks[t].counts)
    requires forall k | 0 <= k < |r.steps| :: FadesAt(r, t, k)
    ensures Fades(r.states[i], r.states[j], t)
  {
    if i < j {
      FadesChain(r, i, j - 1, t);
      assert FadesAt(r, t, j - 1);
    }
  }

  /**
   * Killed with no holds is final.  From then on the task's count and its threads' counts only
   * fall, and no CPU takes up one of its threads: a thread that no CPU kept at that moment is
   * never dispatched again.
   */
  lemma DeadStaysDead(r: Run, i: nat, j: nat, t: nat)
    requires IsRun(r) && i <= j < |r.states|
    requires t < |r.states[i].tasks| && Dead(r.states[i].tasks[t].counts)
    ensures Fades(r.states[i], r.states[j], t)
  {
    EachFades(r, t);
    FadesChain(r, i, j, t);
  }

  /** A thread of a dead task that no CPU keeps is never executed again. */
  lemma NeverDispatchedAgain(r: Run, i: nat, j: nat, th: nat)
    requires IsRun(r) && i <= j < |r.states| && th < |r.states[i].threads|
    requires var t := r.states[i].threads[th].task; t < |r.states[i].tasks| && Dead(r.states[i].tasks[t].counts)
    requires forall c | 0 <= c < |r.states[i].cpus| :: !Refers(r.states[i].cpus[c], th)
    ensures forall c | 0 <= c < |r.states[j].cpus| :: !Refers(r.states[j].cpus[c], th)
    ensures th < |r.states[j].threads| && !r.states[j].threads[th].running
  {
    DeadStaysDead(r, i, j, r.states[i].threads[th].task);
    ReferencesAtLeast(r.states[i].cpus, th);
    ReferencesAtLeast(r.states[j].cpus, th);
    RunInv(r, j);
    assert CountOk(r.states[j], Empty, th);
  }

  // ---- lookups -----------------------------------------------------------

  /** How many references to th callers drop in steps i..j. */
  function Drops(r: Run, th: nat, i: nat, j: nat): nat
    requires i <= j <= |r.steps|
    decreases j
  {
    if i == j then 0 else Drops(r, th, i, j - 1) + One(r.steps[j - 1] == Call(DropThread(th)))
  }

  predicate KeepsClients(s: State, s': State) {
    |s.threads| <= |s'.threads| && forall th | 0 <= th < |s.threads| :: s'.threads[th].clients >= s.threads[th].clients
  }

  lemma SwitchKeepsClients(s: State, c: nat, a: SwitchStep)
    requires SwitchEnabled(s, c, a)
    ensures KeepsClients(s, ApplySwitch(s, c, a))
  {
  }

  lemma ExecKeepsClients(s: State, c: nat, a: ExecStep)
    requires ExecEnabled(s, c, a)
    ensures KeepsClients(s, ApplyExec(s, c, a))
  {
    var s' := ApplyExec(s, c, a);
    assert |s'.threads| == |s.threads|;
    forall th: nat | th < |s.threads| ensures s'.threads[th].clients == s.threads[th].clients {}
  }

  lemma QuietForClients(s: State, a: Step)
    requires Enabled(s, a) && !a.Call?
    ensures KeepsClients(s, Apply(s, a))
  {
    match a
    case Exec(c, b) => ExecKeepsClients(s, c, b);
    case Sched(c, b) => SwitchKeepsClients(s, c, b);
    case Collect(b) => assert KeepsClients(s, ApplyGc(s, b));
    case Tick =>
  }

  lemma DropClients(s: State, u: nat, th: nat)
    requires ClientEnabled(s, DropThread(u)) && th < |s.threads|
    ensures var s' := ApplyClient(s, DropThread(u));
            th < |s'.threads| && s'.threads[th].clients == s.threads[th].clients - One(u == th)
  {
  }

  lemma CallClients(s: State, a: ClientStep, th: nat)
    requires ClientEnabled(s, a) && !a.DropThread? && th < |s.threads|
    ensures var s' := ApplyClient(s, a); th < |s'.threads| && s'.threads[th].clients >= s.threads[th].clients
  {
  }

  lemma ClientsStep(s: State, a: Step, th: nat)
    requires Enabled(s, a) && th < |s.threads|
    ensures th < |Apply(s, a).threads|
    ensures Apply(s, a).threads[th].clients >= s.threads[th].clients - One(a == Call(DropThread(th)))
  {
    if a.Call? {
      if a.call.DropThread? { DropClients(s, a.call.th, th); } else { CallClients(s, a.call, th); }
    } else {
      QuietForClients(s, a);
    }
  }

  predicate ClientsFallBy(r: Run, th: nat, k: nat)
    requires k < |r.steps| && |r.states| == |r.steps| + 1
  {
    th < |r.states[k].threads| ==>
      th < |r.states[k + 1].threads|
      && r.states[k + 1].threads[th].clients >= r.states[k].threads[th].clients
          - One(r.steps[k] == Call(DropThread(th)))
  }

  lemma RunClients(r: Run, th: nat)
    requires IsRun(r)
    ensures forall k | 0 <= k < |r.steps| :: ClientsFallBy(r, th, k)
  {
    forall k | 0 <= k < |r.steps| ensures ClientsFallBy(r, th, k) {
      if th < |r.states[k].threads| { ClientsStep(r.states[k], r.steps[k], th); }
    }
  }

  lemma {:induction false} ClientsRemain(r: Run, th: nat, i: nat, j: nat)
    requires |r.states| == |r.steps| + 1 && i <= j < |r.states| && th < |r.states[i].threads|
    requires forall k | 0 <= k < |r.steps| :: ClientsFallBy(r, th, k)
    ensures th < |r.states[j].threads|
      && r.states[j].threads[th].clients >= r.states[i].threads[th].clients - Drops(r, th, i, j)
  {
    if i < j {
      ClientsRemain(r, th, i, j - 1);
      assert ClientsFallBy(r, th, j - 1);
    }
  }

  /**
   * A thread returned by Find cannot be deleted, nor even thrown away, before the caller releases
   * it, however many of the other references are dropped meanwhile; the same holds for its task.
   */
  lemma FoundThreadSurvives(r: Run, th: nat, i: nat, j: nat)
    requires IsRun(r) && i < j < |r.states| && r.steps[i] == Call(FindThread(th))
    requires ThreadRetainable(r.states[i], th)
    requires Drops(r, th, i + 1, j) <= r.states[i].threads[th].clients
    ensures var s := r.states[j];
            th < |s.threads| && Live(s, AThread(th)) && Live(s, ATask(s.threads[th].task))
            && AThread(th) !in History(s) && ATask(s.threads[th].task) !in History(s)
  {
    RunInv(r, j);
    RunClients(r, th);
    assert ClientsFallBy(r, th, i);
    ClientsRemain(r, th, i + 1, j);
    var s := r.states[j];
    ClientAlive(s, th);
    assert !ThrownOnce(s, AThread(th)) && !ThrownOnce(s, ATask(s.threads[th].task));
  }

  /** How many references to task t callers give up in steps i..j, by Release or by creating a thread. */
  function TaskDrops(r: Run, t: nat, i: nat, j: nat): nat
    requires i <= j <= |r.steps|
    decreases j
  {
    if i == j then 0
    else TaskDrops(r, t, i, j - 1) + One(r.steps[j - 1] == Call(DropTask(t)) || r.steps[j - 1] == Call(NewThread(t)))
  }

  predicate KeepsDirect(s: State, s': State) {
    |s.tasks| <= |s'.tasks| && forall t | 0 <= t < |s.tasks| :: s'.tasks[t].direct >= s.tasks[t].direct
  }

  lemma QuietForDirect(s: State, a: Step)
    requires Enabled(s, a) && !a.Call?
    ensures KeepsDirect(s, Apply(s, a))
  {
    match a
    case Exec(c, b) => assert KeepsDirect(s, ApplyExec(s, c, b));
    case Sched(c, b) => assert KeepsDirect(s, ApplySwitch(s, c, b));
    case Collect(b) => assert KeepsDirect(s, ApplyGc(s, b));
    case Tick =>
  }

  lemma DropDirect(s: State, u: nat, t: nat)
    requires ClientEnabled(s, DropTask(u)) && t < |s.tasks|
    ensures var s' := ApplyClient(s, DropTask(u));
            t < |s'.tasks| && s'.tasks[t].direct == s.tasks[t].direct - One(u == t)
  {
  }

  lemma ClientDirect(s: State, a: ClientStep, t: nat)
    requires ClientEnabled(s, a) && t < |s.tasks| && !a.DropTask?
    ensures var s' := ApplyClient(s, a);
            t < |s'.tasks| && s'.tasks[t].direct >= s.tasks[t].direct - One(a == NewThread(t))
  {
  }

  lemma DirectStep(s: State, a: Step, t: nat)
    requires Enabled(s, a) && t < |s.tasks|
    ensures t < |Apply(s, a).tasks|
    ensures Apply(s, a).tasks[t].direct >= s.tasks[t].direct - One(a == Call(DropTask(t)) || a == Call(NewThread(t)))
  {
    if a.Call? {
      if a.call.DropTask? { DropDirect(s, a.call.t, t); } else { ClientDirect(s, a.call, t); }
    } else {
      QuietForDirect(s, a);
    }
  }

  predicate DirectFallsBy(r: Run, t: nat, k: nat)
    requires k < |r.steps| && |r.states| == |r.steps| + 1
  {
    t < |r.states[k].tasks| ==>
      t < |r.states[k + 1].tasks|
      && r.states[k + 1].tasks[t].direct
         >= r.states[k].tasks[t].direct - One(r.steps[k] == Call(DropTask(t)) || r.steps[k] == Call(NewThread(t)))
  }

  lemma RunDirect(r: Run, t: nat)
    requires IsRun(r)
    ensures forall k | 0 <= k < |r.steps| :: DirectFallsBy(r, t, k)
  {
    forall k | 0 <= k < |r.steps| ensures DirectFallsBy(r, t, k) {
      if t < |r.states[k].tasks| { DirectStep(r.states[k], r.steps[k], t); }
    }
  }

  lemma {:induction false} DirectRemains(r: Run, t: nat, i: nat, j: nat)
    requires |r.states| == |r.steps| + 1 && i <= j < |r.states| && t < |r.states[i].tasks|
    requires forall k | 0 <= k < |r.steps| :: DirectFallsBy(r, t, k)
    ensures t < |r.states[j].tasks|
      && r.states[j].tasks[t].direct >= r.states[i].tasks[t].direct - TaskDrops(r, t, i, j)
  {
    if i < j {
      DirectRemains(r, t, i, j - 1);
      assert DirectFallsBy(r, t, j - 1);
    }
  }

  /** The same for a task returned by Find. */
  lemma FoundTaskSurvives(r: Run, t: nat, i: nat, j: nat)
    requires IsRun(r) && i < j < |r.states| && r.steps[i] == Call(FindTask(t))
    requires !Dead(r.states[i].tasks[t].counts)
    requires TaskDrops(r, t, i + 1, j) <= r.states[i].tasks[t].direct
    ensures var s := r.states[j]; Live(s, ATask(t)) && ATask(t) !in History(s)
  {
    RunInv(r, j);
    RunDirect(r, t);
    assert DirectFallsBy(r, t, i);
    DirectRemains(r, t, i + 1, j);
    DirectKeepsAlive(r.states[j], t);
    assert !ThrownOnce(r.states[j], ATask(t));
  }
}
