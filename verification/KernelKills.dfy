/** Who kills whom, with which reason, and what the killed still do. */
module KernelKills {
  import opened Common
  import opened TaskCounters
  import opened ThreadCounters
  import opened Kernel
  import opened KernelInvariant
  import opened KernelSteps
  import opened KernelTheorems
  import opened KernelTimeouts

  // ---- what a thread does to itself --------------------------------------

  /** In step i thread th, on whatever CPU runs it, makes the call b. */
  predicate Does(r: Run, i: nat, th: nat, b: ExecStep) {
    i < |r.steps| && i < |r.states| && r.steps[i].Exec? && r.steps[i].exec == b && RunsOn(r.states[i], r.steps[i].c, th)
  }

  predicate Acts(s: State, a: Step, th: nat) {
    a.Exec? && RunsOn(s, a.c, th)
  }

  /** The part of a thread that only the thread itself writes. */
  predicate SameSelf(r: ThreadRec, r': ThreadRec) {
    && r'.flow == r.flow && r'.depth == r.depth && r'.holdingTask == r.holdingTask
    && r'.counts.killed == r.counts.killed && r'.task == r.task
  }

  predicate NewBorn(r: ThreadRec) {
    r.flow.Normal? && r.depth == 0 && !r.holdingTask && !r.counts.killed
  }

  lemma ReleaseSelf(s: State, u: nat, th: nat)
    requires ThreadInRange(s, u) && th < |s.threads|
    ensures th < |ThreadRelease(s, u).threads| && SameSelf(s.threads[th], ThreadRelease(s, u).threads[th])
  {
  }

  lemma DropSelf(s: State, u: nat, th: nat)
    requires ClientEnabled(s, DropThread(u)) && th < |s.threads|
    ensures th < |ApplyClient(s, DropThread(u)).threads|
    ensures SameSelf(s.threads[th], ApplyClient(s, DropThread(u)).threads[th])
  {
    ReleaseSelf(SetThread(s, u, s.threads[u].(clients := s.threads[u].clients - 1)), u, th);
  }

  lemma KeepSelf(s: State, a: ClientStep, th: nat)
    requires ClientEnabled(s, a) && !a.DropThread? && th < |s.threads|
    ensures th < |ApplyClient(s, a).threads| && SameSelf(s.threads[th], ApplyClient(s, a).threads[th])
  {
  }

  lemma CallSelf(s: State, a: ClientStep, th: nat)
    requires ClientEnabled(s, a) && th < |ApplyClient(s, a).threads|
    ensures if th < |s.threads| then SameSelf(s.threads[th], ApplyClient(s, a).threads[th])
            else NewBorn(ApplyClient(s, a).threads[th])
  {
    if th < |s.threads| {
      if a.DropThread? { DropSelf(s, a.th, th); } else { KeepSelf(s, a, th); }
    }
  }

  lemma SwitchSelf(s: State, c: nat, a: SwitchStep, th: nat)
    requires SwitchEnabled(s, c, a) && th < |s.threads| == |ApplySwitch(s, c, a).threads|
    ensures SameSelf(s.threads[th], ApplySwitch(s, c, a).threads[th])
  {
    var v := s.cpus[c];
    if a.ReleaseResigned? || a.Skip? {
      ReleaseSelf(SetCpu(s, c, Scanning(if a.Skip? then v.i + 1 else 0, v.now)), v.th, th);
    }
  }

  lemma GcSelf(s: State, a: GcStep, th: nat)
    requires GcEnabled(s, a) && th < |s.threads| == |ApplyGc(s, a).threads|
    ensures SameSelf(s.threads[th], ApplyGc(s, a).threads[th])
  {
  }

  /** The acting thread's record once it has made its call. */
  function AfterLeave(o: ThreadRec): ThreadRec
    requires o.depth > 0
  {
    if o.depth > 1 then o.(depth := o.depth - 1) else o.(depth := 0, holdingTask := false)
  }

  lemma LeftThreads(s: State, u: nat)
    requires ThreadInRange(s, u) && s.threads[u].depth > 0
    ensures Left(s, u).threads == s.threads[u := AfterLeave(s.threads[u])]
  {
  }

  lemma UnholdThreads(s: State, c: nat)
    requires ExecEnabled(s, c, ExitUnhold)
    ensures var th := s.cpus[c].th;
            ApplyExec(s, c, ExitUnhold).threads == s.threads[th := s.threads[th].(flow := Yielding)]
  {
  }

  /** An action writes the record of the acting thread and no other. */
  lemma ActsAlone(s: State, c: nat, a: ExecStep, th: nat)
    requires ExecEnabled(s, c, a) && th < |s.threads| && th != s.cpus[c].th
    ensures th < |ApplyExec(s, c, a).threads| && ApplyExec(s, c, a).threads[th] == s.threads[th]
  {
    if a.LeaveScope? { LeftThreads(s, s.cpus[c].th); }
    if a.ExitUnhold? { UnholdThreads(s, c); }
  }

  /** What a thread is to itself changes only by its own actions. */
  lemma StepSelf(s: State, a: Step, th: nat)
    requires Enabled(s, a) && th < |Apply(s, a).threads| && !Acts(s, a, th)
    ensures if th < |s.threads| then SameSelf(s.threads[th], Apply(s, a).threads[th])
            else NewBorn(Apply(s, a).threads[th])
  {
    if !a.Call? { SameTable(s, a); }
    match a
    case Call(b) => CallSelf(s, b, th);
    case Exec(c, b) => ActsAlone(s, c, b, th);
    case Sched(c, b) => SwitchSelf(s, c, b, th);
    case Collect(b) => GcSelf(s, b, th);
    case Tick =>
  }

  // ---- leaving is for good -----------------------------------------------

  /** From here on the thread only finishes leaving. */
  predicate Leaving(s: State, th: nat) {
    th < |s.threads| && !s.threads[th].flow.Normal?
  }

  lemma StillLeaving(s: State, a: Step, th: nat)
    requires Enabled(s, a) && Leaving(s, th)
    ensures Leaving(Apply(s, a), th)
  {
    TableGrows(s, a);
    if Acts(s, a, th) { ActsLeaving(s, a.c, a.exec); } else { StepSelf(s, a, th); }
  }

  lemma TableGrows(s: State, a: Step)
    requires Enabled(s, a)
    ensures |s.threads| <= |Apply(s, a).threads|
  {
    if !a.Call? { SameTable(s, a); }
  }

  lemma ActsLeaving(s: State, c: nat, a: ExecStep)
    requires ExecEnabled(s, c, a) && !s.threads[s.cpus[c].th].flow.Normal?
    ensures Leaving(ApplyExec(s, c, a), s.cpus[c].th)
  {
    if a.ExitUnhold? { UnholdThreads(s, c); }
  }

  predicate LeavingAt(r: Run, th: nat, k: nat)
    requires k < |r.steps| < |r.states|
  {
    Leaving(r.states[k], th) ==> Leaving(r.states[k + 1], th)
  }

  lemma EachLeaving(r: Run, th: nat)
    requires IsRun(r)
    ensures forall k | 0 <= k < |r.steps| :: LeavingAt(r, th, k)
  {
    forall k | 0 <= k < |r.steps| ensures LeavingAt(r, th, k) {
      if Leaving(r.states[k], th) { StillLeaving(r.states[k], r.steps[k], th); }
    }
  }

  lemma {:induction false} LeavingForGood(r: Run, i: nat, j: nat, th: nat)
    requires i <= j <= |r.steps| < |r.states| && Leaving(r.states[i], th)
    requires forall k | 0 <= k < |r.steps| :: LeavingAt(r, th, k)
    ensures Leaving(r.states[j], th)
  {
    if i < j {
      LeavingForGood(r, i, j - 1, th);
      assert LeavingAt(r, th, j - 1);
    }
  }

  /** The calls with which a thread ends itself. */
  predicate Ends(b: ExecStep) {
    b.ExitThread? || b.ExitTask? || b.ExitCurrent? || b.KillSelf?
  }

  lemma EndsLeaving(s: State, c: nat, b: ExecStep)
    requires ExecEnabled(s, c, b) && (b.ExitThread? || b.ExitTask? || b.ExitCurrent?)
    ensures s.threads[s.cpus[c].th].flow.Normal? && Leaving(ApplyExec(s, c, b), s.cpus[c].th)
  {
  }

  /** A thread asks to leave once. */
  lemma LeavesOnce(r: Run, i: nat, j: nat, th: nat, b: ExecStep, d: ExecStep)
    requires IsRun(r) && Does(r, i, th, b) && Does(r, j, th, d)
    requires (b.ExitThread? || b.ExitTask? || b.ExitCurrent?) && (d.ExitThread? || d.ExitTask? || d.ExitCurrent?)
    ensures i == j
  {
    EachLeaving(r, th);
    assert Enabled(r.states[i], r.steps[i]) && Enabled(r.states[j], r.steps[j]);
    EndsLeaving(r.states[i], r.steps[i].c, b);
    EndsLeaving(r.states[j], r.steps[j].c, d);
    if i < j { LeavingForGood(r, i + 1, j, th); }
    if j < i { LeavingForGood(r, j + 1, i, th); }
  }

  // ---- who calls Task::Kill ----------------------------------------------

  /** th called ExitTask with this status before state j. */
  predicate AskedBy(r: Run, j: nat, th: nat, status: int, m: nat) {
    m < j && Does(r, m, th, ExitTask(status))
  }

  ghost predicate Asked(r: Run, j: nat, th: nat, status: int) {
    exists m :: AskedBy(r, j, th, status, m)
  }

  lemma AskedLater(r: Run, j: nat, th: nat, status: int)
    requires Asked(r, j, th, status)
    ensures Asked(r, j + 1, th, status)
  {
    var m :| AskedBy(r, j, th, status, m);
    assert AskedBy(r, j + 1, th, status, m);
  }

  lemma ActsKilling(s: State, c: nat, a: ExecStep)
    requires ExecEnabled(s, c, a)
    ensures var th := s.cpus[c].th; var s' := ApplyExec(s, c, a);
            th < |s'.threads|
            && (s'.threads[th].flow.KillingTask? ==>
                  s'.threads[th].flow == s.threads[th].flow || a == ExitTask(s'.threads[th].flow.status))
  {
    if a.LeaveScope? { LeftThreads(s, s.cpus[c].th); }
    if a.ExitUnhold? { UnholdThreads(s, c); }
  }

  lemma StartsKilling(s: State, a: Step, th: nat)
    requires Enabled(s, a) && th < |Apply(s, a).threads| && Apply(s, a).threads[th].flow.KillingTask?
    ensures th < |s.threads| && (s.threads[th].flow == Apply(s, a).threads[th].flow
              || (Acts(s, a, th) && a.exec == ExitTask(Apply(s, a).threads[th].flow.status)))
  {
    if Acts(s, a, th) { ActsKilling(s, a.c, a.exec); } else { StepSelf(s, a, th); }
  }

  /** Whoever is about to kill its task asked for that with the same status. */
  lemma {:induction false} KillerAsked(r: Run, j: nat, th: nat)
    requires IsRun(r) && j < |r.states| && th < |r.states[j].threads| && r.states[j].threads[th].flow.KillingTask?
    ensures Asked(r, j, th, r.states[j].threads[th].flow.status)
  {
    StartsKilling(r.states[j - 1], r.steps[j - 1], th);
    var status := r.states[j].threads[th].flow.status;
    if r.states[j - 1].threads[th].flow == r.states[j].threads[th].flow {
      KillerAsked(r, j - 1, th);
      AskedLater(r, j - 1, th, status);
    } else {
      assert AskedBy(r, j, th, status, j - 1);
    }
  }

  /**
   * Step i calls Task::Kill on t with this reason: a caller's own call, or the part of ExitTask that
   * follows the thread's own death, by a thread of t that gave this status.
   */
  ghost predicate KillCall(r: Run, i: nat, t: nat, reason: int) {
    && i < |r.steps| && i < |r.states|
    && (r.steps[i] == Call(KillTask(t, reason))
        || exists th :: KillingThread(r, i, th, t) && Asked(r, i, th, reason))
  }

  predicate KillingThread(r: Run, i: nat, th: nat, t: nat) {
    Does(r, i, th, ExitKillTask) && r.states[i].threads[th].task == t
  }

  /** The reason that the step passes to Task::Kill on t, read off the state. */
  function ReasonGiven(s: State, a: Step, t: nat): Option<int> {
    match a
    case Call(KillTask(u, reason)) => if u == t then Some(reason) else None
    case Exec(c, ExitKillTask) =>
      if RunsThread(s, c) && s.threads[s.cpus[c].th].task == t && s.threads[s.cpus[c].th].flow.KillingTask?
      then Some(s.threads[s.cpus[c].th].flow.status) else None
    case _ => None
  }

  /** What is read off the state is what was asked for. */
  lemma KillCallExactly(r: Run, i: nat, t: nat, reason: int)
    requires IsRun(r) && i < |r.steps|
    ensures KillCall(r, i, t, reason) <==> ReasonGiven(r.states[i], r.steps[i], t) == Some(reason)
  {
    var s, a := r.states[i], r.steps[i];
    assert Enabled(s, a);
    if a.Exec? && a.exec.ExitKillTask? {
      var th := s.cpus[a.c].th;
      KillerAsked(r, i, th);
      assert Does(r, i, th, ExitKillTask);
      if KillCall(r, i, t, reason) { SameStatus(r, i, th, s.threads[th].flow.status, reason); }
      if ReasonGiven(s, a, t) == Some(reason) { assert KillingThread(r, i, th, t); }
    }
  }

  lemma SameStatus(r: Run, i: nat, th: nat, p: int, q: int)
    requires IsRun(r) && Asked(r, i, th, p) && Asked(r, i, th, q)
    ensures p == q
  {
    var m :| AskedBy(r, i, th, p, m);
    var n :| AskedBy(r, i, th, q, n);
    LeavesOnce(r, m, n, th, ExitTask(p), ExitTask(q));
  }

  predicate KilledTask(s: State, t: nat) {
    t < |s.tasks| && Killed(s.tasks[t].counts)
  }

  /** The reason for which task t was killed, -1 while it is not. */
  function Reason(s: State, t: nat): int {
    if t < |s.tasks| then s.tasks[t].counts.killReason else -1
  }

  function ReasonAfter(s: State, a: Step, t: nat): int {
    if Reason(s, t) != -1 then Reason(s, t)
    else
      match ReasonGiven(s, a, t)
      case None => -1
      case Some(reason) => reason
  }

  lemma CallReason(s: State, a: ClientStep, t: nat)
    requires ClientEnabled(s, a)
    ensures Reason(ApplyClient(s, a), t) == ReasonAfter(s, Call(a), t)
  {
  }

  lemma ExecReason(s: State, c: nat, a: ExecStep, t: nat)
    requires ExecEnabled(s, c, a)
    ensures Reason(ApplyExec(s, c, a), t) == ReasonAfter(s, Exec(c, a), t)
  {
  }

  lemma SwitchReason(s: State, c: nat, a: SwitchStep, t: nat)
    requires SwitchEnabled(s, c, a)
    ensures Reason(ApplySwitch(s, c, a), t) == Reason(s, t)
  {
  }

  lemma GcReason(s: State, a: GcStep, t: nat)
    requires GcEnabled(s, a)
    ensures Reason(ApplyGc(s, a), t) == Reason(s, t)
  {
  }

  lemma StepReason(s: State, a: Step, t: nat)
    requires Enabled(s, a)
    ensures Reason(Apply(s, a), t) == ReasonAfter(s, a, t)
  {
    match a
    case Call(b) => CallReason(s, b, t);
    case Exec(c, b) => ExecReason(s, c, b, t);
    case Sched(c, b) => SwitchReason(s, c, b, t);
    case Collect(b) => GcReason(s, b, t);
    case Tick =>
  }

  /** The reason is that of the first call that kills. */
  predicate ReasonAt(r: Run, t: nat, k: nat)
    requires k < |r.steps| < |r.states|
  {
    Reason(r.states[k + 1], t) == ReasonAfter(r.states[k], r.steps[k], t)
  }

  lemma EachReason(r: Run, t: nat)
    requires IsRun(r)
    ensures forall k | 0 <= k < |r.steps| :: ReasonAt(r, t, k)
  {
    forall k | 0 <= k < |r.steps| ensures ReasonAt(r, t, k) { StepReason(r.states[k], r.steps[k], t); }
  }

  lemma {:induction false} ReasonChain(r: Run, i: nat, j: nat, t: nat)
    requires i <= j <= |r.steps| < |r.states| && Reason(r.states[i], t) != -1
    requires forall k | 0 <= k < |r.steps| :: ReasonAt(r, t, k)
    ensures Reason(r.states[j], t) == Reason(r.states[i], t)
  {
    if i < j {
      ReasonChain(r, i, j - 1, t);
      assert ReasonAt(r, t, j - 1);
    }
  }

  lemma {:induction false} FirstKill(r: Run, j: nat, t: nat)
    requires j <= |r.steps| < |r.states| && r.states[0].tasks == []
    requires forall k | 0 <= k < |r.steps| :: ReasonAt(r, t, k)
    ensures Reason(r.states[j], t) != -1 ==>
      exists i: nat :: i < j && GivenAt(r, i, t) == Some(Reason(r.states[j], t))
    ensures Reason(r.states[j], t) == -1 ==>
      forall i | 0 <= i < j :: GivenAt(r, i, t).None? || GivenAt(r, i, t) == Some(-1)
  {
    if j > 0 {
      FirstKill(r, j - 1, t);
      assert ReasonAt(r, t, j - 1);
      assert GivenAt(r, j - 1, t) == ReasonGiven(r.states[j - 1], r.steps[j - 1], t);
    }
  }

  function GivenAt(r: Run, i: nat, t: nat): Option<int> {
    if i < |r.steps| && i < |r.states| then ReasonGiven(r.states[i], r.steps[i], t) else None
  }

  /**
   * A task is killed if and only if somebody called Task::Kill on it with a reason other than -1:
   * from outside, or one of its own threads that had called ExitTask with that status.
   */
  lemma KilledExactly(r: Run, j: nat, t: nat)
    requires IsRun(r) && j < |r.states|
    ensures KilledTask(r.states[j], t) <==>
      exists i: nat, reason: int :: i < j && reason != -1 && KillCall(r, i, t, reason)
  {
    EachReason(r, t);
    FirstKill(r, j, t);
    if KilledTask(r.states[j], t) {
      var reason := Reason(r.states[j], t);
      var i: nat :| i < j && GivenAt(r, i, t) == Some(reason);
      KillCallExactly(r, i, t, reason);
      assert KillCall(r, i, t, reason);
    } else {
      forall i: nat, reason: int | i < j && reason != -1 ensures !KillCall(r, i, t, reason) {
        KillCallExactly(r, i, t, reason);
        assert GivenAt(r, i, t) == ReasonGiven(r.states[i], r.steps[i], t);
      }
    }
  }

  /** The first reason that kills is recorded, and stays whatever others give later. */
  lemma FirstReasonStays(r: Run, i: nat, j: nat, t: nat, reason: int)
    requires IsRun(r) && i < j < |r.states|
    requires KillCall(r, i, t, reason) && reason != -1 && !KilledTask(r.states[i], t)
    ensures t < |r.states[j].tasks| && r.states[j].tasks[t].counts.killReason == reason
  {
    EachReason(r, t);
    KillCallExactly(r, i, t, reason);
    assert ReasonAt(r, t, i);
    ReasonChain(r, i + 1, j, t);
  }

  /** Leaving through ExitThread spares the task: the thread never goes on to kill it. */
  lemma ExitThreadSpares(r: Run, i: nat, k: nat, th: nat)
    requires IsRun(r) && Does(r, i, th, ExitThread)
    ensures !Does(r, k, th, ExitKillTask)
  {
    if Does(r, k, th, ExitKillTask) {
      assert Enabled(r.states[k], r.steps[k]);
      KillerAsked(r, k, th);
      var status := r.states[k].threads[th].flow.status;
      var m :| AskedBy(r, k, th, status, m);
      LeavesOnce(r, i, m, th, ExitThread, ExitTask(status));
    }
  }
}
