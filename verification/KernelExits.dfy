/** Hold scopes over whole runs, and what becomes of a thread that leaves. */
module KernelExits {
  import opened Common
  import opened TaskCounters
  import opened ThreadCounters
  import opened Kernel
  import opened KernelInvariant
  import opened KernelSteps
  import opened KernelTheorems
  import opened KernelTimeouts
  import opened KernelKills

  // ---- scopes ------------------------------------------------------------

  /** A scope may be entered: the thread is inside one already, or its task is not killed. */
  predicate Admits(s: State, th: nat)
    requires ThreadInRange(s, th)
  {
    s.threads[th].depth > 0 || !Killed(s.tasks[s.threads[th].task].counts)
  }

  /** How many scopes th has entered before state j and not left by its destructor. */
  function Open(r: Run, th: nat, j: nat): nat
    requires j <= |r.steps| < |r.states|
    decreases j
  {
    if j == 0 then 0
    else if Does(r, j - 1, th, EnterScope) && Admits(r.states[j - 1], th) then Open(r, th, j - 1) + 1
    else if Does(r, j - 1, th, LeaveScope) && Open(r, th, j - 1) > 0 then Open(r, th, j - 1) - 1
    else Open(r, th, j - 1)
  }

  lemma ExecDepth(s: State, c: nat, a: ExecStep)
    requires Inv(s) && ExecEnabled(s, c, a)
    ensures var th := s.cpus[c].th; var s' := ApplyExec(s, c, a);
            th < |s'.threads|
            && s'.threads[th].depth == s.threads[th].depth + One(a.EnterScope? && Admits(s, th)) - One(a.LeaveScope?)
  {
    if a.LeaveScope? { LeftThreads(s, s.cpus[c].th); }
    if a.ExitUnhold? { UnholdThreads(s, c); }
  }

  predicate Counts(r: Run, j: nat, th: nat)
    requires j <= |r.steps| < |r.states|
  {
    if th < |r.states[j].threads| then r.states[j].threads[th].depth == Open(r, th, j) else Open(r, th, j) == 0
  }

  lemma CountsNext(r: Run, j: nat, th: nat)
    requires j < |r.steps| < |r.states| && Inv(r.states[j]) && Enabled(r.states[j], r.steps[j])
    requires r.states[j + 1] == Apply(r.states[j], r.steps[j])
    requires Counts(r, j, th)
    ensures Counts(r, j + 1, th)
  {
    var s, a := r.states[j], r.steps[j];
    if Acts(s, a, th) {
      ExecDepth(s, a.c, a.exec);
    } else {
      if th < |r.states[j + 1].threads| { StepSelf(s, a, th); } else { NoCallsYet(s, a, th); }
    }
  }

  lemma {:induction false} RunCounts(r: Run, j: nat, th: nat)
    requires IsRun(r) && j < |r.states|
    ensures Counts(r, j, th)
  {
    if j > 0 {
      RunCounts(r, j - 1, th);
      RunInv(r, j - 1);
      CountsNext(r, j - 1, th);
    }
  }

  /**
   * A thread is inside as many scopes as it was admitted to and has not left; so the hold it takes
   * (HoldBalance) goes with the destructor of the outermost one or with the exit.
   */
  lemma ScopesNest(r: Run, j: nat, th: nat)
    requires IsRun(r) && j < |r.states| && th < |r.states[j].threads|
    ensures InScope(r.states[j].threads[th]) <==> Open(r, th, j) > 0 && !r.states[j].threads[th].flow.Yielding?
  {
    RunCounts(r, j, th);
  }

  /** Entering succeeds inside a scope and while the task is unkilled; otherwise the thread turns to killing itself. */
  lemma EnteredExactly(r: Run, i: nat, th: nat)
    requires IsRun(r) && Does(r, i, th, EnterScope)
    ensures var s, s' := r.states[i], r.states[i + 1];
            th < |s'.threads|
            && (InScope(s'.threads[th]) <==> InScope(s.threads[th]) || !Killed(s.tasks[s.threads[th].task].counts))
            && (s'.threads[th].flow == if InScope(s'.threads[th]) then Normal else KillingSelf)
  {
    RunInv(r, i);
    assert Enabled(r.states[i], r.steps[i]);
    ExecDepth(r.states[i], r.steps[i].c, EnterScope);
  }

  // ---- after the kill ----------------------------------------------------

  /** No new holds: the holds of a killed task only go. */
  predicate HoldsFade(s: State, s': State, t: nat)
    requires t < |s.tasks|
  {
    && t < |s'.tasks| && Killed(s'.tasks[t].counts) && |s.threads| <= |s'.threads|
    && s'.tasks[t].counts.holdCount <= s.tasks[t].counts.holdCount
    && forall th | 0 <= th < |s'.threads| && s'.threads[th].task == t && InScope(s'.threads[th]) ::
         th < |s.threads| && s.threads[th].task == t && InScope(s.threads[th])
  }

  lemma CallHolds(s: State, a: ClientStep, t: nat)
    requires ClientEnabled(s, a) && t < |s.tasks| && Killed(s.tasks[t].counts)
    ensures t < |ApplyClient(s, a).tasks| && Killed(ApplyClient(s, a).tasks[t].counts)
    ensures ApplyClient(s, a).tasks[t].counts.holdCount <= s.tasks[t].counts.holdCount
    ensures |s.threads| <= |ApplyClient(s, a).threads|
  {
  }

  lemma ExecHolds(s: State, c: nat, a: ExecStep, t: nat)
    requires ExecEnabled(s, c, a) && t < |s.tasks| && Killed(s.tasks[t].counts)
    requires var o := s.threads[s.cpus[c].th]; o.flow.Normal? ==> (o.holdingTask <==> o.depth > 0)
    ensures t < |ApplyExec(s, c, a).tasks| && Killed(ApplyExec(s, c, a).tasks[t].counts)
    ensures ApplyExec(s, c, a).tasks[t].counts.holdCount <= s.tasks[t].counts.holdCount
  {
  }

  lemma SwitchHolds(s: State, c: nat, a: SwitchStep, t: nat)
    requires SwitchEnabled(s, c, a) && t < |s.tasks|
    ensures t < |ApplySwitch(s, c, a).tasks|
    ensures ApplySwitch(s, c, a).tasks[t].counts.holdCount == s.tasks[t].counts.holdCount
    ensures ApplySwitch(s, c, a).tasks[t].counts.killReason == s.tasks[t].counts.killReason
  {
  }

  lemma GcHolds(s: State, a: GcStep, t: nat)
    requires GcEnabled(s, a) && t < |s.tasks|
    ensures t < |ApplyGc(s, a).tasks|
    ensures ApplyGc(s, a).tasks[t].counts.holdCount == s.tasks[t].counts.holdCount
    ensures ApplyGc(s, a).tasks[t].counts.killReason == s.tasks[t].counts.killReason
  {
  }

  lemma CountsFade(s: State, a: Step, t: nat)
    requires Inv(s) && Enabled(s, a) && t < |s.tasks| && Killed(s.tasks[t].counts)
    ensures t < |Apply(s, a).tasks| && Killed(Apply(s, a).tasks[t].counts) && |s.threads| <= |Apply(s, a).threads|
    ensures Apply(s, a).tasks[t].counts.holdCount <= s.tasks[t].counts.holdCount
  {
    if !a.Call? { SameTable(s, a); }
    match a
    case Call(b) => CallHolds(s, b, t);
    case Exec(c, b) => ExecHolds(s, c, b, t);
    case Sched(c, b) => SwitchHolds(s, c, b, t);
    case Collect(b) => GcHolds(s, b, t);
    case Tick =>
  }

  lemma NoneEnters(s: State, a: Step, th: nat)
    requires Inv(s) && Enabled(s, a) && th < |Apply(s, a).threads| && InScope(Apply(s, a).threads[th])
    requires KilledTask(s, Apply(s, a).threads[th].task)
    ensures th < |s.threads| && s.threads[th].task == Apply(s, a).threads[th].task && InScope(s.threads[th])
  {
    if Acts(s, a, th) {
      ExecDepth(s, a.c, a.exec);
      OwnTask(s, a.c, a.exec);
    } else {
      StepSelf(s, a, th);
    }
  }

  lemma OwnTask(s: State, c: nat, a: ExecStep)
    requires ExecEnabled(s, c, a)
    ensures var th := s.cpus[c].th; var s' := ApplyExec(s, c, a);
            th < |s'.threads| && s'.threads[th].task == s.threads[th].task
            && (s.threads[th].flow.Yielding? ==> s'.threads[th].flow.Yielding?)
  {
    if a.LeaveScope? { LeftThreads(s, s.cpus[c].th); }
    if a.ExitUnhold? { UnholdThreads(s, c); }
  }

  lemma StepHolds(s: State, a: Step, t: nat)
    requires Inv(s) && Enabled(s, a) && t < |s.tasks| && Killed(s.tasks[t].counts)
    ensures HoldsFade(s, Apply(s, a), t)
  {
    var s' := Apply(s, a);
    CountsFade(s, a, t);
    forall th: nat | th < |s'.threads| && s'.threads[th].task == t && InScope(s'.threads[th])
      ensures th < |s.threads| && s.threads[th].task == t && InScope(s.threads[th])
    {
      NoneEnters(s, a, th);
    }
  }

  predicate HoldsAt(r: Run, t: nat, k: nat)
    requires k < |r.steps| < |r.states|
  {
    KilledTask(r.states[k], t) ==> HoldsFade(r.states[k], r.states[k + 1], t)
  }

  lemma EachHolds(r: Run, t: nat)
    requires IsRun(r)
    ensures forall k | 0 <= k < |r.steps| :: HoldsAt(r, t, k)
  {
    forall k | 0 <= k < |r.steps| ensures HoldsAt(r, t, k) {
      RunInv(r, k);
      if KilledTask(r.states[k], t) { StepHolds(r.states[k], r.steps[k], t); }
    }
  }

  lemma {:induction false} HoldsChain(r: Run, i: nat, j: nat, t: nat)
    requires i <= j <= |r.steps| < |r.states| && KilledTask(r.states[i], t)
    requires forall k | 0 <= k < |r.steps| :: HoldsAt(r, t, k)
    ensures HoldsFade(r.states[i], r.states[j], t)
  {
    if i < j {
      HoldsChain(r, i, j - 1, t);
      assert HoldsAt(r, t, j - 1);
    }
  }

  /** Once a task is killed its hold count only falls, and no thread of it gets into a scope from outside. */
  lemma NoEntryAfterKill(r: Run, i: nat, j: nat, t: nat)
    requires IsRun(r) && i <= j < |r.states| && KilledTask(r.states[i], t)
    ensures HoldsFade(r.states[i], r.states[j], t)
  {
    EachHolds(r, t);
    HoldsChain(r, i, j, t);
  }

  // ---- threads that leave ------------------------------------------------

  predicate KilledThread(s: State, th: nat) {
    th < |s.threads| && s.threads[th].counts.killed
  }

  lemma ExecKilled(s: State, c: nat, a: ExecStep)
    requires ExecEnabled(s, c, a)
    ensures KilledThread(ApplyExec(s, c, a), s.cpus[c].th) <==> KilledThread(s, s.cpus[c].th) || Ends(a)
  {
    if a.LeaveScope? {
      LeftThreads(s, s.cpus[c].th);
    } else if a.ExitUnhold? {
      UnholdThreads(s, c);
    } else {
      CallKilled(s, c, a);
    }
  }

  lemma CallKilled(s: State, c: nat, a: ExecStep)
    requires ExecEnabled(s, c, a) && !DropsHold(a)
    ensures KilledThread(ApplyExec(s, c, a), s.cpus[c].th) <==> KilledThread(s, s.cpus[c].th) || Ends(a)
  {
  }

  predicate EndsAt(r: Run, i: nat, th: nat) {
    i < |r.steps| && i < |r.states| && Acts(r.states[i], r.steps[i], th) && Ends(r.steps[i].exec)
  }

  lemma StepKilled(s: State, a: Step, th: nat)
    requires Enabled(s, a)
    ensures KilledThread(Apply(s, a), th) <==> KilledThread(s, th) || (Acts(s, a, th) && Ends(a.exec))
  {
    if Acts(s, a, th) {
      ExecKilled(s, a.c, a.exec);
    } else if th < |Apply(s, a).threads| {
      StepSelf(s, a, th);
    } else {
      NoCallsYet(s, a, th);
    }
  }

  predicate KilledAt(r: Run, th: nat, k: nat)
    requires k < |r.steps| < |r.states|
  {
    KilledThread(r.states[k + 1], th) <==> KilledThread(r.states[k], th) || EndsAt(r, k, th)
  }

  lemma EachKilled(r: Run, th: nat)
    requires IsRun(r)
    ensures forall k | 0 <= k < |r.steps| :: KilledAt(r, th, k)
  {
    forall k | 0 <= k < |r.steps| ensures KilledAt(r, th, k) { StepKilled(r.states[k], r.steps[k], th); }
  }

  lemma {:induction false} KilledChain(r: Run, j: nat, th: nat)
    requires j <= |r.steps| < |r.states| && r.states[0].threads == []
    requires forall k | 0 <= k < |r.steps| :: KilledAt(r, th, k)
    ensures KilledThread(r.states[j], th) <==> exists i | 0 <= i < j :: EndsAt(r, i, th)
  {
    if j > 0 {
      KilledChain(r, j - 1, th);
      assert KilledAt(r, th, j - 1);
    }
  }

  /** A thread is killed if and only if it has called ExitThread or ExitTask, or gave up after a refused scope. */
  lemma ThreadKilledExactly(r: Run, j: nat, th: nat)
    requires IsRun(r) && j < |r.states|
    ensures KilledThread(r.states[j], th) <==> exists i | 0 <= i < j :: EndsAt(r, i, th)
  {
    EachKilled(r, th);
    KilledChain(r, j, th);
  }

  /**
   * There is no way back: once it has made one of these calls a thread only finishes leaving
   * (ExitCompletes), whatever else goes on.
   */
  lemma NoReturn(r: Run, i: nat, j: nat, th: nat)
    requires IsRun(r) && EndsAt(r, i, th) && i < j < |r.states|
    ensures th < |r.states[j].threads| && !r.states[j].threads[th].flow.Normal?
  {
    EachLeaving(r, th);
    assert Enabled(r.states[i], r.steps[i]) && r.states[i + 1] == Apply(r.states[i], r.steps[i]);
    EndedLeaving(r.states[i], r.steps[i].c, r.steps[i].exec);
    LeavingForGood(r, i + 1, j, th);
  }

  lemma EndedLeaving(s: State, c: nat, b: ExecStep)
    requires ExecEnabled(s, c, b) && Ends(b)
    ensures Leaving(ApplyExec(s, c, b), s.cpus[c].th)
  {
  }

  /** th was refused a scope in step m: its task was killed and it was not inside one. */
  predicate RefusedAt(r: Run, j: nat, th: nat, m: nat) {
    m < j && Does(r, m, th, EnterScope) && !Admits(r.states[m], th)
  }

  lemma TurnsOnItself(s: State, a: Step, th: nat)
    requires Inv(s) && Enabled(s, a) && th < |Apply(s, a).threads| && Apply(s, a).threads[th].flow.KillingSelf?
    ensures th < |s.threads| && (s.threads[th].flow.KillingSelf?
              || (Acts(s, a, th) && a.exec.EnterScope? && !Admits(s, th)))
  {
    if !Acts(s, a, th) {
      StepSelf(s, a, th);
    } else if a.exec.LeaveScope? {
      LeftThreads(s, th);
    }
  }

  ghost predicate Refused(r: Run, j: nat, th: nat) {
    exists m :: RefusedAt(r, j, th, m)
  }

  lemma RefusedLater(r: Run, j: nat, th: nat)
    requires Refused(r, j, th)
    ensures Refused(r, j + 1, th)
  {
    var m :| RefusedAt(r, j, th, m);
    assert RefusedAt(r, j + 1, th, m);
  }

  predicate TurnsAt(r: Run, th: nat, k: nat)
    requires k < |r.steps| < |r.states|
  {
    SelfKilling(r.states[k + 1], th) ==> SelfKilling(r.states[k], th) || RefusedAt(r, k + 1, th, k)
  }

  predicate SelfKilling(s: State, th: nat) {
    th < |s.threads| && s.threads[th].flow.KillingSelf?
  }

  lemma EachTurns(r: Run, th: nat)
    requires IsRun(r)
    ensures forall k | 0 <= k < |r.steps| :: TurnsAt(r, th, k)
  {
    forall k | 0 <= k < |r.steps| ensures TurnsAt(r, th, k) {
      RunInv(r, k);
      if SelfKilling(r.states[k + 1], th) { TurnsOnItself(r.states[k], r.steps[k], th); }
    }
  }

  lemma {:induction false} OnlyRefused(r: Run, j: nat, th: nat)
    requires j <= |r.steps| < |r.states| && r.states[0].threads == [] && SelfKilling(r.states[j], th)
    requires forall k | 0 <= k < |r.steps| :: TurnsAt(r, th, k)
    ensures Refused(r, j, th)
  {
    assert TurnsAt(r, th, j - 1);
    if SelfKilling(r.states[j - 1], th) {
      OnlyRefused(r, j - 1, th);
      RefusedLater(r, j - 1, th);
    }
  }

  /** Only a thread that was refused a scope kills itself: its task had been killed by then. */
  lemma OnlyRefusedKillThemselves(r: Run, k: nat, th: nat)
    requires IsRun(r) && Does(r, k, th, KillSelf)
    ensures Refused(r, k, th)
  {
    assert Enabled(r.states[k], r.steps[k]);
    EachTurns(r, th);
    OnlyRefused(r, k, th);
  }

  /** The rest of the way out, in sections. */
  function Rank(f: Flow): nat {
    match f
    case Normal => 0
    case KillingTask(_) => 3
    case Unholding => 2
    case KillingSelf => 2
    case Yielding => 1
  }

  /**
   * The way out never stalls: a running thread that is leaving has its next section enabled until
   * only the yield remains, and each section brings it nearer; it makes no other call.
   */
  lemma ExitCompletes(r: Run, i: nat, c: nat, b: ExecStep)
    requires IsRun(r) && i < |r.states| && RunsThread(r.states[i], c)
    ensures var s := r.states[i]; var f := s.threads[s.cpus[c].th].flow;
            !f.Normal? && !f.Yielding? ==>
              ExecEnabled(s, c, ExitKillTask) || ExecEnabled(s, c, ExitUnhold) || ExecEnabled(s, c, KillSelf)
    ensures var s := r.states[i]; var f := s.threads[s.cpus[c].th].flow;
            f.Yielding? ==> SwitchEnabled(s, c, ReadClock)
    ensures var s := r.states[i]; var th := s.cpus[c].th;
            !s.threads[th].flow.Normal? && ExecEnabled(s, c, b) ==>
              th < |ApplyExec(s, c, b).threads| && Rank(ApplyExec(s, c, b).threads[th].flow) < Rank(s.threads[th].flow)
  {
    var s := r.states[i];
    if ExecEnabled(s, c, ExitUnhold) { UnholdThreads(s, c); }
  }

  // ---- the killed do not come back ---------------------------------------

  /** A scan that looks at a killed thread will find it running on another CPU. */
  predicate ChecksRunning(s: State, c: nat) {
    c < |s.cpus| && s.cpus[c].Checking? && KilledThread(s, s.cpus[c].th) ==> s.threads[s.cpus[c].th].running
  }

  predicate AllCheckRunning(s: State) {
    forall c | 0 <= c < |s.cpus| :: ChecksRunning(s, c)
  }

  lemma SwitchChecks(s: State, c: nat, a: SwitchStep, d: nat)
    requires Inv(s) && SwitchEnabled(s, c, a) && AllCheckRunning(s) && d < |s.cpus|
    ensures ChecksRunning(ApplySwitch(s, c, a), d)
  {
    assert ChecksRunning(s, d) && CpuOk(s, d) && CpuOk(s, c);
  }

  lemma StepChecks(s: State, a: Step)
    requires Inv(s) && Enabled(s, a) && AllCheckRunning(s)
    ensures AllCheckRunning(Apply(s, a))
  {
    var s' := Apply(s, a);
    if a.Sched? {
      forall d | 0 <= d < |s'.cpus| ensures ChecksRunning(s', d) { SwitchChecks(s, a.c, a.sched, d); }
    } else {
      OthersRead(s, a);
      forall d | 0 <= d < |s'.cpus| ensures ChecksRunning(s', d) {
        assert ChecksRunning(s, d) && CpuOk(s, d);
        if s.cpus[d].Checking? { KilledWhileRunning(s, a, s.cpus[d].th); }
      }
    }
  }

  lemma KilledWhileRunning(s: State, a: Step, th: nat)
    requires Inv(s) && Enabled(s, a) && !a.Sched? && th < |s.threads|
    requires s.threads[th].counts.killed ==> s.threads[th].running
    ensures KilledThread(Apply(s, a), th) ==> Apply(s, a).threads[th].running
  {
    StepKilled(s, a, th);
    RunningStays(s, a, th);
    if Acts(s, a, th) { RunsAlone(s, a.c); }
  }

  lemma RunningStays(s: State, a: Step, th: nat)
    requires Enabled(s, a) && !a.Sched? && th < |s.threads|
    ensures th < |Apply(s, a).threads| && Apply(s, a).threads[th].running == s.threads[th].running
  {
    if !a.Call? { SameTable(s, a); }
    match a
    case Call(b) => CallRunning(s, b, th);
    case Exec(c, b) => ExecDeadline(s, c, b, th);
    case Collect(b) => GcRunning(s, b, th);
    case Tick =>
  }

  lemma {:induction false} RunChecks(r: Run, i: nat)
    requires IsRun(r) && i < |r.states|
    ensures AllCheckRunning(r.states[i])
  {
    if i > 0 {
      RunChecks(r, i - 1);
      RunInv(r, i - 1);
      StepChecks(r.states[i - 1], r.steps[i - 1]);
    }
  }

  /** Killed, and off its CPU. */
  predicate Retired(s: State, th: nat) {
    KilledThread(s, th) && !s.threads[th].running
  }

  lemma StaysRetired(s: State, a: Step, th: nat)
    requires Inv(s) && Enabled(s, a) && AllCheckRunning(s) && Retired(s, th)
    ensures Retired(Apply(s, a), th)
  {
    StepKilled(s, a, th);
    RunningRises(s, a, th);
    if a.Sched? { assert ChecksRunning(s, a.c); }
  }

  predicate RetiredAt(r: Run, th: nat, k: nat)
    requires k < |r.steps| < |r.states|
  {
    Retired(r.states[k], th) ==> Retired(r.states[k + 1], th)
  }

  lemma EachRetired(r: Run, th: nat)
    requires IsRun(r)
    ensures forall k | 0 <= k < |r.steps| :: RetiredAt(r, th, k)
  {
    forall k | 0 <= k < |r.steps| ensures RetiredAt(r, th, k) {
      RunInv(r, k);
      RunChecks(r, k);
      if Retired(r.states[k], th) { StaysRetired(r.states[k], r.steps[k], th); }
    }
  }

  lemma {:induction false} RetiredChain(r: Run, i: nat, j: nat, th: nat)
    requires i <= j <= |r.steps| < |r.states| && Retired(r.states[i], th)
    requires forall k | 0 <= k < |r.steps| :: RetiredAt(r, th, k)
    ensures Retired(r.states[j], th)
  {
    if i < j {
      RetiredChain(r, i, j - 1, th);
      assert RetiredAt(r, th, j - 1);
    }
  }

  /** A killed thread that has given its CPU away is never executed again. */
  lemma KilledStaysOff(r: Run, i: nat, j: nat, th: nat)
    requires IsRun(r) && i <= j < |r.states| && Retired(r.states[i], th)
    ensures forall c | 0 <= c < |r.states[j].cpus| :: !Executes(r.states[j].cpus[c], th)
  {
    EachRetired(r, th);
    RetiredChain(r, i, j, th);
    RunInv(r, j);
    OffEveryCpu(r.states[j], th);
  }
}
