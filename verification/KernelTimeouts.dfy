/** Timeouts: what a deadline is, and that no thread runs before its own. */
module KernelTimeouts {
  import opened Common
  import opened Kernel
  import opened KernelInvariant
  import opened KernelSteps
  import opened KernelTheorems

  // ---- clock readings are past -------------------------------------------

  /** The clock reading that a Switch in progress on this CPU goes by. */
  function Reading(v: Cpu): nat {
    match v
    case Waiting(_, now) => now
    case Resigned(_, now) => now
    case Scanning(_, now) => now
    case Checking(_, _, now) => now
    case Skipping(_, _, now) => now
    case _ => 0
  }

  predicate ReadingsPast(s: State) {
    forall c | 0 <= c < |s.cpus| :: Reading(s.cpus[c]) <= s.clock
  }

  lemma SwitchReads(s: State, c: nat, a: SwitchStep)
    requires SwitchEnabled(s, c, a) && ReadingsPast(s)
    ensures ReadingsPast(ApplySwitch(s, c, a)) && s.clock == ApplySwitch(s, c, a).clock
  {
  }

  /** Outside Switch no CPU reads the clock. */
  lemma OthersRead(s: State, a: Step)
    requires Enabled(s, a) && !a.Sched?
    ensures Apply(s, a).cpus == s.cpus && s.clock <= Apply(s, a).clock
  {
  }

  lemma StepReads(s: State, a: Step)
    requires Enabled(s, a) && ReadingsPast(s)
    ensures ReadingsPast(Apply(s, a)) && s.clock <= Apply(s, a).clock
  {
    match a
    case Sched(c, b) => SwitchReads(s, c, b);
    case _ => OthersRead(s, a);
  }

  lemma {:induction false} RunReads(r: Run, i: nat)
    requires IsRun(r) && i < |r.states|
    ensures ReadingsPast(r.states[i])
  {
    if i > 0 {
      RunReads(r, i - 1);
      StepReads(r.states[i - 1], r.steps[i - 1]);
    }
  }

  function Ticks(r: Run, i: nat, j: nat): nat
    requires i <= j <= |r.steps|
    decreases j
  {
    if i == j then 0 else Ticks(r, i, j - 1) + One(r.steps[j - 1].Tick?)
  }

  lemma StepClock(s: State, a: Step)
    requires Enabled(s, a)
    ensures Apply(s, a).clock == s.clock + One(a.Tick?)
  {
  }

  predicate ClockAt(r: Run, k: nat)
    requires k < |r.steps| < |r.states|
  {
    r.states[k + 1].clock == r.states[k].clock + One(r.steps[k].Tick?)
  }

  lemma EachClock(r: Run)
    requires IsRun(r)
    ensures forall k | 0 <= k < |r.steps| :: ClockAt(r, k)
  {
    forall k | 0 <= k < |r.steps| ensures ClockAt(r, k) { StepClock(r.states[k], r.steps[k]); }
  }

  lemma {:induction false} ClockChain(r: Run, i: nat, j: nat)
    requires i <= j <= |r.steps| < |r.states| && forall k | 0 <= k < |r.steps| :: ClockAt(r, k)
    ensures r.states[j].clock == r.states[i].clock + Ticks(r, i, j)
  {
    if i < j {
      ClockChain(r, i, j - 1);
      assert ClockAt(r, j - 1);
    }
  }

  /** The clock counts the ticks and nothing else. */
  lemma ClockCounts(r: Run, i: nat, j: nat)
    requires IsRun(r) && i <= j < |r.states|
    ensures r.states[j].clock == r.states[i].clock + Ticks(r, i, j)
  {
    EachClock(r);
    ClockChain(r, i, j);
  }

  // ---- deadlines ---------------------------------------------------------

  /** CPU c executes thread th. */
  predicate RunsOn(s: State, c: nat, th: nat) {
    RunsThread(s, c) && s.cpus[c].th == th
  }

  predicate Sets(s: State, a: Step, th: nat) {
    a.Exec? && a.exec.SetTimeout? && RunsOn(s, a.c, th)
  }

  /**
   * What the calls before state j have left th's deadline at: 0 to begin with, then what its last
   * SetTimeout asked for, or 0 again if somebody called ClearTimeout after that.
   */
  function Deadline(r: Run, th: nat, j: nat): nat
    requires j <= |r.steps| < |r.states|
    decreases j
  {
    if j == 0 then 0
    else if r.steps[j - 1] == Call(ClearTimeout(th)) then 0
    else if Sets(r.states[j - 1], r.steps[j - 1], th) then r.steps[j - 1].exec.deadline
    else Deadline(r, th, j - 1)
  }

  lemma CallDeadline(s: State, a: ClientStep, th: nat)
    requires ClientEnabled(s, a) && th < |ApplyClient(s, a).threads|
    ensures ApplyClient(s, a).threads[th].deadline
         == if a == ClearTimeout(th) || th >= |s.threads| then 0 else s.threads[th].deadline
  {
  }

  lemma LeftDeadline(s: State, u: nat, th: nat)
    requires ThreadInRange(s, u) && s.threads[u].depth > 0 && th < |s.threads|
    ensures th < |Left(s, u).threads| && Left(s, u).threads[th].deadline == s.threads[th].deadline
    ensures Left(s, u).threads[th].running == s.threads[th].running
  {
  }

  lemma UnholdDeadline(s: State, c: nat, a: ExecStep, th: nat)
    requires ExecEnabled(s, c, a) && DropsHold(a) && th < |s.threads| == |ApplyExec(s, c, a).threads|
    ensures ApplyExec(s, c, a).threads[th].deadline == s.threads[th].deadline
    ensures ApplyExec(s, c, a).threads[th].running == s.threads[th].running
  {
    if a.LeaveScope? { LeftDeadline(s, s.cpus[c].th, th); }
  }

  lemma ExecDeadline(s: State, c: nat, a: ExecStep, th: nat)
    requires ExecEnabled(s, c, a) && th < |s.threads| == |ApplyExec(s, c, a).threads|
    ensures ApplyExec(s, c, a).threads[th].deadline
         == if a.SetTimeout? && s.cpus[c].th == th then a.deadline else s.threads[th].deadline
    ensures ApplyExec(s, c, a).threads[th].running == s.threads[th].running
  {
    if DropsHold(a) { UnholdDeadline(s, c, a, th); }
  }

  lemma SwitchDeadline(s: State, c: nat, a: SwitchStep, th: nat)
    requires SwitchEnabled(s, c, a) && th < |s.threads| == |ApplySwitch(s, c, a).threads|
    ensures ApplySwitch(s, c, a).threads[th].deadline == s.threads[th].deadline
  {
  }

  lemma GcDeadline(s: State, a: GcStep, th: nat)
    requires GcEnabled(s, a) && th < |s.threads| == |ApplyGc(s, a).threads|
    ensures ApplyGc(s, a).threads[th].deadline == s.threads[th].deadline
  {
  }

  lemma StepDeadline(s: State, a: Step, th: nat)
    requires Enabled(s, a) && th < |Apply(s, a).threads|
    ensures Apply(s, a).threads[th].deadline
         == if a == Call(ClearTimeout(th)) || th >= |s.threads| then 0
            else if Sets(s, a, th) then a.exec.deadline
            else s.threads[th].deadline
  {
    if !a.Call? { SameTable(s, a); }
    match a
    case Call(b) => CallDeadline(s, b, th);
    case Exec(c, b) => ExecDeadline(s, c, b, th);
    case Sched(c, b) => SwitchDeadline(s, c, b, th);
    case Collect(b) => GcDeadline(s, b, th);
    case Tick =>
  }

  lemma SameTable(s: State, a: Step)
    requires Enabled(s, a) && !a.Call?
    ensures |Apply(s, a).threads| == |s.threads|
  {
  }

  /** The state agrees with Deadline: on every thread there is, and on those to come. */
  predicate Agrees(r: Run, j: nat, th: nat)
    requires j <= |r.steps| < |r.states|
  {
    if th < |r.states[j].threads| then r.states[j].threads[th].deadline == Deadline(r, th, j)
    else Deadline(r, th, j) == 0
  }

  lemma AgreesNext(r: Run, j: nat, th: nat)
    requires j < |r.steps| < |r.states| && Enabled(r.states[j], r.steps[j])
    requires r.states[j + 1] == Apply(r.states[j], r.steps[j])
    requires Agrees(r, j, th)
    ensures Agrees(r, j + 1, th)
  {
    var s, a := r.states[j], r.steps[j];
    if th < |r.states[j + 1].threads| { StepDeadline(s, a, th); } else { NoCallsYet(s, a, th); }
    if th >= |s.threads| { NotYetCalled(s, a, th); }
  }

  lemma NotYetCalled(s: State, a: Step, th: nat)
    requires Enabled(s, a) && th >= |s.threads|
    ensures a != Call(ClearTimeout(th)) && !Sets(s, a, th)
  {
  }

  lemma NoCallsYet(s: State, a: Step, th: nat)
    requires Enabled(s, a) && th >= |Apply(s, a).threads|
    ensures th >= |s.threads|
  {
    if !a.Call? { SameTable(s, a); }
  }

  lemma {:induction false} RunAgrees(r: Run, j: nat, th: nat)
    requires IsRun(r) && j < |r.states|
    ensures Agrees(r, j, th)
  {
    if j > 0 {
      RunAgrees(r, j - 1, th);
      AgreesNext(r, j - 1, th);
    }
  }

  /** A thread's deadline is the one that the calls so far have left it with. */
  lemma DeadlineExactly(r: Run, j: nat, th: nat)
    requires IsRun(r) && j < |r.states| && th < |r.states[j].threads|
    ensures r.states[j].threads[th].deadline == Deadline(r, th, j)
  {
    RunAgrees(r, j, th);
  }

  // ---- nobody is early ---------------------------------------------------

  predicate InSwitch(v: Cpu) {
    v.Waiting? || v.Resigned? || v.Scanning? || v.Checking? || v.Skipping?
  }

  /** Step m is CPU c's last reading of the clock before state i. */
  predicate ReadAt(r: Run, i: nat, c: nat, m: nat) {
    && m < i && m < |r.steps| && m < |r.states| && r.steps[m] == Sched(c, ReadClock)
    && forall k | m < k < i && k < |r.steps| :: r.steps[k] != Sched(c, ReadClock)
  }

  /** What CPU c goes by is its last reading. */
  ghost predicate GoesByReading(r: Run, i: nat, c: nat)
    requires i < |r.states|
  {
    c < |r.states[i].cpus| && InSwitch(r.states[i].cpus[c]) ==>
      exists m: nat :: ReadAt(r, i, c, m) && Reading(r.states[i].cpus[c]) == r.states[m].clock
  }

  lemma SwitchReading(s: State, c: nat, a: SwitchStep, d: nat)
    requires SwitchEnabled(s, c, a) && d < |s.cpus| && InSwitch(ApplySwitch(s, c, a).cpus[d])
    ensures if d == c && a.ReadClock? then Reading(ApplySwitch(s, c, a).cpus[d]) == s.clock
            else InSwitch(s.cpus[d]) && Reading(ApplySwitch(s, c, a).cpus[d]) == Reading(s.cpus[d])
  {
  }

  lemma SameCpus(s: State, a: Step)
    requires Enabled(s, a)
    ensures |Apply(s, a).cpus| == |s.cpus|
  {
    if !a.Sched? { OthersRead(s, a); }
  }

  lemma ReadingNext(r: Run, i: nat, c: nat)
    requires i < |r.steps| && i + 1 < |r.states| && Enabled(r.states[i], r.steps[i])
    requires r.states[i + 1] == Apply(r.states[i], r.steps[i]) && GoesByReading(r, i, c)
    ensures GoesByReading(r, i + 1, c)
  {
    var s, a := r.states[i], r.steps[i];
    SameCpus(s, a);
    if c < |s.cpus| && InSwitch(r.states[i + 1].cpus[c]) {
      if a.Sched? { SwitchReading(s, a.c, a.sched, c); } else { OthersRead(s, a); }
      if a == Sched(c, ReadClock) {
        assert ReadAt(r, i + 1, c, i);
      } else {
        var m: nat :| ReadAt(r, i, c, m) && Reading(s.cpus[c]) == r.states[m].clock;
        assert ReadAt(r, i + 1, c, m);
      }
    }
  }

  lemma {:induction false} RunReading(r: Run, i: nat, c: nat)
    requires IsRun(r) && i < |r.states|
    ensures GoesByReading(r, i, c)
  {
    if i > 0 {
      RunReading(r, i - 1, c);
      ReadingNext(r, i - 1, c);
    }
  }

  /** In step i CPU c picks th if it is due by the reading of step m and not running, and only then. */
  predicate DecidesBy(r: Run, i: nat, c: nat, th: nat, m: nat)
    requires i < |r.steps| < |r.states|
  {
    && ReadAt(r, i, c, m) && r.states[m].clock <= r.states[i].clock
    && th < |r.states[i].threads| && c < |r.states[i + 1].cpus|
    && (r.states[i + 1].cpus[c] == Picked(th) <==>
        !r.states[i].threads[th].running && Deadline(r, th, i) <= r.states[m].clock)
  }

  lemma DecideReads(s: State, c: nat)
    requires SwitchEnabled(s, c, Decide) && ReadingsPast(s)
    ensures InSwitch(s.cpus[c]) && Reading(s.cpus[c]) <= s.clock && s.cpus[c].th < |s.threads|
    ensures var th := s.cpus[c].th;
            c < |Decided(s, c).cpus|
            && (Decided(s, c).cpus[c] == Picked(th) <==>
                !s.threads[th].running && s.threads[th].deadline <= Reading(s.cpus[c]))
  {
  }

  lemma DecideSteps(r: Run, i: nat, c: nat)
    requires IsRun(r) && i < |r.steps| && r.steps[i] == Sched(c, Decide)
    ensures SwitchEnabled(r.states[i], c, Decide) && r.states[i + 1] == Decided(r.states[i], c)
  {
    assert Enabled(r.states[i], r.steps[i]);
  }

  /**
   * A thread that a scan looks at is picked if and only if it is not running and its deadline had
   * passed when this Switch read the clock.
   */
  lemma PickedExactlyWhenDue(r: Run, i: nat, c: nat)
    requires IsRun(r) && i < |r.steps| && r.steps[i] == Sched(c, Decide)
    ensures c < |r.states[i].cpus| && r.states[i].cpus[c].Checking?
    ensures exists m: nat :: DecidesBy(r, i, c, r.states[i].cpus[c].th, m)
  {
    DecideSteps(r, i, c);
    RunReads(r, i);
    DecideReads(r.states[i], c);
    RunReading(r, i, c);
    var th := r.states[i].cpus[c].th;
    DeadlineExactly(r, i, th);
    var m: nat :| ReadAt(r, i, c, m) && Reading(r.states[i].cpus[c]) == r.states[m].clock;
    assert DecidesBy(r, i, c, th, m);
  }

  /** So no thread is picked before its deadline, by the clock at that very moment. */
  lemma NeverEarly(r: Run, i: nat, c: nat, th: nat)
    requires IsRun(r) && i < |r.steps| && r.steps[i] == Sched(c, Decide)
    requires c < |r.states[i + 1].cpus| && r.states[i + 1].cpus[c] == Picked(th)
    ensures th < |r.states[i].threads| && r.states[i].threads[th].deadline <= r.states[i].clock
  {
    DecideSteps(r, i, c);
    RunReads(r, i);
    DecideReads(r.states[i], c);
  }

  /** th waits, off every CPU, for a deadline that has not come. */
  predicate Asleep(s: State, th: nat, d: nat) {
    th < |s.threads| && !s.threads[th].running && s.threads[th].deadline == d
  }

  lemma StaysAsleep(s: State, a: Step, th: nat, d: nat)
    requires Inv(s) && Enabled(s, a) && Asleep(s, th, d) && ReadingsPast(s)
    requires s.clock < d && a != Call(ClearTimeout(th))
    ensures Asleep(Apply(s, a), th, d)
  {
    OffEveryCpu(s, th);
    RunningRises(s, a, th);
    assert th < |Apply(s, a).threads|;
    StepDeadline(s, a, th);
  }

  /** A thread that is not running is executed on no CPU. */
  lemma OffEveryCpu(s: State, th: nat)
    requires Inv(s) && th < |s.threads| && !s.threads[th].running
    ensures forall c | 0 <= c < |s.cpus| :: !Executes(s.cpus[c], th)
  {
    assert CountOk(s, Empty, th);
    forall c | 0 <= c < |s.cpus| ensures !Executes(s.cpus[c], th) {
      if Executes(s.cpus[c], th) { ExecutesSome(s.cpus, th, c); }
    }
  }

  /** Only Decide sets `running`. */
  lemma RunningRises(s: State, a: Step, th: nat)
    requires Enabled(s, a) && th < |s.threads|
    ensures th < |Apply(s, a).threads|
    ensures Apply(s, a).threads[th].running && !s.threads[th].running ==>
      a.Sched? && a.sched.Decide? && s.cpus[a.c].th == th && s.threads[th].deadline <= Reading(s.cpus[a.c])
  {
    if !a.Call? { SameTable(s, a); }
    match a
    case Call(b) => CallRunning(s, b, th);
    case Exec(c, b) => ExecDeadline(s, c, b, th);
    case Sched(c, b) => SwitchRunning(s, c, b, th);
    case Collect(b) => GcRunning(s, b, th);
    case Tick =>
  }

  lemma CallRunning(s: State, a: ClientStep, th: nat)
    requires ClientEnabled(s, a) && th < |s.threads|
    ensures th < |ApplyClient(s, a).threads| && ApplyClient(s, a).threads[th].running == s.threads[th].running
  {
  }

  lemma GcRunning(s: State, a: GcStep, th: nat)
    requires GcEnabled(s, a) && th < |s.threads| == |ApplyGc(s, a).threads|
    ensures ApplyGc(s, a).threads[th].running == s.threads[th].running
  {
  }

  lemma SwitchRunning(s: State, c: nat, a: SwitchStep, th: nat)
    requires SwitchEnabled(s, c, a) && th < |s.threads|
    ensures th < |ApplySwitch(s, c, a).threads|
    ensures ApplySwitch(s, c, a).threads[th].running && !s.threads[th].running ==>
      a.Decide? && s.cpus[c].th == th && s.threads[th].deadline <= Reading(s.cpus[c])
  {
  }

  predicate AsleepAt(r: Run, th: nat, d: nat, k: nat)
    requires k < |r.steps| < |r.states|
  {
    && r.states[k].clock <= r.states[k + 1].clock
    && (Asleep(r.states[k], th, d) && r.states[k].clock < d && r.steps[k] != Call(ClearTimeout(th)) ==>
          Asleep(r.states[k + 1], th, d))
  }

  lemma EachAsleep(r: Run, th: nat, d: nat)
    requires IsRun(r)
    ensures forall k | 0 <= k < |r.steps| :: AsleepAt(r, th, d, k)
  {
    forall k | 0 <= k < |r.steps| ensures AsleepAt(r, th, d, k) {
      var s, a := r.states[k], r.steps[k];
      StepClock(s, a);
      RunInv(r, k);
      RunReads(r, k);
      if Asleep(s, th, d) && s.clock < d && a != Call(ClearTimeout(th)) { StaysAsleep(s, a, th, d); }
    }
  }

  lemma {:induction false} AsleepUntil(r: Run, k: nat, j: nat, th: nat, d: nat)
    requires k <= j <= |r.steps| < |r.states| && Asleep(r.states[k], th, d) && r.states[j].clock < d
    requires forall m | 0 <= m < |r.steps| :: AsleepAt(r, th, d, m)
    requires forall m | k <= m < j :: r.steps[m] != Call(ClearTimeout(th))
    ensures Asleep(r.states[j], th, d)
  {
    if k < j {
      assert AsleepAt(r, th, d, j - 1);
      AsleepUntil(r, k, j - 1, th, d);
    }
  }

  /** Without further calls the deadline is what it was. */
  lemma {:induction false} DeadlineStands(r: Run, i: nat, k: nat, th: nat)
    requires i <= k <= |r.steps| < |r.states|
    requires forall m | i <= m < k :: r.steps[m] != Call(ClearTimeout(th)) && !Sets(r.states[m], r.steps[m], th)
    ensures Deadline(r, th, k) == Deadline(r, th, i)
  {
    if i < k { DeadlineStands(r, i, k - 1, th); }
  }

  /** The step is the section of a Switch that takes th off its CPU. */
  predicate Resigns(s: State, a: Step, th: nat) {
    a.Sched? && a.sched.Seize? && a.c < |s.cpus| && s.cpus[a.c].Waiting? && s.cpus[a.c].cur == Some(th)
  }

  lemma ResignedAsleep(s: State, a: Step, th: nat)
    requires Enabled(s, a) && Resigns(s, a, th)
    ensures th < |Apply(s, a).threads| && !Apply(s, a).threads[th].running
  {
  }

  lemma AsleepAfter(r: Run, k: nat, th: nat)
    requires IsRun(r) && k < |r.steps| && Resigns(r.states[k], r.steps[k], th)
    ensures Asleep(r.states[k + 1], th, Deadline(r, th, k + 1))
  {
    ResignedAsleep(r.states[k], r.steps[k], th);
    DeadlineExactly(r, k + 1, th);
  }

  lemma OffUntil(r: Run, k: nat, j: nat, th: nat, d: nat)
    requires IsRun(r) && k <= j < |r.states| && Asleep(r.states[k], th, d) && r.states[j].clock < d
    requires forall m | k <= m < j :: r.steps[m] != Call(ClearTimeout(th))
    ensures forall e | 0 <= e < |r.states[j].cpus| :: !Executes(r.states[j].cpus[e], th)
  {
    EachAsleep(r, th, d);
    AsleepUntil(r, k, j, th, d);
    RunInv(r, j);
    OffEveryCpu(r.states[j], th);
  }

  /** The deadline that th leaves with when it has set d and nobody has cleared it. */
  lemma DeadlineSet(r: Run, i: nat, k: nat, th: nat)
    requires i < k <= |r.steps| < |r.states| && Sets(r.states[i], r.steps[i], th)
    requires forall m | i < m < k :: r.steps[m] != Call(ClearTimeout(th)) && !Sets(r.states[m], r.steps[m], th)
    ensures Deadline(r, th, k) == r.steps[i].exec.deadline
  {
    DeadlineStands(r, i + 1, k, th);
  }

  /**
   * A timeout is kept.  Let th set its timeout in step i and give its CPU away in step k, having set
   * no other in between.  Until the clock reaches the deadline no CPU executes it, unless somebody
   * clears the timeout.
   */
  lemma TimeoutKept(r: Run, i: nat, k: nat, j: nat, th: nat)
    requires IsRun(r) && i < k < j < |r.states|
    requires Sets(r.states[i], r.steps[i], th) && Resigns(r.states[k], r.steps[k], th)
    requires forall m | i < m < k :: !Sets(r.states[m], r.steps[m], th)
    requires forall m | i < m < j :: r.steps[m] != Call(ClearTimeout(th))
    requires r.states[j].clock < r.steps[i].exec.deadline
    ensures forall c | 0 <= c < |r.states[j].cpus| :: !Executes(r.states[j].cpus[c], th)
  {
    AsleepAfter(r, k, th);
    DeadlineSet(r, i, k + 1, th);
    OffUntil(r, k + 1, j, th, r.steps[i].exec.deadline);
  }
}
