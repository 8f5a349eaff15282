/** The references that callers hold, counted by their calls; and that nothing is left undone or stuck. */
module KernelLedger {
  import opened Common
  import opened TaskCounters
  import opened ThreadCounters
  import opened Kernel
  import opened KernelInvariant
  import opened KernelSteps
  import opened KernelTheorems
  import opened KernelTimeouts

  // ---- calls and references ----------------------------------------------

  /** References to thread th that callers have: the creator's, plus what Find gave, less what was released. */
  function Borrowed(r: Run, th: nat, j: nat): int
    requires j <= |r.steps| < |r.states|
    decreases j
  {
    if j == 0 then 0
    else
      var s := r.states[j - 1];
      match r.steps[j - 1]
      case Call(NewThread(_)) => if th == |s.threads| then 1 else Borrowed(r, th, j - 1)
      case Call(FindThread(u)) =>
        Borrowed(r, th, j - 1) + One(u == th && ThreadInRange(s, th) && ThreadRetainable(s, th))
      case Call(DropThread(u)) => Borrowed(r, th, j - 1) - One(u == th)
      case _ => Borrowed(r, th, j - 1)
  }

  /** References to task t that callers have: what Find gave, less what was released or passed on to a new thread. */
  function TaskBorrowed(r: Run, t: nat, j: nat): int
    requires j <= |r.steps| < |r.states|
    decreases j
  {
    if j == 0 then 0
    else
      var s := r.states[j - 1];
      match r.steps[j - 1]
      case Call(FindTask(u)) =>
        TaskBorrowed(r, t, j - 1) + One(u == t && t < |s.tasks| && !Dead(s.tasks[t].counts))
      case Call(DropTask(u)) => TaskBorrowed(r, t, j - 1) - One(u == t)
      case Call(NewThread(u)) => TaskBorrowed(r, t, j - 1) - One(u == t)
      case _ => TaskBorrowed(r, t, j - 1)
  }

  /** The hold that a task is created with has not been given back. */
  predicate CreatorHolds(r: Run, t: nat, j: nat)
    requires j <= |r.steps| < |r.states|
    decreases j
  {
    j > 0 && r.steps[j - 1] != Call(CreatorUnhold(t))
    && (CreatorHolds(r, t, j - 1) || (r.steps[j - 1] == Call(NewTask) && t == |r.states[j - 1].tasks|))
  }

  function ClientsOf(s: State, th: nat): int {
    if th < |s.threads| then s.threads[th].clients else 0
  }

  function DirectOf(s: State, t: nat): int {
    if t < |s.tasks| then s.tasks[t].direct else 0
  }

  predicate HoldOf(s: State, t: nat) {
    t < |s.tasks| && s.tasks[t].creatorHold
  }

  predicate SameLedger(s: State, s': State) {
    && |s'.tasks| == |s.tasks| && |s'.threads| == |s.threads|
    && (forall t | 0 <= t < |s.tasks| ::
        s'.tasks[t].direct == s.tasks[t].direct && s'.tasks[t].creatorHold == s.tasks[t].creatorHold)
    && (forall th | 0 <= th < |s.threads| :: s'.threads[th].clients == s.threads[th].clients)
  }

  lemma LeftLedger(s: State, u: nat)
    requires ThreadInRange(s, u) && s.threads[u].depth > 0
    ensures SameLedger(s, Left(s, u))
  {
  }

  lemma ExecLedger(s: State, c: nat, a: ExecStep)
    requires ExecEnabled(s, c, a)
    ensures SameLedger(s, ApplyExec(s, c, a))
  {
    if a.LeaveScope? { LeftLedger(s, s.cpus[c].th); }
  }

  lemma SwitchLedger(s: State, c: nat, a: SwitchStep)
    requires SwitchEnabled(s, c, a)
    ensures SameLedger(s, ApplySwitch(s, c, a))
  {
  }

  lemma GcLedger(s: State, a: GcStep)
    requires GcEnabled(s, a)
    ensures SameLedger(s, ApplyGc(s, a))
  {
  }

  lemma OtherLedger(s: State, a: Step)
    requires Enabled(s, a) && !a.Call?
    ensures SameLedger(s, Apply(s, a))
  {
    match a
    case Exec(c, b) => ExecLedger(s, c, b);
    case Sched(c, b) => SwitchLedger(s, c, b);
    case Collect(b) => GcLedger(s, b);
    case Tick =>
  }

  lemma CallClients(s: State, a: ClientStep, th: nat)
    requires ClientEnabled(s, a)
    ensures ClientsOf(ApplyClient(s, a), th)
         == if a.NewThread? && th == |s.threads| then 1
            else ClientsOf(s, th) + One(a == FindThread(th) && ThreadRetainable(s, th)) - One(a == DropThread(th))
  {
  }

  lemma CallDirect(s: State, a: ClientStep, t: nat)
    requires ClientEnabled(s, a)
    ensures DirectOf(ApplyClient(s, a), t)
         == DirectOf(s, t) + One(a == FindTask(t) && !Dead(s.tasks[t].counts))
            - One(a == DropTask(t)) - One(a == NewThread(t))
  {
  }

  lemma CallHold(s: State, a: ClientStep, t: nat)
    requires ClientEnabled(s, a)
    ensures HoldOf(ApplyClient(s, a), t)
      <==> a != CreatorUnhold(t) && (HoldOf(s, t) || (a.NewTask? && t == |s.tasks|))
  {
  }

  /** The references to a thread that the system counts as callers' are those their calls have left them with. */
  lemma {:induction false} BorrowedExactly(r: Run, j: nat, th: nat)
    requires IsRun(r) && j < |r.states|
    ensures ClientsOf(r.states[j], th) == Borrowed(r, th, j)
  {
    if j > 0 {
      BorrowedExactly(r, j - 1, th);
      var s, a := r.states[j - 1], r.steps[j - 1];
      assert Enabled(s, a) && r.states[j] == Apply(s, a);
      if a.Call? { CallClients(s, a.call, th); } else { OtherLedger(s, a); }
    }
  }

  /** The same for tasks. */
  lemma {:induction false} TaskBorrowedExactly(r: Run, j: nat, t: nat)
    requires IsRun(r) && j < |r.states|
    ensures DirectOf(r.states[j], t) == TaskBorrowed(r, t, j)
  {
    if j > 0 {
      TaskBorrowedExactly(r, j - 1, t);
      var s, a := r.states[j - 1], r.steps[j - 1];
      assert Enabled(s, a) && r.states[j] == Apply(s, a);
      if a.Call? { CallDirect(s, a.call, t); } else { OtherLedger(s, a); }
    }
  }

  /** The creator's hold lasts from the creation of the task to the creator's Unhold. */
  lemma {:induction false} CreatorHoldExactly(r: Run, j: nat, t: nat)
    requires IsRun(r) && j < |r.states|
    ensures HoldOf(r.states[j], t) <==> CreatorHolds(r, t, j)
  {
    if j > 0 {
      CreatorHoldExactly(r, j - 1, t);
      var s, a := r.states[j - 1], r.steps[j - 1];
      assert Enabled(s, a) && r.states[j] == Apply(s, a);
      if a.Call? { CallHold(s, a.call, t); } else { OtherLedger(s, a); }
    }
  }

  // ---- calls and lists ---------------------------------------------------

  predicate CalledAt(r: Run, i: nat, a: ClientStep) {
    i < |r.steps| && r.steps[i] == Call(a)
  }

  predicate Called(r: Run, j: nat, a: ClientStep) {
    exists i | 0 <= i < j :: CalledAt(r, i, a)
  }

  lemma CalledNext(r: Run, j: nat, a: ClientStep)
    ensures Called(r, j + 1, a) <==> Called(r, j, a) || CalledAt(r, j, a)
  {
  }

  predicate InTask(s: State, th: nat) {
    th < |s.threads| && s.threads[th].inTask
  }

  predicate InScheduler(s: State, th: nat) {
    th < |s.threads| && s.threads[th].inScheduler
  }

  lemma CallMarks(s: State, a: ClientStep, th: nat)
    requires ClientEnabled(s, a)
    ensures InTask(ApplyClient(s, a), th) <==> InTask(s, th) || a == AddToTask(th)
    ensures Scheduled(ApplyClient(s, a), th) <==> Scheduled(s, th) || a == Enqueue(th)
    ensures InScheduler(ApplyClient(s, a), th) <==> InScheduler(s, th) || a == MarkScheduled(th)
  {
  }

  predicate SameMarks(s: State, s': State, th: nat) {
    && (InTask(s', th) <==> InTask(s, th)) && (Scheduled(s', th) <==> Scheduled(s, th))
    && (InScheduler(s', th) <==> InScheduler(s, th))
  }

  lemma LeftMarks(s: State, u: nat, th: nat)
    requires ThreadInRange(s, u) && s.threads[u].depth > 0
    ensures SameMarks(s, Left(s, u), th)
  {
  }

  lemma ExecMarks(s: State, c: nat, a: ExecStep, th: nat)
    requires ExecEnabled(s, c, a)
    ensures SameMarks(s, ApplyExec(s, c, a), th)
  {
    if a.LeaveScope? { LeftMarks(s, s.cpus[c].th, th); }
  }

  lemma ReleaseMarks(s: State, u: nat, th: nat)
    requires ThreadInRange(s, u)
    ensures SameMarks(s, ThreadRelease(s, u), th)
  {
  }

  lemma SwitchMarks(s: State, c: nat, a: SwitchStep, th: nat)
    requires SwitchEnabled(s, c, a)
    ensures SameMarks(s, ApplySwitch(s, c, a), th)
  {
    var v := s.cpus[c];
    if a.ReleaseResigned? || a.Skip? {
      ReleaseMarks(SetCpu(s, c, Scanning(if a.Skip? then v.i + 1 else 0, v.now)), v.th, th);
    }
  }

  lemma OtherMarks(s: State, a: Step, th: nat)
    requires Enabled(s, a) && !a.Call?
    ensures SameMarks(s, Apply(s, a), th)
  {
    match a
    case Exec(c, b) => ExecMarks(s, c, b, th);
    case Sched(c, b) => SwitchMarks(s, c, b, th);
    case Collect(b) => assert SameMarks(s, ApplyGc(s, b), th);
    case Tick =>
  }

  /** A thread is in its task, in the run list and marked as scheduled exactly when it has been put there by a call. */
  lemma {:induction false} MarksExactly(r: Run, j: nat, th: nat)
    requires IsRun(r) && j < |r.states|
    ensures InTask(r.states[j], th) <==> Called(r, j, AddToTask(th))
    ensures Scheduled(r.states[j], th) <==> Called(r, j, Enqueue(th))
    ensures InScheduler(r.states[j], th) <==> Called(r, j, MarkScheduled(th))
  {
    if j > 0 {
      MarksExactly(r, j - 1, th);
      var s, a := r.states[j - 1], r.steps[j - 1];
      assert Enabled(s, a) && r.states[j] == Apply(s, a);
      if a.Call? { CallMarks(s, a.call, th); } else { OtherMarks(s, a, th); }
      CalledNext(r, j - 1, AddToTask(th));
      CalledNext(r, j - 1, Enqueue(th));
      CalledNext(r, j - 1, MarkScheduled(th));
    }
  }

  predicate Listed(s: State, t: nat) {
    t < |s.tasks| && s.tasks[t].listed
  }

  /** The collector has taken task t off the task list. */
  predicate Unlisted(s: State, t: nat) {
    t < |s.tasks| && (s.tasks[t].freed || s.gc == GcTaskDelete(t))
  }

  lemma StepListed(s: State, a: Step, t: nat)
    requires Inv(s) && Enabled(s, a)
    requires Unlisted(s, t) ==> !Listed(s, t)
    ensures Listed(Apply(s, a), t) <==> (Listed(s, t) || a == Call(ListTask(t))) && !Unlisted(Apply(s, a), t)
    ensures Unlisted(s, t) ==> Unlisted(Apply(s, a), t) && a != Call(ListTask(t))
  {
    match a
    case Call(b) => CallListed(s, b, t); CallUnlisted(s, b, t); if b == ListTask(t) { NotListedAgain(s, b, t); }
    case Exec(c, b) => ExecListed(s, c, b, t);
    case Sched(c, b) => SwitchListed(s, c, b, t);
    case Collect(b) => GcListed(s, b, t);
    case Tick =>
  }

  lemma CallListed(s: State, a: ClientStep, t: nat)
    requires ClientEnabled(s, a)
    ensures Listed(ApplyClient(s, a), t) <==> Listed(s, t) || a == ListTask(t)
  {
  }

  lemma CallUnlisted(s: State, a: ClientStep, t: nat)
    requires ClientEnabled(s, a) && (s.gc.GcTaskDelete? ==> s.gc.t < |s.tasks|)
    ensures Unlisted(ApplyClient(s, a), t) <==> Unlisted(s, t)
  {
  }

  lemma NotListedAgain(s: State, a: ClientStep, t: nat)
    requires Inv(s) && ClientEnabled(s, a) && a == ListTask(t)
    ensures !Unlisted(s, t)
  {
    assert SumOk(s, Empty, t) && TaskOk(s, t);
    SumsBound(s.threads, t);
  }

  lemma ExecListed(s: State, c: nat, a: ExecStep, t: nat)
    requires ExecEnabled(s, c, a)
    ensures Listed(ApplyExec(s, c, a), t) <==> Listed(s, t)
    ensures Unlisted(ApplyExec(s, c, a), t) <==> Unlisted(s, t)
  {
  }

  lemma SwitchListed(s: State, c: nat, a: SwitchStep, t: nat)
    requires SwitchEnabled(s, c, a)
    ensures Listed(ApplySwitch(s, c, a), t) <==> Listed(s, t)
    ensures Unlisted(ApplySwitch(s, c, a), t) <==> Unlisted(s, t)
  {
  }

  lemma GcListed(s: State, a: GcStep, t: nat)
    requires Inv(s) && GcEnabled(s, a) && (Unlisted(s, t) ==> !Listed(s, t))
    ensures Listed(ApplyGc(s, a), t) <==> Listed(s, t) && !Unlisted(ApplyGc(s, a), t)
    ensures Unlisted(s, t) ==> Unlisted(ApplyGc(s, a), t)
  {
  }

  /** A task is in the task list from the call that puts it there until the collector takes it off. */
  lemma {:induction false} TaskListedExactly(r: Run, j: nat, t: nat)
    requires IsRun(r) && j < |r.states|
    ensures Listed(r.states[j], t) <==> Called(r, j, ListTask(t)) && !Unlisted(r.states[j], t)
  {
    if j > 0 {
      TaskListedExactly(r, j - 1, t);
      RunInv(r, j - 1);
      var s, a := r.states[j - 1], r.steps[j - 1];
      assert Enabled(s, a) && r.states[j] == Apply(s, a);
      StepListed(s, a, t);
      CalledNext(r, j - 1, ListTask(t));
    }
  }

  // ---- the collector leaves nothing behind -------------------------------

  /**
   * When the collector is between two objects, everything it has taken is deleted.  A deleted task
   * has taken all its threads with it, and the run list has an entry for exactly the undeleted
   * threads that were added to it.
   */
  lemma CollectedIsDeleted(r: Run, i: nat)
    requires IsRun(r) && i < |r.states| && r.states[i].gc.GcIdle?
    ensures var s := r.states[i]; forall o | o in s.taken :: !Live(s, o)
    ensures var s := r.states[i];
            forall th | 0 <= th < |s.threads| :: th in s.list <==> s.threads[th].enqueued && Live(s, AThread(th))
    ensures var s := r.states[i];
            forall th | 0 <= th < |s.threads| ::
              !Live(s, ATask(s.threads[th].task)) ==> !Live(s, AThread(th))
  {
    RunInv(r, i);
    var s := r.states[i];
    forall o | o in s.taken ensures !Live(s, o) { TakenDeleted(s, o); }
    forall th: nat | th < |s.threads|
      ensures th in s.list <==> s.threads[th].enqueued && Live(s, AThread(th))
      ensures !Live(s, ATask(s.threads[th].task)) ==> !Live(s, AThread(th))
    {
      assert FateOk(s, th);
      assert Linked(s.gc, th, s.threads[th]) <==> s.threads[th].enqueued && Live(s, AThread(th));
    }
  }

  lemma TakenDeleted(s: State, o: Obj)
    requires Inv(s) && s.gc.GcIdle? && o in s.taken
    ensures !Live(s, o)
  {
    assert o in History(s) && ThrownOnce(s, o);
    TakenNotQueued(s, o);
    match o
    case ATask(t) => assert TaskOk(s, t);
    case AThread(th) => assert FateOk(s, th);
  }

  lemma TakenNotQueued(s: State, o: Obj)
    requires Inv(s) && o in s.taken
    ensures o !in s.queue
  {
    var i :| 0 <= i < |s.taken| && s.taken[i] == o;
    forall j | 0 <= j < |s.queue| ensures s.queue[j] != o {
      assert History(s)[i] == s.taken[i] && History(s)[|s.taken| + j] == s.queue[j];
    }
  }

  /** How much of the present Dealloc is left. */
  function Undone(gc: Gc): nat {
    match gc
    case GcIdle => 0
    case GcThread(_, stage, w) => StagesLeft(stage) + (if w.Inside? then 2 + 5 * |w.todo| else 0)
    case GcTask(_, todo) => 2 + 5 * |todo|
    case GcTaskDelete(_) => 1
  }

  function StagesLeft(stage: Stage): nat {
    match stage
    case Unlink => 4
    case Unlist => 3
    case ReleaseTask => 2
    case Delete => 1
  }

  lemma HasGcStep(s: State)
    requires Inv(s) && !s.gc.GcIdle? && s.holder.None?
    ensures exists b: GcStep :: !b.GcShift? && GcEnabled(s, b)
  {
    match s.gc
    case GcThread(th, Unlink, _) => assert GcEnabled(s, GcUnlink);
    case GcThread(th, Unlist, _) => assert GcEnabled(s, GcUnlist);
    case GcThread(th, ReleaseTask, _) => assert GcEnabled(s, GcReleaseTask);
    case GcThread(th, Delete, _) => assert GcEnabled(s, GcDelete);
    case GcTask(t, todo) =>
      if todo == {} {
        assert GcEnabled(s, GcUnlistTask);
      } else {
        var th :| th in todo;
        assert GcEnabled(s, GcPick(th));
      }
    case GcTaskDelete(t) => assert GcEnabled(s, GcDeleteTask);
  }

  /**
   * The collector is never stuck inside a Dealloc, except for waiting until a Switch in progress
   * has released the run list; and each of its sections brings the end of the Dealloc nearer.
   */
  lemma DeallocCompletes(r: Run, i: nat, a: GcStep)
    requires IsRun(r) && i < |r.states|
    ensures var s := r.states[i];
            !s.gc.GcIdle? && s.holder.None? ==> exists b: GcStep :: !b.GcShift? && GcEnabled(s, b)
    ensures var s := r.states[i]; GcEnabled(s, a) && !a.GcShift? ==> Undone(ApplyGc(s, a).gc) < Undone(s.gc)
  {
    RunInv(r, i);
    var s := r.states[i];
    if !s.gc.GcIdle? && s.holder.None? { HasGcStep(s); }
    if GcEnabled(s, a) && !a.GcShift? { GcAdvances(s, a); }
  }

  lemma GcAdvances(s: State, a: GcStep)
    requires GcEnabled(s, a) && !a.GcShift?
    ensures Undone(ApplyGc(s, a).gc) < Undone(s.gc)
  {
    if a.GcPick? { assert |s.gc.todo - {a.th}| == |s.gc.todo| - 1; }
  }

  // ---- Switch goes on ----------------------------------------------------

  /** How much of a Switch is left on this CPU, with n entries in the run list. */
  function SectionsLeft(v: Cpu, n: nat): nat {
    match v
    case Idle => 0
    case Running(_) => 0
    case Picked(_) => 1
    case Scanning(i, _) => if i <= n then 2 + 3 * (n - i) else 0
    case Skipping(i, _, _) => if i < n then 3 * (n - i) else 0
    case Checking(i, _, _) => if i < n then 1 + 3 * (n - i) else 0
    case Resigned(_, _) => 3 + 3 * n
    case Waiting(_, _) => 4 + 3 * n
  }

  /** A Switch in progress has a next section, or waits for the CPU that holds the run list. */
  lemma SwitchNeverStuck(r: Run, i: nat, c: nat)
    requires IsRun(r) && i < |r.states| && c < |r.states[i].cpus|
    requires var v := r.states[i].cpus[c]; !v.Idle? && !v.Running?
    ensures var s := r.states[i];
            (exists a: SwitchStep :: !a.ReadClock? && SwitchEnabled(s, c, a))
            || (s.cpus[c].Waiting? && s.holder.Some? && s.holder.value < |s.cpus| && s.holder.value != c
                && exists a: SwitchStep :: !a.ReadClock? && SwitchEnabled(s, s.holder.value, a))
  {
    RunInv(r, i);
    var s := r.states[i];
    HasNext(s, c);
    if s.cpus[c].Waiting? && s.holder.Some? {
      RunHolder(r, i);
      assert CpuOk(s, c) && CpuOk(s, s.holder.value);
      HasNext(s, s.holder.value);
    }
  }

  predicate HolderIsCpu(s: State) {
    s.holder.Some? ==> s.holder.value < |s.cpus|
  }

  lemma StepHolder(s: State, a: Step)
    requires Enabled(s, a) && HolderIsCpu(s)
    ensures HolderIsCpu(Apply(s, a))
  {
    match a
    case Sched(c, b) =>
    case _ => OthersRead(s, a); HolderStays(s, a);
  }

  lemma HolderStays(s: State, a: Step)
    requires Enabled(s, a) && !a.Sched?
    ensures Apply(s, a).holder == s.holder
  {
  }

  lemma {:induction false} RunHolder(r: Run, i: nat)
    requires IsRun(r) && i < |r.states|
    ensures HolderIsCpu(r.states[i])
  {
    if i > 0 {
      RunHolder(r, i - 1);
      StepHolder(r.states[i - 1], r.steps[i - 1]);
    }
  }

  lemma HasNext(s: State, c: nat)
    requires Inv(s) && c < |s.cpus| && !s.cpus[c].Idle? && !s.cpus[c].Running?
    ensures (s.cpus[c].Waiting? && s.holder.Some?) || exists a: SwitchStep :: !a.ReadClock? && SwitchEnabled(s, c, a)
  {
    assert CpuOk(s, c);
    match s.cpus[c]
    case Waiting(_, _) => assert s.holder.None? ==> SwitchEnabled(s, c, Seize);
    case Resigned(_, _) => assert SwitchEnabled(s, c, ReleaseResigned);
    case Scanning(i, _) =>
      if i < |s.list| {
        EntryAlive(s, s.list[i]);
        assert SwitchEnabled(s, c, TryRetain);
      } else {
        assert SwitchEnabled(s, c, EndScan);
      }
    case Checking(_, _, _) => assert SwitchEnabled(s, c, Decide);
    case Skipping(_, _, _) => assert SwitchEnabled(s, c, Skip);
    case Picked(_) => assert SwitchEnabled(s, c, SetCurrent);
  }

  /** Each section of a Switch after the clock reading brings its end nearer. */
  lemma SwitchAdvances(r: Run, i: nat, c: nat, a: SwitchStep)
    requires IsRun(r) && i < |r.states| && SwitchEnabled(r.states[i], c, a)
    ensures var s := r.states[i]; var s' := ApplySwitch(s, c, a);
            c < |s'.cpus| &&
            if a.ReadClock? then s'.cpus[c].Waiting?
            else SectionsLeft(s'.cpus[c], |s'.list|) < SectionsLeft(s.cpus[c], |s.list|)
  {
    RunInv(r, i);
    var s := r.states[i];
    assert CpuOk(s, c);
    if a.Seize? && s.cpus[c].cur.Some? {
      KeptListed(s, c, s.cpus[c].cur.value);
      WithoutLength(s.list, s.cpus[c].cur.value);
    }
  }

  lemma {:induction false} WithoutLength(l: seq<nat>, x: nat)
    requires x in l
    ensures |Without(l, x)| == |l| - 1
  {
    if l[0] != x { WithoutLength(l[1..], x); }
  }
}
