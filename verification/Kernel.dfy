/**
 * The task and thread life cycle, the round-robin scheduler and the garbage
 * collector as one transition system.
 *
 * A step is one lock-protected section of the code (or one access to an atomic
 * field).  The number of tasks, threads and CPUs is unbounded; identifiers are
 * indices and are never reused, so a deleted object stays in its table with its
 * `freed` mark (tasks) or `Freed` fate (threads).  No guard below mentions those
 * marks: that no step touches a deleted object is a theorem.
 */
module Kernel {
  import opened Common
  import opened TaskCounters
  import opened ThreadCounters

  datatype Obj = ATask(task: nat) | AThread(thread: nat)

  /** `direct` counts the task references held by callers, `creatorHold` is the initial hold. */
  datatype TaskRec = TaskRec(counts: TaskCounts, listed: bool, direct: nat, creatorHold: bool, freed: bool)

  /**
   * What a thread still has to do before it gives its CPU away: nothing special,
   * kill itself after a refused hold, kill its task, drop its hold, or only yield.
   */
  datatype Flow = Normal | KillingSelf | KillingTask(status: int) | Unholding | Yielding

  /** Active, in the collector's hands, done with its task, or deleted. */
  datatype Fate = Active | Thrown | Detached | Freed

  /**
   * `clients` counts references held by callers (the creator included), `depth` the
   * live hold scopes, `enqueued` says the run-list entry was created, `listed` that
   * the thread is in its task's list.
   */
  datatype ThreadRec = ThreadRec(
    task: nat, counts: ThreadCounts, inTask: bool, inScheduler: bool, holdingTask: bool,
    deadline: nat, running: bool, listed: bool, enqueued: bool,
    clients: nat, depth: nat, flow: Flow, fate: Fate)

  /** Where a CPU is between two sections of Switch. */
  datatype Cpu =
    | Idle
    | Running(th: nat)
    | Waiting(cur: Option<nat>, now: nat)
    | Resigned(th: nat, now: nat)
    | Scanning(i: nat, now: nat)
    | Checking(i: nat, th: nat, now: nat)
    | Skipping(i: nat, th: nat, now: nat)
    | Picked(th: nat)

  datatype Stage = Unlink | Unlist | ReleaseTask | Delete

  datatype Within = Alone | Inside(t: nat, todo: set<nat>)

  /** Where the collector is inside Dealloc. */
  datatype Gc =
    | GcIdle
    | GcThread(th: nat, stage: Stage, within: Within)
    | GcTask(t: nat, todo: set<nat>)
    | GcTaskDelete(t: nat)

  datatype State = State(
    tasks: seq<TaskRec>, threads: seq<ThreadRec>, cpus: seq<Cpu>,
    list: seq<nat>, holder: Option<nat>,
    taken: seq<Obj>, queue: seq<Obj>, gc: Gc, clock: nat)

  // ---- primitive effects -------------------------------------------------

  function SetTask(s: State, t: nat, k: TaskRec): State
    requires t < |s.tasks|
  {
    s.(tasks := s.tasks[t := k])
  }

  function SetThread(s: State, th: nat, r: ThreadRec): State
    requires th < |s.threads|
  {
    s.(threads := s.threads[th := r])
  }

  function SetCpu(s: State, c: nat, v: Cpu): State
    requires c < |s.cpus|
  {
    s.(cpus := s.cpus[c := v])
  }

  /** GarbageObject::ThrowAway. */
  function ThrowAway(s: State, o: Obj): State {
    s.(queue := s.queue + [o])
  }

  function SetCounts(s: State, t: nat, k: TaskCounts): State
    requires t < |s.tasks|
  {
    SetTask(s, t, s.tasks[t].(counts := k))
  }

  function TaskRelease(s: State, t: nat): State
    requires t < |s.tasks|
  {
    var k := Released(s.tasks[t].counts);
    var s1 := SetCounts(s, t, k);
    if Spent(k) then ThrowAway(s1, ATask(t)) else s1
  }

  function TaskUnhold(s: State, t: nat): State
    requires t < |s.tasks|
  {
    var k := Unheld(s.tasks[t].counts);
    var s1 := SetCounts(s, t, k);
    if Spent(k) then ThrowAway(s1, ATask(t)) else s1
  }

  predicate ThreadInRange(s: State, th: nat) {
    th < |s.threads| && s.threads[th].task < |s.tasks|
  }

  predicate ThreadRetainable(s: State, th: nat)
    requires ThreadInRange(s, th)
  {
    !s.threads[th].counts.killed && !Dead(s.tasks[s.threads[th].task].counts)
  }

  /** Thread::Retain, successful branch: the task's count rises with the thread's. */
  function ThreadRetain(s: State, th: nat): State
    requires ThreadInRange(s, th)
  {
    var r := s.threads[th];
    SetThread(SetCounts(s, r.task, Retained(s.tasks[r.task].counts)), th, r.(counts := ThreadRetained(r.counts)))
  }

  /** Thread::Release: the last reference of a killed thread keeps its task's reference. */
  function ThreadRelease(s: State, th: nat): State
    requires ThreadInRange(s, th)
  {
    var r := s.threads[th];
    var n := ThreadReleased(r.counts);
    if LastOfKilled(n) then
      ThrowAway(SetThread(s, th, r.(counts := n, fate := Thrown)), AThread(th))
    else
      TaskRelease(SetThread(s, th, r.(counts := n)), r.task)
  }

  // ---- steps -------------------------------------------------------------

  /** Calls any code may make on tasks and threads it can reach. */
  datatype ClientStep =
    | NewTask | ListTask(t: nat) | FindTask(t: nat) | DropTask(t: nat) | CreatorUnhold(t: nat)
    | KillTask(t: nat, reason: int)
    | NewThread(t: nat) | AddToTask(th: nat) | Enqueue(th: nat) | MarkScheduled(th: nat)
    | FindThread(th: nat) | DropThread(th: nat) | ClearTimeout(th: nat)

  /** What the thread running on a CPU does to itself and its task. */
  datatype ExecStep =
    | EnterScope | LeaveScope | ExitThread | ExitTask(status: int)
    | ExitKillTask | ExitUnhold | KillSelf | ExitCurrent | SetTimeout(deadline: nat)

  /** The sections of Switch on one CPU. */
  datatype SwitchStep =
    | ReadClock | Seize | ReleaseResigned | TryRetain | Decide | Skip | EndScan | SetCurrent

  /** The collector's loop and the Dealloc methods it calls. */
  datatype GcStep =
    | GcShift | GcUnlink | GcUnlist | GcReleaseTask | GcDelete | GcPick(th: nat)
    | GcUnlistTask | GcDeleteTask

  datatype Step =
    | Call(call: ClientStep)
    | Exec(c: nat, exec: ExecStep)
    | Sched(c: nat, sched: SwitchStep)
    | Collect(collect: GcStep)
    | Tick

  /** The caller owns something that makes a call on task t legal. */
  predicate TaskReachable(s: State, t: nat)
    requires t < |s.tasks|
  {
    var k := s.tasks[t];
    k.listed || k.direct > 0 || k.counts.holdCount > 0
  }

  /** A caller can name thread th: it holds it, it is the thread, or it finds it in the list of a task it keeps. */
  predicate ThreadReachable(s: State, th: nat)
    requires ThreadInRange(s, th)
  {
    var r := s.threads[th];
    var k := s.tasks[r.task];
    r.clients > 0 || r.running || (r.listed && (k.direct > 0 || k.counts.holdCount > 0))
  }

  /**
   * A caller may write thread th's run-list entry: it holds the thread (a waker after Find, a lock's
   * releaser), it is the thread, or nobody has killed the thread or its task (the collector's own).
   */
  predicate EntryReachable(s: State, th: nat)
    requires ThreadInRange(s, th)
  {
    var r := s.threads[th];
    r.enqueued && (r.clients > 0 || r.running || (!r.counts.killed && !Killed(s.tasks[r.task].counts)))
  }

  predicate RunsThread(s: State, c: nat) {
    c < |s.cpus| && s.cpus[c].Running? && ThreadInRange(s, s.cpus[c].th)
  }

  /** Code in a critical exit sequence is not preempted. */
  predicate Preemptible(f: Flow) {
    f.Normal? || f.KillingSelf? || f.Yielding?
  }

  predicate ClientEnabled(s: State, a: ClientStep) {
    match a
    case NewTask => true
    case ListTask(t) => t < |s.tasks| && s.tasks[t].creatorHold && !s.tasks[t].listed
    case FindTask(t) => t < |s.tasks| && TaskReachable(s, t)
    case DropTask(t) => t < |s.tasks| && s.tasks[t].direct > 0
    case CreatorUnhold(t) => t < |s.tasks| && s.tasks[t].creatorHold
    case KillTask(t, _) => t < |s.tasks| && (s.tasks[t].counts.retainCount > 0 || s.tasks[t].counts.holdCount > 0)
    case NewThread(t) => t < |s.tasks| && s.tasks[t].direct > 0
    case AddToTask(th) =>
      ThreadInRange(s, th) && !s.threads[th].inTask && s.tasks[s.threads[th].task].listed
    case Enqueue(th) =>
      ThreadInRange(s, th) && s.threads[th].inTask && !s.threads[th].enqueued && s.holder.None?
    case MarkScheduled(th) => ThreadInRange(s, th) && s.threads[th].enqueued && !s.threads[th].inScheduler
    case FindThread(th) => ThreadInRange(s, th) && ThreadReachable(s, th)
    case DropThread(th) =>
      ThreadInRange(s, th) && s.threads[th].clients > (if s.threads[th].inScheduler then 0 else 1)
    case ClearTimeout(th) => ThreadInRange(s, th) && EntryReachable(s, th)
  }

  predicate ExecEnabled(s: State, c: nat, a: ExecStep) {
    RunsThread(s, c) &&
    var r := s.threads[s.cpus[c].th];
    match a
    case EnterScope => r.flow.Normal?
    case LeaveScope => r.flow.Normal? && r.depth > 0
    case ExitThread => r.flow.Normal? && r.depth > 0
    case ExitTask(_) => r.flow.Normal? && r.depth > 0
    case ExitKillTask => r.flow.KillingTask?
    case ExitUnhold => r.flow.Unholding?
    case KillSelf => r.flow.KillingSelf?
    case ExitCurrent => r.flow.Normal? && r.depth == 0
    case SetTimeout(_) => r.flow.Normal?
  }

  predicate SwitchEnabled(s: State, c: nat, a: SwitchStep) {
    c < |s.cpus| &&
    var v := s.cpus[c];
    match a
    case ReadClock => v.Idle? || (RunsThread(s, c) && Preemptible(s.threads[v.th].flow))
    case Seize => v.Waiting? && s.holder.None? && (v.cur.Some? ==> ThreadInRange(s, v.cur.value))
    case ReleaseResigned => v.Resigned? && ThreadInRange(s, v.th)
    case TryRetain => v.Scanning? && v.i < |s.list| && ThreadInRange(s, s.list[v.i])
    case Decide => v.Checking? && ThreadInRange(s, v.th)
    case Skip => v.Skipping? && ThreadInRange(s, v.th)
    case EndScan => v.Scanning? && v.i == |s.list|
    case SetCurrent => v.Picked?
  }

  predicate GcEnabled(s: State, a: GcStep) {
    match a
    case GcShift => s.gc.GcIdle? && s.queue != []
    case GcUnlink =>
      s.gc.GcThread? && s.gc.stage.Unlink? && ThreadInRange(s, s.gc.th)
      && (s.threads[s.gc.th].inScheduler ==> s.holder.None?)
    case GcUnlist => s.gc.GcThread? && s.gc.stage.Unlist? && ThreadInRange(s, s.gc.th)
    case GcReleaseTask => s.gc.GcThread? && s.gc.stage.ReleaseTask? && ThreadInRange(s, s.gc.th)
    case GcDelete => s.gc.GcThread? && s.gc.stage.Delete? && ThreadInRange(s, s.gc.th)
    case GcPick(th) => s.gc.GcTask? && th in s.gc.todo
    case GcUnlistTask => s.gc.GcTask? && s.gc.todo == {} && s.gc.t < |s.tasks|
    case GcDeleteTask => s.gc.GcTaskDelete? && s.gc.t < |s.tasks|
  }

  predicate Enabled(s: State, a: Step) {
    match a
    case Call(b) => ClientEnabled(s, b)
    case Exec(c, b) => ExecEnabled(s, c, b)
    case Sched(c, b) => SwitchEnabled(s, c, b)
    case Collect(b) => GcEnabled(s, b)
    case Tick => true
  }

  const FreshTask := TaskRec(TaskCounts(0, 1, -1), false, 0, true, false)

  function FreshThread(t: nat): ThreadRec {
    ThreadRec(t, ThreadCounts(1, false), false, false, false, 0, false, false, false, 1, 0, Normal, Active)
  }

  /** The snapshot of the thread list that Task::Dealloc walks. */
  function ListedThreads(s: State, t: nat): set<nat> {
    set th: nat | th < |s.threads| && s.threads[th].task == t && s.threads[th].listed
  }

  function Seized(s: State, c: nat): State
    requires SwitchEnabled(s, c, Seize)
  {
    var v := s.cpus[c];
    var s1 := s.(holder := Some(c));
    match v.cur
    case None => SetCpu(s1, c, Scanning(0, v.now))
    case Some(th) =>
      SetCpu(SetThread(s1.(list := Without(s.list, th) + [th]), th, s.threads[th].(running := false)),
             c, Resigned(th, v.now))
  }

  function Tried(s: State, c: nat): State
    requires SwitchEnabled(s, c, TryRetain)
  {
    var v := s.cpus[c];
    var th := s.list[v.i];
    if ThreadRetainable(s, th) then SetCpu(ThreadRetain(s, th), c, Checking(v.i, th, v.now))
    else SetCpu(s, c, Scanning(v.i + 1, v.now))
  }

  function Decided(s: State, c: nat): State
    requires SwitchEnabled(s, c, Decide)
  {
    var v := s.cpus[c];
    var r := s.threads[v.th];
    if r.deadline > v.now || r.running then SetCpu(s, c, Skipping(v.i, v.th, v.now))
    else SetCpu(SetThread(s, v.th, r.(running := true)).(holder := None), c, Picked(v.th))
  }

  function Shifted(s: State): State
    requires GcEnabled(s, GcShift)
  {
    var s1 := s.(taken := s.taken + [s.queue[0]], queue := s.queue[1..]);
    match s.queue[0]
    case AThread(th) => s1.(gc := GcThread(th, Unlink, Alone))
    case ATask(t) => s1.(gc := GcTask(t, ListedThreads(s, t)))
  }

  function AfterDelete(w: Within): Gc {
    match w
    case Alone => GcIdle
    case Inside(t, todo) => GcTask(t, todo)
  }

  function ApplyClient(s: State, a: ClientStep): State
    requires ClientEnabled(s, a)
  {
    match a
    case NewTask => s.(tasks := s.tasks + [FreshTask])
    case ListTask(t) => SetTask(s, t, s.tasks[t].(listed := true))
    case FindTask(t) =>
      var k := s.tasks[t];
      if Dead(k.counts) then s else SetTask(s, t, k.(counts := Retained(k.counts), direct := k.direct + 1))
    case DropTask(t) => TaskRelease(SetTask(s, t, s.tasks[t].(direct := s.tasks[t].direct - 1)), t)
    case CreatorUnhold(t) => TaskUnhold(SetTask(s, t, s.tasks[t].(creatorHold := false)), t)
    case KillTask(t, reason) => SetCounts(s, t, KilledFor(s.tasks[t].counts, reason))
    case NewThread(t) =>
      SetTask(s, t, s.tasks[t].(direct := s.tasks[t].direct - 1)).(threads := s.threads + [FreshThread(t)])
    case AddToTask(th) => SetThread(s, th, s.threads[th].(inTask := true, listed := true))
    case Enqueue(th) => SetThread(s, th, s.threads[th].(enqueued := true)).(list := s.list + [th])
    case MarkScheduled(th) => SetThread(s, th, s.threads[th].(inScheduler := true))
    case FindThread(th) =>
      if ThreadRetainable(s, th) then AddClient(ThreadRetain(s, th), th) else s
    case DropThread(th) => ThreadRelease(SetThread(s, th, s.threads[th].(clients := s.threads[th].clients - 1)), th)
    case ClearTimeout(th) => SetThread(s, th, s.threads[th].(deadline := 0))
  }

  function AddClient(s: State, th: nat): State
    requires th < |s.threads|
  {
    SetThread(s, th, s.threads[th].(clients := s.threads[th].clients + 1))
  }

  function Entered(s: State, th: nat): State
    requires ThreadInRange(s, th)
  {
    var r := s.threads[th];
    var k := s.tasks[r.task].counts;
    if r.holdingTask then SetThread(s, th, r.(depth := r.depth + 1))
    else if Killed(k) then SetThread(s, th, r.(flow := KillingSelf))
    else SetThread(SetCounts(s, r.task, Held(k)), th, r.(depth := 1, holdingTask := true))
  }

  function Left(s: State, th: nat): State
    requires ThreadInRange(s, th) && s.threads[th].depth > 0
  {
    var r := s.threads[th];
    if r.depth > 1 then SetThread(s, th, r.(depth := r.depth - 1))
    else TaskUnhold(SetThread(s, th, r.(depth := 0, holdingTask := false)), r.task)
  }

  function ApplyExec(s: State, c: nat, a: ExecStep): State
    requires ExecEnabled(s, c, a)
  {
    var th := s.cpus[c].th;
    var r := s.threads[th];
    match a
    case EnterScope => Entered(s, th)
    case LeaveScope => Left(s, th)
    case ExitThread => SetThread(s, th, r.(counts := ThreadKilled(r.counts), flow := Unholding))
    case ExitTask(status) => SetThread(s, th, r.(counts := ThreadKilled(r.counts), flow := KillingTask(status)))
    case ExitKillTask =>
      SetThread(SetCounts(s, r.task, KilledFor(s.tasks[r.task].counts, r.flow.status)), th, r.(flow := Unholding))
    case ExitUnhold => TaskUnhold(SetThread(s, th, r.(flow := Yielding)), r.task)
    case KillSelf => SetThread(s, th, r.(counts := ThreadKilled(r.counts), flow := Yielding))
    case ExitCurrent => SetThread(s, th, r.(counts := ThreadKilled(r.counts), flow := Yielding))
    case SetTimeout(d) => SetThread(s, th, r.(deadline := d))
  }

  function ApplySwitch(s: State, c: nat, a: SwitchStep): State
    requires SwitchEnabled(s, c, a)
  {
    var v := s.cpus[c];
    match a
    case ReadClock => SetCpu(s, c, Waiting(if v.Idle? then None else Some(v.th), s.clock))
    case Seize => Seized(s, c)
    case ReleaseResigned => ThreadRelease(SetCpu(s, c, Scanning(0, v.now)), v.th)
    case TryRetain => Tried(s, c)
    case Decide => Decided(s, c)
    case Skip => ThreadRelease(SetCpu(s, c, Scanning(v.i + 1, v.now)), v.th)
    case EndScan => SetCpu(s, c, Idle).(holder := None)
    case SetCurrent => SetCpu(s, c, Running(v.th))
  }

  function ApplyGc(s: State, a: GcStep): State
    requires GcEnabled(s, a)
  {
    match a
    case GcShift => Shifted(s)
    case GcUnlink =>
      var r := s.threads[s.gc.th];
      s.(list := if r.inScheduler then Without(s.list, s.gc.th) else s.list,
         gc := s.gc.(stage := if r.counts.killed then Unlist else Delete))
    case GcUnlist =>
      var r := s.threads[s.gc.th];
      SetThread(s, s.gc.th, r.(listed := r.listed && !r.inTask)).(gc := s.gc.(stage := ReleaseTask))
    case GcReleaseTask =>
      var r := s.threads[s.gc.th];
      TaskRelease(SetThread(s, s.gc.th, r.(fate := Detached)).(gc := s.gc.(stage := Delete)), r.task)
    case GcDelete =>
      SetThread(s, s.gc.th, s.threads[s.gc.th].(fate := Freed)).(gc := AfterDelete(s.gc.within))
    case GcPick(th) => s.(gc := GcThread(th, Unlink, Inside(s.gc.t, s.gc.todo - {th})))
    case GcUnlistTask => SetTask(s, s.gc.t, s.tasks[s.gc.t].(listed := false)).(gc := GcTaskDelete(s.gc.t))
    case GcDeleteTask => SetTask(s, s.gc.t, s.tasks[s.gc.t].(freed := true)).(gc := GcIdle)
  }

  function Apply(s: State, a: Step): State
    requires Enabled(s, a)
  {
    match a
    case Call(b) => ApplyClient(s, b)
    case Exec(c, b) => ApplyExec(s, c, b)
    case Sched(c, b) => ApplySwitch(s, c, b)
    case Collect(b) => ApplyGc(s, b)
    case Tick => s.(clock := s.clock + 1)
  }

  /** No tasks and threads yet, every CPU idle, nothing queued. */
  predicate Init(s: State) {
    && s.tasks == [] && s.threads == [] && s.list == [] && s.taken == [] && s.queue == []
    && s.holder.None? && s.gc.GcIdle? && (forall c | 0 <= c < |s.cpus| :: s.cpus[c].Idle?)
  }

  /** A run: states[i+1] follows from states[i] by steps[i]. */
  datatype Run = Run(states: seq<State>, steps: seq<Step>)

  predicate IsRun(r: Run) {
    && |r.states| == |r.steps| + 1
    && Init(r.states[0])
    && (forall i | 0 <= i < |r.steps| ::
        Enabled(r.states[i], r.steps[i]) && r.states[i + 1] == Apply(r.states[i], r.steps[i]))
  }
}
