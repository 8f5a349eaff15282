/** What the invariant gives a reader: conservation, no use after deletion, single deletion. */
module KernelTheorems {
  import opened Common
  import opened TaskCounters
  import opened ThreadCounters
  import opened Kernel
  import opened KernelInvariant
  import opened KernelMoves
  import opened KernelSteps

  // ---- conservation, counted by sets -------------------------------------

  /** The threads of task t that are thrown away but not yet done with it. */
  function Discarded(rs: seq<ThreadRec>, t: nat): set<nat> {
    set th: nat | th < |rs| && rs[th].task == t && rs[th].fate.Thrown?
  }

  /** The threads of task t inside an outermost hold scope. */
  function Holders(rs: seq<ThreadRec>, t: nat): set<nat> {
    set th: nat | th < |rs| && rs[th].task == t && InScope(rs[th])
  }

  /** The CPUs that keep thread th retained. */
  function Keepers(cpus: seq<Cpu>, th: nat): set<nat> {
    set c: nat | c < |cpus| && Refers(cpus[c], th)
  }

  function ThreadRetains(rs: seq<ThreadRec>, t: nat): int {
    if rs == [] then 0
    else ThreadRetains(rs[..|rs| - 1], t) + (if rs[|rs| - 1].task == t then rs[|rs| - 1].counts.retainCount else 0)
  }

  lemma DiscardedSnoc(rs: seq<ThreadRec>, r: ThreadRec, t: nat)
    ensures |Discarded(rs + [r], t)| == |Discarded(rs, t)| + One(r.task == t && r.fate.Thrown?)
  {
    assert Discarded(rs + [r], t) == Discarded(rs, t) + (if r.task == t && r.fate.Thrown? then {|rs|} else {});
  }

  lemma HoldersSnoc(rs: seq<ThreadRec>, r: ThreadRec, t: nat)
    ensures |Holders(rs + [r], t)| == |Holders(rs, t)| + One(r.task == t && InScope(r))
  {
    assert Holders(rs + [r], t) == Holders(rs, t) + (if r.task == t && InScope(r) then {|rs|} else {});
  }

  lemma {:induction false} SumsCounted(rs: seq<ThreadRec>, t: nat)
    ensures RetainSum(rs, t) == ThreadRetains(rs, t) + |Discarded(rs, t)|
    ensures HoldSum(rs, t) == |Holders(rs, t)|
  {
    if rs == [] {
      assert Discarded(rs, t) == {} && Holders(rs, t) == {};
    } else {
      var init, r := rs[..|rs| - 1], rs[|rs| - 1];
      SumsCounted(init, t);
      SumsSnoc(init, r);
      DiscardedSnoc(init, r, t);
      HoldersSnoc(init, r, t);
      assert rs == init + [r];
    }
  }

  lemma {:induction false} ReferencesSnoc(cpus: seq<Cpu>, v: Cpu, th: nat)
    ensures References(cpus + [v], th) == References(cpus, th) + One(Refers(v, th))
  {
    if cpus != [] {
      ReferencesSnoc(cpus[1..], v, th);
      assert (cpus + [v])[1..] == cpus[1..] + [v];
    }
  }

  lemma KeepersSnoc(cpus: seq<Cpu>, v: Cpu, th: nat)
    ensures |Keepers(cpus + [v], th)| == |Keepers(cpus, th)| + One(Refers(v, th))
  {
    assert Keepers(cpus + [v], th) == Keepers(cpus, th) + (if Refers(v, th) then {|cpus|} else {});
  }

  lemma {:induction false} ReferencesCounted(cpus: seq<Cpu>, th: nat)
    ensures References(cpus, th) == |Keepers(cpus, th)|
  {
    if cpus == [] {
      assert Keepers(cpus, th) == {};
    } else {
      var init, v := cpus[..|cpus| - 1], cpus[|cpus| - 1];
      ReferencesCounted(init, th);
      ReferencesSnoc(init, v, th);
      KeepersSnoc(init, v, th);
      assert cpus == init + [v];
    }
  }

  /** A task's retain count is its callers' references, plus its threads' counts, plus its discarded threads. */
  lemma RetainConservation(r: Run, i: nat, t: nat)
    requires IsRun(r) && i < |r.states| && t < |r.states[i].tasks|
    ensures var s := r.states[i];
            s.tasks[t].counts.retainCount == s.tasks[t].direct + ThreadRetains(s.threads, t) + |Discarded(s.threads, t)|
  {
    RunInv(r, i);
    assert SumOk(r.states[i], Empty, t);
    SumsCounted(r.states[i].threads, t);
  }

  /** A task's hold count is its creator's hold plus one per thread inside an outermost scope. */
  lemma HoldBalance(r: Run, i: nat, t: nat)
    requires IsRun(r) && i < |r.states| && t < |r.states[i].tasks|
    ensures var s := r.states[i];
            s.tasks[t].counts.holdCount == One(s.tasks[t].creatorHold) + |Holders(s.threads, t)|
  {
    RunInv(r, i);
    assert SumOk(r.states[i], Empty, t);
    SumsCounted(r.states[i].threads, t);
  }

  /** No task is thrown away, and none is deleted, while one of its threads is inside a scope. */
  lemma ScopeProtects(r: Run, i: nat, th: nat)
    requires IsRun(r) && i < |r.states| && th < |r.states[i].threads| && InScope(r.states[i].threads[th])
    ensures var s := r.states[i]; var t := s.threads[th].task;
            t < |s.tasks| && !s.tasks[t].freed && ATask(t) !in History(s) && s.threads[th].fate.Active?
  {
    RunInv(r, i);
    var s := r.states[i];
    var t := s.threads[th].task;
    assert SumOk(s, Empty, t) && TaskOk(s, t) && FateOk(s, th) && CountOk(s, Empty, th);
    SumsBound(s.threads, t);
    assert HoldShare(s.threads[th], t) <= HoldSum(s.threads, t);
    assert !ThrownOnce(s, ATask(t));
  }

  /**
   * A running thread inside a scope, or its task, can always be retained: the hold keeps the task
   * from being dead.  The waiters of a lock and the thread launcher retain without looking.
   */
  lemma ScopeRetainable(r: Run, i: nat, th: nat)
    requires IsRun(r) && i < |r.states| && th < |r.states[i].threads|
    requires InScope(r.states[i].threads[th]) && r.states[i].threads[th].flow.Normal?
    ensures ThreadInRange(r.states[i], th) && ThreadRetainable(r.states[i], th)
  {
    RunInv(r, i);
    var s := r.states[i];
    var t := s.threads[th].task;
    HoldBalance(r, i, t);
    assert th in Holders(s.threads, t);
  }

  /** A thread's count is its callers' references plus one per CPU that keeps it. */
  lemma ThreadConservation(r: Run, i: nat, th: nat)
    requires IsRun(r) && i < |r.states| && th < |r.states[i].threads|
    ensures var s := r.states[i];
            s.threads[th].counts.retainCount == s.threads[th].clients + |Keepers(s.cpus, th)|
  {
    RunInv(r, i);
    assert CountOk(r.states[i], Empty, th);
    ReferencesCounted(r.states[i].cpus, th);
  }

  /**
   * Between two switches a whole Switch has netted one reference for the thread it picked and
   * dropped one for the thread it resigned: only running threads are kept, each once.
   */
  lemma SwitchNetsOne(r: Run, i: nat, th: nat)
    requires IsRun(r) && i < |r.states| && th < |r.states[i].threads| && r.states[i].holder.None?
    ensures var s := r.states[i];
            s.threads[th].counts.retainCount == s.threads[th].clients + One(s.threads[th].running)
  {
    RunInv(r, i);
    var s := r.states[i];
    assert CountOk(s, Empty, th);
    forall c | 0 <= c < |s.cpus| ensures Refers(s.cpus[c], th) <==> Executes(s.cpus[c], th) { assert CpuOk(s, c); }
    SameCounts(s.cpus, th);
  }

  lemma {:induction false} SameCounts(cpus: seq<Cpu>, th: nat)
    requires forall c | 0 <= c < |cpus| :: Refers(cpus[c], th) <==> Executes(cpus[c], th)
    ensures References(cpus, th) == Executions(cpus, th)
  {
    if cpus != [] { SameCounts(cpus[1..], th); }
  }

  /** A thread is current or picked on at most one CPU, and `running` says whether it is on one. */
  lemma DispatchExclusive(r: Run, i: nat, th: nat)
    requires IsRun(r) && i < |r.states| && th < |r.states[i].threads|
    ensures var s := r.states[i];
            forall c, d | 0 <= c < |s.cpus| && 0 <= d < |s.cpus| && Executes(s.cpus[c], th)
              && Executes(s.cpus[d], th) :: c == d
    ensures var s := r.states[i];
            s.threads[th].running <==> exists c :: 0 <= c < |s.cpus| && Executes(s.cpus[c], th)
  {
    RunInv(r, i);
    var s := r.states[i];
    assert CountOk(s, Empty, th);
    forall c | 0 <= c < |s.cpus| && Executes(s.cpus[c], th)
      ensures s.threads[th].running && forall d | 0 <= d < |s.cpus| && Executes(s.cpus[d], th) :: c == d
    {
      ExecutorAlone(s, c, th);
    }
    if forall c | 0 <= c < |s.cpus| :: !Executes(s.cpus[c], th) { NoExecution(s.cpus, th); }
  }

  lemma {:induction false} NoExecution(cpus: seq<Cpu>, th: nat)
    requires forall c | 0 <= c < |cpus| :: !Executes(cpus[c], th)
    ensures Executions(cpus, th) == 0
  {
    if cpus != [] { NoExecution(cpus[1..], th); }
  }

  // ---- no use after deletion ---------------------------------------------

  predicate Live(s: State, o: Obj) {
    match o
    case ATask(t) => t < |s.tasks| && !s.tasks[t].freed
    case AThread(th) => th < |s.threads| && !s.threads[th].fate.Freed?
  }

  /** What the kernel frees: tasks and threads, and the run-list entries that Add makes and Remove deletes. */
  datatype Piece = Whole(o: Obj) | EntryOf(thread: nat)

  /** An entry exists from the section that adds it to the run list to the one that removes it. */
  predicate PieceLive(s: State, p: Piece) {
    match p
    case Whole(o) => Live(s, o)
    case EntryOf(th) => th in s.list
  }

  function WithTask(s: State, th: nat): set<Piece>
    requires th < |s.threads|
  {
    {Whole(AThread(th)), Whole(ATask(s.threads[th].task))}
  }

  /** Adding and removing follow links through any entry. */
  function Entries(s: State): set<Piece> {
    set e | e in s.list :: EntryOf(e)
  }

  function ClientTouches(s: State, a: ClientStep): set<Piece>
    requires ClientEnabled(s, a)
  {
    match a
    case NewTask => {}
    case ListTask(t) => {Whole(ATask(t))}
    case FindTask(t) => {Whole(ATask(t))}
    case DropTask(t) => {Whole(ATask(t))}
    case CreatorUnhold(t) => {Whole(ATask(t))}
    case KillTask(t, _) => {Whole(ATask(t))}
    case NewThread(t) => {Whole(ATask(t))}
    case AddToTask(th) => WithTask(s, th)
    case Enqueue(th) => WithTask(s, th) + Entries(s)
    case MarkScheduled(th) => {Whole(AThread(th))}
    case FindThread(th) => WithTask(s, th)
    case DropThread(th) => WithTask(s, th)
    case ClearTimeout(th) => WithTask(s, th) + {EntryOf(th)}
  }

  function ExecTouches(s: State, c: nat, a: ExecStep): set<Piece>
    requires ExecEnabled(s, c, a)
  {
    WithTask(s, s.cpus[c].th) + (if a.SetTimeout? then {EntryOf(s.cpus[c].th)} else {})
  }

  function SwitchTouches(s: State, c: nat, a: SwitchStep): set<Piece>
    requires SwitchEnabled(s, c, a)
  {
    var v := s.cpus[c];
    match a
    case ReadClock => if v.Running? then {Whole(AThread(v.th))} else {}
    case Seize =>
      Entries(s) + (if v.cur.Some? then {Whole(AThread(v.cur.value)), EntryOf(v.cur.value)} else {})
    case ReleaseResigned => WithTask(s, v.th)
    case TryRetain => WithTask(s, s.list[v.i]) + {EntryOf(s.list[v.i])}
    case Decide => {Whole(AThread(v.th)), EntryOf(v.th)}
    case Skip => WithTask(s, v.th) + {EntryOf(v.th)}
    case EndScan => {}
    case SetCurrent => if v.th < |s.threads| then WithTask(s, v.th) else {Whole(AThread(v.th))}
  }

  function GcTouches(s: State, a: GcStep): set<Piece>
    requires GcEnabled(s, a)
  {
    match a
    case GcShift => set o | o in s.queue :: Whole(o)
    case GcUnlink =>
      WithTask(s, s.gc.th) + (if s.threads[s.gc.th].inScheduler then Entries(s) + {EntryOf(s.gc.th)} else {})
    case GcUnlist => WithTask(s, s.gc.th)
    case GcReleaseTask => WithTask(s, s.gc.th)
    case GcDelete => {Whole(AThread(s.gc.th))}
    case GcPick(th) => {Whole(AThread(th)), Whole(ATask(s.gc.t))}
    case GcUnlistTask => {Whole(ATask(s.gc.t))}
    case GcDeleteTask => {Whole(ATask(s.gc.t))}
  }

  /** What a step reads or writes of the memory that the kernel frees. */
  function Touches(s: State, a: Step): set<Piece>
    requires Enabled(s, a)
  {
    match a
    case Call(b) => ClientTouches(s, b)
    case Exec(c, b) => ExecTouches(s, c, b)
    case Sched(c, b) => SwitchTouches(s, c, b)
    case Collect(b) => GcTouches(s, b)
    case Tick => {}
  }

  lemma UnspentLive(s: State, t: nat)
    requires Inv(s) && t < |s.tasks| && !Spent(s.tasks[t].counts)
    ensures Live(s, ATask(t))
  {
    assert TaskOk(s, t);
  }

  /** An undeleted thread's task is undeleted. */
  lemma TaskOutlivesThread(s: State, th: nat)
    requires Inv(s) && th < |s.threads| && !s.threads[th].fate.Freed?
    ensures Live(s, ATask(s.threads[th].task))
  {
    assert FateOk(s, th);
  }

  lemma EntryAlive(s: State, e: nat)
    requires Inv(s) && e in s.list
    ensures Live(s, AThread(e)) && Live(s, ATask(s.threads[e].task))
  {
    TaskOutlivesThread(s, e);
  }

  /** An entry that a caller, its own CPU, or the scan may write is in the run list. */
  lemma EntryListed(s: State, th: nat)
    requires Inv(s) && ThreadInRange(s, th) && EntryReachable(s, th)
    ensures th in s.list
  {
    var r := s.threads[th];
    if r.clients > 0 || r.running {
      ClientAlive(s, th);
      ReferredInList(s, th);
    } else {
      assert FateOk(s, th) && TaskOk(s, r.task);
    }
  }

  /** A thread that a CPU keeps has its entry in the run list. */
  lemma KeptListed(s: State, c: nat, th: nat)
    requires Inv(s) && c < |s.cpus| && Refers(s.cpus[c], th)
    ensures th < |s.threads| && th in s.list && s.threads[th].counts.retainCount > 0
    ensures Live(s, AThread(th)) && Live(s, ATask(s.threads[th].task))
  {
    assert CpuOk(s, c);
    assert CountOk(s, Empty, th);
    ReferencesAtLeast(s.cpus, th);
    ReferredInList(s, th);
    TaskOutlivesThread(s, th);
  }

  lemma ClientTouchesLive(s: State, a: ClientStep)
    requires Inv(s) && ClientEnabled(s, a)
    ensures forall o | o in ClientTouches(s, a) :: PieceLive(s, o)
  {
    match a
    case NewTask =>
    case ListTask(t) => assert SumOk(s, Empty, t) && TaskOk(s, t); SumsNatural(s, t);
    case FindTask(t) => assert TaskOk(s, t); if s.tasks[t].direct > 0 { DirectKeepsAlive(s, t); }
    case DropTask(t) => DirectKeepsAlive(s, t);
    case CreatorUnhold(t) => assert SumOk(s, Empty, t) && TaskOk(s, t); SumsNatural(s, t);
    case KillTask(t, _) => UnspentLive(s, t);
    case NewThread(t) => DirectKeepsAlive(s, t);
    case AddToTask(th) => ClientAlive(s, th);
    case Enqueue(th) => ClientAlive(s, th);
    case MarkScheduled(th) => ClientAlive(s, th);
    case FindThread(th) => ReachableAlive(s, th);
    case DropThread(th) => ClientAlive(s, th);
    case ClearTimeout(th) => EntryListed(s, th); EntryAlive(s, th);
  }

  lemma ReachableAlive(s: State, th: nat)
    requires Inv(s) && ThreadInRange(s, th) && ThreadReachable(s, th)
    ensures Live(s, AThread(th)) && Live(s, ATask(s.threads[th].task))
  {
    var t := s.threads[th].task;
    if s.threads[th].clients > 0 || s.threads[th].running {
      ClientAlive(s, th);
    } else {
      assert FateOk(s, th) && TaskOk(s, t);
      if s.tasks[t].direct > 0 { DirectKeepsAlive(s, t); }
    }
  }

  lemma ExecTouchesLive(s: State, c: nat, a: ExecStep)
    requires Inv(s) && ExecEnabled(s, c, a)
    ensures forall o | o in ExecTouches(s, c, a) :: PieceLive(s, o)
  {
    KeptListed(s, c, s.cpus[c].th);
  }

  lemma SwitchTouchesLive(s: State, c: nat, a: SwitchStep)
    requires Inv(s) && SwitchEnabled(s, c, a)
    ensures forall o | o in SwitchTouches(s, c, a) :: PieceLive(s, o)
  {
    var v := s.cpus[c];
    match a
    case ReadClock => if v.Running? { KeptListed(s, c, v.th); }
    case Seize => if v.cur.Some? { KeptListed(s, c, v.cur.value); }
    case TryRetain => EntryAlive(s, s.list[v.i]);
    case EndScan =>
    case _ => KeptListed(s, c, v.th);
  }

  lemma GcTouchesLive(s: State, a: GcStep)
    requires Inv(s) && GcEnabled(s, a)
    ensures forall o | o in GcTouches(s, a) :: PieceLive(s, o)
  {
    forall o | o in s.queue ensures Live(s, o) { QueuedAlive(s, o); }
    if s.gc.GcThread? { TaskOutlivesThread(s, s.gc.th); }
  }

  lemma QueuedAlive(s: State, o: Obj)
    requires Inv(s) && o in s.queue
    ensures Live(s, o)
  {
    assert o in History(s);
    match o
    case ATask(t) => assert TaskOk(s, t);
    case AThread(th) => assert FateOk(s, th);
  }

  /** No step of any run touches a deleted task, thread or run-list entry. */
  lemma NoUseAfterDelete(r: Run, i: nat)
    requires IsRun(r) && i < |r.steps|
    ensures forall o | o in Touches(r.states[i], r.steps[i]) :: PieceLive(r.states[i], o)
  {
    RunInv(r, i);
    var s := r.states[i];
    match r.steps[i]
    case Call(b) => ClientTouchesLive(s, b);
    case Exec(c, b) => ExecTouchesLive(s, c, b);
    case Sched(c, b) => SwitchTouchesLive(s, c, b);
    case Collect(b) => GcTouchesLive(s, b);
    case Tick =>
  }

  /** Run-list entries never dangle. */
  lemma RunListAlive(r: Run, i: nat)
    requires IsRun(r) && i < |r.states|
    ensures Distinct(r.states[i].list)
    ensures forall e | e in r.states[i].list ::
      Live(r.states[i], AThread(e)) && Live(r.states[i], ATask(r.states[i].threads[e].task))
  {
    RunInv(r, i);
    forall e | e in r.states[i].list
      ensures Live(r.states[i], AThread(e)) && Live(r.states[i], ATask(r.states[i].threads[e].task))
    {
      EntryAlive(r.states[i], e);
    }
  }

  // ---- the footprints are complete ---------------------------------------

  /** Everything but what belongs to the run-list entry. */
  predicate SameThread(r: ThreadRec, r': ThreadRec) {
    r' == r.(deadline := r'.deadline, running := r'.running)
  }

  /** Outside the pieces named, every task and thread that existed is as it was. */
  predicate RecordsFrame(s: State, s': State, pieces: set<Piece>) {
    && |s.tasks| <= |s'.tasks| && |s.threads| <= |s'.threads|
    && (forall t | 0 <= t < |s.tasks| && Whole(ATask(t)) !in pieces :: s'.tasks[t] == s.tasks[t])
    && (forall th | 0 <= th < |s.threads| && Whole(AThread(th)) !in pieces :: SameThread(s.threads[th], s'.threads[th]))
  }

  /** Outside the pieces named, every entry is as it was; `born` may have come into being. */
  predicate EntriesFrame(s: State, s': State, pieces: set<Piece>, born: set<Piece>) {
    && |s.threads| <= |s'.threads|
    && (forall th | 0 <= th < |s.threads| && EntryOf(th) !in pieces ::
          s'.threads[th].deadline == s.threads[th].deadline && s'.threads[th].running == s.threads[th].running)
    && (forall th | 0 <= th < |s.threads| && EntryOf(th) !in pieces + born :: th in s'.list <==> th in s.list)
  }

  /** The entry that Add makes. */
  function Born(a: Step): set<Piece> {
    if a.Call? && a.call.Enqueue? then {EntryOf(a.call.th)} else {}
  }

  predicate GivesUp(a: ClientStep) {
    a.DropTask? || a.DropThread? || a.CreatorUnhold?
  }

  lemma GiveUpRecords(s: State, a: ClientStep)
    requires ClientEnabled(s, a) && GivesUp(a)
    ensures RecordsFrame(s, ApplyClient(s, a), ClientTouches(s, a))
  {
    if a.DropThread? {
      var s1 := SetThread(s, a.th, s.threads[a.th].(clients := s.threads[a.th].clients - 1));
      ReleaseRecords(s1, a.th);
    }
  }

  lemma ReleaseRecords(s: State, th: nat)
    requires ThreadInRange(s, th)
    ensures RecordsFrame(s, ThreadRelease(s, th), WithTask(s, th))
  {
  }

  lemma GiveUpEntries(s: State, a: ClientStep)
    requires ClientEnabled(s, a) && GivesUp(a)
    ensures EntriesFrame(s, ApplyClient(s, a), {}, {})
  {
  }

  lemma ClientRecords(s: State, a: ClientStep)
    requires ClientEnabled(s, a)
    ensures RecordsFrame(s, ApplyClient(s, a), ClientTouches(s, a))
  {
    if GivesUp(a) { GiveUpRecords(s, a); }
  }

  lemma ClientEntries(s: State, a: ClientStep)
    requires ClientEnabled(s, a)
    ensures EntriesFrame(s, ApplyClient(s, a), ClientTouches(s, a), Born(Call(a)))
  {
    if GivesUp(a) { GiveUpEntries(s, a); }
  }

  /** The sections in which a thread gives its hold back. */
  predicate DropsHold(a: ExecStep) {
    a.LeaveScope? || a.ExitUnhold?
  }

  lemma UnholdRecords(s: State, c: nat, a: ExecStep)
    requires ExecEnabled(s, c, a) && DropsHold(a)
    ensures RecordsFrame(s, ApplyExec(s, c, a), ExecTouches(s, c, a))
  {
  }

  lemma UnholdEntries(s: State, c: nat, a: ExecStep)
    requires ExecEnabled(s, c, a) && DropsHold(a)
    ensures EntriesFrame(s, ApplyExec(s, c, a), {}, {})
  {
  }

  lemma ExecRecords(s: State, c: nat, a: ExecStep)
    requires ExecEnabled(s, c, a)
    ensures RecordsFrame(s, ApplyExec(s, c, a), ExecTouches(s, c, a))
  {
    if DropsHold(a) { UnholdRecords(s, c, a); }
  }

  /** Of what a thread does to itself, only SetTimeout writes its entry. */
  lemma ExecEntries(s: State, c: nat, a: ExecStep)
    requires ExecEnabled(s, c, a)
    ensures EntriesFrame(s, ApplyExec(s, c, a), ExecTouches(s, c, a), {})
  {
    if DropsHold(a) { UnholdEntries(s, c, a); }
  }

  lemma SwitchRecords(s: State, c: nat, a: SwitchStep)
    requires SwitchEnabled(s, c, a)
      && (a.Skip? || a.ReleaseResigned? || a.SetCurrent? ==> ThreadInRange(s, s.cpus[c].th))
    ensures RecordsFrame(s, ApplySwitch(s, c, a), SwitchTouches(s, c, a))
  {
    var v := s.cpus[c];
    if a.ReleaseResigned? || a.Skip? {
      ReleaseRecords(SetCpu(s, c, Scanning(if a.Skip? then v.i + 1 else 0, v.now)), v.th);
    }
  }

  lemma SeizeEntries(s: State, c: nat)
    requires Distinct(s.list) && SwitchEnabled(s, c, Seize)
    ensures EntriesFrame(s, ApplySwitch(s, c, Seize), SwitchTouches(s, c, Seize), {})
  {
    if s.cpus[c].cur.Some? { WithoutMembers(s.list, s.cpus[c].cur.value); }
  }

  lemma SwitchEntries(s: State, c: nat, a: SwitchStep)
    requires Distinct(s.list) && SwitchEnabled(s, c, a)
    ensures EntriesFrame(s, ApplySwitch(s, c, a), SwitchTouches(s, c, a), {})
  {
    if a.Seize? { SeizeEntries(s, c); }
  }

  lemma GcFrames(s: State, a: GcStep)
    requires Distinct(s.list) && GcEnabled(s, a)
    ensures RecordsFrame(s, ApplyGc(s, a), GcTouches(s, a)) && EntriesFrame(s, ApplyGc(s, a), GcTouches(s, a), {})
  {
    if a.GcUnlink? { WithoutMembers(s.list, s.gc.th); }
  }

  /** `Touches` misses nothing that a step changes: outside it every task, thread and entry stays as it was. */
  lemma TouchesComplete(r: Run, i: nat)
    requires IsRun(r) && i < |r.steps|
    ensures RecordsFrame(r.states[i], r.states[i + 1], Touches(r.states[i], r.steps[i]))
    ensures EntriesFrame(r.states[i], r.states[i + 1], Touches(r.states[i], r.steps[i]), Born(r.steps[i]))
  {
    RunInv(r, i);
    var s := r.states[i];
    match r.steps[i]
    case Call(b) => ClientRecords(s, b); ClientEntries(s, b);
    case Exec(c, b) => ExecRecords(s, c, b); ExecEntries(s, c, b);
    case Sched(c, b) => assert CpuOk(s, c); SwitchRecords(s, c, b); SwitchEntries(s, c, b);
    case Collect(b) => GcFrames(s, b);
    case Tick =>
  }

  // ---- what a step cannot undo -------------------------------------------

  /** Tables only grow, owners are fixed, and the deletion of a task or thread is final. */
  predicate TablesPersist(s: State, s': State) {
    && |s.tasks| <= |s'.tasks| && |s.threads| <= |s'.threads|
    && (forall t | 0 <= t < |s.tasks| :: s.tasks[t].freed ==> s'.tasks[t].freed)
    && (forall th | 0 <= th < |s.threads| ::
          s'.threads[th].task == s.threads[th].task && (s.threads[th].fate.Freed? ==> s'.threads[th].fate.Freed?))
  }

  /** A thread gets one entry, and an entry that was removed does not come back. */
  predicate EntriesPersist(s: State, s': State) {
    && |s.threads| <= |s'.threads|
    && (forall th | 0 <= th < |s.threads| && s.threads[th].enqueued ::
          s'.threads[th].enqueued && (th !in s.list ==> th !in s'.list))
  }

  predicate Persists(s: State, s': State) {
    TablesPersist(s, s') && EntriesPersist(s, s')
  }

  lemma ReleasePersists(s: State, th: nat)
    requires ThreadInRange(s, th) && !s.threads[th].fate.Freed?
    ensures Persists(s, ThreadRelease(s, th))
  {
  }

  lemma ClientPersists(s: State, a: ClientStep)
    requires Inv(s) && ClientEnabled(s, a)
    ensures Persists(s, ApplyClient(s, a))
  {
    if a.DropThread? {
      ClientAlive(s, a.th);
      ReleasePersists(SetThread(s, a.th, s.threads[a.th].(clients := s.threads[a.th].clients - 1)), a.th);
    } else {
      QuietPersists(s, a);
    }
  }

  lemma QuietPersists(s: State, a: ClientStep)
    requires ClientEnabled(s, a) && !a.DropThread?
    ensures Persists(s, ApplyClient(s, a))
  {
  }

  lemma SwitchPersists(s: State, c: nat, a: SwitchStep)
    requires Inv(s) && SwitchEnabled(s, c, a)
    ensures Persists(s, ApplySwitch(s, c, a))
  {
    var v := s.cpus[c];
    if a.Seize? {
      SeizePersists(s, c);
    } else if a.ReleaseResigned? || a.Skip? {
      KeptListed(s, c, v.th);
      ReleasePersists(SetCpu(s, c, Scanning(if a.Skip? then v.i + 1 else 0, v.now)), v.th);
    } else {
      ScanPersists(s, c, a);
    }
  }

  lemma SeizePersists(s: State, c: nat)
    requires Inv(s) && SwitchEnabled(s, c, Seize)
    ensures Persists(s, ApplySwitch(s, c, Seize))
  {
    var v := s.cpus[c];
    if v.cur.Some? { KeptListed(s, c, v.cur.value); WithoutMembers(s.list, v.cur.value); }
  }

  lemma ScanPersists(s: State, c: nat, a: SwitchStep)
    requires SwitchEnabled(s, c, a) && !a.Seize? && !a.ReleaseResigned? && !a.Skip?
    ensures Persists(s, ApplySwitch(s, c, a))
  {
  }

  lemma ExecPersists(s: State, c: nat, a: ExecStep)
    requires ExecEnabled(s, c, a)
    ensures TablesPersist(s, ApplyExec(s, c, a))
  {
    if DropsHold(a) { UnholdPersists(s, c, a); }
  }

  lemma UnholdPersists(s: State, c: nat, a: ExecStep)
    requires ExecEnabled(s, c, a) && DropsHold(a)
    ensures TablesPersist(s, ApplyExec(s, c, a))
  {
  }

  lemma ExecEntriesPersist(s: State, c: nat, a: ExecStep)
    requires ExecEnabled(s, c, a)
    ensures EntriesPersist(s, ApplyExec(s, c, a))
  {
  }

  lemma GcPersists(s: State, a: GcStep)
    requires Inv(s) && GcEnabled(s, a)
    ensures Persists(s, ApplyGc(s, a))
  {
    if a.GcUnlink? { WithoutMembers(s.list, s.gc.th); }
  }

  lemma StepPersists(s: State, a: Step)
    requires Inv(s) && Enabled(s, a)
    ensures Persists(s, Apply(s, a))
  {
    match a
    case Call(b) => ClientPersists(s, b);
    case Exec(c, b) => ExecPersists(s, c, b); ExecEntriesPersist(s, c, b);
    case Sched(c, b) => SwitchPersists(s, c, b);
    case Collect(b) => GcPersists(s, b);
    case Tick =>
  }

  predicate PersistsAt(r: Run, k: nat)
    requires k < |r.steps| < |r.states|
  {
    Persists(r.states[k], r.states[k + 1])
  }

  lemma EachPersists(r: Run)
    requires IsRun(r)
    ensures forall k | 0 <= k < |r.steps| :: PersistsAt(r, k)
  {
    forall k | 0 <= k < |r.steps| ensures PersistsAt(r, k) {
      RunInv(r, k);
      StepPersists(r.states[k], r.steps[k]);
    }
  }

  lemma {:induction false} PersistsChain(r: Run, i: nat, j: nat)
    requires i <= j <= |r.steps| < |r.states|
    requires forall k | 0 <= k < |r.steps| :: PersistsAt(r, k)
    ensures Persists(r.states[i], r.states[j])
  {
    if i < j {
      PersistsChain(r, i, j - 1);
      assert PersistsAt(r, j - 1);
    }
  }

  lemma RunPersists(r: Run, i: nat, j: nat)
    requires IsRun(r) && i <= j < |r.states|
    ensures Persists(r.states[i], r.states[j])
  {
    EachPersists(r);
    PersistsChain(r, i, j);
  }

  /** What a step deletes. */
  function Deletes(s: State, a: Step): Option<Piece> {
    if a == Collect(GcDelete) && s.gc.GcThread? then Some(Whole(AThread(s.gc.th)))
    else if a == Collect(GcDeleteTask) && s.gc.GcTaskDelete? then Some(Whole(ATask(s.gc.t)))
    else if a == Collect(GcUnlink) && s.gc.GcThread? && ThreadInRange(s, s.gc.th) && s.threads[s.gc.th].inScheduler
    then Some(EntryOf(s.gc.th))
    else None
  }

  lemma DeletedNow(s: State, a: Step)
    requires Inv(s) && Enabled(s, a) && Deletes(s, a).Some?
    ensures var o := Deletes(s, a).value;
            PieceLive(s, o) && !PieceLive(Apply(s, a), o) && Known(s, o) && Known(Apply(s, a), o)
  {
    GcTouchesLive(s, a.collect);
    if a.collect.GcUnlink? { WithoutMembers(s.list, s.gc.th); }
  }

  /** The piece has been made. */
  predicate Known(s: State, p: Piece) {
    match p
    case Whole(ATask(t)) => t < |s.tasks|
    case Whole(AThread(th)) => th < |s.threads|
    case EntryOf(th) => th < |s.threads| && s.threads[th].enqueued
  }

  /** Nothing is deleted twice: no task, no thread and no run-list entry. */
  lemma DeletedOnce(r: Run, i: nat, j: nat)
    requires IsRun(r) && i < j < |r.steps|
    requires Deletes(r.states[i], r.steps[i]).Some?
    ensures Deletes(r.states[j], r.steps[j]) != Deletes(r.states[i], r.steps[i])
  {
    RunInv(r, i);
    DeletedNow(r.states[i], r.steps[i]);
    RunPersists(r, i + 1, j);
    RunInv(r, j);
    if Deletes(r.states[j], r.steps[j]).Some? { DeletedNow(r.states[j], r.steps[j]); }
  }

  /**
   * The two deletion paths never meet.  While a task is deallocated each of its undeleted threads
   * is unkilled, unreferenced and was never thrown away; a thread deleted on its own was killed
   * and came through the queue; a queued task shares the queue with none of its threads.
   */
  lemma OnePath(r: Run, i: nat, th: nat)
    requires IsRun(r) && i < |r.states| && th < |r.states[i].threads|
    ensures var s := r.states[i]; var o := s.threads[th];
            OnTask(s.gc, o.task) && !o.fate.Freed? ==>
              !o.counts.killed && o.counts.retainCount == 0 && AThread(th) !in History(s)
    ensures var s := r.states[i];
            OnThread(s.gc, th) ==> s.threads[th].counts.killed && AThread(th) in s.taken
    ensures var s := r.states[i];
            ATask(s.threads[th].task) in s.queue ==> AThread(th) !in s.queue
  {
    RunInv(r, i);
    var s := r.states[i];
    var t := s.threads[th].task;
    assert FateOk(s, th) && TaskOk(s, t);
    if Spent(s.tasks[t].counts) { SpentThread(s, th); }
    if ATask(t) in s.queue { assert ATask(t) in History(s); }
    if AThread(th) in s.queue { assert AThread(th) in History(s); }
    if OnThread(s.gc, th) { assert ThrownOnce(s, AThread(th)); assert AThread(th) in History(s); }
    if AThread(th) in History(s) { assert ThrownOnce(s, AThread(th)); }
  }
}
