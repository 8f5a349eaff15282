/**
 * How long a ready thread can wait.  On any number of CPUs, a thread that stays ready is
 * dispatched within k + 1 calls of Switch, where k is the number of entries ahead of it in the
 * run list that are not running, and one more for each Switch that had begun too early.
 */
module Bypass {
  import opened Common
  import opened TaskCounters
  import opened ThreadCounters
  import opened Kernel
  import opened KernelInvariant
  import opened KernelMoves
  import opened KernelSteps

  /** The entries a scan meets before x. */
  function Before(l: seq<nat>, x: nat): seq<nat> {
    if l == [] || l[0] == x then [] else [l[0]] + Before(l[1..], x)
  }

  predicate Waits(rs: seq<ThreadRec>, e: nat) {
    e < |rs| && !rs[e].running
  }

  function CountWaiting(rs: seq<ThreadRec>, l: seq<nat>): nat {
    if l == [] then 0 else One(Waits(rs, l[0])) + CountWaiting(rs, l[1..])
  }

  /** The bound k: entries ahead of th that are not running. */
  function AheadOf(s: State, th: nat): nat {
    CountWaiting(s.threads, Before(s.list, th))
  }

  /** The scan in progress has already gone past th. */
  predicate Past(v: Cpu, l: seq<nat>, th: nat) {
    match v
    case Scanning(i, _) => i <= |l| && th in l[..i]
    case Checking(i, _, _) => i <= |l| && th in l[..i]
    case Skipping(i, _, _) => i < |l| && th in l[..i + 1]
    case _ => false
  }

  /** The scan in progress could have picked th and has gone past it. */
  predicate Stale(s: State, th: nat)
    requires th < |s.threads|
  {
    && s.holder.Some? && s.holder.value < |s.cpus|
    && DueFor(s.cpus[s.holder.value], s.threads[th].deadline) && Past(s.cpus[s.holder.value], s.list, th)
  }

  /** A Switch in progress on this CPU, if there is one, read the clock when the deadline had passed. */
  predicate DueFor(v: Cpu, deadline: nat) {
    match v
    case Waiting(_, now) => deadline <= now
    case Resigned(_, now) => deadline <= now
    case Scanning(_, now) => deadline <= now
    case Checking(_, _, now) => deadline <= now
    case Skipping(_, _, now) => deadline <= now
    case _ => true
  }

  /** CPUs between the clock reading and the end of a Switch that read the clock before the deadline. */
  function EarlyCpus(cpus: seq<Cpu>, deadline: nat): nat {
    if cpus == [] then 0 else One(!DueFor(cpus[0], deadline)) + EarlyCpus(cpus[1..], deadline)
  }

  /** How many calls of Switch are in progress that had begun too early for th. */
  function TooEarly(s: State, th: nat): nat {
    if th < |s.threads| then EarlyCpus(s.cpus, s.threads[th].deadline) else 0
  }

  /** Nothing but its turn keeps th from running: it is listed, may be retained, and its deadline has passed. */
  predicate Ready(s: State, th: nat) {
    ThreadInRange(s, th) && th in s.list && ThreadRetainable(s, th) && s.threads[th].deadline <= s.clock
  }

  /** The step ends a call of Switch: with a thread picked, or with none. */
  predicate Completes(s: State, a: Step) {
    a.Sched? && SwitchEnabled(s, a.c, a.sched) &&
    (a.sched.EndScan?
     || (a.sched.Decide?
         && !(s.threads[s.cpus[a.c].th].deadline > s.cpus[a.c].now || s.threads[s.cpus[a.c].th].running)))
  }

  /** How many calls of Switch may still end without dispatching th. */
  function Budget(s: State, th: nat): nat
    requires th < |s.threads|
  {
    AheadOf(s, th) + One(Stale(s, th)) + TooEarly(s, th)
  }

  // ---- lists -------------------------------------------------------------

  lemma {:induction false} BeforeSnoc(l: seq<nat>, y: nat, x: nat)
    requires x in l
    ensures Before(l + [y], x) == Before(l, x)
  {
    if l[0] != x {
      assert (l + [y])[1..] == l[1..] + [y];
      BeforeSnoc(l[1..], y, x);
    }
  }

  lemma {:induction false} BeforeWithout(l: seq<nat>, y: nat, x: nat)
    requires x != y
    ensures Before(Without(l, y), x) == Without(Before(l, x), y)
  {
    if l != [] && l[0] != x && l[0] != y {
      BeforeWithout(l[1..], y, x);
      assert ([l[0]] + Without(l[1..], y))[1..] == Without(l[1..], y);
      assert ([l[0]] + Before(l[1..], x))[1..] == Before(l[1..], x);
    } else if l != [] && l[0] == y {
      assert ([l[0]] + Before(l[1..], x))[1..] == Before(l[1..], x);
    }
  }

  lemma {:induction false} BeforeIndex(l: seq<nat>, x: nat, i: nat)
    requires Distinct(l) && i < |l|
    ensures l[i] in Before(l, x) <==> x !in l[..i + 1]
  {
    if l[0] == x {
      assert x in l[..i + 1];
    } else if i == 0 {
      assert l[..1] == [l[0]];
    } else {
      BeforeIndex(l[1..], x, i - 1);
      assert l[..i + 1] == [l[0]] + l[1..][..i];
      assert l[i] == l[1..][i - 1] && l[i] != l[0];
    }
  }

  lemma {:induction false} BeforePrefix(l: seq<nat>, x: nat)
    ensures Before(l, x) <= l && x !in Before(l, x)
  {
    if l != [] && l[0] != x {
      BeforePrefix(l[1..], x);
      assert l == [l[0]] + l[1..];
    }
  }

  lemma {:induction false} CountWithout(rs: seq<ThreadRec>, l: seq<nat>, y: nat)
    ensures CountWaiting(rs, Without(l, y)) == CountWaiting(rs, l) - One(y in l && Waits(rs, y))
  {
    if l != [] && l[0] != y {
      CountWithout(rs, l[1..], y);
      assert l == [l[0]] + l[1..];
      assert ([l[0]] + Without(l[1..], y))[1..] == Without(l[1..], y);
    }
  }

  lemma {:induction false} CountUpdate(rs: seq<ThreadRec>, l: seq<nat>, u: nat, r: ThreadRec)
    requires Distinct(l) && u < |rs|
    ensures CountWaiting(rs[u := r], l)
         == CountWaiting(rs, l) - One(u in l && !rs[u].running) + One(u in l && !r.running)
  {
    if l != [] {
      CountUpdate(rs, l[1..], u, r);
      assert l == [l[0]] + l[1..];
    }
  }

  /** Only `running` matters to the count. */
  lemma {:induction false} CountSame(rs: seq<ThreadRec>, rs': seq<ThreadRec>, l: seq<nat>)
    requires forall e | e in l :: e < |rs| && e < |rs'| && rs'[e].running == rs[e].running
    ensures CountWaiting(rs', l) == CountWaiting(rs, l)
  {
    if l != [] { CountSame(rs, rs', l[1..]); }
  }

  // ---- clock readings ----------------------------------------------------

  lemma {:induction false} EarlyUpdate(cpus: seq<Cpu>, c: nat, v: Cpu, d: nat)
    requires c < |cpus|
    ensures EarlyCpus(cpus[c := v], d) == EarlyCpus(cpus, d) - One(!DueFor(cpus[c], d)) + One(!DueFor(v, d))
  {
    if c > 0 {
      EarlyUpdate(cpus[1..], c - 1, v, d);
      assert cpus[c := v][1..] == cpus[1..][c - 1 := v];
    } else {
      assert cpus[0 := v][1..] == cpus[1..];
    }
  }

  /** An earlier deadline makes no reading early, and one fewer if it makes CPU h's reading good. */
  lemma {:induction false} EarlyFalls(cpus: seq<Cpu>, d: nat, d': nat)
    requires d' <= d
    ensures EarlyCpus(cpus, d') <= EarlyCpus(cpus, d)
    ensures forall h | 0 <= h < |cpus| ::
      EarlyCpus(cpus, d') + One(!DueFor(cpus[h], d) && DueFor(cpus[h], d')) <= EarlyCpus(cpus, d)
  {
    if cpus != [] {
      EarlyFalls(cpus[1..], d, d');
      assert forall h | 1 <= h < |cpus| :: cpus[h] == cpus[1..][h - 1];
    }
  }

  // ---- steps -------------------------------------------------------------

  /** Neither the entries ahead nor the budget grow. */
  predicate NoLoss(s: State, s': State, th: nat)
    requires th < |s.threads|
  {
    th < |s'.threads| && AheadOf(s', th) <= AheadOf(s, th) && Budget(s', th) <= Budget(s, th)
  }

  /** Steps that leave the list, the lock, its holder and `running` alone, and may bring th's deadline forward. */
  lemma BudgetFrame(s: State, s': State, th: nat)
    requires ListOk(s) && th < |s.threads|
    requires s'.list == s.list && s'.holder == s.holder && s'.cpus == s.cpus && |s.threads| <= |s'.threads|
    requires forall e | 0 <= e < |s.threads| :: s'.threads[e].running == s.threads[e].running
    requires s'.threads[th].deadline <= s.threads[th].deadline
    ensures NoLoss(s, s', th) && AheadOf(s', th) == AheadOf(s, th)
  {
    BeforePrefix(s.list, th);
    forall e | e in Before(s.list, th) ensures e < |s.threads| { assert e in s.list; }
    CountSame(s.threads, s'.threads, Before(s.list, th));
    EarlyFalls(s.cpus, s.threads[th].deadline, s'.threads[th].deadline);
  }

  lemma CallBudget(s: State, a: ClientStep, th: nat)
    requires Inv(s) && ClientEnabled(s, a) && Ready(s, th)
    ensures NoLoss(s, ApplyClient(s, a), th)
  {
    var s' := ApplyClient(s, a);
    CallFrame(s, a);
    BudgetFrame(s, s'.(list := s.list), th);
    if a.Enqueue? { BeforeSnoc(s.list, a.th, th); EnqueuePast(s, a.th, th); }
  }

  lemma EnqueuePast(s: State, e: nat, th: nat)
    requires Inv(s) && ClientEnabled(s, Enqueue(e)) && Ready(s, th)
    ensures Stale(ApplyClient(s, Enqueue(e)), th) == Stale(s, th)
  {
  }

  lemma CallFrame(s: State, a: ClientStep)
    requires ClientEnabled(s, a)
    ensures var s' := ApplyClient(s, a);
            && (!a.Enqueue? ==> s'.list == s.list) && s'.holder == s.holder && s'.cpus == s.cpus
            && |s.threads| <= |s'.threads|
    ensures var s' := ApplyClient(s, a);
            forall e | 0 <= e < |s.threads| ::
              s'.threads[e].running == s.threads[e].running && s'.threads[e].deadline <= s.threads[e].deadline
  {
    var s' := ApplyClient(s, a);
    assert |s.threads| <= |s'.threads|;
    forall e | 0 <= e < |s.threads|
      ensures s'.threads[e].running == s.threads[e].running && s'.threads[e].deadline <= s.threads[e].deadline
    {
    }
  }

  lemma ExecBudget(s: State, c: nat, a: ExecStep, th: nat)
    requires Inv(s) && ExecEnabled(s, c, a) && th < |s.threads| && !s.threads[th].running
    ensures NoLoss(s, ApplyExec(s, c, a), th)
  {
    RunsAlone(s, c);
    ExecFrame(s, c, a);
    BudgetFrame(s, ApplyExec(s, c, a), th);
  }

  lemma ExecFrame(s: State, c: nat, a: ExecStep)
    requires ExecEnabled(s, c, a)
    ensures var s' := ApplyExec(s, c, a);
            && s'.list == s.list && s'.holder == s.holder && s'.cpus == s.cpus && |s.threads| <= |s'.threads|
            && (forall e | 0 <= e < |s.threads| :: s'.threads[e].running == s.threads[e].running)
            && (forall e | 0 <= e < |s.threads| && e != s.cpus[c].th :: s'.threads[e].deadline == s.threads[e].deadline)
  {
  }

  lemma GcBudget(s: State, a: GcStep, th: nat)
    requires Inv(s) && GcEnabled(s, a) && Ready(s, th) && Ready(ApplyGc(s, a), th)
    ensures NoLoss(s, ApplyGc(s, a), th)
  {
    var s' := ApplyGc(s, a);
    GcFrame(s, a);
    if a.GcUnlink? && s.threads[s.gc.th].inScheduler {
      var u := s.gc.th;
      WithoutMembers(s.list, u);
      assert u != th;
      BeforeWithout(s.list, u, th);
      CountWithout(s.threads, Before(s.list, th), u);
      assert s.holder.None?;
    } else {
      BudgetFrame(s, s', th);
    }
  }

  lemma GcFrame(s: State, a: GcStep)
    requires GcEnabled(s, a)
    ensures var s' := ApplyGc(s, a);
            && s'.holder == s.holder && s'.cpus == s.cpus && |s.threads| <= |s'.threads|
            && (!(a.GcUnlink? && s.threads[s.gc.th].inScheduler) ==> s'.list == s.list)
            && (forall e | 0 <= e < |s.threads| ::
                  s'.threads[e].running == s.threads[e].running && s'.threads[e].deadline == s.threads[e].deadline)
  {
  }

  /** Sections of Switch that neither reorder the list nor change `running`. */
  lemma ScanBudget(s: State, c: nat, a: SwitchStep, th: nat)
    requires Inv(s) && SwitchEnabled(s, c, a) && !a.Seize? && !Completes(s, Sched(c, a))
    requires Ready(s, th) && !s.threads[th].running
    ensures NoLoss(s, ApplySwitch(s, c, a), th)
  {
    var s' := ApplySwitch(s, c, a);
    ScanFrame(s, c, a, s.threads[th].deadline);
    BudgetFrame(s, s'.(cpus := s.cpus), th);
    EarlyUpdate(s.cpus, c, s'.cpus[c], s.threads[th].deadline);
    CursorMoves(s, c, a, th);
  }

  /** They also keep the clock value they work with; a new one is read from the clock. */
  lemma ScanFrame(s: State, c: nat, a: SwitchStep, deadline: nat)
    requires SwitchEnabled(s, c, a) && !a.Seize? && !Completes(s, Sched(c, a)) && deadline <= s.clock
    ensures var s' := ApplySwitch(s, c, a);
            && s'.list == s.list && s'.holder == s.holder && |s.threads| == |s'.threads|
            && |s'.cpus| == |s.cpus| && s'.cpus == s.cpus[c := s'.cpus[c]]
            && (!DueFor(s'.cpus[c], deadline) ==> !DueFor(s.cpus[c], deadline))
            && (forall e | 0 <= e < |s.threads| ::
                  s'.threads[e].running == s.threads[e].running && s'.threads[e].deadline == s.threads[e].deadline)
  {
  }

  /** A scan that could pick a ready thread goes past it only if it already has. */
  lemma CursorMoves(s: State, c: nat, a: SwitchStep, th: nat)
    requires Inv(s) && SwitchEnabled(s, c, a) && !a.Seize? && !Completes(s, Sched(c, a))
    requires Ready(s, th) && !s.threads[th].running
    ensures th < |ApplySwitch(s, c, a).threads| && (Stale(ApplySwitch(s, c, a), th) ==> Stale(s, th))
  {
    var v := s.cpus[c];
    assert CpuOk(s, c);
    match a
    case TryRetain =>
      assert s.list[..v.i + 1] == s.list[..v.i] + [s.list[v.i]];
    case Decide =>
      assert s.list[..v.i + 1] == s.list[..v.i] + [s.list[v.i]];
    case _ =>
  }

  lemma SeizeBudget(s: State, c: nat, th: nat)
    requires Inv(s) && SwitchEnabled(s, c, Seize) && Ready(s, th) && !s.threads[th].running
    ensures NoLoss(s, ApplySwitch(s, c, Seize), th)
  {
    var v, s' := s.cpus[c], ApplySwitch(s, c, Seize);
    assert CpuOk(s, c);
    EarlyUpdate(s.cpus, c, s'.cpus[c], s.threads[th].deadline);
    if v.cur.Some? {
      var u := v.cur.value;
      ExecutorAlone(s, c, u);
      SeizeAhead(s, c, th);
    }
  }

  /** The resigned thread was running, so its move to the back leaves the same entries waiting ahead. */
  lemma SeizeAhead(s: State, c: nat, th: nat)
    requires Inv(s) && SwitchEnabled(s, c, Seize) && Ready(s, th) && !s.threads[th].running
    requires s.cpus[c].cur.Some? && s.threads[s.cpus[c].cur.value].running
    ensures AheadOf(ApplySwitch(s, c, Seize), th) <= AheadOf(s, th)
  {
    var u := s.cpus[c].cur.value;
    var l := Without(s.list, u);
    WithoutMembers(s.list, u);
    BeforeSnoc(l, u, th);
    BeforeWithout(s.list, u, th);
    CountWithout(s.threads, Before(s.list, th), u);
    BeforePrefix(l, th);
    forall e | e in Before(l, th) ensures e in l { }
    CountSame(s.threads, ApplySwitch(s, c, Seize).threads, Before(l, th));
  }

  /** Ending a call of Switch without dispatching th uses up one unit of the budget. */
  lemma CompletionBudget(s: State, c: nat, a: SwitchStep, th: nat)
    requires Inv(s) && SwitchEnabled(s, c, a) && Completes(s, Sched(c, a))
    requires Ready(s, th) && !s.threads[th].running && !ApplySwitch(s, c, a).threads[th].running
    ensures NoLoss(s, ApplySwitch(s, c, a), th) && Budget(ApplySwitch(s, c, a), th) + 1 <= Budget(s, th)
  {
    var v, s' := s.cpus[c], ApplySwitch(s, c, a);
    assert CpuOk(s, c);
    EarlyUpdate(s.cpus, c, s'.cpus[c], s.threads[th].deadline);
    if a.EndScan? {
      assert s.list[..v.i] == s.list;
    } else {
      PickAhead(s, c, th);
    }
  }

  /** The picked thread waited ahead of th unless the scan had gone past th. */
  lemma PickAhead(s: State, c: nat, th: nat)
    requires Inv(s) && SwitchEnabled(s, c, Decide) && Completes(s, Sched(c, Decide)) && s.cpus[c].th != th
      && th in s.list
    ensures var v := s.cpus[c]; var s' := ApplySwitch(s, c, Decide);
            CpuOk(s, c) && v.i < |s.list|
            && AheadOf(s', th) == AheadOf(s, th) - One(th !in s.list[..v.i])
  {
    var v := s.cpus[c];
    assert CpuOk(s, c);
    BeforePrefix(s.list, th);
    BeforeIndex(s.list, th, v.i);
    CountUpdate(s.threads, Before(s.list, th), v.th, s.threads[v.th].(running := true));
    assert s.list[..v.i + 1] == s.list[..v.i] + [s.list[v.i]];
  }

  /** A step in which a ready thread stays undispatched never raises the budget, and a finished Switch lowers it. */
  lemma StepBudget(s: State, a: Step, th: nat)
    requires Inv(s) && Enabled(s, a)
    requires Ready(s, th) && !s.threads[th].running
    requires Ready(Apply(s, a), th) && !Apply(s, a).threads[th].running
    ensures AheadOf(Apply(s, a), th) <= AheadOf(s, th)
    ensures Budget(Apply(s, a), th) + One(Completes(s, a)) <= Budget(s, th)
  {
    match a
    case Call(b) => CallBudget(s, b, th);
    case Exec(c, b) => ExecBudget(s, c, b, th);
    case Sched(c, b) =>
      if Completes(s, a) { CompletionBudget(s, c, b, th); }
      else if b.Seize? { SeizeBudget(s, c, th); }
      else { ScanBudget(s, c, b, th); }
    case Collect(b) => GcBudget(s, b, th);
    case Tick =>
  }

  // ---- runs --------------------------------------------------------------

  /** How many calls of Switch finish in steps i..j, on all CPUs together. */
  function Completions(r: Run, i: nat, j: nat): nat
    requires i <= j <= |r.steps| < |r.states|
    decreases j
  {
    if i == j then 0 else Completions(r, i, j - 1) + One(Completes(r.states[j - 1], r.steps[j - 1]))
  }

  predicate Undispatched(s: State, th: nat) {
    Ready(s, th) && !s.threads[th].running
  }

  predicate Spends(r: Run, th: nat, m: nat)
    requires m < |r.steps| < |r.states|
  {
    && th < |r.states[m].threads| && th < |r.states[m + 1].threads|
    && AheadOf(r.states[m + 1], th) <= AheadOf(r.states[m], th)
    && Budget(r.states[m + 1], th) + One(Completes(r.states[m], r.steps[m])) <= Budget(r.states[m], th)
  }

  lemma RunSpends(r: Run, i: nat, j: nat, th: nat)
    requires IsRun(r) && i <= j < |r.states|
    requires forall m | i <= m <= j :: Undispatched(r.states[m], th)
    ensures forall m | i <= m < j :: Spends(r, th, m)
  {
    forall m | i <= m < j ensures Spends(r, th, m) {
      RunInv(r, m);
      assert Undispatched(r.states[m], th) && Undispatched(r.states[m + 1], th);
      StepBudget(r.states[m], r.steps[m], th);
    }
  }

  lemma {:induction false} BudgetSpent(r: Run, i: nat, j: nat, th: nat)
    requires i <= j <= |r.steps| < |r.states| && th < |r.states[i].threads|
    requires forall m | i <= m < j :: Spends(r, th, m)
    ensures th < |r.states[j].threads| && AheadOf(r.states[j], th) <= AheadOf(r.states[i], th)
    ensures Completions(r, i, j) + Budget(r.states[j], th) <= Budget(r.states[i], th)
  {
    if i < j {
      BudgetSpent(r, i, j - 1, th);
      assert Spends(r, th, j - 1);
    }
  }

  /**
   * Bounded bypass.  Let th stay ready from state i to state j.  If more calls of Switch finish in
   * between than there are waiting entries ahead of th at i, then th was dispatched; a Switch in
   * progress at i may add one to that bound, and so may each CPU whose Switch had read the clock
   * before th's deadline.
   */
  lemma BoundedBypass(r: Run, i: nat, j: nat, th: nat)
    requires IsRun(r) && i <= j < |r.states|
    requires forall m | i <= m <= j :: Ready(r.states[m], th)
    requires var s := r.states[i]; Completions(r, i, j) > AheadOf(s, th) + One(s.holder.Some?) + TooEarly(s, th)
    ensures exists m | i <= m <= j :: Ready(r.states[m], th) && r.states[m].threads[th].running
  {
    if forall m | i <= m <= j :: Undispatched(r.states[m], th) {
      RunSpends(r, i, j, th);
      assert Undispatched(r.states[i], th);
      BudgetSpent(r, i, j, th);
    }
  }

  /**
   * While th waits, the number of waiting entries ahead of it never rises, whatever the other CPUs
   * do, and every Switch that finishes lowers it, but for one that had begun too early for th.
   */
  lemma NeverOvertaken(r: Run, i: nat, j: nat, th: nat)
    requires IsRun(r) && i <= j < |r.states| && r.states[i].holder.None?
    requires forall m | i <= m <= j :: Undispatched(r.states[m], th)
    ensures AheadOf(r.states[j], th) <= AheadOf(r.states[i], th)
    ensures AheadOf(r.states[j], th) + Completions(r, i, j) <= AheadOf(r.states[i], th) + TooEarly(r.states[i], th)
  {
    RunSpends(r, i, j, th);
    assert Undispatched(r.states[i], th);
    BudgetSpent(r, i, j, th);
  }
}
