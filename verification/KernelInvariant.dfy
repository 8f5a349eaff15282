/**
 * What every reachable kernel state satisfies.
 *
 * The counts of tasks and threads are tied to what is outstanding: callers, CPUs between two
 * sections of Switch, scopes, and threads thrown away.  Each clause is a predicate of one object
 * (`SumOk`, `CountOk`, `FateOk`, `TaskOk`, `CpuOk`), so that a step only has to look at the objects
 * it touches.  `Hand` is the reference that a step holds while it is half done.
 */
module KernelInvariant {
  import opened Common
  import opened TaskCounters
  import opened ThreadCounters
  import opened Kernel

  /** A reference taken by the section in progress but not yet given to its owner, or the reverse. */
  datatype Hand = Empty | TaskRef(t: nat) | TaskHold(t: nat) | ThreadRef(th: nat)

  // ---- who refers to what ----

  /** The thread a CPU keeps retained. */
  predicate Refers(v: Cpu, th: nat) {
    match v
    case Idle => false
    case Scanning(_, _) => false
    case Waiting(cur, _) => cur == Some(th)
    case _ => v.th == th
  }

  /** The thread a CPU has picked or is executing. */
  predicate Executes(v: Cpu, th: nat) {
    (v.Running? && v.th == th) || (v.Picked? && v.th == th) || (v.Waiting? && v.cur == Some(th))
  }

  function References(cpus: seq<Cpu>, th: nat): nat {
    if cpus == [] then 0 else One(Refers(cpus[0], th)) + References(cpus[1..], th)
  }

  function Executions(cpus: seq<Cpu>, th: nat): nat {
    if cpus == [] then 0 else One(Executes(cpus[0], th)) + Executions(cpus[1..], th)
  }

  /** Task references a thread accounts for: one per reference to it, one while it is thrown away. */
  function RetainShare(r: ThreadRec, t: nat): int {
    if r.task == t then r.counts.retainCount + One(r.fate.Thrown?) else 0
  }

  predicate InScope(r: ThreadRec) {
    r.depth > 0 && !r.flow.Yielding?
  }

  function HoldShare(r: ThreadRec, t: nat): int {
    One(r.task == t && InScope(r))
  }

  function RetainSum(rs: seq<ThreadRec>, t: nat): int {
    if rs == [] then 0 else RetainShare(rs[0], t) + RetainSum(rs[1..], t)
  }

  function HoldSum(rs: seq<ThreadRec>, t: nat): int {
    if rs == [] then 0 else HoldShare(rs[0], t) + HoldSum(rs[1..], t)
  }

  // ---- the invariant ----

  /** Facts about one thread record on its own. */
  predicate LocalOk(r: ThreadRec) {
    && r.counts.retainCount >= 0
    && (r.inScheduler ==> r.enqueued) && (r.enqueued ==> r.inTask)
    && (!r.inScheduler ==> r.clients >= 1)
    && (r.running ==> r.enqueued && r.counts.retainCount >= 1)
    && r.clients <= r.counts.retainCount
    && (r.counts.killed <==> r.flow.KillingTask? || r.flow.Unholding? || r.flow.Yielding?)
    && (r.flow.KillingTask? || r.flow.Unholding? ==> r.depth > 0 && r.running)
    && (r.flow.KillingSelf? ==> r.depth == 0)
    && (r.flow.Normal? ==> (r.holdingTask <==> r.depth > 0))
    && (r.fate.Active? ==> r.listed == r.inTask && !LastOfKilled(r.counts))
    && (!r.fate.Active? ==> r.counts.retainCount == 0)
    && (r.fate.Thrown? || r.fate.Detached? ==> r.counts.killed)
    && (r.counts.killed && (r.fate.Detached? || r.fate.Freed?) ==> !r.listed)
  }

  predicate ThreadsOk(s: State) {
    forall th | 0 <= th < |s.threads| :: s.threads[th].task < |s.tasks| && LocalOk(s.threads[th])
  }

  predicate CountOk(s: State, x: Hand, th: nat)
    requires th < |s.threads|
  {
    && s.threads[th].counts.retainCount == s.threads[th].clients + References(s.cpus, th) + One(x == ThreadRef(th))
    && Executions(s.cpus, th) == One(s.threads[th].running)
  }

  /** Each thread's count is its callers' references plus the CPUs'; `running` marks exactly one CPU. */
  predicate CountsOk(s: State, x: Hand) {
    forall th | 0 <= th < |s.threads| :: CountOk(s, x, th)
  }

  predicate Scheduled(s: State, th: nat) {
    th < |s.threads| && s.threads[th].enqueued
  }

  predicate CpuOk(s: State, c: nat)
    requires c < |s.cpus|
  {
    var v := s.cpus[c];
    && (s.holder == Some(c) <==> v.Resigned? || v.Scanning? || v.Checking? || v.Skipping?)
    && match v
       case Idle => true
       case Running(th) => Scheduled(s, th)
       case Waiting(cur, _) => cur.Some? ==> Scheduled(s, cur.value) && Preemptible(s.threads[cur.value].flow)
       case Resigned(th, _) => Scheduled(s, th)
       case Scanning(i, _) => i <= |s.list|
       case Checking(i, th, _) => Scheduled(s, th) && i < |s.list| && s.list[i] == th
       case Skipping(i, th, _) => Scheduled(s, th) && i < |s.list| && s.list[i] == th
       case Picked(th) => Scheduled(s, th)
  }

  predicate CpusOk(s: State) {
    forall c | 0 <= c < |s.cpus| :: CpuOk(s, c)
  }

  predicate SumOk(s: State, x: Hand, t: nat)
    requires t < |s.tasks|
  {
    var k := s.tasks[t];
    && k.counts.retainCount == k.direct + RetainSum(s.threads, t) + One(x == TaskRef(t))
    && k.counts.holdCount == One(k.creatorHold) + HoldSum(s.threads, t) + One(x == TaskHold(t))
  }

  /** Reference conservation, for both counters of every task. */
  predicate SumsOk(s: State, x: Hand) {
    forall t | 0 <= t < |s.tasks| :: SumOk(s, x, t)
  }

  /** The entries the run list must have: everything enqueued that the collector has not unlinked. */
  predicate Linked(gc: Gc, th: nat, r: ThreadRec) {
    && r.enqueued
    && (r.fate.Active? || r.fate.Thrown?)
    && !(gc.GcThread? && gc.th == th && !gc.stage.Unlink?)
  }

  predicate ListOk(s: State) {
    && Distinct(s.list)
    && (forall e | e in s.list :: e < |s.threads| && Linked(s.gc, e, s.threads[e]))
    && (forall th | 0 <= th < |s.threads| && Linked(s.gc, th, s.threads[th]) :: th in s.list)
  }

  /** Everything ever thrown away, in order. */
  function History(s: State): seq<Obj> {
    s.taken + s.queue
  }

  predicate ThrownOnce(s: State, o: Obj) {
    match o
    case ATask(t) => t < |s.tasks| && Spent(s.tasks[t].counts)
    case AThread(th) => th < |s.threads| && LastOfKilled(s.threads[th].counts)
  }

  /** The collector is deallocating task t. */
  predicate OnTask(gc: Gc, t: nat) {
    match gc
    case GcIdle => false
    case GcThread(_, _, w) => w.Inside? && w.t == t
    case GcTask(t', _) => t' == t
    case GcTaskDelete(t') => t' == t
  }

  predicate OnThread(gc: Gc, th: nat) {
    gc.GcThread? && gc.within.Alone? && gc.th == th
  }

  ghost predicate QueueOk(s: State) {
    && Distinct(History(s))
    && (forall o :: o in History(s) <==> ThrownOnce(s, o))
  }

  predicate FateOk(s: State, th: nat)
    requires th < |s.threads|
  {
    var r := s.threads[th];
    && (AThread(th) in s.queue ==> r.fate.Thrown? && !OnThread(s.gc, th))
    && (r.fate.Thrown? ==> AThread(th) in s.queue || OnThread(s.gc, th))
    && (r.fate.Detached? ==> s.gc == GcThread(th, Delete, Alone))
    && (r.fate.Freed? && !r.counts.killed ==> r.task < |s.tasks| && (s.tasks[r.task].freed || OnTask(s.gc, r.task)))
    && (r.task < |s.tasks| && s.tasks[r.task].freed ==> r.fate.Freed?)
  }

  predicate TaskOk(s: State, t: nat)
    requires t < |s.tasks|
  {
    var k := s.tasks[t];
    && k.counts.retainCount >= 0 && k.counts.holdCount >= 0
    && (ATask(t) in s.queue ==> !k.freed && !OnTask(s.gc, t))
    && (k.freed ==> Spent(k.counts) && !k.listed && !OnTask(s.gc, t))
    && (Spent(k.counts) && !k.freed ==> ATask(t) in s.queue || OnTask(s.gc, t))
  }

  predicate FatesOk(s: State) {
    && (forall th | 0 <= th < |s.threads| :: FateOk(s, th))
    && (forall t | 0 <= t < |s.tasks| :: TaskOk(s, t))
  }

  /** The threads Task::Dealloc still has to delete are exactly the undeleted ones, and are unkilled. */
  predicate TodoOk(s: State, t: nat, todo: set<nat>) {
    && t < |s.tasks| && Spent(s.tasks[t].counts) && !s.tasks[t].freed
    && (forall th | th in todo :: th < |s.threads| && s.threads[th].task == t && s.threads[th].fate.Active?)
    && (forall th | 0 <= th < |s.threads| && s.threads[th].task == t && !s.threads[th].fate.Freed? :: th in todo)
  }

  predicate GcOk(s: State) {
    match s.gc
    case GcIdle => true
    case GcThread(th, stage, Alone) =>
      && th < |s.threads| && LastOfKilled(s.threads[th].counts)
      && (if stage.Delete? then s.threads[th].fate.Detached? else s.threads[th].fate.Thrown?)
      && (stage.ReleaseTask? ==> !s.threads[th].listed)
    case GcThread(th, stage, Inside(t, todo)) =>
      && (stage.Unlink? || stage.Delete?)
      && th !in todo && TodoOk(s, t, todo + {th})
    case GcTask(t, todo) => TodoOk(s, t, todo)
    case GcTaskDelete(t) => TodoOk(s, t, {}) && !s.tasks[t].listed
  }

  /** The invariant while the section in progress has `x` in hand. */
  ghost predicate Holding(s: State, x: Hand) {
    && ThreadsOk(s)
    && CountsOk(s, x)
    && CpusOk(s)
    && SumsOk(s, x)
    && ListOk(s)
    && QueueOk(s)
    && FatesOk(s)
    && GcOk(s)
  }

  ghost predicate Inv(s: State) {
    Holding(s, Empty)
  }

  // ---- counting lemmas ----

  lemma {:induction false} ReferencesUpdate(cpus: seq<Cpu>, c: nat, v: Cpu)
    requires c < |cpus|
    ensures forall th: nat ::
      References(cpus[c := v], th) == References(cpus, th) - One(Refers(cpus[c], th)) + One(Refers(v, th))
    ensures forall th: nat ::
      Executions(cpus[c := v], th) == Executions(cpus, th) - One(Executes(cpus[c], th)) + One(Executes(v, th))
  {
    if c > 0 {
      ReferencesUpdate(cpus[1..], c - 1, v);
      assert cpus[c := v][1..] == cpus[1..][c - 1 := v];
    } else {
      assert cpus[0 := v][1..] == cpus[1..];
    }
  }

  lemma {:induction false} ReferencesAtLeast(cpus: seq<Cpu>, th: nat)
    ensures forall c | 0 <= c < |cpus| && Refers(cpus[c], th) :: References(cpus, th) >= 1
    ensures Executions(cpus, th) <= References(cpus, th)
    ensures (forall c | 0 <= c < |cpus| :: !Refers(cpus[c], th)) ==> References(cpus, th) == 0
  {
    if cpus != [] {
      ReferencesAtLeast(cpus[1..], th);
      assert forall c | 1 <= c < |cpus| :: cpus[c] == cpus[1..][c - 1];
    }
  }

  lemma {:induction false} ExecutesOnce(cpus: seq<Cpu>, th: nat, c: nat, d: nat)
    requires c < d < |cpus| && Executes(cpus[c], th) && Executes(cpus[d], th)
    ensures Executions(cpus, th) >= 2
  {
    if c > 0 {
      ExecutesOnce(cpus[1..], th, c - 1, d - 1);
    } else {
      ExecutesSome(cpus[1..], th, d - 1);
    }
  }

  lemma {:induction false} ExecutesSome(cpus: seq<Cpu>, th: nat, c: nat)
    requires c < |cpus| && Executes(cpus[c], th)
    ensures Executions(cpus, th) >= 1
  {
    if c > 0 { ExecutesSome(cpus[1..], th, c - 1); }
  }

  lemma {:induction false} SumsUpdate(rs: seq<ThreadRec>, th: nat, r: ThreadRec)
    requires th < |rs|
    ensures forall t: nat :: RetainSum(rs[th := r], t) == RetainSum(rs, t) - RetainShare(rs[th], t) + RetainShare(r, t)
    ensures forall t: nat :: HoldSum(rs[th := r], t) == HoldSum(rs, t) - HoldShare(rs[th], t) + HoldShare(r, t)
  {
    if th > 0 {
      SumsUpdate(rs[1..], th - 1, r);
      assert rs[th := r][1..] == rs[1..][th - 1 := r];
    } else {
      assert rs[0 := r][1..] == rs[1..];
    }
  }

  lemma {:induction false} SumsSnoc(rs: seq<ThreadRec>, r: ThreadRec)
    ensures forall t: nat :: RetainSum(rs + [r], t) == RetainSum(rs, t) + RetainShare(r, t)
    ensures forall t: nat :: HoldSum(rs + [r], t) == HoldSum(rs, t) + HoldShare(r, t)
  {
    if rs != [] {
      SumsSnoc(rs[1..], r);
      assert (rs + [r])[1..] == rs[1..] + [r];
    } else {
      assert (rs + [r])[1..] == [];
    }
  }

  /** A task's sums bound each thread's share. */
  lemma {:induction false} SumsBound(rs: seq<ThreadRec>, t: nat)
    requires forall i | 0 <= i < |rs| :: rs[i].counts.retainCount >= 0
    ensures RetainSum(rs, t) >= 0 && HoldSum(rs, t) >= 0
    ensures forall i | 0 <= i < |rs| ::
      RetainShare(rs[i], t) <= RetainSum(rs, t) && HoldShare(rs[i], t) <= HoldSum(rs, t)
  {
    if rs != [] {
      SumsBound(rs[1..], t);
      assert forall i | 1 <= i < |rs| :: rs[i] == rs[1..][i - 1];
    }
  }
}
