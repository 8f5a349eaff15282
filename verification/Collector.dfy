/**
 * The collector's thread between its queue and its timeout.  It takes objects one at a time and
 * parks when there are none.  Deallocating an object may throw away more objects, and may make the
 * thread wait for something else, which uses the same deadline.  Anyone may add an object at any
 * moment.
 */
module Collector {
  import opened Common

  /** What objectsLock guards, with the deadline of the collector's thread. */
  datatype Queue<T> = Queue(objects: seq<T>, deadline: nat)

  /** Append, and make sure the collector's thread is not left sleeping. */
  function Added<T>(q: Queue<T>, o: T): Queue<T> {
    Queue(q.objects + [o], 0)
  }

  /** Take the oldest object, or prepare to park when there is none. */
  function Shifted<T>(q: Queue<T>): Queue<T> {
    if q.objects == [] then q.(deadline := INFINITE) else q.(objects := q.objects[1..])
  }

  /** At the top of the loop, parked for want of objects, deallocating, or waiting inside a deallocation. */
  datatype Mode = Looking | Parked | Working | Waiting

  /** `added` and `taken` log what was thrown away and what was handed to Dealloc. */
  datatype State = State(queue: Queue<nat>, mode: Mode, clock: nat, added: seq<nat>, taken: seq<nat>)

  /** WaitInside and ClearInside are a lock's SetTimeout and ClearTimeout on the collector's thread. */
  datatype Step = Add(o: nat) | Take | Wake | Done | WaitInside(deadline: nat) | ClearInside | Resume | Tick(now: nat)

  predicate Enabled(s: State, x: Step) {
    match x
    case Add(_) => true
    case Take => s.mode.Looking?
    case Wake => s.mode.Parked? && s.queue.deadline <= s.clock
    case Done => s.mode.Working?
    case WaitInside(_) => s.mode.Working?
    case ClearInside => s.mode.Waiting?
    case Resume => s.mode.Waiting? && s.queue.deadline <= s.clock
    case Tick(now) => s.clock <= now
  }

  function Apply(s: State, x: Step): State {
    match x
    case Add(o) => s.(queue := Added(s.queue, o), added := s.added + [o])
    case Take =>
      if s.queue.objects == [] then s.(queue := Shifted(s.queue), mode := Parked)
      else s.(queue := Shifted(s.queue), mode := Working, taken := s.taken + [s.queue.objects[0]])
    case Wake => s.(mode := Looking)
    case Done => s.(mode := Looking)
    case WaitInside(d) => s.(queue := s.queue.(deadline := d), mode := Waiting)
    case ClearInside => s.(queue := s.queue.(deadline := 0))
    case Resume => s.(mode := Working)
    case Tick(now) => s.(clock := now)
  }

  datatype Run = Run(states: seq<State>, steps: seq<Step>)

  predicate IsRun(r: Run) {
    && |r.states| == |r.steps| + 1
    && r.states[0].queue.objects == [] && r.states[0].added == [] && r.states[0].taken == []
        && r.states[0].mode.Looking?
    && forall i | 0 <= i < |r.steps| ::
        Enabled(r.states[i], r.steps[i]) && r.states[i + 1] == Apply(r.states[i], r.steps[i])
  }

  /** Objects are taken in the order they were added, each exactly once, and the queue is the rest. */
  lemma {:induction false} TakenInOrder(r: Run, i: nat)
    requires IsRun(r) && i < |r.states|
    ensures r.states[i].added == r.states[i].taken + r.states[i].queue.objects
  {
    if i > 0 {
      var s, x := r.states[i - 1], r.steps[i - 1];
      TakenInOrder(r, i - 1);
      assert Enabled(s, x);
      if x.Take? && s.queue.objects != [] {
        assert s.queue.objects == [s.queue.objects[0]] + s.queue.objects[1..];
      }
    }
  }

  /** Parked on the infinite timeout means that the queue is empty: otherwise the wakeup is on its way. */
  lemma {:induction false} ParkedMeansEmpty(r: Run, i: nat)
    requires IsRun(r) && i < |r.states| && r.states[i].mode.Parked?
    ensures r.states[i].queue.deadline == if r.states[i].queue.objects == [] then INFINITE else 0
  {
    if i > 0 {
      assert Enabled(r.states[i - 1], r.steps[i - 1]);
      if r.states[i - 1].mode.Parked? { ParkedMeansEmpty(r, i - 1); }
    }
  }

  /** While there is work the collector can always go on, unless something else makes it wait. */
  lemma NeverStuck(r: Run, i: nat)
    requires IsRun(r) && i < |r.states| && r.states[i].queue.objects != [] && !r.states[i].mode.Waiting?
    ensures Enabled(r.states[i], Take) || Enabled(r.states[i], Wake) || Enabled(r.states[i], Done)
  {
    if r.states[i].mode.Parked? { ParkedMeansEmpty(r, i); }
  }

  /**
   * What the steps before state j have left the deadline at: 0 by whoever adds an object, infinite
   * when the collector parks, and otherwise what a wait inside a Dealloc and its waker make it.
   */
  function Timeout(r: Run, j: nat): nat
    requires j <= |r.steps| < |r.states|
    decreases j
  {
    if j == 0 then r.states[0].queue.deadline
    else
      match r.steps[j - 1]
      case Add(_) => 0
      case Take => if r.states[j].mode.Parked? then INFINITE else Timeout(r, j - 1)
      case WaitInside(d) => d
      case ClearInside => 0
      case _ => Timeout(r, j - 1)
  }

  /** In particular a Take that finds an object leaves the deadline alone. */
  lemma {:induction false} DeadlineExactly(r: Run, j: nat)
    requires IsRun(r) && j < |r.states|
    ensures r.states[j].queue.deadline == Timeout(r, j)
  {
    if j > 0 {
      DeadlineExactly(r, j - 1);
      assert Enabled(r.states[j - 1], r.steps[j - 1]);
    }
  }

  /** How often a step of the given kind was made: an end of a Dealloc, a wait inside one, a return from it. */
  function Dones(r: Run, j: nat): nat
    requires j <= |r.steps|
  {
    if j == 0 then 0 else Dones(r, j - 1) + One(r.steps[j - 1].Done?)
  }

  function Waits(r: Run, j: nat): nat
    requires j <= |r.steps|
  {
    if j == 0 then 0 else Waits(r, j - 1) + One(r.steps[j - 1].WaitInside?)
  }

  function Resumes(r: Run, j: nat): nat
    requires j <= |r.steps|
  {
    if j == 0 then 0 else Resumes(r, j - 1) + One(r.steps[j - 1].Resume?)
  }

  /**
   * One object at a time: a Dealloc has ended for every object taken but the one at hand, and it
   * waits exactly between a wait and the return from it.
   */
  lemma {:induction false} DeallocsFinish(r: Run, j: nat)
    requires IsRun(r) && j < |r.states|
    ensures |r.states[j].taken| == Dones(r, j) + One(r.states[j].mode.Working? || r.states[j].mode.Waiting?)
    ensures Waits(r, j) == Resumes(r, j) + One(r.states[j].mode.Waiting?)
  {
    if j > 0 {
      DeallocsFinish(r, j - 1);
      assert Enabled(r.states[j - 1], r.steps[j - 1]);
    }
  }

  function Takes(r: Run, i: nat, j: nat): nat
    requires i <= j <= |r.steps|
    decreases j
  {
    if i == j then 0 else Takes(r, i, j - 1) + if r.steps[j - 1].Take? then 1 else 0
  }

  /** Every turn of the loop takes an object while one added before i is still queued. */
  lemma {:induction false} NoTurnWasted(r: Run, i: nat, j: nat)
    requires IsRun(r) && i <= j < |r.states|
    ensures r.states[i].added <= r.states[j].added && r.states[i].taken <= r.states[j].taken
    ensures |r.states[j].taken| >= |r.states[i].added| || |r.states[j].taken| >= |r.states[i].taken| + Takes(r, i, j)
  {
    if i < j {
      NoTurnWasted(r, i, j - 1);
      assert Enabled(r.states[j - 1], r.steps[j - 1]);
      TakenInOrder(r, j - 1);
    }
  }

  /** So an object with k others ahead of it is handed to Dealloc within k + 1 turns of the loop. */
  lemma TakenWithinTurns(r: Run, i: nat, j: nat, k: nat)
    requires IsRun(r) && i <= j < |r.states| && k < |r.states[i].queue.objects| && Takes(r, i, j) > k
    ensures |r.states[i].taken| + k < |r.states[j].taken|
    ensures r.states[j].taken[|r.states[i].taken| + k] == r.states[i].queue.objects[k]
  {
    NoTurnWasted(r, i, j);
    TakenInOrder(r, i);
    TakenInOrder(r, j);
    var n := |r.states[i].taken| + k;
    assert r.states[j].taken[n] == r.states[j].added[n] == r.states[i].added[n];
  }
}
