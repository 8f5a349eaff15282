/**
 * Sleeping with a cancellation that may come at any moment.  A sleep runs in three locked
 * sections: it decides and parks, the scheduler dispatches it again once its deadline has passed,
 * and it takes the lock once more to leave.  Any thread may cancel between any two of these.
 */
module Sleep {
  import opened Common

  /** Where the thread is: outside a sleep, yielded inside one, or back from the yield but not yet out. */
  datatype Pc = Awake | Parked | Woken

  /** The two flags of the sleep state and the deadline in the thread's run-list entry. */
  datatype Flags = Flags(sleeping: bool, cancelled: bool, deadline: nat)

  datatype State = State(flags: Flags, pc: Pc, clock: nat)

  /**
   * Start is the first section of Sleep (`zero`: no nanoseconds asked for) or, with the infinite
   * deadline and `zero` false, of SleepInfinite.  SetOther is a timeout of another kind.
   */
  datatype Step = Start(zero: bool, deadline: nat) | Wake | Finish | Cancel | SetOther(deadline: nat) | Tick(now: nat)

  predicate ReturnsAtOnce(f: Flags, zero: bool) {
    f.cancelled || zero
  }

  /** Both flags and the deadline after the first section, which holds the lock until they are set. */
  function Started(f: Flags, zero: bool, deadline: nat): Flags {
    if ReturnsAtOnce(f, zero) then f.(cancelled := false) else f.(sleeping := true, deadline := deadline)
  }

  function Finished(f: Flags): Flags {
    f.(sleeping := false, cancelled := false)
  }

  function Cancelled(f: Flags): Flags {
    if !f.sleeping then f.(cancelled := true) else f.(deadline := 0)
  }

  predicate Enabled(s: State, x: Step) {
    match x
    case Start(_, _) => s.pc.Awake?
    case Wake => s.pc.Parked? && s.flags.deadline <= s.clock
    case Finish => s.pc.Woken?
    case Cancel => true
    case SetOther(_) => s.pc.Awake?
    case Tick(now) => s.clock <= now
  }

  function Apply(s: State, x: Step): State {
    match x
    case Start(zero, d) =>
      s.(flags := Started(s.flags, zero, d), pc := if ReturnsAtOnce(s.flags, zero) then Awake else Parked)
    case Wake => s.(pc := Woken)
    case Finish => s.(flags := Finished(s.flags), pc := Awake)
    case Cancel => s.(flags := Cancelled(s.flags))
    case SetOther(d) => s.(flags := s.flags.(deadline := d))
    case Tick(now) => s.(clock := now)
  }

  datatype Run = Run(states: seq<State>, steps: seq<Step>)

  predicate IsRun(r: Run) {
    && |r.states| == |r.steps| + 1
    && r.states[0].flags == Flags(false, false, r.states[0].flags.deadline) && r.states[0].pc.Awake?
    && forall i | 0 <= i < |r.steps| ::
        Enabled(r.states[i], r.steps[i]) && r.states[i + 1] == Apply(r.states[i], r.steps[i])
  }

  /** `sleeping` is set exactly inside a sleep, and then no cancellation is pending. */
  lemma {:induction false} SleepingExcludesCancelled(r: Run, i: nat)
    requires IsRun(r) && i < |r.states|
    ensures r.states[i].flags.sleeping <==> !r.states[i].pc.Awake?
    ensures r.states[i].flags.sleeping ==> !r.states[i].flags.cancelled
  {
    if i > 0 {
      SleepingExcludesCancelled(r, i - 1);
      assert Enabled(r.states[i - 1], r.steps[i - 1]);
    }
  }

  predicate NoStarts(r: Run, i: nat, j: nat) {
    forall k | i <= k < j && k < |r.steps| :: !r.steps[k].Start?
  }

  /** A cancellation that came while the thread was awake and that no sleep has consumed. */
  ghost predicate Owed(r: Run, j: nat) {
    exists k: nat :: CancelledAwake(r, k, j) && NoStarts(r, k + 1, j)
  }

  predicate CancelledAwake(r: Run, k: nat, j: nat) {
    k < j && k < |r.steps| && k < |r.states| && r.steps[k].Cancel? && !r.states[k].flags.sleeping
  }

  /** Whether a cancellation is owed depends only on whether one was owed before and on the last step. */
  lemma OwedStep(r: Run, i: nat)
    requires i < |r.steps| && i < |r.states|
    ensures Owed(r, i + 1) <==>
      !r.steps[i].Start? && (Owed(r, i) || (r.steps[i].Cancel? && !r.states[i].flags.sleeping))
  {
    if Owed(r, i + 1) {
      var k: nat :| CancelledAwake(r, k, i + 1) && NoStarts(r, k + 1, i + 1);
      if k < i { assert CancelledAwake(r, k, i) && NoStarts(r, k + 1, i); }
    }
    if !r.steps[i].Start? && Owed(r, i) {
      var k: nat :| CancelledAwake(r, k, i) && NoStarts(r, k + 1, i);
      assert CancelledAwake(r, k, i + 1) && NoStarts(r, k + 1, i + 1);
    }
    if r.steps[i].Cancel? && !r.states[i].flags.sleeping {
      assert CancelledAwake(r, i, i + 1) && NoStarts(r, i + 1, i + 1);
    }
  }

  /** `cancelled` records exactly the cancellations still owed: none is lost and none is invented. */
  lemma {:induction false} CancelledExactlyWhenOwed(r: Run, j: nat)
    requires IsRun(r) && j < |r.states|
    ensures r.states[j].flags.cancelled <==> Owed(r, j)
  {
    if j > 0 {
      CancelledExactlyWhenOwed(r, j - 1);
      SleepingExcludesCancelled(r, j - 1);
      assert Enabled(r.states[j - 1], r.steps[j - 1]);
      OwedStep(r, j - 1);
    }
  }

  /**
   * A sleep returns at once if and only if it asked for no time or a cancellation made before it
   * began is still owed; and it consumes that cancellation, so that a second sleep is not cut short.
   */
  lemma CancelBeforeSleep(r: Run, j: nat)
    requires IsRun(r) && j < |r.steps| && r.steps[j].Start?
    ensures r.states[j + 1].pc.Awake? <==> r.steps[j].zero || Owed(r, j)
    ensures !Owed(r, j + 1)
  {
    assert Enabled(r.states[j], r.steps[j]);
    CancelledExactlyWhenOwed(r, j);
    CancelledExactlyWhenOwed(r, j + 1);
  }

  predicate NoFinish(r: Run, i: nat, j: nat) {
    forall k | i <= k < j && k < |r.steps| :: !r.steps[k].Finish?
  }

  predicate CancelIn(r: Run, i: nat, j: nat) {
    exists k | i <= k < j && k < |r.steps| :: r.steps[k].Cancel?
  }

  /**
   * Throughout a sleep the deadline is the one it asked for until the first cancellation, and 0
   * from then on.
   */
  lemma {:induction false} CancelDuringSleep(r: Run, i: nat, j: nat)
    requires IsRun(r) && i < j < |r.states| && r.steps[i].Start? && r.states[i + 1].pc.Parked? && NoFinish(r, i + 1, j)
    ensures !r.states[j].pc.Awake?
    ensures r.states[j].flags.deadline == if CancelIn(r, i + 1, j) then 0 else r.steps[i].deadline
  {
    var k := j - 1;
    assert Enabled(r.states[k], r.steps[k]);
    if i < k {
      CancelDuringSleep(r, i, k);
      SleepingExcludesCancelled(r, k);
      if r.steps[k].Cancel? {
        assert CancelIn(r, i + 1, j);
      } else {
        assert CancelIn(r, i + 1, j) <==> CancelIn(r, i + 1, k);
      }
    }
  }

  /**
   * A parked sleep may wake if and only if its time has come or it was cancelled, and both stay
   * true until it does: the wakeup is never lost and never comes early.
   */
  lemma WakesExactlyWhenDue(r: Run, i: nat, j: nat)
    requires IsRun(r) && i < j < |r.states| && r.steps[i].Start? && r.states[i + 1].pc.Parked? && NoFinish(r, i + 1, j)
    requires r.states[j].pc.Parked?
    ensures Enabled(r.states[j], Wake) <==> CancelIn(r, i + 1, j) || r.steps[i].deadline <= r.states[j].clock
    ensures Enabled(r.states[j], Wake) && j < |r.steps| && r.states[j + 1].pc.Parked? ==> Enabled(r.states[j + 1], Wake)
  {
    CancelDuringSleep(r, i, j);
    if j < |r.steps| { assert Enabled(r.states[j], r.steps[j]); SleepingExcludesCancelled(r, j); }
  }

  // ---- the deadline and the clock ----------------------------------------

  /**
   * What the calls before state j have left the deadline at.  Only three things change it: a sleep
   * that parks, a timeout of another kind, and a cancellation of a sleep under way.
   */
  function Timeout(r: Run, j: nat): nat
    requires j <= |r.steps| < |r.states|
    decreases j
  {
    if j == 0 then r.states[0].flags.deadline
    else
      match r.steps[j - 1]
      case Start(_, d) => if r.states[j].pc.Parked? then d else Timeout(r, j - 1)
      case SetOther(d) => d
      case Cancel => if r.states[j - 1].pc.Awake? then Timeout(r, j - 1) else 0
      case _ => Timeout(r, j - 1)
  }

  /**
   * So a cancellation of an awake thread leaves the timeout on which it may be parked elsewhere, and
   * so do a sleep that returns at once and the end of a sleep.
   */
  lemma {:induction false} DeadlineExactly(r: Run, j: nat)
    requires IsRun(r) && j < |r.states|
    ensures r.states[j].flags.deadline == Timeout(r, j)
  {
    if j > 0 {
      DeadlineExactly(r, j - 1);
      SleepingExcludesCancelled(r, j - 1);
      assert Enabled(r.states[j - 1], r.steps[j - 1]);
    }
  }

  predicate ParkedAt(r: Run, k: nat, j: nat) {
    k < j && k < |r.steps| && k + 1 < |r.states| && r.steps[k].Start? && r.states[k + 1].pc.Parked?
  }

  /** A sleep began by parking and its last section has not run. */
  ghost predicate Asleep(r: Run, j: nat) {
    exists k: nat :: ParkedAt(r, k, j) && NoFinish(r, k + 1, j)
  }

  /** A sleep that parked is over when its last section has run, and not before. */
  lemma {:induction false} AsleepExactly(r: Run, j: nat)
    requires IsRun(r) && j < |r.states|
    ensures !r.states[j].pc.Awake? <==> Asleep(r, j)
  {
    if j > 0 {
      var i := j - 1;
      AsleepExactly(r, i);
      assert Enabled(r.states[i], r.steps[i]);
      if Asleep(r, i) && !r.steps[i].Finish? {
        var k: nat :| ParkedAt(r, k, i) && NoFinish(r, k + 1, i);
        assert ParkedAt(r, k, j) && NoFinish(r, k + 1, j);
      }
      if ParkedAt(r, i, j) { assert NoFinish(r, i + 1, j); }
      if Asleep(r, j) && !ParkedAt(r, i, j) {
        var k: nat :| ParkedAt(r, k, j) && NoFinish(r, k + 1, j);
        assert ParkedAt(r, k, i) && NoFinish(r, k + 1, i);
      }
    }
  }

  /** Sections that a sleep still has to run. */
  function SectionsLeft(p: Pc): nat {
    match p
    case Awake => 0
    case Woken => 1
    case Parked => 2
  }

  predicate Goes(x: Step) {
    x.Wake? || x.Finish?
  }

  /** Every sleep ends: once it is due it has a section to run, and each one brings its end nearer. */
  lemma SleepCompletes(r: Run, i: nat)
    requires IsRun(r) && i < |r.states|
    ensures var s := r.states[i];
            !s.pc.Awake? && s.flags.deadline <= s.clock ==> Enabled(s, Wake) || Enabled(s, Finish)
    ensures i < |r.steps| && Goes(r.steps[i]) ==>
              SectionsLeft(r.states[i + 1].pc) < SectionsLeft(r.states[i].pc)
  {
    if i < |r.steps| { assert Enabled(r.states[i], r.steps[i]); }
  }

  /** The clock shows what the last tick set it to. */
  lemma {:induction false} ClockIsLastTick(r: Run, i: nat, j: nat)
    requires IsRun(r) && i < j < |r.states| && r.steps[i].Tick? && forall k | i < k < j :: !r.steps[k].Tick?
    ensures r.states[j].clock == r.steps[i].now
  {
    assert Enabled(r.states[j - 1], r.steps[j - 1]);
    if i + 1 < j { ClockIsLastTick(r, i, j - 1); }
  }

  // ---- the sleep state as an object --------------------------------------

  class SleepState {
    var sleeping: bool
    var cancelled: bool
    var deadline: nat  // of the thread's entry in the run list

    constructor ()
      ensures Value() == Flags(false, false, 0)
    {
      sleeping, cancelled, deadline := false, false, 0;
    }

    function Value(): Flags
      reads this
    {
      Flags(sleeping, cancelled, deadline)
    }

    /** The first section of Sleep; `now + nanos` stands for the conversion to clock ticks. */
    method Sleep(nanos: nat, now: nat) returns (parked: bool)
      modifies this
      ensures parked <==> nanos != 0 && !old(cancelled)
      ensures Value() == Started(old(Value()), nanos == 0, now + nanos)
    {
      if cancelled || nanos == 0 {
        cancelled := false;
        return false;
      }
      sleeping := true;
      deadline := now + nanos;
      return true;
    }

    method SleepInfinite() returns (parked: bool)
      modifies this
      ensures parked <==> !old(cancelled)
      ensures Value() == Started(old(Value()), false, INFINITE)
    {
      if cancelled {
        cancelled := false;
        return false;
      }
      sleeping := true;
      deadline := INFINITE;
      return true;
    }

    /** The section after the yield. */
    method Leave()
      modifies this
      ensures !sleeping && !cancelled && deadline == old(deadline)
      ensures Value() == Finished(old(Value()))
    {
      sleeping := false;
      cancelled := false;
    }

    /** Awake, only the flag is set and any other timeout stands; asleep, only the timeout is cleared. */
    method Cancel()
      modifies this
      ensures sleeping == old(sleeping) && cancelled == (old(cancelled) || !old(sleeping))
      ensures deadline == if old(sleeping) then 0 else old(deadline)
      ensures Value() == Cancelled(old(Value()))
    {
      if !sleeping {
        cancelled := true;
      } else {
        deadline := 0;
      }
    }
  }
}
