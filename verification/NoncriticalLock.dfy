/**
 * The queue lock that hands ownership from holder to waiter.  A waiter with a thread parks on an
 * infinite timeout that only the releaser clears; one without spins on its record's `owner` flag.
 * The waiter's record lives on the stack of its Seize call, so it is gone once Seize returns.
 */
module NoncriticalLock {
  import opened Common

  /** What an actor is doing: nothing, waiting, owning, or finishing a Release for waiter n. */
  datatype Pc = Idle | Parked | Spinning | Owning | Handing(n: nat) | Waking(n: nat)

  /** `owner` is the flag in the actor's record, `infinite` whether its thread has an infinite deadline. */
  datatype Actor = Actor(pc: Pc, parks: bool, owner: bool, infinite: bool)

  /** `arrivals` and `grants` log who called Seize and who was given the lock. */
  datatype State = State(held: bool, queue: seq<nat>, actors: seq<Actor>, arrivals: seq<nat>, grants: seq<nat>)

  datatype Step =
    | Seize(a: nat, parks: bool) | Resume(a: nat) | SpinOut(a: nat)
    | Release(a: nat) | SetOwner(a: nat) | ClearTimeout(a: nat)

  function Set(s: State, a: nat, v: Actor): State
    requires a < |s.actors|
  {
    s.(actors := s.actors[a := v])
  }

  predicate Enabled(s: State, x: Step) {
    x.a < |s.actors| &&
    var v := s.actors[x.a];
    match x
    case Seize(_, _) => v.pc.Idle?
    case Resume(_) => v.pc.Parked? && !v.infinite
    case SpinOut(_) => v.pc.Spinning? && v.owner
    case Release(_) => v.pc.Owning?
    case SetOwner(_) => v.pc.Handing? && v.pc.n < |s.actors|
    case ClearTimeout(_) => v.pc.Waking? && v.pc.n < |s.actors|
  }

  function Apply(s: State, x: Step): State
    requires Enabled(s, x)
  {
    var a := x.a;
    var v := s.actors[a];
    match x
    case Seize(_, parks) =>
      if !s.held then Set(s, a, v.(pc := Owning)).(held := true, arrivals := s.arrivals + [a], grants := s.grants + [a])
      else Set(s, a, Actor(if parks then Parked else Spinning, parks, false, parks)).(queue := s.queue + [a],
        arrivals := s.arrivals + [a])
    case Resume(_) => Set(s, a, v.(pc := Owning))
    case SpinOut(_) => Set(s, a, v.(pc := Owning))
    case Release(_) =>
      if s.queue == [] then Set(s, a, v.(pc := Idle)).(held := false)
      else Set(s, a, v.(pc := Handing(s.queue[0]))).(queue := s.queue[1..], grants := s.grants + [s.queue[0]])
    case SetOwner(_) => Handed(s, a)
    case ClearTimeout(_) =>
      Set(Set(s, v.pc.n, s.actors[v.pc.n].(infinite := false)), a,
        Set(s, v.pc.n, s.actors[v.pc.n].(infinite := false)).actors[a].(pc := Idle))
  }

  /** The record's thread is read first, then `owner` is set; a parked waiter still has to be woken. */
  function Handed(s: State, a: nat): State
    requires Enabled(s, SetOwner(a))
  {
    var n := s.actors[a].pc.n;
    var s1 := Set(s, n, s.actors[n].(owner := true));
    Set(s1, a, s1.actors[a].(pc := if s.actors[n].parks then Waking(n) else Idle))
  }

  predicate Init(s: State) {
    && !s.held && s.queue == [] && s.arrivals == [] && s.grants == []
    && forall a | 0 <= a < |s.actors| :: s.actors[a].pc.Idle?
  }

  // ---- the invariant -----------------------------------------------------

  predicate WaitsFor(v: Actor) {
    v.pc.Parked? || v.pc.Spinning?
  }

  /** The actor is where the right to the lock is: owning, handing over, or handed to but not yet returned. */
  predicate HasToken(v: Actor) {
    v.pc.Owning? || v.pc.Handing? || (WaitsFor(v) && v.owner)
  }

  function Tokens(vs: seq<Actor>): nat {
    if vs == [] then 0 else One(HasToken(vs[0])) + Tokens(vs[1..])
  }

  /** Releasers on their way to waiter n: before its flag is set, and before its timeout is cleared. */
  function Handers(vs: seq<Actor>, n: nat): nat {
    if vs == [] then 0 else One(vs[0].pc == Handing(n)) + Handers(vs[1..], n)
  }

  function Wakers(vs: seq<Actor>, n: nat): nat {
    if vs == [] then 0 else One(vs[0].pc == Waking(n)) + Wakers(vs[1..], n)
  }

  predicate ActorOk(s: State, a: nat)
    requires a < |s.actors|
  {
    var v := s.actors[a];
    && (a in s.queue ==> WaitsFor(v) && !v.owner)
    && Handers(s.actors, a) == One(WaitsFor(v) && !v.owner && a !in s.queue)
    && Wakers(s.actors, a) == One(v.pc.Parked? && v.owner && v.infinite)
    && (v.pc.Parked? && !v.owner ==> v.infinite)
    && (WaitsFor(v) ==> (v.parks <==> v.pc.Parked?))
    && (v.pc.Handing? || v.pc.Waking? ==> v.pc.n < |s.actors|)
  }

  predicate Inv(s: State) {
    && Tokens(s.actors) == One(s.held)
    && (s.queue != [] ==> s.held)
    && Distinct(s.queue) && (forall a | a in s.queue :: a < |s.actors|)
    && s.arrivals == s.grants + s.queue
    && (forall a | 0 <= a < |s.actors| :: ActorOk(s, a))
  }

  lemma {:induction false} TokensUpdate(vs: seq<Actor>, a: nat, v: Actor)
    requires a < |vs|
    ensures Tokens(vs[a := v]) == Tokens(vs) - One(HasToken(vs[a])) + One(HasToken(v))
  {
    if a > 0 {
      TokensUpdate(vs[1..], a - 1, v);
      assert vs[a := v][1..] == vs[1..][a - 1 := v];
    } else {
      assert vs[0 := v][1..] == vs[1..];
    }
  }

  lemma {:induction false} HelpersUpdate(vs: seq<Actor>, a: nat, v: Actor, n: nat)
    requires a < |vs|
    ensures Handers(vs[a := v], n) == Handers(vs, n) - One(vs[a].pc == Handing(n)) + One(v.pc == Handing(n))
    ensures Wakers(vs[a := v], n) == Wakers(vs, n) - One(vs[a].pc == Waking(n)) + One(v.pc == Waking(n))
  {
    if a > 0 {
      HelpersUpdate(vs[1..], a - 1, v, n);
      assert vs[a := v][1..] == vs[1..][a - 1 := v];
    } else {
      assert vs[0 := v][1..] == vs[1..];
    }
  }

  lemma {:induction false} HelpersAtLeast(vs: seq<Actor>, a: nat)
    requires a < |vs|
    ensures vs[a].pc.Handing? ==> Handers(vs, vs[a].pc.n) >= 1
    ensures vs[a].pc.Waking? ==> Wakers(vs, vs[a].pc.n) >= 1
    ensures HasToken(vs[a]) ==> Tokens(vs) >= 1
  {
    if a > 0 { HelpersAtLeast(vs[1..], a - 1); }
  }

  lemma {:induction false} TokensTwo(vs: seq<Actor>, a: nat, b: nat)
    requires a < b < |vs| && HasToken(vs[a]) && HasToken(vs[b])
    ensures Tokens(vs) >= 2
  {
    if a > 0 { TokensTwo(vs[1..], a - 1, b - 1); } else { HelpersAtLeast(vs[1..], b - 1); }
  }

  lemma {:induction false} NobodyActs(vs: seq<Actor>, n: nat)
    requires forall a | 0 <= a < |vs| :: vs[a].pc.Idle?
    ensures Tokens(vs) == 0 && Handers(vs, n) == 0 && Wakers(vs, n) == 0
  {
    if vs != [] { NobodyActs(vs[1..], n); }
  }

  // ---- steps -------------------------------------------------------------

  lemma SeizeKeeps(s: State, a: nat, parks: bool)
    requires Inv(s) && Enabled(s, Seize(a, parks))
    ensures Inv(Apply(s, Seize(a, parks)))
  {
    var s' := Apply(s, Seize(a, parks));
    TokensUpdate(s.actors, a, s'.actors[a]);
    assert ActorOk(s, a);
    if s.held {
      DistinctSnoc(s.queue, a);
      assert (s.grants + s.queue) + [a] == s.grants + (s.queue + [a]);
    } else {
      assert s.queue == [] && s.grants + s.queue == s.grants && s'.grants + s'.queue == s'.grants;
    }
    forall b: nat | b < |s.actors| ensures ActorOk(s', b) {
      assert ActorOk(s, b);
      HelpersUpdate(s.actors, a, s'.actors[a], b);
    }
  }

  lemma ReturnKeeps(s: State, x: Step)
    requires Inv(s) && Enabled(s, x) && (x.Resume? || x.SpinOut?)
    ensures s.actors[x.a].owner
    ensures Inv(Apply(s, x))
  {
    var s' := Apply(s, x);
    assert ActorOk(s, x.a);
    TokensUpdate(s.actors, x.a, s'.actors[x.a]);
    forall b: nat | b < |s.actors| ensures ActorOk(s', b) {
      assert ActorOk(s, b);
      HelpersUpdate(s.actors, x.a, s'.actors[x.a], b);
    }
  }

  lemma FreeKeeps(s: State, a: nat)
    requires Inv(s) && Enabled(s, Release(a)) && s.queue == []
    ensures Inv(Apply(s, Release(a)))
  {
    var s' := Apply(s, Release(a));
    TokensUpdate(s.actors, a, s'.actors[a]);
    HelpersAtLeast(s.actors, a);
    forall b: nat | b < |s.actors| ensures ActorOk(s', b) {
      assert ActorOk(s, b);
      HelpersUpdate(s.actors, a, s'.actors[a], b);
    }
  }

  lemma HandKeeps(s: State, a: nat)
    requires Inv(s) && Enabled(s, Release(a)) && s.queue != []
    ensures Inv(Apply(s, Release(a)))
  {
    var s' := Apply(s, Release(a));
    var n := s.queue[0];
    TokensUpdate(s.actors, a, s'.actors[a]);
    assert s.queue == [n] + s'.queue;
    assert s.grants + s.queue == (s.grants + [n]) + s'.queue;
    assert Distinct(s'.queue) && n !in s'.queue;
    assert n in s.queue && forall b :: b in s.queue <==> b == n || b in s'.queue;
    assert ActorOk(s, a) && ActorOk(s, n);
    forall b: nat | b < |s.actors| ensures ActorOk(s', b) {
      assert ActorOk(s, b);
      HelpersUpdate(s.actors, a, s'.actors[a], b);
    }
  }

  /** A releaser's waiter is still inside Seize: its record is there to be written or read. */
  lemma RecordAlive(s: State, a: nat)
    requires Inv(s) && a < |s.actors|
    ensures var v := s.actors[a];
            v.pc.Handing? ==>
              v.pc.n < |s.actors| && v.pc.n != a && WaitsFor(s.actors[v.pc.n])
              && !s.actors[v.pc.n].owner && v.pc.n !in s.queue
    ensures var v := s.actors[a];
            v.pc.Waking? ==>
              v.pc.n < |s.actors| && v.pc.n != a && s.actors[v.pc.n].pc.Parked?
              && s.actors[v.pc.n].owner && s.actors[v.pc.n].infinite
  {
    var v := s.actors[a];
    assert ActorOk(s, a);
    HelpersAtLeast(s.actors, a);
    if v.pc.Handing? || v.pc.Waking? { assert ActorOk(s, v.pc.n); }
  }

  lemma SetOwnerKeeps(s: State, a: nat)
    requires Inv(s) && Enabled(s, SetOwner(a))
    ensures Inv(Apply(s, SetOwner(a)))
  {
    var s' := Apply(s, SetOwner(a));
    var n := s.actors[a].pc.n;
    RecordAlive(s, a);
    var s1 := Set(s, n, s.actors[n].(owner := true));
    TokensUpdate(s.actors, n, s1.actors[n]);
    TokensUpdate(s1.actors, a, s'.actors[a]);
    forall b: nat | b < |s.actors| ensures ActorOk(s', b) {
      assert ActorOk(s, b);
      HelpersUpdate(s.actors, n, s1.actors[n], b);
      HelpersUpdate(s1.actors, a, s'.actors[a], b);
    }
  }

  lemma ClearTimeoutKeeps(s: State, a: nat)
    requires Inv(s) && Enabled(s, ClearTimeout(a))
    ensures Inv(Apply(s, ClearTimeout(a)))
  {
    var s' := Apply(s, ClearTimeout(a));
    var n := s.actors[a].pc.n;
    RecordAlive(s, a);
    var s1 := Set(s, n, s.actors[n].(infinite := false));
    TokensUpdate(s.actors, n, s1.actors[n]);
    TokensUpdate(s1.actors, a, s'.actors[a]);
    forall b: nat | b < |s.actors| ensures ActorOk(s', b) {
      assert ActorOk(s, b);
      HelpersUpdate(s.actors, n, s1.actors[n], b);
      HelpersUpdate(s1.actors, a, s'.actors[a], b);
    }
  }

  lemma StepKeeps(s: State, x: Step)
    requires Inv(s) && Enabled(s, x)
    ensures Inv(Apply(s, x))
  {
    match x
    case Seize(a, parks) => SeizeKeeps(s, a, parks);
    case Resume(_) => ReturnKeeps(s, x);
    case SpinOut(_) => ReturnKeeps(s, x);
    case Release(a) => if s.queue == [] { FreeKeeps(s, a); } else { HandKeeps(s, a); }
    case SetOwner(a) => SetOwnerKeeps(s, a);
    case ClearTimeout(a) => ClearTimeoutKeeps(s, a);
  }

  // ---- runs --------------------------------------------------------------

  datatype Run = Run(states: seq<State>, steps: seq<Step>)

  predicate IsRun(r: Run) {
    && |r.states| == |r.steps| + 1 && Init(r.states[0])
    && forall i | 0 <= i < |r.steps| ::
        Enabled(r.states[i], r.steps[i]) && r.states[i + 1] == Apply(r.states[i], r.steps[i])
  }

  lemma {:induction false} RunInv(r: Run, i: nat)
    requires IsRun(r) && i < |r.states|
    ensures Inv(r.states[i])
  {
    if i == 0 {
      var s := r.states[0];
      NobodyActs(s.actors, 0);
      forall a: nat | a < |s.actors| ensures ActorOk(s, a) { NobodyActs(s.actors, a); }
    } else {
      RunInv(r, i - 1);
      StepKeeps(r.states[i - 1], r.steps[i - 1]);
    }
  }

  /** At most one actor is between Seize and Release. */
  lemma MutualExclusion(r: Run, i: nat, a: nat, b: nat)
    requires IsRun(r) && i < |r.states| && a < |r.states[i].actors| && b < |r.states[i].actors|
    requires r.states[i].actors[a].pc.Owning? && r.states[i].actors[b].pc.Owning?
    ensures a == b
  {
    RunInv(r, i);
    if a < b { TokensTwo(r.states[i].actors, a, b); }
    if b < a { TokensTwo(r.states[i].actors, b, a); }
  }

  /**
   * The lock is granted in the order of the calls to Seize: those granted are a prefix of those who
   * arrived, and the queue is the rest.  A lock that is held has its one token somewhere, and a
   * lock that is free has neither token nor queue.
   */
  lemma FirstComeFirstServed(r: Run, i: nat)
    requires IsRun(r) && i < |r.states|
    ensures r.states[i].arrivals == r.states[i].grants + r.states[i].queue
    ensures Tokens(r.states[i].actors) == One(r.states[i].held)
    ensures r.states[i].queue != [] ==> r.states[i].held
  {
    RunInv(r, i);
  }

  /** A newcomer that gets the lock at once overtakes nobody: no one waits, and no handover is under way. */
  lemma NoOvertaking(r: Run, i: nat)
    requires IsRun(r) && i < |r.steps| && r.steps[i].Seize? && r.states[i + 1].actors[r.steps[i].a].pc.Owning?
    ensures r.states[i].queue == []
    ensures forall b | 0 <= b < |r.states[i].actors| ::
      !HasToken(r.states[i].actors[b]) && !WaitsFor(r.states[i].actors[b])
  {
    RunInv(r, i);
    var s := r.states[i];
    forall b | 0 <= b < |s.actors| ensures !HasToken(s.actors[b]) && !WaitsFor(s.actors[b]) {
      HelpersAtLeast(s.actors, b);
      assert ActorOk(s, b);
      if WaitsFor(s.actors[b]) && !s.actors[b].owner { HanderExists(s.actors, b); }
    }
  }

  lemma {:induction false} HanderExists(vs: seq<Actor>, n: nat)
    requires Handers(vs, n) >= 1
    ensures Tokens(vs) >= 1
  {
    if vs[0].pc != Handing(n) { HanderExists(vs[1..], n); }
  }

  /**
   * No wakeup is lost, and the assertion after parking holds.  A parked actor whose deadline is
   * finite owns the lock; one that was given the lock and still has the infinite deadline has
   * exactly one releaser about to clear it.
   */
  lemma NoLostWakeup(r: Run, i: nat, a: nat)
    requires IsRun(r) && i < |r.states| && a < |r.states[i].actors| && r.states[i].actors[a].pc.Parked?
    ensures var s := r.states[i]; !s.actors[a].infinite ==> s.actors[a].owner
    ensures var s := r.states[i]; s.actors[a].owner && s.actors[a].infinite ==> Wakers(s.actors, a) == 1
    ensures var s := r.states[i]; !s.actors[a].owner ==> a in s.queue || Handers(s.actors, a) == 1
  {
    RunInv(r, i);
    assert ActorOk(r.states[i], a);
  }

  /** A record is never written or read after its Seize can return. */
  lemma RecordNeverStale(r: Run, i: nat)
    requires IsRun(r) && i < |r.steps| && (r.steps[i].SetOwner? || r.steps[i].ClearTimeout?)
    ensures var s := r.states[i]; WaitsFor(s.actors[s.actors[r.steps[i].a].pc.n])
    ensures var s := r.states[i]; r.steps[i].ClearTimeout? ==> s.actors[s.actors[r.steps[i].a].pc.n].infinite
  {
    RunInv(r, i);
    RecordAlive(r.states[i], r.steps[i].a);
  }

  // ---- progress ----------------------------------------------------------

  /** Sections that an actor still has to run, once the lock is its own, before it owns it or is idle again. */
  function SectionsLeft(v: Actor): nat {
    match v.pc
    case Idle => 0
    case Owning => 1
    case Waking(_) => 2
    case Handing(_) => 3
    case Parked => 4
    case Spinning => 4
  }

  /** A held lock never stalls: its owner may release it, or somebody has a section of a handover to run. */
  lemma NeverStuck(r: Run, i: nat)
    requires IsRun(r) && i < |r.states| && r.states[i].held
    ensures exists x: Step :: !x.Seize? && Enabled(r.states[i], x)
  {
    RunInv(r, i);
    var s := r.states[i];
    var a := TokenHolder(s.actors);
    assert ActorOk(s, a);
    match s.actors[a].pc
    case Owning => assert Enabled(s, Release(a));
    case Handing(_) => assert Enabled(s, SetOwner(a));
    case Spinning => assert Enabled(s, SpinOut(a));
    case Parked =>
      if s.actors[a].infinite {
        var b := Waker(s.actors, a);
        assert Enabled(s, ClearTimeout(b));
      } else {
        assert Enabled(s, Resume(a));
      }
  }

  lemma {:induction false} TokenHolder(vs: seq<Actor>) returns (a: nat)
    requires Tokens(vs) >= 1
    ensures a < |vs| && HasToken(vs[a])
  {
    if HasToken(vs[0]) {
      a := 0;
    } else {
      a := TokenHolder(vs[1..]);
      a := a + 1;
    }
  }

  lemma {:induction false} Waker(vs: seq<Actor>, n: nat) returns (a: nat)
    requires Wakers(vs, n) >= 1
    ensures a < |vs| && vs[a].pc == Waking(n)
  {
    if vs[0].pc == Waking(n) {
      a := 0;
    } else {
      a := Waker(vs[1..], n);
      a := a + 1;
    }
  }

  /** A release either frees the lock or hands it to the oldest waiter, and each later section goes on. */
  lemma SectionsAdvance(r: Run, i: nat)
    requires IsRun(r) && i < |r.steps| && !r.steps[i].Seize?
    ensures var s, s' := r.states[i], r.states[i + 1]; var a := r.steps[i].a;
            if r.steps[i].Release? && s.queue != [] then s'.actors[a].pc == Handing(s.queue[0])
            else SectionsLeft(s'.actors[a]) < SectionsLeft(s.actors[a])
  {
    RunInv(r, i);
    RecordAlive(r.states[i], r.steps[i].a);
  }

  // ---- the lock as an object ---------------------------------------------

  class WaitingThread {
    const parks: bool
    var owner: bool

    constructor (thread: bool)
      ensures parks == thread && !owner
    {
      parks := thread;
      owner := false;
    }
  }

  class Lock {
    var held: bool
    var queue: seq<WaitingThread>

    constructor ()
      ensures !held && queue == []
    {
      held, queue := false, [];
    }

    /** The section of Seize under queueLock: take a free lock, or join the end of the queue. */
    method Enter(thread: bool) returns (link: WaitingThread?)
      modifies this
      ensures held
      ensures link == null <==> !old(held)
      ensures link == null ==> queue == old(queue)
      ensures link != null ==> fresh(link) && link.parks == thread && !link.owner && queue == old(queue) + [link]
    {
      if !held {
        held := true;
        return null;
      }
      link := new WaitingThread(thread);
      queue := queue + [link];
    }

    /** Release: the oldest waiter becomes the owner without the lock ever being free in between. */
    method Release() returns (wake: bool, next: WaitingThread?)
      requires held
      modifies this, queue
      ensures old(queue) == [] ==> !held && queue == [] && next == null && !wake
      ensures old(queue) != [] ==>
        held && next == old(queue)[0] && queue == old(queue)[1..] && next.owner && (wake <==> next.parks)
      ensures forall w | w in old(queue) && w != next :: w.owner == old(w.owner)
    {
      if queue == [] {
        held := false;
        return false, null;
      }
      next := queue[0];
      queue := queue[1..];
      wake := next.parks;
      next.owner := true;
    }
  }
}
