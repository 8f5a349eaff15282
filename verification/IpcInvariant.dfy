/**
 * What every reachable state of the port system satisfies.
 *
 * Counts are sums over the program counters of all actors: `Weight` says what one program counter
 * contributes to the answer of a query, `Count` adds that up.  Terminals, logs, ports, pending
 * lists, connections, program counters and messages in flight each have a predicate of their own.
 */
module IpcInvariant {
  import opened Common
  import opened Ipc

  // ---- counting what actors are doing ----

  /** A question about one program counter, answered by a number. */
  datatype Query =
    | Refs(t: nat)      // references to terminal t the actor holds
    | Throws(t: nat)    // it is about to throw t away
    | Cuts(t: nat)      // it has taken t from its port but not told t yet
    | Severs(p: nat)    // it is inside the Sever that took port p's terminal
    | Hangs(t: nat)     // it is deallocating t
    | Pending(t: nat)   // it is deallocating t and has not yet told the other end
    | Flies(id: nat)    // it carries message id

  function Weight(v: Pc, q: Query): nat {
    match q
    case Refs(t) =>
      (match v
       case Sending(x, _) => One(x == t)
       case Asking(x, _, _) => One(x == t)
       case Delivering(x, o, _) => One(x == t) + One(o == t)
       case DroppingOther(x, o) => One(x == t) + One(o == t)
       case DroppingSelf(x) => One(x == t)
       case Throwing(_, k) => One(k == ThenSelf(t))
       case Cutting(_, x) => One(x == t)
       case Cut(_, x) => One(x == t)
       case Linking(_, x, y) => One(x == t) + One(y == t)
       case Telling(_, o) => One(o == t)
       case DroppingTold(_, o) => One(o == t)
       case _ => 0)
    case Throws(t) => One(v.Throwing? && v.o == t)
    case Cuts(t) => One(v.Cutting? && v.t == t)
    case Severs(p) => One((v.Cutting? && v.p == p) || (v.Cut? && v.p == p) || (v.Throwing? && v.k == ThenPort(p)))
    case Hangs(t) =>
      One((v.Finding? && v.t == t) || (v.Closing? && v.t == t) || (v.Telling? && v.t == t)
          || (v.DroppingTold? && v.t == t) || (v.Deleting? && v.t == t) || (v.Throwing? && v.k == ThenDelete(t)))
    case Pending(t) => One((v.Finding? && v.t == t) || (v.Closing? && v.t == t) || (v.Telling? && v.t == t))
    case Flies(id) => One((v.Sending? && v.id == id) || (v.Asking? && v.id == id) || (v.Delivering? && v.id == id))
  }

  function Count(pcs: seq<Pc>, q: Query): nat {
    if pcs == [] then 0 else Weight(pcs[0], q) + Count(pcs[1..], q)
  }

  lemma {:induction false} CountUpdate(pcs: seq<Pc>, a: nat, v: Pc, q: Query)
    requires a < |pcs|
    ensures Count(pcs[a := v], q) == Count(pcs, q) - Weight(pcs[a], q) + Weight(v, q)
  {
    if a > 0 {
      CountUpdate(pcs[1..], a - 1, v, q);
      assert pcs[a := v][1..] == pcs[1..][a - 1 := v];
    } else {
      assert pcs[0 := v][1..] == pcs[1..];
    }
  }

  /** All counts that concern terminal u. */
  lemma TermCounts(pcs: seq<Pc>, a: nat, v: Pc, u: nat)
    requires a < |pcs|
    ensures Count(pcs[a := v], Refs(u)) == Count(pcs, Refs(u)) - Weight(pcs[a], Refs(u)) + Weight(v, Refs(u))
    ensures Count(pcs[a := v], Throws(u)) == Count(pcs, Throws(u)) - Weight(pcs[a], Throws(u)) + Weight(v, Throws(u))
    ensures Count(pcs[a := v], Cuts(u)) == Count(pcs, Cuts(u)) - Weight(pcs[a], Cuts(u)) + Weight(v, Cuts(u))
    ensures Count(pcs[a := v], Hangs(u)) == Count(pcs, Hangs(u)) - Weight(pcs[a], Hangs(u)) + Weight(v, Hangs(u))
    ensures Count(pcs[a := v], Pending(u)) == Count(pcs, Pending(u)) - Weight(pcs[a], Pending(u))
      + Weight(v, Pending(u))
  {
    CountUpdate(pcs, a, v, Refs(u));
    CountUpdate(pcs, a, v, Throws(u));
    CountUpdate(pcs, a, v, Cuts(u));
    CountUpdate(pcs, a, v, Hangs(u));
    CountUpdate(pcs, a, v, Pending(u));
  }

  /** An actor that was doing nothing starts something: the counts grow by what that adds. */
  lemma StartCounts(pcs: seq<Pc>, a: nat, v: Pc, u: nat)
    requires a < |pcs| && pcs[a].Quiet? && (v.Linking? || v.Cutting?)
    ensures Count(pcs[a := v], Refs(u)) == Count(pcs, Refs(u)) +
      if v.Linking? then One(v.t1 == u) + One(v.t2 == u) else One(v.t == u)
    ensures Count(pcs[a := v], Cuts(u)) == Count(pcs, Cuts(u)) + One(v.Cutting? && v.t == u)
    ensures Count(pcs[a := v], Throws(u)) == Count(pcs, Throws(u))
    ensures Count(pcs[a := v], Hangs(u)) == Count(pcs, Hangs(u))
      && Count(pcs[a := v], Pending(u)) == Count(pcs, Pending(u))
  {
    TermCounts(pcs, a, v, u);
  }

  lemma {:induction false} CountAtLeast(pcs: seq<Pc>, a: nat, q: Query)
    requires a < |pcs|
    ensures Count(pcs, q) >= Weight(pcs[a], q)
  {
    if a > 0 { CountAtLeast(pcs[1..], a - 1, q); }
  }

  lemma {:induction false} CountNone(pcs: seq<Pc>, q: Query)
    requires forall a | 0 <= a < |pcs| :: Weight(pcs[a], q) == 0
    ensures Count(pcs, q) == 0
  {
    if pcs != [] { CountNone(pcs[1..], q); }
  }

  lemma {:induction false} PendingHangs(pcs: seq<Pc>, t: nat)
    ensures Count(pcs, Pending(t)) <= Count(pcs, Hangs(t))
  {
    if pcs != [] { PendingHangs(pcs[1..], t); }
  }

  // ---- connections ----

  predicate Registered(k: ConnRec, t: nat) {
    k.terminal1 == Some(t) || k.terminal2 == Some(t)
  }

  /** Connect has stored the connection in terminal t. */
  predicate Stored(k: ConnRec, t: nat) {
    (t == k.b && k.progress >= 1) || (t == k.a && k.progress >= 2)
  }

  /** Connect has delivered Opened to terminal t. */
  predicate Greeted(k: ConnRec, t: nat) {
    (t == k.a && k.progress >= 3) || (t == k.b && k.progress >= 4)
  }

  function Peer(k: ConnRec, t: nat): nat {
    if t == k.a then k.b else k.a
  }

  /** Terminals t and o are the two ends of connection c, and Connect has finished. */
  predicate Ends(s: State, c: nat, t: nat, o: nat) {
    && c < |s.conns| && t < |s.terms| && o < |s.terms| && t != o
    && s.terms[t].claimed == Some(c) && s.terms[o].claimed == Some(c) && s.conns[c].progress == 5
  }

  predicate IsEnd(s: State, c: nat, t: nat) {
    c < |s.conns| && (s.conns[c].a == t || s.conns[c].b == t)
  }

  // ---- the invariant ----

  /** Opened first, Closed last, only data between. */
  predicate WellFormed(log: seq<Msg>) {
    log != [] ==>
      log[0].Opened? && forall i | 1 <= i < |log| :: log[i].Data? || (log[i].Closed? && i == |log| - 1)
  }

  predicate TermOk(s: State, t: nat)
    requires t < |s.terms|
  {
    var k := s.terms[t];
    && k.retainCount == One(k.creator) + Count(s.pcs, Refs(t))
    && Count(s.pcs, Throws(t)) == One(k.life.Alive? && ClosedOff(k))
    && (!k.life.Alive? ==> ClosedOff(k))
    && Count(s.pcs, Hangs(t)) == One(k.life.Hanging?)
    && (t in s.queue <==> k.life.Thrown?)
    && k.home < |s.ports|
    && (k.port.Some? ==> k.port.value == k.home)
    && Count(s.pcs, Cuts(t)) == One(k.port.Some? && s.ports[k.home].terminal != Some(t))
    && (k.port.Some? && s.ports[k.home].terminal != Some(t) ==> s.ports[k.home].phase.Severing?)
    && (k.claimed.Some? ==> IsEnd(s, k.claimed.value, t))
    && k.connection == (if k.claimed.Some? && Stored(s.conns[k.claimed.value], t) then k.claimed else None)
  }

  predicate LogOk(s: State, t: nat)
    requires t < |s.terms|
  {
    var k := s.terms[t];
    && WellFormed(k.log) && Distinct(k.log)
    && (k.claimed.None? ==> k.log == [])
    && (k.claimed.Some? && k.claimed.value < |s.conns| ==>
          var c := s.conns[k.claimed.value];
          var u := Peer(c, t);
          && (k.log != [] ==> Greeted(c, t))
          && (Greeted(c, t) && k.port.Some? ==> k.log != [])
          && (Closed in k.log ==>
                u < |s.terms| && (s.terms[u].life.Hanging? || s.terms[u].life.Deleted?)
                  && Count(s.pcs, Pending(u)) == 0)
          && (forall m | m in k.log && m.Data? :: m.id < |s.sends| && s.sends[m.id] == SendRec(u, true)))
  }

  predicate PortOk(s: State, p: nat)
    requires p < |s.ports|
  {
    var k := s.ports[p];
    && k.thread < |s.polls|
    && (k.terminal.Some? ==> k.phase.Open? && k.terminal.value < |s.terms| && s.terms[k.terminal.value].port == Some(p))
    && Count(s.pcs, Severs(p)) == One(k.phase.Severing?)
    && (k.phase.Unqueued? || k.phase.Gone? ==> !k.isQueued)
    && (k.isQueued <==> p in s.polls[k.thread])
  }

  predicate PollOk(s: State, th: nat)
    requires th < |s.polls|
  {
    && Distinct(s.polls[th])
    && (forall p | p in s.polls[th] :: p < |s.ports| && s.ports[p].thread == th)
  }

  predicate EndOk(s: State, c: nat, e: nat, end: Option<nat>)
    requires c < |s.conns|
  {
    && e < |s.terms| && s.terms[e].claimed == Some(c)
    && (end == Some(e) ==> !s.terms[e].life.Deleted?)
    && (end != Some(e) ==> end.None? && (s.terms[e].life.Hanging? || s.terms[e].life.Deleted?))
  }

  predicate ConnOk(s: State, c: nat)
    requires c < |s.conns|
  {
    var k := s.conns[c];
    && k.a != k.b && k.progress <= 5
    && EndOk(s, c, k.a, k.terminal1) && EndOk(s, c, k.b, k.terminal2)
    && (k.holder.Some? <==> k.progress < 5)
    && (k.holder.Some? ==> k.holder.value < |s.pcs| && s.pcs[k.holder.value] == Linking(c, k.a, k.b))
    && (k.freed <==> k.terminal1.None? && k.terminal2.None?)
  }

  /** The collector is past the connection: terminal t is no longer registered anywhere. */
  predicate Unregistered(s: State, t: nat) {
    t < |s.terms| && (s.terms[t].claimed.Some? ==>
      s.terms[t].claimed.value < |s.conns| && !Registered(s.conns[s.terms[t].claimed.value], t))
  }

  predicate Carries(s: State, t: nat, id: nat) {
    t < |s.terms| && id < |s.sends| && s.sends[id] == SendRec(t, false)
  }

  predicate PcOk(s: State, a: nat)
    requires a < |s.pcs|
  {
    match s.pcs[a]
    case Quiet => true
    case Sending(t, id) => Carries(s, t, id)
    case Asking(t, c, id) => Carries(s, t, id) && s.terms[t].connection == Some(c)
    case Delivering(t, o, id) => Carries(s, t, id) && s.terms[t].claimed.Some?
      && Ends(s, s.terms[t].claimed.value, t, o)
    case DroppingOther(t, o) => t < |s.terms| && o < |s.terms| && t != o
    case DroppingSelf(t) => t < |s.terms|
    case Throwing(o, k) =>
      o < |s.terms| &&
      (match k
       case ThenQuiet => true
       case ThenSelf(t) => t < |s.terms|
       case ThenPort(p) => p < |s.ports|
       case ThenDelete(t) => Unregistered(s, t))
    case Cutting(p, t) => p < |s.ports| && t < |s.terms| && s.terms[t].home == p
    case Cut(p, t) => p < |s.ports| && t < |s.terms| && s.terms[t].port.None?
    case Linking(c, t1, t2) =>
      c < |s.conns| && s.conns[c].a == t1 && s.conns[c].b == t2 && s.conns[c].holder == Some(a)
      && t1 < |s.terms| && t2 < |s.terms| && !s.terms[t1].creator && !s.terms[t2].creator
    case Finding(t) => t < |s.terms| && (s.terms[t].claimed.Some? ==>
                         s.terms[t].claimed.value < |s.conns| && Registered(s.conns[s.terms[t].claimed.value], t))
    case Closing(t, c) => t < |s.terms| && s.terms[t].connection == Some(c) && c < |s.conns|
      && Registered(s.conns[c], t)
    case Telling(t, o) => t < |s.terms| && s.terms[t].claimed.Some? && Ends(s, s.terms[t].claimed.value, t, o)
      && Unregistered(s, t)
    case DroppingTold(t, o) => Unregistered(s, t) && o < |s.terms| && t != o
    case Deleting(t) => Unregistered(s, t)
  }

  predicate SendOk(s: State, id: nat)
    requires id < |s.sends|
  {
    Count(s.pcs, Flies(id)) + One(s.sends[id].done) <= 1
  }

  predicate TermsOk(s: State) {
    forall t | 0 <= t < |s.terms| :: TermOk(s, t)
  }

  predicate LogsOk(s: State) {
    forall t | 0 <= t < |s.terms| :: LogOk(s, t)
  }

  predicate PortsOk(s: State) {
    forall p | 0 <= p < |s.ports| :: PortOk(s, p)
  }

  predicate PollsOk(s: State) {
    forall th | 0 <= th < |s.polls| :: PollOk(s, th)
  }

  predicate ConnsOk(s: State) {
    forall c | 0 <= c < |s.conns| :: ConnOk(s, c)
  }

  predicate PcsOk(s: State) {
    forall a | 0 <= a < |s.pcs| :: PcOk(s, a)
  }

  predicate SendsOk(s: State) {
    forall id | 0 <= id < |s.sends| :: SendOk(s, id)
  }

  predicate QueueOk(s: State) {
    Distinct(s.queue) && forall t | t in s.queue :: t < |s.terms|
  }

  predicate Inv(s: State) {
    TermsOk(s) && LogsOk(s) && PortsOk(s) && PollsOk(s) && ConnsOk(s) && PcsOk(s) && SendsOk(s) && QueueOk(s)
  }
}
