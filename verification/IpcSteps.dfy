/**
 * The steps of sending, severing and hanging up keep the port system's invariant.
 *
 * Most sections move one actor from one program counter to the next and change the counters of one
 * terminal.  `MayMove` says when such a move is harmless and `MoveKeeps` proves it once for all of
 * them; each section then only has to show that it is such a move.  What remains is treated one by
 * one: launching a message and delivering it, which changes a log, a port and a pending list;
 * taking a port's terminal away; ending a Sever; and clearing one end of a connection.
 */
module IpcSteps {
  import opened Common
  import opened Ipc
  import opened IpcInvariant

  // ---- frames ------------------------------------------------------------

  /** Everything but what actor a itself relies on. */
  predicate Around(s: State, a: nat) {
    && TermsOk(s) && LogsOk(s) && PortsOk(s) && PollsOk(s) && ConnsOk(s) && SendsOk(s) && QueueOk(s)
    && forall b | 0 <= b < |s.pcs| && b != a :: PcOk(s, b)
  }

  /** Actor a goes on to w, terminal t becomes k and the queue becomes l. */
  function Moved(s: State, a: nat, w: Pc, t: nat, k: TermRec, l: seq<nat>): State
    requires a < |s.pcs| && t < |s.terms|
  {
    s.(pcs := s.pcs[a := w], terms := s.terms[t := k], queue := l)
  }

  /** What terminal t may do without its port, its connection or its peer noticing. */
  predicate Mild(s: State, t: nat, k': TermRec)
    requires t < |s.terms|
  {
    var k := s.terms[t];
    && k'.home == k.home && k'.claimed == k.claimed && k'.connection == k.connection && k'.log == k.log
    && (k'.creator ==> k.creator)
    && (k'.port == k.port || (k'.port.None? && k.home < |s.ports| && s.ports[k.home].terminal != Some(t)))
    && (k'.life.Deleted? ==> k.life.Deleted? || Unregistered(s, t))
    && (k.life.Hanging? || k.life.Deleted? ==> k'.life.Hanging? || k'.life.Deleted?)
  }

  /** An actor may go from v to w while it changes terminal t's counters. */
  predicate NextPc(v: Pc, w: Pc, t: nat) {
    match v
    case Quiet => (w.Sending? && w.t == t) || w == DroppingSelf(t) || w == Finding(t)
    case Sending(x, id) => x == t && (w == DroppingSelf(x) || (w.Asking? && w.t == x && w.id == id))
    case Asking(x, _, id) => (x == t && w == DroppingSelf(x)) || w == Delivering(x, t, id)
    case DroppingOther(x, o) => o == t && (w == DroppingSelf(x) || w == Throwing(o, ThenSelf(x)))
    case DroppingSelf(x) => x == t && (w == Quiet || w == Throwing(x, ThenQuiet))
    case Throwing(o, k) => o == t && w == Resume(k)
    case Cutting(p, x) => x == t && w == Cut(p, x)
    case Cut(p, x) => x == t && (w == Quiet || w == Throwing(x, ThenPort(p)))
    case Closing(x, _) => (x == t && w == Deleting(x)) || w == Telling(x, t)
    case Telling(x, o) => x == t && w == DroppingTold(x, o)
    case Finding(x) => x == t && (w == Deleting(x) || (w.Closing? && w.t == x))
    case DroppingTold(x, o) => o == t && (w == Deleting(x) || w == Throwing(o, ThenDelete(x)))
    case Deleting(x) => x == t && w == Quiet
    case _ => false
  }

  /** The move returns from the Sever of port p. */
  predicate EndsSever(v: Pc, w: Pc, p: nat) {
    w.Quiet? && ((v.Cut? && v.p == p) || (v.Throwing? && v.k == ThenPort(p)))
  }

  lemma NextSparesTerm(v: Pc, w: Pc, t: nat, u: nat)
    requires NextPc(v, w, t) && u != t
    ensures Weight(w, Refs(u)) == Weight(v, Refs(u)) && Weight(w, Throws(u)) == Weight(v, Throws(u))
    ensures Weight(w, Cuts(u)) == Weight(v, Cuts(u))
  {
  }

  lemma NextSparesHangup(v: Pc, w: Pc, t: nat, u: nat)
    requires NextPc(v, w, t) && u != t
    ensures Weight(w, Hangs(u)) == Weight(v, Hangs(u)) && Weight(w, Pending(u)) == Weight(v, Pending(u))
  {
  }

  lemma NextSparesPort(v: Pc, w: Pc, t: nat, p: nat)
    requires NextPc(v, w, t)
    ensures Weight(w, Severs(p)) == Weight(v, Severs(p)) - One(EndsSever(v, w, p))
  {
  }

  /** Such a move changes no other terminal's counts, ends no Sever, and launches at most one message. */
  lemma NextSpares(v: Pc, w: Pc, t: nat, u: nat, p: nat, id: nat)
    requires NextPc(v, w, t)
    ensures u != t ==>
      && Weight(w, Refs(u)) == Weight(v, Refs(u)) && Weight(w, Throws(u)) == Weight(v, Throws(u))
      && Weight(w, Cuts(u)) == Weight(v, Cuts(u)) && Weight(w, Hangs(u)) == Weight(v, Hangs(u))
      && Weight(w, Pending(u)) == Weight(v, Pending(u))
    ensures Weight(w, Severs(p)) == Weight(v, Severs(p)) - One(EndsSever(v, w, p))
    ensures !w.Sending? ==> Weight(w, Flies(id)) <= Weight(v, Flies(id))
    ensures !w.Finding? ==> Weight(w, Pending(t)) <= Weight(v, Pending(t))
  {
    if u != t { NextSparesTerm(v, w, t, u); NextSparesHangup(v, w, t, u); }
    NextSparesPort(v, w, t, p);
  }

  /** Terminal t's own counts follow the actor's move. */
  predicate Balanced(s: State, v: Pc, w: Pc, t: nat, k': TermRec)
    requires t < |s.terms|
  {
    var k := s.terms[t];
    && k'.retainCount - One(k'.creator) - Weight(w, Refs(t)) == k.retainCount - One(k.creator) - Weight(v, Refs(t))
    && Weight(w, Throws(t)) - Weight(v, Throws(t)) == One(k'.life.Alive? && ClosedOff(k'))
        - One(k.life.Alive? && ClosedOff(k))
    && (!k'.life.Alive? ==> ClosedOff(k'))
    && Weight(w, Hangs(t)) - Weight(v, Hangs(t)) == One(k'.life.Hanging?) - One(k.life.Hanging?)
    && Weight(w, Cuts(t)) - Weight(v, Cuts(t)) == One(k'.port.Some?) - One(k.port.Some?)
  }

  /** Everything a local move has to satisfy, apart from what the actor may assume next. */
  predicate MayMove(s: State, a: nat, w: Pc, t: nat, k: TermRec, l: seq<nat>)
    requires a < |s.pcs| && t < |s.terms|
  {
    && NextPc(s.pcs[a], w, t) && (w.Finding? ==> s.terms[t].life.Thrown?)
    && Mild(s, t, k) && Balanced(s, s.pcs[a], w, t, k)
    && Distinct(l) && (t in l <==> k.life.Thrown?)
    && (forall u | u in l :: u == t || u in s.queue) && (forall u | u in s.queue :: u == t || u in l)
  }

  lemma MovedTerms(s: State, a: nat, w: Pc, t: nat, k: TermRec, l: seq<nat>)
    requires Around(s, a) && a < |s.pcs| && t < |s.terms| && MayMove(s, a, w, t, k, l)
    ensures TermsOk(Moved(s, a, w, t, k, l))
  {
    var s' := Moved(s, a, w, t, k, l);
    forall u: nat | u < |s.terms| ensures TermOk(s', u) {
      assert TermOk(s, u);
      TermCounts(s.pcs, a, w, u);
      NextSpares(s.pcs[a], w, t, u, 0, 0);
    }
  }

  lemma MovedLogs(s: State, a: nat, w: Pc, t: nat, k: TermRec, l: seq<nat>)
    requires Around(s, a) && a < |s.pcs| && t < |s.terms| && MayMove(s, a, w, t, k, l)
    ensures LogsOk(Moved(s, a, w, t, k, l))
  {
    var s' := Moved(s, a, w, t, k, l);
    forall u: nat | u < |s.terms| ensures LogOk(s', u) {
      assert TermOk(s, u) && LogOk(s, u);
      if s.terms[u].claimed.Some? {
        var x := Peer(s.conns[s.terms[u].claimed.value], u);
        if x < |s.terms| {
          CountUpdate(s.pcs, a, w, Pending(x));
          NextSpares(s.pcs[a], w, t, x, 0, 0);
        }
      }
    }
  }

  lemma MovedPorts(s: State, a: nat, w: Pc, t: nat, k: TermRec, l: seq<nat>)
    requires Around(s, a) && a < |s.pcs| && t < |s.terms| && MayMove(s, a, w, t, k, l)
    requires forall p | 0 <= p < |s.ports| :: !EndsSever(s.pcs[a], w, p)
    ensures PortsOk(Moved(s, a, w, t, k, l)) && PollsOk(Moved(s, a, w, t, k, l))
  {
    var s' := Moved(s, a, w, t, k, l);
    assert TermOk(s, t);
    forall p: nat | p < |s.ports| ensures PortOk(s', p) {
      assert PortOk(s, p);
      CountUpdate(s.pcs, a, w, Severs(p));
      NextSpares(s.pcs[a], w, t, 0, p, 0);
    }
    forall th | 0 <= th < |s.polls| ensures PollOk(s', th) { assert PollOk(s, th); }
  }

  lemma MovedPc(s: State, a: nat, w: Pc, t: nat, k: TermRec, l: seq<nat>, b: nat)
    requires a < |s.pcs| && t < |s.terms| && Mild(s, t, k) && b < |s.pcs| && b != a && PcOk(s, b)
    ensures PcOk(Moved(s, a, w, t, k, l), b)
  {
    var s' := Moved(s, a, w, t, k, l);
    if s.pcs[b].Delivering? {
      MovedEnds(s, a, w, t, k, l, s.pcs[b].t, s.pcs[b].o);
    } else if s.pcs[b].Telling? {
      MovedEnds(s, a, w, t, k, l, s.pcs[b].t, s.pcs[b].o);
    }
  }

  lemma MovedEnds(s: State, a: nat, w: Pc, t: nat, k: TermRec, l: seq<nat>, u: nat, o: nat)
    requires a < |s.pcs| && t < |s.terms| && Mild(s, t, k)
    requires u < |s.terms| && s.terms[u].claimed.Some? && Ends(s, s.terms[u].claimed.value, u, o)
    ensures var s' := Moved(s, a, w, t, k, l);
            s'.terms[u].claimed.Some? && Ends(s', s'.terms[u].claimed.value, u, o)
  {
  }

  lemma MovedRest(s: State, a: nat, w: Pc, t: nat, k: TermRec, l: seq<nat>)
    requires Around(s, a) && a < |s.pcs| && t < |s.terms| && MayMove(s, a, w, t, k, l)
    requires PcOk(Moved(s, a, w, t, k, l), a)
    ensures var s' := Moved(s, a, w, t, k, l); ConnsOk(s') && PcsOk(s') && QueueOk(s')
  {
    var s' := Moved(s, a, w, t, k, l);
    forall c | 0 <= c < |s.conns| ensures ConnOk(s', c) { assert ConnOk(s, c); }
    forall b | 0 <= b < |s.pcs| ensures PcOk(s', b) { if b != a { MovedPc(s, a, w, t, k, l, b); } }
  }

  lemma MovedSends(s: State, a: nat, w: Pc, t: nat, k: TermRec, l: seq<nat>)
    requires Around(s, a) && a < |s.pcs| && t < |s.terms| && NextPc(s.pcs[a], w, t)
    requires w.Sending? ==> w.id < |s.sends| && s.pcs[a].Quiet? && !s.sends[w.id].done && Count(s.pcs, Flies(w.id)) == 0
    ensures SendsOk(Moved(s, a, w, t, k, l))
  {
    var s' := Moved(s, a, w, t, k, l);
    forall id: nat | id < |s.sends| ensures SendOk(s', id) {
      assert SendOk(s, id);
      CountUpdate(s.pcs, a, w, Flies(id));
      NextSpares(s.pcs[a], w, t, 0, 0, id);
    }
  }

  /** The usual step: one actor moves on and one terminal's counters change. */
  lemma MoveKeeps(s: State, a: nat, w: Pc, t: nat, k: TermRec, l: seq<nat>)
    requires Around(s, a) && a < |s.pcs| && t < |s.terms| && MayMove(s, a, w, t, k, l)
    requires PcOk(Moved(s, a, w, t, k, l), a)
    requires w.Sending? ==> w.id < |s.sends| && s.pcs[a].Quiet? && !s.sends[w.id].done && Count(s.pcs, Flies(w.id)) == 0
    requires !(w.Quiet? && (s.pcs[a].Cut? || (s.pcs[a].Throwing? && s.pcs[a].k.ThenPort?)))
    ensures Inv(Moved(s, a, w, t, k, l))
  {
    MovedTerms(s, a, w, t, k, l);
    MovedLogs(s, a, w, t, k, l);
    MovedPorts(s, a, w, t, k, l);
    MovedRest(s, a, w, t, k, l);
    MovedSends(s, a, w, t, k, l);
  }

  /** Only the actor moves. */
  lemma StepOverKeeps(s: State, a: nat, w: Pc, t: nat)
    requires Inv(s) && a < |s.pcs| && t < |s.terms| && !w.Sending? && !w.Finding?
    requires NextPc(s.pcs[a], w, t) && !w.Quiet? && !w.Throwing? && !w.Delivering?
    requires s.pcs[a].Sending? || s.pcs[a].Asking? || s.pcs[a].Finding? || s.pcs[a].Telling?
    requires PcOk(SetPc(s, a, w), a)
    ensures Inv(SetPc(s, a, w))
  {
    assert TermOk(s, t);
    assert s.terms == s.terms[t := s.terms[t]];
    assert Moved(s, a, w, t, s.terms[t], s.queue) == SetPc(s, a, w);
    MoveKeeps(s, a, w, t, s.terms[t], s.queue);
  }

  // ---- SendToRemote ------------------------------------------------------

  lemma NewSendKeeps(s: State, t: nat)
    requires Inv(s) && t < |s.terms|
    ensures Inv(s.(sends := s.sends + [SendRec(t, false)]))
    ensures Count(s.pcs, Flies(|s.sends|)) == 0
  {
    var s' := s.(sends := s.sends + [SendRec(t, false)]);
    forall u | 0 <= u < |s.terms| ensures TermOk(s', u) && LogOk(s', u) { assert TermOk(s, u) && LogOk(s, u); }
    forall p | 0 <= p < |s.ports| ensures PortOk(s', p) { assert PortOk(s, p); }
    forall th | 0 <= th < |s.polls| ensures PollOk(s', th) { assert PollOk(s, th); }
    forall c | 0 <= c < |s.conns| ensures ConnOk(s', c) { assert ConnOk(s, c); }
    forall b | 0 <= b < |s.pcs| ensures PcOk(s', b) && Weight(s.pcs[b], Flies(|s.sends|)) == 0 { assert PcOk(s, b); }
    CountNone(s.pcs, Flies(|s.sends|));
    forall id: nat | id < |s'.sends| ensures SendOk(s', id) { if id < |s.sends| { assert SendOk(s, id); } }
  }

  lemma StartSendKeeps(s: State, a: nat, p: nat)
    requires Inv(s) && a < |s.pcs| && SendEnabled(s, a, StartSend(p))
    ensures Inv(ApplySend(s, a, StartSend(p)))
  {
    if s.ports[p].terminal.Some? && Retainable(s.terms[s.ports[p].terminal.value]) {
      var t := s.ports[p].terminal.value;
      NewSendKeeps(s, t);
      var s1 := s.(sends := s.sends + [SendRec(t, false)]);
      assert TermOk(s1, t);
      MoveKeeps(s1, a, Sending(t, |s.sends|), t, Retained(s.terms[t]), s.queue);
    }
  }

  lemma ReadConnectionKeeps(s: State, a: nat)
    requires Inv(s) && a < |s.pcs| && SendEnabled(s, a, ReadConnection)
    ensures Inv(ApplySend(s, a, ReadConnection))
  {
    var v := s.pcs[a];
    assert PcOk(s, a);
    match s.terms[v.t].connection
    case None => StepOverKeeps(s, a, DroppingSelf(v.t), v.t);
    case Some(c) => StepOverKeeps(s, a, Asking(v.t, c, v.id), v.t);
  }

  /** A sender that holds a reference is still registered, and Connect is over once the lock is free. */
  lemma SenderRegistered(s: State, a: nat)
    requires Inv(s) && a < |s.pcs| && s.pcs[a].Asking?
    ensures var v := s.pcs[a]; v.c < |s.conns| && Registered(s.conns[v.c], v.t) && !s.conns[v.c].freed
    ensures var v := s.pcs[a]; v.t < |s.terms| && s.terms[v.t].life.Alive? && s.terms[v.t].claimed == Some(v.c)
    ensures var v := s.pcs[a]; var o := OtherEnd(s.conns[v.c], v.t);
            o.Some? && s.conns[v.c].holder.None? ==> Ends(s, v.c, v.t, o.value)
  {
    var v := s.pcs[a];
    assert PcOk(s, a) && TermOk(s, v.t);
    CountAtLeast(s.pcs, a, Refs(v.t));
    assert ConnOk(s, v.c);
  }

  lemma AskKeeps(s: State, a: nat)
    requires Inv(s) && a < |s.pcs| && SendEnabled(s, a, Ask)
    ensures Inv(ApplySend(s, a, Ask))
  {
    var v := s.pcs[a];
    SenderRegistered(s, a);
    assert PcOk(s, a);
    var other := OtherEnd(s.conns[v.c], v.t);
    if other.Some? && Retainable(s.terms[other.value]) {
      var o := other.value;
      assert TermOk(s, o);
      MoveKeeps(s, a, Delivering(v.t, o, v.id), o, Retained(s.terms[o]), s.queue);
    } else {
      StepOverKeeps(s, a, DroppingSelf(v.t), v.t);
    }
  }

  predicate Dropping(v: Pc, t: nat, k: After) {
    (v.DroppingOther? && v.o == t && k == ThenSelf(v.t)) || (v == DroppingSelf(t) && k.ThenQuiet?)
    || (v.DroppingTold? && v.o == t && k == ThenDelete(v.t))
  }

  lemma DropThrows(s: State, a: nat, t: nat, k: After)
    requires Inv(s) && a < |s.pcs| && t < |s.terms| && Dropping(s.pcs[a], t, k) && ClosedOff(Released(s.terms[t]))
    ensures Inv(Drop(s, a, t, k))
  {
    assert PcOk(s, a) && TermOk(s, t);
    CountAtLeast(s.pcs, a, Refs(t));
    MoveKeeps(s, a, Throwing(t, k), t, Released(s.terms[t]), s.queue);
  }

  lemma DropKeeps(s: State, a: nat, t: nat, k: After)
    requires Inv(s) && a < |s.pcs| && t < |s.terms| && Dropping(s.pcs[a], t, k)
    ensures Inv(Drop(s, a, t, k))
  {
    if ClosedOff(Released(s.terms[t])) {
      DropThrows(s, a, t, k);
    } else {
      assert PcOk(s, a) && TermOk(s, t);
      CountAtLeast(s.pcs, a, Refs(t));
      MoveKeeps(s, a, Resume(k), t, Released(s.terms[t]), s.queue);
    }
  }

  lemma DropCreatorKeeps(s: State, a: nat, t: nat)
    requires Inv(s) && a < |s.pcs| && LinkEnabled(s, a, DropCreator(t))
    ensures Inv(ApplyLink(s, a, DropCreator(t)))
  {
    assert TermOk(s, t);
    MoveKeeps(s, a, DroppingSelf(t), t, s.terms[t].(creator := false), s.queue);
  }

  lemma CutPortKeeps(s: State, a: nat)
    requires Inv(s) && a < |s.pcs| && LinkEnabled(s, a, CutPort)
    ensures Inv(ApplyLink(s, a, CutPort))
  {
    var v := s.pcs[a];
    assert PcOk(s, a) && TermOk(s, v.t);
    CountAtLeast(s.pcs, a, Cuts(v.t));
    CountAtLeast(s.pcs, a, Refs(v.t));
    MoveKeeps(s, a, Cut(v.p, v.t), v.t, s.terms[v.t].(port := None), s.queue);
  }

  /** ThrowAway, when no Sever is waiting for it. */
  lemma ThrowMayMove(s: State, a: nat)
    requires Inv(s) && a < |s.pcs| && SendEnabled(s, a, ThrowAway)
    ensures var v := s.pcs[a]; MayMove(s, a, Resume(v.k), v.o, s.terms[v.o].(life := Thrown), s.queue + [v.o])
  {
    var v := s.pcs[a];
    assert TermOk(s, v.o);
    CountAtLeast(s.pcs, a, Throws(v.o));
    DistinctSnoc(s.queue, v.o);
  }

  lemma ThrowKeeps(s: State, a: nat)
    requires Inv(s) && a < |s.pcs| && SendEnabled(s, a, ThrowAway) && !s.pcs[a].k.ThenPort?
    ensures Inv(ApplySend(s, a, ThrowAway))
  {
    var v := s.pcs[a];
    ThrowMayMove(s, a);
    assert PcOk(s, a);
    MoveKeeps(s, a, Resume(v.k), v.o, s.terms[v.o].(life := Thrown), s.queue + [v.o]);
  }

  lemma CollectKeeps(s: State, a: nat)
    requires Inv(s) && a < |s.pcs| && HangupEnabled(s, a, Collect)
    ensures Inv(ApplyHangup(s, a, Collect))
  {
    var t := s.queue[0];
    assert s.queue == [t] + s.queue[1..];
    assert TermOk(s, t);
    if s.terms[t].claimed.Some? { assert ConnOk(s, s.terms[t].claimed.value); }
    MoveKeeps(s, a, Finding(t), t, s.terms[t].(life := Hanging), s.queue[1..]);
  }

  /** A terminal being deallocated is out of Connect: its connection, if any, is the one made for it. */
  lemma HangingStored(s: State, t: nat)
    requires Inv(s) && t < |s.terms| && !s.terms[t].life.Alive?
    ensures s.terms[t].claimed.Some? ==>
      s.terms[t].claimed.value < |s.conns| && s.conns[s.terms[t].claimed.value].progress == 5
    ensures s.terms[t].connection == s.terms[t].claimed
  {
    assert TermOk(s, t);
    if s.terms[t].claimed.Some? {
      var c := s.terms[t].claimed.value;
      assert ConnOk(s, c);
      if s.conns[c].holder.Some? { CountAtLeast(s.pcs, s.conns[c].holder.value, Refs(t)); }
    }
  }

  lemma ReadHangupKeeps(s: State, a: nat)
    requires Inv(s) && a < |s.pcs| && HangupEnabled(s, a, ReadHangup)
    ensures Inv(ApplyHangup(s, a, ReadHangup))
  {
    var t := s.pcs[a].t;
    assert PcOk(s, a) && TermOk(s, t);
    CountAtLeast(s.pcs, a, Hangs(t));
    HangingStored(s, t);
    match s.terms[t].connection
    case None => StepOverKeeps(s, a, Deleting(t), t);
    case Some(c) => StepOverKeeps(s, a, Closing(t, c), t);
  }

  lemma DeleteKeeps(s: State, a: nat)
    requires Inv(s) && a < |s.pcs| && HangupEnabled(s, a, Delete)
    ensures Inv(ApplyHangup(s, a, Delete))
  {
    var t := s.pcs[a].t;
    assert PcOk(s, a) && TermOk(s, t);
    CountAtLeast(s.pcs, a, Hangs(t));
    MoveKeeps(s, a, Quiet, t, s.terms[t].(life := Deleted), s.queue);
  }

  // ---- deliveries --------------------------------------------------------

  /** A port that a terminal can still reach may be posted to. */
  lemma PostKeeps(s: State, p: nat, m: Msg)
    requires Inv(s) && PortInRange(s, p) && !s.ports[p].phase.Unqueued? && !s.ports[p].phase.Gone?
    ensures Inv(SendToThis(s, p, m))
  {
    var s' := SendToThis(s, p, m);
    var th := s.ports[p].thread;
    assert PortOk(s, p) && PollOk(s, th);
    if !s.ports[p].isQueued { DistinctSnoc(s.polls[th], p); }
    forall t | 0 <= t < |s.terms| ensures TermOk(s', t) && LogOk(s', t) { assert TermOk(s, t) && LogOk(s, t); }
    forall q | 0 <= q < |s.ports| ensures PortOk(s', q) { assert PortOk(s, q); }
    forall h | 0 <= h < |s.polls| ensures PollOk(s', h) { assert PollOk(s, h); }
    forall c | 0 <= c < |s.conns| ensures ConnOk(s', c) { assert ConnOk(s, c); }
    forall b | 0 <= b < |s.pcs| ensures PcOk(s', b) { assert PcOk(s, b); }
    forall id: nat | id < |s.sends| ensures SendOk(s', id) { assert SendOk(s, id); }
  }

  /** A terminal's port is in use or in the middle of Sever, never deleted. */
  lemma PortAlive(s: State, t: nat)
    requires Inv(s) && t < |s.terms| && s.terms[t].port.Some?
    ensures var p := s.terms[t].port.value; PortInRange(s, p) && (s.ports[p].phase.Open? || s.ports[p].phase.Severing?)
  {
    assert TermOk(s, t);
    assert PortOk(s, s.terms[t].home);
  }

  /** Two actors cannot both be the only one. */
  lemma {:induction false} CountTwo(pcs: seq<Pc>, a: nat, b: nat, q: Query)
    requires a < b < |pcs|
    ensures Count(pcs, q) >= Weight(pcs[a], q) + Weight(pcs[b], q)
  {
    if a > 0 { CountTwo(pcs[1..], a - 1, b - 1, q); } else { CountAtLeast(pcs[1..], b - 1, q); }
  }

  /** The message is in flight only here, so no terminal has received it. */
  lemma InFlight(s: State, a: nat)
    requires Inv(s) && a < |s.pcs| && s.pcs[a].Delivering?
    ensures var id := s.pcs[a].id; id < |s.sends| && s.sends[id] == SendRec(s.pcs[a].t, false)
    ensures forall b | 0 <= b < |s.pcs| && b != a :: Weight(s.pcs[b], Flies(s.pcs[a].id)) == 0
    ensures forall u | 0 <= u < |s.terms| :: Data(s.pcs[a].id) !in s.terms[u].log
  {
    var id := s.pcs[a].id;
    assert PcOk(s, a) && SendOk(s, id);
    forall b | 0 <= b < |s.pcs| && b != a ensures Weight(s.pcs[b], Flies(id)) == 0 {
      if a < b { CountTwo(s.pcs, a, b, Flies(id)); } else { CountTwo(s.pcs, b, a, Flies(id)); }
    }
    forall u | 0 <= u < |s.terms| ensures Data(id) !in s.terms[u].log { assert TermOk(s, u) && LogOk(s, u); }
  }

  /** The actor and the send records after a delivery, before the log. */
  function Launched(s: State, a: nat): State
    requires a < |s.pcs| && s.pcs[a].Delivering? && s.pcs[a].id < |s.sends|
  {
    var v := s.pcs[a];
    SetPc(s, a, DroppingOther(v.t, v.o)).(sends := s.sends[v.id := s.sends[v.id].(done := true)])
  }

  lemma LaunchTerms(s: State, a: nat)
    requires Inv(s) && a < |s.pcs| && s.pcs[a].Delivering? && s.pcs[a].id < |s.sends|
    ensures TermsOk(Launched(s, a))
  {
    var s' := Launched(s, a);
    InFlight(s, a);
    forall u: nat | u < |s.terms| ensures TermOk(s', u) {
      assert TermOk(s, u);
      TermCounts(s.pcs, a, s'.pcs[a], u);
    }
  }

  lemma LaunchLogs(s: State, a: nat)
    requires Inv(s) && a < |s.pcs| && s.pcs[a].Delivering? && s.pcs[a].id < |s.sends|
    ensures LogsOk(Launched(s, a))
  {
    var s' := Launched(s, a);
    InFlight(s, a);
    forall u: nat | u < |s.terms| ensures LogOk(s', u) {
      assert TermOk(s, u) && LogOk(s, u);
      if s.terms[u].claimed.Some? {
        CountUpdate(s.pcs, a, s'.pcs[a], Pending(Peer(s.conns[s.terms[u].claimed.value], u)));
      }
    }
  }

  lemma LaunchPc(s: State, a: nat, b: nat)
    requires Inv(s) && a < |s.pcs| && s.pcs[a].Delivering? && s.pcs[a].id < |s.sends| && b < |s.pcs| && b != a
    ensures PcOk(Launched(s, a), b)
  {
    InFlight(s, a);
    assert PcOk(s, b) && Weight(s.pcs[b], Flies(s.pcs[a].id)) == 0;
  }

  lemma LaunchKeeps(s: State, a: nat)
    requires Inv(s) && a < |s.pcs| && s.pcs[a].Delivering? && s.pcs[a].id < |s.sends|
    ensures Inv(Launched(s, a))
  {
    var v := s.pcs[a];
    var s' := Launched(s, a);
    LaunchTerms(s, a);
    LaunchLogs(s, a);
    InFlight(s, a);
    assert PcOk(s, a);
    forall p: nat | p < |s.ports|
      ensures PortOk(s', p)
    {
      assert PortOk(s, p);
      CountUpdate(s.pcs, a, s'.pcs[a], Severs(p));
    }
    forall h | 0 <= h < |s.polls| ensures PollOk(s', h) { assert PollOk(s, h); }
    forall c | 0 <= c < |s.conns| ensures ConnOk(s', c) { assert ConnOk(s, c); }
    forall b: nat | b < |s.pcs| ensures PcOk(s', b) { if b != a { LaunchPc(s, a, b); } }
    forall id: nat | id < |s.sends| ensures SendOk(s', id) {
      assert SendOk(s, id);
      CountUpdate(s.pcs, a, s'.pcs[a], Flies(id));
    }
  }

  /** A message that fits at the end of terminal t's log. */
  predicate FitsLog(s: State, t: nat, m: Msg)
    requires t < |s.terms|
  {
    var k := s.terms[t];
    && k.claimed.Some? && IsEnd(s, k.claimed.value, t) && m !in k.log && Closed !in k.log
    && var c := s.conns[k.claimed.value];
       var u := Peer(c, t);
       Greeted(c, t)
       && (match m
           case Opened => k.log == []
           case Data(id) => k.log != [] && id < |s.sends| && s.sends[id] == SendRec(u, true)
           case Closed =>
             k.log != [] && u < |s.terms| && (s.terms[u].life.Hanging? || s.terms[u].life.Deleted?)
             && Count(s.pcs, Pending(u)) == 0)
  }

  lemma WellFormedSnoc(log: seq<Msg>, m: Msg)
    requires WellFormed(log) && Closed !in log && (log == [] <==> m.Opened?)
    ensures WellFormed(log + [m])
  {
    assert forall i | 0 <= i < |log| :: log[i] in log;
  }

  lemma LogExtends(s: State, t: nat, m: Msg)
    requires Inv(s) && t < |s.terms| && FitsLog(s, t, m)
    ensures LogsOk(SetTerm(s, t, s.terms[t].(log := s.terms[t].log + [m])))
  {
    var s' := SetTerm(s, t, s.terms[t].(log := s.terms[t].log + [m]));
    assert TermOk(s, t) && LogOk(s, t);
    DistinctSnoc(s.terms[t].log, m);
    WellFormedSnoc(s.terms[t].log, m);
    forall u | 0 <= u < |s.terms| ensures LogOk(s', u) { assert LogOk(s, u); }
  }

  /** No actor's next section depends on what was delivered. */
  lemma LogPc(s: State, t: nat, log: seq<Msg>, b: nat)
    requires t < |s.terms| && b < |s.pcs| && PcOk(s, b)
    ensures PcOk(SetTerm(s, t, s.terms[t].(log := log)), b)
  {
  }

  lemma LogKeeps(s: State, t: nat, m: Msg)
    requires Inv(s) && t < |s.terms| && FitsLog(s, t, m)
    ensures Inv(SetTerm(s, t, s.terms[t].(log := s.terms[t].log + [m])))
  {
    var s' := SetTerm(s, t, s.terms[t].(log := s.terms[t].log + [m]));
    LogExtends(s, t, m);
    forall u | 0 <= u < |s.terms| ensures TermOk(s', u) { assert TermOk(s, u); }
    forall q | 0 <= q < |s.ports| ensures PortOk(s', q) { assert PortOk(s, q); }
    forall h | 0 <= h < |s.polls| ensures PollOk(s', h) { assert PollOk(s, h); }
    forall c | 0 <= c < |s.conns| ensures ConnOk(s', c) { assert ConnOk(s, c); }
    forall b: nat | b < |s.pcs| ensures PcOk(s', b) { LogPc(s, t, s.terms[t].log + [m], b); }
    forall id: nat | id < |s.sends| ensures SendOk(s', id) { assert SendOk(s, id); }
  }

  /** Terminal::Deliver of a fitting message. */
  lemma DeliveredKeeps(s: State, t: nat, m: Msg)
    requires Inv(s) && TermInRange(s, t) && (s.terms[t].port.Some? ==> FitsLog(s, t, m))
    ensures Inv(Delivered(s, t, m))
  {
    if s.terms[t].port.Some? {
      PortAlive(s, t);
      PostKeeps(s, s.terms[t].port.value, m);
      LogKeeps(SendToThis(s, s.terms[t].port.value, m), t, m);
    }
  }

  lemma DeliverKeeps(s: State, a: nat)
    requires Inv(s) && a < |s.pcs| && SendEnabled(s, a, Deliver)
    ensures Inv(ApplySend(s, a, Deliver))
  {
    var v := s.pcs[a];
    var s1 := Launched(s, a);
    InFlight(s, a);
    LaunchKeeps(s, a);
    assert PcOk(s, a) && TermOk(s, v.t) && TermOk(s, v.o) && LogOk(s, v.o);
    CountAtLeast(s.pcs, a, Refs(v.t));
    assert TermOk(s1, v.o) && LogOk(s1, v.o);
    assert ConnOk(s, s.terms[v.o].claimed.value);
    DeliveredKeeps(s1, v.o, Data(v.id));
  }

  /** While the telling of t's peer is pending, it is pending exactly once and the peer's log is open. */
  lemma TellOnce(s: State, a: nat)
    requires Inv(s) && a < |s.pcs| && s.pcs[a].Telling?
    ensures var v := s.pcs[a]; v.t < |s.terms| && s.terms[v.t].life.Hanging? && Count(s.pcs, Pending(v.t)) == 1
    ensures var v := s.pcs[a]; v.o < |s.terms| && Closed !in s.terms[v.o].log
  {
    var v := s.pcs[a];
    assert PcOk(s, a) && TermOk(s, v.t) && TermOk(s, v.o) && LogOk(s, v.o);
    CountAtLeast(s.pcs, a, Pending(v.t));
    CountAtLeast(s.pcs, a, Hangs(v.t));
    PendingHangs(s.pcs, v.t);
    assert ConnOk(s, s.terms[v.t].claimed.value);
  }

  lemma TellKeeps(s: State, a: nat)
    requires Inv(s) && a < |s.pcs| && HangupEnabled(s, a, Tell)
    ensures Inv(ApplyHangup(s, a, Tell))
  {
    var v := s.pcs[a];
    TellOnce(s, a);
    assert PcOk(s, a) && TermOk(s, v.t) && TermOk(s, v.o);
    StepOverKeeps(s, a, DroppingTold(v.t, v.o), v.t);
    var s1 := SetPc(s, a, DroppingTold(v.t, v.o));
    CountUpdate(s.pcs, a, s1.pcs[a], Pending(v.t));
    assert TermOk(s1, v.o) && LogOk(s1, v.o);
    assert ConnOk(s, s.terms[v.o].claimed.value);
    DeliveredKeeps(s1, v.o, Closed);
  }

  // ---- Sever -------------------------------------------------------------

  /** A port's terminal still has that port: the assertion in GetTerminal holds. */
  lemma PortTerminal(s: State, p: nat)
    requires Inv(s) && p < |s.ports| && s.ports[p].terminal.Some?
    ensures var t := s.ports[p].terminal.value; t < |s.terms| && Retainable(s.terms[t]) && s.terms[t].home == p
  {
    assert PortOk(s, p);
    assert TermOk(s, s.ports[p].terminal.value);
  }

  /** The state after the first section of Sever. */
  function Taken(s: State, a: nat, p: nat, t: nat, destroy: bool): State
    requires a < |s.pcs| && p < |s.ports| && t < |s.terms|
  {
    SetPc(SetPort(SetTerm(s, t, Retained(s.terms[t])), p, s.ports[p].(terminal := None, phase := Severing(destroy))),
      a, Cutting(p, t))
  }

  lemma TakenTerms(s: State, a: nat, p: nat, t: nat, destroy: bool)
    requires Inv(s) && a < |s.pcs| && s.pcs[a].Quiet? && p < |s.ports| && s.ports[p].terminal == Some(t)
      && t < |s.terms|
    ensures TermsOk(Taken(s, a, p, t, destroy))
  {
    var s' := Taken(s, a, p, t, destroy);
    assert PortOk(s, p) && TermOk(s, t);
    forall u: nat | u < |s.terms| ensures TermOk(s', u) {
      assert TermOk(s, u);
      StartCounts(s.pcs, a, Cutting(p, t), u);
    }
  }

  lemma TakenLogs(s: State, a: nat, p: nat, t: nat, destroy: bool)
    requires Inv(s) && a < |s.pcs| && s.pcs[a].Quiet? && p < |s.ports| && s.ports[p].terminal == Some(t)
      && t < |s.terms|
    ensures LogsOk(Taken(s, a, p, t, destroy))
  {
    var s' := Taken(s, a, p, t, destroy);
    forall u: nat | u < |s.terms| ensures LogOk(s', u) {
      assert TermOk(s, u) && LogOk(s, u);
      if s.terms[u].claimed.Some? {
        CountUpdate(s.pcs, a, s'.pcs[a], Pending(Peer(s.conns[s.terms[u].claimed.value], u)));
      }
    }
  }

  lemma TakenPorts(s: State, a: nat, p: nat, t: nat, destroy: bool)
    requires Inv(s) && a < |s.pcs| && s.pcs[a].Quiet? && p < |s.ports| && s.ports[p].terminal == Some(t)
      && t < |s.terms|
    ensures PortsOk(Taken(s, a, p, t, destroy)) && PollsOk(Taken(s, a, p, t, destroy))
  {
    var s' := Taken(s, a, p, t, destroy);
    assert PortOk(s, p);
    forall q: nat | q < |s.ports|
      ensures PortOk(s', q)
    {
      assert PortOk(s, q);
      CountUpdate(s.pcs, a, s'.pcs[a], Severs(q));
    }
    forall h | 0 <= h < |s.polls| ensures PollOk(s', h) { assert PollOk(s, h); }
  }

  lemma TakenKeeps(s: State, a: nat, p: nat, t: nat, destroy: bool)
    requires Inv(s) && a < |s.pcs| && s.pcs[a].Quiet? && p < |s.ports| && s.ports[p].terminal == Some(t)
      && t < |s.terms|
    ensures Inv(Taken(s, a, p, t, destroy))
  {
    var s' := Taken(s, a, p, t, destroy);
    TakenTerms(s, a, p, t, destroy);
    TakenLogs(s, a, p, t, destroy);
    TakenPorts(s, a, p, t, destroy);
    PortTerminal(s, p);
    assert PortOk(s, p);
    forall c | 0 <= c < |s.conns| ensures ConnOk(s', c) { assert ConnOk(s, c); }
    forall b | 0 <= b < |s.pcs| ensures PcOk(s', b) { assert PcOk(s, b); }
    forall id: nat | id < |s.sends|
      ensures SendOk(s', id)
    {
      assert SendOk(s, id);
      CountUpdate(s.pcs, a, s'.pcs[a], Flies(id));
    }
  }

  /** No terminal has port p any more: neither through the port nor through an unfinished Sever. */
  predicate Abandoned(s: State, p: nat) {
    forall t | 0 <= t < |s.terms| :: s.terms[t].port != Some(p)
  }

  /** Only a port's phase changes, to one that no terminal minds. */
  lemma PhaseTerms(s: State, p: nat, f: Phase)
    requires p < |s.ports| && TermsOk(s) && LogsOk(s)
    requires f.Severing? || Abandoned(s, p) || s.ports[p].phase == f
    ensures TermsOk(SetPort(s, p, s.ports[p].(phase := f))) && LogsOk(SetPort(s, p, s.ports[p].(phase := f)))
  {
    var s' := SetPort(s, p, s.ports[p].(phase := f));
    forall u | 0 <= u < |s.terms| ensures TermOk(s', u) && LogOk(s', u) { assert TermOk(s, u) && LogOk(s, u); }
  }

  /** An actor about to return from Sever has left its port without a terminal. */
  lemma SeverDone(s: State, a: nat, p: nat)
    requires Inv(s) && a < |s.pcs| && p < |s.ports| && (s.pcs[a].Cut? || s.pcs[a].Throwing?)
      && Weight(s.pcs[a], Severs(p)) == 1
    ensures Abandoned(s, p) && s.ports[p].phase.Severing? && s.ports[p].terminal.None? && Count(s.pcs, Severs(p)) == 1
  {
    assert PortOk(s, p);
    CountAtLeast(s.pcs, a, Severs(p));
    forall t | 0 <= t < |s.terms| ensures s.terms[t].port != Some(p) {
      assert TermOk(s, t);
      if s.terms[t].port == Some(p) {
        if forall b | 0 <= b < |s.pcs| :: Weight(s.pcs[b], Cuts(t)) == 0 { CountNone(s.pcs, Cuts(t)); }
        var b :| 0 <= b < |s.pcs| && Weight(s.pcs[b], Cuts(t)) != 0;
        assert PcOk(s, b);
        if a < b { CountTwo(s.pcs, a, b, Severs(p)); } else { CountTwo(s.pcs, b, a, Severs(p)); }
      }
    }
  }

  lemma EndSeverKeeps(s: State, a: nat, p: nat, t: nat, k: TermRec, l: seq<nat>)
    requires Inv(s) && a < |s.pcs| && p < |s.ports| && t < |s.terms|
    requires EndsSever(s.pcs[a], Quiet, p) && MayMove(s, a, Quiet, t, k, l) && (k.port == s.terms[t].port)
    ensures Inv(Finish(Moved(s, a, Quiet, t, k, l), ThenPort(p)))
  {
    var s1 := Moved(s, a, Quiet, t, k, l);
    var s' := Finish(s1, ThenPort(p));
    SeverDone(s, a, p);
    MovedTerms(s, a, Quiet, t, k, l);
    MovedLogs(s, a, Quiet, t, k, l);
    MovedRest(s, a, Quiet, t, k, l);
    MovedSends(s, a, Quiet, t, k, l);
    PhaseTerms(s1, p, s'.ports[p].phase);
    EndSeverPorts(s, a, p, t, k, l);
    forall c | 0 <= c < |s.conns| ensures ConnOk(s', c) { assert ConnOk(s1, c); }
    forall b | 0 <= b < |s.pcs| ensures PcOk(s', b) { assert PcOk(s1, b); }
    forall id: nat | id < |s.sends| ensures SendOk(s', id) { assert SendOk(s1, id); }
  }

  lemma EndSeverPorts(s: State, a: nat, p: nat, t: nat, k: TermRec, l: seq<nat>)
    requires Inv(s) && a < |s.pcs| && p < |s.ports| && t < |s.terms|
    requires EndsSever(s.pcs[a], Quiet, p) && MayMove(s, a, Quiet, t, k, l) && (k.port == s.terms[t].port)
    requires s.ports[p].phase.Severing? && s.ports[p].terminal.None? && Count(s.pcs, Severs(p)) == 1
    ensures var s' := Finish(Moved(s, a, Quiet, t, k, l), ThenPort(p)); PortsOk(s') && PollsOk(s')
  {
    var s' := Finish(Moved(s, a, Quiet, t, k, l), ThenPort(p));
    forall q: nat | q < |s.ports| ensures PortOk(s', q) {
      assert PortOk(s, q);
      CountUpdate(s.pcs, a, Quiet, Severs(q));
      NextSpares(s.pcs[a], Quiet, t, 0, q, 0);
    }
    forall h | 0 <= h < |s.polls| ensures PollOk(s', h) { assert PollOk(s, h); }
  }

  lemma DropCutKeeps(s: State, a: nat)
    requires Inv(s) && a < |s.pcs| && LinkEnabled(s, a, DropCut)
    ensures Inv(ApplyLink(s, a, DropCut))
  {
    var v := s.pcs[a];
    var n := Released(s.terms[v.t]);
    assert PcOk(s, a) && TermOk(s, v.t);
    CountAtLeast(s.pcs, a, Refs(v.t));
    if ClosedOff(n) {
      var w := Throwing(v.t, ThenPort(v.p));
      assert MayMove(s, a, w, v.t, n, s.queue);
      MoveKeeps(s, a, w, v.t, n, s.queue);
    } else {
      EndSeverKeeps(s, a, v.p, v.t, n, s.queue);
    }
  }

  lemma ThrowAfterSeverKeeps(s: State, a: nat)
    requires Inv(s) && a < |s.pcs| && SendEnabled(s, a, ThrowAway) && s.pcs[a].k.ThenPort?
    ensures Inv(ApplySend(s, a, ThrowAway))
  {
    var v := s.pcs[a];
    assert PcOk(s, a) && TermOk(s, v.o);
    CountAtLeast(s.pcs, a, Throws(v.o));
    DistinctSnoc(s.queue, v.o);
    EndSeverKeeps(s, a, v.k.p, v.o, s.terms[v.o].(life := Thrown), s.queue + [v.o]);
  }

  lemma PhaseKeeps(s: State, p: nat, f: Phase)
    requires Inv(s) && p < |s.ports| && Abandoned(s, p) && !s.ports[p].phase.Severing? && !f.Severing?
    requires f.Open? || s.ports[p].terminal.None?
    requires f.Unqueued? || f.Gone? ==> !s.ports[p].isQueued
    ensures Inv(SetPort(s, p, s.ports[p].(phase := f)))
  {
    var s' := SetPort(s, p, s.ports[p].(phase := f));
    PhaseTerms(s, p, f);
    forall q | 0 <= q < |s.ports| ensures PortOk(s', q) { assert PortOk(s, q); }
    forall h | 0 <= h < |s.polls| ensures PollOk(s', h) { assert PollOk(s, h); }
    forall c | 0 <= c < |s.conns| ensures ConnOk(s', c) { assert ConnOk(s, c); }
    forall b | 0 <= b < |s.pcs| ensures PcOk(s', b) { assert PcOk(s, b); }
    forall id: nat | id < |s.sends| ensures SendOk(s', id) { assert SendOk(s, id); }
  }

  /** A port outside Sever that has no terminal is abandoned. */
  lemma IdlePortAbandoned(s: State, p: nat)
    requires Inv(s) && p < |s.ports| && s.ports[p].terminal.None? && !s.ports[p].phase.Severing?
    ensures Abandoned(s, p)
  {
    forall t | 0 <= t < |s.terms| ensures s.terms[t].port != Some(p) { assert TermOk(s, t); }
  }

  lemma StartSeverKeeps(s: State, a: nat, p: nat, destroy: bool)
    requires Inv(s) && a < |s.pcs| && LinkEnabled(s, a, StartSever(p, destroy))
    ensures Inv(ApplyLink(s, a, StartSever(p, destroy)))
  {
    if s.ports[p].terminal.Some? {
      PortTerminal(s, p);
      TakenKeeps(s, a, p, s.ports[p].terminal.value, destroy);
    } else {
      IdlePortAbandoned(s, p);
      PhaseKeeps(s, p, AfterSever(Severing(destroy)));
    }
  }

  // ---- Close -------------------------------------------------------------

  /** The collector's terminal is registered in the connection it closes: the assertion in Close holds. */
  lemma CloserRegistered(s: State, a: nat)
    requires Inv(s) && a < |s.pcs| && s.pcs[a].Closing?
    ensures var v := s.pcs[a]; v.t < |s.terms| && s.terms[v.t].life.Hanging? && s.terms[v.t].claimed == Some(v.c)
    ensures var v := s.pcs[a]; v.c < |s.conns| && Registered(s.conns[v.c], v.t) && !s.conns[v.c].freed
    ensures var v := s.pcs[a]; var o := OtherEnd(s.conns[v.c], v.t);
            s.conns[v.c].holder.None? && o.Some? ==> Ends(s, v.c, v.t, o.value)
  {
    var v := s.pcs[a];
    assert PcOk(s, a) && TermOk(s, v.t);
    CountAtLeast(s.pcs, a, Hangs(v.t));
    assert ConnOk(s, v.c);
  }

  function WithoutEnd(k: ConnRec, t: nat): ConnRec {
    var k' := if k.terminal1 == Some(t) then k.(terminal1 := None) else k.(terminal2 := None);
    k'.(freed := k'.terminal1.None? && k'.terminal2.None?)
  }

  /** The connection forgets terminal t, which is being deallocated. */
  lemma ForgetEnd(s: State, a: nat)
    requires Inv(s) && a < |s.pcs| && HangupEnabled(s, a, Close)
    ensures var v := s.pcs[a]; var s' := SetConn(s, v.c, WithoutEnd(s.conns[v.c], v.t));
            Around(s', a) && Unregistered(s', v.t) && OtherEnd(s.conns[v.c], v.t).Some? == !s'.conns[v.c].freed
  {
    var v := s.pcs[a];
    var s' := SetConn(s, v.c, WithoutEnd(s.conns[v.c], v.t));
    CloserRegistered(s, a);
    forall u | 0 <= u < |s.terms| ensures TermOk(s', u) && LogOk(s', u) { assert TermOk(s, u) && LogOk(s, u); }
    forall q | 0 <= q < |s.ports| ensures PortOk(s', q) { assert PortOk(s, q); }
    forall h | 0 <= h < |s.polls| ensures PollOk(s', h) { assert PollOk(s, h); }
    forall c | 0 <= c < |s.conns| ensures ConnOk(s', c) { assert ConnOk(s, c); }
    forall b: nat | b < |s.pcs| && b != a ensures PcOk(s', b) { ForgetPc(s, a, b); }
    forall id: nat | id < |s.sends| ensures SendOk(s', id) { assert SendOk(s, id); }
  }

  /** Nobody else is deallocating t. */
  lemma OneCloser(s: State, a: nat, b: nat)
    requires Inv(s) && a < |s.pcs| && HangupEnabled(s, a, Close) && b < |s.pcs| && b != a
    ensures Weight(s.pcs[b], Hangs(s.pcs[a].t)) == 0
  {
    var v := s.pcs[a];
    CloserRegistered(s, a);
    assert TermOk(s, v.t);
    if a < b { CountTwo(s.pcs, a, b, Hangs(v.t)); } else { CountTwo(s.pcs, b, a, Hangs(v.t)); }
  }

  lemma ForgetElsewhere(s: State, c: nat, t: nat, b: nat)
    requires c < |s.conns| && b < |s.pcs| && ConnOk(s, c) && s.conns[c].holder.None? && Registered(s.conns[c], t)
    requires PcOk(s, b) && Weight(s.pcs[b], Hangs(t)) == 0
    ensures PcOk(SetConn(s, c, WithoutEnd(s.conns[c], t)), b)
  {
  }

  lemma ForgetPc(s: State, a: nat, b: nat)
    requires Inv(s) && a < |s.pcs| && HangupEnabled(s, a, Close) && b < |s.pcs| && b != a
    ensures var v := s.pcs[a]; PcOk(SetConn(s, v.c, WithoutEnd(s.conns[v.c], v.t)), b)
  {
    var v := s.pcs[a];
    CloserRegistered(s, a);
    OneCloser(s, a, b);
    ForgetElsewhere(s, v.c, v.t, b);
  }

  lemma CloseTells(s: State, a: nat, o: nat)
    requires Inv(s) && a < |s.pcs| && HangupEnabled(s, a, Close)
    requires OtherEnd(s.conns[s.pcs[a].c], s.pcs[a].t) == Some(o) && o < |s.terms| && Retainable(s.terms[o])
    ensures Inv(ApplyHangup(s, a, Close))
  {
    var v := s.pcs[a];
    var s1 := SetConn(s, v.c, WithoutEnd(s.conns[v.c], v.t));
    CloserRegistered(s, a);
    ForgetEnd(s, a);
    assert TermOk(s, o);
    MoveKeeps(s1, a, Telling(v.t, o), o, Retained(s.terms[o]), s.queue);
  }

  lemma CloseKeeps(s: State, a: nat)
    requires Inv(s) && a < |s.pcs| && HangupEnabled(s, a, Close)
    ensures Inv(ApplyHangup(s, a, Close))
  {
    var v := s.pcs[a];
    var s1 := SetConn(s, v.c, WithoutEnd(s.conns[v.c], v.t));
    var other := OtherEnd(s.conns[v.c], v.t);
    if other.Some? && Retainable(s.terms[other.value]) {
      CloseTells(s, a, other.value);
    } else {
      CloserRegistered(s, a);
      ForgetEnd(s, a);
      assert TermOk(s, v.t);
      assert s.terms == s.terms[v.t := s.terms[v.t]];
      MoveKeeps(s1, a, Deleting(v.t), v.t, s.terms[v.t], s.queue);
    }
  }
}
