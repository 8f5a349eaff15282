/**
 * Ports, terminals and connections as a transition system.
 *
 * Any number of actors run the operations of the code side by side; a step is one section under
 * a port, terminal, connection or poll-state lock, or one read of a terminal's connection.  The
 * collector is an actor that takes a terminal from the queue.  Identifiers are indices.
 */
module Ipc {
  import opened Common

  datatype Msg = Opened | Data(id: nat) | Closed

  /** Where a port is in its life: in use, inside Sever, severed for good, off the pending list, deleted. */
  datatype Phase = Open | Severing(destroy: bool) | Severed | Unqueued | Gone

  datatype PortRec = PortRec(terminal: Option<nat>, phase: Phase, isQueued: bool, lastMessage: Option<Msg>, thread: nat)

  datatype Life = Alive | Thrown | Hanging | Deleted

  /**
   * `home` is the port the terminal was built for, `creator` the creator's own reference,
   * `claimed` the connection that was made for it, `log` what its port received through it.
   */
  datatype TermRec = TermRec(
    port: Option<nat>, retainCount: int, connection: Option<nat>,
    home: nat, creator: bool, claimed: Option<nat>, life: Life, log: seq<Msg>)

  /** `progress` counts the finished sections of Connect, which holds the lock until the last. */
  datatype ConnRec = ConnRec(
    terminal1: Option<nat>, terminal2: Option<nat>, holder: Option<nat>,
    a: nat, b: nat, progress: nat, freed: bool)

  /** One call of Port::SendToRemote: the terminal it started from and whether its message arrived. */
  datatype SendRec = SendRec(from: nat, done: bool)

  datatype After = ThenQuiet | ThenSelf(t: nat) | ThenPort(p: nat) | ThenDelete(t: nat)

  /** The next section an actor will run. */
  datatype Pc =
    | Quiet
    | Sending(t: nat, id: nat)
    | Asking(t: nat, c: nat, id: nat)
    | Delivering(t: nat, o: nat, id: nat)
    | DroppingOther(t: nat, o: nat)
    | DroppingSelf(t: nat)
    | Throwing(o: nat, k: After)
    | Cutting(p: nat, t: nat)
    | Cut(p: nat, t: nat)
    | Linking(c: nat, t1: nat, t2: nat)
    | Finding(t: nat)
    | Closing(t: nat, c: nat)
    | Telling(t: nat, o: nat)
    | DroppingTold(t: nat, o: nat)
    | Deleting(t: nat)

  datatype State = State(
    ports: seq<PortRec>, terms: seq<TermRec>, conns: seq<ConnRec>, sends: seq<SendRec>,
    polls: seq<seq<nat>>, queue: seq<nat>, pcs: seq<Pc>)

  // ---- effects -----------------------------------------------------------

  function SetPc(s: State, a: nat, v: Pc): State
    requires a < |s.pcs|
  {
    s.(pcs := s.pcs[a := v])
  }

  function SetTerm(s: State, t: nat, k: TermRec): State
    requires t < |s.terms|
  {
    s.(terms := s.terms[t := k])
  }

  function SetPort(s: State, p: nat, k: PortRec): State
    requires p < |s.ports|
  {
    s.(ports := s.ports[p := k])
  }

  function SetConn(s: State, c: nat, k: ConnRec): State
    requires c < |s.conns|
  {
    s.(conns := s.conns[c := k])
  }

  /** Terminal::Retain: refused once the port is gone. */
  predicate Retainable(k: TermRec) {
    k.port.Some?
  }

  function Retained(k: TermRec): TermRec {
    k.(retainCount := k.retainCount + 1)
  }

  function Released(k: TermRec): TermRec {
    k.(retainCount := k.retainCount - 1)
  }

  /** What Release tests: no reference and no port left. */
  predicate ClosedOff(k: TermRec) {
    k.retainCount == 0 && k.port.None?
  }

  /** ThreadPort::SendToThis: keep the message and queue the port once. */
  function SendToThis(s: State, p: nat, m: Msg): State
    requires p < |s.ports| && s.ports[p].thread < |s.polls|
  {
    var k := s.ports[p];
    var s1 := SetPort(s, p, k.(lastMessage := Some(m), isQueued := true));
    if k.isQueued then s1 else s1.(polls := s.polls[k.thread := s.polls[k.thread] + [p]])
  }

  predicate PortInRange(s: State, p: nat) {
    p < |s.ports| && s.ports[p].thread < |s.polls|
  }

  predicate TermInRange(s: State, t: nat) {
    t < |s.terms| && (s.terms[t].port.Some? ==> PortInRange(s, s.terms[t].port.value))
  }

  /** Terminal::Deliver. */
  function Delivered(s: State, t: nat, m: Msg): State
    requires TermInRange(s, t)
  {
    var k := s.terms[t];
    if k.port.None? then s else SetTerm(SendToThis(s, k.port.value, m), t, k.(log := k.log + [m]))
  }

  /** Terminal::Release by actor a, which goes on with `next`, or throws t away first. */
  function Drop(s: State, a: nat, t: nat, k: After): State
    requires a < |s.pcs| && t < |s.terms|
  {
    var n := Released(s.terms[t]);
    SetPc(SetTerm(s, t, n), a, if ClosedOff(n) then Throwing(t, k) else Resume(k))
  }

  function Resume(k: After): Pc {
    match k
    case ThenQuiet => Quiet
    case ThenSelf(t) => DroppingSelf(t)
    case ThenPort(_) => Quiet
    case ThenDelete(t) => Deleting(t)
  }

  /** What a returning Sever leaves behind. */
  function AfterSever(f: Phase): Phase {
    if f.Severing? then (if f.destroy then Severed else Open) else f
  }

  /** The actor leaves Release; if that ends a Sever, the port's call has returned. */
  function Finish(s: State, k: After): State
    requires k.ThenPort? ==> k.p < |s.ports|
  {
    if k.ThenPort? then SetPort(s, k.p, s.ports[k.p].(phase := AfterSever(s.ports[k.p].phase))) else s
  }

  // ---- steps -------------------------------------------------------------

  datatype OwnerStep =
    | NewPort(th: nat) | NewTerminal(p: nat) | RemovePending(p: nat) | DeletePort(p: nat)

  datatype ActorStep =
    | StartSend(p: nat) | ReadConnection | Ask | Deliver | DropOther | DropSelf | ThrowAway
    | StartSever(p: nat, destroy: bool) | CutPort | DropCut
    | DropCreator(t: nat) | StartConnect(t1: nat, t2: nat) | Link
    | Collect | ReadHangup | Close | Tell | DropTold | Delete

  datatype Step = Owner(owner: OwnerStep) | Actor(a: nat, actor: ActorStep)

  predicate OwnerEnabled(s: State, b: OwnerStep) {
    match b
    case NewPort(th) => th < |s.polls|
    case NewTerminal(p) => p < |s.ports| && s.ports[p].phase.Open? && s.ports[p].terminal.None?
    case RemovePending(p) => PortInRange(s, p) && s.ports[p].phase.Severed?
    case DeletePort(p) => p < |s.ports| && s.ports[p].phase.Unqueued?
  }

  predicate SendEnabled(s: State, a: nat, b: ActorStep)
    requires a < |s.pcs|
  {
    var v := s.pcs[a];
    match b
    case StartSend(p) =>
      v.Quiet? && p < |s.ports| && (s.ports[p].phase.Open? || s.ports[p].phase == Severing(false))
      && (s.ports[p].terminal.Some? ==> s.ports[p].terminal.value < |s.terms|)
    case ReadConnection => v.Sending? && v.t < |s.terms|
    case Ask =>
      v.Asking? && v.c < |s.conns| && s.conns[v.c].holder.None?
      && (OtherEnd(s.conns[v.c], v.t).Some? ==> OtherEnd(s.conns[v.c], v.t).value < |s.terms|)
    case Deliver => v.Delivering? && TermInRange(s, v.o) && v.id < |s.sends|
    case DropOther => v.DroppingOther? && v.o < |s.terms|
    case DropSelf => v.DroppingSelf? && v.t < |s.terms|
    case ThrowAway => v.Throwing? && v.o < |s.terms| && (v.k.ThenPort? ==> v.k.p < |s.ports|)
    case _ => false
  }

  predicate LinkEnabled(s: State, a: nat, b: ActorStep)
    requires a < |s.pcs|
  {
    var v := s.pcs[a];
    match b
    case StartSever(p, _) =>
      v.Quiet? && p < |s.ports| && s.ports[p].phase.Open?
      && (s.ports[p].terminal.Some? ==> s.ports[p].terminal.value < |s.terms|)
    case CutPort => v.Cutting? && v.t < |s.terms|
    case DropCut => v.Cut? && v.t < |s.terms| && v.p < |s.ports|
    case DropCreator(t) => v.Quiet? && t < |s.terms| && s.terms[t].creator
    case StartConnect(t1, t2) =>
      v.Quiet? && t1 < |s.terms| && t2 < |s.terms| && t1 != t2
      && s.terms[t1].creator && s.terms[t2].creator && s.terms[t1].claimed.None? && s.terms[t2].claimed.None?
    case Link =>
      v.Linking? && v.c < |s.conns| && TermInRange(s, v.t1) && TermInRange(s, v.t2) && s.conns[v.c].progress < 5
    case _ => false
  }

  predicate HangupEnabled(s: State, a: nat, b: ActorStep)
    requires a < |s.pcs|
  {
    var v := s.pcs[a];
    match b
    case Collect => v.Quiet? && s.queue != [] && s.queue[0] < |s.terms|
    case ReadHangup => v.Finding? && v.t < |s.terms|
    case Close =>
      v.Closing? && v.c < |s.conns| && s.conns[v.c].holder.None?
      && (OtherEnd(s.conns[v.c], v.t).Some? ==> OtherEnd(s.conns[v.c], v.t).value < |s.terms|)
    case Tell => v.Telling? && TermInRange(s, v.o)
    case DropTold => v.DroppingTold? && v.o < |s.terms|
    case Delete => v.Deleting? && v.t < |s.terms|
    case _ => false
  }

  /** The terminal at the other end: terminal1 is compared first, as in the code. */
  function OtherEnd(k: ConnRec, t: nat): Option<nat> {
    if k.terminal1 == Some(t) then k.terminal2 else k.terminal1
  }

  predicate Enabled(s: State, x: Step) {
    match x
    case Owner(b) => OwnerEnabled(s, b)
    case Actor(a, b) => a < |s.pcs| && (SendEnabled(s, a, b) || LinkEnabled(s, a, b) || HangupEnabled(s, a, b))
  }

  function ApplyOwner(s: State, b: OwnerStep): State
    requires OwnerEnabled(s, b)
  {
    match b
    case NewPort(th) => s.(ports := s.ports + [PortRec(None, Open, false, None, th)])
    case NewTerminal(p) =>
      SetPort(s, p, s.ports[p].(terminal := Some(|s.terms|)))
      .(terms := s.terms + [TermRec(Some(p), 1, None, p, true, None, Alive, [])])
    case RemovePending(p) =>
      var k := s.ports[p];
      SetPort(s, p, k.(isQueued := false, phase := Unqueued))
      .(polls := if k.isQueued then s.polls[k.thread := Without(s.polls[k.thread], p)] else s.polls)
    case DeletePort(p) => SetPort(s, p, s.ports[p].(phase := Gone))
  }

  function ApplySend(s: State, a: nat, b: ActorStep): State
    requires a < |s.pcs| && SendEnabled(s, a, b)
  {
    var v := s.pcs[a];
    match b
    case StartSend(p) =>
      (match s.ports[p].terminal
       case None => s
       case Some(t) =>
         if !Retainable(s.terms[t]) then s
         else SetPc(SetTerm(s, t, Retained(s.terms[t])), a, Sending(t, |s.sends|))
              .(sends := s.sends + [SendRec(t, false)]))
    case ReadConnection =>
      (match s.terms[v.t].connection
       case None => SetPc(s, a, DroppingSelf(v.t))
       case Some(c) => SetPc(s, a, Asking(v.t, c, v.id)))
    case Ask =>
      (match OtherEnd(s.conns[v.c], v.t)
       case None => SetPc(s, a, DroppingSelf(v.t))
       case Some(o) =>
         if !Retainable(s.terms[o]) then SetPc(s, a, DroppingSelf(v.t))
         else SetPc(SetTerm(s, o, Retained(s.terms[o])), a, Delivering(v.t, o, v.id)))
    case Deliver =>
      SetPc(Delivered(s, v.o, Data(v.id)), a, DroppingOther(v.t, v.o))
      .(sends := s.sends[v.id := s.sends[v.id].(done := true)])
    case DropOther => Drop(s, a, v.o, ThenSelf(v.t))
    case DropSelf => Drop(s, a, v.t, ThenQuiet)
    case ThrowAway =>
      Finish(SetPc(SetTerm(s, v.o, s.terms[v.o].(life := Thrown)), a, Resume(v.k)).(queue := s.queue + [v.o]), v.k)
  }

  /** The next section of Connect: two stores, two deliveries, and the unlock. */
  function Linked(s: State, a: nat): State
    requires a < |s.pcs| && LinkEnabled(s, a, Link)
  {
    var v := s.pcs[a];
    var k := s.conns[v.c];
    var s1 := SetConn(s, v.c, k.(progress := k.progress + 1));
    if k.progress == 0 then SetTerm(s1, v.t2, s.terms[v.t2].(connection := Some(v.c)))
    else if k.progress == 1 then SetTerm(s1, v.t1, s.terms[v.t1].(connection := Some(v.c)))
    else if k.progress == 2 then Delivered(s1, v.t1, Opened)
    else if k.progress == 3 then Delivered(s1, v.t2, Opened)
    else Unlocked(s, a)
  }

  function Unlocked(s: State, a: nat): State
    requires a < |s.pcs| && LinkEnabled(s, a, Link)
  {
    var v := s.pcs[a];
    var k := s.conns[v.c];
    var s1 := SetConn(s, v.c, k.(progress := 5, holder := None));
    var s2 := SetTerm(s1, v.t1, s1.terms[v.t1].(creator := true));
    SetPc(SetTerm(s2, v.t2, s2.terms[v.t2].(creator := true)), a, Quiet)
  }

  function ApplyLink(s: State, a: nat, b: ActorStep): State
    requires a < |s.pcs| && LinkEnabled(s, a, b)
  {
    var v := s.pcs[a];
    match b
    case StartSever(p, destroy) =>
      var f := Severing(destroy);
      (match s.ports[p].terminal
       case None => SetPort(s, p, s.ports[p].(phase := AfterSever(f)))
       case Some(t) =>
         if !Retainable(s.terms[t]) then s
         else SetPc(SetPort(SetTerm(s, t, Retained(s.terms[t])), p, s.ports[p].(terminal := None, phase := f)), a,
           Cutting(p, t)))
    case CutPort => SetPc(SetTerm(s, v.t, s.terms[v.t].(port := None)), a, Cut(v.p, v.t))
    case DropCut =>
      var n := Released(s.terms[v.t]);
      if ClosedOff(n) then SetPc(SetTerm(s, v.t, n), a, Throwing(v.t, ThenPort(v.p)))
      else Finish(SetPc(SetTerm(s, v.t, n), a, Quiet), ThenPort(v.p))
    case DropCreator(t) => SetPc(SetTerm(s, t, s.terms[t].(creator := false)), a, DroppingSelf(t))
    case StartConnect(t1, t2) =>
      var c := |s.conns|;
      var s1 := SetTerm(s, t1, s.terms[t1].(creator := false, claimed := Some(c)));
      SetPc(SetTerm(s1, t2, s.terms[t2].(creator := false, claimed := Some(c))), a, Linking(c, t1, t2))
      .(conns := s.conns + [ConnRec(Some(t1), Some(t2), Some(a), t1, t2, 0, false)])
    case Link => Linked(s, a)
  }

  /** The locked section of Close. */
  function ClosedEnd(s: State, a: nat): State
    requires a < |s.pcs| && HangupEnabled(s, a, Close)
  {
    var v := s.pcs[a];
    var k := s.conns[v.c];
    var k' := if k.terminal1 == Some(v.t) then k.(terminal1 := None) else k.(terminal2 := None);
    match OtherEnd(k, v.t)
    case None => SetPc(SetConn(s, v.c, k'.(freed := true)), a, Deleting(v.t))
    case Some(o) =>
      if !Retainable(s.terms[o]) then SetPc(SetConn(s, v.c, k'), a, Deleting(v.t))
      else SetPc(SetTerm(SetConn(s, v.c, k'), o, Retained(s.terms[o])), a, Telling(v.t, o))
  }

  function ApplyHangup(s: State, a: nat, b: ActorStep): State
    requires a < |s.pcs| && HangupEnabled(s, a, b)
  {
    var v := s.pcs[a];
    match b
    case Collect =>
      var t := s.queue[0];
      SetPc(SetTerm(s, t, s.terms[t].(life := Hanging)), a, Finding(t)).(queue := s.queue[1..])
    case ReadHangup =>
      (match s.terms[v.t].connection
       case None => SetPc(s, a, Deleting(v.t))
       case Some(c) => SetPc(s, a, Closing(v.t, c)))
    case Close => ClosedEnd(s, a)
    case Tell => SetPc(Delivered(s, v.o, Closed), a, DroppingTold(v.t, v.o))
    case DropTold => Drop(s, a, v.o, ThenDelete(v.t))
    case Delete => SetPc(SetTerm(s, v.t, s.terms[v.t].(life := Deleted)), a, Quiet)
  }

  function Apply(s: State, x: Step): State
    requires Enabled(s, x)
  {
    match x
    case Owner(b) => ApplyOwner(s, b)
    case Actor(a, b) =>
      if SendEnabled(s, a, b) then ApplySend(s, a, b)
      else if LinkEnabled(s, a, b) then ApplyLink(s, a, b)
      else ApplyHangup(s, a, b)
  }

  predicate Init(s: State) {
    && s.ports == [] && s.terms == [] && s.conns == [] && s.sends == [] && s.queue == []
    && (forall th | 0 <= th < |s.polls| :: s.polls[th] == [])
    && (forall a | 0 <= a < |s.pcs| :: s.pcs[a].Quiet?)
  }

  datatype Run = Run(states: seq<State>, steps: seq<Step>)

  predicate IsRun(r: Run) {
    && |r.states| == |r.steps| + 1
    && Init(r.states[0])
    && (forall i | 0 <= i < |r.steps| ::
        Enabled(r.states[i], r.steps[i]) && r.states[i + 1] == Apply(r.states[i], r.steps[i]))
  }
}
