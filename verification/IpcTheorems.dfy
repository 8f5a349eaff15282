/** What ports can rely on, in every interleaving. */
module IpcTheorems {
  import opened Common
  import opened Ipc
  import opened IpcInvariant
  import opened IpcSteps
  import opened IpcConnect

  // ---- traces ------------------------------------------------------------

  /**
   * What a port receives through one terminal: nothing, or Opened, then data, then at most one
   * Closed.  Every piece of data was sent through the terminal at the other end of the connection
   * and arrives at most once.
   */
  lemma DeliveryTrace(r: Run, i: nat, t: nat)
    requires IsRun(r) && i < |r.states| && t < |r.states[i].terms|
    ensures var s := r.states[i]; var log := s.terms[t].log;
            WellFormed(log) && Distinct(log)
    ensures var s := r.states[i]; var k := s.terms[t];
            k.log != [] ==>
              k.claimed.Some? && k.claimed.value < |s.conns|
              && forall m | m in k.log && m.Data? ::
                  m.id < |s.sends| && s.sends[m.id].from == Peer(s.conns[k.claimed.value], t)
  {
    RunInv(r, i);
    assert TermOk(r.states[i], t) && LogOk(r.states[i], t);
  }

  /** The port a step posts to, and the terminal it posts through. */
  function Posts(s: State, x: Step): Option<(nat, nat)>
    requires Enabled(s, x)
  {
    if x.Owner? then None
    else
      var v := s.pcs[x.a];
      var through :=
        if x.actor.Deliver? && v.Delivering? then Some(v.o)
        else if x.actor.Tell? && v.Telling? then Some(v.o)
        else if x.actor.Link? && v.Linking? && s.conns[v.c].progress == 2 then Some(v.t1)
        else if x.actor.Link? && v.Linking? && s.conns[v.c].progress == 3 then Some(v.t2)
        else None;
      if through.Some? && through.value < |s.terms| && s.terms[through.value].port.Some?
      then Some((s.terms[through.value].port.value, through.value)) else None
  }

  /** Terminal t can only lose its port and extend its log, and only while it has the port. */
  predicate Progresses(s: State, s': State, t: nat)
    requires t < |s.terms|
  {
    && t < |s'.terms| && s'.terms[t].home == s.terms[t].home
    && (s'.terms[t].port == s.terms[t].port || s'.terms[t].port.None?)
    && s.terms[t].log <= s'.terms[t].log
    && (s.terms[t].port.None? ==> s'.terms[t].log == s.terms[t].log)
    && (s.terms[t].life.Deleted? ==> s'.terms[t].life.Deleted?)
  }

  lemma SendProgresses(s: State, a: nat, b: ActorStep, t: nat)
    requires Inv(s) && a < |s.pcs| && SendEnabled(s, a, b) && t < |s.terms|
    ensures Progresses(s, ApplySend(s, a, b), t)
  {
    if b.ThrowAway? {
      assert PcOk(s, a) && TermOk(s, s.pcs[a].o);
      CountAtLeast(s.pcs, a, Throws(s.pcs[a].o));
    }
  }

  lemma LinkedProgresses(s: State, a: nat, t: nat)
    requires Inv(s) && a < |s.pcs| && LinkEnabled(s, a, Link) && t < |s.terms|
    ensures Progresses(s, Linked(s, a), t)
  {
    Linker(s, a);
  }

  lemma LinkProgresses(s: State, a: nat, b: ActorStep, t: nat)
    requires Inv(s) && a < |s.pcs| && LinkEnabled(s, a, b) && t < |s.terms|
    ensures Progresses(s, ApplyLink(s, a, b), t)
  {
    if b.Link? { LinkedProgresses(s, a, t); }
  }

  lemma HangupProgresses(s: State, a: nat, b: ActorStep, t: nat)
    requires Inv(s) && a < |s.pcs| && HangupEnabled(s, a, b) && t < |s.terms|
    ensures Progresses(s, ApplyHangup(s, a, b), t)
  {
    if b.Collect? { assert TermOk(s, s.queue[0]); }
  }

  lemma StepProgresses(s: State, x: Step, t: nat)
    requires Inv(s) && Enabled(s, x) && t < |s.terms|
    ensures Progresses(s, Apply(s, x), t)
  {
    match x
    case Owner(b) => assert Progresses(s, ApplyOwner(s, b), t);
    case Actor(a, b) =>
      if SendEnabled(s, a, b) { SendProgresses(s, a, b, t); }
      else if LinkEnabled(s, a, b) { LinkProgresses(s, a, b, t); }
      else { HangupProgresses(s, a, b, t); }
  }

  predicate ProgressesAt(r: Run, t: nat, k: nat)
    requires k < |r.steps| < |r.states|
  {
    t < |r.states[k].terms| ==> Progresses(r.states[k], r.states[k + 1], t)
  }

  lemma RunProgresses(r: Run, t: nat)
    requires IsRun(r)
    ensures forall k | 0 <= k < |r.steps| :: ProgressesAt(r, t, k)
  {
    forall k | 0 <= k < |r.steps| ensures ProgressesAt(r, t, k) {
      RunInv(r, k);
      if t < |r.states[k].terms| { StepProgresses(r.states[k], r.steps[k], t); }
    }
  }

  lemma {:induction false} ProgressChain(r: Run, i: nat, j: nat, t: nat)
    requires i <= j <= |r.steps| < |r.states| && t < |r.states[i].terms|
    requires forall k | 0 <= k < |r.steps| :: ProgressesAt(r, t, k)
    ensures Progresses(r.states[i], r.states[j], t)
  {
    if i < j {
      ProgressChain(r, i, j - 1, t);
      assert ProgressesAt(r, t, j - 1);
    }
  }

  /** Logs only grow, and a terminal that was cut from its port delivers nothing ever again. */
  lemma CutForGood(r: Run, i: nat, j: nat, t: nat)
    requires IsRun(r) && i <= j < |r.states| && t < |r.states[i].terms|
    ensures Progresses(r.states[i], r.states[j], t)
  {
    RunProgresses(r, t);
    ProgressChain(r, i, j, t);
  }

  /** Every change of a log or of a port's last message is a post, so `Posts` misses none. */
  lemma PostsAll(r: Run, i: nat)
    requires IsRun(r) && i < |r.steps|
    ensures var s, s' := r.states[i], r.states[i + 1];
            forall t | 0 <= t < |s.terms| && t < |s'.terms| && s'.terms[t].log != s.terms[t].log ::
              s.terms[t].port.Some? && Posts(s, r.steps[i]) == Some((s.terms[t].port.value, t))
    ensures var s, s' := r.states[i], r.states[i + 1];
            forall p | 0 <= p < |s.ports| && p < |s'.ports| && s'.ports[p].lastMessage != s.ports[p].lastMessage ::
              Posts(s, r.steps[i]).Some? && Posts(s, r.steps[i]).value.0 == p
  {
    RunInv(r, i);
    var s := r.states[i];
    match r.steps[i]
    case Owner(b) => assert QuietStep(s, ApplyOwner(s, b));
    case Actor(a, b) =>
      if SendEnabled(s, a, b) { SendPosts(s, a, b); }
      else if LinkEnabled(s, a, b) { LinkPosts(s, a, b); }
      else { HangupPosts(s, a, b); }
  }

  predicate QuietStep(s: State, s': State) {
    && (forall t | 0 <= t < |s.terms| && t < |s'.terms| :: s'.terms[t].log == s.terms[t].log)
    && (forall p | 0 <= p < |s.ports| && p < |s'.ports| :: s'.ports[p].lastMessage == s.ports[p].lastMessage)
  }

  /** At most terminal t's log and its port's last message change. */
  predicate OnlyThrough(s: State, s': State, t: nat)
    requires t < |s.terms|
  {
    && (forall u | 0 <= u < |s.terms| && u < |s'.terms| && s'.terms[u].log != s.terms[u].log ::
        u == t && s.terms[t].port.Some?)
    && (forall p | 0 <= p < |s.ports| && p < |s'.ports| && s'.ports[p].lastMessage != s.ports[p].lastMessage ::
          s.terms[t].port == Some(p))
  }

  lemma SendPosts(s: State, a: nat, b: ActorStep)
    requires Inv(s) && a < |s.pcs| && SendEnabled(s, a, b)
    ensures if b.Deliver? then OnlyThrough(s, ApplySend(s, a, b), s.pcs[a].o) else QuietStep(s, ApplySend(s, a, b))
  {
  }

  lemma LinkedPosts(s: State, a: nat)
    requires Inv(s) && a < |s.pcs| && LinkEnabled(s, a, Link)
    ensures if s.conns[s.pcs[a].c].progress == 2 then OnlyThrough(s, Linked(s, a), s.pcs[a].t1)
            else if s.conns[s.pcs[a].c].progress == 3 then OnlyThrough(s, Linked(s, a), s.pcs[a].t2)
            else QuietStep(s, Linked(s, a))
  {
    Linker(s, a);
  }

  lemma LinkPosts(s: State, a: nat, b: ActorStep)
    requires Inv(s) && a < |s.pcs| && LinkEnabled(s, a, b)
    ensures if b.Link? && s.conns[s.pcs[a].c].progress == 2 then OnlyThrough(s, ApplyLink(s, a, b), s.pcs[a].t1)
            else if b.Link? && s.conns[s.pcs[a].c].progress == 3 then OnlyThrough(s, ApplyLink(s, a, b), s.pcs[a].t2)
            else QuietStep(s, ApplyLink(s, a, b))
  {
    if b.Link? { LinkedPosts(s, a); }
  }

  lemma HangupPosts(s: State, a: nat, b: ActorStep)
    requires Inv(s) && a < |s.pcs| && HangupEnabled(s, a, b)
    ensures if b.Tell? then OnlyThrough(s, ApplyHangup(s, a, b), s.pcs[a].o) else QuietStep(s, ApplyHangup(s, a, b))
  {
  }

  // ---- severed ports -----------------------------------------------------

  predicate Retired(f: Phase) {
    f.Severed? || f.Unqueued? || f.Gone?
  }

  lemma StepRetires(s: State, x: Step, p: nat)
    requires Inv(s) && Enabled(s, x) && p < |s.ports| && Retired(s.ports[p].phase)
    ensures p < |Apply(s, x).ports| && Retired(Apply(s, x).ports[p].phase)
    ensures s.ports[p].phase.Gone? ==> Apply(s, x).ports[p].phase.Gone?
  {
    match x
    case Owner(b) =>
    case Actor(a, b) =>
      if SendEnabled(s, a, b) { SendRetires(s, a, b, p); }
      else if LinkEnabled(s, a, b) { LinkRetires(s, a, b, p); }
      else { HangupRetires(s, a, b, p); }
  }

  lemma SendRetires(s: State, a: nat, b: ActorStep, p: nat)
    requires a < |s.pcs| && SendEnabled(s, a, b) && p < |s.ports| && Retired(s.ports[p].phase)
    ensures var s' := ApplySend(s, a, b); p < |s'.ports| && s'.ports[p].phase == s.ports[p].phase
  {
  }

  lemma LinkRetires(s: State, a: nat, b: ActorStep, p: nat)
    requires a < |s.pcs| && LinkEnabled(s, a, b) && p < |s.ports| && Retired(s.ports[p].phase)
    ensures var s' := ApplyLink(s, a, b); p < |s'.ports| && s'.ports[p].phase == s.ports[p].phase
  {
  }

  lemma HangupRetires(s: State, a: nat, b: ActorStep, p: nat)
    requires a < |s.pcs| && HangupEnabled(s, a, b) && p < |s.ports| && Retired(s.ports[p].phase)
    ensures var s' := ApplyHangup(s, a, b); p < |s'.ports| && s'.ports[p].phase == s.ports[p].phase
  {
  }

  lemma {:induction false} RetiredForGood(r: Run, i: nat, j: nat, p: nat)
    requires IsRun(r) && i <= j < |r.states| && p < |r.states[i].ports| && Retired(r.states[i].ports[p].phase)
    ensures p < |r.states[j].ports| && Retired(r.states[j].ports[p].phase)
  {
    if i < j {
      RetiredForGood(r, i, j - 1, p);
      RunInv(r, j - 1);
      StepRetires(r.states[j - 1], r.steps[j - 1], p);
    }
  }

  /** When the Sever that took a port's terminal returns, no terminal can reach the port. */
  lemma SeverReturns(r: Run, i: nat, p: nat)
    requires IsRun(r) && i < |r.steps| && p < |r.states[i].ports| && p < |r.states[i + 1].ports|
    requires r.states[i].ports[p].phase.Severing? && !r.states[i + 1].ports[p].phase.Severing?
    ensures Abandoned(r.states[i + 1], p)
  {
    RunInv(r, i + 1);
    var s := r.states[i + 1];
    assert PortOk(s, p);
    RunInv(r, i);
    assert PortOk(r.states[i], p);
    StillIdle(r.states[i], r.steps[i], p);
    IdlePortAbandoned(s, p);
  }

  /** A port gets no terminal while it is being severed. */
  lemma StillIdle(s: State, x: Step, p: nat)
    requires Inv(s) && Enabled(s, x) && p < |s.ports| && s.ports[p].phase.Severing?
    ensures p < |Apply(s, x).ports| && Apply(s, x).ports[p].terminal.None?
  {
    assert PortOk(s, p);
    match x
    case Owner(b) => assert NoTerminal(ApplyOwner(s, b), p);
    case Actor(a, b) =>
      if SendEnabled(s, a, b) { SendStillIdle(s, a, b, p); }
      else if LinkEnabled(s, a, b) { LinkStillIdle(s, a, b, p); }
      else { HangupStillIdle(s, a, b, p); }
  }

  predicate NoTerminal(s: State, p: nat) {
    p < |s.ports| && s.ports[p].terminal.None?
  }

  lemma SendStillIdle(s: State, a: nat, b: ActorStep, p: nat)
    requires a < |s.pcs| && SendEnabled(s, a, b) && NoTerminal(s, p)
    ensures NoTerminal(ApplySend(s, a, b), p)
  {
  }

  lemma LinkStillIdle(s: State, a: nat, b: ActorStep, p: nat)
    requires a < |s.pcs| && LinkEnabled(s, a, b) && NoTerminal(s, p)
    ensures NoTerminal(ApplyLink(s, a, b), p)
  {
  }

  lemma HangupStillIdle(s: State, a: nat, b: ActorStep, p: nat)
    requires a < |s.pcs| && HangupEnabled(s, a, b) && NoTerminal(s, p)
    ensures NoTerminal(ApplyHangup(s, a, b), p)
  {
  }

  /** After the Sever of DestroyPort no step ever posts to the port again, deleted or not. */
  lemma SilentAfterSever(r: Run, i: nat, j: nat, p: nat)
    requires IsRun(r) && i <= j < |r.steps| && p < |r.states[i].ports| && Retired(r.states[i].ports[p].phase)
    ensures Posts(r.states[j], r.steps[j]).Some? ==> Posts(r.states[j], r.steps[j]).value.0 != p
  {
    RetiredForGood(r, i, j, p);
    RunInv(r, j);
    SeveredIdle(r.states[j], p);
  }

  /** The pending list of a thread has no duplicates, holds exactly the queued ports, and no deleted port. */
  lemma PendingExact(r: Run, i: nat, p: nat)
    requires IsRun(r) && i < |r.states| && p < |r.states[i].ports|
    ensures var s := r.states[i];
            s.ports[p].thread < |s.polls| && Distinct(s.polls[s.ports[p].thread])
            && (p in s.polls[s.ports[p].thread] <==> s.ports[p].isQueued)
            && (s.ports[p].phase.Gone? ==> forall th | 0 <= th < |s.polls| :: p !in s.polls[th])
  {
    RunInv(r, i);
    var s := r.states[i];
    assert PortOk(s, p);
    forall th | 0 <= th < |s.polls| ensures Distinct(s.polls[th]) && (p in s.polls[th] ==> s.ports[p].thread == th) {
      assert PollOk(s, th);
    }
  }

  // ---- objects -----------------------------------------------------------

  /** The terminals a step reads or writes. */
  function Terminals(s: State, x: Step): set<nat>
    requires Enabled(s, x)
  {
    if x.Owner? then {}
    else
      match x.actor
      case StartSend(p) => if s.ports[p].terminal.Some? then {s.ports[p].terminal.value} else {}
      case StartSever(p, _) => if s.ports[p].terminal.Some? then {s.ports[p].terminal.value} else {}
      case DropCreator(t) => {t}
      case StartConnect(t1, t2) => {t1, t2}
      case Collect => if s.queue != [] then {s.queue[0]} else {}
      case _ =>
        match s.pcs[x.a]
        case Sending(t, _) => {t}
        case Asking(t, c, _) => {t}
          + (if c < |s.conns| && OtherEnd(s.conns[c], t).Some? then {OtherEnd(s.conns[c], t).value} else {})
        case Delivering(t, o, _) => {t, o}
        case DroppingOther(t, o) => {t, o}
        case DroppingSelf(t) => {t}
        case Throwing(o, _) => {o}
        case Cutting(_, t) => {t}
        case Cut(_, t) => {t}
        case Linking(_, t1, t2) => {t1, t2}
        case Finding(t) => {t}
        case Closing(t, c) => {t}
          + (if c < |s.conns| && OtherEnd(s.conns[c], t).Some? then {OtherEnd(s.conns[c], t).value} else {})
        case Telling(t, o) => {t, o}
        case DroppingTold(t, o) => {t, o}
        case Deleting(t) => {t}
        case Quiet => {}
  }

  /** The connections a step reads or writes. */
  function Connections(s: State, x: Step): set<nat>
    requires Enabled(s, x)
  {
    if x.Owner? then {}
    else if s.pcs[x.a].Asking? then {s.pcs[x.a].c}
    else if s.pcs[x.a].Linking? then {s.pcs[x.a].c}
    else if s.pcs[x.a].Closing? then {s.pcs[x.a].c}
    else {}
  }

  predicate TermLive(s: State, t: nat) {
    t < |s.terms| && !s.terms[t].life.Deleted?
  }

  lemma RefLive(s: State, a: nat, t: nat)
    requires Inv(s) && a < |s.pcs| && t < |s.terms|
    requires Weight(s.pcs[a], Refs(t)) + Weight(s.pcs[a], Hangs(t)) + Weight(s.pcs[a], Throws(t)) >= 1
    ensures TermLive(s, t)
  {
    assert TermOk(s, t);
    CountAtLeast(s.pcs, a, Refs(t));
    CountAtLeast(s.pcs, a, Hangs(t));
    CountAtLeast(s.pcs, a, Throws(t));
  }

  lemma PcTerminalsLive(s: State, a: nat, t: nat)
    requires Inv(s) && a < |s.pcs|
    requires var v := s.pcs[a];
             (v.Asking? && OtherEndIs(s, v.c, v.t, t)) || (v.Closing? && OtherEndIs(s, v.c, v.t, t))
             || Weight(v, Refs(t)) + Weight(v, Hangs(t)) + Weight(v, Throws(t)) >= 1
    ensures TermLive(s, t)
  {
    var v := s.pcs[a];
    assert PcOk(s, a);
    if v.Linking? { Linker(s, a); }
    if v.Asking? { SenderRegistered(s, a); assert ConnOk(s, v.c); }
    if v.Closing? { CloserRegistered(s, a); assert ConnOk(s, v.c); }
    if Weight(v, Refs(t)) + Weight(v, Hangs(t)) + Weight(v, Throws(t)) >= 1 { RefLive(s, a, t); }
  }

  predicate OtherEndIs(s: State, c: nat, t: nat, o: nat) {
    c < |s.conns| && OtherEnd(s.conns[c], t) == Some(o)
  }

  /** No step touches a deleted terminal or a freed connection. */
  lemma NoUseAfterDelete(r: Run, i: nat)
    requires IsRun(r) && i < |r.steps|
    ensures forall t | t in Terminals(r.states[i], r.steps[i]) :: TermLive(r.states[i], t)
    ensures forall c | c in Connections(r.states[i], r.steps[i]) ::
      c < |r.states[i].conns| && !r.states[i].conns[c].freed
  {
    RunInv(r, i);
    var s, x := r.states[i], r.steps[i];
    if x.Actor? {
      TouchedConnections(s, x.a);
      forall t | t in Terminals(s, x) ensures TermLive(s, t) { TouchedTerminal(s, x, t); }
    }
  }

  lemma TouchedConnections(s: State, a: nat)
    requires Inv(s) && a < |s.pcs|
    ensures s.pcs[a].Asking? ==> s.pcs[a].c < |s.conns| && !s.conns[s.pcs[a].c].freed
    ensures s.pcs[a].Linking? ==> s.pcs[a].c < |s.conns| && !s.conns[s.pcs[a].c].freed
    ensures s.pcs[a].Closing? ==> s.pcs[a].c < |s.conns| && !s.conns[s.pcs[a].c].freed
  {
    if s.pcs[a].Asking? { SenderRegistered(s, a); }
    if s.pcs[a].Closing? { CloserRegistered(s, a); }
    if s.pcs[a].Linking? { Linker(s, a); assert ConnOk(s, s.pcs[a].c); }
  }

  lemma TouchedTerminal(s: State, x: Step, t: nat)
    requires Inv(s) && Enabled(s, x) && x.Actor? && t in Terminals(s, x)
    ensures TermLive(s, t)
  {
    match x.actor
    case StartSend(p) => PortTerminal(s, p); assert TermOk(s, t);
    case StartSever(p, _) => PortTerminal(s, p); assert TermOk(s, t);
    case DropCreator(_) => CreatorAlive(s, t);
    case StartConnect(_, _) => CreatorAlive(s, t);
    case Collect => assert TermOk(s, t);
    case _ => NamedTerminal(s, x, t); PcTerminalsLive(s, x.a, t);
  }

  /** A terminal that the program counter names is held, being deallocated, or about to be thrown away. */
  lemma NamedTerminal(s: State, x: Step, t: nat)
    requires Enabled(s, x) && x.Actor? && t in Terminals(s, x)
    requires !x.actor.StartSend? && !x.actor.StartSever? && !x.actor.DropCreator? && !x.actor.StartConnect?
      && !x.actor.Collect?
    ensures var v := s.pcs[x.a];
            (v.Asking? && OtherEndIs(s, v.c, v.t, t)) || (v.Closing? && OtherEndIs(s, v.c, v.t, t))
            || Weight(v, Refs(t)) + Weight(v, Hangs(t)) + Weight(v, Throws(t)) >= 1
  {
  }

  /** The assertions in the code never fail. */
  lemma AssertionsHold(r: Run, i: nat)
    requires IsRun(r) && i < |r.states|
    // port.cpp: a port's terminal can always be retained
    ensures forall p | 0 <= p < |r.states[i].ports| && r.states[i].ports[p].terminal.Some? ::
              r.states[i].ports[p].terminal.value < |r.states[i].terms|
              && Retainable(r.states[i].terms[r.states[i].ports[p].terminal.value])
    // connection.cpp: whoever sends through or closes a connection is one of its ends
    ensures forall a | 0 <= a < |r.states[i].pcs| && (r.states[i].pcs[a].Asking? || r.states[i].pcs[a].Closing?) ::
              r.states[i].pcs[a].c < |r.states[i].conns|
                && Registered(r.states[i].conns[r.states[i].pcs[a].c], r.states[i].pcs[a].t)
    // terminal.cpp: a terminal is retained while it is severed
    ensures forall a | 0 <= a < |r.states[i].pcs| && r.states[i].pcs[a].Cutting? ::
              r.states[i].pcs[a].t < |r.states[i].terms| && r.states[i].terms[r.states[i].pcs[a].t].retainCount > 0
  {
    RunInv(r, i);
    var s := r.states[i];
    forall p | 0 <= p < |s.ports| && s.ports[p].terminal.Some?
      ensures s.ports[p].terminal.value < |s.terms| && Retainable(s.terms[s.ports[p].terminal.value])
    {
      PortTerminal(s, p);
    }
    forall a | 0 <= a < |s.pcs| && (s.pcs[a].Asking? || s.pcs[a].Closing?)
      ensures s.pcs[a].c < |s.conns| && Registered(s.conns[s.pcs[a].c], s.pcs[a].t)
    {
      if s.pcs[a].Asking? { SenderRegistered(s, a); } else { CloserRegistered(s, a); }
    }
    forall a | 0 <= a < |s.pcs| && s.pcs[a].Cutting?
      ensures s.pcs[a].t < |s.terms| && s.terms[s.pcs[a].t].retainCount > 0
    {
      assert PcOk(s, a) && TermOk(s, s.pcs[a].t);
      CountAtLeast(s.pcs, a, Refs(s.pcs[a].t));
    }
  }

  // ---- the footprints are complete ---------------------------------------

  /** Outside the terminals and connections named, all that existed is as it was. */
  predicate Frames(s: State, s': State, ts: set<nat>, cs: set<nat>) {
    && |s.terms| <= |s'.terms| && |s.conns| <= |s'.conns|
    && (forall t | 0 <= t < |s.terms| && t !in ts :: s'.terms[t] == s.terms[t])
    && (forall c | 0 <= c < |s.conns| && c !in cs :: s'.conns[c] == s.conns[c])
  }

  lemma SendFrames(s: State, a: nat, b: ActorStep)
    requires a < |s.pcs| && SendEnabled(s, a, b)
    ensures Frames(s, ApplySend(s, a, b), Terminals(s, Actor(a, b)), Connections(s, Actor(a, b)))
  {
  }

  lemma LinkedFrames(s: State, a: nat)
    requires a < |s.pcs| && LinkEnabled(s, a, Link)
    ensures Frames(s, Linked(s, a), {s.pcs[a].t1, s.pcs[a].t2}, {s.pcs[a].c})
  {
  }

  lemma LinkFrames(s: State, a: nat, b: ActorStep)
    requires a < |s.pcs| && LinkEnabled(s, a, b)
    ensures Frames(s, ApplyLink(s, a, b), Terminals(s, Actor(a, b)), Connections(s, Actor(a, b)))
  {
    if b.Link? { LinkedFrames(s, a); }
  }

  lemma HangupFrames(s: State, a: nat, b: ActorStep)
    requires a < |s.pcs| && HangupEnabled(s, a, b)
    ensures Frames(s, ApplyHangup(s, a, b), Terminals(s, Actor(a, b)), Connections(s, Actor(a, b)))
  {
  }

  /** The footprints of NoUseAfterDelete miss nothing that a step changes. */
  lemma FootprintsComplete(s: State, x: Step)
    requires Enabled(s, x)
    ensures Frames(s, Apply(s, x), Terminals(s, x), Connections(s, x))
  {
    match x
    case Owner(b) =>
    case Actor(a, b) =>
      if SendEnabled(s, a, b) { SendFrames(s, a, b); }
      else if LinkEnabled(s, a, b) { LinkFrames(s, a, b); }
      else { HangupFrames(s, a, b); }
  }

  // ---- connections -------------------------------------------------------

  /** The two ends a connection still has. */
  function EndsLeft(k: ConnRec): nat {
    One(k.terminal1.Some?) + One(k.terminal2.Some?)
  }

  /**
   * A connection loses an end only in Close, one at a time, and is freed by exactly the Close that
   * takes the second; a terminal it still names is undeleted.
   */
  lemma FreedBySecondClose(r: Run, i: nat, c: nat)
    requires IsRun(r) && i < |r.steps| && c < |r.states[i].conns|
    ensures c < |r.states[i + 1].conns|
    ensures var k, k' := r.states[i].conns[c], r.states[i + 1].conns[c];
            && (k.freed <==> EndsLeft(k) == 0) && (k'.freed <==> EndsLeft(k') == 0)
            && EndsLeft(k') <= EndsLeft(k) <= EndsLeft(k') + 1
            && (EndsLeft(k') < EndsLeft(k) ==>
                  r.steps[i].Actor? && r.states[i].pcs[r.steps[i].a].Closing? && r.states[i].pcs[r.steps[i].a].c == c)
    ensures var s := r.states[i]; var k := s.conns[c];
            (k.terminal1.Some? ==> TermLive(s, k.terminal1.value))
              && (k.terminal2.Some? ==> TermLive(s, k.terminal2.value))
  {
    RunInv(r, i);
    RunInv(r, i + 1);
    var s := r.states[i];
    assert ConnOk(s, c);
    StepEnds(s, r.steps[i], c);
    assert ConnOk(r.states[i + 1], c);
  }

  predicate SameEnds(s: State, s': State, c: nat)
    requires c < |s.conns|
  {
    c < |s'.conns| && s'.conns[c].terminal1 == s.conns[c].terminal1 && s'.conns[c].terminal2 == s.conns[c].terminal2
  }

  lemma StepEnds(s: State, x: Step, c: nat)
    requires Inv(s) && Enabled(s, x) && c < |s.conns|
    ensures c < |Apply(s, x).conns|
    ensures var k, k' := s.conns[c], Apply(s, x).conns[c];
            EndsLeft(k') <= EndsLeft(k) <= EndsLeft(k') + 1
            && (EndsLeft(k') < EndsLeft(k) ==> x.Actor? && s.pcs[x.a].Closing? && s.pcs[x.a].c == c)
  {
    match x
    case Owner(b) => assert SameEnds(s, ApplyOwner(s, b), c);
    case Actor(a, b) =>
      if SendEnabled(s, a, b) { assert SameEnds(s, ApplySend(s, a, b), c); }
      else if LinkEnabled(s, a, b) { assert SameEnds(s, ApplyLink(s, a, b), c); }
      else if b.Close? { CloserRegistered(s, a); }
      else { assert SameEnds(s, ApplyHangup(s, a, b), c); }
  }
}
