/** A port's message, its place in the pending list, its terminal and its phases, and that no terminal leaks. */
module IpcPorts {
  import opened Common
  import opened Ipc
  import opened IpcInvariant
  import opened IpcSteps
  import opened IpcConnect
  import opened IpcTheorems
  import opened IpcOrder
  import opened IpcArrival

  // ---- the last message --------------------------------------------------

  /** What a step that posts, posts. */
  function Message(s: State, x: Step): Msg
    requires Enabled(s, x) && Posts(s, x).Some?
  {
    var v := s.pcs[x.a];
    if v.Delivering? then Data(v.id) else if v.Telling? then Closed else Opened
  }

  /** The message is at the end of the terminal's log, kept by the port, and the port is queued. */
  predicate PostedTo(s: State, s': State, p: nat, t: nat, m: Msg) {
    && t < |s.terms| && t < |s'.terms| && s'.terms[t].log == s.terms[t].log + [m]
    && p < |s'.ports| && s'.ports[p].lastMessage == Some(m) && s'.ports[p].isQueued
  }

  lemma DeliveredPosts(s: State, t: nat, m: Msg)
    requires TermInRange(s, t) && s.terms[t].port.Some?
    ensures PostedTo(s, Delivered(s, t, m), s.terms[t].port.value, t, m)
  {
  }

  lemma LinkPosted(s: State, a: nat)
    requires Inv(s) && a < |s.pcs| && Enabled(s, Actor(a, Link)) && Posts(s, Actor(a, Link)).Some?
    ensures var (p, t) := Posts(s, Actor(a, Link)).value; PostedTo(s, Linked(s, a), p, t, Opened)
  {
    Linker(s, a);
    var v := s.pcs[a];
    var k := s.conns[v.c];
    var s1 := SetConn(s, v.c, k.(progress := k.progress + 1));
    DeliveredPosts(s1, if k.progress == 2 then v.t1 else v.t2, Opened);
  }

  lemma StepPosted(s: State, x: Step)
    requires Inv(s) && Enabled(s, x) && Posts(s, x).Some?
    ensures var (p, t) := Posts(s, x).value; PostedTo(s, Apply(s, x), p, t, Message(s, x))
  {
    var v := s.pcs[x.a];
    if x.actor.Deliver? {
      DeliveredPosts(s, v.o, Data(v.id));
    } else if x.actor.Tell? {
      DeliveredPosts(s, v.o, Closed);
    } else {
      LinkPosted(s, x.a);
    }
  }

  /** The message posted last to port p before state j. */
  function LastPosted(r: Run, p: nat, j: nat): Option<Msg>
    requires j <= |r.steps| < |r.states|
    decreases j
  {
    if j == 0 then None
    else
      var s, x := r.states[j - 1], r.steps[j - 1];
      if Enabled(s, x) && Posts(s, x).Some? && Posts(s, x).value.0 == p then Some(Message(s, x))
      else LastPosted(r, p, j - 1)
  }

  predicate KeepsLast(r: Run, p: nat, j: nat)
    requires j <= |r.steps| < |r.states|
  {
    LastPosted(r, p, j) == if p < |r.states[j].ports| then r.states[j].ports[p].lastMessage else None
  }

  lemma OldPorts(s: State, x: Step)
    requires Enabled(s, x)
    ensures |s.ports| <= |Apply(s, x).ports|
    ensures forall p | |s.ports| <= p < |Apply(s, x).ports| ::
      Apply(s, x).ports[p] == PortRec(None, Open, false, None, Apply(s, x).ports[p].thread)
  {
    match x
    case Owner(b) =>
    case Actor(a, b) =>
      if SendEnabled(s, a, b) { SendPorts(s, a, b); }
      else if LinkEnabled(s, a, b) { LinkPorts(s, a, b); }
      else { HangupPorts(s, a, b); }
  }

  lemma SendPorts(s: State, a: nat, b: ActorStep)
    requires a < |s.pcs| && SendEnabled(s, a, b)
    ensures |ApplySend(s, a, b).ports| == |s.ports|
  {
  }

  lemma LinkPorts(s: State, a: nat, b: ActorStep)
    requires a < |s.pcs| && LinkEnabled(s, a, b)
    ensures |ApplyLink(s, a, b).ports| == |s.ports|
  {
  }

  lemma HangupPorts(s: State, a: nat, b: ActorStep)
    requires a < |s.pcs| && HangupEnabled(s, a, b)
    ensures |ApplyHangup(s, a, b).ports| == |s.ports|
  {
  }

  lemma KeepsLastNext(r: Run, p: nat, j: nat)
    requires IsRun(r) && j < |r.steps| && KeepsLast(r, p, j)
    ensures KeepsLast(r, p, j + 1)
  {
    RunInv(r, j);
    var s, x := r.states[j], r.steps[j];
    assert Enabled(s, x) && r.states[j + 1] == Apply(s, x);
    OldPorts(s, x);
    PostsAll(r, j);
    if Posts(s, x).Some? {
      StepPosted(s, x);
      PostsInRange(s, x);
    }
  }

  lemma PostsInRange(s: State, x: Step)
    requires Inv(s) && Enabled(s, x) && Posts(s, x).Some?
    ensures Posts(s, x).value.0 < |s.ports|
  {
    TermsInRange(s, Posts(s, x).value.1);
  }

  lemma {:induction false} RunKeepsLast(r: Run, p: nat, j: nat)
    requires IsRun(r) && j < |r.states|
    ensures KeepsLast(r, p, j)
  {
    if j > 0 {
      RunKeepsLast(r, p, j - 1);
      KeepsLastNext(r, p, j - 1);
    }
  }

  /** A port keeps the message posted to it last, whichever terminal it came through. */
  lemma LastMessageExactly(r: Run, p: nat, j: nat)
    requires IsRun(r) && j < |r.states| && p < |r.states[j].ports|
    ensures r.states[j].ports[p].lastMessage == LastPosted(r, p, j)
  {
    RunKeepsLast(r, p, j);
  }

  /** A post reaches the log and queues the port: with PostsAll, exactly the posts do. */
  lemma PostReaches(r: Run, i: nat)
    requires IsRun(r) && i < |r.steps| && Posts(r.states[i], r.steps[i]).Some?
    ensures var (p, t) := Posts(r.states[i], r.steps[i]).value;
            PostedTo(r.states[i], r.states[i + 1], p, t, Message(r.states[i], r.steps[i]))
  {
    RunInv(r, i);
    StepPosted(r.states[i], r.steps[i]);
  }

  // ---- no terminal leaks -------------------------------------------------

  /**
   * A terminal's count is its creator's reference and what the actors at work hold.  A terminal with
   * neither count nor port has exactly one actor about to throw it away, until that is done.
   */
  lemma TerminalConservation(r: Run, i: nat, t: nat)
    requires IsRun(r) && i < |r.states| && t < |r.states[i].terms|
    ensures var s := r.states[i]; s.terms[t].retainCount == One(s.terms[t].creator) + Count(s.pcs, Refs(t))
    ensures var s := r.states[i];
            Count(s.pcs, Throws(t)) == One(s.terms[t].life.Alive? && ClosedOff(s.terms[t]))
    ensures var s := r.states[i]; !s.terms[t].life.Alive? ==> ClosedOff(s.terms[t])
  {
    RunInv(r, i);
    assert TermOk(r.states[i], t);
  }

  /**
   * When all calls have returned, a terminal is alive if and only if its creator or its port still
   * has it, and then the port it names has it; any other is in the collector's queue or deleted.
   */
  lemma QuietTerminals(r: Run, i: nat, t: nat)
    requires IsRun(r) && i < |r.states| && t < |r.states[i].terms|
    requires forall a | 0 <= a < |r.states[i].pcs| :: r.states[i].pcs[a].Quiet?
    ensures var s := r.states[i]; var k := s.terms[t];
            && (k.life.Alive? <==> k.creator || k.port.Some?)
            && (k.life.Thrown? <==> t in s.queue) && !k.life.Hanging?
            && (k.port.Some? ==> k.port.value < |s.ports| && s.ports[k.port.value].terminal == Some(t))
  {
    RunInv(r, i);
    var s := r.states[i];
    CountNone(s.pcs, Refs(t));
    CountNone(s.pcs, Throws(t));
    CountNone(s.pcs, Hangs(t));
    CountNone(s.pcs, Cuts(t));
    assert TermOk(s, t);
  }

  // ---- the pending list is a queue ---------------------------------------

  /** In the list, p comes before a q. */
  predicate Ahead(l: seq<nat>, p: nat, q: nat) {
    l != [] && (if l[0] == p then q in l[1..] else Ahead(l[1..], p, q))
  }

  lemma {:induction false} AheadSnoc(l: seq<nat>, x: nat, p: nat, q: nat)
    requires p in l && (Ahead(l, p, q) || x == q)
    ensures Ahead(l + [x], p, q)
  {
    assert (l + [x])[1..] == l[1..] + [x];
    if l[0] != p { AheadSnoc(l[1..], x, p, q); }
  }

  lemma {:induction false} AheadWithout(l: seq<nat>, x: nat, p: nat, q: nat)
    requires Distinct(l) && Ahead(l, p, q) && x != p && x != q
    ensures Ahead(Without(l, x), p, q)
  {
    WithoutMembers(l[1..], x);
    if l[0] == x {
    } else if l[0] == p {
      assert ([l[0]] + Without(l[1..], x))[1..] == Without(l[1..], x);
    } else {
      AheadWithout(l[1..], x, p, q);
      assert ([l[0]] + Without(l[1..], x))[1..] == Without(l[1..], x);
    }
  }

  /** What a step may do to a pending list: nothing, add a port at the end, or take one out. */
  ghost predicate QueueStep(l: seq<nat>, l': seq<nat>) {
    l' == l || (exists x :: x !in l && l' == l + [x]) || (exists x :: l' == Without(l, x))
  }

  lemma PostQueues(s: State, p: nat, m: Msg, th: nat)
    requires PortInRange(s, p) && th < |s.polls| && (s.ports[p].isQueued <==> p in s.polls[s.ports[p].thread])
    ensures th < |SendToThis(s, p, m).polls| && QueueStep(s.polls[th], SendToThis(s, p, m).polls[th])
  {
  }

  lemma DeliveredQueues(s: State, t: nat, m: Msg, th: nat)
    requires TermInRange(s, t) && th < |s.polls|
    requires forall p | 0 <= p < |s.ports| && PortInRange(s, p) ::
      s.ports[p].isQueued <==> p in s.polls[s.ports[p].thread]
    ensures th < |Delivered(s, t, m).polls| && QueueStep(s.polls[th], Delivered(s, t, m).polls[th])
  {
    if s.terms[t].port.Some? { PostQueues(s, s.terms[t].port.value, m, th); }
  }

  lemma AllQueued(s: State)
    requires Inv(s)
    ensures forall p | 0 <= p < |s.ports| && PortInRange(s, p) ::
      s.ports[p].isQueued <==> p in s.polls[s.ports[p].thread]
  {
    forall p | 0 <= p < |s.ports| && PortInRange(s, p)
      ensures s.ports[p].isQueued <==> p in s.polls[s.ports[p].thread]
    {
      assert PortOk(s, p);
    }
  }

  lemma SilentLink(s: State, a: nat)
    requires a < |s.pcs| && LinkEnabled(s, a, Link)
    ensures var n := s.conns[s.pcs[a].c].progress; n != 2 && n != 3 ==> Linked(s, a).polls == s.polls
  {
  }

  lemma LinkQueues(s: State, a: nat, th: nat)
    requires Inv(s) && a < |s.pcs| && LinkEnabled(s, a, Link) && th < |s.polls|
    ensures th < |Linked(s, a).polls| && QueueStep(s.polls[th], Linked(s, a).polls[th])
  {
    AllQueued(s);
    var v := s.pcs[a];
    var k := s.conns[v.c];
    var s1 := SetConn(s, v.c, k.(progress := k.progress + 1));
    if k.progress == 2 {
      DeliveredQueues(s1, v.t1, Opened, th);
    } else if k.progress == 3 {
      DeliveredQueues(s1, v.t2, Opened, th);
    } else {
      SilentLink(s, a);
    }
  }

  lemma QuietSends(s: State, a: nat, b: ActorStep)
    requires a < |s.pcs| && SendEnabled(s, a, b) && !b.Deliver?
    ensures ApplySend(s, a, b).polls == s.polls
  {
  }

  lemma QuietLinks(s: State, a: nat, b: ActorStep)
    requires a < |s.pcs| && LinkEnabled(s, a, b) && !b.Link?
    ensures ApplyLink(s, a, b).polls == s.polls
  {
  }

  lemma QuietHangups(s: State, a: nat, b: ActorStep)
    requires a < |s.pcs| && HangupEnabled(s, a, b) && !b.Tell?
    ensures ApplyHangup(s, a, b).polls == s.polls
  {
  }

  lemma StepQueues(s: State, x: Step, th: nat)
    requires Inv(s) && Enabled(s, x) && th < |s.polls|
    ensures th < |Apply(s, x).polls| && QueueStep(s.polls[th], Apply(s, x).polls[th])
  {
    match x
    case Owner(b) =>
    case Actor(a, b) =>
      if SendEnabled(s, a, b) {
        AllQueued(s);
        if b.Deliver? { DeliveredQueues(s, s.pcs[a].o, Data(s.pcs[a].id), th); } else { QuietSends(s, a, b); }
      } else if LinkEnabled(s, a, b) {
        if b.Link? { LinkQueues(s, a, th); } else { QuietLinks(s, a, b); }
      } else {
        AllQueued(s);
        if b.Tell? { DeliveredQueues(s, s.pcs[a].o, Closed, th); } else { QuietHangups(s, a, b); }
      }
  }

  /** Having left the list, a port is past being queued. */
  predicate Done(s: State, p: nat) {
    p < |s.ports| && (s.ports[p].phase.Unqueued? || s.ports[p].phase.Gone?)
  }

  predicate StillQueued(s: State, s': State, p: nat)
    requires p < |s.ports| == |s'.ports|
  {
    (s.ports[p].isQueued ==> s'.ports[p].isQueued) && s'.ports[p].thread == s.ports[p].thread
    && (Done(s, p) ==> s'.ports[p].phase == s.ports[p].phase)
  }

  lemma OwnerQueued(s: State, b: OwnerStep, p: nat)
    requires OwnerEnabled(s, b) && p < |s.ports|
    ensures p < |ApplyOwner(s, b).ports| && ApplyOwner(s, b).ports[p].thread == s.ports[p].thread
    ensures s.ports[p].isQueued || Done(s, p) ==> ApplyOwner(s, b).ports[p].isQueued || Done(ApplyOwner(s, b), p)
    ensures Done(s, p) ==> Done(ApplyOwner(s, b), p)
  {
  }

  lemma SendQueued(s: State, a: nat, b: ActorStep, p: nat)
    requires a < |s.pcs| && SendEnabled(s, a, b) && p < |s.ports| == |ApplySend(s, a, b).ports|
    ensures StillQueued(s, ApplySend(s, a, b), p)
  {
  }

  lemma LinkQueued(s: State, a: nat, b: ActorStep, p: nat)
    requires a < |s.pcs| && LinkEnabled(s, a, b) && p < |s.ports| == |ApplyLink(s, a, b).ports|
    ensures StillQueued(s, ApplyLink(s, a, b), p)
  {
  }

  lemma HangupQueued(s: State, a: nat, b: ActorStep, p: nat)
    requires a < |s.pcs| && HangupEnabled(s, a, b) && p < |s.ports| == |ApplyHangup(s, a, b).ports|
    ensures StillQueued(s, ApplyHangup(s, a, b), p)
  {
  }

  lemma QueuedOrDone(s: State, x: Step, p: nat)
    requires Enabled(s, x) && p < |s.ports| && (s.ports[p].isQueued || Done(s, p))
    ensures p < |Apply(s, x).ports| && (Apply(s, x).ports[p].isQueued || Done(Apply(s, x), p))
    ensures Apply(s, x).ports[p].thread == s.ports[p].thread
    ensures Done(s, p) ==> Done(Apply(s, x), p)
  {
    match x
    case Owner(b) => OwnerQueued(s, b, p);
    case Actor(a, b) =>
      if SendEnabled(s, a, b) { SendPorts(s, a, b); SendQueued(s, a, b, p); }
      else if LinkEnabled(s, a, b) { LinkPorts(s, a, b); LinkQueued(s, a, b, p); }
      else { HangupPorts(s, a, b); HangupQueued(s, a, b, p); }
  }

  /** As long as p and q are both pending p is ahead; and p is pending or past it. */
  predicate InOrder(s: State, th: nat, p: nat, q: nat) {
    && th < |s.polls| && p < |s.ports| && s.ports[p].thread == th && (s.ports[p].isQueued || Done(s, p))
    && (p in s.polls[th] && q in s.polls[th] ==> Ahead(s.polls[th], p, q))
  }

  lemma StaysInOrder(s: State, x: Step, th: nat, p: nat, q: nat)
    requires Inv(s) && Enabled(s, x) && InOrder(s, th, p, q) && p != q
    ensures InOrder(Apply(s, x), th, p, q)
  {
    var s' := Apply(s, x);
    StepKeeps(s, x);
    QueuedOrDone(s, x, p);
    StepQueues(s, x, th);
    assert PortOk(s, p) && PortOk(s', p) && PollOk(s, th);
    var l, l' := s.polls[th], s'.polls[th];
    if p in l' && q in l' {
      assert !Done(s', p) && p in l;
      QueueOrder(l, l', p, q);
    }
  }

  lemma QueueOrder(l: seq<nat>, l': seq<nat>, p: nat, q: nat)
    requires Distinct(l) && QueueStep(l, l') && p in l && p in l' && q in l' && p != q
    requires q in l ==> Ahead(l, p, q)
    ensures Ahead(l', p, q)
  {
    if l' == l {
    } else if x :| x !in l && l' == l + [x] {
      AheadSnoc(l, x, p, q);
    } else {
      var x :| l' == Without(l, x);
      WithoutMembers(l, x);
      AheadWithout(l, x, p, q);
    }
  }

  predicate OrderAt(r: Run, th: nat, p: nat, q: nat, k: nat)
    requires k < |r.steps| < |r.states|
  {
    InOrder(r.states[k], th, p, q) ==> InOrder(r.states[k + 1], th, p, q)
  }

  lemma EachOrder(r: Run, th: nat, p: nat, q: nat)
    requires IsRun(r) && p != q
    ensures forall k | 0 <= k < |r.steps| :: OrderAt(r, th, p, q, k)
  {
    forall k | 0 <= k < |r.steps| ensures OrderAt(r, th, p, q, k) {
      RunInv(r, k);
      if InOrder(r.states[k], th, p, q) { StaysInOrder(r.states[k], r.steps[k], th, p, q); }
    }
  }

  lemma {:induction false} OrderChain(r: Run, i: nat, j: nat, th: nat, p: nat, q: nat)
    requires i <= j <= |r.steps| < |r.states| && InOrder(r.states[i], th, p, q)
    requires forall k | 0 <= k < |r.steps| :: OrderAt(r, th, p, q, k)
    ensures InOrder(r.states[j], th, p, q)
  {
    if i < j {
      OrderChain(r, i, j - 1, th, p, q);
      assert OrderAt(r, th, p, q, j - 1);
    }
  }

  /**
   * A pending list is first in, first out: a port that was pending when another was not, or was
   * ahead of it, is ahead of it whenever both are pending later.
   */
  lemma PendingInOrder(r: Run, i: nat, j: nat, th: nat, p: nat, q: nat)
    requires IsRun(r) && i <= j < |r.states| && th < |r.states[i].polls| && p != q
    requires var l := r.states[i].polls[th]; p in l && (q in l ==> Ahead(l, p, q))
    ensures th < |r.states[j].polls|
    ensures var l := r.states[j].polls[th]; p in l && q in l ==> Ahead(l, p, q)
  {
    RunInv(r, i);
    assert PollOk(r.states[i], th) && PortOk(r.states[i], p);
    EachOrder(r, th, p, q);
    OrderChain(r, i, j, th, p, q);
  }

  // ---- terminals and phases of a port ------------------------------------

  predicate Has(s: State, p: nat, t: nat) {
    p < |s.ports| && s.ports[p].terminal == Some(t) && s.ports[p].phase.Open?
  }

  lemma SendHas(s: State, a: nat, b: ActorStep, p: nat, t: nat)
    requires a < |s.pcs| && SendEnabled(s, a, b) && Has(s, p, t)
    ensures Has(ApplySend(s, a, b), p, t)
  {
  }

  lemma LinkHas(s: State, a: nat, b: ActorStep, p: nat, t: nat)
    requires Inv(s) && a < |s.pcs| && LinkEnabled(s, a, b) && Has(s, p, t) && !(b.StartSever? && b.p == p)
    ensures Has(ApplyLink(s, a, b), p, t)
  {
  }

  lemma HangupHas(s: State, a: nat, b: ActorStep, p: nat, t: nat)
    requires a < |s.pcs| && HangupEnabled(s, a, b) && Has(s, p, t)
    ensures Has(ApplyHangup(s, a, b), p, t)
  {
  }

  lemma StepHas(s: State, x: Step, p: nat, t: nat)
    requires Inv(s) && Enabled(s, x) && Has(s, p, t) && !(x.Actor? && x.actor.StartSever? && x.actor.p == p)
    ensures Has(Apply(s, x), p, t)
  {
    match x
    case Owner(b) =>
    case Actor(a, b) =>
      if SendEnabled(s, a, b) { SendHas(s, a, b, p, t); }
      else if LinkEnabled(s, a, b) { LinkHas(s, a, b, p, t); }
      else { HangupHas(s, a, b, p, t); }
  }

  /** A port has the terminal that was built for it, and that terminal has the port, until it is severed. */
  lemma TerminalUntilSever(r: Run, i: nat, j: nat, p: nat)
    requires IsRun(r) && i < j < |r.states| && r.steps[i] == Owner(NewTerminal(p))
    requires forall k | i < k < j :: !BeginsSever(r.steps[k], p)
    ensures Has(r.states[j], p, |r.states[i].terms|)
    ensures var t := |r.states[i].terms|; t < |r.states[j].terms| && r.states[j].terms[t].port == Some(p)
  {
    var t := |r.states[i].terms|;
    assert Enabled(r.states[i], r.steps[i]) && r.states[i + 1] == Apply(r.states[i], r.steps[i]);
    EachHas(r, p, t);
    HasChain(r, i + 1, j, p, t);
    RunInv(r, j);
    assert PortOk(r.states[j], p);
  }

  predicate BeginsSever(x: Step, p: nat) {
    x.Actor? && x.actor.StartSever? && x.actor.p == p
  }

  predicate HasAt(r: Run, p: nat, t: nat, k: nat)
    requires k < |r.steps| < |r.states|
  {
    Has(r.states[k], p, t) && !BeginsSever(r.steps[k], p) ==> Has(r.states[k + 1], p, t)
  }

  lemma EachHas(r: Run, p: nat, t: nat)
    requires IsRun(r)
    ensures forall k | 0 <= k < |r.steps| :: HasAt(r, p, t, k)
  {
    forall k | 0 <= k < |r.steps| ensures HasAt(r, p, t, k) {
      RunInv(r, k);
      if Has(r.states[k], p, t) && !BeginsSever(r.steps[k], p) { StepHas(r.states[k], r.steps[k], p, t); }
    }
  }

  lemma {:induction false} HasChain(r: Run, i: nat, j: nat, p: nat, t: nat)
    requires i <= j <= |r.steps| < |r.states| && Has(r.states[i], p, t)
    requires forall k | 0 <= k < |r.steps| :: HasAt(r, p, t, k)
    requires forall k | i <= k < j :: !BeginsSever(r.steps[k], p)
    ensures Has(r.states[j], p, t)
  {
    if i < j {
      HasChain(r, i, j - 1, p, t);
      assert HasAt(r, p, t, j - 1);
    }
  }

  /** The ways a port's phase can go. */
  predicate PhaseStep(f: Phase, f': Phase, x: Step, p: nat) {
    match f
    case Open =>
      f'.Open? || (x.Actor? && x.actor.StartSever? && x.actor.p == p
                   && (f' == Severing(x.actor.destroy) || (x.actor.destroy && f'.Severed?)))
    case Severing(destroy) => f' == f || f' == (if destroy then Severed else Open)
    case Severed => f' == f || (f'.Unqueued? && x == Owner(RemovePending(p)))
    case Unqueued => f' == f || (f'.Gone? && x == Owner(DeletePort(p)))
    case Gone => f'.Gone?
  }

  lemma SendPhase(s: State, a: nat, b: ActorStep, p: nat)
    requires Inv(s) && a < |s.pcs| && SendEnabled(s, a, b) && p < |s.ports| == |ApplySend(s, a, b).ports|
    ensures PhaseStep(s.ports[p].phase, ApplySend(s, a, b).ports[p].phase, Actor(a, b), p)
  {
  }

  lemma SeverPhase(s: State, a: nat, b: ActorStep, p: nat)
    requires a < |s.pcs| && LinkEnabled(s, a, b) && p < |s.ports| == |ApplyLink(s, a, b).ports|
    requires b.StartSever? || b.DropCut?
    requires b.StartSever? && s.ports[b.p].terminal.Some? ==> Retainable(s.terms[s.ports[b.p].terminal.value])
    ensures PhaseStep(s.ports[p].phase, ApplyLink(s, a, b).ports[p].phase, Actor(a, b), p)
  {
  }

  lemma QuietPhase(s: State, a: nat, b: ActorStep, p: nat)
    requires a < |s.pcs| && LinkEnabled(s, a, b) && p < |s.ports| == |ApplyLink(s, a, b).ports|
    requires !b.StartSever? && !b.DropCut?
    ensures ApplyLink(s, a, b).ports[p].phase == s.ports[p].phase
  {
  }

  lemma LinkPhase(s: State, a: nat, b: ActorStep, p: nat)
    requires Inv(s) && a < |s.pcs| && LinkEnabled(s, a, b) && p < |s.ports| == |ApplyLink(s, a, b).ports|
    ensures PhaseStep(s.ports[p].phase, ApplyLink(s, a, b).ports[p].phase, Actor(a, b), p)
  {
    if b.StartSever? && s.ports[b.p].terminal.Some? { PortTerminal(s, b.p); }
    if b.StartSever? || b.DropCut? { SeverPhase(s, a, b, p); } else { QuietPhase(s, a, b, p); }
  }

  lemma HangupPhase(s: State, a: nat, b: ActorStep, p: nat)
    requires a < |s.pcs| && HangupEnabled(s, a, b) && p < |s.ports| == |ApplyHangup(s, a, b).ports|
    ensures ApplyHangup(s, a, b).ports[p].phase == s.ports[p].phase
  {
  }

  lemma StepPhase(s: State, x: Step, p: nat)
    requires Inv(s) && Enabled(s, x) && p < |s.ports|
    ensures p < |Apply(s, x).ports| && PhaseStep(s.ports[p].phase, Apply(s, x).ports[p].phase, x, p)
  {
    OldPorts(s, x);
    match x
    case Owner(b) =>
    case Actor(a, b) =>
      if SendEnabled(s, a, b) { SendPhase(s, a, b, p); }
      else if LinkEnabled(s, a, b) { LinkPhase(s, a, b, p); }
      else { HangupPhase(s, a, b, p); }
  }

  predicate Doomed(s: State, p: nat) {
    p < |s.ports| && (s.ports[p].phase == Severing(true) || IpcTheorems.Retired(s.ports[p].phase))
  }

  /**
   * A port that begins to be destroyed never comes back into use: it is being severed or is retired.
   * A Sever that destroys nothing gives the port back.
   */
  lemma {:induction false} DestroyRetires(r: Run, i: nat, j: nat, a: nat, p: nat)
    requires IsRun(r) && i < j < |r.states| && r.steps[i] == Actor(a, StartSever(p, true))
    ensures Doomed(r.states[j], p)
  {
    assert Enabled(r.states[j - 1], r.steps[j - 1]) && r.states[j] == Apply(r.states[j - 1], r.steps[j - 1]);
    RunInv(r, j - 1);
    if i + 1 < j {
      DestroyRetires(r, i, j - 1, a, p);
      StepPhase(r.states[j - 1], r.steps[j - 1], p);
    } else {
      DoomedNow(r.states[i], a, p);
    }
  }

  lemma DoomedNow(s: State, a: nat, p: nat)
    requires Inv(s) && Enabled(s, Actor(a, StartSever(p, true)))
    ensures Doomed(Apply(s, Actor(a, StartSever(p, true))), p)
  {
    if s.ports[p].terminal.Some? { PortTerminal(s, p); }
  }

  /** A port's phases follow one another as its owner's calls say, and a Sever ends as it was begun. */
  lemma PhasesFollow(r: Run, i: nat, p: nat)
    requires IsRun(r) && i < |r.steps| && p < |r.states[i].ports|
    ensures p < |r.states[i + 1].ports|
    ensures PhaseStep(r.states[i].ports[p].phase, r.states[i + 1].ports[p].phase, r.steps[i], p)
    ensures r.steps[i] == Owner(RemovePending(p)) ==> r.states[i + 1].ports[p].phase.Unqueued?
    ensures r.steps[i] == Owner(DeletePort(p)) ==> r.states[i + 1].ports[p].phase.Gone?
    ensures r.states[i + 1].ports[p].thread == r.states[i].ports[p].thread
  {
    RunInv(r, i);
    StepPhase(r.states[i], r.steps[i], p);
    StepThread(r.states[i], r.steps[i], p);
  }

  lemma StepThread(s: State, x: Step, p: nat)
    requires Enabled(s, x) && p < |s.ports|
    ensures p < |Apply(s, x).ports| && Apply(s, x).ports[p].thread == s.ports[p].thread
  {
    match x
    case Owner(b) => OwnerQueued(s, b, p);
    case Actor(a, b) =>
      if SendEnabled(s, a, b) { SendPorts(s, a, b); SendQueued(s, a, b, p); }
      else if LinkEnabled(s, a, b) { LinkPorts(s, a, b); LinkQueued(s, a, b, p); }
      else { HangupPorts(s, a, b); HangupQueued(s, a, b, p); }
  }

  predicate InSever(v: Pc, p: nat) {
    (v.Cutting? && v.p == p) || (v.Cut? && v.p == p) || (v.Throwing? && v.k == ThenPort(p))
  }

  lemma {:induction false} SomeoneSevers(pcs: seq<Pc>, p: nat)
    ensures Count(pcs, Severs(p)) >= 1 <==> exists a | 0 <= a < |pcs| :: InSever(pcs[a], p)
  {
    if pcs != [] {
      SomeoneSevers(pcs[1..], p);
      if a :| 0 <= a < |pcs| && InSever(pcs[a], p) { assert a > 0 ==> InSever(pcs[1..][a - 1], p); }
      if a :| 0 <= a < |pcs[1..]| && InSever(pcs[1..][a], p) { assert InSever(pcs[a + 1], p); }
    }
  }

  /** A port is being severed exactly as long as some call of Sever on it that took its terminal has not returned. */
  lemma SeveringExactly(r: Run, i: nat, p: nat)
    requires IsRun(r) && i < |r.states| && p < |r.states[i].ports|
    ensures r.states[i].ports[p].phase.Severing? <==>
      exists a | 0 <= a < |r.states[i].pcs| :: InSever(r.states[i].pcs[a], p)
  {
    RunInv(r, i);
    assert PortOk(r.states[i], p);
    SomeoneSevers(r.states[i].pcs, p);
  }

  /** A port belongs to the thread it was made for, from the start to the end. */
  lemma {:induction false} PortStaysWithThread(r: Run, i: nat, j: nat, th: nat)
    requires IsRun(r) && i < j < |r.states| && r.steps[i] == Owner(NewPort(th))
    ensures var p := |r.states[i].ports|; p < |r.states[j].ports| && r.states[j].ports[p].thread == th
  {
    assert Enabled(r.states[j - 1], r.steps[j - 1]) && r.states[j] == Apply(r.states[j - 1], r.steps[j - 1]);
    if i + 1 < j {
      PortStaysWithThread(r, i, j - 1, th);
      StepThread(r.states[j - 1], r.steps[j - 1], |r.states[i].ports|);
    }
  }

  // ---- the creator's reference -------------------------------------------

  predicate Links(v: Pc, t: nat) {
    v.Linking? && (v.t1 == t || v.t2 == t)
  }

  /** The creator of the terminal has not given up its reference; Connect borrows it meanwhile. */
  predicate Kept(s: State, t: nat) {
    t < |s.terms| && (s.terms[t].creator || exists a | 0 <= a < |s.pcs| :: Links(s.pcs[a], t))
  }

  lemma SendCreator(s: State, a: nat, b: ActorStep, t: nat)
    requires a < |s.pcs| && SendEnabled(s, a, b) && t < |s.terms|
    ensures var s' := ApplySend(s, a, b); |s'.terms| == |s.terms| && s'.terms[t].creator == s.terms[t].creator
    ensures !s.pcs[a].Linking? && !ApplySend(s, a, b).pcs[a].Linking?
  {
  }

  lemma HangupCreator(s: State, a: nat, b: ActorStep, t: nat)
    requires a < |s.pcs| && HangupEnabled(s, a, b) && t < |s.terms|
    ensures var s' := ApplyHangup(s, a, b); |s'.terms| == |s.terms| && s'.terms[t].creator == s.terms[t].creator
    ensures !s.pcs[a].Linking? && !ApplyHangup(s, a, b).pcs[a].Linking?
  {
  }

  lemma LinkCreator(s: State, a: nat, b: ActorStep, t: nat)
    requires Inv(s) && a < |s.pcs| && LinkEnabled(s, a, b) && t < |s.terms|
    ensures var s' := ApplyLink(s, a, b);
            |s'.terms| == |s.terms| && |s'.pcs| == |s.pcs|
            && (s'.terms[t].creator || Links(s'.pcs[a], t) <==>
                (s.terms[t].creator || Links(s.pcs[a], t)) && b != DropCreator(t))
    ensures b == DropCreator(t) ==> s.terms[t].creator
  {
    if b.Link? { LinkedCreator(s, a, t); }
  }

  lemma LinkedCreator(s: State, a: nat, t: nat)
    requires Inv(s) && a < |s.pcs| && LinkEnabled(s, a, Link) && t < |s.terms|
    ensures var s' := Linked(s, a);
            |s'.terms| == |s.terms| && |s'.pcs| == |s.pcs|
            && (s'.terms[t].creator || Links(s'.pcs[a], t) <==> s.terms[t].creator || Links(s.pcs[a], t))
  {
    Linker(s, a);
  }

  lemma CreatorLinksNot(s: State, a: nat, t: nat)
    requires Inv(s) && a < |s.pcs| && t < |s.terms| && s.terms[t].creator
    ensures !Links(s.pcs[a], t)
  {
    if s.pcs[a].Linking? { Linker(s, a); }
  }

  lemma KeptBy(s: State, s': State, a: nat, t: nat, dropped: bool)
    requires a < |s.pcs| == |s'.pcs| && s'.pcs == s.pcs[a := s'.pcs[a]] && t < |s.terms| == |s'.terms|
    requires s'.terms[t].creator || Links(s'.pcs[a], t) <==> (s.terms[t].creator || Links(s.pcs[a], t)) && !dropped
    requires dropped ==> forall b | 0 <= b < |s.pcs| :: !Links(s.pcs[b], t)
    ensures Kept(s', t) <==> Kept(s, t) && !dropped
  {
    forall b | 0 <= b < |s.pcs| && b != a ensures s'.pcs[b] == s.pcs[b] {}
    if b :| 0 <= b < |s.pcs| && b != a && Links(s.pcs[b], t) { assert Links(s'.pcs[b], t); }
  }

  lemma StepKept(s: State, x: Step, t: nat)
    requires Inv(s) && Enabled(s, x) && t < |s.terms|
    ensures Kept(Apply(s, x), t) <==> Kept(s, t) && !(x.Actor? && x.actor == DropCreator(t))
  {
    var s' := Apply(s, x);
    match x
    case Owner(b) =>
    case Actor(a, b) =>
      if SendEnabled(s, a, b) {
        SendMoves(s, a, b);
        SendCreator(s, a, b, t);
        KeptBy(s, s', a, t, false);
      } else if LinkEnabled(s, a, b) {
        LinkKeepsLinks(s, a, b);
        LinkCreator(s, a, b, t);
        if b == DropCreator(t) {
          forall e: nat | e < |s.pcs| ensures !Links(s.pcs[e], t) { CreatorLinksNot(s, e, t); }
        }
        KeptBy(s, s', a, t, b == DropCreator(t));
      } else {
        HangupMoves(s, a, b);
        HangupCreator(s, a, b, t);
        KeptBy(s, s', a, t, false);
      }
  }

  predicate DroppedAt(r: Run, i: nat, t: nat) {
    i < |r.steps| && r.steps[i].Actor? && r.steps[i].actor == DropCreator(t)
  }

  /** The creator has its reference from the making of the terminal until it gives it up, and not after. */
  lemma {:induction false} CreatorExactly(r: Run, j: nat, t: nat)
    requires IsRun(r) && j < |r.states| && t < |r.states[j].terms|
    ensures Kept(r.states[j], t) <==> forall i | 0 <= i < j :: !DroppedAt(r, i, t)
  {
    var s, x := r.states[j - 1], r.steps[j - 1];
    assert Enabled(s, x) && r.states[j] == Apply(s, x);
    if t < |s.terms| {
      CreatorExactly(r, j - 1, t);
      RunInv(r, j - 1);
      StepKept(s, x, t);
      assert DroppedAt(r, j - 1, t) <==> x.Actor? && x.actor == DropCreator(t);
    } else {
      NotYetMade(r, j, t);
      MadeKept(s, x, t);
    }
  }

  lemma MadeKept(s: State, x: Step, t: nat)
    requires Enabled(s, x) && |s.terms| <= t < |Apply(s, x).terms|
    ensures Kept(Apply(s, x), t)
  {
    if x.Actor? { NoNewTerms(s, x.a, x.actor); }
  }

  lemma {:induction false} NotYetMade(r: Run, j: nat, t: nat)
    requires IsRun(r) && 0 < j < |r.states| && |r.states[j - 1].terms| <= t
    ensures forall i | 0 <= i < j :: !DroppedAt(r, i, t)
  {
    var s, x := r.states[j - 1], r.steps[j - 1];
    assert Enabled(s, x);
    if j > 1 {
      assert Enabled(r.states[j - 2], r.steps[j - 2]) && s == Apply(r.states[j - 2], r.steps[j - 2]);
      TermsGrow(r.states[j - 2], r.steps[j - 2]);
      NotYetMade(r, j - 1, t);
    }
  }

  lemma TermsGrow(s: State, x: Step)
    requires Enabled(s, x)
    ensures |s.terms| <= |Apply(s, x).terms|
  {
    if x.Actor? { NoNewTerms(s, x.a, x.actor); }
  }

  // ---- the collector's queue ---------------------------------------------

  /** As long as t waits to be deallocated u, thrown away later, waits behind it. */
  predicate Behind(s: State, t: nat, u: nat) {
    t < |s.terms| && (Hung(s.terms[t]) || (t in s.queue && Ahead(s.queue, t, u)))
  }

  lemma SendBehind(s: State, a: nat, b: ActorStep, t: nat, u: nat)
    requires Inv(s) && a < |s.pcs| && SendEnabled(s, a, b) && Behind(s, t, u)
    ensures Behind(ApplySend(s, a, b), t, u)
  {
    if b.ThrowAway? {
      assert PcOk(s, a) && TermOk(s, s.pcs[a].o);
      CountAtLeast(s.pcs, a, Throws(s.pcs[a].o));
      if t in s.queue && Ahead(s.queue, t, u) { AheadSnoc(s.queue, s.pcs[a].o, t, u); }
    }
  }

  lemma LinkQueue(s: State, a: nat, b: ActorStep)
    requires a < |s.pcs| && LinkEnabled(s, a, b)
    ensures ApplyLink(s, a, b).queue == s.queue
  {
  }

  lemma LinkedHung(s: State, a: nat, t: nat)
    requires a < |s.pcs| && LinkEnabled(s, a, Link) && t < |s.terms|
    ensures t < |Linked(s, a).terms| && Linked(s, a).terms[t].life == s.terms[t].life
  {
  }

  lemma LinkHung(s: State, a: nat, b: ActorStep, t: nat)
    requires a < |s.pcs| && LinkEnabled(s, a, b) && t < |s.terms|
    ensures t < |ApplyLink(s, a, b).terms| && ApplyLink(s, a, b).terms[t].life == s.terms[t].life
  {
    if b.Link? { LinkedHung(s, a, t); }
  }

  lemma LinkBehind(s: State, a: nat, b: ActorStep, t: nat, u: nat)
    requires a < |s.pcs| && LinkEnabled(s, a, b) && Behind(s, t, u)
    ensures Behind(ApplyLink(s, a, b), t, u)
  {
    LinkQueue(s, a, b);
    LinkHung(s, a, b, t);
  }

  lemma HangupBehind(s: State, a: nat, b: ActorStep, t: nat, u: nat)
    requires Inv(s) && a < |s.pcs| && HangupEnabled(s, a, b) && Behind(s, t, u)
    ensures Behind(ApplyHangup(s, a, b), t, u)
  {
  }

  lemma StepBehind(s: State, x: Step, t: nat, u: nat)
    requires Inv(s) && Enabled(s, x) && Behind(s, t, u)
    ensures Behind(Apply(s, x), t, u)
  {
    match x
    case Owner(b) =>
    case Actor(a, b) =>
      if SendEnabled(s, a, b) { SendBehind(s, a, b, t, u); }
      else if LinkEnabled(s, a, b) { LinkBehind(s, a, b, t, u); }
      else { HangupBehind(s, a, b, t, u); }
  }

  /** Terminals are deallocated in the order in which they were thrown away. */
  lemma {:induction false} TerminalsInOrder(r: Run, i: nat, j: nat, t: nat, u: nat)
    requires IsRun(r) && i <= j < |r.states| && t in r.states[i].queue && Ahead(r.states[i].queue, t, u)
    ensures Behind(r.states[j], t, u)
  {
    RunInv(r, j);
    if i == j {
      RunInv(r, i);
    } else {
      TerminalsInOrder(r, i, j - 1, t, u);
      RunInv(r, j - 1);
      StepBehind(r.states[j - 1], r.steps[j - 1], t, u);
    }
  }
}
