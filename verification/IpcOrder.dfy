/** Nothing is lost and nothing is reordered between two ports. */
module IpcOrder {
  import opened Common
  import opened Ipc
  import opened IpcInvariant
  import opened IpcSteps
  import opened IpcConnect
  import opened IpcTheorems

  // ---- what single steps leave alone -------------------------------------

  predicate Hung(k: TermRec) {
    k.life.Hanging? || k.life.Deleted?
  }

  /** Terminal t belongs to the connection it belonged to, and is no nearer to its end. */
  predicate Steady(s: State, s': State, t: nat)
    requires t < |s.terms|
  {
    t < |s'.terms| && s'.terms[t].claimed == s.terms[t].claimed && (Hung(s'.terms[t]) ==> Hung(s.terms[t]))
  }

  /** Connections join the terminals they joined, and one actor at most has moved. */
  predicate SameLinks(s: State, s': State, a: nat)
    requires a < |s.pcs|
  {
    && |s'.pcs| == |s.pcs| && s'.pcs == s.pcs[a := s'.pcs[a]] && |s.conns| <= |s'.conns|
    && forall c | 0 <= c < |s.conns| :: s'.conns[c].a == s.conns[c].a && s'.conns[c].b == s.conns[c].b
  }

  lemma SendSteady(s: State, a: nat, b: ActorStep, t: nat)
    requires a < |s.pcs| && SendEnabled(s, a, b) && t < |s.terms|
    requires b.ThrowAway? ==> s.terms[s.pcs[a].o].life.Alive?
    ensures Steady(s, ApplySend(s, a, b), t) && SameLinks(s, ApplySend(s, a, b), a)
  {
  }

  lemma LinkKeepsLinks(s: State, a: nat, b: ActorStep)
    requires a < |s.pcs| && LinkEnabled(s, a, b)
    ensures SameLinks(s, ApplyLink(s, a, b), a)
  {
  }

  lemma LinkSteady(s: State, a: nat, b: ActorStep, t: nat)
    requires a < |s.pcs| && LinkEnabled(s, a, b) && t < |s.terms|
    ensures (b.StartConnect? && (t == b.t1 || t == b.t2)) || Steady(s, ApplyLink(s, a, b), t)
  {
  }

  lemma HangupSteady(s: State, a: nat, b: ActorStep, t: nat)
    requires a < |s.pcs| && HangupEnabled(s, a, b) && t < |s.terms| && (b.Delete? ==> s.terms[s.pcs[a].t].life.Hanging?)
    ensures SameLinks(s, ApplyHangup(s, a, b), a)
    ensures (b.Collect? && s.queue[0] == t) || Steady(s, ApplyHangup(s, a, b), t)
  {
  }

  // ---- Closed is never lost ----------------------------------------------

  /** If the terminal at the other end is done hanging up, terminal t's port has been told. */
  predicate Told(s: State, t: nat) {
    t < |s.terms| && s.terms[t].port.Some? && s.terms[t].claimed.Some? && s.terms[t].claimed.value < |s.conns| ==>
      var u := Peer(s.conns[s.terms[t].claimed.value], t);
      u < |s.terms| && Hung(s.terms[u]) && Count(s.pcs, Pending(u)) == 0 ==> Closed in s.terms[t].log
  }

  /** Terminals t and u are the two ends of connection c, which u's deallocation has not left unknown. */
  predicate Partners(s: State, t: nat, u: nat) {
    && t < |s.terms| && u < |s.terms| && s.terms[t].claimed.Some? && s.terms[t].claimed.value < |s.conns|
    && u == Peer(s.conns[s.terms[t].claimed.value], t)
  }

  /** A terminal whose other end is hung up was properly connected to it. */
  lemma PartnerLinked(s: State, t: nat, u: nat)
    requires Inv(s) && Partners(s, t, u) && Hung(s.terms[u])
    ensures var c := s.terms[t].claimed.value;
            s.terms[u].claimed == Some(c) && s.terms[u].connection == Some(c) && t != u && t == Peer(s.conns[c], u)
    ensures var k := s.conns[s.terms[t].claimed.value];
      !Hung(s.terms[t]) ==> k.terminal1 == Some(t) || k.terminal2 == Some(t)
    ensures s.terms[t].port.Some? ==> !Hung(s.terms[t])
  {
    assert TermOk(s, t) && TermOk(s, u);
    assert ConnOk(s, s.terms[t].claimed.value);
    HangingStored(s, u);
  }

  lemma ReadTells(s: State, a: nat, t: nat, u: nat)
    requires Inv(s) && a < |s.pcs| && HangupEnabled(s, a, ReadHangup) && Partners(s, t, u) && Hung(s.terms[u])
    requires s.pcs[a] == Finding(u)
    ensures ApplyHangup(s, a, ReadHangup).pcs[a].Closing?
  {
    PartnerLinked(s, t, u);
  }

  lemma CloseTellsPartner(s: State, a: nat, t: nat, u: nat)
    requires Inv(s) && a < |s.pcs| && HangupEnabled(s, a, Close) && Partners(s, t, u) && Hung(s.terms[u])
    requires s.pcs[a].Closing? && s.pcs[a].t == u && s.terms[t].port.Some?
    ensures ApplyHangup(s, a, Close).pcs[a].Telling?
  {
    PartnerLinked(s, t, u);
    CloserRegistered(s, a);
    assert ConnOk(s, s.pcs[a].c);
  }

  lemma TellArrives(s: State, a: nat, t: nat, u: nat)
    requires Inv(s) && a < |s.pcs| && HangupEnabled(s, a, Tell) && Partners(s, t, u) && Hung(s.terms[u])
    requires s.pcs[a].t == u && s.terms[t].port.Some?
    ensures Closed in ApplyHangup(s, a, Tell).terms[t].log
  {
    PartnerLinked(s, t, u);
    assert PcOk(s, a) && TermOk(s, s.pcs[a].o);
    assert s.pcs[a].o == t;
  }

  /** The actor that ends the hangup of u's end of t's connection has told t's port. */
  lemma HangupTells(s: State, a: nat, b: ActorStep, t: nat, u: nat)
    requires Inv(s) && a < |s.pcs| && HangupEnabled(s, a, b) && Partners(s, t, u) && s.terms[t].port.Some?
    requires Hung(s.terms[u])
    requires Weight(s.pcs[a], Pending(u)) == 1 && Weight(ApplyHangup(s, a, b).pcs[a], Pending(u)) == 0
    ensures Closed in ApplyHangup(s, a, b).terms[t].log
  {
    match b
    case ReadHangup => ReadTells(s, a, t, u);
    case Close => CloseTellsPartner(s, a, t, u);
    case Tell => TellArrives(s, a, t, u);
    case _ =>
  }

  /** An actor step is steady for t, unless it connects t or starts to deallocate it. */
  lemma StepSteady(s: State, a: nat, b: ActorStep, t: nat)
    requires Inv(s) && Enabled(s, Actor(a, b)) && t < |s.terms|
    ensures var s' := Apply(s, Actor(a, b));
            SameLinks(s, s', a)
            && ((b.StartConnect? && (t == b.t1 || t == b.t2)) || (b.Collect? && s'.pcs[a] == Finding(t))
                || Steady(s, s', t))
  {
    assert PcOk(s, a);
    if SendEnabled(s, a, b) {
      if b.ThrowAway? { assert TermOk(s, s.pcs[a].o); CountAtLeast(s.pcs, a, Throws(s.pcs[a].o)); }
      SendSteady(s, a, b, t);
    } else if LinkEnabled(s, a, b) {
      LinkKeepsLinks(s, a, b);
      LinkSteady(s, a, b, t);
    } else {
      if b.Delete? { assert TermOk(s, s.pcs[a].t); CountAtLeast(s.pcs, a, Hangs(s.pcs[a].t)); }
      HangupSteady(s, a, b, t);
    }
  }

  /** Only the collector's sections end a hangup. */
  lemma PendingMover(s: State, a: nat, b: ActorStep, u: nat)
    requires Enabled(s, Actor(a, b)) && Weight(s.pcs[a], Pending(u)) == 1
    ensures HangupEnabled(s, a, b) && Apply(s, Actor(a, b)) == ApplyHangup(s, a, b)
  {
  }

  /** The two ends of a new connection are alive. */
  lemma NewlyTold(s: State, a: nat, t1: nat, t2: nat, t: nat)
    requires Inv(s) && a < |s.pcs| && LinkEnabled(s, a, StartConnect(t1, t2)) && (t == t1 || t == t2)
    ensures Told(ApplyLink(s, a, StartConnect(t1, t2)), t)
  {
    CreatorAlive(s, t1);
    CreatorAlive(s, t2);
  }

  lemma ActorTells(s: State, a: nat, b: ActorStep, t: nat)
    requires Inv(s) && Enabled(s, Actor(a, b)) && t < |s.terms| && Told(s, t)
    ensures Told(Apply(s, Actor(a, b)), t)
  {
    var s' := Apply(s, Actor(a, b));
    StepProgresses(s, Actor(a, b), t);
    StepSteady(s, a, b, t);
    if b.StartConnect? && (t == b.t1 || t == b.t2) {
      NewlyTold(s, a, b.t1, b.t2, t);
    } else if s'.terms[t].port.Some? && s.terms[t].claimed.Some? {
      var c := s.terms[t].claimed.value;
      assert TermOk(s, t);
      assert ConnOk(s, c);
      var u := Peer(s.conns[c], t);
      StepProgresses(s, Actor(a, b), u);
      PeerTells(s, a, b, s', t, u);
    }
  }

  lemma PeerTells(s: State, a: nat, b: ActorStep, s': State, t: nat, u: nat)
    requires Inv(s) && Enabled(s, Actor(a, b)) && s' == Apply(s, Actor(a, b)) && Told(s, t)
    requires Partners(s, t, u) && s.terms[t].port.Some? && t < |s'.terms| && u < |s'.terms|
    requires !(b.StartConnect? && (u == b.t1 || u == b.t2)) && s.terms[t].log <= s'.terms[t].log
    ensures Hung(s'.terms[u]) && Count(s'.pcs, Pending(u)) == 0 ==> Closed in s'.terms[t].log
  {
    StepSteady(s, a, b, u);
    CountUpdate(s.pcs, a, s'.pcs[a], Pending(u));
    CountAtLeast(s'.pcs, a, Pending(u));
    if Hung(s.terms[u]) && Weight(s.pcs[a], Pending(u)) == 1 && Weight(s'.pcs[a], Pending(u)) == 0 {
      PendingMover(s, a, b, u);
      HangupTells(s, a, b, t, u);
    }
  }

  lemma StepTells(s: State, x: Step, t: nat)
    requires Inv(s) && Enabled(s, x) && Told(s, t)
    ensures Told(Apply(s, x), t)
  {
    match x
    case Owner(b) =>
    case Actor(a, b) =>
      if t < |s.terms| { ActorTells(s, a, b, t); } else { NoNewTerms(s, a, b); }
  }

  lemma NoNewTerms(s: State, a: nat, b: ActorStep)
    requires Enabled(s, Actor(a, b))
    ensures |Apply(s, Actor(a, b)).terms| == |s.terms|
  {
  }

  predicate TellsAt(r: Run, t: nat, k: nat)
    requires k < |r.steps| < |r.states|
  {
    Told(r.states[k], t) ==> Told(r.states[k + 1], t)
  }

  lemma EachTells(r: Run, t: nat)
    requires IsRun(r)
    ensures forall k | 0 <= k < |r.steps| :: TellsAt(r, t, k)
  {
    forall k | 0 <= k < |r.steps| ensures TellsAt(r, t, k) {
      RunInv(r, k);
      if Told(r.states[k], t) { StepTells(r.states[k], r.steps[k], t); }
    }
  }

  lemma {:induction false} TellsChain(r: Run, i: nat, t: nat)
    requires i <= |r.steps| < |r.states| && r.states[0].terms == []
    requires forall k | 0 <= k < |r.steps| :: TellsAt(r, t, k)
    ensures Told(r.states[i], t)
  {
    if i > 0 {
      TellsChain(r, i - 1, t);
      assert TellsAt(r, t, i - 1);
    }
  }

  lemma RunTells(r: Run, i: nat, t: nat)
    requires IsRun(r) && i < |r.states|
    ensures Told(r.states[i], t)
  {
    EachTells(r, t);
    TellsChain(r, i, t);
  }

  /**
   * The trace is complete at its end: once the terminal at the other end is deleted, a port that
   * still has its terminal has received Closed.
   */
  lemma ClosedDelivered(r: Run, i: nat, t: nat)
    requires IsRun(r) && i < |r.states| && t < |r.states[i].terms|
    requires var k := r.states[i].terms[t]; k.port.Some? && k.claimed.Some? && k.claimed.value < |r.states[i].conns|
    requires var s := r.states[i]; var u := Peer(s.conns[s.terms[t].claimed.value], t);
             u < |s.terms| && s.terms[u].life.Deleted?
    ensures Closed in r.states[i].terms[t].log
  {
    RunInv(r, i);
    RunTells(r, i, t);
    var s := r.states[i];
    var u := Peer(s.conns[s.terms[t].claimed.value], t);
    assert TermOk(s, u);
    PendingHangs(s.pcs, u);
  }

  // ---- messages keep their order -----------------------------------------

  /** No actor carries message id. */
  predicate Grounded(s: State, id: nat) {
    forall b | 0 <= b < |s.pcs| :: Weight(s.pcs[b], Flies(id)) == 0
  }

  /** A message that was sent before is taken up by nobody again. */
  predicate FliesNoMore(s: State, s': State, id: nat) {
    && |s'.pcs| == |s.pcs| && |s.sends| <= |s'.sends|
    && forall b | 0 <= b < |s.pcs| :: Weight(s'.pcs[b], Flies(id)) <= Weight(s.pcs[b], Flies(id))
  }

  lemma SendFlies(s: State, a: nat, b: ActorStep, id: nat)
    requires a < |s.pcs| && SendEnabled(s, a, b) && id < |s.sends|
    ensures FliesNoMore(s, ApplySend(s, a, b), id)
  {
  }

  lemma LinkFlies(s: State, a: nat, b: ActorStep, id: nat)
    requires a < |s.pcs| && LinkEnabled(s, a, b)
    ensures FliesNoMore(s, ApplyLink(s, a, b), id)
  {
  }

  lemma HangupFlies(s: State, a: nat, b: ActorStep, id: nat)
    requires a < |s.pcs| && HangupEnabled(s, a, b)
    ensures FliesNoMore(s, ApplyHangup(s, a, b), id)
  {
  }

  lemma StepFlies(s: State, x: Step, id: nat)
    requires Enabled(s, x) && id < |s.sends|
    ensures FliesNoMore(s, Apply(s, x), id)
  {
    match x
    case Owner(b) =>
    case Actor(a, b) =>
      if SendEnabled(s, a, b) { SendFlies(s, a, b, id); }
      else if LinkEnabled(s, a, b) { LinkFlies(s, a, b, id); }
      else { HangupFlies(s, a, b, id); }
  }

  predicate Arrived(s: State, t: nat, id: nat) {
    t < |s.terms| && Data(id) in s.terms[t].log
  }

  lemma SendArrives(s: State, a: nat, b: ActorStep, t: nat, id: nat)
    requires a < |s.pcs| && SendEnabled(s, a, b) && Weight(s.pcs[a], Flies(id)) == 0
    ensures Arrived(ApplySend(s, a, b), t, id) ==> Arrived(s, t, id)
  {
  }

  lemma LinkArrives(s: State, a: nat, b: ActorStep, t: nat, id: nat)
    requires a < |s.pcs| && LinkEnabled(s, a, b)
    ensures Arrived(ApplyLink(s, a, b), t, id) ==> Arrived(s, t, id)
  {
  }

  lemma HangupArrives(s: State, a: nat, b: ActorStep, t: nat, id: nat)
    requires a < |s.pcs| && HangupEnabled(s, a, b)
    ensures Arrived(ApplyHangup(s, a, b), t, id) ==> Arrived(s, t, id)
  {
  }

  /** A message that nobody carries does not arrive. */
  lemma GroundedStays(s: State, x: Step, t: nat, id: nat)
    requires Enabled(s, x) && id < |s.sends| && Grounded(s, id)
    ensures Grounded(Apply(s, x), id) && id < |Apply(s, x).sends|
    ensures Arrived(Apply(s, x), t, id) ==> Arrived(s, t, id)
  {
    StepFlies(s, x, id);
    match x
    case Owner(b) =>
    case Actor(a, b) =>
      if SendEnabled(s, a, b) { SendArrives(s, a, b, t, id); }
      else if LinkEnabled(s, a, b) { LinkArrives(s, a, b, t, id); }
      else { HangupArrives(s, a, b, t, id); }
  }

  predicate GroundedAt(r: Run, t: nat, id: nat, k: nat)
    requires k < |r.steps| < |r.states|
  {
    id < |r.states[k].sends| && Grounded(r.states[k], id) ==>
      && Grounded(r.states[k + 1], id) && id < |r.states[k + 1].sends|
      && (Arrived(r.states[k + 1], t, id) ==> Arrived(r.states[k], t, id))
  }

  lemma EachGrounded(r: Run, t: nat, id: nat)
    requires IsRun(r)
    ensures forall k | 0 <= k < |r.steps| :: GroundedAt(r, t, id, k)
  {
    forall k | 0 <= k < |r.steps| ensures GroundedAt(r, t, id, k) {
      var s := r.states[k];
      if id < |s.sends| && Grounded(s, id) { GroundedStays(s, r.steps[k], t, id); }
    }
  }

  lemma {:induction false} GroundedForGood(r: Run, i: nat, j: nat, t: nat, id: nat)
    requires i <= j <= |r.steps| < |r.states| && id < |r.states[i].sends| && Grounded(r.states[i], id)
    requires forall k | 0 <= k < |r.steps| :: GroundedAt(r, t, id, k)
    ensures Grounded(r.states[j], id) && id < |r.states[j].sends|
    ensures Arrived(r.states[j], t, id) ==> Arrived(r.states[i], t, id)
  {
    if i < j {
      GroundedForGood(r, i, j - 1, t, id);
      assert GroundedAt(r, t, id, j - 1);
    }
  }

  /** Only actor a may carry message id. */
  predicate CarriedBy(s: State, a: nat, id: nat) {
    id < |s.sends| && forall b | 0 <= b < |s.pcs| && b != a :: Weight(s.pcs[b], Flies(id)) == 0
  }

  predicate CarrierAt(r: Run, a: nat, id: nat, k: nat)
    requires k < |r.steps| < |r.states|
  {
    CarriedBy(r.states[k], a, id) ==> CarriedBy(r.states[k + 1], a, id)
  }

  lemma EachCarrier(r: Run, a: nat, id: nat)
    requires IsRun(r)
    ensures forall k | 0 <= k < |r.steps| :: CarrierAt(r, a, id, k)
  {
    forall k | 0 <= k < |r.steps| ensures CarrierAt(r, a, id, k) {
      if id < |r.states[k].sends| { StepFlies(r.states[k], r.steps[k], id); }
    }
  }

  lemma {:induction false} CarrierKeeps(r: Run, i: nat, j: nat, a: nat, id: nat)
    requires i <= j <= |r.steps| < |r.states| && CarriedBy(r.states[i], a, id)
    requires forall k | 0 <= k < |r.steps| :: CarrierAt(r, a, id, k)
    ensures CarriedBy(r.states[j], a, id)
  {
    if i < j {
      CarrierKeeps(r, i, j - 1, a, id);
      assert CarrierAt(r, a, id, j - 1);
    }
  }

  /** A send that started in step i is carried by its actor and by no other. */
  lemma SenderCarries(r: Run, i: nat, a: nat, p: nat)
    requires IsRun(r) && i < |r.steps| && r.steps[i] == Actor(a, StartSend(p))
    requires |r.states[i + 1].sends| > |r.states[i].sends|
    ensures CarriedBy(r.states[i + 1], a, |r.states[i].sends|)
  {
    RunInv(r, i);
    var s := r.states[i];
    forall b | 0 <= b < |s.pcs| ensures Weight(s.pcs[b], Flies(|s.sends|)) == 0 { assert PcOk(s, b); }
  }

  /**
   * Two messages that one actor sends one after the other, through whatever ports, arrive in that
   * order where both arrive.
   */
  lemma SentInOrder(r: Run, i: nat, j: nat, n: nat, a: nat, p: nat, q: nat, t: nat, k: nat, l: nat)
    requires IsRun(r) && i < j < n < |r.states|
    requires r.steps[i] == Actor(a, StartSend(p)) && |r.states[i + 1].sends| > |r.states[i].sends|
    requires r.steps[j] == Actor(a, StartSend(q)) && t < |r.states[n].terms|
    requires k < |r.states[n].terms[t].log| && l < |r.states[n].terms[t].log|
    requires r.states[n].terms[t].log[k] == Data(|r.states[i].sends|)
    requires r.states[n].terms[t].log[l] == Data(|r.states[j].sends|)
    ensures k < l
  {
    var first, second := |r.states[i].sends|, |r.states[j].sends|;
    SenderCarries(r, i, a, p);
    EachCarrier(r, a, first);
    CarrierKeeps(r, i + 1, j, a, first);
    var s := r.states[j];
    assert s.pcs[a].Quiet?;
    assert Grounded(s, first);
    EachGrounded(r, t, first);
    GroundedForGood(r, j, n, t, first);
    assert Arrived(r.states[n], t, first);
    CutForGood(r, j, n, t);
    RunInv(r, j);
    RunInv(r, n);
    assert LogOk(s, t) && TermOk(s, t) && LogOk(r.states[n], t);
    var m :| 0 <= m < |s.terms[t].log| && s.terms[t].log[m] == Data(first);
    assert Data(second) !in s.terms[t].log;
    assert r.states[n].terms[t].log[m] == Data(first);
    assert forall x | 0 <= x < |s.terms[t].log| :: s.terms[t].log[x] in s.terms[t].log;
  }

  // ---- a severed port stays silent ---------------------------------------

  lemma StaysAbandoned(s: State, x: Step, p: nat)
    requires Inv(s) && Enabled(s, x) && Abandoned(s, p) && x != Owner(NewTerminal(p))
    ensures Abandoned(Apply(s, x), p)
  {
    var s' := Apply(s, x);
    if x.Actor? { NoNewTerms(s, x.a, x.actor); }
    forall t: nat | t < |s'.terms| ensures s'.terms[t].port != Some(p) {
      if t < |s.terms| { StepProgresses(s, x, t); }
    }
  }

  predicate AbandonedAt(r: Run, p: nat, k: nat)
    requires k < |r.steps| < |r.states|
  {
    Abandoned(r.states[k], p) && r.steps[k] != Owner(NewTerminal(p)) ==> Abandoned(r.states[k + 1], p)
  }

  lemma EachAbandoned(r: Run, p: nat)
    requires IsRun(r)
    ensures forall k | 0 <= k < |r.steps| :: AbandonedAt(r, p, k)
  {
    forall k | 0 <= k < |r.steps| ensures AbandonedAt(r, p, k) {
      RunInv(r, k);
      if Abandoned(r.states[k], p) && r.steps[k] != Owner(NewTerminal(p)) {
        StaysAbandoned(r.states[k], r.steps[k], p);
      }
    }
  }

  lemma {:induction false} AbandonedUntil(r: Run, i: nat, j: nat, p: nat)
    requires i <= j <= |r.steps| < |r.states| && Abandoned(r.states[i], p)
    requires forall k | 0 <= k < |r.steps| :: AbandonedAt(r, p, k)
    requires forall k | i <= k < j :: r.steps[k] != Owner(NewTerminal(p))
    ensures Abandoned(r.states[j], p)
  {
    if i < j {
      AbandonedUntil(r, i, j - 1, p);
      assert AbandonedAt(r, p, j - 1);
    }
  }

  /**
   * When a Sever that took a port's terminal has returned, nothing is posted to the port until it
   * is given a new terminal, whether or not it is being destroyed.
   */
  lemma SilentUntilNewTerminal(r: Run, i: nat, j: nat, p: nat)
    requires IsRun(r) && i < j < |r.steps| && p < |r.states[i].ports| && p < |r.states[i + 1].ports|
    requires r.states[i].ports[p].phase.Severing? && !r.states[i + 1].ports[p].phase.Severing?
    requires forall k | i + 1 <= k < j :: r.steps[k] != Owner(NewTerminal(p))
    ensures Posts(r.states[j], r.steps[j]).Some? ==> Posts(r.states[j], r.steps[j]).value.0 != p
  {
    SeverReturns(r, i, p);
    EachAbandoned(r, p);
    AbandonedUntil(r, i + 1, j, p);
  }
}
