/** What is sent arrives, connections open at both ends, and every actor gets to the end of its call. */
module IpcArrival {
  import opened Common
  import opened Ipc
  import opened IpcInvariant
  import opened IpcSteps
  import opened IpcConnect
  import opened IpcTheorems
  import opened IpcOrder

  // ---- finished connections stay -----------------------------------------

  lemma SendEnds(s: State, a: nat, b: ActorStep, c: nat, t: nat, u: nat)
    requires a < |s.pcs| && SendEnabled(s, a, b) && Ends(s, c, t, u)
    ensures Ends(ApplySend(s, a, b), c, t, u)
  {
  }

  lemma UnlockedEnds(s: State, a: nat, c: nat, t: nat, u: nat)
    requires a < |s.pcs| && LinkEnabled(s, a, Link) && Ends(s, c, t, u)
    ensures Ends(Unlocked(s, a), c, t, u)
  {
  }

  lemma LinkedEnds(s: State, a: nat, c: nat, t: nat, u: nat)
    requires a < |s.pcs| && LinkEnabled(s, a, Link) && Ends(s, c, t, u)
    ensures Ends(Linked(s, a), c, t, u)
  {
    UnlockedEnds(s, a, c, t, u);
  }

  lemma LinkEnds(s: State, a: nat, b: ActorStep, c: nat, t: nat, u: nat)
    requires a < |s.pcs| && LinkEnabled(s, a, b) && Ends(s, c, t, u)
    ensures Ends(ApplyLink(s, a, b), c, t, u)
  {
    if b.Link? { LinkedEnds(s, a, c, t, u); }
  }

  lemma HangupEnds(s: State, a: nat, b: ActorStep, c: nat, t: nat, u: nat)
    requires a < |s.pcs| && HangupEnabled(s, a, b) && Ends(s, c, t, u)
    ensures Ends(ApplyHangup(s, a, b), c, t, u)
  {
  }

  lemma EndsStay(s: State, x: Step, c: nat, t: nat, u: nat)
    requires Enabled(s, x) && Ends(s, c, t, u)
    ensures Ends(Apply(s, x), c, t, u)
  {
    match x
    case Owner(b) =>
    case Actor(a, b) =>
      if SendEnabled(s, a, b) { SendEnds(s, a, b, c, t, u); }
      else if LinkEnabled(s, a, b) { LinkEnds(s, a, b, c, t, u); }
      else { HangupEnds(s, a, b, c, t, u); }
  }

  /** An actor's place changes only by its own steps. */
  lemma OthersPcs(s: State, x: Step, a: nat)
    requires Enabled(s, x) && a < |s.pcs| && !(x.Actor? && x.a == a)
    ensures a < |Apply(s, x).pcs| && Apply(s, x).pcs[a] == s.pcs[a]
  {
    match x
    case Owner(b) =>
    case Actor(e, b) =>
      if SendEnabled(s, e, b) { SendMoves(s, e, b); }
      else if LinkEnabled(s, e, b) { LinkKeepsLinks(s, e, b); }
      else { HangupMoves(s, e, b); }
  }

  lemma SendMoves(s: State, a: nat, b: ActorStep)
    requires a < |s.pcs| && SendEnabled(s, a, b)
    ensures var s' := ApplySend(s, a, b); |s'.pcs| == |s.pcs| && s'.pcs == s.pcs[a := s'.pcs[a]]
  {
  }

  lemma HangupMoves(s: State, a: nat, b: ActorStep)
    requires a < |s.pcs| && HangupEnabled(s, a, b)
    ensures var s' := ApplyHangup(s, a, b); |s'.pcs| == |s.pcs| && s'.pcs == s.pcs[a := s'.pcs[a]]
  {
  }

  // ---- messages arrive ---------------------------------------------------

  /** Actor a is on its way with message id from terminal t to terminal u. */
  predicate OnItsWay(v: Pc, c: nat, t: nat, u: nat, id: nat) {
    v == Sending(t, id) || v == Asking(t, c, id) || v == Delivering(t, u, id)
  }

  /** The message is on its way, or there, or the other port is gone. */
  predicate Underway(s: State, a: nat, c: nat, t: nat, u: nat, id: nat) {
    && a < |s.pcs| && Ends(s, c, t, u)
    && (OnItsWay(s.pcs[a], c, t, u, id) || s.terms[u].port.None? || Data(id) in s.terms[u].log)
  }

  /** The terminal at the other end is registered as long as it has its port. */
  lemma OtherEndThere(s: State, c: nat, t: nat, u: nat)
    requires Inv(s) && Ends(s, c, t, u) && s.terms[u].port.Some? && s.terms[t].life.Alive?
    ensures OtherEnd(s.conns[c], t) == Some(u) && s.conns[c].holder.None? && s.terms[t].connection == Some(c)
  {
    assert TermOk(s, t) && TermOk(s, u) && ConnOk(s, c);
  }

  lemma CarriesOn(s: State, a: nat, b: ActorStep, c: nat, t: nat, u: nat, id: nat)
    requires Inv(s) && Enabled(s, Actor(a, b)) && Ends(s, c, t, u) && OnItsWay(s.pcs[a], c, t, u, id)
    ensures Underway(Apply(s, Actor(a, b)), a, c, t, u, id)
  {
    assert PcOk(s, a) && TermOk(s, t) && TermOk(s, u);
    CountAtLeast(s.pcs, a, Refs(t));
    EndsStay(s, Actor(a, b), c, t, u);
    assert SendEnabled(s, a, b);
    if s.terms[u].port.Some? {
      OtherEndThere(s, c, t, u);
    } else {
      StepProgresses(s, Actor(a, b), u);
    }
  }

  lemma StepUnderway(s: State, x: Step, a: nat, c: nat, t: nat, u: nat, id: nat)
    requires Inv(s) && Enabled(s, x) && Underway(s, a, c, t, u, id)
    ensures Underway(Apply(s, x), a, c, t, u, id)
  {
    EndsStay(s, x, c, t, u);
    StepProgresses(s, x, u);
    if x.Actor? && x.a == a {
      SamePcs(s, x);
      if OnItsWay(s.pcs[a], c, t, u, id) { CarriesOn(s, a, x.actor, c, t, u, id); }
    } else {
      OthersPcs(s, x, a);
    }
  }

  lemma SamePcs(s: State, x: Step)
    requires Enabled(s, x)
    ensures |Apply(s, x).pcs| == |s.pcs|
  {
    match x
    case Owner(b) =>
    case Actor(e, b) =>
      if SendEnabled(s, e, b) { SendMoves(s, e, b); }
      else if LinkEnabled(s, e, b) { LinkKeepsLinks(s, e, b); }
      else { HangupMoves(s, e, b); }
  }

  predicate UnderwayAt(r: Run, a: nat, c: nat, t: nat, u: nat, id: nat, k: nat)
    requires k < |r.steps| < |r.states|
  {
    Underway(r.states[k], a, c, t, u, id) ==> Underway(r.states[k + 1], a, c, t, u, id)
  }

  lemma EachUnderway(r: Run, a: nat, c: nat, t: nat, u: nat, id: nat)
    requires IsRun(r)
    ensures forall k | 0 <= k < |r.steps| :: UnderwayAt(r, a, c, t, u, id, k)
  {
    forall k | 0 <= k < |r.steps| ensures UnderwayAt(r, a, c, t, u, id, k) {
      RunInv(r, k);
      if Underway(r.states[k], a, c, t, u, id) { StepUnderway(r.states[k], r.steps[k], a, c, t, u, id); }
    }
  }

  lemma {:induction false} UnderwayChain(r: Run, i: nat, j: nat, a: nat, c: nat, t: nat, u: nat, id: nat)
    requires i <= j <= |r.steps| < |r.states| && Underway(r.states[i], a, c, t, u, id)
    requires forall k | 0 <= k < |r.steps| :: UnderwayAt(r, a, c, t, u, id, k)
    ensures Underway(r.states[j], a, c, t, u, id)
  {
    if i < j {
      UnderwayChain(r, i, j - 1, a, c, t, u, id);
      assert UnderwayAt(r, a, c, t, u, id, j - 1);
    }
  }

  /** The port has terminal t, whose connection to terminal u is finished. */
  predicate Reaches(s: State, p: nat, t: nat, u: nat) {
    && p < |s.ports| && s.ports[p].terminal == Some(t) && t < |s.terms|
    && s.terms[t].claimed.Some? && Ends(s, s.terms[t].claimed.value, t, u)
  }

  lemma SendStarts(s: State, a: nat, p: nat, t: nat, u: nat)
    requires Inv(s) && Enabled(s, Actor(a, StartSend(p))) && Reaches(s, p, t, u)
    ensures Underway(Apply(s, Actor(a, StartSend(p))), a, s.terms[t].claimed.value, t, u, |s.sends|)
  {
    PortTerminal(s, p);
    EndsStay(s, Actor(a, StartSend(p)), s.terms[t].claimed.value, t, u);
  }

  /**
   * What is sent arrives.  Let actor a call SendToRemote on a port whose terminal is connected.
   * When a is done, the message is in the log of the terminal at the other end, if that still has
   * its port.
   */
  lemma DataArrives(r: Run, i: nat, j: nat, a: nat, p: nat, t: nat, u: nat)
    requires IsRun(r) && i < j < |r.states| && r.steps[i] == Actor(a, StartSend(p)) && Reaches(r.states[i], p, t, u)
    requires a < |r.states[j].pcs| && r.states[j].pcs[a].Quiet?
    requires u < |r.states[j].terms| && r.states[j].terms[u].port.Some?
    ensures Data(|r.states[i].sends|) in r.states[j].terms[u].log
  {
    RunInv(r, i);
    var s := r.states[i];
    var c, id := s.terms[t].claimed.value, |s.sends|;
    assert Enabled(s, r.steps[i]) && r.states[i + 1] == Apply(s, r.steps[i]);
    SendStarts(s, a, p, t, u);
    EachUnderway(r, a, c, t, u, id);
    UnderwayChain(r, i + 1, j, a, c, t, u, id);
  }

  /** A message sent when the other port was gone already never arrives there. */
  lemma LostWithoutPort(r: Run, i: nat, j: nat, u: nat)
    requires IsRun(r) && i <= j < |r.states| && u < |r.states[i].terms| && r.states[i].terms[u].port.None?
    ensures u < |r.states[j].terms| && Data(|r.states[i].sends|) !in r.states[j].terms[u].log
  {
    CutForGood(r, i, j, u);
    RunInv(r, i);
    assert LogOk(r.states[i], u) && TermOk(r.states[i], u);
  }

  // ---- connections open --------------------------------------------------

  /** Connect by actor a for connection c between t and u has begun, and is over or still with a. */
  predicate Joining(s: State, a: nat, c: nat, t: nat, u: nat) {
    && a < |s.pcs| && c < |s.conns| && s.conns[c].a == t && s.conns[c].b == u
    && (s.conns[c].progress == 5 || s.conns[c].holder == Some(a))
  }

  lemma SendJoining(s: State, a: nat, b: ActorStep, c: nat)
    requires a < |s.pcs| && SendEnabled(s, a, b)
    ensures ApplySend(s, a, b).conns == s.conns
  {
  }

  lemma LinkJoining(s: State, e: nat, b: ActorStep, a: nat, c: nat, t: nat, u: nat)
    requires e < |s.pcs| && LinkEnabled(s, e, b) && Joining(s, a, c, t, u)
    ensures Joining(ApplyLink(s, e, b), a, c, t, u)
  {
  }

  lemma HangupJoining(s: State, e: nat, b: ActorStep, a: nat, c: nat, t: nat, u: nat)
    requires e < |s.pcs| && HangupEnabled(s, e, b) && Joining(s, a, c, t, u)
    ensures Joining(ApplyHangup(s, e, b), a, c, t, u)
  {
  }

  lemma StepJoining(s: State, x: Step, a: nat, c: nat, t: nat, u: nat)
    requires Enabled(s, x) && Joining(s, a, c, t, u)
    ensures Joining(Apply(s, x), a, c, t, u)
  {
    SamePcs(s, x);
    match x
    case Owner(b) =>
    case Actor(e, b) =>
      if SendEnabled(s, e, b) { SendJoining(s, e, b, c); }
      else if LinkEnabled(s, e, b) { LinkJoining(s, e, b, a, c, t, u); }
      else { HangupJoining(s, e, b, a, c, t, u); }
  }

  predicate JoiningAt(r: Run, a: nat, c: nat, t: nat, u: nat, k: nat)
    requires k < |r.steps| < |r.states|
  {
    Joining(r.states[k], a, c, t, u) ==> Joining(r.states[k + 1], a, c, t, u)
  }

  lemma EachJoining(r: Run, a: nat, c: nat, t: nat, u: nat)
    requires IsRun(r)
    ensures forall k | 0 <= k < |r.steps| :: JoiningAt(r, a, c, t, u, k)
  {
    forall k | 0 <= k < |r.steps| ensures JoiningAt(r, a, c, t, u, k) {
      if Joining(r.states[k], a, c, t, u) { StepJoining(r.states[k], r.steps[k], a, c, t, u); }
    }
  }

  lemma {:induction false} JoiningChain(r: Run, i: nat, j: nat, a: nat, c: nat, t: nat, u: nat)
    requires i <= j <= |r.steps| < |r.states| && Joining(r.states[i], a, c, t, u)
    requires forall k | 0 <= k < |r.steps| :: JoiningAt(r, a, c, t, u, k)
    ensures Joining(r.states[j], a, c, t, u)
  {
    if i < j {
      JoiningChain(r, i, j - 1, a, c, t, u);
      assert JoiningAt(r, a, c, t, u, j - 1);
    }
  }

  /** The terminal knows connection c, and Opened is the first thing its port has got through it, if it is there. */
  predicate OpenedEnd(s: State, c: nat, t: nat)
    requires t < |s.terms|
  {
    && s.terms[t].connection == Some(c)
    && (s.terms[t].port.Some? ==> s.terms[t].log != [] && s.terms[t].log[0] == Opened)
  }

  /** A finished connection is open at both ends. */
  lemma EndsOpened(s: State, c: nat, t: nat, u: nat)
    requires Inv(s) && Ends(s, c, t, u)
    ensures OpenedEnd(s, c, t)
  {
    assert TermOk(s, t) && LogOk(s, t) && ConnOk(s, c);
  }

  /**
   * Connect connects.  When the actor that called it is done, the two terminals are the ends of one
   * connection that both know, and both ports have received Opened, unless they are gone.
   */
  lemma ConnectCompletes(r: Run, i: nat, j: nat, a: nat, t: nat, u: nat)
    requires IsRun(r) && i < j < |r.states| && r.steps[i] == Actor(a, StartConnect(t, u))
    requires a < |r.states[j].pcs| && r.states[j].pcs[a].Quiet?
    ensures var s := r.states[j]; var c := |r.states[i].conns|;
            Ends(s, c, t, u) && OpenedEnd(s, c, t) && OpenedEnd(s, c, u)
  {
    var c := |r.states[i].conns|;
    assert Enabled(r.states[i], r.steps[i]) && r.states[i + 1] == Apply(r.states[i], r.steps[i]);
    assert Joining(r.states[i + 1], a, c, t, u);
    EachJoining(r, a, c, t, u);
    JoiningChain(r, i + 1, j, a, c, t, u);
    RunInv(r, j);
    var s := r.states[j];
    assert ConnOk(s, c);
    EndsOpened(s, c, t, u);
    EndsOpened(s, c, u, t);
  }

  // ---- calls complete ----------------------------------------------------

  /** Sections that an actor has left in its call. */
  function SectionsLeft(s: State, v: Pc): nat {
    match v
    case Quiet => 0
    case Sending(_, _) => 7
    case Asking(_, _, _) => 6
    case Delivering(_, _, _) => 5
    case DroppingOther(_, _) => 4
    case DroppingSelf(_) => 2
    case Throwing(_, k) =>
      (match k
       case ThenQuiet => 1
       case ThenPort(_) => 1
       case ThenSelf(_) => 3
       case ThenDelete(_) => 2)
    case Cutting(_, _) => 3
    case Cut(_, _) => 2
    case Linking(c, _, _) => if c < |s.conns| && s.conns[c].progress <= 5 then 6 - s.conns[c].progress else 1
    case Finding(_) => 6
    case Closing(_, _) => 5
    case Telling(_, _) => 4
    case DroppingTold(_, _) => 3
    case Deleting(_) => 1
  }

  lemma SendAdvances(s: State, a: nat, b: ActorStep)
    requires a < |s.pcs| && SendEnabled(s, a, b) && !s.pcs[a].Quiet?
    ensures var s' := ApplySend(s, a, b); a < |s'.pcs| && SectionsLeft(s', s'.pcs[a]) < SectionsLeft(s, s.pcs[a])
  {
  }

  lemma LinkAdvances(s: State, a: nat, b: ActorStep)
    requires a < |s.pcs| && LinkEnabled(s, a, b) && !s.pcs[a].Quiet?
    ensures var s' := ApplyLink(s, a, b); a < |s'.pcs| && SectionsLeft(s', s'.pcs[a]) < SectionsLeft(s, s.pcs[a])
  {
  }

  lemma HangupAdvances(s: State, a: nat, b: ActorStep)
    requires a < |s.pcs| && HangupEnabled(s, a, b) && !s.pcs[a].Quiet?
    ensures var s' := ApplyHangup(s, a, b); a < |s'.pcs| && SectionsLeft(s', s'.pcs[a]) < SectionsLeft(s, s.pcs[a])
  {
  }

  /** Every section that an actor runs of a call brings the end of the call nearer. */
  lemma CallsAdvance(r: Run, i: nat)
    requires IsRun(r) && i < |r.steps| && r.steps[i].Actor? && !r.states[i].pcs[r.steps[i].a].Quiet?
    ensures var a, s, s' := r.steps[i].a, r.states[i], r.states[i + 1];
            a < |s'.pcs| && SectionsLeft(s', s'.pcs[a]) < SectionsLeft(s, s.pcs[a])
  {
    var s, a, b := r.states[i], r.steps[i].a, r.steps[i].actor;
    assert Enabled(s, r.steps[i]);
    if SendEnabled(s, a, b) { SendAdvances(s, a, b); }
    else if LinkEnabled(s, a, b) { LinkAdvances(s, a, b); }
    else { HangupAdvances(s, a, b); }
  }

  ghost predicate CanGoOn(s: State, a: nat) {
    exists b :: Enabled(s, Actor(a, b))
  }

  lemma TermsInRange(s: State, t: nat)
    requires Inv(s) && t < |s.terms|
    ensures TermInRange(s, t)
  {
    assert TermOk(s, t) && PortOk(s, s.terms[t].home);
  }

  lemma SenderGoesOn(s: State, a: nat)
    requires Inv(s) && a < |s.pcs| && (s.pcs[a].Sending? || s.pcs[a].Delivering? || s.pcs[a].DroppingOther?
                                       || s.pcs[a].DroppingSelf? || s.pcs[a].Throwing?)
    ensures CanGoOn(s, a)
  {
    var v := s.pcs[a];
    assert PcOk(s, a);
    match v
    case Sending(_, _) => assert Enabled(s, Actor(a, ReadConnection));
    case Delivering(_, o, _) => TermsInRange(s, o); assert Enabled(s, Actor(a, Deliver));
    case DroppingOther(_, _) => assert Enabled(s, Actor(a, DropOther));
    case DroppingSelf(_) => assert Enabled(s, Actor(a, DropSelf));
    case Throwing(_, _) => assert Enabled(s, Actor(a, Ipc.ThrowAway));
  }

  lemma OtherGoesOn(s: State, a: nat)
    requires Inv(s) && a < |s.pcs| && (s.pcs[a].Cutting? || s.pcs[a].Cut? || s.pcs[a].Linking? || s.pcs[a].Finding?
                                       || s.pcs[a].Telling? || s.pcs[a].DroppingTold? || s.pcs[a].Deleting?)
    ensures CanGoOn(s, a)
  {
    var v := s.pcs[a];
    assert PcOk(s, a);
    match v
    case Cutting(_, _) => assert Enabled(s, Actor(a, CutPort));
    case Cut(_, _) => assert Enabled(s, Actor(a, DropCut));
    case Linking(_, t, u) =>
      Linker(s, a);
      TermsInRange(s, t);
      TermsInRange(s, u);
      assert Enabled(s, Actor(a, Link));
    case Finding(_) => assert Enabled(s, Actor(a, ReadHangup));
    case Telling(_, o) => TermsInRange(s, o); assert Enabled(s, Actor(a, Tell));
    case DroppingTold(_, _) => assert Enabled(s, Actor(a, DropTold));
    case Deleting(_) => assert Enabled(s, Actor(a, Delete));
  }

  lemma LockerGoesOn(s: State, a: nat)
    requires Inv(s) && a < |s.pcs| && (s.pcs[a].Asking? || s.pcs[a].Closing?)
    ensures CanGoOn(s, a) || (s.pcs[a].c < |s.conns| && s.conns[s.pcs[a].c].holder.Some?)
  {
    var v := s.pcs[a];
    if v.Asking? { SenderRegistered(s, a); } else { CloserRegistered(s, a); }
    assert ConnOk(s, v.c);
    if s.conns[v.c].holder.None? {
      assert Enabled(s, Actor(a, if v.Asking? then Ask else Close));
    }
  }

  /** No call is stuck: an actor can go on, or waits for the actor inside Connect, which can. */
  lemma CallsNeverStuck(r: Run, i: nat, a: nat)
    requires IsRun(r) && i < |r.states| && a < |r.states[i].pcs| && !r.states[i].pcs[a].Quiet?
    ensures CanGoOn(r.states[i], a)
            || exists h :: 0 <= h < |r.states[i].pcs| && r.states[i].pcs[h].Linking? && CanGoOn(r.states[i], h)
  {
    RunInv(r, i);
    var s := r.states[i];
    var v := s.pcs[a];
    if v.Asking? || v.Closing? {
      LockerGoesOn(s, a);
      if !CanGoOn(s, a) {
        assert ConnOk(s, v.c);
        var h := s.conns[v.c].holder.value;
        OtherGoesOn(s, h);
        assert s.pcs[h].Linking?;
      }
    } else if v.Sending? || v.Delivering? || v.DroppingOther? || v.DroppingSelf? || v.Throwing? {
      SenderGoesOn(s, a);
    } else {
      OtherGoesOn(s, a);
    }
  }
}
