/**
 * Connect, the ports' owners, and runs: the remaining steps of the port system.
 *
 * Connect holds the connection's lock through five sections: it stores the connection in both
 * terminals, delivers Opened to both ports, and unlocks.  While it does, no other actor can send
 * through or close the connection, but either port may be severed and either terminal may be sent
 * through before the connection is stored in it.  At the end of the file the steps are put together
 * and the invariant is extended to all runs.
 */
module IpcConnect {
  import opened Common
  import opened Ipc
  import opened IpcInvariant
  import opened IpcSteps

  // ---- Connect: the start ------------------------------------------------

  /** A terminal whose creator still holds it is alive and not being deallocated by anyone. */
  lemma CreatorAlive(s: State, t: nat)
    requires Inv(s) && t < |s.terms| && s.terms[t].creator
    ensures s.terms[t].life.Alive? && s.terms[t].retainCount >= 1
    ensures forall b | 0 <= b < |s.pcs| :: Weight(s.pcs[b], Hangs(t)) == 0
  {
    assert TermOk(s, t);
    forall b | 0 <= b < |s.pcs| ensures Weight(s.pcs[b], Hangs(t)) == 0 { CountAtLeast(s.pcs, b, Hangs(t)); }
  }

  lemma StartConnectTerm(s: State, a: nat, t1: nat, t2: nat, u: nat)
    requires Inv(s) && a < |s.pcs| && LinkEnabled(s, a, StartConnect(t1, t2)) && u < |s.terms|
    ensures TermOk(ApplyLink(s, a, StartConnect(t1, t2)), u)
  {
    assert TermOk(s, u);
    StartCounts(s.pcs, a, Linking(|s.conns|, t1, t2), u);
  }

  lemma StartConnectTerms(s: State, a: nat, t1: nat, t2: nat)
    requires Inv(s) && a < |s.pcs| && LinkEnabled(s, a, StartConnect(t1, t2))
    ensures TermsOk(ApplyLink(s, a, StartConnect(t1, t2)))
  {
    var s' := ApplyLink(s, a, StartConnect(t1, t2));
    forall u: nat | u < |s.terms| ensures TermOk(s', u) { StartConnectTerm(s, a, t1, t2, u); }
  }

  lemma StartConnectLogs(s: State, a: nat, t1: nat, t2: nat)
    requires Inv(s) && a < |s.pcs| && LinkEnabled(s, a, StartConnect(t1, t2))
    ensures LogsOk(ApplyLink(s, a, StartConnect(t1, t2)))
  {
    var s' := ApplyLink(s, a, StartConnect(t1, t2));
    forall u: nat | u < |s.terms| ensures LogOk(s', u) {
      assert TermOk(s, u) && LogOk(s, u);
      if s.terms[u].claimed.Some? {
        CountUpdate(s.pcs, a, s'.pcs[a], Pending(Peer(s.conns[s.terms[u].claimed.value], u)));
      }
    }
  }

  lemma StartConnectPcs(s: State, a: nat, t1: nat, t2: nat)
    requires Inv(s) && a < |s.pcs| && LinkEnabled(s, a, StartConnect(t1, t2))
    ensures PcsOk(ApplyLink(s, a, StartConnect(t1, t2)))
  {
    var s' := ApplyLink(s, a, StartConnect(t1, t2));
    CreatorAlive(s, t1);
    CreatorAlive(s, t2);
    forall b: nat | b < |s.pcs| ensures PcOk(s', b) { if b != a { StartConnectPc(s, a, t1, t2, b); } }
  }

  lemma StartConnectPc(s: State, a: nat, t1: nat, t2: nat, b: nat)
    requires a < |s.pcs| && LinkEnabled(s, a, StartConnect(t1, t2)) && b < |s.pcs| && b != a && PcOk(s, b)
    requires Weight(s.pcs[b], Hangs(t1)) == 0 && Weight(s.pcs[b], Hangs(t2)) == 0
    ensures PcOk(ApplyLink(s, a, StartConnect(t1, t2)), b)
  {
  }

  lemma StartConnectConns(s: State, a: nat, t1: nat, t2: nat)
    requires Inv(s) && a < |s.pcs| && LinkEnabled(s, a, StartConnect(t1, t2))
    ensures ConnsOk(ApplyLink(s, a, StartConnect(t1, t2)))
  {
    var s' := ApplyLink(s, a, StartConnect(t1, t2));
    CreatorAlive(s, t1);
    CreatorAlive(s, t2);
    forall c | 0 <= c < |s'.conns| ensures ConnOk(s', c) { if c < |s.conns| { assert ConnOk(s, c); } }
  }

  lemma StartConnectKeeps(s: State, a: nat, t1: nat, t2: nat)
    requires Inv(s) && a < |s.pcs| && LinkEnabled(s, a, StartConnect(t1, t2))
    ensures Inv(ApplyLink(s, a, StartConnect(t1, t2)))
  {
    var s' := ApplyLink(s, a, StartConnect(t1, t2));
    StartConnectTerms(s, a, t1, t2);
    StartConnectLogs(s, a, t1, t2);
    StartConnectPcs(s, a, t1, t2);
    StartConnectConns(s, a, t1, t2);
    forall q: nat | q < |s.ports|
      ensures PortOk(s', q)
    {
      assert PortOk(s, q);
      CountUpdate(s.pcs, a, s'.pcs[a], Severs(q));
    }
    forall h | 0 <= h < |s.polls| ensures PollOk(s', h) { assert PollOk(s, h); }
    forall id: nat | id < |s.sends|
      ensures SendOk(s', id)
    {
      assert SendOk(s, id);
      CountUpdate(s.pcs, a, s'.pcs[a], Flies(id));
    }
  }

  // ---- Connect: stores, greetings, unlock --------------------------------

  /** The connection an actor is setting up, and its two terminals. */
  lemma Linker(s: State, a: nat)
    requires Inv(s) && a < |s.pcs| && s.pcs[a].Linking?
    ensures var v := s.pcs[a];
            v.c < |s.conns| && s.conns[v.c].a == v.t1 && s.conns[v.c].b == v.t2 && s.conns[v.c].holder == Some(a)
            && s.conns[v.c].progress < 5 && v.t1 != v.t2 && v.t1 < |s.terms| && v.t2 < |s.terms|
            && s.terms[v.t1].claimed == Some(v.c) && s.terms[v.t2].claimed == Some(v.c)
            && s.terms[v.t1].life.Alive? && s.terms[v.t2].life.Alive? && !s.terms[v.t1].creator
                && !s.terms[v.t2].creator
  {
    var v := s.pcs[a];
    assert PcOk(s, a);
    assert ConnOk(s, v.c);
    assert TermOk(s, v.t1) && TermOk(s, v.t2);
    CountAtLeast(s.pcs, a, Refs(v.t1));
    CountAtLeast(s.pcs, a, Refs(v.t2));
  }

  /** Connect advances on actor a's connection: records keep everything but the stored connection and the log. */
  predicate Advances(s: State, s': State, a: nat)
    requires a < |s.pcs| && s.pcs[a].Linking? && s.pcs[a].c < |s.conns|
  {
    var c := s.pcs[a].c;
    && s'.pcs == s.pcs && s'.sends == s.sends && |s'.ports| == |s.ports| && |s'.terms| == |s.terms|
    && s'.conns == s.conns[c := s.conns[c].(progress := s.conns[c].progress + 1)]
    && (forall t | 0 <= t < |s.terms| ::
          && s'.terms[t].claimed == s.terms[t].claimed && s'.terms[t].home == s.terms[t].home
          && s'.terms[t].port == s.terms[t].port && s'.terms[t].creator == s.terms[t].creator
          && (s.terms[t].connection.Some? ==> s'.terms[t].connection == s.terms[t].connection))
  }

  lemma ProgressPc(s: State, s': State, a: nat, b: nat)
    requires Inv(s) && a < |s.pcs| && s.pcs[a].Linking? && s.pcs[a].c < |s.conns| && s.conns[s.pcs[a].c].progress < 5
    requires Advances(s, s', a) && b < |s.pcs| && PcOk(s, b)
    ensures PcOk(s', b)
  {
  }

  lemma ProgressPcs(s: State, s': State, a: nat)
    requires Inv(s) && a < |s.pcs| && s.pcs[a].Linking? && s.pcs[a].c < |s.conns| && s.conns[s.pcs[a].c].progress < 5
    requires Advances(s, s', a)
    ensures PcsOk(s')
  {
    forall b: nat | b < |s.pcs| ensures PcOk(s', b) {
      assert PcOk(s, b);
      ProgressPc(s, s', a, b);
    }
  }

  /** Storing the connection in terminal x. */
  function WithStore(s: State, c: nat, x: nat): State
    requires c < |s.conns| && x < |s.terms|
  {
    SetTerm(SetConn(s, c, s.conns[c].(progress := s.conns[c].progress + 1)), x, s.terms[x].(connection := Some(c)))
  }

  lemma StoreTerms(s: State, a: nat, x: nat)
    requires Inv(s) && a < |s.pcs| && LinkEnabled(s, a, Link)
    requires var v := s.pcs[a]; var n := s.conns[v.c].progress; (n == 0 && x == v.t2) || (n == 1 && x == v.t1)
    ensures TermsOk(WithStore(s, s.pcs[a].c, x)) && LogsOk(WithStore(s, s.pcs[a].c, x))
  {
    var s' := WithStore(s, s.pcs[a].c, x);
    Linker(s, a);
    forall u | 0 <= u < |s.terms| ensures TermOk(s', u) { assert TermOk(s, u); }
    forall u | 0 <= u < |s.terms| ensures LogOk(s', u) { assert TermOk(s, u) && LogOk(s, u); }
  }

  lemma StoreKeeps(s: State, a: nat, x: nat)
    requires Inv(s) && a < |s.pcs| && LinkEnabled(s, a, Link)
    requires var v := s.pcs[a]; var n := s.conns[v.c].progress; (n == 0 && x == v.t2) || (n == 1 && x == v.t1)
    ensures Inv(WithStore(s, s.pcs[a].c, x))
  {
    var s' := WithStore(s, s.pcs[a].c, x);
    Linker(s, a);
    StoreTerms(s, a, x);
    assert TermOk(s, x);
    ProgressPcs(s, s', a);
    forall q | 0 <= q < |s.ports| ensures PortOk(s', q) { assert PortOk(s, q); }
    forall h | 0 <= h < |s.polls| ensures PollOk(s', h) { assert PollOk(s, h); }
    forall d | 0 <= d < |s.conns| ensures ConnOk(s', d) { assert ConnOk(s, d); }
    forall id: nat | id < |s.sends| ensures SendOk(s', id) { assert SendOk(s, id); }
  }

  /** Delivering Opened: the log starts, and the connection counts the section. */
  function WithGreeting(s: State, c: nat, x: nat): State
    requires c < |s.conns| && x < |s.terms|
  {
    var k := s.terms[x];
    SetTerm(SetConn(s, c, s.conns[c].(progress := s.conns[c].progress + 1)), x,
            if k.port.Some? then k.(log := k.log + [Opened]) else k)
  }

  lemma GreetingTerms(s: State, a: nat, x: nat)
    requires Inv(s) && a < |s.pcs| && LinkEnabled(s, a, Link)
    requires var v := s.pcs[a]; var n := s.conns[v.c].progress; (n == 2 && x == v.t1) || (n == 3 && x == v.t2)
    ensures TermsOk(WithGreeting(s, s.pcs[a].c, x))
  {
    var s' := WithGreeting(s, s.pcs[a].c, x);
    Linker(s, a);
    forall u | 0 <= u < |s.terms| ensures TermOk(s', u) { assert TermOk(s, u); }
  }

  lemma GreetingLogs(s: State, a: nat, x: nat)
    requires Inv(s) && a < |s.pcs| && LinkEnabled(s, a, Link)
    requires var v := s.pcs[a]; var n := s.conns[v.c].progress; (n == 2 && x == v.t1) || (n == 3 && x == v.t2)
    ensures LogsOk(WithGreeting(s, s.pcs[a].c, x))
  {
    var s' := WithGreeting(s, s.pcs[a].c, x);
    Linker(s, a);
    assert LogOk(s, x);
    assert s.terms[x].log == [];
    assert s.terms[x].log + [Opened] == [Opened];
    forall u | 0 <= u < |s.terms| ensures LogOk(s', u) { assert TermOk(s, u) && LogOk(s, u); }
  }

  lemma GreetingKeeps(s: State, a: nat, x: nat)
    requires Inv(s) && a < |s.pcs| && LinkEnabled(s, a, Link)
    requires var v := s.pcs[a]; var n := s.conns[v.c].progress; (n == 2 && x == v.t1) || (n == 3 && x == v.t2)
    ensures Inv(WithGreeting(s, s.pcs[a].c, x))
  {
    var s' := WithGreeting(s, s.pcs[a].c, x);
    Linker(s, a);
    GreetingTerms(s, a, x);
    GreetingLogs(s, a, x);
    ProgressPcs(s, s', a);
    forall q | 0 <= q < |s.ports| ensures PortOk(s', q) { assert PortOk(s, q); }
    forall h | 0 <= h < |s.polls| ensures PollOk(s', h) { assert PollOk(s, h); }
    forall d | 0 <= d < |s.conns| ensures ConnOk(s', d) { assert ConnOk(s, d); }
    forall id: nat | id < |s.sends| ensures SendOk(s', id) { assert SendOk(s, id); }
  }

  lemma GreetDelivers(s: State, a: nat, x: nat)
    requires Inv(s) && a < |s.pcs| && LinkEnabled(s, a, Link) && x < |s.terms| && s.terms[x].port.Some?
    requires var v := s.pcs[a]; var n := s.conns[v.c].progress; (n == 2 && x == v.t1) || (n == 3 && x == v.t2)
    ensures Inv(ApplyLink(s, a, Link))
  {
    PortAlive(s, x);
    PostKeeps(s, s.terms[x].port.value, Opened);
    GreetingKeeps(SendToThis(s, s.terms[x].port.value, Opened), a, x);
  }

  lemma GreetKeeps(s: State, a: nat, x: nat)
    requires Inv(s) && a < |s.pcs| && LinkEnabled(s, a, Link)
    requires var v := s.pcs[a]; var n := s.conns[v.c].progress; (n == 2 && x == v.t1) || (n == 3 && x == v.t2)
    ensures Inv(ApplyLink(s, a, Link))
  {
    if s.terms[x].port.Some? {
      GreetDelivers(s, a, x);
    } else {
      GreetingKeeps(s, a, x);
      assert s.terms[x := s.terms[x]] == s.terms;
    }
  }

  lemma UnlockTerm(s: State, a: nat, u: nat)
    requires Inv(s) && a < |s.pcs| && LinkEnabled(s, a, Link) && s.conns[s.pcs[a].c].progress == 4 && u < |s.terms|
    ensures TermOk(Unlocked(s, a), u)
  {
    Linker(s, a);
    assert TermOk(s, u);
    TermCounts(s.pcs, a, Quiet, u);
    CountAtLeast(s.pcs, a, Refs(u));
  }

  lemma UnlockTerms(s: State, a: nat)
    requires Inv(s) && a < |s.pcs| && LinkEnabled(s, a, Link) && s.conns[s.pcs[a].c].progress == 4
    ensures TermsOk(Unlocked(s, a))
  {
    var s' := Unlocked(s, a);
    Linker(s, a);
    forall u: nat | u < |s.terms| ensures TermOk(s', u) { UnlockTerm(s, a, u); }
  }

  lemma UnlockLogs(s: State, a: nat)
    requires Inv(s) && a < |s.pcs| && LinkEnabled(s, a, Link) && s.conns[s.pcs[a].c].progress == 4
    ensures LogsOk(Unlocked(s, a))
  {
    var s' := Unlocked(s, a);
    Linker(s, a);
    forall u: nat | u < |s.terms| ensures LogOk(s', u) {
      assert TermOk(s, u) && LogOk(s, u);
      if s.terms[u].claimed.Some? {
        CountUpdate(s.pcs, a, Quiet, Pending(Peer(s.conns[s.terms[u].claimed.value], u)));
      }
    }
  }

  lemma UnlockPc(s: State, a: nat, b: nat)
    requires a < |s.pcs| && LinkEnabled(s, a, Link) && b < |s.pcs| && b != a && PcOk(s, b)
    requires var v := s.pcs[a];
             s.conns[v.c].holder == Some(a) && s.terms[v.t1].claimed == s.terms[v.t2].claimed == Some(v.c)
    requires var w := s.pcs[b];
             w.Linking? ==> s.terms[w.t1].claimed == s.terms[w.t2].claimed == Some(w.c)
    ensures PcOk(Unlocked(s, a), b)
  {
  }

  lemma UnlockPcs(s: State, a: nat)
    requires Inv(s) && a < |s.pcs| && LinkEnabled(s, a, Link)
    requires s.conns[s.pcs[a].c].progress == 4
    ensures PcsOk(Unlocked(s, a))
  {
    var s' := Unlocked(s, a);
    Linker(s, a);
    forall b: nat | b < |s.pcs| ensures PcOk(s', b) {
      assert PcOk(s, b);
      if b != a {
        if s.pcs[b].Linking? { Linker(s, b); }
        UnlockPc(s, a, b);
      }
    }
  }

  lemma UnlockKeeps(s: State, a: nat)
    requires Inv(s) && a < |s.pcs| && LinkEnabled(s, a, Link) && s.conns[s.pcs[a].c].progress == 4
    ensures Inv(Unlocked(s, a))
  {
    var s' := Unlocked(s, a);
    UnlockTerms(s, a);
    UnlockLogs(s, a);
    UnlockPcs(s, a);
    Linker(s, a);
    forall q: nat | q < |s.ports|
      ensures PortOk(s', q)
    {
      assert PortOk(s, q);
      CountUpdate(s.pcs, a, Quiet, Severs(q));
    }
    forall h | 0 <= h < |s.polls| ensures PollOk(s', h) { assert PollOk(s, h); }
    forall d | 0 <= d < |s.conns| ensures ConnOk(s', d) { assert ConnOk(s, d); }
    forall id: nat | id < |s.sends|
      ensures SendOk(s', id)
    {
      assert SendOk(s, id);
      CountUpdate(s.pcs, a, Quiet, Flies(id));
    }
  }

  lemma LinkKeeps(s: State, a: nat)
    requires Inv(s) && a < |s.pcs| && LinkEnabled(s, a, Link)
    ensures Inv(ApplyLink(s, a, Link))
  {
    var v := s.pcs[a];
    var n := s.conns[v.c].progress;
    Linker(s, a);
    if n == 0 { StoreKeeps(s, a, v.t2); }
    else if n == 1 { StoreKeeps(s, a, v.t1); }
    else if n == 2 { GreetKeeps(s, a, v.t1); }
    else if n == 3 { GreetKeeps(s, a, v.t2); }
    else { UnlockKeeps(s, a); }
  }

  // ---- owners ------------------------------------------------------------

  lemma NewPortKeeps(s: State, th: nat)
    requires Inv(s) && OwnerEnabled(s, NewPort(th))
    ensures Inv(ApplyOwner(s, NewPort(th)))
  {
    var s' := ApplyOwner(s, NewPort(th));
    var n := |s.ports|;
    forall u | 0 <= u < |s.terms| ensures TermOk(s', u) && LogOk(s', u) { assert TermOk(s, u) && LogOk(s, u); }
    forall h | 0 <= h < |s.polls| ensures PollOk(s', h) && n !in s.polls[h] { assert PollOk(s, h); }
    forall b | 0 <= b < |s.pcs| ensures PcOk(s', b) && Weight(s.pcs[b], Severs(n)) == 0 { assert PcOk(s, b); }
    CountNone(s.pcs, Severs(n));
    forall q | 0 <= q < |s'.ports| ensures PortOk(s', q) { if q < n { assert PortOk(s, q); } }
    forall c | 0 <= c < |s.conns| ensures ConnOk(s', c) { assert ConnOk(s, c); }
    forall id: nat | id < |s.sends| ensures SendOk(s', id) { assert SendOk(s, id); }
  }

  /** Nobody is doing anything with a terminal that does not exist yet. */
  lemma NoActors(s: State)
    requires Inv(s)
    ensures var n := |s.terms|; Count(s.pcs, Refs(n)) == 0 && Count(s.pcs, Throws(n)) == 0
    ensures var n := |s.terms|; Count(s.pcs, Cuts(n)) == 0 && Count(s.pcs, Hangs(n)) == 0
  {
    var n := |s.terms|;
    forall b | 0 <= b < |s.pcs|
      ensures Weight(s.pcs[b], Refs(n)) == 0 && Weight(s.pcs[b], Throws(n)) == 0 && Weight(s.pcs[b], Cuts(n)) == 0
              && Weight(s.pcs[b], Hangs(n)) == 0
    {
      assert PcOk(s, b);
      if s.pcs[b].Linking? { assert ConnOk(s, s.pcs[b].c); }
    }
    CountNone(s.pcs, Refs(n));
    CountNone(s.pcs, Throws(n));
    CountNone(s.pcs, Cuts(n));
    CountNone(s.pcs, Hangs(n));
  }

  lemma NewTerminalTerms(s: State, p: nat)
    requires Inv(s) && OwnerEnabled(s, NewTerminal(p))
    ensures TermsOk(ApplyOwner(s, NewTerminal(p))) && LogsOk(ApplyOwner(s, NewTerminal(p)))
  {
    var s' := ApplyOwner(s, NewTerminal(p));
    NoActors(s);
    IdlePortAbandoned(s, p);
    forall u: nat | u < |s'.terms| ensures TermOk(s', u) && LogOk(s', u) {
      if u < |s.terms| { assert TermOk(s, u) && LogOk(s, u); }
    }
  }

  lemma NewTerminalKeeps(s: State, p: nat)
    requires Inv(s) && OwnerEnabled(s, NewTerminal(p))
    ensures Inv(ApplyOwner(s, NewTerminal(p)))
  {
    var s' := ApplyOwner(s, NewTerminal(p));
    NewTerminalTerms(s, p);
    forall q | 0 <= q < |s.ports| ensures PortOk(s', q) { assert PortOk(s, q); }
    forall h | 0 <= h < |s.polls| ensures PollOk(s', h) { assert PollOk(s, h); }
    forall c | 0 <= c < |s.conns| ensures ConnOk(s', c) { assert ConnOk(s, c); }
    forall b | 0 <= b < |s.pcs| ensures PcOk(s', b) { assert PcOk(s, b); }
    forall id: nat | id < |s.sends| ensures SendOk(s', id) { assert SendOk(s, id); }
  }

  /** A severed port has no terminal. */
  lemma SeveredIdle(s: State, p: nat)
    requires Inv(s) && p < |s.ports|
      && (s.ports[p].phase.Severed? || s.ports[p].phase.Unqueued? || s.ports[p].phase.Gone?)
    ensures Abandoned(s, p) && s.ports[p].terminal.None?
  {
    assert PortOk(s, p);
    IdlePortAbandoned(s, p);
  }

  /** Taking a port off its thread's pending list. */
  function Unqueue(s: State, p: nat): State
    requires PortInRange(s, p)
  {
    var k := s.ports[p];
    SetPort(s, p, k.(isQueued := false))
    .(polls := if k.isQueued then s.polls[k.thread := Without(s.polls[k.thread], p)] else s.polls)
  }

  lemma UnqueueKeeps(s: State, p: nat)
    requires Inv(s) && PortInRange(s, p)
    ensures Inv(Unqueue(s, p))
  {
    var s' := Unqueue(s, p);
    var th := s.ports[p].thread;
    assert PortOk(s, p) && PollOk(s, th);
    WithoutMembers(s.polls[th], p);
    forall u | 0 <= u < |s.terms| ensures TermOk(s', u) && LogOk(s', u) { assert TermOk(s, u) && LogOk(s, u); }
    forall q | 0 <= q < |s.ports| ensures PortOk(s', q) { assert PortOk(s, q); }
    forall h | 0 <= h < |s.polls| ensures PollOk(s', h) { assert PollOk(s, h); }
    forall c | 0 <= c < |s.conns| ensures ConnOk(s', c) { assert ConnOk(s, c); }
    forall b | 0 <= b < |s.pcs| ensures PcOk(s', b) { assert PcOk(s, b); }
    forall id: nat | id < |s.sends| ensures SendOk(s', id) { assert SendOk(s, id); }
  }

  lemma OwnerKeeps(s: State, b: OwnerStep)
    requires Inv(s) && OwnerEnabled(s, b)
    ensures Inv(ApplyOwner(s, b))
  {
    match b
    case NewPort(th) => NewPortKeeps(s, th);
    case NewTerminal(p) => NewTerminalKeeps(s, p);
    case RemovePending(p) =>
      SeveredIdle(s, p);
      UnqueueKeeps(s, p);
      PhaseKeeps(Unqueue(s, p), p, Unqueued);
      assert ApplyOwner(s, b) == SetPort(Unqueue(s, p), p, Unqueue(s, p).ports[p].(phase := Unqueued));
    case DeletePort(p) =>
      SeveredIdle(s, p);
      assert PortOk(s, p);
      PhaseKeeps(s, p, Gone);
  }

  // ---- all steps ---------------------------------------------------------

  lemma SendKeeps(s: State, a: nat, b: ActorStep)
    requires Inv(s) && a < |s.pcs| && SendEnabled(s, a, b)
    ensures Inv(ApplySend(s, a, b))
  {
    match b
    case StartSend(p) => StartSendKeeps(s, a, p);
    case ReadConnection => ReadConnectionKeeps(s, a);
    case Ask => AskKeeps(s, a);
    case Deliver => DeliverKeeps(s, a);
    case DropOther => DropKeeps(s, a, s.pcs[a].o, ThenSelf(s.pcs[a].t));
    case DropSelf => DropKeeps(s, a, s.pcs[a].t, ThenQuiet);
    case ThrowAway => if s.pcs[a].k.ThenPort? { ThrowAfterSeverKeeps(s, a); } else { ThrowKeeps(s, a); }
  }

  lemma LinkStepKeeps(s: State, a: nat, b: ActorStep)
    requires Inv(s) && a < |s.pcs| && LinkEnabled(s, a, b)
    ensures Inv(ApplyLink(s, a, b))
  {
    match b
    case StartSever(p, destroy) => StartSeverKeeps(s, a, p, destroy);
    case CutPort => CutPortKeeps(s, a);
    case DropCut => DropCutKeeps(s, a);
    case DropCreator(t) => DropCreatorKeeps(s, a, t);
    case StartConnect(t1, t2) => StartConnectKeeps(s, a, t1, t2);
    case Link => LinkKeeps(s, a);
  }

  lemma HangupKeeps(s: State, a: nat, b: ActorStep)
    requires Inv(s) && a < |s.pcs| && HangupEnabled(s, a, b)
    ensures Inv(ApplyHangup(s, a, b))
  {
    match b
    case Collect => CollectKeeps(s, a);
    case ReadHangup => ReadHangupKeeps(s, a);
    case Close => CloseKeeps(s, a);
    case Tell => TellKeeps(s, a);
    case DropTold => DropKeeps(s, a, s.pcs[a].o, ThenDelete(s.pcs[a].t));
    case Delete => DeleteKeeps(s, a);
  }

  lemma StepKeeps(s: State, x: Step)
    requires Inv(s) && Enabled(s, x)
    ensures Inv(Apply(s, x))
  {
    match x
    case Owner(b) => OwnerKeeps(s, b);
    case Actor(a, b) =>
      if SendEnabled(s, a, b) { SendKeeps(s, a, b); }
      else if LinkEnabled(s, a, b) { LinkStepKeeps(s, a, b); }
      else { HangupKeeps(s, a, b); }
  }

  lemma InitInv(s: State)
    requires Init(s)
    ensures Inv(s)
  {
    assert forall a | 0 <= a < |s.pcs| :: PcOk(s, a);
    assert forall th | 0 <= th < |s.polls| :: PollOk(s, th);
  }

  /** Every state of every run satisfies the invariant. */
  lemma {:induction false} RunInv(r: Run, i: nat)
    requires IsRun(r) && i < |r.states|
    ensures Inv(r.states[i])
  {
    if i == 0 {
      InitInv(r.states[0]);
    } else {
      RunInv(r, i - 1);
      StepKeeps(r.states[i - 1], r.steps[i - 1]);
    }
  }
}
