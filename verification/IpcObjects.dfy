/**
 * Ports, terminals, connections and pending lists as the code has them, updated in place.  Each
 * contract speaks of one whole call with nobody else running; module Ipc splits the same calls
 * into their locked sections and lets them interleave.
 */
module IpcObjects {
  import opened Common
  import opened Objects
  import Ipc

  type Message = Ipc.Msg

  class PollState {
    var polling: bool
    var deadline: nat  // of the thread's entry in the run list
    var pendingPorts: seq<Port>

    constructor ()
      ensures !polling && deadline == 0 && pendingPorts == []
    {
      polling, deadline, pendingPorts := false, 0, [];
    }

    /** Queues the port unless it is queued, and then wakes a polling thread. */
    method AddToPending(port: Port)
      requires port.poll == this && port.Tracked()
      modifies this`pendingPorts, this`deadline, port`isQueued
      ensures port.isQueued && port.Tracked()
      ensures pendingPorts == if old(port.isQueued) then old(pendingPorts) else old(pendingPorts) + [port]
      ensures deadline == if polling && !old(port.isQueued) then 0 else old(deadline)
    {
      if port.isQueued { return; }
      DistinctSnoc<Port>(pendingPorts, port);
      port.isQueued := true;
      pendingPorts := pendingPorts + [port];
      if polling { deadline := 0; }
    }

    /** Afterwards the list holds the same ports in the same order, but not this one. */
    method RemovePending(port: Port)
      requires port.poll == this && port.Tracked()
      modifies this`pendingPorts, port`isQueued
      ensures !port.isQueued && port.Tracked() && pendingPorts == Without(old(pendingPorts), port)
      ensures forall q :: q in pendingPorts <==> q in old(pendingPorts) && q != port
    {
      WithoutMembers<Port>(pendingPorts, port);
      if !port.isQueued {
        WithoutAbsent(pendingPorts, port);
        return;
      }
      port.isQueued := false;
      pendingPorts := Without(pendingPorts, port);
    }
  }

  lemma {:induction false} WithoutAbsent<T>(s: seq<T>, x: T)
    requires x !in s
    ensures Without(s, x) == s
  {
    if s != [] { WithoutAbsent(s[1..], x); }
  }

  /** Port and its one subclass ThreadPort. */
  class Port {
    const poll: PollState  // that of the thread the port belongs to
    var terminal: Terminal?
    var isQueued: bool
    var lastMessage: Option<Message>
    var deleted: bool

    constructor (thread: PollState)
      ensures poll == thread && terminal == null && !isQueued && lastMessage == None && !deleted
    {
      poll := thread;
      terminal, isQueued, lastMessage, deleted := null, false, None, false;
    }

    /** The pending list has no duplicates, and has this port exactly when the port says so. */
    predicate Tracked()
      reads this, poll
    {
      Distinct(poll.pendingPorts) && (isQueued <==> this in poll.pendingPorts)
    }

    /** The port has message m, and its thread will find it in the pending list, once. */
    predicate Holds(m: Message)
      reads this, poll
    {
      lastMessage == Some(m) && isQueued && Tracked()
    }

    /** It has just received m: it was queued unless it was queued, and a polling thread was woken for it. */
    twostate predicate Received(m: Message)
      reads this, poll
    {
      && Holds(m)
      && poll.pendingPorts == (if old(isQueued) then old(poll.pendingPorts) else old(poll.pendingPorts) + [this])
      && poll.deadline == (if poll.polling && !old(isQueued) then 0 else old(poll.deadline))
    }

    function Slot(): Option<Terminal>
      reads this
    {
      if terminal == null then None else Some(terminal)
    }

    /** As the code has it: see the functions after this class. */
    method SetTerminal(t: Terminal) returns (ok: bool)
      modifies this`terminal
      ensures ok == (old(terminal) != null) && terminal == if old(terminal) != null then t else null
      ensures (Slot(), ok) == CodedSet(old(Slot()), t)
    {
      if terminal == null { return false; }
      terminal := t;
      return true;
    }

    method SendToThis(m: Message)
      requires !deleted && Tracked()
      modifies this`lastMessage, this`isQueued, poll`pendingPorts, poll`deadline
      ensures lastMessage == Some(m) && isQueued && Tracked()
      ensures poll.pendingPorts == if old(isQueued) then old(poll.pendingPorts) else old(poll.pendingPorts) + [this]
      ensures poll.deadline == if poll.polling && !old(isQueued) then 0 else old(poll.deadline)
      ensures Received(m)
    {
      lastMessage := Some(m);
      poll.AddToPending(this);
    }

    /** A port with a terminal gets it retained; the code asserts that this cannot fail. */
    method GetTerminal(sever: bool) returns (t: Terminal?)
      requires terminal != null ==> !terminal.deleted && terminal.port != null
      modifies this`terminal, End(terminal)`retainCount
      ensures t == old(terminal) && terminal == (if sever then null else old(terminal))
      ensures t != null ==> t.retainCount == old(t.retainCount) + 1
    {
      if terminal == null { return null; }
      var res := terminal.Retain();
      assert res;
      t := terminal;
      if sever { terminal := null; }
    }

    /**
     * The port at the other end of the connection receives m, if both are there.  Both
     * terminals keep their counts and nothing is thrown away.
     */
    method SendToRemote(m: Message)
      requires terminal != null ==>
        !terminal.deleted && terminal.port != null
          && (terminal.connection != null ==> terminal.connection.Ready(terminal))
      modifies this`terminal, End(terminal)`retainCount, End(Far(terminal))`retainCount
      modifies PortAt(Far(terminal))`lastMessage, PortAt(Far(terminal))`isQueued
      modifies PollAt(Far(terminal))`pendingPorts, PollAt(Far(terminal))`deadline
      modifies CollectorOf(terminal), CollectorOf(Far(terminal))
      ensures terminal == old(terminal) && (terminal != null ==> terminal.retainCount == old(terminal.retainCount))
      ensures var o := old(Far(terminal)); o != null ==> o.retainCount == old(o.retainCount)
      ensures var q := old(PortOf(Far(terminal))); q != null ==> q.Received(m)
      ensures forall c | c in CollectorOf(terminal) + old(CollectorOf(Far(terminal))) :: c.Value() == old(c.Value())
    {
      var t := GetTerminal(false);
      if t == null { return; }
      var c := t.connection;
      if c != null { c.SendToRemote(t, m); }
      t.Release();
    }

    /** The terminal loses its port and keeps its count; it goes to the collector when nobody refers to it. */
    method Sever()
      requires terminal != null ==> !terminal.deleted && terminal.port != null && terminal.retainCount >= 0
      modifies this`terminal, End(terminal)`retainCount, End(terminal)`port, CollectorOf(terminal)
      ensures terminal == null
      ensures var t := old(terminal); t != null ==>
        && t.port == null && t.retainCount == old(t.retainCount)
        && t.collector.Value() == ThrownTo(old(t.collector.Value()), t.retainCount == 0, t)
    {
      var t := GetTerminal(true);
      if t == null { return; }
      t.Sever();
      t.Release();
    }

    /** Dealloc, with `remove` for a port that its thread knows. */
    method Dealloc(remove: bool)
      requires !deleted && (remove ==> Tracked())
      modifies this`deleted, (if remove then {this} else {})`isQueued, (if remove then {poll} else {})`pendingPorts
      ensures deleted && (remove ==> this !in poll.pendingPorts)
      ensures poll.pendingPorts == if remove then Without(old(poll.pendingPorts), this) else old(poll.pendingPorts)
    {
      if remove { poll.RemovePending(this); }
      deleted := true;
    }

    /**
     * DestroyPortSyscall on a port that was found: sever, then free.  Neither its terminal nor the
     * pending list refers to the deleted port.
     */
    method Destroy()
      requires !deleted && Tracked()
        && (terminal != null ==> !terminal.deleted && terminal.port == this && terminal.retainCount >= 0)
      modifies this, End(terminal)`retainCount, End(terminal)`port, poll`pendingPorts, CollectorOf(terminal)
      ensures deleted && terminal == null && this !in poll.pendingPorts
      ensures poll.pendingPorts == Without(old(poll.pendingPorts), this)
      ensures var t := old(terminal); t != null ==>
        && t.port == null && t.retainCount == old(t.retainCount)
        && t.collector.Value() == ThrownTo(old(t.collector.Value()), t.retainCount == 0, t)
    {
      Sever();
      Dealloc(true);
    }

    /** What Thread::Dealloc does to each port; the pending list dies with the thread. */
    method Free()
      requires Ready()
      modifies this`terminal, this`deleted, End(terminal)`retainCount, End(terminal)`port, CollectorOf(terminal)
      ensures deleted && terminal == null
      ensures var t := old(terminal); t != null ==>
        && t.port == null && t.retainCount == old(t.retainCount)
        && t.collector.Value() == ThrownTo(old(t.collector.Value()), t.retainCount == 0, t)
    {
      Sever();
      Dealloc(false);
    }

    /** A port that Thread::Dealloc can free: its terminal, if it has one, is its own. */
    predicate Ready()
      reads this, terminal
    {
      !deleted && (terminal != null ==> !terminal.deleted && terminal.port == this && terminal.retainCount >= 0)
    }
  }

  /**
   * The loop with which Thread::Dealloc begins, one port a call: each port of the thread is severed
   * and freed.  Afterwards no terminal refers to any of them, the terminals keep their counts, and
   * those that nobody else kept have been thrown away.  `ends` contains the terminals.
   */
  method FreePorts(ports: seq<Port>, collector: GarbageCollector, ghost ends: set<Terminal>)
    requires Distinct(ports) && forall p | p in ports ::
      p.Ready() && (p.terminal != null ==> p.terminal in ends && p.terminal.collector == collector)
    modifies ports`terminal, ports`deleted, ends`retainCount, ends`port, collector
    ensures forall p | p in ports :: p.deleted && p.terminal == null
    ensures forall p | p in ports && old(p.terminal) != null :: old(p.terminal).port == null
    ensures forall t | t in ends :: t.retainCount == old(t.retainCount) && (t.port == null || t.port == old(t.port))
    ensures old(collector.objects) <= collector.objects
    ensures forall p | p in ports && old(p.terminal) != null && old(p.terminal).retainCount == 0 ::
      old(p.terminal) in collector.objects
  {
    if ports == [] { return; }
    var p, rest := ports[0], ports[1..];
    assert forall q | q in rest :: q in ports && q != p;
    p.Free();
    ghost var thrown := collector.objects;
    FreePorts(rest, collector, ends);
    assert forall k | 0 <= k < |thrown| :: collector.objects[k] == thrown[k];
    assert forall o | o in thrown :: o in collector.objects;
  }

  // ---- SetTerminal against its contract ----------------------------------

  /** What SetTerminal does: it replaces a terminal and refuses to set a first one. */
  function CodedSet<T>(slot: Option<T>, t: T): (Option<T>, bool) {
    if slot.None? then (slot, false) else (Some(t), true)
  }

  /** What its header asks for: set the terminal of a port that does not have one. */
  function DocumentedSet<T>(slot: Option<T>, t: T): (Option<T>, bool) {
    if slot.None? then (Some(t), true) else (slot, false)
  }

  /** The calls that change a port's terminal: SetTerminal, and GetTerminal with or without severing. */
  datatype SlotCall<T> = Set(t: T) | Get(sever: bool)

  function SlotAfter<T>(slot: Option<T>, calls: seq<SlotCall<T>>): Option<T> {
    if calls == [] then slot
    else
      var before := SlotAfter(slot, calls[..|calls| - 1]);
      match calls[|calls| - 1]
      case Set(t) => CodedSet(before, t).0
      case Get(sever) => if sever then None else before
  }

  /**
   * A new port never acquires a terminal, whatever is called: every SetTerminal refuses.  There is
   * no port on which the code answers as documented.
   */
  lemma {:induction false} NeverAcquires<T>(calls: seq<SlotCall<T>>, t: T)
    ensures SlotAfter(None, calls) == None
    ensures !CodedSet(SlotAfter(None, calls), t).1 && DocumentedSet(SlotAfter(None, calls), t).1
    ensures forall slot: Option<T> :: CodedSet(slot, t).1 <==> !DocumentedSet(slot, t).1
  {
    if calls != [] { NeverAcquires(calls[..|calls| - 1], t); }
  }

  // ---- terminals and connections -----------------------------------------

  function Far(t: Terminal?): Terminal?
    reads t, if t == null then null else t.connection
  {
    if t == null || t.connection == null then null else t.connection.OtherEnd(t)
  }

  function PortOf(t: Terminal?): Port?
    reads t
  {
    if t == null then null else t.port
  }

  // Frames: what is there of an end, its port, its port's pending list and its collector.

  function End(t: Terminal?): set<Terminal> {
    if t == null then {} else {t}
  }

  function PortAt(t: Terminal?): set<Port>
    reads t
  {
    if PortOf(t) == null then {} else {t.port}
  }

  function PollAt(t: Terminal?): set<PollState>
    reads t
  {
    if PortOf(t) == null then {} else {t.port.poll}
  }

  function CollectorOf(t: Terminal?): set<GarbageCollector> {
    if t == null then {} else {t.collector}
  }

  /** A pending list after a port was offered to it. */
  function Queued(pending: seq<Port>, p: Port, wasQueued: bool): seq<Port> {
    if wasQueued then pending else pending + [p]
  }

  class Terminal {
    const collector: GarbageCollector
    var port: Port?
    var retainCount: int
    var connection: Connection?
    var deleted: bool

    constructor (p: Port?, c: GarbageCollector)
      ensures port == p && collector == c && retainCount == 1 && connection == null && !deleted
    {
      collector := c;
      port, retainCount, connection, deleted := p, 1, null, false;
    }

    method Retain() returns (ok: bool)
      requires !deleted
      modifies this`retainCount
      ensures ok <==> port != null
      ensures retainCount == old(retainCount) + if ok then 1 else 0
    {
      if port == null { return false; }
      retainCount := retainCount + 1;
      return true;
    }

    /** The last reference to a severed terminal throws it away. */
    method Release()
      requires !deleted
      modifies this`retainCount, collector
      ensures retainCount == old(retainCount) - 1
      ensures collector.Value() == ThrownTo(old(collector.Value()), retainCount == 0 && port == null, this)
    {
      retainCount := retainCount - 1;
      var closed := retainCount == 0 && port == null;
      if closed { collector.Add(this); }
    }

    method Deliver(m: Message)
      requires !deleted && (port != null ==> !port.deleted && port.Tracked())
      modifies PortAt(this)`lastMessage, PortAt(this)`isQueued, PollAt(this)`pendingPorts, PollAt(this)`deadline
      ensures port != null ==> port.Received(m)
    {
      if port == null { return; }
      port.SendToThis(m);
    }

    method Sever()
      requires !deleted && retainCount > 0
      modifies this`port
      ensures port == null
    {
      port := null;
    }

    /** A terminal that was thrown away closes its end of the connection before it is freed. */
    method Dealloc()
      requires !deleted && (connection != null ==> connection.Ready(this))
      modifies this`deleted, connection, End(Far(this))`retainCount, CollectorOf(Far(this))
      modifies PortAt(Far(this))`lastMessage, PortAt(Far(this))`isQueued, PollAt(Far(this))`pendingPorts,
        PollAt(Far(this))`deadline
      ensures deleted
      ensures connection != null ==> connection.terminal1 != this && connection.terminal2 != this
      ensures connection != null ==> (connection.deleted <==> old(Far(this)) == null)
      ensures old(PortOf(Far(this))) != null ==> old(PortOf(Far(this))).Received(Ipc.Closed)
      ensures var o := old(Far(this)); o != null ==>
        o.retainCount == old(o.retainCount) && o.collector.Value() == old(o.collector.Value())
    {
      if connection != null { connection.Close(this); }
      deleted := true;
    }
  }

  class Connection {
    var terminal1: Terminal?
    var terminal2: Terminal?
    var deleted: bool

    constructor (x: Terminal, y: Terminal)
      ensures terminal1 == x && terminal2 == y && !deleted
    {
      terminal1, terminal2, deleted := x, y, false;
    }

    function OtherEnd(t: Terminal): Terminal?
      reads this
    {
      if t == terminal1 then terminal2 else terminal1
    }

    /** The sender is registered, and the other end can be delivered to. */
    predicate Ready(sender: Terminal)
      reads this, OtherEnd(sender), PortOf(OtherEnd(sender)), PollAt(OtherEnd(sender))
    {
      && !deleted && (sender == terminal1 || sender == terminal2) && OtherEnd(sender) != sender
      && (OtherEnd(sender) != null ==> !OtherEnd(sender).deleted)
      && (PortOf(OtherEnd(sender)) != null ==> !PortOf(OtherEnd(sender)).deleted && PortOf(OtherEnd(sender)).Tracked())
    }

    /** Both terminals know the new connection before either port hears that it is open. */
    static method Connect(t1: Terminal, t2: Terminal) returns (c: Connection)
      requires t1 != t2 && !t1.deleted && !t2.deleted && (t1.port != null ==> t1.port != t2.port)
      requires forall t | t in {t1, t2} && t.port != null :: !t.port.deleted && t.port.Tracked()
      modifies t1`connection, t2`connection
      modifies PortAt(t1)`lastMessage, PortAt(t1)`isQueued, PollAt(t1)`pendingPorts, PollAt(t1)`deadline
      modifies PortAt(t2)`lastMessage, PortAt(t2)`isQueued, PollAt(t2)`pendingPorts, PollAt(t2)`deadline
      ensures fresh(c) && c.terminal1 == t1 && c.terminal2 == t2 && !c.deleted
      ensures t1.connection == c && t2.connection == c
      ensures t1.port != null ==> t1.port.Holds(Ipc.Opened)
      ensures t2.port != null ==> t2.port.Holds(Ipc.Opened)
      ensures t1.port != null && PollAt(t1) != PollAt(t2) ==> t1.port.Received(Ipc.Opened)
      ensures t2.port != null && PollAt(t1) != PollAt(t2) ==> t2.port.Received(Ipc.Opened)
      ensures t1.port != null && PollAt(t1) == PollAt(t2) ==>
        var q, was1, was2 := t1.port.poll, old(t1.port.isQueued), old(t2.port.isQueued);
        && q.pendingPorts == Queued(Queued(old(q.pendingPorts), t1.port, was1), t2.port, was2)
        && q.deadline == (if q.polling && !(was1 && was2) then 0 else old(q.deadline))
    {
      c := new Connection(t1, t2);
      t2.connection := c;
      t1.connection := c;
      t1.Deliver(Ipc.Opened);
      t2.Deliver(Ipc.Opened);
    }

    method SendToRemote(sender: Terminal, m: Message)
      requires Ready(sender)
      modifies End(OtherEnd(sender))`retainCount, CollectorOf(OtherEnd(sender))
      modifies PortAt(OtherEnd(sender))`lastMessage, PortAt(OtherEnd(sender))`isQueued
      modifies PollAt(OtherEnd(sender))`pendingPorts, PollAt(OtherEnd(sender))`deadline
      ensures var o := OtherEnd(sender); o != null ==>
        && o.retainCount == old(o.retainCount) && o.collector.Value() == old(o.collector.Value())
        && (o.port != null ==> o.port.Received(m))
    {
      var other;
      if sender == terminal1 {
        other := terminal2;
      } else {
        assert sender == terminal2;
        other := terminal1;
      }
      if other == null { return; }
      var ok := other.Retain();
      if !ok { return; }
      other.Deliver(m);
      other.Release();
    }

    /**
     * The sender's end is cleared.  The first Close tells the other port that the connection is
     * closed, if it still has a port; the second frees the connection.
     */
    method Close(sender: Terminal)
      requires Ready(sender)
      modifies this, End(OtherEnd(sender))`retainCount, CollectorOf(OtherEnd(sender))
      modifies PortAt(OtherEnd(sender))`lastMessage, PortAt(OtherEnd(sender))`isQueued
      modifies PollAt(OtherEnd(sender))`pendingPorts, PollAt(OtherEnd(sender))`deadline
      ensures var o := old(OtherEnd(sender));
        && (deleted <==> o == null)
        && (if sender == old(terminal1) then terminal1 == null && terminal2 == o
            else terminal1 == o && terminal2 == null)
        && (o != null ==> o.retainCount == old(o.retainCount) && o.collector.Value() == old(o.collector.Value()))
        && (o != null && o.port != null ==> o.port.Received(Ipc.Closed))
    {
      var other;
      if sender == terminal1 {
        other := terminal2;
        terminal1 := null;
      } else {
        assert sender == terminal2;
        other := terminal1;
        terminal2 := null;
      }
      if other == null {
        deleted := true;
        return;
      }
      var ok := other.Retain();
      if !ok { return; }
      other.Deliver(Ipc.Closed);
      other.Release();
    }
  }
}
