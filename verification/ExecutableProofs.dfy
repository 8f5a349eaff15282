/**
 * What a program sees through its executable map, and what the map does with physical memory.
 */
module ExecutableProofs {
  import opened ExecutableSpace

  // ---- sectors, pages and bytes ------------------------------------------

  lemma SameSector(u: nat, i: nat)
    requires u >= START
    ensures Within(u, START + i * SECTOR, SECTOR) <==> SectorOf(u) == i
  {
  }

  lemma SectorDivides(i: nat, x: nat)
    requires x < SECTOR
    ensures (i * SECTOR + x) / SECTOR == i && (i * SECTOR + x) % SECTOR == x
  {
  }

  lemma PageDivides(j: nat, x: nat)
    requires x < PAGE
    ensures (j * PAGE + x) / PAGE == j && (j * PAGE + x) % PAGE == x
  {
  }

  /** An address is so many sectors, so many pages in the sector, and so many bytes in the page. */
  lemma Digits(v: nat)
    ensures var i, j, x := v / SECTOR, SubPage(v), v % PAGE;
            v == i * SECTOR + (j * PAGE + x) && PageOf(v) == i * SECTOR + j * PAGE && j * PAGE + x < SECTOR
  {
    var r := v % SECTOR;
    assert r == r / PAGE * PAGE + r % PAGE;
    PageDivides(v / SECTOR * PAGES + r / PAGE, r % PAGE);
  }

  lemma PageParts(v: nat)
    requires v >= START
    ensures PageOf(v) >= START && SectorOf(PageOf(v)) == SectorOf(v) && SubPage(PageOf(v)) == SubPage(v)
    ensures START + SectorOf(v) * SECTOR + PageOf(v) % SECTOR == PageOf(v)
    ensures PageOf(v) == START + SectorOf(v) * SECTOR + SubPage(v) * PAGE && v == PageOf(v) + v % PAGE
  {
    var i, j := v / SECTOR, SubPage(v);
    Digits(v);
    SectorDivides(i, j * PAGE);
    PageDivides(j, 0);
    SectorStart(v);
    SectorStart(PageOf(v));
  }

  lemma SectorStart(v: nat)
    requires v >= START
    ensures SectorOf(v) == v / SECTOR - START / SECTOR && START == START / SECTOR * SECTOR
  {
    SectorDivides(v / SECTOR - START / SECTOR, v % SECTOR);
  }

  lemma SamePage(u: nat, v: nat)
    requires u >= START && v >= START
    ensures Within(u, PageOf(v), PAGE) <==> SectorOf(u) == SectorOf(v) && SubPage(u) == SubPage(v)
    ensures Within(u, PageOf(v), PAGE) ==> u % PAGE == u - PageOf(v)
  {
    PageParts(u);
    PageParts(v);
    var p, q := u / PAGE, v / PAGE;
    assert Within(u, PageOf(v), PAGE) <==> p == q;
  }

  lemma FramesApart(a: nat, b: nat, x: nat)
    requires a % PAGE == 0 && b % PAGE == 0 && a != b && x < PAGE
    ensures !Within(a + x, b, PAGE)
  {
  }

  // ---- the invariant -----------------------------------------------------

  /** The frame kept for page j of sector i, or 0 when the page is still shared with the image. */
  function Slot(s: Space, i: nat, j: nat): nat {
    if i < |s.sectors| && s.sectors[i].mode == 2 && j < |s.sectors[i].writables| then s.sectors[i].writables[j] else 0
  }

  function Home(s: Space, v: nat): nat
    requires v >= START
  {
    Slot(s, SectorOf(v), SubPage(v))
  }

  function Owned(s: Space): set<nat> {
    set i: nat, j: nat | i < |s.sectors| && j < PAGES && Slot(s, i, j) != 0 :: Slot(s, i, j)
  }

  /** A frame that holds a whole page and shares nothing with the image. */
  predicate GoodFrame(s: Space, e: Image, w: nat) {
    w % PAGE == 0 && w + PAGE <= |s.memory| && (w + PAGE <= e.memory || e.memory + |e.bytes| <= w)
  }

  /** What AllocPhys promises about the frame it returns. */
  predicate Fresh(s: Space, e: Image, w: nat) {
    w != 0 && GoodFrame(s, e, w) && w !in s.live
  }

  predicate Intact(s: Space, e: Image) {
    e.memory + |e.bytes| <= |s.memory| && forall k | 0 <= k < |e.bytes| :: s.memory[e.memory + k] == e.bytes[k]
  }

  /** A private page is mapped writable; a shared byte is mapped read-only onto the image, or not at all. */
  predicate ByteOk(s: Space, e: Image, v: nat)
    requires InImage(e, v) && Shaped(s, e)
  {
    var mode := (SectorInRange(s, e, v); s.sectors[SectorOf(v)].mode);
    if Home(s, v) != 0 then v in s.user && s.user[v] == Mapping(Home(s, v) + v % PAGE, true)
    else
      && (v in s.user ==> s.user[v] == Mapping(e.memory + (v - START), false))
      && (mode == 0 ==> v !in s.user)
      && (mode == 1 ==> v in s.user)
  }

  predicate SlotOk(s: Space, e: Image, i: nat, j: nat) {
    Slot(s, i, j) != 0 ==> GoodFrame(s, e, Slot(s, i, j)) && Slot(s, i, j) in s.live
  }

  predicate Apart(s: Space, i: nat, j: nat, k: nat, l: nat) {
    Slot(s, i, j) == Slot(s, k, l) != 0 ==> i == k && j == l
  }

  ghost predicate Inv(s: Space, e: Image) {
    && Shaped(s, e) && Intact(s, e)
    && (forall i | 0 <= i < |s.sectors| :: 0 <= s.sectors[i].mode <= 2)
    && (forall v: nat | InImage(e, v) :: ByteOk(s, e, v))
    && (forall i: nat, j: nat :: SlotOk(s, e, i, j))
    && (forall i: nat, j: nat, k: nat, l: nat :: Apart(s, i, j, k, l))
  }

  /** What the program should find at v: its own copy of the page if there is one, else the image. */
  function View(s: Space, e: Image, v: nat): bv8
    requires InImage(e, v)
  {
    if Home(s, v) != 0 && Home(s, v) + v % PAGE < |s.memory| then s.memory[Home(s, v) + v % PAGE]
    else e.bytes[v - START]
  }

  ghost predicate SameView(s: Space, s': Space, e: Image) {
    forall v: nat | InImage(e, v) :: View(s', e, v) == View(s, e, v)
  }

  lemma OwnedLive(s: Space, e: Image)
    requires Inv(s, e)
    ensures Owned(s) <= s.live
  {
    forall w | w in Owned(s) ensures w in s.live {
      var i: nat, j: nat :| i < |s.sectors| && j < PAGES && Slot(s, i, j) != 0 && w == Slot(s, i, j);
      assert SlotOk(s, e, i, j);
    }
  }

  lemma SameSlots(s: Space, s': Space)
    requires |s'.sectors| == |s.sectors| && forall i: nat, j: nat :: Slot(s', i, j) == Slot(s, i, j)
    ensures Owned(s') == Owned(s)
  {
  }

  // ---- the helpers of the fault handler ----------------------------------

  lemma LargePageKeeps(s: Space, e: Image, i: nat)
    requires Inv(s, e) && i < |s.sectors| && s.sectors[i].mode == 0
    ensures Inv(MapROLargePage(s, e, i), e) && SameView(s, MapROLargePage(s, e, i), e)
    ensures Owned(MapROLargePage(s, e, i)) == Owned(s)
  {
    var s' := MapROLargePage(s, e, i);
    assert forall k: nat, j: nat :: Slot(s', k, j) == Slot(s, k, j);
    SameSlots(s, s');
    forall v: nat | InImage(e, v) ensures ByteOk(s', e, v) {
      assert ByteOk(s, e, v);
      SectorInRange(s, e, v);
      SameSector(v, i);
    }
    forall k: nat, j: nat ensures SlotOk(s', e, k, j) { assert SlotOk(s, e, k, j); }
    forall k: nat, j: nat, l: nat, m: nat ensures Apart(s', k, j, l, m) { assert Apart(s, k, j, l, m); }
  }

  lemma SmallPageKeeps(s: Space, e: Image, v: nat)
    requires Inv(s, e) && InImage(e, v) && SectorOf(v) < |s.sectors| && s.sectors[SectorOf(v)].mode == 2 && v !in s.user
    ensures Inv(MapROSmallPage(s, e, SectorOf(v), PageOf(v)), e)
      && SameView(s, MapROSmallPage(s, e, SectorOf(v), PageOf(v)), e)
    ensures Owned(MapROSmallPage(s, e, SectorOf(v), PageOf(v))) == Owned(s)
  {
    var s' := MapROSmallPage(s, e, SectorOf(v), PageOf(v));
    assert forall k: nat, j: nat :: Slot(s', k, j) == Slot(s, k, j);
    SameSlots(s, s');
    PageParts(v);
    assert ByteOk(s, e, v);
    forall u: nat | InImage(e, u) ensures ByteOk(s', e, u) {
      assert ByteOk(s, e, u);
      SectorInRange(s, e, u);
      SamePage(u, v);
    }
    forall k: nat, j: nat ensures SlotOk(s', e, k, j) { assert SlotOk(s, e, k, j); }
    forall k: nat, j: nat, l: nat, m: nat ensures Apart(s', k, j, l, m) { assert Apart(s, k, j, l, m); }
  }

  lemma SwitchKeeps(s: Space, e: Image, i: nat)
    requires Inv(s, e) && i < |s.sectors| && s.sectors[i].mode != 2
    ensures Inv(SwitchToWritable(s, i), e) && SameView(s, SwitchToWritable(s, i), e)
    ensures Owned(SwitchToWritable(s, i)) == Owned(s)
  {
    var s' := SwitchToWritable(s, i);
    assert forall k: nat, j: nat :: Slot(s', k, j) == Slot(s, k, j);
    SameSlots(s, s');
    forall v: nat | InImage(e, v) ensures ByteOk(s', e, v) {
      assert ByteOk(s, e, v);
      SectorInRange(s, e, v);
      SameSector(v, i);
    }
    forall k: nat, j: nat ensures SlotOk(s', e, k, j) { assert SlotOk(s, e, k, j); }
    forall k: nat, j: nat, l: nat, m: nat ensures Apart(s', k, j, l, m) { assert Apart(s, k, j, l, m); }
  }

  /** After a page became private its slot holds the frame, and every other slot is as before. */
  lemma WritableSlots(s: Space, e: Image, v: nat, frame: nat)
    requires Inv(s, e) && InImage(e, v) && SectorOf(v) < |s.sectors| && s.sectors[SectorOf(v)].mode == 2
    requires Home(s, v) == 0 && Fresh(s, e, frame)
    requires PageOf(v) >= START && e.memory + (PageOf(v) - START) + PAGE <= |s.memory|
    ensures var s' := MapWritablePage(s, e, SectorOf(v), PageOf(v), frame);
            forall i: nat, j: nat ::
              Slot(s', i, j) == if i == SectorOf(v) && j == SubPage(v) then frame else Slot(s, i, j)
  {
    PageParts(v);
  }

  lemma WritableBytes(s: Space, e: Image, v: nat, frame: nat, u: nat)
    requires Inv(s, e) && InImage(e, v) && SectorOf(v) < |s.sectors| && s.sectors[SectorOf(v)].mode == 2
    requires Home(s, v) == 0 && Fresh(s, e, frame) && InImage(e, u)
    requires PageOf(v) >= START && e.memory + (PageOf(v) - START) + PAGE <= |s.memory|
    ensures var s' := MapWritablePage(s, e, SectorOf(v), PageOf(v), frame);
            Shaped(s', e) && ByteOk(s', e, u) && View(s', e, u) == View(s, e, u)
  {
    var s' := MapWritablePage(s, e, SectorOf(v), PageOf(v), frame);
    WritableSlots(s, e, v, frame);
    SamePage(u, v);
    SectorInRange(s, e, u);
    assert ByteOk(s, e, u);
    assert SlotOk(s, e, SectorOf(u), SubPage(u));
    if Home(s, u) != 0 {
      FramesApart(Home(s, u), frame, u % PAGE);
    } else if Home(s', u) != 0 {
      assert s.memory[e.memory + (u - START)] == e.bytes[u - START];
    }
  }

  lemma WritableKeeps(s: Space, e: Image, v: nat, frame: nat)
    requires Inv(s, e) && InImage(e, v) && SectorOf(v) < |s.sectors| && s.sectors[SectorOf(v)].mode == 2
    requires Home(s, v) == 0 && Fresh(s, e, frame)
    requires PageOf(v) >= START && e.memory + (PageOf(v) - START) + PAGE <= |s.memory|
    ensures var s' := MapWritablePage(s, e, SectorOf(v), PageOf(v), frame);
            Inv(s', e) && SameView(s, s', e) && Home(s', v) == frame && Owned(s') == Owned(s) + {frame}
  {
    var s' := MapWritablePage(s, e, SectorOf(v), PageOf(v), frame);
    WritableSlots(s, e, v, frame);
    forall u: nat | InImage(e, u)
      ensures ByteOk(s', e, u) && View(s', e, u) == View(s, e, u)
    {
      WritableBytes(s, e, v, frame, u);
    }
    forall i: nat, j: nat ensures SlotOk(s', e, i, j) { assert SlotOk(s, e, i, j); }
    forall i: nat, j: nat, k: nat, l: nat ensures Apart(s', i, j, k, l) {
      assert Apart(s, i, j, k, l) && SlotOk(s, e, i, j) && SlotOk(s, e, k, l);
    }
    WritableOwned(s, s', SectorOf(v), SubPage(v), frame);
  }

  lemma WritableOwned(s: Space, s': Space, i: nat, j: nat, frame: nat)
    requires |s'.sectors| == |s.sectors| && i < |s.sectors| && j < PAGES && Slot(s, i, j) == 0 && frame != 0
    requires forall k: nat, l: nat :: Slot(s', k, l) == if k == i && l == j then frame else Slot(s, k, l)
    ensures Owned(s') == Owned(s) + {frame}
  {
    assert Slot(s', i, j) == frame;
    forall w | w in Owned(s) ensures w in Owned(s') {
      var k: nat, l: nat :| k < |s.sectors| && l < PAGES && Slot(s, k, l) != 0 && w == Slot(s, k, l);
      assert Slot(s', k, l) == w;
    }
  }

  // ---- one page fault ----------------------------------------------------

  /** A fault is raised only for an access that the mapping forbids. */
  predicate Faults(s: Space, addr: nat, write: bool) {
    !Permits(s, addr, write)
  }

  /** A handled fault leaves the access permitted and changes nothing the program can see. */
  lemma HandledFaultPermits(s: Space, e: Image, addr: nat, write: bool, frame: nat)
    requires Inv(s, e) && InImage(e, addr) && Faults(s, addr, write) && (write ==> Fresh(s, e, frame))
    ensures var s' := HandlePageFault(s, e, addr, write, frame).0;
            Inv(s', e) && SameView(s, s', e) && Permits(s', addr, write)
    ensures var s' := HandlePageFault(s, e, addr, write, frame).0; var added := if write then {frame} else {};
            s'.live == s.live + added && Owned(s') == Owned(s) + added
  {
    var i := SectorOf(addr);
    SectorInRange(s, e, addr);
    PageInImage(e, addr);
    PageParts(addr);
    SamePage(addr, addr);
    SameSector(addr, i);
    assert ByteOk(s, e, addr);
    if write {
      var s1 := if s.sectors[i].mode != 2 then SwitchToWritable(s, i) else s;
      if s.sectors[i].mode != 2 { SwitchKeeps(s, e, i); }
      assert Home(s1, addr) == 0;
      WritableKeeps(s1, e, addr, frame);
      assert ByteOk(MapWritablePage(s1, e, i, PageOf(addr), frame), e, addr);
    } else if s.sectors[i].mode == 0 {
      LargePageKeeps(s, e, i);
    } else {
      SmallPageKeeps(s, e, addr);
    }
  }

  /**
   * The answer is what the documentation promises of it: true if and only if the address belongs
   * to the program, and if and only if the access that faulted is permitted now.  A refused fault
   * has changed nothing.
   */
  lemma TrueExactlyWhenServed(s: Space, e: Image, addr: nat, write: bool, frame: nat)
    requires Inv(s, e) && Faults(s, addr, write) && (write && InImage(e, addr) ==> Fresh(s, e, frame))
    ensures HandlePageFault(s, e, addr, write, frame).1 <==> InImage(e, addr)
    ensures var (s', served) := HandlePageFault(s, e, addr, write, frame); served <==> Permits(s', addr, write)
    ensures !InImage(e, addr) ==> HandlePageFault(s, e, addr, write, frame).0 == s
  {
    if InImage(e, addr) { HandledFaultPermits(s, e, addr, write, frame); }
  }

  /** A sector's mode never falls, and a page that got its own frame keeps it. */
  lemma PagesStayPrivate(s: Space, e: Image, addr: nat, write: bool, frame: nat)
    requires Inv(s, e) && InImage(e, addr) && Faults(s, addr, write)
    ensures var s' := HandlePageFault(s, e, addr, write, frame).0;
            && |s'.sectors| == |s.sectors|
            && (forall i | 0 <= i < |s.sectors| :: s'.sectors[i].mode >= s.sectors[i].mode)
            && (forall i: nat, j: nat :: Slot(s, i, j) != 0 ==> Slot(s', i, j) == Slot(s, i, j))
  {
    SectorInRange(s, e, addr);
    PageInImage(e, addr);
    PageParts(addr);
    assert ByteOk(s, e, addr);
  }

  // ---- running programs --------------------------------------------------

  /** One user access to the program.  `frame` is what AllocPhys returns if the access needs a frame. */
  datatype Access = Load(addr: nat) | Store(addr: nat, byte: bv8, frame: nat)

  /** The state in which the access is finally made: the faulting instruction is tried again. */
  function Served(s: Space, e: Image, x: Access): Space
    requires Shaped(s, e)
  {
    if Permits(s, x.addr, x.Store?) then s
    else HandlePageFault(s, e, x.addr, x.Store?, if x.Store? then x.frame else 0).0
  }

  /** The effect of a permitted store: one byte of physical memory. */
  function Stored(s: Space, addr: nat, byte: bv8): Space
    requires addr in s.user && s.user[addr].phys < |s.memory|
  {
    s.(memory := s.memory[s.user[addr].phys := byte])
  }

  lemma StoreKeeps(s: Space, e: Image, addr: nat, byte: bv8)
    requires Inv(s, e) && InImage(e, addr) && Permits(s, addr, true)
    ensures s.user[addr].phys < |s.memory| && Inv(Stored(s, addr, byte), e)
    ensures forall v: nat | InImage(e, v) ::
      View(Stored(s, addr, byte), e, v) == if v == addr then byte else View(s, e, v)
    ensures Owned(Stored(s, addr, byte)) == Owned(s)
  {
    assert ByteOk(s, e, addr);
    SectorInRange(s, e, addr);
    var w := Home(s, addr);
    assert SlotOk(s, e, SectorOf(addr), SubPage(addr));
    var s' := Stored(s, addr, byte);
    assert forall i: nat, j: nat :: Slot(s', i, j) == Slot(s, i, j);
    SameSlots(s, s');
    forall i: nat, j: nat ensures SlotOk(s', e, i, j) { assert SlotOk(s, e, i, j); }
    forall i: nat, j: nat, k: nat, l: nat ensures Apart(s', i, j, k, l) { assert Apart(s, i, j, k, l); }
    forall v: nat | InImage(e, v) ensures ByteOk(s', e, v) { assert ByteOk(s, e, v); }
    forall v: nat | InImage(e, v) ensures View(s', e, v) == if v == addr then byte else View(s, e, v) {
      StoreView(s, e, addr, byte, v);
    }
  }

  lemma StoreView(s: Space, e: Image, addr: nat, byte: bv8, v: nat)
    requires Inv(s, e) && InImage(e, addr) && Permits(s, addr, true) && s.user[addr].phys < |s.memory| && InImage(e, v)
    ensures View(Stored(s, addr, byte), e, v) == if v == addr then byte else View(s, e, v)
  {
    assert ByteOk(s, e, addr) && ByteOk(s, e, v);
    assert Slot(Stored(s, addr, byte), SectorOf(v), SubPage(v)) == Home(s, v);
    assert SlotOk(s, e, SectorOf(addr), SubPage(addr)) && SlotOk(s, e, SectorOf(v), SubPage(v));
    if Home(s, v) != 0 {
      if Home(s, v) == Home(s, addr) {
        assert Apart(s, SectorOf(v), SubPage(v), SectorOf(addr), SubPage(addr));
        SamePage(v, addr);
        SamePage(addr, addr);
      } else {
        FramesApart(Home(s, addr), Home(s, v), addr % PAGE);
      }
    }
  }

  /**
   * What happens to the machine meanwhile: an access of the program, or anything that others do to
   * memory, to the rest of the user map, and with frames of their own.
   */
  datatype Event =
    | Program(access: Access)
    | Others(user: map<nat, Mapping>, memory: seq<bv8>, taken: set<nat>, freed: set<nat>)

  datatype Run = Run(states: seq<Space>, events: seq<Event>)

  /** The state before any page was touched: nothing of the program mapped, the image in memory. */
  ghost predicate Init(s: Space, e: Image) {
    && Shaped(s, e) && Intact(s, e)
    && (forall i | 0 <= i < |s.sectors| :: s.sectors[i].mode == 0)
    && (forall v: nat | InImage(e, v) :: v !in s.user)
  }

  /** A map just built over an image that nobody has mapped is such a state, whatever else is allocated. */
  lemma NewMapStarts(e: Image, user: map<nat, Mapping>, memory: seq<bv8>, live: set<nat>)
    requires Aligned(e) && Intact(Space([], user, memory, live), e) && (forall v: nat | InImage(e, v) :: v !in user)
    ensures Init(Space(seq(|e.bytes| / SECTOR, _ => Sector(0, [])), user, memory, live), e)
    ensures Owned(Space(seq(|e.bytes| / SECTOR, _ => Sector(0, [])), user, memory, live)) == {}
  {
    var s := Space(seq(|e.bytes| / SECTOR, _ => Sector(0, [])), user, memory, live);
    assert forall i: nat, j: nat :: Slot(s, i, j) == 0;
  }

  /** A permitted access is made at once; one that faults is served first. */
  ghost predicate Accesses(s: Space, e: Image, x: Access, s': Space) {
    && Shaped(s, e) && InImage(e, x.addr)
    && (x.Store? && Faults(s, x.addr, true) ==> Fresh(s, e, x.frame))
    && (x.Store? ==>
          x.addr in Served(s, e, x).user && Served(s, e, x).user[x.addr].phys < |s'.memory| == |Served(s, e, x).memory|)
    && s' == if x.Store? then Stored(Served(s, e, x), x.addr, x.byte) else Served(s, e, x)
  }

  /** The byte of memory belongs to the image or to a frame that the program owns. */
  ghost predicate Its(s: Space, e: Image, a: nat) {
    Within(a, e.memory, |e.bytes|) || exists w :: w in Owned(s) && Within(a, w, PAGE)
  }

  ghost predicate SameWhereOwned(s: Space, e: Image, memory: seq<bv8>) {
    |memory| == |s.memory| && forall a: nat | a < |memory| && Its(s, e, a) :: memory[a] == s.memory[a]
  }

  /** Others keep their hands off the image, the program's frames and the program's part of the user map. */
  ghost predicate Interferes(s: Space, e: Image, x: Event, s': Space)
    requires x.Others?
  {
    && SameWhereOwned(s, e, x.memory) && x.taken !! s.live && x.freed <= s.live && x.freed !! Owned(s)
    && (forall v: nat | InImage(e, v) :: (v in x.user <==> v in s.user) && (v in s.user ==> x.user[v] == s.user[v]))
    && s' == s.(user := x.user, memory := x.memory, live := s.live - x.freed + x.taken)
  }

  ghost predicate Follows(s: Space, e: Image, x: Event, s': Space) {
    match x
    case Program(a) => Accesses(s, e, a, s')
    case Others(_, _, _, _) => Interferes(s, e, x, s')
  }

  ghost predicate IsRun(r: Run, e: Image) {
    && |r.states| == |r.events| + 1 && Init(r.states[0], e)
    && forall i | 0 <= i < |r.events| :: Follows(r.states[i], e, r.events[i], r.states[i + 1])
  }

  lemma ServedKeeps(s: Space, e: Image, x: Access)
    requires Inv(s, e) && InImage(e, x.addr) && (x.Store? && Faults(s, x.addr, true) ==> Fresh(s, e, x.frame))
    ensures Inv(Served(s, e, x), e) && SameView(s, Served(s, e, x), e) && Permits(Served(s, e, x), x.addr, x.Store?)
    ensures var s' := Served(s, e, x); var added := if x.Store? && Faults(s, x.addr, true) then {x.frame} else {};
            s'.live == s.live + added && Owned(s') == Owned(s) + added
  {
    if Faults(s, x.addr, x.Store?) { HandledFaultPermits(s, e, x.addr, x.Store?, if x.Store? then x.frame else 0); }
  }

  /** One access changes what the program sees at its own address, and only if it is a store. */
  lemma AccessKeeps(s: Space, e: Image, x: Access, s': Space)
    requires Inv(s, e) && Accesses(s, e, x, s')
    ensures Inv(s', e) && (x.Load? ==> Permits(s', x.addr, false))
    ensures forall v: nat | InImage(e, v) :: View(s', e, v) == if x.Store? && v == x.addr then x.byte else View(s, e, v)
    ensures var added := if x.Store? && Faults(s, x.addr, true) then {x.frame} else {};
            s'.live == s.live + added && Owned(s') == Owned(s) + added
  {
    ServedKeeps(s, e, x);
    if x.Store? { StoreKeeps(Served(s, e, x), e, x.addr, x.byte); }
  }

  /** Whatever others do, the program sees what it saw. */
  lemma OthersKeep(s: Space, e: Image, x: Event, s': Space)
    requires Inv(s, e) && x.Others? && Interferes(s, e, x, s')
    ensures Inv(s', e) && SameView(s, s', e) && Owned(s') == Owned(s)
  {
    assert forall i: nat, j: nat :: Slot(s', i, j) == Slot(s, i, j);
    SameSlots(s, s');
    forall i: nat, j: nat ensures SlotOk(s', e, i, j) {
      assert SlotOk(s, e, i, j);
      if Slot(s, i, j) != 0 { SlotOwned(s, i, j); }
    }
    forall i: nat, j: nat, k: nat, l: nat ensures Apart(s', i, j, k, l) { assert Apart(s, i, j, k, l); }
    forall v: nat | InImage(e, v) ensures ByteOk(s', e, v) && View(s', e, v) == View(s, e, v) {
      assert ByteOk(s, e, v);
      OthersSpare(s, e, x, s', v);
    }
    forall k | 0 <= k < |e.bytes| ensures s'.memory[e.memory + k] == e.bytes[k] {
      assert s.memory[e.memory + k] == e.bytes[k];
      assert Its(s, e, e.memory + k);
    }
  }

  lemma OthersSpare(s: Space, e: Image, x: Event, s': Space, v: nat)
    requires Inv(s, e) && x.Others? && Interferes(s, e, x, s') && InImage(e, v)
    ensures View(s', e, v) == View(s, e, v)
  {
    var w := Home(s, v);
    assert Home(s', v) == w;
    assert SlotOk(s, e, SectorOf(v), SubPage(v));
    if w != 0 {
      SlotOwned(s, SectorOf(v), SubPage(v));
      assert Within(w + v % PAGE, w, PAGE);
      assert Its(s, e, w + v % PAGE);
    }
  }

  lemma SlotOwned(s: Space, i: nat, j: nat)
    requires Slot(s, i, j) != 0 && forall k | 0 <= k < |s.sectors| ::
      s.sectors[k].mode == 2 ==> |s.sectors[k].writables| == PAGES
    ensures Slot(s, i, j) in Owned(s)
  {
    assert i < |s.sectors| && j < PAGES;
  }

  lemma InitInv(s: Space, e: Image)
    requires Init(s, e)
    ensures Inv(s, e) && Owned(s) == {}
  {
    assert forall i: nat, j: nat :: Slot(s, i, j) == 0;
    forall v: nat | InImage(e, v) ensures ByteOk(s, e, v) { SectorInRange(s, e, v); }
    forall i: nat, j: nat ensures SlotOk(s, e, i, j) { assert Slot(s, i, j) == 0; }
    forall i: nat, j: nat, k: nat, l: nat ensures Apart(s, i, j, k, l) { assert Slot(s, i, j) == 0; }
  }

  /** Every event keeps the invariant and changes what the program sees only as the flat array does. */
  lemma EventKeeps(s: Space, e: Image, x: Event, s': Space)
    requires Inv(s, e) && Follows(s, e, x, s')
    ensures Inv(s', e)
    ensures forall v: nat | InImage(e, v) ::
              View(s', e, v)
              == if x.Program? && x.access.Store? && v == x.access.addr then x.access.byte else View(s, e, v)
  {
    match x
    case Program(a) => AccessKeeps(s, e, a, s');
    case Others(_, _, _, _) => OthersKeep(s, e, x, s');
  }

  lemma {:induction false} RunInv(r: Run, e: Image, n: nat)
    requires IsRun(r, e) && n < |r.states|
    ensures Inv(r.states[n], e)
  {
    if n == 0 {
      InitInv(r.states[0], e);
    } else {
      RunInv(r, e, n - 1);
      EventKeeps(r.states[n - 1], e, r.events[n - 1], r.states[n]);
    }
  }

  /** No run is held up by the side conditions of `Accesses`: an access inside the program always goes through. */
  lemma AccessesGoThrough(r: Run, e: Image, x: Access)
    requires IsRun(r, e) && InImage(e, x.addr)
    requires var s := r.states[|r.events|]; x.Store? && Faults(s, x.addr, true) ==> Fresh(s, e, x.frame)
    ensures exists s' :: Accesses(r.states[|r.events|], e, x, s')
  {
    var s := r.states[|r.events|];
    RunInv(r, e, |r.events|);
    ServedKeeps(s, e, x);
    if x.Store? {
      StoreKeeps(Served(s, e, x), e, x.addr, x.byte);
      assert Accesses(s, e, x, Stored(Served(s, e, x), x.addr, x.byte));
    } else {
      assert Accesses(s, e, x, Served(s, e, x));
    }
  }

  // ---- refinement --------------------------------------------------------

  /** The flat private array: it starts as the image, and only the program's stores change it. */
  function Flat(e: Image, xs: seq<Event>): (r: seq<bv8>)
    ensures |r| == |e.bytes|
  {
    if xs == [] then e.bytes
    else
      var before := Flat(e, xs[..|xs| - 1]);
      match xs[|xs| - 1]
      case Program(Store(addr, byte, _)) => if InImage(e, addr) then before[addr - START := byte] else before
      case _ => before
  }

  lemma {:induction false} ViewIsFlat(r: Run, e: Image, n: nat, v: nat)
    requires IsRun(r, e) && n < |r.states| && InImage(e, v)
    ensures View(r.states[n], e, v) == Flat(e, r.events[..n])[v - START]
  {
    if n == 0 {
      InitInv(r.states[0], e);
      SectorInRange(r.states[0], e, v);
    } else {
      ViewIsFlat(r, e, n - 1, v);
      RunInv(r, e, n - 1);
      EventKeeps(r.states[n - 1], e, r.events[n - 1], r.states[n]);
      assert r.events[..n][..n - 1] == r.events[..n - 1] && r.events[..n][n - 1] == r.events[n - 1];
    }
  }

  lemma MappedShowsView(s: Space, e: Image, v: nat)
    requires Inv(s, e) && InImage(e, v) && v in s.user
    ensures s.user[v].phys < |s.memory| && s.memory[s.user[v].phys] == View(s, e, v)
  {
    assert ByteOk(s, e, v);
    assert SlotOk(s, e, SectorOf(v), SubPage(v));
    assert s.memory[e.memory + (v - START)] == e.bytes[v - START];
  }

  /**
   * Copy on write is invisible: every load, through whatever mapping it finds or is given, returns
   * what the flat private array holds after the program's accesses before it, whatever others have
   * done to the machine meanwhile.
   */
  lemma LoadsReturnFlat(r: Run, e: Image, n: nat)
    requires IsRun(r, e) && n < |r.events| && r.events[n].Program? && r.events[n].access.Load?
    ensures var s, v := r.states[n + 1], r.events[n].access.addr;
            v in s.user && s.user[v].phys < |s.memory|
            && InImage(e, v) && s.memory[s.user[v].phys] == Flat(e, r.events[..n])[v - START]
  {
    var x := r.events[n].access;
    RunInv(r, e, n);
    assert Follows(r.states[n], e, r.events[n], r.states[n + 1]);
    AccessKeeps(r.states[n], e, x, r.states[n + 1]);
    ViewIsFlat(r, e, n, x.addr);
    MappedShowsView(r.states[n + 1], e, x.addr);
  }

  /** The image itself is never written, so that every program started from it begins with the same bytes. */
  lemma ImageUnchanged(r: Run, e: Image, n: nat)
    requires IsRun(r, e) && n < |r.states|
    ensures Intact(r.states[n], e)
  {
    RunInv(r, e, n);
  }

  // ---- frames ------------------------------------------------------------

  /** The frames of others: those allocated at the start, and what others have done since. */
  function Foreign(r: Run, n: nat): set<nat>
    requires n <= |r.events| < |r.states|
  {
    if n == 0 then r.states[0].live
    else
      match r.events[n - 1]
      case Program(_) => Foreign(r, n - 1)
      case Others(_, _, taken, freed) => Foreign(r, n - 1) - freed + taken
  }

  /**
   * The frames allocated and not freed are those of others and, apart from these, exactly the
   * non-zero writables of the program; no two of its pages share one.
   */
  lemma {:induction false} FramesConserved(r: Run, e: Image, n: nat)
    requires IsRun(r, e) && n < |r.states|
    ensures r.states[n].live == Foreign(r, n) + Owned(r.states[n]) && Foreign(r, n) !! Owned(r.states[n])
    ensures forall i: nat, j: nat, k: nat, l: nat :: Apart(r.states[n], i, j, k, l)
  {
    RunInv(r, e, n);
    if n == 0 {
      InitInv(r.states[0], e);
    } else {
      FramesConserved(r, e, n - 1);
      RunInv(r, e, n - 1);
      assert Follows(r.states[n - 1], e, r.events[n - 1], r.states[n]);
      match r.events[n - 1]
      case Program(x) => AccessKeeps(r.states[n - 1], e, x, r.states[n]);
      case Others(_, _, _, _) => OthersKeep(r.states[n - 1], e, r.events[n - 1], r.states[n]);
    }
  }

  /** A fault served copies into the new frame and writes nothing else. */
  lemma ServedMemory(t: Space, e: Image, x: Access, a: nat)
    requires Inv(t, e) && InImage(e, x.addr) && a < |t.memory|
    requires x.Store? && Faults(t, x.addr, true) ==> !Within(a, x.frame, PAGE)
    ensures |Served(t, e, x).memory| == |t.memory| && Served(t, e, x).memory[a] == t.memory[a]
  {
    SectorInRange(t, e, x.addr);
    PageInImage(e, x.addr);
  }

  /** An access of a program changes memory only in the frames that it owns afterwards. */
  lemma ChangesOwnFrames(t: Space, e: Image, x: Access, t': Space, a: nat)
    requires Inv(t, e) && Accesses(t, e, x, t') && a < |t.memory|
    requires forall w | w in Owned(t') :: !Within(a, w, PAGE)
    ensures |t'.memory| == |t.memory| && t'.memory[a] == t.memory[a]
  {
    AccessKeeps(t, e, x, t');
    ServedKeeps(t, e, x);
    ServedMemory(t, e, x, a);
    var t1 := Served(t, e, x);
    if x.Store? {
      StoreKeeps(t1, e, x.addr, x.byte);
      assert ByteOk(t1, e, x.addr);
      SlotOwned(t1, SectorOf(x.addr), SubPage(x.addr));
    }
  }

  /** No frame of the program meets the image, which may be another program's. */
  ghost predicate Clear(s: Space, e: Image) {
    forall w | w in Owned(s) :: GoodFrame(s, e, w)
  }

  /** So it changes neither another program's image nor a frame of that program. */
  lemma ForeignMemory(s: Space, e: Image, t: Space, f: Image, x: Access, t': Space)
    requires Inv(s, e) && Inv(t, f) && t.memory == s.memory && t.live == s.live
    requires Accesses(t, f, x, t') && Clear(t', e) && Owned(s) !! Owned(t') && |t'.memory| == |t.memory|
    ensures SameWhereOwned(s, e, t'.memory)
  {
    forall a: nat | a < |t'.memory| && Its(s, e, a) ensures t'.memory[a] == s.memory[a] {
      forall w | w in Owned(t') ensures !Within(a, w, PAGE) {
        assert GoodFrame(t', e, w);
        if !Within(a, e.memory, |e.bytes|) {
          var v :| v in Owned(s) && Within(a, v, PAGE);
          OwnedGood(s, e, v);
          FramesApart(v, w, a - v);
        }
      }
      ChangesOwnFrames(t, f, x, t', a);
    }
  }

  lemma OwnedGood(s: Space, e: Image, w: nat)
    requires Inv(s, e) && w in Owned(s)
    ensures GoodFrame(s, e, w)
  {
    var i: nat, j: nat :| i < |s.sectors| && j < PAGES && Slot(s, i, j) != 0 && w == Slot(s, i, j);
    assert SlotOk(s, e, i, j);
  }

  /** An access leaves the size of memory as it is. */
  lemma AccessSize(t: Space, f: Image, x: Access, t': Space)
    requires Inv(t, f) && Accesses(t, f, x, t')
    ensures |t'.memory| == |t.memory|
  {
    SectorInRange(t, f, x.addr);
    PageInImage(f, x.addr);
  }

  /**
   * Programs are isolated.  Let t, started from image f, make an access.  To another program s on
   * the same machine, started from e, this is only an interference of the kind that its own results
   * allow for.  The frames that t gets must not be in image e, as they are not when e and f are the
   * same image (SharedImageClear).
   */
  lemma ProgramsIsolated(s: Space, e: Image, t: Space, f: Image, x: Access, t': Space)
    requires Inv(s, e) && Inv(t, f) && t.memory == s.memory && t.live == s.live && Owned(s) !! Owned(t)
    requires Clear(t, e) && Accesses(t, f, x, t') && (x.Store? && Faults(t, x.addr, true) ==> GoodFrame(t, e, x.frame))
    ensures var y := Others(s.user, t'.memory, t'.live - t.live, {});
            Interferes(s, e, y, s.(memory := t'.memory, live := t'.live))
    ensures Owned(s) !! Owned(t') && Clear(t', e)
  {
    AccessKeeps(t, f, x, t');
    AccessSize(t, f, x, t');
    OwnedLive(s, e);
    ForeignMemory(s, e, t, f, x, t');
  }

  /** Programs started from one image meet the conditions of ProgramsIsolated. */
  lemma SharedImageClear(t: Space, e: Image, x: Access, t': Space)
    requires Inv(t, e) && Accesses(t, e, x, t')
    ensures Clear(t, e) && (x.Store? && Faults(t, x.addr, true) ==> GoodFrame(t, e, x.frame))
  {
    forall w | w in Owned(t) ensures GoodFrame(t, e, w) { OwnedGood(t, e, w); }
  }

  // ---- freeing everything ------------------------------------------------

  /** The frames of the pages from page j of sector i on. */
  function Rest(s: Space, i: nat, j: nat): set<nat> {
    set k: nat, l: nat | k < |s.sectors| && l < PAGES && (k > i || (k == i && l >= j)) && Slot(s, k, l) != 0 ::
      Slot(s, k, l)
  }

  lemma RestSplits(s: Space, i: nat, j: nat)
    requires i < |s.sectors| && j < PAGES
    ensures Rest(s, i, j) == Rest(s, i, j + 1) + (if Slot(s, i, j) != 0 then {Slot(s, i, j)} else {})
    ensures Rest(s, i, PAGES) == Rest(s, i + 1, 0) && Rest(s, 0, 0) == Owned(s) && Rest(s, |s.sectors|, 0) == {}
  {
    if Slot(s, i, j) != 0 { assert Slot(s, i, j) in Rest(s, i, j); }
  }

  /** No two pages share a frame, so the frame of this page is not met again. */
  lemma FreedOnce(s: Space, i: nat, j: nat)
    requires Slot(s, i, j) != 0 && forall k: nat, l: nat :: Apart(s, i, j, k, l)
    ensures Slot(s, i, j) !in Rest(s, i, j + 1)
  {
    forall k: nat, l: nat | k > i || (k == i && l > j)
      ensures Slot(s, k, l) != Slot(s, i, j)
    {
      assert Apart(s, i, j, k, l);
    }
  }

  lemma NothingPrivate(s: Space, i: nat)
    requires i < |s.sectors| && s.sectors[i].mode != 2
    ensures Rest(s, i, 0) == Rest(s, i + 1, 0)
  {
    assert forall j: nat :: Slot(s, i, j) == 0;
  }
}
