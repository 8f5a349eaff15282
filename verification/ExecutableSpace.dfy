/**
 * A program's image in user space, copied on the first write.  Sectors of 2 MB are mapped
 * read-only as a whole until something in them is written; from then on they are mapped in pages
 * of 4 KB, which stay shared with the image until they are written themselves.
 *
 * The user map is modelled byte by byte.  Memory is the machine's physical memory.
 */
module ExecutableSpace {

  const START: nat := 0x80_0000_0000
  const SECTOR: nat := 0x20_0000
  const PAGE: nat := 0x1000
  const PAGES: nat := 0x200

  /** The executable: where its memory is, and what was in it at the start. */
  datatype Image = Image(memory: nat, bytes: seq<bv8>)

  /** Both must be aligned to 2 MB, as the executable's constructor demands. */
  predicate Aligned(e: Image) {
    e.memory % SECTOR == 0 && |e.bytes| % SECTOR == 0
  }

  datatype Mapping = Mapping(phys: nat, writable: bool)

  /** mode: 0 is unmapped, 1 is read-only, 2 is mapped page by page. */
  datatype Sector = Sector(mode: int, writables: seq<nat>)

  /** `live` is what was allocated and not freed. */
  datatype Space = Space(sectors: seq<Sector>, user: map<nat, Mapping>, memory: seq<bv8>, live: set<nat>)

  // ---- the user map and physical memory ----------------------------------

  predicate Within(a: nat, addr: nat, size: nat) {
    addr <= a < addr + size
  }

  function MapAt(user: map<nat, Mapping>, addr: nat, phys: nat, size: nat, writable: bool): map<nat, Mapping> {
    user + map a | addr <= a < addr + size && Within(a, addr, size) :: Mapping(phys + (a - addr), writable)
  }

  function Unmap(user: map<nat, Mapping>, addr: nat, size: nat): map<nat, Mapping> {
    map a | a in user && !Within(a, addr, size) :: user[a]
  }

  /** One page copied from src to dst. */
  function Copied(memory: seq<bv8>, dst: nat, src: nat): (r: seq<bv8>)
    requires src + PAGE <= |memory|
    ensures |r| == |memory|
  {
    seq(|memory|, a requires 0 <= a < |memory| => if dst <= a < dst + PAGE then memory[src + (a - dst)] else memory[a])
  }

  predicate Permits(s: Space, addr: nat, write: bool) {
    addr in s.user && (write ==> s.user[addr].writable)
  }

  // ---- the fault handler -------------------------------------------------

  function PageOf(addr: nat): nat {
    addr - addr % PAGE
  }

  function SectorOf(addr: nat): nat
    requires addr >= START
  {
    (addr - START) / SECTOR
  }

  function SubPage(addr: nat): (j: nat)
    ensures j < PAGES
  {
    (addr % SECTOR) / PAGE
  }

  predicate InImage(e: Image, addr: nat) {
    START <= addr < START + |e.bytes|
  }

  /** The state the handler is meant to work in: one sector for each 2 MB, and the image in memory. */
  predicate Shaped(s: Space, e: Image) {
    && Aligned(e) && |s.sectors| == |e.bytes| / SECTOR && e.memory + |e.bytes| <= |s.memory|
    && forall i | 0 <= i < |s.sectors| :: s.sectors[i].mode == 2 ==> |s.sectors[i].writables| == PAGES
  }

  lemma SectorInRange(s: Space, e: Image, addr: nat)
    requires Shaped(s, e) && InImage(e, addr)
    ensures SectorOf(addr) < |s.sectors|
  {
  }

  function MapROLargePage(s: Space, e: Image, i: nat): Space
    requires i < |s.sectors|
  {
    s.(user := MapAt(s.user, START + i * SECTOR, e.memory + i * SECTOR, SECTOR, false),
       sectors := s.sectors[i := s.sectors[i].(mode := 1)])
  }

  function MapROSmallPage(s: Space, e: Image, i: nat, page: nat): Space {
    s.(user := MapAt(s.user, START + i * SECTOR + page % SECTOR, e.memory + i * SECTOR + page % SECTOR, PAGE, false))
  }

  function SwitchToWritable(s: Space, i: nat): Space
    requires i < |s.sectors|
  {
    s.(user := if s.sectors[i].mode == 1 then Unmap(s.user, START + i * SECTOR, SECTOR) else s.user,
       sectors := s.sectors[i := Sector(2, seq(PAGES, _ => 0))])
  }

  function MapWritablePage(s: Space, e: Image, i: nat, page: nat, frame: nat): Space
    requires i < |s.sectors| && |s.sectors[i].writables| == PAGES
    requires page >= START && e.memory + (page - START) + PAGE <= |s.memory|
  {
    var j := SubPage(page);
    s.(live := s.live + {frame},
       sectors := s.sectors[i := s.sectors[i].(writables := s.sectors[i].writables[j := frame])],
       user := MapAt(s.user, page, frame, PAGE, true),
       memory := Copied(s.memory, frame, e.memory + (page - START)))
  }

  function HandleReadFault(s: Space, e: Image, i: nat, page: nat): Space
    requires i < |s.sectors|
  {
    if s.sectors[i].mode == 0 then MapROLargePage(s, e, i)
    else if s.sectors[i].mode == 2 then MapROSmallPage(s, e, i, page)
    else s
  }

  function HandleWriteFault(s: Space, e: Image, i: nat, page: nat, frame: nat): Space
    requires Shaped(s, e) && i < |s.sectors| && page >= START && e.memory + (page - START) + PAGE <= |s.memory|
  {
    var s1 := if s.sectors[i].mode != 2 then SwitchToWritable(s, i) else s;
    MapWritablePage(s1, e, i, page, frame)
  }

  /** A page that starts below a multiple of the page size ends below it. */
  lemma PageBelow(addr: nat, limit: nat)
    requires limit % PAGE == 0 && addr < limit
    ensures PageOf(addr) + PAGE <= limit
  {
    assert addr / PAGE < limit / PAGE;
  }

  lemma SectorsArePages(n: nat)
    requires n % SECTOR == 0
    ensures n % PAGE == 0
  {
    assert n == n / SECTOR * PAGES * PAGE;
  }

  lemma PageInImage(e: Image, addr: nat)
    requires Aligned(e) && InImage(e, addr)
    ensures PageOf(addr) >= START && PageOf(addr) - START + PAGE <= |e.bytes|
  {
    SectorsArePages(|e.bytes|);
    PageBelow(addr - START, |e.bytes|);
    assert START % PAGE == 0 && addr % PAGE == (addr - START) % PAGE;
  }

  /** `frame` is what AllocPhys returns if it is called. */
  function HandlePageFault(s: Space, e: Image, addr: nat, write: bool, frame: nat): (Space, bool)
    requires Shaped(s, e)
  {
    if !InImage(e, addr) then (s, false)
    else
      SectorInRange(s, e, addr);
      PageInImage(e, addr);
      var i := SectorOf(addr);
      if write then (HandleWriteFault(s, e, i, PageOf(addr), frame), true)
      else (HandleReadFault(s, e, i, PageOf(addr)), true)
  }
}
