/**
 * The executable map as the code has it: an array of sectors, each with an array of frames once
 * it is writable, over a user map and the physical memory.  Every method is specified by the
 * function of the same name in module ExecutableSpace.
 */
module ExecutableMap {
  import opened ExecutableSpace
  import opened ExecutableProofs

  /** Physical memory and what was allocated from it. */
  class Domain {
    var memory: seq<bv8>
    var live: set<nat>

    constructor (m: seq<bv8>)
      ensures memory == m && live == {}
    {
      memory, live := m, {};
    }

    /** Hands out `page`: which page that is, is up to the allocator. */
    method AllocPhys(page: nat)
      requires page !in live
      modifies this`live
      ensures live == old(live) + {page}
    {
      live := live + {page};
    }

    method FreePhys(page: nat)
      requires page in live
      modifies this`live
      ensures live == old(live) - {page}
    {
      live := live - {page};
    }

    method Memcpy(dst: nat, src: nat)
      requires src + PAGE <= |memory|
      modifies this`memory
      ensures memory == Copied(old(memory), dst, src)
    {
      memory := Copied(memory, dst, src);
    }
  }

  class UserMap {
    var entries: map<nat, Mapping>

    constructor ()
      ensures entries == map[]
    {
      entries := map[];
    }

    method MapAt(addr: nat, phys: nat, size: nat, writable: bool)
      modifies this
      ensures entries == ExecutableSpace.MapAt(old(entries), addr, phys, size, writable)
    {
      entries := ExecutableSpace.MapAt(entries, addr, phys, size, writable);
    }

    method UnmapAndReserve(addr: nat, size: nat)
      modifies this
      ensures entries == Unmap(old(entries), addr, size)
    {
      entries := Unmap(entries, addr, size);
    }
  }

  datatype SectorRec = SectorRec(mode: int, writables: array?<nat>, virtualAddr: nat, readOnlyAddr: nat)

  class ExecutableMap {
    const executable: Image
    const userMap: UserMap
    const domain: Domain
    const sectors: array<SectorRec>

    function Writables(c: SectorRec): seq<nat>
      reads c.writables
    {
      if c.writables == null then [] else c.writables[..]
    }

    function Arrays(): set<object>
      reads this, sectors
    {
      set i | 0 <= i < sectors.Length && sectors[i].writables != null :: sectors[i].writables
    }

    function SectorValues(): (r: seq<Sector>)
      reads this, sectors, Arrays()
      ensures |r| == sectors.Length
      ensures forall i | 0 <= i < sectors.Length :: r[i] == Sector(sectors[i].mode, Writables(sectors[i]))
    {
      seq(sectors.Length, i requires 0 <= i < sectors.Length reads this, sectors, Arrays() =>
        Sector(sectors[i].mode, Writables(sectors[i])))
    }

    function Value(): Space
      reads this, sectors, Arrays(), userMap, domain
    {
      Space(SectorValues(), userMap.entries, domain.memory, domain.live)
    }

    /** Sector i covers the i-th 2 MB of the image, and has an array of frames exactly in mode 2. */
    predicate Laid(i: nat, c: SectorRec) {
      && c.virtualAddr == START + i * SECTOR && c.readOnlyAddr == executable.memory + i * SECTOR
      && (c.mode == 2 <==> c.writables != null) && (c.writables != null ==> c.writables.Length == PAGES)
    }

    /** The sectors are laid out over the image, and the writable ones have an array each. */
    predicate Valid()
      reads this, sectors, domain
    {
      && Aligned(executable) && sectors.Length == |executable.bytes| / SECTOR
      && executable.memory + |executable.bytes| <= |domain.memory|
      && (forall i | 0 <= i < sectors.Length :: Laid(i, sectors[i]))
      && (forall i, j | 0 <= i < j < sectors.Length && sectors[i].writables != null ::
          sectors[i].writables != sectors[j].writables)
    }

    /** An image of at least one sector, not mapped anywhere yet. */
    constructor (e: Image, m: UserMap, d: Domain)
      requires Aligned(e) && 0 < |e.bytes| && e.memory + |e.bytes| <= |d.memory|
      ensures Valid() && executable == e && userMap == m && domain == d && fresh(sectors)
      ensures Value() == Space(seq(|e.bytes| / SECTOR, _ => Sector(0, [])), m.entries, d.memory, d.live)
    {
      executable, userMap, domain := e, m, d;
      var count := |e.bytes| / SECTOR;
      sectors := new SectorRec[count](_ => SectorRec(0, null, 0, 0));
      new;
      var i := 0;
      while i < count
        modifies sectors
        invariant 0 <= i <= count
        invariant forall k | 0 <= k < count :: sectors[k].mode == 0 && sectors[k].writables == null
        invariant forall k | 0 <= k < i :: Laid(k, sectors[k])
      {
        var offset := i * SECTOR;
        sectors[i] := sectors[i].(virtualAddr := START + offset, readOnlyAddr := e.memory + offset);
        i := i + 1;
      }
      assert SectorValues() == seq(count, _ => Sector(0, []));
    }

    method HandlePageFault(addr: nat, write: bool, frame: nat) returns (handled: bool)
      requires Valid() && (write ==> frame !in domain.live)
      modifies sectors, Arrays(), userMap, domain
      ensures Valid()
      ensures (Value(), handled) == ExecutableSpace.HandlePageFault(old(Value()), executable, addr, write, frame)
    {
      if addr < START || addr >= START + |executable.bytes| { return false; }
      var idx := (addr - START) / SECTOR;
      SectorInRange(Value(), executable, addr);
      PageInImage(executable, addr);
      var page := addr - addr % PAGE;
      if write {
        HandleWriteFault(idx, page, frame);
      } else {
        HandleReadFault(idx, page);
      }
      return true;
    }

    method HandleReadFault(i: nat, page: nat)
      requires Valid() && i < sectors.Length
      modifies sectors, userMap
      ensures Valid() && Value() == ExecutableSpace.HandleReadFault(old(Value()), executable, i, page)
    {
      if sectors[i].mode == 0 {
        MapROLargePage(i);
      } else if sectors[i].mode == 2 {
        MapROSmallPage(i, page);
      }
    }

    method HandleWriteFault(i: nat, page: nat, frame: nat)
      requires Valid() && i < sectors.Length && frame !in domain.live
      requires page >= START && executable.memory + (page - START) + PAGE <= |domain.memory|
      modifies sectors, Arrays(), userMap, domain
      ensures Valid() && Value() == ExecutableSpace.HandleWriteFault(old(Value()), executable, i, page, frame)
    {
      if sectors[i].mode != 2 { SwitchToWritable(i); }
      MapWritablePage(i, page, frame);
    }

    method MapROLargePage(i: nat)
      requires Valid() && i < sectors.Length && sectors[i].mode == 0
      modifies sectors, userMap
      ensures Valid() && Value() == ExecutableSpace.MapROLargePage(old(Value()), executable, i)
    {
      ghost var was := SectorValues();
      userMap.MapAt(sectors[i].virtualAddr, sectors[i].readOnlyAddr, SECTOR, false);
      assert SectorValues() == was;
      sectors[i] := sectors[i].(mode := 1);
      assert SectorValues() == was[i := was[i].(mode := 1)];
    }

    method MapROSmallPage(i: nat, page: nat)
      requires Valid() && i < sectors.Length
      modifies userMap
      ensures Valid() && Value() == ExecutableSpace.MapROSmallPage(old(Value()), executable, i, page)
    {
      ghost var was := SectorValues();
      var subIndex := page % SECTOR;
      userMap.MapAt(sectors[i].virtualAddr + subIndex, sectors[i].readOnlyAddr + subIndex, PAGE, false);
      assert SectorValues() == was;
    }

    method SwitchToWritable(i: nat)
      requires Valid() && i < sectors.Length && sectors[i].mode != 2
      modifies sectors, userMap
      ensures Valid() && Value() == ExecutableSpace.SwitchToWritable(old(Value()), i)
      ensures sectors[i].writables != null && fresh(sectors[i].writables)
      ensures forall k | 0 <= k < sectors.Length && k != i :: sectors[k] == old(sectors[k])
    {
      if sectors[i].mode == 1 { userMap.UnmapAndReserve(sectors[i].virtualAddr, SECTOR); }
      var frames := new nat[PAGES](_ => 0);
      sectors[i] := sectors[i].(writables := frames, mode := 2);
      assert frames[..] == seq(PAGES, _ => 0);
      assert SectorValues() == old(SectorValues())[i := Sector(2, seq(PAGES, _ => 0))];
    }

    method RecordFrame(i: nat, pageIdx: nat, frame: nat)
      requires Valid() && i < sectors.Length && sectors[i].mode == 2 && pageIdx < PAGES
      modifies sectors[i].writables
      ensures var was := old(SectorValues());
        SectorValues() == was[i := was[i].(writables := was[i].writables[pageIdx := frame])]
    {
      ghost var was := SectorValues();
      sectors[i].writables[pageIdx] := frame;
      assert Writables(sectors[i]) == was[i].writables[pageIdx := frame];
    }

    method MapWritablePage(i: nat, page: nat, frame: nat)
      requires Valid() && i < sectors.Length && sectors[i].mode == 2 && frame !in domain.live
      requires page >= START && executable.memory + (page - START) + PAGE <= |domain.memory|
      modifies sectors[i].writables, userMap, domain
      ensures Valid() && Value() == ExecutableSpace.MapWritablePage(old(Value()), executable, i, page, frame)
    {
      domain.AllocPhys(frame);
      var pageIdx := (page % SECTOR) / PAGE;
      RecordFrame(i, pageIdx, frame);
      ghost var now := SectorValues();
      userMap.MapAt(page, frame, PAGE, true);
      assert SectorValues() == now;
      domain.Memcpy(frame, executable.memory + (page - START));
      assert SectorValues() == now;
    }

    /**
     * The destructor.  FreePhys may only be called on a live frame, so each frame of the map is
     * freed exactly once; the frames of others stay allocated.
     */
    method Delete()
      requires Valid() && Owned(Value()) <= domain.live
      requires forall i: nat, j: nat, k: nat, l: nat :: Apart(Value(), i, j, k, l)
      modifies domain`live
      ensures domain.live == old(domain.live) - old(Owned(Value()))
    {
      ghost var s := Value();
      ghost var others := domain.live - Owned(s);
      assert Rest(s, 0, 0) == Owned(s);
      var i := 0;
      while i < sectors.Length
        invariant 0 <= i <= sectors.Length && SectorValues() == s.sectors
        invariant domain.live == others + Rest(s, i, 0)
      {
        if sectors[i].mode == 2 {
          var j := 0;
          while j < PAGES
            invariant 0 <= j <= PAGES && SectorValues() == s.sectors
            invariant domain.live == others + Rest(s, i, j)
          {
            var writable := sectors[i].writables[j];
            assert writable == Slot(s, i, j);
            RestSplits(s, i, j);
            if writable != 0 {
              FreedOnce(s, i, j);
              SlotOwned(s, i, j);
              domain.FreePhys(writable);
            }
            j := j + 1;
          }
          RestSplits(s, i, 0);
        } else {
          NothingPrivate(s, i);
        }
        i := i + 1;
      }
      assert Rest(s, |s.sectors|, 0) == {};
    }
  }
}
