/** Exactly what of a program is mapped, and how, after any run. */
module ExecutableMapping {
  import opened ExecutableSpace
  import opened ExecutableProofs

  predicate SamePageAs(v: nat, addr: nat) {
    Within(v, PageOf(addr), PAGE)
  }

  /** How v's sector is mapped: 0 not at all, 1 as a whole, 2 page by page. */
  function ModeOf(s: Space, v: nat): int
    requires v >= START
  {
    if SectorOf(v) < |s.sectors| then s.sectors[SectorOf(v)].mode else 0
  }

  predicate Misses(s: Space, x: Access) {
    Faults(s, x.addr, x.Store?)
  }

  // ---- one access --------------------------------------------------------

  /** What an access does to v: to its sector's mode, to whether it is mapped, and to whether its page is private. */
  predicate Moves(s: Space, e: Image, x: Access, s': Space, v: nat)
    requires InImage(e, v) && InImage(e, x.addr)
  {
    var near := Misses(s, x) && SectorOf(x.addr) == SectorOf(v);
    && ModeOf(s', v) == (if !near then ModeOf(s, v) else if x.Store? then 2 else if ModeOf(s, v) == 0 then 1 else 2)
    && (v in s'.user <==>
        if !near then v in s.user
        else ModeOf(s', v) == 1 || SamePageAs(v, x.addr) || (ModeOf(s, v) == 2 && v in s.user))
    && (Home(s', v) != 0 <==> Home(s, v) != 0 || (near && x.Store? && SamePageAs(v, x.addr)))
  }

  lemma LargePageMoves(s: Space, e: Image, addr: nat, v: nat)
    requires Inv(s, e) && InImage(e, v) && InImage(e, addr)
    requires SectorOf(addr) < |s.sectors| && s.sectors[SectorOf(addr)].mode == 0 && Faults(s, addr, false)
    ensures Moves(s, e, Load(addr), MapROLargePage(s, e, SectorOf(addr)), v)
  {
    SectorInRange(s, e, v);
    SameSector(v, SectorOf(addr));
  }

  lemma SmallPageMoves(s: Space, e: Image, addr: nat, v: nat)
    requires Inv(s, e) && InImage(e, v) && InImage(e, addr)
    requires SectorOf(addr) < |s.sectors| && s.sectors[SectorOf(addr)].mode == 2 && Faults(s, addr, false)
    ensures Moves(s, e, Load(addr), MapROSmallPage(s, e, SectorOf(addr), PageOf(addr)), v)
  {
    SectorInRange(s, e, v);
    PageParts(addr);
    SamePage(v, addr);
  }

  /** Switching a sector to single pages unmaps all of it that was mapped as a whole. */
  lemma SwitchUnmaps(s: Space, e: Image, i: nat, v: nat)
    requires Inv(s, e) && i < |s.sectors| && s.sectors[i].mode != 2 && InImage(e, v)
    ensures ModeOf(SwitchToWritable(s, i), v) == if SectorOf(v) == i then 2 else ModeOf(s, v)
    ensures v in SwitchToWritable(s, i).user <==> SectorOf(v) != i && v in s.user
    ensures Home(SwitchToWritable(s, i), v) == Home(s, v)
  {
    assert ByteOk(s, e, v);
    SectorInRange(s, e, v);
    SameSector(v, i);
  }

  lemma WritableMoves(s: Space, e: Image, addr: nat, frame: nat, v: nat)
    requires Inv(s, e) && InImage(e, v) && InImage(e, addr)
    requires SectorOf(addr) < |s.sectors| && s.sectors[SectorOf(addr)].mode == 2
    requires Home(s, addr) == 0 && Fresh(s, e, frame)
    requires PageOf(addr) >= START && e.memory + (PageOf(addr) - START) + PAGE <= |s.memory|
    ensures var s' := MapWritablePage(s, e, SectorOf(addr), PageOf(addr), frame);
            && ModeOf(s', v) == ModeOf(s, v)
            && (v in s'.user <==> SamePageAs(v, addr) || v in s.user)
            && (Home(s', v) != 0 <==> Home(s, v) != 0 || SamePageAs(v, addr))
  {
    WritableSlots(s, e, addr, frame);
    SamePage(v, addr);
  }

  lemma WriteMoves(s: Space, e: Image, x: Access, v: nat)
    requires Inv(s, e) && InImage(e, v) && InImage(e, x.addr) && x.Store? && Misses(s, x) && Fresh(s, e, x.frame)
    ensures Moves(s, e, x, Served(s, e, x), v)
  {
    var i := SectorOf(x.addr);
    SectorInRange(s, e, x.addr);
    PageInImage(e, x.addr);
    PageParts(x.addr);
    assert ByteOk(s, e, x.addr);
    if s.sectors[i].mode != 2 {
      SwitchKeeps(s, e, i);
      SwitchUnmaps(s, e, i, v);
      SwitchUnmaps(s, e, i, x.addr);
      WritableMoves(SwitchToWritable(s, i), e, x.addr, x.frame, v);
    } else {
      WritableMoves(s, e, x.addr, x.frame, v);
    }
    SamePage(v, x.addr);
  }

  lemma ReadMoves(s: Space, e: Image, x: Access, v: nat)
    requires Inv(s, e) && InImage(e, v) && InImage(e, x.addr) && x.Load? && Misses(s, x)
    ensures Moves(s, e, x, Served(s, e, x), v)
  {
    SectorInRange(s, e, x.addr);
    PageInImage(e, x.addr);
    assert ByteOk(s, e, x.addr);
    if s.sectors[SectorOf(x.addr)].mode == 0 {
      LargePageMoves(s, e, x.addr, v);
    } else {
      SmallPageMoves(s, e, x.addr, v);
    }
  }

  lemma AccessMoves(s: Space, e: Image, x: Access, s': Space, v: nat)
    requires Inv(s, e) && Accesses(s, e, x, s') && InImage(e, v)
    ensures Moves(s, e, x, s', v)
  {
    if Misses(s, x) {
      if x.Store? { WriteMoves(s, e, x, v); } else { ReadMoves(s, e, x, v); }
    }
  }

  // ---- runs --------------------------------------------------------------

  /** Access k faulted in v's page and left v's sector mapped page by page. */
  predicate ServedAt(r: Run, k: nat, v: nat)
    requires v >= START
  {
    && k < |r.events| && k + 1 < |r.states| && r.events[k].Program?
    && Misses(r.states[k], r.events[k].access) && SamePageAs(v, r.events[k].access.addr)
    && ModeOf(r.states[k + 1], v) == 2
  }

  ghost predicate ServedBefore(r: Run, n: nat, v: nat)
    requires v >= START
  {
    exists k: nat :: k < n && ServedAt(r, k, v)
  }

  /** Access k was a store that faulted in v's page. */
  predicate WrittenAt(r: Run, k: nat, v: nat) {
    && k < |r.events| && k < |r.states| && r.events[k].Program? && r.events[k].access.Store?
    && Misses(r.states[k], r.events[k].access) && SamePageAs(v, r.events[k].access.addr)
  }

  ghost predicate WrittenBefore(r: Run, n: nat, v: nat) {
    exists k: nat :: k < n && WrittenAt(r, k, v)
  }

  ghost predicate Matches(r: Run, n: nat, v: nat)
    requires n < |r.states| && v >= START
  {
    && (v in r.states[n].user <==> ModeOf(r.states[n], v) == 1 || ServedBefore(r, n, v))
    && (ServedBefore(r, n, v) ==> ModeOf(r.states[n], v) == 2)
    && (Home(r.states[n], v) != 0 <==> WrittenBefore(r, n, v))
  }

  lemma ServedNext(r: Run, n: nat, v: nat)
    requires v >= START
    ensures ServedBefore(r, n + 1, v) <==> ServedBefore(r, n, v) || ServedAt(r, n, v)
    ensures WrittenBefore(r, n + 1, v) <==> WrittenBefore(r, n, v) || WrittenAt(r, n, v)
  {
  }

  lemma MatchesNext(r: Run, e: Image, n: nat, v: nat)
    requires IsRun(r, e) && n < |r.events| && InImage(e, v) && Matches(r, n, v)
    ensures Matches(r, n + 1, v)
  {
    RunInv(r, e, n);
    var s, s' := r.states[n], r.states[n + 1];
    assert Follows(s, e, r.events[n], s');
    ServedNext(r, n, v);
    match r.events[n]
    case Program(x) =>
      AccessMoves(s, e, x, s', v);
      SamePage(v, x.addr);
      assert ByteOk(s, e, v);
      SectorInRange(s, e, v);
    case Others(_, _, _, _) =>
  }

  lemma MatchesFirst(r: Run, e: Image, v: nat)
    requires IsRun(r, e) && InImage(e, v)
    ensures Matches(r, 0, v)
  {
    SectorInRange(r.states[0], e, v);
  }

  lemma {:induction false} RunMatches(r: Run, e: Image, n: nat, v: nat)
    requires IsRun(r, e) && n < |r.states| && InImage(e, v)
    ensures Matches(r, n, v)
  {
    if n == 0 {
      MatchesFirst(r, e, v);
    } else {
      RunMatches(r, e, n - 1, v);
      MatchesNext(r, e, n - 1, v);
    }
  }

  /**
   * A byte is mapped if and only if its sector is mapped as a whole, or an access faulted in its
   * page since the sector went over to single pages: nothing stays mapped from before.
   */
  lemma MappedExactly(r: Run, e: Image, n: nat, v: nat)
    requires IsRun(r, e) && n < |r.states| && InImage(e, v)
    ensures v in r.states[n].user <==> ModeOf(r.states[n], v) == 1 || ServedBefore(r, n, v)
  {
    RunMatches(r, e, n, v);
  }

  /**
   * A page is private if and only if it was written.  What is mapped of a private page is its own
   * frame, writable; of any other, the image, read-only.
   */
  lemma PrivateExactlyWhenWritten(r: Run, e: Image, n: nat, v: nat)
    requires IsRun(r, e) && n < |r.states| && InImage(e, v)
    ensures Home(r.states[n], v) != 0 <==> WrittenBefore(r, n, v)
    ensures v in r.states[n].user ==>
      r.states[n].user[v] == if WrittenBefore(r, n, v) then Mapping(Home(r.states[n], v) + v % PAGE, true)
                             else Mapping(e.memory + (v - START), false)
  {
    RunMatches(r, e, n, v);
    RunInv(r, e, n);
    assert ByteOk(r.states[n], e, v);
  }
}
