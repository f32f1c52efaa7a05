/** The boot-time page allocator and the regions it leaves to user space (kern/alloc.c). */
module PageAlloc {
  import opened Arith
  import opened Wrappers
  import opened Blocks

  const PAGE_SIZE: nat := 4096
  const MAX_REGIONS: nat := 64

  /** A block of 2^bits pages. */
  datatype Region = Region(addr: nat, bits: nat, kernel: bool, user: bool, forPages: bool, watermark: nat)
  {
    function Size(): nat { Pow2(PAGE_BITS + bits) }
    function End(): nat { addr + Size() }
  }

  const ZERO_REGION := Region(0, 0, false, false, false, 0)

  /** An untyped capability given to user space: 2^bits bytes at `addr`. */
  datatype Grant = Grant(addr: nat, bits: nat)

  predicate Disjoint(a: nat, aSize: nat, b: nat, bSize: nat) { a + aSize <= b || b + bSize <= a }

  ghost predicate RegionOk(r: Region)
  {
    && r.addr >= PAGE_SIZE && r.addr % PAGE_SIZE == 0 && r.watermark % PAGE_SIZE == 0
    && (r.kernel ==> !r.user && r.forPages && PAGE_SIZE <= r.watermark <= r.Size())
  }

  ghost predicate RegionsOk(s: seq<Region>)
  {
    && (forall i :: 0 <= i < |s| ==> RegionOk(s[i]))
    && (forall i, j :: 0 <= i < j < |s| ==> Disjoint(s[i].addr, s[i].Size(), s[j].addr, s[j].Size()))
  }

  /** The page is in the part of kernel region `r` that has been handed out. */
  predicate Owned(r: Region, page: nat)
  {
    r.kernel && page % PAGE_SIZE == 0 && r.addr <= page && page + PAGE_SIZE <= r.addr + r.watermark
  }

  ghost predicate HasOwner(s: seq<Region>, page: nat) { exists i :: 0 <= i < |s| && Owned(s[i], page) }

  ghost predicate PagesOk(s: seq<Region>, pages: seq<nat>)
  {
    && (forall k :: 0 <= k < |pages| ==> HasOwner(s, pages[k]))
    && (forall j, k :: 0 <= j < k < |pages| ==> Disjoint(pages[j], PAGE_SIZE, pages[k], PAGE_SIZE))
  }

  /** A grant is a region marked as in user use, or the blank entry after the last region. */
  predicate Backed(r: Region, g: Grant) { r.user && g == Grant(r.addr, r.bits + PAGE_BITS) }

  ghost predicate GrantsOk(s: seq<Region>, grants: seq<Grant>)
  {
    forall k :: 0 <= k < |grants| ==>
      grants[k] == Grant(0, PAGE_BITS) || exists i :: 0 <= i < |s| && Backed(s[i], grants[k])
  }

  /** No page handed to the kernel lies in memory granted to user space. */
  lemma KernelApartFromUser(s: seq<Region>, pages: seq<nat>, grants: seq<Grant>, j: nat, k: nat)
    requires RegionsOk(s) && PagesOk(s, pages) && GrantsOk(s, grants) && j < |pages| && k < |grants|
    ensures Disjoint(pages[j], PAGE_SIZE, grants[k].addr, Pow2(grants[k].bits))
  {
    assert HasOwner(s, pages[j]);
    var i :| 0 <= i < |s| && Owned(s[i], pages[j]);
    assert RegionOk(s[i]);
    if grants[k] == Grant(0, PAGE_BITS) {
      assert Pow2(PAGE_BITS) == PAGE_SIZE;
    } else {
      var u :| 0 <= u < |s| && Backed(s[u], grants[k]);
      assert RegionOk(s[u]) && u != i;
      assert i < u ==> Disjoint(s[i].addr, s[i].Size(), s[u].addr, s[u].Size());
      assert u < i ==> Disjoint(s[u].addr, s[u].Size(), s[i].addr, s[i].Size());
    }
  }

  /** Every page handed out lies inside a region. */
  lemma PagesInside(s: seq<Region>, pages: seq<nat>, j: nat)
    requires RegionsOk(s) && PagesOk(s, pages) && j < |pages|
    ensures exists i :: 0 <= i < |s| && s[i].addr <= pages[j] && pages[j] + PAGE_SIZE <= s[i].End()
  {
    assert HasOwner(s, pages[j]);
    var i :| 0 <= i < |s| && Owned(s[i], pages[j]);
    assert RegionOk(s[i]);
  }

  // ----- Effects of the operations on the regions -----

  predicate HasRoom(r: Region)
  {
    r.kernel && r.forPages && r.watermark < r.Size() - PAGE_SIZE
  }

  predicate Unclaimed(r: Region) { !r.kernel && !r.user }

  /** The first kernel region with room or, if there is none, the first that nobody uses. */
  ghost predicate Chosen(s: seq<Region>, i: nat)
  {
    && i < |s|
    && if HasRoom(s[i]) then forall j :: 0 <= j < i ==> !HasRoom(s[j])
       else Unclaimed(s[i]) && (forall j :: 0 <= j < |s| ==> !HasRoom(s[j])) && forall j :: 0 <= j < i ==> !Unclaimed(s[j])
  }

  /** The page a region hands out next, and the region after that. */
  function NextPage(r: Region): nat { if r.kernel then r.addr + r.watermark else r.addr }
  function Used(r: Region): Region
  {
    if r.kernel then r.(watermark := r.watermark + PAGE_SIZE)
    else r.(kernel := true, forPages := true, watermark := PAGE_SIZE)
  }

  lemma RegionHoldsPage(r: Region)
    ensures r.Size() >= PAGE_SIZE
  {
    Pow2Mono(PAGE_BITS, PAGE_BITS + r.bits);
    assert Pow2(PAGE_BITS) == PAGE_SIZE;
  }

  lemma UseKeepsRegions(s: seq<Region>, i: nat)
    requires RegionsOk(s) && i < |s| && (HasRoom(s[i]) || Unclaimed(s[i]))
    ensures RegionsOk(s[i := Used(s[i])])
  {
    hide Pow2;
    RegionHoldsPage(s[i]);
    assert RegionOk(s[i]);
    assert Used(s[i]).Size() == s[i].Size();
  }

  lemma UseKeepsGrants(s: seq<Region>, i: nat, grants: seq<Grant>)
    requires i < |s| && GrantsOk(s, grants)
    ensures GrantsOk(s[i := Used(s[i])], grants)
  {
    var s' := s[i := Used(s[i])];
    forall k | 0 <= k < |grants| && grants[k] != Grant(0, PAGE_BITS)
      ensures exists j :: 0 <= j < |s'| && Backed(s'[j], grants[k])
    {
      var j :| 0 <= j < |s| && Backed(s[j], grants[k]);
      assert Backed(s'[j], grants[k]);
    }
  }

  lemma UseKeepsPages(s: seq<Region>, i: nat, pages: seq<nat>)
    requires RegionsOk(s) && PagesOk(s, pages) && i < |s| && (HasRoom(s[i]) || Unclaimed(s[i]))
    ensures PagesOk(s[i := Used(s[i])], pages + [NextPage(s[i])])
  {
    hide Pow2;
    var s', page := s[i := Used(s[i])], NextPage(s[i]);
    RegionHoldsPage(s[i]);
    assert RegionOk(s[i]) && Owned(s'[i], page);
    forall k | 0 <= k < |pages|
      ensures HasOwner(s', pages[k])
      ensures Disjoint(pages[k], PAGE_SIZE, page, PAGE_SIZE)
    {
      assert HasOwner(s, pages[k]);
      var j :| 0 <= j < |s| && Owned(s[j], pages[k]);
      assert RegionOk(s[j]) && Owned(s'[j], pages[k]);
      assert i < j ==> Disjoint(s[i].addr, s[i].Size(), s[j].addr, s[j].Size());
      assert j < i ==> Disjoint(s[j].addr, s[j].Size(), s[i].addr, s[i].Size());
    }
  }

  /** Entries below `n` that are not in kernel use become user regions. */
  function Claimed(r: Region): Region { if r.kernel then r else r.(user := true) }

  function GrantsOf(s: seq<Region>): seq<Grant>
  {
    if s == [] then [] else
      var r := s[|s| - 1];
      GrantsOf(s[..|s| - 1]) + if r.kernel then [] else [Grant(r.addr, r.bits + PAGE_BITS)]
  }

  lemma {:induction false} GrantsOfSource(s: seq<Region>, k: nat) returns (i: nat)
    requires k < |GrantsOf(s)|
    ensures i < |s| && !s[i].kernel && GrantsOf(s)[k] == Grant(s[i].addr, s[i].bits + PAGE_BITS)
  {
    if k < |GrantsOf(s[..|s| - 1])| {
      i := GrantsOfSource(s[..|s| - 1], k);
    } else {
      i := |s| - 1;
    }
  }

  /** Every region not in kernel use is granted. */
  lemma {:induction false} GrantsOfAll(s: seq<Region>, i: nat)
    requires i < |s| && !s[i].kernel
    ensures Grant(s[i].addr, s[i].bits + PAGE_BITS) in GrantsOf(s)
  {
    if i < |s| - 1 {
      GrantsOfAll(s[..|s| - 1], i);
    }
  }

  /** Where the loop over the regions stops: it looks for the last region only after one that it
      grants, so past a last region in kernel use it grants the blank entry behind it, and with no
      regions at all it never looks. */
  function StopAt(s: seq<Region>, count: nat, n: nat): nat
    requires count <= |s|
  {
    if n <= count || count == 0 then n else if s[count - 1].kernel then count + 1 else count
  }

  /** The loop runs past the end of the table. */
  predicate LeavesTable(s: seq<Region>, count: nat, n: nat)
    requires |s| == MAX_REGIONS && count <= MAX_REGIONS
  {
    n > MAX_REGIONS && (count == 0 || (count == MAX_REGIONS && s[count - 1].kernel))
  }

  /** How many entries the loop passes, or all of them before it leaves the table. */
  function Passed(s: seq<Region>, count: nat, n: nat): nat
    requires |s| == MAX_REGIONS && count <= MAX_REGIONS
  {
    if LeavesTable(s, count, n) then MAX_REGIONS else StopAt(s, count, n)
  }

  lemma LeavesTableIff(s: seq<Region>, count: nat, n: nat)
    requires |s| == MAX_REGIONS && count <= MAX_REGIONS
    ensures StopAt(s, count, n) <= MAX_REGIONS <==> !LeavesTable(s, count, n)
  {
  }

  lemma ClaimKeepsRegions(s: seq<Region>, t: seq<Region>)
    requires RegionsOk(s) && |t| == |s| && forall i :: 0 <= i < |s| ==> t[i] == s[i] || t[i] == Claimed(s[i])
    ensures RegionsOk(t)
  {
    hide Pow2;
    forall i | 0 <= i < |t|
      ensures RegionOk(t[i]) && t[i].addr == s[i].addr && t[i].Size() == s[i].Size()
    {
      assert RegionOk(s[i]);
    }
    forall i, j | 0 <= i < j < |t|
      ensures Disjoint(t[i].addr, t[i].Size(), t[j].addr, t[j].Size())
    {
      assert Disjoint(s[i].addr, s[i].Size(), s[j].addr, s[j].Size());
    }
  }

  lemma ClaimKeepsPages(s: seq<Region>, t: seq<Region>, pages: seq<nat>)
    requires PagesOk(s, pages) && |t| == |s| && forall i :: 0 <= i < |s| ==> t[i] == s[i] || t[i] == Claimed(s[i])
    ensures PagesOk(t, pages)
  {
    forall k | 0 <= k < |pages|
      ensures HasOwner(t, pages[k])
    {
      assert HasOwner(s, pages[k]);
      var i :| 0 <= i < |s| && Owned(s[i], pages[k]);
      assert Owned(t[i], pages[k]);
    }
  }

  lemma ClaimKeepsGrants(s: seq<Region>, t: seq<Region>, grants: seq<Grant>)
    requires GrantsOk(s, grants) && |t| == |s| && forall i :: 0 <= i < |s| ==> t[i] == s[i] || t[i] == Claimed(s[i])
    ensures GrantsOk(t, grants)
  {
    forall k | 0 <= k < |grants| && grants[k] != Grant(0, PAGE_BITS)
      ensures exists i :: 0 <= i < |t| && Backed(t[i], grants[k])
    {
      var i :| 0 <= i < |s| && Backed(s[i], grants[k]);
      assert Backed(t[i], grants[k]);
    }
  }

  /** A region after it has handed out `k` pages. */
  function UsedTimes(r: Region, k: nat): Region
  {
    if k == 0 then r else Used(UsedTimes(r, k - 1))
  }

  lemma {:induction false} UsedTimesIs(r: Region, k: nat)
    requires !r.kernel && k > 0
    ensures UsedTimes(r, k) == r.(kernel := true, forPages := true, watermark := PAGE_SIZE * k)
  {
    if k > 1 {
      UsedTimesIs(r, k - 1);
    }
  }

  /** An unclaimed region of more than one page never hands out its last page: it goes on exactly as long as two
      pages are left. */
  lemma RegionYields(r: Region, k: nat)
    requires !r.kernel && k > 0
    ensures HasRoom(UsedTimes(r, k)) <==> k + 1 < Pow2(r.bits)
  {
    hide Pow2;
    UsedTimesIs(r, k);
    Pow2Adds(PAGE_BITS, r.bits);
    assert Pow2(PAGE_BITS) == PAGE_SIZE by { PageBits(); }
  }

  // ----- Cutting up the extents -----

  /** Page-aligned extents. */
  predicate ExtentOk(start: nat, end: nat)
  {
    0 < start <= end < WORD_RANGE && start % PAGE_SIZE == 0 && end % PAGE_SIZE == 0
  }

  /** The regions of an extent, in order. */
  function CutUp(start: nat, end: nat): seq<Region>
    requires ExtentOk(start, end)
    decreases end - start
  {
    if start == end then [] else
      BlockFacts(start, end);
      [Piece(start, end)] + CutUp(Piece(start, end).End(), end)
  }

  /** No piece starts where its first guess would reach the end of the word range. */
  predicate NeverWraps(start: nat, end: nat)
    requires ExtentOk(start, end)
    decreases end - start
  {
    start == end ||
    (BlockFacts(start, end); start + FirstGuess(start) < WORD_RANGE && NeverWraps(Piece(start, end).End(), end))
  }

  /** Extents in the lower half of the range never do. */
  lemma {:induction false} LowerHalfNeverWraps(start: nat, end: nat)
    requires ExtentOk(start, end) && end <= WORD_RANGE / 2
    ensures NeverWraps(start, end)
    decreases end - start
  {
    if start < end {
      hide Pow2, TrailingZeros, BlockBits, FirstGuess, CutUp;
      BlockFacts(start, end);
      FirstGuessIsLowBit(start);
      assert start + FirstGuess(start) < WORD_RANGE;
      LowerHalfNeverWraps(Piece(start, end).End(), end);
    }
  }

  function Piece(start: nat, end: nat): Region
    requires ExtentOk(start, end) && start < end
  {
    BlockFacts(start, end);
    ZERO_REGION.(addr := start, bits := BlockBits(start, end) - PAGE_BITS)
  }

  lemma BlockFacts(start: nat, end: nat)
    requires ExtentOk(start, end) && start < end
    ensures BlockBits(start, end) >= PAGE_BITS
    ensures var next := start + Pow2(BlockBits(start, end)); start < next && ExtentOk(next, end)
  {
    hide BlockBits, Pow2;
    assert Pow2(PAGE_BITS) == PAGE_SIZE by { PageBits(); }
    NextMultiple(start, end, PAGE_SIZE);
    BlockIsLargest(start, end, PAGE_BITS);
    BlockIsLargest(start, end, BlockBits(start, end));
    StillAligned(start, BlockBits(start, end));
  }

  lemma PageBits()
    ensures Pow2(PAGE_BITS) == PAGE_SIZE
  {
  }

  lemma {:induction false} CutUpLength(start: nat, end: nat)
    requires ExtentOk(start, end)
    ensures |CutUp(start, end)| == |Tiles(start, end)|
    decreases end - start
  {
    if start < end {
      hide Pow2, BlockBits, ExtentOk;
      BlockFacts(start, end);
      CutUpLength(Piece(start, end).End(), end);
    }
  }

  lemma {:induction false} CutUpAt(start: nat, end: nat, i: nat)
    requires ExtentOk(start, end) && i < |CutUp(start, end)| == |Tiles(start, end)|
    ensures var c, t := CutUp(start, end), Tiles(start, end);
            c[i].addr == TileStart(start, t, i) && c[i].Size() == Pow2(t[i])
    decreases end - start
  {
    hide Pow2, BlockBits;
    BlockFacts(start, end);
    if i > 0 {
      var next := Piece(start, end).End();
      CutUpLength(next, end);
      CutUpAt(next, end, i - 1);
      TileStartShift(start, Tiles(start, end), i);
    }
  }

  /** The regions are the blocks. */
  lemma CutUpIsTiles(start: nat, end: nat)
    requires ExtentOk(start, end)
    ensures var c, t := CutUp(start, end), Tiles(start, end);
            && |c| == |t|
            && forall i :: 0 <= i < |t| ==> c[i].addr == TileStart(start, t, i) && c[i].Size() == Pow2(t[i])
  {
    hide CutUp, Tiles, Pow2;
    CutUpLength(start, end);
    forall i | 0 <= i < |Tiles(start, end)|
      ensures CutUp(start, end)[i].addr == TileStart(start, Tiles(start, end), i)
      ensures CutUp(start, end)[i].Size() == Pow2(Tiles(start, end)[i])
    {
      CutUpAt(start, end, i);
    }
  }

  /** All regions are apart from an extent. */
  ghost predicate Clear(s: seq<Region>, start: nat, end: nat)
  {
    forall i :: 0 <= i < |s| ==> s[i].End() <= start || end <= s[i].addr
  }

  lemma AddPiece(s: seq<Region>, pages: seq<nat>, grants: seq<Grant>, start: nat, end: nat)
    requires ExtentOk(start, end) && start < end && Clear(s, start, end)
    requires RegionsOk(s) && PagesOk(s, pages) && GrantsOk(s, grants)
    ensures var s' := s + [Piece(start, end)];
            RegionsOk(s') && PagesOk(s', pages) && GrantsOk(s', grants) && Clear(s', Piece(start, end).End(), end)
  {
    hide Pow2, BlockBits;
    BlockFacts(start, end);
    var s' := s + [Piece(start, end)];
    forall k | 0 <= k < |pages|
      ensures HasOwner(s', pages[k])
    {
      assert HasOwner(s, pages[k]);
      var i :| 0 <= i < |s| && Owned(s[i], pages[k]);
      assert Owned(s'[i], pages[k]);
    }
    forall k | 0 <= k < |grants| && grants[k] != Grant(0, PAGE_BITS)
      ensures exists i :: 0 <= i < |s'| && Backed(s'[i], grants[k])
    {
      var i :| 0 <= i < |s| && Backed(s[i], grants[k]);
      assert Backed(s'[i], grants[k]);
    }
  }

  /** A region after cutting lies in the extent. */
  lemma {:induction false} CutUpInside(start: nat, end: nat)
    requires ExtentOk(start, end)
    ensures forall i :: 0 <= i < |CutUp(start, end)| ==> start <= CutUp(start, end)[i].addr && CutUp(start, end)[i].End() <= end
    decreases end - start
  {
    if start < end {
      BlockFacts(start, end);
      hide Pow2, BlockBits;
      CutUpInside(Piece(start, end).End(), end);
    }
  }

  lemma {:induction false} CutAllGrows(es: seq<Extent>, k: nat)
    requires k < |es| && forall i :: 0 <= i < |es| ==> ExtentOk(es[i].start, es[i].End())
    ensures |CutAll(es[..k])| + |CutUp(es[k].start, es[k].End())| <= |CutAll(es)|
  {
    if k < |es| - 1 {
      assert es[..|es| - 1][..k] == es[..k];
      CutAllGrows(es[..|es| - 1], k);
    }
  }

  datatype Extent = Extent(start: nat, len: nat)
  {
    function End(): nat { start + len }
  }

  function CutAll(es: seq<Extent>): seq<Region>
    requires forall k :: 0 <= k < |es| ==> ExtentOk(es[k].start, es[k].End())
  {
    if es == [] then [] else CutAll(es[..|es| - 1]) + CutUp(es[|es| - 1].start, es[|es| - 1].End())
  }

  datatype Op = Page | Caps(n: nat)

  /** What a call returns; NoPage is the assertion failure "no more pages", and OffTable stands for a request
      that would leave the table. */
  datatype Answer = PageAt(page: nat) | NoPage | Granted(caps: seq<Grant>) | OffTable

  /** One call takes the table `s`, of which `count` entries are in use, to `s'` and returns `r`. */
  ghost predicate Answers(s: seq<Region>, count: nat, op: Op, s': seq<Region>, r: Answer)
    requires |s| == MAX_REGIONS && count <= MAX_REGIONS
  {
    match op
    case Page => AnswersPage(s, count, s', if r.PageAt? then Some(r.page) else None) && (r.PageAt? || r.NoPage?)
    case Caps(n) =>
      if LeavesTable(s, count, n) then s' == s && r.OffTable?
      else AnswersCaps(s, count, n, s', r)
  }

  /** A page from the first region with room, or else from the first that nobody uses, or none. */
  ghost predicate AnswersPage(s: seq<Region>, count: nat, s': seq<Region>, r: Option<nat>)
    requires count <= |s|
  {
    match r
    case None => s' == s && forall i :: 0 <= i < count ==> !HasRoom(s[i]) && !Unclaimed(s[i])
    case Some(page) => exists i: nat :: i < count && Chosen(s[..count], i) && page == NextPage(s[i]) && s' == s[i := Used(s[i])]
  }

  ghost predicate AnswersCaps(s: seq<Region>, count: nat, n: nat, s': seq<Region>, r: Answer)
    requires |s| == MAX_REGIONS && count <= MAX_REGIONS
  {
    var stop := Passed(s, count, n);
    && stop <= MAX_REGIONS && r == Granted(GrantsOf(s[..stop])) && |s'| == |s|
    && forall i :: 0 <= i < |s| ==> s'[i] == if i < stop then Claimed(s[i]) else s[i]
  }

  /** At most one of the kernel's regions has room, so that a region is claimed only when all others are used up. */
  ghost predicate OneOpen(s: seq<Region>)
  {
    forall i, j :: 0 <= i < j < |s| ==> !(HasRoom(s[i]) && HasRoom(s[j]))
  }

  lemma AnswersKeepOneOpen(s: seq<Region>, count: nat, op: Op, s': seq<Region>, r: Answer)
    requires |s| == MAX_REGIONS && count <= MAX_REGIONS && Answers(s, count, op, s', r) && OneOpen(s[..count])
    ensures |s'| == |s| && OneOpen(s'[..count])
  {
    hide StopAt, GrantsOf, Pow2;
    match op
    case Page =>
      if r.PageAt? {
        var i: nat :| i < count && Chosen(s[..count], i) && s' == s[i := Used(s[i])];
        assert s'[i].Size() == s[i].Size() && s[..count][i] == s[i];
        forall j | 0 <= j < count && j != i
          ensures !HasRoom(s'[j])
        {
          assert s'[j] == s[..count][j];
        }
      }
    case Caps(n) =>
      forall j | 0 <= j < count
        ensures HasRoom(s'[j]) <==> HasRoom(s[..count][j])
      {
        assert s'[j] == s[j] || s'[j] == Claimed(s[j]);
        assert s'[j].Size() == s[j].Size();
      }
  }

  /** No two pages are the same, and none lies in memory given to user space. */
  ghost predicate AllDisjoint(out: seq<Answer>)
  {
    && (forall i, j :: 0 <= i < j < |out| && out[i].PageAt? && out[j].PageAt? ==> Disjoint(out[i].page, PAGE_SIZE, out[j].page, PAGE_SIZE))
    && (forall i, j, k :: 0 <= i < |out| && 0 <= j < |out| && out[i].PageAt? && out[j].Granted? && 0 <= k < |out[j].caps| ==>
          Disjoint(out[i].page, PAGE_SIZE, out[j].caps[k].addr, Pow2(out[j].caps[k].bits)))
  }

  /** What was returned is on record, and the pages are apart. */
  ghost predicate OnRecord(out: seq<Answer>, pages: seq<nat>, grants: seq<Grant>)
  {
    && (forall i :: 0 <= i < |out| && out[i].PageAt? ==> out[i].page in pages)
    && (forall i, k :: 0 <= i < |out| && out[i].Granted? && 0 <= k < |out[i].caps| ==> out[i].caps[k] in grants)
    && (forall i, j :: 0 <= i < j < |out| && out[i].PageAt? && out[j].PageAt? ==> Disjoint(out[i].page, PAGE_SIZE, out[j].page, PAGE_SIZE))
  }

  lemma RecordPage(out: seq<Answer>, r: Answer, s: seq<Region>, pages: seq<nat>, pages': seq<nat>, grants: seq<Grant>)
    requires OnRecord(out, pages, grants) && PagesOk(s, pages')
    requires if r.PageAt? then pages' == pages + [r.page] else pages' == pages && !r.Granted?
    ensures OnRecord(out + [r], pages', grants)
  {
    forall i | 0 <= i < |out| && out[i].PageAt? && r.PageAt?
      ensures Disjoint(out[i].page, PAGE_SIZE, r.page, PAGE_SIZE)
    {
      var k :| 0 <= k < |pages| && pages[k] == out[i].page;
      assert pages'[k] == out[i].page && pages'[|pages|] == r.page;
    }
  }

  lemma RecordGrants(out: seq<Answer>, caps: seq<Grant>, pages: seq<nat>, grants: seq<Grant>)
    requires OnRecord(out, pages, grants)
    ensures OnRecord(out + [Granted(caps)], pages, grants + caps)
  {
  }

  lemma RecordedDisjoint(out: seq<Answer>, s: seq<Region>, pages: seq<nat>, grants: seq<Grant>)
    requires OnRecord(out, pages, grants) && RegionsOk(s) && PagesOk(s, pages) && GrantsOk(s, grants)
    ensures AllDisjoint(out)
  {
    hide RegionsOk, PagesOk, GrantsOk, Pow2, Disjoint;
    forall i, j, k | 0 <= i < |out| && 0 <= j < |out| && out[i].PageAt? && out[j].Granted? && 0 <= k < |out[j].caps|
      ensures Disjoint(out[i].page, PAGE_SIZE, out[j].caps[k].addr, Pow2(out[j].caps[k].bits))
    {
      var a :| 0 <= a < |pages| && pages[a] == out[i].page;
      var b :| 0 <= b < |grants| && grants[b] == out[j].caps[k];
      KernelApartFromUser(s, pages, grants, a, b);
    }
  }

  /** The table of regions, `count` of them in use, and the record of what was handed out. */
  class Allocator {
    const regions: array<Region>
    var count: nat
    ghost var pages: seq<nat>
    ghost var grants: seq<Grant>

    ghost predicate Valid()
      reads this, regions
    {
      && regions.Length == MAX_REGIONS && count <= MAX_REGIONS
      && RegionsOk(regions[..count]) && PagesOk(regions[..count], pages) && GrantsOk(regions[..count], grants)
      && forall i :: count <= i < MAX_REGIONS ==> regions[i].(user := false) == ZERO_REGION
    }

    constructor ()
      ensures Valid() && count == 0 && pages == [] && grants == [] && fresh(regions)
    {
      regions := new Region[MAX_REGIONS](i => ZERO_REGION);
      count, pages, grants := 0, [], [];
    }

    /** allocate_aligned_regions. */
    method AllocateAlignedRegions(start0: nat, end: nat)
      requires Valid() && ExtentOk(start0, end) && NeverWraps(start0, end) && Clear(regions[..count], start0, end)
      requires count + |CutUp(start0, end)| <= MAX_REGIONS
      modifies this`count, regions
      ensures Valid() && count == old(count) + |CutUp(start0, end)| && regions[..count] == old(regions[..count]) + CutUp(start0, end)
    {
      hide RegionsOk, PagesOk, GrantsOk, Pow2, Clear, BlockBits, TrailingZeros, FirstGuess;
      var start := start0;
      while start < end
        invariant ExtentOk(start, end) && NeverWraps(start, end) && Valid() && Clear(regions[..count], start, end)
        invariant count + |CutUp(start, end)| <= MAX_REGIONS
        invariant regions[..count] + CutUp(start, end) == old(regions[..count]) + CutUp(start0, end)
        decreases end - start
      {
        ghost var s := regions[..count];
        AddPiece(s, pages, grants, start, end);
        BlockFacts(start, end);
        var block := LargestFittingBlock(start, end);
        ZerosOfPower(BlockBits(start, end));
        regions[count] := ZERO_REGION.(addr := start, bits := TrailingZeros(block) - PAGE_BITS);
        count := count + 1;
        assert regions[..count] == s + [Piece(start, end)];
        start := start + block;
      }
    }

    /** init_page_mmap for extents that do not overlap. */
    method InitPageMmap(es: seq<Extent>)
      requires Valid() && count == 0
      requires forall k :: 0 <= k < |es| ==> ExtentOk(es[k].start, es[k].End()) && NeverWraps(es[k].start, es[k].End())
      requires forall j, k :: 0 <= j < k < |es| ==> Disjoint(es[j].start, es[j].len, es[k].start, es[k].len)
      requires |CutAll(es)| <= MAX_REGIONS
      modifies this`count, regions
      ensures Valid() && regions[..count] == CutAll(es)
    {
      hide RegionsOk, PagesOk, GrantsOk, Pow2, CutUp;
      assert regions[..count] == [];
      for k := 0 to |es|
        invariant Valid() && regions[..count] == CutAll(es[..k])
        invariant forall m :: k <= m < |es| ==> Clear(regions[..count], es[m].start, es[m].End())
      {
        ghost var s := regions[..count];
        CutAllGrows(es, k);
        assert es[..k + 1][..k] == es[..k];
        AllocateAlignedRegions(es[k].start, es[k].End());
        CutUpInside(es[k].start, es[k].End());
        assert regions[..count] == s + CutUp(es[k].start, es[k].End());
      }
      assert es[..|es|] == es;
    }

    /** Any order of page allocations and requests for capabilities to user memory, with what each returned;
        boot asks for more capabilities than the table has entries.  Requests that would leave the table are
        not made. */
    method Run(ops: seq<Op>) returns (out: seq<Answer>, ghost trace: seq<seq<Region>>)
      requires Valid()
      modifies this, regions
      ensures Valid() && count == old(count) && old(pages) <= pages && old(grants) <= grants
      ensures |out| == |ops| && |trace| == |ops| + 1 && trace[0] == old(regions[..]) && trace[|ops|] == regions[..]
      ensures forall i :: 0 <= i < |ops| ==> |trace[i]| == MAX_REGIONS && Answers(trace[i], count, ops[i], trace[i + 1], out[i])
      ensures AllDisjoint(out) && (old(OneOpen(regions[..count])) ==> OneOpen(regions[..count]))
      ensures forall j, k :: 0 <= j < |pages| && 0 <= k < |grants| ==> Disjoint(pages[j], PAGE_SIZE, grants[k].addr, Pow2(grants[k].bits))
      ensures forall j, k :: 0 <= j < k < |pages| ==> Disjoint(pages[j], PAGE_SIZE, pages[k], PAGE_SIZE)
    {
      hide RegionsOk, GrantsOk, Pow2, Answers, OnRecord, AllDisjoint, OneOpen;
      out, trace := [], [regions[..]];
      RecordNothing(pages, grants);
      for i := 0 to |ops|
        invariant Valid() && count == old(count) && old(pages) <= pages && old(grants) <= grants
        invariant |out| == i && |trace| == i + 1 && trace[0] == old(regions[..]) && trace[i] == regions[..]
        invariant forall k :: 0 <= k < i ==> |trace[k]| == MAX_REGIONS && Answers(trace[k], count, ops[k], trace[k + 1], out[k])
        invariant OnRecord(out, pages, grants) && (old(OneOpen(regions[..count])) ==> OneOpen(regions[..count]))
      {
        ghost var s := regions[..];
        assert s[..count] == regions[..count];
        var r := Perform(ops[i], out);
        if OneOpen(s[..count]) {
          AnswersKeepOneOpen(s, count, ops[i], regions[..], r);
          assert regions[..][..count] == regions[..count];
        }
        out, trace := out + [r], trace + [regions[..]];
      }
      RecordedDisjoint(out, regions[..count], pages, grants);
      forall j, k | 0 <= j < |pages| && 0 <= k < |grants|
        ensures Disjoint(pages[j], PAGE_SIZE, grants[k].addr, Pow2(grants[k].bits))
      {
        KernelApartFromUser(regions[..count], pages, grants, j, k);
      }
    }

    lemma RecordNothing(pages: seq<nat>, grants: seq<Grant>)
      ensures OnRecord([], pages, grants)
    {
    }

    method Perform(op: Op, ghost out: seq<Answer>) returns (r: Answer)
      requires Valid() && OnRecord(out, pages, grants)
      modifies this, regions
      ensures Valid() && count == old(count) && old(pages) <= pages && old(grants) <= grants
      ensures Answers(old(regions[..]), count, op, regions[..], r) && OnRecord(out + [r], pages, grants)
    {
      hide RegionsOk, PagesOk, GrantsOk, Pow2, OnRecord, AnswersPage, AnswersCaps, LeavesTable;
      ghost var pages0 := pages;
      match op {
        case Page =>
          var page := AllocPage();
          r := if page.Some? then PageAt(page.value) else NoPage;
          RecordPage(out, r, regions[..count], pages0, pages, grants);
        case Caps(n) =>
          if LeavesTable(regions[..], count, n) {
            RecordPage(out, OffTable, regions[..count], pages0, pages, grants);
            return OffTable;
          }
          ghost var grants0 := grants;
          var caps, _ := CreateInitUntypedCaps(n);
          r := Granted(caps);
          RecordGrants(out, caps, pages, grants0);
      }
    }

    /** alloc_page; None is the assertion failure "no more pages". */
    method AllocPage() returns (r: Option<nat>)
      requires Valid()
      modifies this`pages, regions
      ensures Valid() && AnswersPage(old(regions[..]), count, regions[..], r)
      ensures pages == old(pages) + if r.None? then [] else [r.value]
    {
      hide RegionsOk, PagesOk, GrantsOk, Pow2;
      for i := 0 to count
        invariant forall j :: 0 <= j < i ==> !HasRoom(regions[j])
      {
        if HasRoom(regions[i]) {
          assert Chosen(regions[..count], i);
          r := Some(regions[i].addr + regions[i].watermark);
          Use(i);
          return;
        }
      }
      for i := 0 to count
        invariant forall j :: 0 <= j < i ==> !Unclaimed(regions[j])
        invariant forall j :: 0 <= j < count ==> !HasRoom(regions[j])
      {
        if Unclaimed(regions[i]) {
          assert Chosen(regions[..count], i);
          r := Some(regions[i].addr);
          Use(i);
          return;
        }
      }
      r := None;
    }

    /** Hand out the next page of region `i`. */
    method Use(i: nat)
      requires Valid() && i < count && (HasRoom(regions[i]) || Unclaimed(regions[i]))
      modifies this`pages, regions
      ensures Valid() && pages == old(pages) + [NextPage(old(regions[i]))]
      ensures regions[..] == old(regions[..])[i := Used(old(regions[i]))]
    {
      hide RegionsOk, PagesOk, GrantsOk, Pow2;
      ghost var s := regions[..count];
      UseKeepsRegions(s, i);
      UseKeepsPages(s, i, pages);
      UseKeepsGrants(s, i, grants);
      pages := pages + [NextPage(regions[i])];
      regions[i] := Used(regions[i]);
      assert regions[..count] == s[i := Used(s[i])];
    }

    /** create_init_untyped_caps with room for `n` capabilities; `left` says that its loop reaches
        the end of the table and reads on; the rest describes what it has done until then. */
    method CreateInitUntypedCaps(n: nat) returns (caps: seq<Grant>, left: bool)
      requires Valid()
      modifies this`grants, regions
      ensures Valid() && grants == old(grants) + caps
      ensures left <==> LeavesTable(old(regions[..]), count, n)
      ensures AnswersCaps(old(regions[..]), count, n, regions[..], Granted(caps))
    {
      hide RegionsOk, PagesOk, GrantsOk, GrantsOf, LeavesTable;
      ghost var s := regions[..];
      assert s[..count] == regions[..count];
      caps, left := GrantLoop(n);
      Settle(s, caps, Passed(s, count, n));
      grants := grants + caps;
    }

    /** Its loop. */
    method GrantLoop(n: nat) returns (caps: seq<Grant>, left: bool)
      requires regions.Length == MAX_REGIONS && count <= MAX_REGIONS
      requires forall i :: count <= i < MAX_REGIONS ==> !regions[i].kernel
      modifies regions
      ensures left <==> LeavesTable(old(regions[..]), count, n)
      ensures AnswersCaps(old(regions[..]), count, n, regions[..], Granted(caps))
    {
      ghost var s := regions[..];
      caps, left := [], false;
      var i := 0;
      while i < n
        invariant 0 <= i <= n && i <= MAX_REGIONS && caps == GrantsOf(s[..i]) && !left
        invariant i >= count > 0 ==> i == count && s[count - 1].kernel
        invariant forall j :: 0 <= j < MAX_REGIONS ==> regions[j] == if j < i then Claimed(s[j]) else s[j]
      {
        if i == MAX_REGIONS {
          left := true;
          break;
        }
        assert s[..i + 1][..i] == s[..i];
        i := i + 1;
        if !regions[i - 1].kernel {
          regions[i - 1] := regions[i - 1].(user := true);
          caps := caps + [Grant(regions[i - 1].addr, regions[i - 1].bits + PAGE_BITS)];
          if i - 1 >= (if count == 0 then WORD_RANGE else count) - 1 {
            break;
          }
        }
      }
      assert i == Passed(s, count, n);
    }

    /** The record of a round of grants. */
    lemma Settle(s: seq<Region>, caps: seq<Grant>, stop: nat)
      requires regions.Length == MAX_REGIONS == |s| && count <= MAX_REGIONS && stop <= MAX_REGIONS
      requires RegionsOk(s[..count]) && PagesOk(s[..count], pages) && GrantsOk(s[..count], grants)
      requires forall i :: count <= i < MAX_REGIONS ==> s[i].(user := false) == ZERO_REGION
      requires forall j :: 0 <= j < MAX_REGIONS ==> regions[j] == if j < stop then Claimed(s[j]) else s[j]
      requires caps == GrantsOf(s[..stop])
      ensures RegionsOk(regions[..count]) && PagesOk(regions[..count], pages) && GrantsOk(regions[..count], grants + caps)
      ensures forall i :: count <= i < MAX_REGIONS ==> regions[i].(user := false) == ZERO_REGION
    {
      hide RegionsOk, PagesOk, Pow2;
      var t := regions[..count];
      assert forall j :: 0 <= j < count ==> t[j] == regions[j];
      ClaimKeepsRegions(s[..count], t);
      ClaimKeepsPages(s[..count], t, pages);
      ClaimKeepsGrants(s[..count], t, grants);
      forall k | 0 <= k < |caps| && caps[k] != Grant(0, PAGE_BITS)
        ensures exists i :: 0 <= i < |t| && Backed(t[i], caps[k])
      {
        var i := GrantsOfSource(s[..stop], k);
        assert Backed(t[i], caps[k]);
      }
    }
  }

  /** Every capability made is a region exactly when the blank entry is not reached. */
  lemma GrantsAreRegionsIff(s: seq<Region>, count: nat, n: nat)
    requires |s| == MAX_REGIONS && count <= MAX_REGIONS && !LeavesTable(s, count, n)
    requires RegionsOk(s[..count]) && forall i :: count <= i < |s| ==> s[i].(user := false) == ZERO_REGION
    ensures StopAt(s, count, n) <= |s|
    ensures (forall g :: g in GrantsOf(s[..StopAt(s, count, n)]) ==>
              exists i :: 0 <= i < count && g == Grant(s[i].addr, s[i].bits + PAGE_BITS))
            <==> !(n > count && (count == 0 || s[count - 1].kernel))
  {
    var stop := StopAt(s, count, n);
    var gs := GrantsOf(s[..stop]);
    if n > count && (count == 0 || s[count - 1].kernel) {
      GrantsOfAll(s[..stop], count);
      forall i | 0 <= i < count
        ensures Grant(0, PAGE_BITS) != Grant(s[i].addr, s[i].bits + PAGE_BITS)
      {
        assert RegionOk(s[..count][i]);
      }
    } else {
      forall g | g in gs
        ensures exists i :: 0 <= i < count && g == Grant(s[i].addr, s[i].bits + PAGE_BITS)
      {
        var k :| 0 <= k < |gs| && gs[k] == g;
        var i := GrantsOfSource(s[..stop], k);
      }
    }
  }
}
