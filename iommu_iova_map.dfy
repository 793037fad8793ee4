/** drivers/misc/iommu_iova_map.c: reading the "qcom,iommu-dma-addr-pool"
    device-tree property into a sorted list of DMA regions, and turning that
    list into the reserved regions around it. Lists of struct
    iommu_resv_region are objects holding a sequence; allocation is an
    object that says how many more allocations succeed. The functions
    here state what each routine computes; IovaRegions proves what those
    results mean. */
module IommuIovaMap {
  import opened Errno
  import opened IovaRegions

  /** A list_head of struct iommu_resv_region, in list order. */
  class RegionList {
    var regions: seq<Region>

    /** LIST_HEAD */
    constructor ()
      ensures regions == []
    {
      regions := [];
    }
  }

  /** The allocator behind iommu_alloc_resv_region: the next `remaining`
      allocations succeed and the one after fails. */
  class Allocator {
    var remaining: nat

    constructor (n: nat)
      ensures remaining == n
    {
      remaining := n;
    }

    method Alloc() returns (ok: bool)
      modifies this
      ensures ok == (old(remaining) > 0)
      ensures remaining == if ok then old(remaining) - 1 else old(remaining)
    {
      ok := remaining > 0;
      if ok {
        remaining := remaining - 1;
      }
    }
  }

  /** A device-tree node: its #address-cells, #size-cells, and properties
      as arrays of cells. */
  datatype DeviceNode = DeviceNode(addrCells: nat, sizeCells: nat, properties: map<string, seq<u32>>)

  /** A device: its device-tree node, if any, and the node its
      "qcom,iommu-group" phandle points to, if any. */
  datatype Device = Device(ofNode: Option<DeviceNode>, groupPhandle: Option<DeviceNode>)

  const DMA_ADDR_POOL: string := "qcom,iommu-dma-addr-pool"

  /** qcom_iommu_group_parse_phandle: no node without an of_node; else the
      phandle target, falling back to the device's own node. */
  function GroupNode(dev: Device): (np: Option<DeviceNode>)
    ensures np.Some? <==> dev.ofNode.Some?
    ensures np.Some? ==> np == dev.groupPhandle || (dev.groupPhandle.None? && np == dev.ofNode)
  {
    if dev.ofNode.None? then None
    else if dev.groupPhandle.Some? then dev.groupPhandle
    else dev.ofNode
  }

  /** The node has the property, with non-zero cell counts and a whole
      number of entries. */
  predicate PoolWellFormed(np: DeviceNode, propname: string) {
    && propname in np.properties
    && np.addrCells != 0 && np.sizeCells != 0
    && |np.properties[propname]| % (np.addrCells + np.sizeCells) == 0
  }

  function PoolEntries(np: DeviceNode, propname: string): seq<Region>
    requires PoolWellFormed(np, propname)
  {
    DecodeEntries(np.properties[propname], np.addrCells, np.sizeCells)
  }

  /** of_property_walk_each_entry with insert_range as the callback. */
  function Walk(dev: Device, propname: string, rs: seq<Region>, remaining: nat): Outcome {
    match GroupNode(dev)
    case None => Outcome(-EINVAL, rs, remaining)
    case Some(np) =>
      if propname !in np.properties then Outcome(-ENODEV, rs, remaining)
      else if !PoolWellFormed(np, propname) then Outcome(-EINVAL, rs, remaining)
      else InsertAll(rs, PoolEntries(np, propname), remaining)
  }

  /** The regions qcom_iommu_generate_resv_regions adds, or None when it
      adds nothing: generation failed, the pool is empty, or invert_regions
      ran out of memory. */
  function ResvRegions(dev: Device, remaining: nat): Option<seq<Region>> {
    var o := Walk(dev, DMA_ADDR_POOL, [], remaining);
    if o.ret != 0 || o.regions == [] then None
    else if |Inverted(o.regions)| > o.remaining then None
    else Some(Inverted(o.regions))
  }

  /** The allocations left after qcom_iommu_generate_resv_regions: those
      the walk left, less one per reserved region, or none once inversion
      ran out. Freeing regions gives no allocation back. */
  function ResvRemaining(dev: Device, remaining: nat): nat {
    var o := Walk(dev, DMA_ADDR_POOL, [], remaining);
    if o.ret != 0 || o.regions == [] then o.remaining
    else if |Inverted(o.regions)| > o.remaining then 0
    else o.remaining - |Inverted(o.regions)|
  }

  // ---------------------------------------------------------------------
  // What the results mean

  /** The walk returns one of its four error codes or 0; everything but a
      callback failure leaves the list and the allocator alone. */
  lemma WalkReturns(dev: Device, propname: string, rs: seq<Region>, remaining: nat)
    ensures var o := Walk(dev, propname, rs, remaining);
      && o.ret in {0, -EINVAL, -ENODEV, -ENOMEM}
      && (o.ret == -ENODEV <==> dev.ofNode.Some? && propname !in GroupNode(dev).value.properties)
      && (dev.ofNode.None? ==> o == Outcome(-EINVAL, rs, remaining))
  {
    var o := Walk(dev, propname, rs, remaining);
    match GroupNode(dev)
    case None =>
    case Some(np) =>
      if PoolWellFormed(np, propname) {
        var es := PoolEntries(np, propname);
        if o.ret != 0 {
          InsertAllStopsAtFirstFailure(rs, es, remaining);
        }
      }
  }

  /** qcom_iommu_generate_dma_regions into an empty list, when it succeeds:
      the list is sorted, its regions are disjoint, and it covers exactly
      the addresses of the pool entries, one region per entry. */
  lemma {:induction false} DmaRegionsSortedAndExact(dev: Device, remaining: nat)
    requires GroupNode(dev).Some? && PoolWellFormed(GroupNode(dev).value, DMA_ADDR_POOL)
    requires var es := PoolEntries(GroupNode(dev).value, DMA_ADDR_POOL);
      forall k :: 0 <= k < |es| ==> Proper(es[k])
    requires Walk(dev, DMA_ADDR_POOL, [], remaining).ret == 0
    ensures var o := Walk(dev, DMA_ADDR_POOL, [], remaining);
      var es := PoolEntries(GroupNode(dev).value, DMA_ADDR_POOL);
      && SortedDisjoint(o.regions)
      && |o.regions| == |es|
      && forall a :: Covered(o.regions, a) <==> Covered(es, a)
  {
    var es := PoolEntries(GroupNode(dev).value, DMA_ADDR_POOL);
    InsertAllSuccess([], es, remaining);
  }

  /** With enough memory, generation fails exactly when two pool entries
      overlap. */
  lemma {:induction false} DmaRegionsFailIffOverlap(dev: Device, remaining: nat)
    requires GroupNode(dev).Some? && PoolWellFormed(GroupNode(dev).value, DMA_ADDR_POOL)
    requires var es := PoolEntries(GroupNode(dev).value, DMA_ADDR_POOL);
      && (forall k :: 0 <= k < |es| ==> Proper(es[k]))
      && remaining >= |es|
    ensures Walk(dev, DMA_ADDR_POOL, [], remaining).ret == 0 <==>
      PoolDisjoint(PoolEntries(GroupNode(dev).value, DMA_ADDR_POOL))
  {
    var es := PoolEntries(GroupNode(dev).value, DMA_ADDR_POOL);
    InsertAllSucceedsIffDisjoint([], es, remaining);
  }

  /** qcom_iommu_generate_resv_regions, when it adds regions: they are
      sorted and disjoint, and a 64-bit address is reserved exactly when no
      pool entry covers it. */
  lemma {:induction false} ResvRegionsAreComplement(dev: Device, remaining: nat, a: int)
    requires GroupNode(dev).Some? && PoolWellFormed(GroupNode(dev).value, DMA_ADDR_POOL)
    requires var es := PoolEntries(GroupNode(dev).value, DMA_ADDR_POOL);
      forall k :: 0 <= k < |es| ==> Proper(es[k])
    requires ResvRegions(dev, remaining).Some?
    requires 0 <= a < U64_LIMIT
    ensures SortedDisjoint(ResvRegions(dev, remaining).value)
    ensures Covered(ResvRegions(dev, remaining).value, a) <==>
      !Covered(PoolEntries(GroupNode(dev).value, DMA_ADDR_POOL), a)
  {
    var o := Walk(dev, DMA_ADDR_POOL, [], remaining);
    DmaRegionsSortedAndExact(dev, remaining);
    InvertedSortedDisjoint(o.regions);
    InvertedIsComplement(o.regions, a);
  }

  /** Reserved regions are added whenever the pool is well formed, proper,
      non-empty and pairwise disjoint and memory suffices for every entry
      and every reserved region. */
  lemma {:induction false} ResvRegionsAdded(dev: Device, remaining: nat)
    requires GroupNode(dev).Some? && PoolWellFormed(GroupNode(dev).value, DMA_ADDR_POOL)
    requires var es := PoolEntries(GroupNode(dev).value, DMA_ADDR_POOL);
      && es != []
      && (forall k :: 0 <= k < |es| ==> Proper(es[k]))
      && PoolDisjoint(es)
      && remaining >= 2 * |es| + 1
    ensures ResvRegions(dev, remaining).Some?
  {
    var es := PoolEntries(GroupNode(dev).value, DMA_ADDR_POOL);
    DmaRegionsFailIffOverlap(dev, remaining);
    DmaRegionsSortedAndExact(dev, remaining);
    var o := Walk(dev, DMA_ADDR_POOL, [], remaining);
    InsertAllSuccess([], es, remaining);
    InvertedLength(o.regions);
  }

  /** invert_regions allocates at most one region per gap: n - 1 between
      regions plus one at each end. */
  lemma {:induction false} InvertedLength(rs: seq<Region>)
    requires |rs| > 0
    ensures |Inverted(rs)| <= |rs| + 1
  {
    InnerGapsLength(rs);
  }

  lemma {:induction false} InnerGapsLength(rs: seq<Region>)
    ensures |InnerGaps(rs)| <= if rs == [] then 0 else |rs| - 1
    decreases |rs|
  {
    if |rs| >= 2 {
      InnerGapsLength(rs[..|rs| - 1]);
    }
  }

  // ---------------------------------------------------------------------
  // The routines

  /** insert_range: the callback for one entry at the front of p. */
  method InsertRange(p: seq<u32>, naddr: nat, nsize: nat, head: RegionList, alloc: Allocator) returns (ret: int)
    requires |p| >= naddr + nsize
    modifies head, alloc
    ensures var o := InsertStep(old(head.regions), EntryAt(p, naddr, nsize), old(alloc.remaining));
      ret == o.ret && head.regions == o.regions && alloc.remaining == o.remaining
  {
    var start: u64 := ReadNumber(p[..naddr]);
    var end: u64 := Sub64(Add64(start, ReadNumber(p[naddr..naddr + nsize])), 1);
    ghost var e := EntryAt(p, naddr, nsize);
    assert end == EntryEnd(e);
    var rs := head.regions;
    var i := 0;
    while i < |rs|
      invariant 0 <= i <= |rs|
      invariant forall k :: 0 <= k < i ==> !CheckOverlap(rs[k], start, end) && rs[k].start <= start
    {
      if CheckOverlap(rs[i], start, end) {
        InsertPosUnique(rs, start, InsertPos(rs, start));
        assert ScanClash(rs, start, end);
        return -EINVAL;
      }
      if start < rs[i].start {
        break;
      }
      i := i + 1;
    }
    InsertPosUnique(rs, start, i);
    assert !ScanClash(rs, start, end);
    var ok := alloc.Alloc();
    if !ok {
      return -ENOMEM;
    }
    var length: u64 := Add64(Sub64(end, start), 1);
    assert Region(start, length) == NewRegion(e);
    // list_add_tail before the region the walk stopped at, or at the tail
    head.regions := rs[..i] + [Region(start, length)] + rs[i..];
    return 0;
  }

  lemma {:induction false} MulSign(d: int, w: int)
    requires w > 0
    ensures d >= 1 ==> d * w >= w
    ensures d <= -1 ==> d * w <= -w
    decreases if d < 0 then -d else d
  {
    if d > 1 {
      MulSign(d - 1, w);
      assert d * w == (d - 1) * w + w;
    } else if d < -1 {
      MulSign(d + 1, w);
      assert d * w == (d + 1) * w - w;
    }
  }

  /** A whole number of entries is left, so one more can be consumed. */
  lemma MultipleStep(x: int, w: int)
    requires w > 0 && x > 0 && x % w == 0
    ensures x >= w && (x - w) % w == 0
  {
    var q := x / w;
    MulSign(q, w);
    var q', r' := (x - w) / w, (x - w) % w;
    var d := q - 1 - q';
    assert d * w == r' by {
      assert d * w == q * w - w - q' * w;
    }
    MulSign(d, w);
  }

  /** The first entry of the cells, and the walk over them: one step of
      the walk, then the walk over the cells after the first entry. */
  lemma WalkStep(rs: seq<Region>, cells: seq<u32>, naddr: nat, nsize: nat, remaining: nat)
    requires naddr + nsize > 0 && |cells| >= naddr + nsize
    ensures var o := InsertStep(rs, EntryAt(cells, naddr, nsize), remaining);
      InsertAll(rs, DecodeEntries(cells, naddr, nsize), remaining)
      == if o.ret != 0 then o else InsertAll(o.regions, DecodeEntries(cells[naddr + nsize..], naddr, nsize), o.remaining)
  {
    var es := DecodeEntries(cells, naddr, nsize);
    assert es == [EntryAt(cells, naddr, nsize)] + DecodeEntries(cells[naddr + nsize..], naddr, nsize);
    assert es[1..] == DecodeEntries(cells[naddr + nsize..], naddr, nsize);
  }

  /** The loop of of_property_walk_each_entry: insert_range on each entry
      in turn, returning the first non-zero result. */
  method WalkEntries(cells: seq<u32>, naddr: nat, nsize: nat, head: RegionList, alloc: Allocator) returns (ret: int)
    requires naddr + nsize > 0 && |cells| % (naddr + nsize) == 0
    modifies head, alloc
    ensures var o := InsertAll(old(head.regions), DecodeEntries(cells, naddr, nsize), old(alloc.remaining));
      ret == o.ret && head.regions == o.regions && alloc.remaining == o.remaining
  {
    var w := naddr + nsize;
    var rest := cells;
    while |rest| > 0
      invariant |rest| % w == 0
      invariant InsertAll(old(head.regions), DecodeEntries(cells, naddr, nsize), old(alloc.remaining))
             == InsertAll(head.regions, DecodeEntries(rest, naddr, nsize), alloc.remaining)
      decreases |rest|
    {
      MultipleStep(|rest|, w);
      WalkStep(head.regions, rest, naddr, nsize, alloc.remaining);
      ret := InsertRange(rest, naddr, nsize, head, alloc);
      if ret != 0 {
        return;
      }
      rest := rest[w..];
    }
    return 0;
  }

  /** of_property_walk_each_entry with insert_range as the callback, that
      is, qcom_iommu_generate_dma_regions for the pool property. */
  method WalkEachEntry(dev: Device, propname: string, head: RegionList, alloc: Allocator) returns (ret: int)
    modifies head, alloc
    ensures var o := Walk(dev, propname, old(head.regions), old(alloc.remaining));
      ret == o.ret && head.regions == o.regions && alloc.remaining == o.remaining
  {
    var np := GroupNode(dev);
    if np.None? {
      return -EINVAL;
    }
    var node := np.value;
    if propname !in node.properties {
      return -ENODEV;
    }
    var cells := node.properties[propname];
    var len := |cells|;
    var naddr, nsize := node.addrCells, node.sizeCells;
    if naddr == 0 || nsize == 0 || len % (naddr + nsize) != 0 {
      return -EINVAL;
    }
    ret := WalkEntries(cells, naddr, nsize, head, alloc);
  }

  /** qcom_iommu_generate_dma_regions */
  method GenerateDmaRegions(dev: Device, head: RegionList, alloc: Allocator) returns (ret: int)
    modifies head, alloc
    ensures var o := Walk(dev, DMA_ADDR_POOL, old(head.regions), old(alloc.remaining));
      ret == o.ret && head.regions == o.regions && alloc.remaining == o.remaining
  {
    ret := WalkEachEntry(dev, DMA_ADDR_POOL, head, alloc);
  }

  /** The first loop of invert_regions: a reserved region for every
      non-empty gap between consecutive regions, added at the tail of
      inverted. Returns whether every allocation succeeded, and the last
      region visited. */
  method InvertInnerGaps(rs: seq<Region>, inverted: RegionList, alloc: Allocator) returns (ok: bool, prev: Region)
    requires |rs| > 0
    modifies inverted, alloc
    ensures prev == rs[|rs| - 1]
    ensures ok ==> inverted.regions == old(inverted.regions) + InnerGaps(rs)
    ensures ok ==> alloc.remaining + |InnerGaps(rs)| == old(alloc.remaining)
    ensures !ok ==> alloc.remaining == 0 && |InnerGaps(rs)| > old(alloc.remaining)
  {
    var last: Option<Region> := None;
    var i := 0;
    while i < |rs|
      invariant 0 <= i <= |rs|
      invariant last == if i == 0 then None else Some(rs[i - 1])
      invariant inverted.regions == old(inverted.regions) + InnerGaps(rs[..i])
      invariant alloc.remaining + |InnerGaps(rs[..i])| == old(alloc.remaining)
    {
      var curr := rs[i];
      assert rs[..i + 1][..i] == rs[..i];
      if last.Some? {
        var rsvStart := Add64(last.value.start, last.value.length);
        var rsvSize := Sub64(curr.start, rsvStart);
        assert InnerGaps(rs[..i + 1]) == InnerGaps(rs[..i]) + GapBetween(last.value, curr);
        if rsvSize != 0 {
          ok := alloc.Alloc();
          if !ok {
            InnerGapsPrefix(rs, i + 1);
            return false, rs[|rs| - 1];
          }
          inverted.regions := inverted.regions + [Region(rsvStart, rsvSize)];
        }
      }
      last := Some(curr);
      i := i + 1;
    }
    assert rs[..i] == rs;
    return true, last.value;
  }

  /** invert_regions: the gaps between and around the regions of head,
      allocated in list order, then the leading gap, then the trailing one.
      The leading region goes to the front of inverted and the others to
      the tail. On a failed allocation every entry of inverted is freed. */
  method InvertRegions(head: RegionList, inverted: RegionList, alloc: Allocator) returns (ret: int)
    requires head != inverted
    modifies inverted, alloc
    ensures head.regions == [] ==>
      ret == -EINVAL && inverted.regions == old(inverted.regions) && alloc.remaining == old(alloc.remaining)
    ensures head.regions != [] && |Inverted(head.regions)| <= old(alloc.remaining) ==>
      && ret == 0
      && inverted.regions == LeadingGap(head.regions[0]) + old(inverted.regions)
                             + InnerGaps(head.regions) + TrailingGap(head.regions[|head.regions| - 1])
      && alloc.remaining == old(alloc.remaining) - |Inverted(head.regions)|
    ensures head.regions != [] && |Inverted(head.regions)| > old(alloc.remaining) ==>
      ret == -ENOMEM && inverted.regions == [] && alloc.remaining == 0
  {
    var rs := head.regions;
    if |rs| == 0 {
      return -EINVAL;
    }
    ghost var lead, inner, trail := LeadingGap(rs[0]), InnerGaps(rs), TrailingGap(rs[|rs| - 1]);
    assert |Inverted(rs)| == |lead| + |inner| + |trail|;
    var ok, prev := InvertInnerGaps(rs, inverted, alloc);
    if !ok {
      inverted.regions := [];
      return -ENOMEM;
    }
    // the beginning
    var first := rs[0];
    if first.start != 0 {
      ok := alloc.Alloc();
      if !ok {
        inverted.regions := [];
        return -ENOMEM;
      }
      inverted.regions := [Region(0, first.start)] + inverted.regions;
    }
    assert inverted.regions == lead + old(inverted.regions) + inner;
    assert alloc.remaining == old(alloc.remaining) - |lead| - |inner|;
    // the end, with the overflow check corrected: see TrailingGapAsWritten
    var rsvStart := Add64(prev.start, prev.length);
    var rsvSize := Sub64(0, rsvStart);
    if rsvSize != 0 && U64_MAX - prev.start >= prev.length {
      ok := alloc.Alloc();
      if !ok {
        inverted.regions := [];
        return -ENOMEM;
      }
      inverted.regions := inverted.regions + [Region(rsvStart, rsvSize)];
    }
    return 0;
  }

  /** generic_iommu_put_resv_regions: every entry is freed. */
  method PutResvRegions(list: RegionList)
    modifies list
    ensures list.regions == []
  {
    list.regions := [];
  }

  /** qcom_iommu_generate_resv_regions: generates the pool regions, inverts
      them, frees them, and splices the reserved regions onto the front of
      head; on any failure head is left as it was. */
  method GenerateResvRegions(dev: Device, head: RegionList, alloc: Allocator)
    modifies head, alloc
    ensures head.regions == match ResvRegions(dev, old(alloc.remaining))
      case None => old(head.regions)
      case Some(resv) => resv + old(head.regions)
    ensures alloc.remaining == ResvRemaining(dev, old(alloc.remaining))
  {
    var dmaRegions := new RegionList();
    var resvRegions := new RegionList();
    var ret := GenerateDmaRegions(dev, dmaRegions, alloc);
    if ret != 0 {
      return;
    }
    ghost var dma := dmaRegions.regions;
    ret := InvertRegions(dmaRegions, resvRegions, alloc);
    PutResvRegions(dmaRegions);
    if ret != 0 {
      return;
    }
    assert LeadingGap(dma[0]) + [] + InnerGaps(dma) + TrailingGap(dma[|dma| - 1]) == Inverted(dma);
    // list_splice puts the reserved regions before head's own entries
    head.regions := resvRegions.regions + head.regions;
  }
}
