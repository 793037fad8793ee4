/** The region algebra behind drivers/misc/iommu_iova_map.c: address-pool
    entries, the sorted list insert_range builds from them, and the reserved
    regions invert_regions derives from that list. Everything here is a pure
    function of its arguments; IommuIovaMap holds the imperative code. */
module IovaRegions {
  import opened Errno

  const U64_LIMIT: int := 0x1_0000_0000_0000_0000
  const U64_MAX: int := 0xFFFF_FFFF_FFFF_FFFF

  type u64 = x: int | 0 <= x < U64_LIMIT
  type u32 = x: int | 0 <= x < 0x1_0000_0000

  datatype Option<T> = None | Some(value: T)

  /** u64 addition and subtraction, which wrap around. */
  function Add64(a: u64, b: u64): u64 { (a + b) % U64_LIMIT }
  function Sub64(a: u64, b: u64): u64 { (a - b) % U64_LIMIT }

  /** struct iommu_resv_region: base address and length (the prot and type
      fields are always 0 and IOMMU_RESV_RESERVED here). Pool entries read
      from the device tree have the same (start, size) shape. */
  datatype Region = Region(start: u64, length: u64)

  // ---------------------------------------------------------------------
  // What a region means: the set of addresses it covers.

  predicate Covers(r: Region, a: int) {
    r.start <= a < r.start + r.length
  }

  predicate Covered(rs: seq<Region>, a: int) {
    exists i :: 0 <= i < |rs| && Covers(rs[i], a)
  }

  ghost predicate Intersect(r: Region, s: Region) {
    exists a :: Covers(r, a) && Covers(s, a)
  }

  /** Non-empty, and its last address is representable in 64 bits. */
  predicate Proper(r: Region) {
    r.length >= 1 && r.start + r.length <= U64_LIMIT
  }

  /** The invariant of the list insert_range maintains: proper regions in
      ascending order, each ending before the next begins. */
  predicate SortedDisjoint(rs: seq<Region>) {
    && (forall i :: 0 <= i < |rs| ==> Proper(rs[i]))
    && (forall i, j :: 0 <= i < j < |rs| ==> rs[i].start + rs[i].length <= rs[j].start)
  }

  lemma {:induction false} CoveredAppend(xs: seq<Region>, ys: seq<Region>, a: int)
    ensures Covered(xs + ys, a) <==> Covered(xs, a) || Covered(ys, a)
  {
    if Covered(xs + ys, a) {
      var i :| 0 <= i < |xs + ys| && Covers((xs + ys)[i], a);
      if i < |xs| {
        assert Covers(xs[i], a);
      } else {
        assert Covers(ys[i - |xs|], a);
      }
    }
    if Covered(xs, a) {
      var i :| 0 <= i < |xs| && Covers(xs[i], a);
      assert Covers((xs + ys)[i], a);
    }
    if Covered(ys, a) {
      var i :| 0 <= i < |ys| && Covers(ys[i], a);
      assert Covers((xs + ys)[|xs| + i], a);
    }
  }

  lemma {:induction false} CoveredSingle(r: Region, a: int)
    ensures Covered([r], a) <==> Covers(r, a)
  {
    if Covers(r, a) {
      assert Covers([r][0], a);
    }
  }

  /** Every region of a sorted disjoint list lies between the start of the
      first and the end of the last. */
  lemma SpanOf(rs: seq<Region>, a: int)
    requires SortedDisjoint(rs) && |rs| > 0
    ensures Covered(rs, a) ==> rs[0].start <= a < rs[|rs| - 1].start + rs[|rs| - 1].length
  {
    if Covered(rs, a) {
      var i :| 0 <= i < |rs| && Covers(rs[i], a);
      if i > 0 {
        assert rs[0].start + rs[0].length <= rs[i].start;
      }
      if i < |rs| - 1 {
        assert rs[i].start + rs[i].length <= rs[|rs| - 1].start;
      }
    }
  }

  /** Two sorted disjoint lists separated by the address m concatenate into
      one. */
  lemma SortedDisjointAppend(xs: seq<Region>, ys: seq<Region>, m: int)
    requires SortedDisjoint(xs) && SortedDisjoint(ys)
    requires forall i :: 0 <= i < |xs| ==> xs[i].start + xs[i].length <= m
    requires forall j :: 0 <= j < |ys| ==> m <= ys[j].start
    ensures SortedDisjoint(xs + ys)
  {
    var zs := xs + ys;
    forall i, j | 0 <= i < j < |zs|
      ensures zs[i].start + zs[i].length <= zs[j].start
    {
      if j < |xs| {
        assert zs[i] == xs[i] && zs[j] == xs[j];
      } else if i >= |xs| {
        assert zs[i] == ys[i - |xs|] && zs[j] == ys[j - |xs|];
      } else {
        assert zs[i] == xs[i] && zs[j] == ys[j - |xs|];
      }
    }
  }

  // ---------------------------------------------------------------------
  // check_overlap

  /** check_overlap: the region is read as the closed interval
      [start, start + length - 1], computed in u64; the candidate is the
      closed interval [start, end]. */
  predicate CheckOverlap(region: Region, start: u64, end: u64) {
    var regionEnd := Sub64(Add64(region.start, region.length), 1);
    end >= region.start && start <= regionEnd
  }

  /** The last address of an entry, computed as insert_range does:
      start + size - 1 in u64. */
  function EntryEnd(e: Region): u64 {
    Sub64(Add64(e.start, e.length), 1)
  }

  /** For proper regions the u64 computation is exact, and check_overlap
      reports overlap exactly when the two regions share an address. */
  lemma CheckOverlapIffIntersect(r: Region, e: Region)
    requires Proper(r) && Proper(e)
    ensures CheckOverlap(r, e.start, EntryEnd(e)) <==> Intersect(r, e)
  {
    ProperEnd(e);
    ProperEnd(r);
    if CheckOverlap(r, e.start, EntryEnd(e)) {
      var a := if r.start < e.start then e.start else r.start;
      assert Covers(r, a) && Covers(e, a);
    }
  }

  // ---------------------------------------------------------------------
  // insert_range

  /** Where insert_range links a region starting at `start`: before the
      first region with a larger start, or at the tail. */
  function InsertPos(rs: seq<Region>, start: u64): (p: nat)
    ensures p <= |rs|
    ensures forall k :: 0 <= k < p ==> rs[k].start <= start
    ensures p < |rs| ==> start < rs[p].start
  {
    if rs == [] then 0
    else if start < rs[0].start then 0
    else 1 + InsertPos(rs[1..], start)
  }

  /** The two properties above determine the position. */
  lemma InsertPosUnique(rs: seq<Region>, start: u64, p: nat)
    requires p <= |rs|
    requires forall k :: 0 <= k < p ==> rs[k].start <= start
    requires p < |rs| ==> start < rs[p].start
    ensures p == InsertPos(rs, start)
  {
  }

  /** insert_range's walk finds an overlapping region: it checks each region
      up to and including the first one with a larger start. */
  predicate ScanClash(rs: seq<Region>, start: u64, end: u64) {
    exists j :: 0 <= j < |rs| && j <= InsertPos(rs, start) && CheckOverlap(rs[j], start, end)
  }

  lemma ModBelow(x: int)
    requires -U64_LIMIT <= x < 0
    ensures x % U64_LIMIT == x + U64_LIMIT
  {
  }

  lemma ModWithin(x: int)
    requires 0 <= x < U64_LIMIT
    ensures x % U64_LIMIT == x
  {
  }

  lemma ModAbove(x: int)
    requires U64_LIMIT <= x < 2 * U64_LIMIT
    ensures x % U64_LIMIT == x - U64_LIMIT
  {
  }

  /** For a proper region the u64 computation of its last address is
      exact. */
  lemma ProperEnd(r: Region)
    requires Proper(r)
    ensures EntryEnd(r) == r.start + r.length - 1
  {
    var sum := r.start + r.length;
    if sum < U64_LIMIT {
      ModWithin(sum);
      ModWithin(sum - 1);
    } else {
      ModAbove(sum);
      ModBelow(-1);
    }
  }

  /** end - start + 1 in u64 gives the entry's length back, whether or not
      start + length wrapped. */
  lemma EntryLength(e: Region)
    ensures Add64(Sub64(EntryEnd(e), e.start), 1) == e.length
  {
    var sum := e.start + e.length;
    if sum == 0 {
      ModWithin(sum);
      ModBelow(-1);
      ModWithin(U64_MAX);
      ModAbove(U64_LIMIT);
    } else if sum < U64_LIMIT {
      ModWithin(sum);
      ModWithin(sum - 1);
      if e.length == 0 {
        ModBelow(-1);
        ModAbove(U64_LIMIT);
      } else {
        ModWithin(e.length - 1);
        ModWithin(e.length);
      }
    } else if sum == U64_LIMIT {
      ModAbove(sum);
      ModBelow(-1);
      ModWithin(U64_MAX - e.start);
      ModWithin(e.length);
    } else {
      ModAbove(sum);
      ModWithin(sum - U64_LIMIT - 1);
      ModBelow(e.length - 1 - U64_LIMIT);
      ModWithin(e.length);
    }
  }

  /** The region insert_range allocates: start, and length end - start + 1
      in u64. */
  function NewRegion(e: Region): (r: Region)
    ensures r == e
  {
    var end := EntryEnd(e);
    var length := Add64(Sub64(end, e.start), 1);
    EntryLength(e);
    Region(e.start, length)
  }

  /** The list after linking r at its insertion position. */
  function Inserted(rs: seq<Region>, r: Region): seq<Region> {
    var p := InsertPos(rs, r.start);
    rs[..p] + [r] + rs[p..]
  }

  /** What one call of insert_range returns and leaves behind, given how
      many allocations succeed from now on. */
  datatype Outcome = Outcome(ret: int, regions: seq<Region>, remaining: nat)

  function InsertStep(rs: seq<Region>, e: Region, remaining: nat): Outcome {
    if ScanClash(rs, e.start, EntryEnd(e)) then Outcome(-EINVAL, rs, remaining)
    else if remaining == 0 then Outcome(-ENOMEM, rs, remaining)
    else Outcome(0, Inserted(rs, NewRegion(e)), remaining - 1)
  }

  /** For a sorted disjoint list and a proper entry, the walk's clash check
      is complete: it fires exactly when the entry shares an address with
      some region of the list, even though it stops at the insertion
      position. */
  lemma ScanClashIffIntersect(rs: seq<Region>, e: Region)
    requires SortedDisjoint(rs) && Proper(e)
    ensures ScanClash(rs, e.start, EntryEnd(e)) <==> exists j :: 0 <= j < |rs| && Intersect(rs[j], e)
  {
    var end := EntryEnd(e);
    var p := InsertPos(rs, e.start);
    if ScanClash(rs, e.start, end) {
      var j :| 0 <= j < |rs| && j <= p && CheckOverlap(rs[j], e.start, end);
      CheckOverlapIffIntersect(rs[j], e);
    }
    if exists j :: 0 <= j < |rs| && Intersect(rs[j], e) {
      var j :| 0 <= j < |rs| && Intersect(rs[j], e);
      var a :| Covers(rs[j], a) && Covers(e, a);
      if j <= p {
        CheckOverlapIffIntersect(rs[j], e);
      } else {
        // rs[p] starts after e.start and no later than a, so e covers rs[p].start
        assert rs[p].start + rs[p].length <= rs[j].start;
        assert Covers(rs[p], rs[p].start) && Covers(e, rs[p].start);
        CheckOverlapIffIntersect(rs[p], e);
      }
    }
  }

  /** Without a clash, linking the entry keeps the list sorted and disjoint. */
  lemma InsertedSortedDisjoint(rs: seq<Region>, e: Region)
    requires SortedDisjoint(rs) && Proper(e)
    requires !ScanClash(rs, e.start, EntryEnd(e))
    ensures SortedDisjoint(Inserted(rs, e))
  {
    var p := InsertPos(rs, e.start);
    var end := EntryEnd(e);
    // regions before p end at or before e.start
    forall k | 0 <= k < p
      ensures rs[k].start + rs[k].length <= e.start
    {
      assert !CheckOverlap(rs[k], e.start, end);
      CheckOverlapIffIntersect(rs[k], e);
      if e.start < rs[k].start + rs[k].length {
        assert Covers(rs[k], e.start) && Covers(e, e.start);
      }
    }
    // e ends at or before rs[p] starts
    if p < |rs| {
      assert !CheckOverlap(rs[p], e.start, end);
      CheckOverlapIffIntersect(rs[p], e);
      if rs[p].start < e.start + e.length {
        assert Covers(rs[p], rs[p].start) && Covers(e, rs[p].start);
      }
    }
    var left := rs[..p] + [e];
    assert SortedDisjoint(left) by {
      forall i, j | 0 <= i < j < |left|
        ensures left[i].start + left[i].length <= left[j].start
      {
        assert left[i] == rs[i];
        if j < p {
          assert left[j] == rs[j];
        }
      }
    }
    assert SortedDisjoint(rs[p..]) by {
      forall i, j | 0 <= i < j < |rs[p..]|
        ensures rs[p..][i].start + rs[p..][i].length <= rs[p..][j].start
      {
        assert rs[p..][i] == rs[p + i] && rs[p..][j] == rs[p + j];
      }
    }
    forall j | 0 <= j < |rs[p..]|
      ensures e.start + e.length <= rs[p..][j].start
    {
      if j > 0 {
        assert rs[p..][j] == rs[p + j];
        assert rs[p].start + rs[p].length <= rs[p + j].start;
      }
    }
    forall i | 0 <= i < |left|
      ensures left[i].start + left[i].length <= e.start + e.length
    {
      if i < p {
        assert left[i] == rs[i];
      }
    }
    SortedDisjointAppend(left, rs[p..], e.start + e.length);
  }

  /** Linking adds exactly the entry's addresses. */
  lemma InsertedCovers(rs: seq<Region>, e: Region, a: int)
    ensures Covered(Inserted(rs, e), a) <==> Covered(rs, a) || Covers(e, a)
  {
    var p := InsertPos(rs, e.start);
    assert rs == rs[..p] + rs[p..];
    CoveredAppend(rs[..p], rs[p..], a);
    CoveredAppend(rs[..p] + [e], rs[p..], a);
    CoveredAppend(rs[..p], [e], a);
    CoveredSingle(e, a);
  }

  /** insert_range on a sorted disjoint list: it fails with -EINVAL, leaving
      the list as it was, exactly when the entry overlaps a region already
      there; otherwise the list stays sorted and disjoint and gains exactly
      the entry's addresses, one region longer. */
  lemma {:induction false} InsertStepCorrect(rs: seq<Region>, e: Region, remaining: nat)
    requires SortedDisjoint(rs) && Proper(e)
    ensures var o := InsertStep(rs, e, remaining);
      && (o.ret == -EINVAL <==> exists j :: 0 <= j < |rs| && Intersect(rs[j], e))
      && (o.ret == -ENOMEM <==> (remaining == 0 && !exists j :: 0 <= j < |rs| && Intersect(rs[j], e)))
      && (o.ret != 0 ==> o.regions == rs && o.remaining == remaining)
      && (o.ret == 0 ==> o.remaining == remaining - 1 && |o.regions| == |rs| + 1)
      && SortedDisjoint(o.regions)
      && (o.ret == 0 ==> forall a :: Covered(o.regions, a) <==> Covered(rs, a) || Covers(e, a))
  {
    ScanClashIffIntersect(rs, e);
    if !ScanClash(rs, e.start, EntryEnd(e)) {
      InsertedSortedDisjoint(rs, e);
      forall a ensures Covered(Inserted(rs, e), a) <==> Covered(rs, a) || Covers(e, a) {
        InsertedCovers(rs, e, a);
      }
    }
  }

  // ---------------------------------------------------------------------
  // of_property_walk_each_entry with the insert_range callback

  /** of_read_number: big-endian cells folded into a u64 (so only the last
      two cells count). */
  function ReadNumber(cells: seq<u32>): u64
    decreases |cells|
  {
    if cells == [] then 0
    else (ReadNumber(cells[..|cells| - 1]) * 0x1_0000_0000 + cells[|cells| - 1]) % U64_LIMIT
  }

  lemma ReadNumberTwoCells(hi: u32, lo: u32)
    ensures ReadNumber([hi, lo]) == hi * 0x1_0000_0000 + lo
  {
    assert [hi, lo][..1] == [hi];
    assert [hi][..0] == [];
    assert ReadNumber([hi]) == hi;
    assert hi * 0x1_0000_0000 + lo < U64_LIMIT;
  }

  /** The entry at the front of the cells: naddr address cells, then nsize
      size cells. */
  function EntryAt(cells: seq<u32>, naddr: nat, nsize: nat): Region
    requires |cells| >= naddr + nsize
  {
    Region(ReadNumber(cells[..naddr]), ReadNumber(cells[naddr..naddr + nsize]))
  }

  /** The (start, size) entries of a property of naddr + nsize cells each. */
  function DecodeEntries(cells: seq<u32>, naddr: nat, nsize: nat): seq<Region>
    requires naddr + nsize > 0
    decreases |cells|
  {
    var w := naddr + nsize;
    if |cells| < w then []
    else [EntryAt(cells, naddr, nsize)] + DecodeEntries(cells[w..], naddr, nsize)
  }

  /** The callback applied to each entry in order, stopping at the first
      non-zero return and propagating it. */
  function InsertAll(rs: seq<Region>, es: seq<Region>, remaining: nat): Outcome
    decreases |es|
  {
    if es == [] then Outcome(0, rs, remaining)
    else
      var o := InsertStep(rs, es[0], remaining);
      if o.ret != 0 then o else InsertAll(o.regions, es[1..], o.remaining)
  }

  /** The walk over es succeeds on the first k entries, and entry k then
      produces the outcome o. */
  predicate FailsAt(rs: seq<Region>, es: seq<Region>, remaining: nat, k: nat, o: Outcome)
    requires k < |es|
  {
    var before := InsertAll(rs, es[..k], remaining);
    before.ret == 0 && InsertStep(before.regions, es[k], before.remaining) == o
  }

  /** A failed walk is the successful walk over a prefix followed by one
      failing call: nothing after the failing entry is looked at. */
  lemma {:induction false} InsertAllStopsAtFirstFailure(rs: seq<Region>, es: seq<Region>, remaining: nat)
    requires InsertAll(rs, es, remaining).ret != 0
    ensures exists k :: 0 <= k < |es| && FailsAt(rs, es, remaining, k, InsertAll(rs, es, remaining))
    decreases |es|
  {
    var o := InsertStep(rs, es[0], remaining);
    assert es[..0] == [];
    if o.ret != 0 {
      assert FailsAt(rs, es, remaining, 0, InsertAll(rs, es, remaining));
    } else {
      InsertAllStopsAtFirstFailure(o.regions, es[1..], o.remaining);
      var k :| 0 <= k < |es[1..]| && FailsAt(o.regions, es[1..], o.remaining, k, InsertAll(o.regions, es[1..], o.remaining));
      assert es[..k + 1][0] == es[0] && es[..k + 1][1..] == es[1..][..k];
      assert es[1..][k] == es[k + 1];
      assert FailsAt(rs, es, remaining, k + 1, InsertAll(rs, es, remaining));
    }
  }

  /** Walking proper entries from a sorted disjoint list, successfully:
      the list stays sorted and disjoint and covers exactly the old
      addresses and those of the entries, one region per entry. */
  lemma {:induction false} InsertAllSuccess(rs: seq<Region>, es: seq<Region>, remaining: nat)
    requires SortedDisjoint(rs)
    requires forall k :: 0 <= k < |es| ==> Proper(es[k])
    requires InsertAll(rs, es, remaining).ret == 0
    ensures var o := InsertAll(rs, es, remaining);
      && SortedDisjoint(o.regions)
      && |o.regions| == |rs| + |es|
      && o.remaining == remaining - |es|
      && forall a :: Covered(o.regions, a) <==> Covered(rs, a) || Covered(es, a)
    decreases |es|
  {
    if es != [] {
      var o := InsertStep(rs, es[0], remaining);
      InsertStepCorrect(rs, es[0], remaining);
      InsertAllSuccess(o.regions, es[1..], o.remaining);
      CoveredCons(es);
    }
  }

  /** A list covers what its head and its tail cover. */
  lemma CoveredCons(es: seq<Region>)
    requires |es| > 0
    ensures forall a :: Covered(es, a) <==> Covers(es[0], a) || Covered(es[1..], a)
  {
    assert es == [es[0]] + es[1..];
    forall a ensures Covered(es, a) <==> Covers(es[0], a) || Covered(es[1..], a) {
      CoveredAppend([es[0]], es[1..], a);
      CoveredSingle(es[0], a);
    }
  }

  /** No address of a pool entry is already covered by rs. */
  ghost predicate Clear(rs: seq<Region>, es: seq<Region>) {
    forall k, a :: 0 <= k < |es| && Covers(es[k], a) ==> !Covered(rs, a)
  }

  /** No two pool entries share an address. */
  ghost predicate PoolDisjoint(es: seq<Region>) {
    forall k, l, a :: 0 <= k < l < |es| && Covers(es[k], a) ==> !Covers(es[l], a)
  }

  /** An entry clashes with a list iff it shares an address with its
      coverage. */
  lemma ClashIffShared(rs: seq<Region>, e: Region)
    ensures (exists j :: 0 <= j < |rs| && Intersect(rs[j], e)) <==> (exists a :: Covers(e, a) && Covered(rs, a))
  {
    if exists a :: Covers(e, a) && Covered(rs, a) {
      var a :| Covers(e, a) && Covered(rs, a);
      var j :| 0 <= j < |rs| && Covers(rs[j], a);
      assert Intersect(rs[j], e);
    }
  }

  /** With enough allocations, a walk over proper entries succeeds exactly
      when no entry touches the list and no two entries overlap; from an
      empty list, exactly when the pool entries are pairwise disjoint. */
  lemma {:induction false} InsertAllSucceedsIffDisjoint(rs: seq<Region>, es: seq<Region>, remaining: nat)
    requires SortedDisjoint(rs)
    requires forall k :: 0 <= k < |es| ==> Proper(es[k])
    requires remaining >= |es|
    ensures InsertAll(rs, es, remaining).ret == 0 <==> Clear(rs, es) && PoolDisjoint(es)
    decreases |es|
  {
    if es != [] {
      var e, tail := es[0], es[1..];
      var o := InsertStep(rs, e, remaining);
      InsertStepCorrect(rs, e, remaining);
      ClashIffShared(rs, e);
      if o.ret == 0 {
        var rs' := o.regions;
        InsertAllSucceedsIffDisjoint(rs', tail, o.remaining);
        assert forall a :: Covers(e, a) ==> !Covered(rs, a);
        ClearPoolCons(rs, rs', es);
      } else {
        var a :| Covers(e, a) && Covered(rs, a);
        assert !Clear(rs, es);
      }
    }
  }

  /** Once the head of the pool is linked into rs, giving rs', the pool is
      clear of rs and disjoint exactly when its tail is clear of rs' and
      disjoint. */
  lemma ClearPoolCons(rs: seq<Region>, rs': seq<Region>, es: seq<Region>)
    requires |es| > 0
    requires forall a :: Covers(es[0], a) ==> !Covered(rs, a)
    requires forall a :: Covered(rs', a) <==> Covered(rs, a) || Covers(es[0], a)
    ensures Clear(rs, es) && PoolDisjoint(es) <==> Clear(rs', es[1..]) && PoolDisjoint(es[1..])
  {
    if Clear(rs', es[1..]) && PoolDisjoint(es[1..]) {
      ClearPoolIntro(rs, rs', es);
    }
    if Clear(rs, es) && PoolDisjoint(es) {
      ClearPoolElim(rs, rs', es);
    }
  }

  lemma ClearPoolIntro(rs: seq<Region>, rs': seq<Region>, es: seq<Region>)
    requires |es| > 0
    requires forall a :: Covers(es[0], a) ==> !Covered(rs, a)
    requires forall a :: Covered(rs', a) <==> Covered(rs, a) || Covers(es[0], a)
    requires Clear(rs', es[1..]) && PoolDisjoint(es[1..])
    ensures Clear(rs, es) && PoolDisjoint(es)
  {
    var tail := es[1..];
    forall k, a | 0 <= k < |es| && Covers(es[k], a) ensures !Covered(rs, a) {
      if k > 0 {
        assert tail[k - 1] == es[k];
        assert !Covered(rs', a);
      }
    }
    forall k, l, a | 0 <= k < l < |es| && Covers(es[k], a) ensures !Covers(es[l], a) {
      assert tail[l - 1] == es[l];
      if k > 0 {
        assert tail[k - 1] == es[k];
      } else {
        assert Covered(rs', a);
      }
    }
  }

  lemma ClearPoolElim(rs: seq<Region>, rs': seq<Region>, es: seq<Region>)
    requires |es| > 0
    requires forall a :: Covered(rs', a) <==> Covered(rs, a) || Covers(es[0], a)
    requires Clear(rs, es) && PoolDisjoint(es)
    ensures Clear(rs', es[1..]) && PoolDisjoint(es[1..])
  {
    var tail := es[1..];
    forall k, a | 0 <= k < |tail| && Covers(tail[k], a) ensures !Covered(rs', a) {
      assert tail[k] == es[k + 1];
    }
    forall k, l, a | 0 <= k < l < |tail| && Covers(tail[k], a) ensures !Covers(tail[l], a) {
      assert tail[k] == es[k + 1] && tail[l] == es[l + 1];
    }
  }

  // ---------------------------------------------------------------------
  // invert_regions

  /** The reserved region between two consecutive regions, computed as the
      source does in u64 arithmetic; nothing when the gap is empty. */
  function GapBetween(prev: Region, curr: Region): seq<Region> {
    var rsvStart := Add64(prev.start, prev.length);
    var rsvSize := Sub64(curr.start, rsvStart);
    if rsvSize != 0 then [Region(rsvStart, rsvSize)] else []
  }

  /** The gaps between consecutive regions, in list order. */
  function InnerGaps(rs: seq<Region>): seq<Region>
    decreases |rs|
  {
    if |rs| < 2 then []
    else InnerGaps(rs[..|rs| - 1]) + GapBetween(rs[|rs| - 2], rs[|rs| - 1])
  }

  /** [0, first.start) when the first region does not start at 0. */
  function LeadingGap(first: Region): seq<Region> {
    if first.start != 0 then [Region(0, first.start)] else []
  }

  /** The trailing region as iommu_iova_map.c:181-184 computes it: the guard
      `U64_MAX - start > length` also rejects a last region that ends at
      U64_MAX - 1, whose gap [U64_MAX, U64_MAX] is then not reserved. */
  function TrailingGapAsWritten(last: Region): seq<Region> {
    var rsvStart := Add64(last.start, last.length);
    var rsvSize := Sub64(0, rsvStart);
    if rsvSize != 0 && U64_MAX - last.start > last.length then [Region(rsvStart, rsvSize)] else []
  }

  /** The trailing region with the overflow guard the comment asks for:
      start + length must not exceed U64_MAX. */
  function TrailingGap(last: Region): seq<Region> {
    var rsvStart := Add64(last.start, last.length);
    var rsvSize := Sub64(0, rsvStart);
    if rsvSize != 0 && U64_MAX - last.start >= last.length then [Region(rsvStart, rsvSize)] else []
  }

  /** The reserved regions, in the order they end up on the inverted list. */
  function Inverted(rs: seq<Region>): seq<Region>
    requires |rs| > 0
  {
    LeadingGap(rs[0]) + InnerGaps(rs) + TrailingGap(rs[|rs| - 1])
  }

  function InvertedAsWritten(rs: seq<Region>): seq<Region>
    requires |rs| > 0
  {
    LeadingGap(rs[0]) + InnerGaps(rs) + TrailingGapAsWritten(rs[|rs| - 1])
  }

  lemma SortedDisjointInit(rs: seq<Region>)
    requires SortedDisjoint(rs) && |rs| > 0
    ensures SortedDisjoint(rs[..|rs| - 1])
  {
    var init := rs[..|rs| - 1];
    assert forall i :: 0 <= i < |init| ==> init[i] == rs[i];
  }

  /** In a sorted disjoint list the u64 arithmetic of GapBetween is exact:
      the gap is [end of prev, start of curr), or nothing. */
  lemma GapBetweenExact(prev: Region, curr: Region)
    requires Proper(prev) && prev.start + prev.length <= curr.start
    ensures var end := prev.start + prev.length;
      GapBetween(prev, curr) == if end < curr.start then [Region(end, curr.start - end)] else []
  {
  }

  lemma GapBetweenCovers(prev: Region, curr: Region, a: int)
    requires Proper(prev) && prev.start + prev.length <= curr.start
    ensures Covered(GapBetween(prev, curr), a) <==> prev.start + prev.length <= a < curr.start
  {
    GapBetweenExact(prev, curr);
    var gap := GapBetween(prev, curr);
    if gap != [] {
      CoveredSingle(gap[0], a);
    }
  }

  /** The gaps of a sorted disjoint list are sorted and disjoint and lie
      between the end of its first region and the start of its last. */
  lemma {:induction false} InnerGapsSorted(rs: seq<Region>)
    requires SortedDisjoint(rs) && |rs| > 0
    ensures SortedDisjoint(InnerGaps(rs))
    ensures forall g :: 0 <= g < |InnerGaps(rs)| ==>
      rs[0].start + rs[0].length <= InnerGaps(rs)[g].start &&
      InnerGaps(rs)[g].start + InnerGaps(rs)[g].length <= rs[|rs| - 1].start
    decreases |rs|
  {
    var n := |rs|;
    if n >= 2 {
      var init := rs[..n - 1];
      var prev, last := rs[n - 2], rs[n - 1];
      SortedDisjointInit(rs);
      InnerGapsSorted(init);
      assert init[0] == rs[0] && init[|init| - 1] == prev;
      var end := prev.start + prev.length;
      assert end <= last.start;
      assert rs[0].start + rs[0].length <= end by {
        if n > 2 {
          assert rs[0].start + rs[0].length <= prev.start;
        }
      }
      GapBetweenExact(prev, last);
      var inner, gap := InnerGaps(init), GapBetween(prev, last);
      SortedDisjointAppend(inner, gap, end);
      assert InnerGaps(rs) == inner + gap;
      forall g | 0 <= g < |InnerGaps(rs)|
        ensures rs[0].start + rs[0].length <= InnerGaps(rs)[g].start
        ensures InnerGaps(rs)[g].start + InnerGaps(rs)[g].length <= last.start
      {
        if g < |inner| {
          assert InnerGaps(rs)[g] == inner[g];
        }
      }
    }
  }

  /** The gaps of a sorted disjoint list cover exactly the addresses inside
      its span that it does not cover. */
  lemma {:induction false} InnerGapsCover(rs: seq<Region>, a: int)
    requires SortedDisjoint(rs) && |rs| > 0
    ensures Covered(InnerGaps(rs), a) <==>
      (rs[0].start <= a < rs[|rs| - 1].start + rs[|rs| - 1].length && !Covered(rs, a))
    decreases |rs|
  {
    var n := |rs|;
    if n == 1 {
      CoveredSingle(rs[0], a);
      assert rs == [rs[0]];
    } else {
      var init := rs[..n - 1];
      var prev, last := rs[n - 2], rs[n - 1];
      SortedDisjointInit(rs);
      InnerGapsCover(init, a);
      assert init[0] == rs[0] && init[|init| - 1] == prev;
      assert prev.start + prev.length <= last.start;
      GapBetweenCovers(prev, last, a);
      assert InnerGaps(rs) == InnerGaps(init) + GapBetween(prev, last);
      CoveredAppend(InnerGaps(init), GapBetween(prev, last), a);
      assert rs == init + [last];
      CoveredAppend(init, [last], a);
      CoveredSingle(last, a);
      SpanOf(init, a);
    }
  }

  /** For a proper last region the trailing gap is exactly
      [end of last, 2^64), or nothing when the last region reaches the top. */
  lemma TrailingGapExact(last: Region)
    requires Proper(last)
    ensures var end := last.start + last.length;
      TrailingGap(last) == if end < U64_LIMIT then [Region(end, U64_LIMIT - end)] else []
  {
  }

  lemma LeadingGapCovers(first: Region, a: int)
    requires 0 <= a
    ensures Covered(LeadingGap(first), a) <==> a < first.start
  {
    if first.start != 0 {
      CoveredSingle(Region(0, first.start), a);
    }
  }

  lemma TrailingGapCovers(last: Region, a: int)
    requires Proper(last) && a < U64_LIMIT
    ensures Covered(TrailingGap(last), a) <==> last.start + last.length <= a
  {
    TrailingGapExact(last);
    var trail := TrailingGap(last);
    if trail != [] {
      CoveredSingle(trail[0], a);
    }
  }

  /** invert_regions on a sorted disjoint list yields a sorted disjoint list
      of proper regions. */
  lemma InvertedSortedDisjoint(rs: seq<Region>)
    requires SortedDisjoint(rs) && |rs| > 0
    ensures SortedDisjoint(Inverted(rs))
  {
    var last := rs[|rs| - 1];
    var end := last.start + last.length;
    FrontSortedDisjoint(rs);
    TrailingGapSorted(last);
    SortedDisjointAppend(LeadingGap(rs[0]) + InnerGaps(rs), TrailingGap(last), end);
  }

  /** The leading gap and the inner gaps together are sorted and disjoint
      and end before the last region does. */
  lemma FrontSortedDisjoint(rs: seq<Region>)
    requires SortedDisjoint(rs) && |rs| > 0
    ensures var front := LeadingGap(rs[0]) + InnerGaps(rs);
      && SortedDisjoint(front)
      && forall i :: 0 <= i < |front| ==> front[i].start + front[i].length <= rs[|rs| - 1].start + rs[|rs| - 1].length
  {
    var first, last := rs[0], rs[|rs| - 1];
    InnerGapsSorted(rs);
    var lead, inner := LeadingGap(first), InnerGaps(rs);
    var end := last.start + last.length;
    assert first.start + first.length <= end by {
      if |rs| > 1 {
        assert first.start + first.length <= last.start;
      }
    }
    SortedDisjointAppend(lead, inner, first.start);
    var front := lead + inner;
    forall i | 0 <= i < |front|
      ensures front[i].start + front[i].length <= end
    {
      if i >= |lead| {
        assert front[i] == inner[i - |lead|];
      }
    }
  }

  /** The trailing gap is sorted and disjoint and starts where the last
      region ends. */
  lemma TrailingGapSorted(last: Region)
    requires Proper(last)
    ensures SortedDisjoint(TrailingGap(last))
    ensures forall j :: 0 <= j < |TrailingGap(last)| ==> last.start + last.length <= TrailingGap(last)[j].start
  {
    TrailingGapExact(last);
  }

  /** invert_regions computes the complement: on a sorted disjoint list, an
      address is reserved exactly when no region covers it. */
  lemma InvertedIsComplement(rs: seq<Region>, a: int)
    requires SortedDisjoint(rs) && |rs| > 0
    requires 0 <= a < U64_LIMIT
    ensures Covered(Inverted(rs), a) <==> !Covered(rs, a)
  {
    var first, last := rs[0], rs[|rs| - 1];
    InnerGapsCover(rs, a);
    SpanOf(rs, a);
    LeadingGapCovers(first, a);
    TrailingGapCovers(last, a);
    var lead, inner, trail := LeadingGap(first), InnerGaps(rs), TrailingGap(last);
    CoveredAppend(lead + inner, trail, a);
    CoveredAppend(lead, inner, a);
  }

  /** The source's guard leaves the last address unreserved: with one pool
      region [0, U64_MAX - 1], address U64_MAX is in no pool region and in
      no reserved region. */
  lemma AsWrittenLeavesLastAddressUnreserved()
    ensures var rs := [Region(0, U64_MAX)];
      SortedDisjoint(rs) && !Covered(rs, U64_MAX) && !Covered(InvertedAsWritten(rs), U64_MAX)
      && Covered(Inverted(rs), U64_MAX)
  {
    var rs := [Region(0, U64_MAX)];
    CoveredSingle(rs[0], U64_MAX);
    assert InnerGaps(rs) == [];
    assert InvertedAsWritten(rs) == [];
    assert Inverted(rs) == [Region(U64_MAX, 1)];
    CoveredSingle(Region(U64_MAX, 1), U64_MAX);
  }

  /** Why the walk's properties are stated for proper entries only: a
      zero-size entry at 10 is linked as a region whose u64 end is 9, so the
      entry (9, size 2) after it is rejected although the two share no
      address. */
  lemma ZeroSizeEntryRejectsDisjointEntry()
    ensures var es := [Region(10, 0), Region(9, 2)];
      InsertAll([], es, 2).ret == -EINVAL && !Intersect(es[0], es[1])
  {
    var es := [Region(10, 0), Region(9, 2)];
    var o := InsertStep([], es[0], 2);
    assert o == Outcome(0, [Region(10, 0)], 1);
    assert ScanClash(o.regions, 9, EntryEnd(es[1]));
    assert InsertAll([], es, 2) == InsertStep(o.regions, es[1], 1);
  }

  /** Walking a prefix of the list never finds more gaps than the whole. */
  lemma {:induction false} InnerGapsPrefix(rs: seq<Region>, k: nat)
    requires k <= |rs|
    ensures |InnerGaps(rs[..k])| <= |InnerGaps(rs)|
    decreases |rs| - k
  {
    if k < |rs| {
      InnerGapsPrefix(rs, k + 1);
      assert rs[..k + 1][..k] == rs[..k];
    } else {
      assert rs[..k] == rs;
    }
  }
}
