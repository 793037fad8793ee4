/** The Qualcomm KASLR offset store (kaslr_offset_store.c): at probe the
    driver maps a small memory region and leaves a record in it for tools
    that read memory after a crash: a magic word, then the 64-bit KASLR
    offset as its low and its high 32-bit halves. */
module KaslrOffsetStore {
  import Mmio

  const KASLR_MAGIC: bv32 := 0xDEAD_4EAD
  const KASLR_OFFSET_BIT_MASK: bv64 := 0x0000_0000_FFFF_FFFF

  /** `kaslr_off & KASLR_OFFSET_BIT_MASK`, narrowed to the 32 bits writel
      stores. */
  function LowWord(off: bv64): bv32 {
    (off & KASLR_OFFSET_BIT_MASK) as bv32
  }

  /** `(kaslr_off >> 32) & KASLR_OFFSET_BIT_MASK`, narrowed likewise. */
  function HighWord(off: bv64): bv32 {
    ((off >> 32) & KASLR_OFFSET_BIT_MASK) as bv32
  }

  /** The three stores of the probe, at offsets 0, 4 and 8. */
  function Record(off: bv64): (ws: seq<Mmio.Write>)
    ensures |ws| == 3
    ensures ws[0] == Mmio.Write(0, KASLR_MAGIC)
    ensures ws[1].offset == 4 && ws[2].offset == 8
  {
    [Mmio.Write(0, KASLR_MAGIC), Mmio.Write(4, LowWord(off)), Mmio.Write(8, HighWord(off))]
  }

  /** What a reader of the region recovers: the offset, when word 0 holds
      the magic. */
  function ReadRecord(regs: map<nat, bv32>): (r: Option<bv64>)
    ensures r.Some? ==> 0 in regs && regs[0] == KASLR_MAGIC
  {
    if 0 in regs && 4 in regs && 8 in regs && regs[0] == KASLR_MAGIC then
      Some(((regs[8] as bv64) << 32) | (regs[4] as bv64))
    else None
  }

  datatype Option<T> = None | Some(value: T)

  /** The two halves put back together give the offset: or-ed as bit
      fields, and as the sum word 4 + 2^32 * word 8 in 64-bit arithmetic. */
  lemma SplitRoundTrip(off: bv64)
    ensures ((HighWord(off) as bv64) << 32) | (LowWord(off) as bv64) == off
    ensures (LowWord(off) as bv64) + 0x1_0000_0000 * (HighWord(off) as bv64) == off
  {
  }

  /** The stores of the record, one offset at a time. */
  lemma StoresRecord(regs: map<nat, bv32>, off: bv64)
    ensures Mmio.Stores(regs, Record(off)) == regs[0 := KASLR_MAGIC][4 := LowWord(off)][8 := HighWord(off)]
  {
    var w0, w1, w2 := Mmio.Write(0, KASLR_MAGIC), Mmio.Write(4, LowWord(off)), Mmio.Write(8, HighWord(off));
    var r0 := regs[0 := KASLR_MAGIC];
    var r1 := r0[4 := LowWord(off)];
    var r2 := r1[8 := HighWord(off)];
    assert [w0, w1, w2][1..] == [w1, w2] && [w1, w2][1..] == [w2] && [w2][1..] == [];
    assert Mmio.Stores(r1, [w2]) == Mmio.Stores(r2, []) == r2;
    assert Mmio.Stores(r0, [w1, w2]) == Mmio.Stores(r1, [w2]);
    assert Mmio.Stores(regs, [w0, w1, w2]) == Mmio.Stores(r0, [w1, w2]);
  }

  /** Whatever the region held, after the three stores a reader recovers
      exactly the offset. */
  lemma RecordReadsBack(regs: map<nat, bv32>, off: bv64)
    ensures ReadRecord(Mmio.Stores(regs, Record(off))) == Some(off)
  {
    StoresRecord(regs, off);
    SplitRoundTrip(off);
  }

  /** The outcome of devm_platform_ioremap_resource: the mapped region, or
      an error pointer carrying a negative errno. */
  datatype Mapping = Mapped(base: Mmio.Block) | MapFailed(err: int)

  /** kaslr_off_store_probe, with kaslr_offset() passed in. A failed
      mapping returns its error and stores nothing; otherwise the three
      words are stored in order and 0 is returned. */
  method Probe(mapping: Mapping, kaslrOff: bv64) returns (ret: int)
    requires mapping.MapFailed? ==> mapping.err < 0
    modifies if mapping.Mapped? then {mapping.base} else {}
    ensures mapping.MapFailed? ==> ret == mapping.err
    ensures mapping.Mapped? ==>
      && ret == 0
      && mapping.base.writes == old(mapping.base.writes) + Record(kaslrOff)
      && mapping.base.regs == Mmio.Stores(old(mapping.base.regs), Record(kaslrOff))
  {
    if mapping.MapFailed? {
      return mapping.err;
    }
    var base := mapping.base;
    base.Writel(KASLR_MAGIC, 0);
    base.Writel(((kaslrOff & KASLR_OFFSET_BIT_MASK) as bv32), 4);
    base.Writel((((kaslrOff >> 32) & KASLR_OFFSET_BIT_MASK) as bv32), 8);
    StoresRecord(old(base.regs), kaslrOff);
    ret := 0;
  }
}
