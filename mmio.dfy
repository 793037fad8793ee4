/** A memory-mapped register block: the value each offset holds, and the
    trace of 32-bit stores (writel) in the order they were issued. */
module Mmio {
  datatype Write = Write(offset: nat, value: bv32)

  /** The register values after the stores of a trace, in order. */
  function Stores(regs: map<nat, bv32>, ws: seq<Write>): (r: map<nat, bv32>)
    ensures r.Keys == regs.Keys + set w | w in ws :: w.offset
    decreases |ws|
  {
    if ws == [] then regs else Stores(regs[ws[0].offset := ws[0].value], ws[1..])
  }

  /** One more store at the end of a trace updates one offset. */
  lemma {:induction false} StoresSnoc(regs: map<nat, bv32>, ws: seq<Write>, w: Write)
    ensures Stores(regs, ws + [w]) == Stores(regs, ws)[w.offset := w.value]
    decreases |ws|
  {
    if ws != [] {
      assert (ws + [w])[1..] == ws[1..] + [w];
      StoresSnoc(regs[ws[0].offset := ws[0].value], ws[1..], w);
    }
  }

  class Block {
    var regs: map<nat, bv32>
    var writes: seq<Write>

    constructor (initial: map<nat, bv32>)
      ensures regs == initial && writes == []
    {
      regs := initial;
      writes := [];
    }

    /** readl */
    method Readl(offset: nat) returns (v: bv32)
      requires offset in regs
      ensures v == regs[offset]
    {
      v := regs[offset];
    }

    /** writel: the offset now holds the value, and the store is traced. */
    method Writel(value: bv32, offset: nat)
      modifies this
      ensures regs == old(regs)[offset := value]
      ensures writes == old(writes) + [Write(offset, value)]
    {
      regs := regs[offset := value];
      writes := writes + [Write(offset, value)];
    }
  }
}
