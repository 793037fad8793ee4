/** The PPS (pulse-per-second) register layout of the Qualcomm EMAC glue
    header: MAC_PPS_CONTROL holds one 8-bit field per PPS channel, and each
    channel has four target-time/interval/width registers. Channels are
    numbered 0 to 3 (the DWC_ETH_QOS_PPS_CH_* values). */
module QcomEthqosPps {
  import opened Bits

  const MAC_PPS_CONTROL: nat := 0xB70
  const PPSEN0: bv32 := 0x0000_0010      // BIT(4)
  const TRGTBUSY0: bv32 := 0x8000_0000   // BIT(31)
  const TTSL0: bv32 := 0x7FFF_FFFF       // GENMASK(30, 0)

  /** The PPS channels the driver drives. */
  predicate Channel(x: bv32) {
    x < 4
  }

  /** PPS_MAXIDX(x): the top bit of channel x's field. */
  function PpsMaxIdx(x: bv32): bv32
    requires Channel(x)
  {
    (x + 1) * 8 - 1
  }

  /** PPS_MINIDX(x): the bottom bit of channel x's field. */
  function PpsMinIdx(x: bv32): bv32
    requires Channel(x)
  {
    x * 8
  }

  /** PPSX_MASK(x): channel x's whole field is bits 8x..8x+7. */
  function PpsxMask(x: bv32): (r: bv32)
    requires Channel(x)
    ensures r == 0xFF << (x * 8)
    ensures forall k: bv32 {:trigger BitSet(r, k)} :: k < 32 ==> (BitSet(r, k) <==> x * 8 <= k <= x * 8 + 7)
  {
    GenMask(PpsMaxIdx(x), PpsMinIdx(x))
  }

  /** PPSCMDX(x, val): the 4-bit PPS command of channel x, the low four
      bits of val moved to bits 8x..8x+3. */
  function PpsCmdX(x: bv32, val: bv32): (r: bv32)
    requires Channel(x)
    ensures r == (val & 0xF) << (x * 8)
  {
    GenMask(PpsMinIdx(x) + 3, PpsMinIdx(x)) & (val << PpsMinIdx(x))
  }

  /** TRGTMODSELX(x, val): the 2-bit target-time mode of channel x, the
      low two bits of val moved to bits 8x+5..8x+6. */
  function TrgtModSelX(x: bv32, val: bv32): (r: bv32)
    requires Channel(x)
    ensures r == (val & 0x3) << (x * 8 + 5)
  {
    GenMask(PpsMaxIdx(x) - 1, PpsMaxIdx(x) - 2) & (val << (PpsMaxIdx(x) - 2))
  }

  /** MCGRENX(x): the MCGREN bit of channel x, bit 8x+7. */
  function McgrenX(x: bv32): (r: bv32)
    requires Channel(x)
    ensures r == 1 << (x * 8 + 7)
  {
    Bit(PpsMaxIdx(x))
  }

  /** Within one channel the command, mode and MCGREN parts do not overlap
      and all lie inside the channel's mask. */
  lemma ChannelFieldsDisjoint(x: bv32, cmd: bv32, mode: bv32)
    requires Channel(x)
    ensures PpsCmdX(x, cmd) & TrgtModSelX(x, mode) == 0
    ensures PpsCmdX(x, cmd) & McgrenX(x) == 0
    ensures TrgtModSelX(x, mode) & McgrenX(x) == 0
    ensures PpsCmdX(x, cmd) & PpsxMask(x) == PpsCmdX(x, cmd)
    ensures TrgtModSelX(x, mode) & PpsxMask(x) == TrgtModSelX(x, mode)
    ensures McgrenX(x) & PpsxMask(x) == McgrenX(x)
  {
  }

  /** The masks of two different channels do not overlap. */
  lemma ChannelMasksDisjoint(x: bv32, y: bv32)
    requires Channel(x) && Channel(y) && x != y
    ensures PpsxMask(x) & PpsxMask(y) == 0
  {
  }

  /** MAC_PPSX_TARGET_TIME_SEC(x) and the three registers that follow it. */
  function PpsTargetTimeSec(x: nat): nat { 0xB80 + x * 0x10 }
  function PpsTargetTimeNsec(x: nat): nat { 0xB84 + x * 0x10 }
  function PpsInterval(x: nat): nat { 0xB88 + x * 0x10 }
  function PpsWidth(x: nat): nat { 0xB8C + x * 0x10 }

  /** The four per-channel registers, as register number r (0 to 3). */
  function PpsRegister(r: nat, x: nat): nat
    requires r < 4
  {
    if r == 0 then PpsTargetTimeSec(x)
    else if r == 1 then PpsTargetTimeNsec(x)
    else if r == 2 then PpsInterval(x)
    else PpsWidth(x)
  }

  /** Each channel's block starts 0x10 after the previous one, the four
      registers are four bytes apart, and no two (register, channel) pairs
      share an offset; none of them is MAC_PPS_CONTROL. */
  lemma PpsRegistersDistinct(r: nat, x: nat, s: nat, y: nat)
    requires r < 4 && s < 4
    ensures PpsRegister(r, x) == 0xB80 + 0x10 * x + 4 * r
    ensures PpsRegister(r, x + 1) == PpsRegister(r, x) + 0x10
    ensures PpsRegister(r, x) == PpsRegister(s, y) ==> r == s && x == y
    ensures PpsRegister(r, x) != MAC_PPS_CONTROL
  {
  }

  /** RGMII_PRG_RCLK_CONST: half of four TCXO periods of 52 ns. */
  const RGMII_TCXO_PERIOD_NS: nat := 52
  const RGMII_TCXO_CYCLES_CNT: nat := 4
  const RGMII_PRG_RCLK_CONST: nat := RGMII_TCXO_PERIOD_NS * RGMII_TCXO_CYCLES_CNT / 2

  lemma PrgRclkConst()
    ensures RGMII_PRG_RCLK_CONST == 104
  {
  }
}
