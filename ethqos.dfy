/** drivers/net/ethernet/stmicro/stmmac/dwmac-qcom-ethqos.c: programming the
    RGMII I/O macro of the Qualcomm EMAC glue for a link speed. The RGMII
    block and the MAC block are register maps with a write trace
    (Mmio.Block); the driver state is a class. Each phase of the
    programming is summed up by a function that says what the registers
    hold afterwards, and the methods, which perform the individual
    read-modify-writes of the source, are proved to end in that state. */
module DwmacQcomEthqos {
  import opened Bits
  import opened Errno
  import Mmio

  // Register offsets in the RGMII I/O macro block.
  const RGMII_IO_MACRO_CONFIG: nat := 0x0
  const SDCC_HC_REG_DLL_CONFIG: nat := 0x4
  const SDCC_TEST_CTL: nat := 0x8
  const SDCC_HC_REG_DDR_CONFIG: nat := 0xC
  const SDCC_HC_REG_DLL_CONFIG2: nat := 0x10
  const SDC4_STATUS: nat := 0x14
  const SDCC_USR_CTL: nat := 0x18
  const RGMII_IO_MACRO_CONFIG2: nat := 0x1C
  const RGMII_IO_MACRO_DEBUG1: nat := 0x20
  const EMAC_SYSTEM_LOW_POWER_DEBUG: nat := 0x28

  /** MAC configuration register in the MAC block (GMAC_CONFIG). */
  const MAC_CTRL_REG: nat := 0x0

  const RgmiiOffsets: set<nat> := {
    RGMII_IO_MACRO_CONFIG, SDCC_HC_REG_DLL_CONFIG, SDCC_TEST_CTL, SDCC_HC_REG_DDR_CONFIG,
    SDCC_HC_REG_DLL_CONFIG2, SDC4_STATUS, SDCC_USR_CTL, RGMII_IO_MACRO_CONFIG2,
    RGMII_IO_MACRO_DEBUG1, EMAC_SYSTEM_LOW_POWER_DEBUG }

  // RGMII_IO_MACRO_CONFIG fields
  const RGMII_CONFIG_FUNC_CLK_EN: bv32 := 0x4000_0000
  const RGMII_CONFIG_POS_NEG_DATA_SEL: bv32 := 0x0080_0000
  const RGMII_CONFIG_GPIO_CFG_RX_INT: bv32 := 0x0030_0000
  const RGMII_CONFIG_GPIO_CFG_TX_INT: bv32 := 0x000E_0000
  const RGMII_CONFIG_MAX_SPD_PRG_9: bv32 := 0x0001_FF00
  const RGMII_CONFIG_MAX_SPD_PRG_2: bv32 := 0x0000_00C0
  const RGMII_CONFIG_INTF_SEL: bv32 := 0x0000_0030
  const RGMII_CONFIG_BYPASS_TX_ID_EN: bv32 := 0x0000_0008
  const RGMII_CONFIG_LOOPBACK_EN: bv32 := 0x0000_0004
  const RGMII_CONFIG_PROG_SWAP: bv32 := 0x0000_0002
  const RGMII_CONFIG_DDR_MODE: bv32 := 0x0000_0001

  // SDCC_HC_REG_DLL_CONFIG fields
  const SDCC_DLL_CONFIG_DLL_RST: bv32 := 0x4000_0000
  const SDCC_DLL_CONFIG_PDN: bv32 := 0x2000_0000
  const SDCC_DLL_CONFIG_MCLK_FREQ: bv32 := 0x0700_0000
  const SDCC_DLL_CONFIG_CDR_SELEXT: bv32 := 0x00F0_0000
  const SDCC_DLL_CONFIG_CDR_EXT_EN: bv32 := 0x0008_0000
  const SDCC_DLL_CONFIG_CK_OUT_EN: bv32 := 0x0004_0000
  const SDCC_DLL_CONFIG_CDR_EN: bv32 := 0x0002_0000
  const SDCC_DLL_CONFIG_DLL_EN: bv32 := 0x0001_0000
  const SDCC_DLL_MCLK_GATING_EN: bv32 := 0x0000_0020
  const SDCC_DLL_CDR_FINE_PHASE: bv32 := 0x0000_000C

  // SDCC_HC_REG_DDR_CONFIG fields
  const SDCC_DDR_CONFIG_PRG_DLY_EN: bv32 := 0x8000_0000
  const SDCC_DDR_CONFIG_EXT_PRG_RCLK_DLY: bv32 := 0x07E0_0000
  const SDCC_DDR_CONFIG_EXT_PRG_RCLK_DLY_CODE: bv32 := 0x3800_0000
  const SDCC_DDR_CONFIG_EXT_PRG_RCLK_DLY_EN: bv32 := 0x4000_0000
  const SDCC_DDR_CONFIG_TCXO_CYCLES_CNT: bv32 := 0x0000_0E00
  const SDCC_DDR_CONFIG_PRG_RCLK_DLY: bv32 := 0x0000_01FF

  // SDCC_HC_REG_DLL_CONFIG2 fields
  const SDCC_DLL_CONFIG2_DLL_CLOCK_DIS: bv32 := 0x0020_0000
  const SDCC_DLL_CONFIG2_MCLK_FREQ_CALC: bv32 := 0x0003_FC00
  const SDCC_DLL_CONFIG2_DDR_TRAFFIC_INIT_SEL: bv32 := 0x0000_000C
  const SDCC_DLL_CONFIG2_DDR_TRAFFIC_INIT_SW: bv32 := 0x0000_0002
  const SDCC_DLL_CONFIG2_DDR_CAL_EN: bv32 := 0x0000_0001

  // SDC4_STATUS bits
  const SDC4_STATUS_DLL_LOCK: bv32 := 0x0000_0080

  // RGMII_IO_MACRO_CONFIG2 fields
  const RGMII_CONFIG2_RSVD_CONFIG15: bv32 := 0xFFFE_0000
  const RGMII_CONFIG2_RGMII_CLK_SEL_CFG: bv32 := 0x0001_0000
  const RGMII_CONFIG2_TX_TO_RX_LOOPBACK_EN: bv32 := 0x0000_2000
  const RGMII_CONFIG2_CLK_DIVIDE_SEL: bv32 := 0x0000_1000
  const RGMII_CONFIG2_RX_PROG_SWAP: bv32 := 0x0000_0080
  const RGMII_CONFIG2_DATA_DIVIDE_CLK_SEL: bv32 := 0x0000_0040
  const RGMII_CONFIG2_TX_CLK_PHASE_SHIFT_EN: bv32 := 0x0000_0020

  // Link speeds (SPEED_* of the kernel's ethtool header)
  const SPEED_10: nat := 10
  const SPEED_100: nat := 100
  const SPEED_1000: nat := 1000

  // Clock rates
  const RGMII_1000_NOM_CLK_FREQ: nat := 250 * 1000 * 1000
  const RGMII_ID_MODE_100_LOW_SVS_CLK_FREQ: nat := 50 * 1000 * 1000
  const RGMII_ID_MODE_10_LOW_SVS_CLK_FREQ: nat := 5 * 1000 * 1000

  /** struct ethqos_emac_por: one power-on-reset register value. */
  datatype Por = Por(offset: nat, value: bv32)

  /** The per-SoC data the driver copies into its state (the dwmac4
      address layout of the v3 data is not modelled). */
  datatype DriverData = DriverData(por: seq<Por>, rgmiiConfigLoopbackEn: bool, hasEmac3: bool)

  const EMAC_V2_3_0_POR: seq<Por> := [
    Por(RGMII_IO_MACRO_CONFIG, 0x00C01343),
    Por(SDCC_HC_REG_DLL_CONFIG, 0x2004642C),
    Por(SDCC_HC_REG_DDR_CONFIG, 0x00000000),
    Por(SDCC_HC_REG_DLL_CONFIG2, 0x00200000),
    Por(SDCC_USR_CTL, 0x00010800),
    Por(RGMII_IO_MACRO_CONFIG2, 0x00002060)]

  const EMAC_V2_3_0_DATA: DriverData := DriverData(EMAC_V2_3_0_POR, true, false)

  const EMAC_V2_1_0_POR: seq<Por> := [
    Por(RGMII_IO_MACRO_CONFIG, 0x40C01343),
    Por(SDCC_HC_REG_DLL_CONFIG, 0x2004642C),
    Por(SDCC_HC_REG_DDR_CONFIG, 0x00000000),
    Por(SDCC_HC_REG_DLL_CONFIG2, 0x00200000),
    Por(SDCC_USR_CTL, 0x00010800),
    Por(RGMII_IO_MACRO_CONFIG2, 0x00002060)]

  const EMAC_V2_1_0_DATA: DriverData := DriverData(EMAC_V2_1_0_POR, false, false)

  const EMAC_V3_0_0_POR: seq<Por> := [
    Por(RGMII_IO_MACRO_CONFIG, 0x40c01343),
    Por(SDCC_HC_REG_DLL_CONFIG, 0x2004642c),
    Por(SDCC_HC_REG_DDR_CONFIG, 0x80040800),
    Por(SDCC_HC_REG_DLL_CONFIG2, 0x00200000),
    Por(SDCC_USR_CTL, 0x00010800),
    Por(RGMII_IO_MACRO_CONFIG2, 0x00002060)]

  const EMAC_V3_0_0_DATA: DriverData := DriverData(EMAC_V3_0_0_POR, false, true)

  /** The PHY interface mode device_get_phy_mode reports. */
  datatype PhyMode = Rgmii | RgmiiId | RgmiiRxid | RgmiiTxid | Sgmii | OtherMode

  predicate ValidSpeed(speed: nat) {
    speed == SPEED_1000 || speed == SPEED_100 || speed == SPEED_10
  }

  // ---------------------------------------------------------------------
  // Reset to POR values

  /** The registers after writing the table entries in order. Last write
      wins: an offset holds the value of the last table entry for it, and
      an offset no entry names keeps its old value (or stays absent). */
  function ApplyPor(regs: map<nat, bv32>, por: seq<Por>): (r: map<nat, bv32>)
    ensures regs.Keys <= r.Keys
    ensures forall o {:trigger LastPorValue(por, o)} :: LastPorValue(por, o).Some? ==> o in r && r[o] == LastPorValue(por, o).value
    ensures forall o {:trigger LastPorValue(por, o)} :: LastPorValue(por, o).None? ==> (o in r <==> o in regs) && (o in regs ==> r[o] == regs[o])
    decreases |por|
  {
    if por == [] then regs else ApplyPor(regs[por[0].offset := por[0].value], por[1..])
  }

  /** The value of the last table entry for an offset, if any: an entry
      counts unless a later one names the same offset. */
  function LastPorValue(por: seq<Por>, offset: nat): Option<bv32>
    decreases |por|
  {
    if por == [] then None
    else
      var later := LastPorValue(por[1..], offset);
      if later.Some? then later
      else if por[0].offset == offset then Some(por[0].value)
      else None
  }

  datatype Option<T> = None | Some(value: T)

  /** The trace of writing the table. */
  function PorWrites(por: seq<Por>): (ws: seq<Mmio.Write>)
    ensures |ws| == |por|
    ensures forall i :: 0 <= i < |por| ==> ws[i] == Mmio.Write(por[i].offset, por[i].value)
  {
    seq(|por|, i requires 0 <= i < |por| => Mmio.Write(por[i].offset, por[i].value))
  }

  lemma {:induction false} ApplyPorSnoc(regs: map<nat, bv32>, por: seq<Por>, p: Por)
    ensures ApplyPor(regs, por + [p]) == ApplyPor(regs, por)[p.offset := p.value]
    decreases |por|
  {
    if por != [] {
      assert (por + [p])[1..] == por[1..] + [p];
      ApplyPorSnoc(regs[por[0].offset := por[0].value], por[1..], p);
    }
  }

  /** No two entries of the table name the same register. */
  predicate DistinctOffsets(por: seq<Por>) {
    forall i, j :: 0 <= i < j < |por| ==> por[i].offset != por[j].offset
  }

  /** With distinct offsets the order of the table does not matter: every
      entry's value is the one its register ends with. */
  lemma {:induction false} DistinctLastWins(por: seq<Por>, i: nat)
    requires DistinctOffsets(por)
    requires i < |por|
    ensures LastPorValue(por, por[i].offset) == Some(por[i].value)
    decreases |por|
  {
    var rest := por[1..];
    if i == 0 {
      forall k | 0 <= k < |rest|
        ensures rest[k].offset != por[0].offset
      {
        assert rest[k] == por[k + 1];
      }
      NoPorValue(rest, por[0].offset);
    } else {
      assert rest[i - 1] == por[i];
      assert DistinctOffsets(rest) by {
        forall a, b | 0 <= a < b < |rest|
          ensures rest[a].offset != rest[b].offset
        {
          assert rest[a] == por[a + 1] && rest[b] == por[b + 1];
        }
      }
      DistinctLastWins(rest, i - 1);
    }
  }

  /** A table with no entry for an offset has no last value for it. */
  lemma {:induction false} NoPorValue(por: seq<Por>, offset: nat)
    requires forall k :: 0 <= k < |por| ==> por[k].offset != offset
    ensures LastPorValue(por, offset).None?
    decreases |por|
  {
    if por != [] {
      NoPorValue(por[1..], offset);
    }
  }

  /** The three reset tables program six distinct registers. */
  lemma PorTablesDistinct()
    ensures DistinctOffsets(EMAC_V2_3_0_POR) && DistinctOffsets(EMAC_V2_1_0_POR) && DistinctOffsets(EMAC_V3_0_0_POR)
    ensures forall d :: d in {EMAC_V2_3_0_DATA, EMAC_V2_1_0_DATA, EMAC_V3_0_0_DATA} ==>
      |d.por| == 6 && forall p :: p in d.por ==> p.offset in RgmiiOffsets
  {
  }

  // ---------------------------------------------------------------------
  // The phases of ethqos_configure, as functions on the register map

  /** rgmii_updatel on the register map: the word at offset with the bits
      under mask replaced (read, `& ~mask`, `| val`, write back). */
  function Update(regs: map<nat, bv32>, offset: nat, mask: bv32, val: bv32): (r: map<nat, bv32>)
  {
    regs[offset := Masked(Reg(regs, offset), mask, val)]
  }

  /** The word a register map holds at an offset (0 if it has none). */
  function Reg(regs: map<nat, bv32>, offset: nat): bv32 {
    if offset in regs then regs[offset] else 0
  }

  /** The reset loop and ethqos_set_func_clk_en. */
  function ResetRegs(regs: map<nat, bv32>, por: seq<Por>): map<nat, bv32>
  {
    Update(ApplyPor(regs, por), RGMII_IO_MACRO_CONFIG, RGMII_CONFIG_FUNC_CLK_EN, RGMII_CONFIG_FUNC_CLK_EN)
  }

  /** The USR_CTL bits 26:24 the DLL reset sequence programs on EMACs other
      than EMAC3 (GENMASK(26, 24) and BIT(26)). */
  const USR_CTL_26_24: bv32 := 0x0700_0000
  const USR_CTL_BIT_26: bv32 := 0x0400_0000

  /** The DLL reset sequence of ethqos_configure, up to the lock poll. */
  function DllResetRegs(regs: map<nat, bv32>, speed: nat, hasEmac3: bool): map<nat, bv32>
  {
    var r1 := Update(Update(regs, SDCC_HC_REG_DLL_CONFIG, SDCC_DLL_CONFIG_DLL_RST, SDCC_DLL_CONFIG_DLL_RST),
      SDCC_HC_REG_DLL_CONFIG, SDCC_DLL_CONFIG_PDN, SDCC_DLL_CONFIG_PDN);
    var r2 :=
      if hasEmac3 && speed == SPEED_1000 then
        r1[SDCC_TEST_CTL := 0x0180_0000][SDCC_USR_CTL := 0x2C01_0800][SDCC_HC_REG_DLL_CONFIG2 := 0xA001]
      else if hasEmac3 then
        r1[SDCC_USR_CTL := 0x4001_0800][SDCC_HC_REG_DLL_CONFIG2 := 0xA001]
      else r1;
    var r3 := Update(Update(r2, SDCC_HC_REG_DLL_CONFIG, SDCC_DLL_CONFIG_DLL_RST, 0),
      SDCC_HC_REG_DLL_CONFIG, SDCC_DLL_CONFIG_PDN, 0);
    if speed != SPEED_100 && speed != SPEED_10 then
      var r4 := Update(Update(r3, SDCC_HC_REG_DLL_CONFIG, SDCC_DLL_CONFIG_DLL_EN, SDCC_DLL_CONFIG_DLL_EN),
        SDCC_HC_REG_DLL_CONFIG, SDCC_DLL_CONFIG_CK_OUT_EN, SDCC_DLL_CONFIG_CK_OUT_EN);
      if !hasEmac3 then Update(r4, SDCC_USR_CTL, USR_CTL_26_24, USR_CTL_BIT_26) else r4
    else r3
  }

  /** ethqos_dll_configure without its CK_OUT_EN polls. */
  function DllConfigureRegs(regs: map<nat, bv32>, hasEmac3: bool): map<nat, bv32>
  {
    var dll := SDCC_HC_REG_DLL_CONFIG;
    var dll2 := SDCC_HC_REG_DLL_CONFIG2;
    var r1 := Update(Update(Update(Update(regs,
      dll, SDCC_DLL_CONFIG_CDR_EN, SDCC_DLL_CONFIG_CDR_EN),
      dll, SDCC_DLL_CONFIG_CDR_EXT_EN, SDCC_DLL_CONFIG_CDR_EXT_EN),
      dll, SDCC_DLL_CONFIG_CK_OUT_EN, 0),
      dll, SDCC_DLL_CONFIG_DLL_EN, SDCC_DLL_CONFIG_DLL_EN);
    var r2 := if hasEmac3 then r1
      else Update(Update(r1, dll, SDCC_DLL_MCLK_GATING_EN, 0), dll, SDCC_DLL_CDR_FINE_PHASE, 0);
    var r3 := Update(Update(r2, dll, SDCC_DLL_CONFIG_CK_OUT_EN, SDCC_DLL_CONFIG_CK_OUT_EN),
      dll2, SDCC_DLL_CONFIG2_DDR_CAL_EN, SDCC_DLL_CONFIG2_DDR_CAL_EN);
    if hasEmac3 then r3
    else Update(Update(Update(Update(r3,
      dll2, SDCC_DLL_CONFIG2_DLL_CLOCK_DIS, 0),
      dll2, SDCC_DLL_CONFIG2_MCLK_FREQ_CALC, 0x1A << 10),
      dll2, SDCC_DLL_CONFIG2_DDR_TRAFFIC_INIT_SEL, 0x0000_0004),
      dll2, SDCC_DLL_CONFIG2_DDR_TRAFFIC_INIT_SW, SDCC_DLL_CONFIG2_DDR_TRAFFIC_INIT_SW)
  }

  /** TX_CLK_PHASE_SHIFT_EN is left off when the PHY adds the TX delay. */
  function PhaseShift(mode: PhyMode): (r: bv32)
    ensures r == 0 <==> mode == RgmiiId || mode == RgmiiTxid
    ensures r == 0 || r == RGMII_CONFIG2_TX_CLK_PHASE_SHIFT_EN
  {
    if mode == RgmiiId || mode == RgmiiTxid then 0 else RGMII_CONFIG2_TX_CLK_PHASE_SHIFT_EN
  }

  /** The LOOPBACK_EN value ethqos_rgmii_macro_init programs last. */
  function Loopback(loopbackEn: bool): bv32 {
    if loopbackEn then RGMII_CONFIG_LOOPBACK_EN else 0
  }

  /** The programmed RX clock delay at 1000 Mb/s: 115 on EMAC3 (0.9 ns), 57
      otherwise (1.8 ns). */
  function PrgRclkDly(hasEmac3: bool): bv32 {
    if hasEmac3 then 115 else 57
  }

  const MAX_SPD_PRG_100: bv32 := 0x0000_0040           // BIT(6)
  const MAX_SPD_PRG_10: bv32 := 0x0000_1300            // BIT(12) | GENMASK(9, 8)
  const EXT_PRG_RCLK_DLY_CODE_5: bv32 := 0x2800_0000   // BIT(29) | BIT(27)

  /** The 1000 Mb/s case of ethqos_rgmii_macro_init. */
  function MacroGigabitRegs(regs: map<nat, bv32>, mode: PhyMode, loopbackEn: bool, hasEmac3: bool): map<nat, bv32>
  {
    var cfg, cfg2, ddr := RGMII_IO_MACRO_CONFIG, RGMII_IO_MACRO_CONFIG2, SDCC_HC_REG_DDR_CONFIG;
    var a := Update(Update(Update(Update(regs,
      cfg, RGMII_CONFIG_DDR_MODE, RGMII_CONFIG_DDR_MODE),
      cfg, RGMII_CONFIG_BYPASS_TX_ID_EN, 0),
      cfg, RGMII_CONFIG_POS_NEG_DATA_SEL, RGMII_CONFIG_POS_NEG_DATA_SEL),
      cfg, RGMII_CONFIG_PROG_SWAP, RGMII_CONFIG_PROG_SWAP);
    var b := Update(Update(Update(Update(a,
      cfg2, RGMII_CONFIG2_DATA_DIVIDE_CLK_SEL, 0),
      cfg2, RGMII_CONFIG2_TX_CLK_PHASE_SHIFT_EN, PhaseShift(mode)),
      cfg2, RGMII_CONFIG2_RSVD_CONFIG15, 0),
      cfg2, RGMII_CONFIG2_RX_PROG_SWAP, RGMII_CONFIG2_RX_PROG_SWAP);
    var c := Update(Update(b,
      ddr, SDCC_DDR_CONFIG_PRG_RCLK_DLY, PrgRclkDly(hasEmac3)),
      ddr, SDCC_DDR_CONFIG_PRG_DLY_EN, SDCC_DDR_CONFIG_PRG_DLY_EN);
    Update(c, cfg, RGMII_CONFIG_LOOPBACK_EN, Loopback(loopbackEn))
  }

  /** The 100 and 10 Mb/s cases of ethqos_rgmii_macro_init, which differ only
      in the MAX_SPD_PRG field. */
  function MacroSlowRegs(regs: map<nat, bv32>, speed: nat, mode: PhyMode, loopbackEn: bool, hasEmac3: bool): map<nat, bv32>
  {
    var cfg, cfg2, ddr := RGMII_IO_MACRO_CONFIG, RGMII_IO_MACRO_CONFIG2, SDCC_HC_REG_DDR_CONFIG;
    var a := Update(Update(Update(Update(regs,
      cfg, RGMII_CONFIG_DDR_MODE, RGMII_CONFIG_DDR_MODE),
      cfg, RGMII_CONFIG_BYPASS_TX_ID_EN, RGMII_CONFIG_BYPASS_TX_ID_EN),
      cfg, RGMII_CONFIG_POS_NEG_DATA_SEL, 0),
      cfg, RGMII_CONFIG_PROG_SWAP, 0);
    var b := Update(Update(a,
      cfg2, RGMII_CONFIG2_DATA_DIVIDE_CLK_SEL, 0),
      cfg2, RGMII_CONFIG2_TX_CLK_PHASE_SHIFT_EN, PhaseShift(mode));
    var c := if speed == SPEED_100 then Update(b, cfg, RGMII_CONFIG_MAX_SPD_PRG_2, MAX_SPD_PRG_100)
             else Update(b, cfg, RGMII_CONFIG_MAX_SPD_PRG_9, MAX_SPD_PRG_10);
    var d := Update(Update(c,
      cfg2, RGMII_CONFIG2_RSVD_CONFIG15, 0),
      cfg2, RGMII_CONFIG2_RX_PROG_SWAP, if hasEmac3 then RGMII_CONFIG2_RX_PROG_SWAP else 0);
    var e := Update(Update(Update(d,
      ddr, SDCC_DDR_CONFIG_EXT_PRG_RCLK_DLY_CODE, EXT_PRG_RCLK_DLY_CODE_5),
      ddr, SDCC_DDR_CONFIG_EXT_PRG_RCLK_DLY, SDCC_DDR_CONFIG_EXT_PRG_RCLK_DLY),
      ddr, SDCC_DDR_CONFIG_EXT_PRG_RCLK_DLY_EN, SDCC_DDR_CONFIG_EXT_PRG_RCLK_DLY_EN);
    Update(e, cfg, RGMII_CONFIG_LOOPBACK_EN, Loopback(loopbackEn))
  }

  /** ethqos_rgmii_macro_init: loopback from TX to RX and the interface
      select are cleared first, then the speed's case runs. */
  function MacroInitRegs(regs: map<nat, bv32>, speed: nat, mode: PhyMode, loopbackEn: bool, hasEmac3: bool): map<nat, bv32>
  {
    var r1 := Update(Update(regs, RGMII_IO_MACRO_CONFIG2, RGMII_CONFIG2_TX_TO_RX_LOOPBACK_EN, 0),
      RGMII_IO_MACRO_CONFIG, RGMII_CONFIG_INTF_SEL, 0);
    if speed == SPEED_1000 then MacroGigabitRegs(r1, mode, loopbackEn, hasEmac3)
    else if speed == SPEED_100 || speed == SPEED_10 then MacroSlowRegs(r1, speed, mode, loopbackEn, hasEmac3)
    else r1
  }

  /** ethqos_configure: reset to the table, clock enable, DLL reset,
      ethqos_dll_configure at 1000 Mb/s only, then the macro programming. */
  function ConfigureRegs(regs: map<nat, bv32>, por: seq<Por>, speed: nat, mode: PhyMode, loopbackEn: bool, hasEmac3: bool): map<nat, bv32>
  {
    var r1 := ResetRegs(regs, por);
    var r2 := DllResetRegs(r1, speed, hasEmac3);
    var r3 := if speed == SPEED_1000 then DllConfigureRegs(r2, hasEmac3) else r2;
    MacroInitRegs(r3, speed, mode, loopbackEn, hasEmac3)
  }

  // ---------------------------------------------------------------------
  // The net effect of each phase, register by register: the single
  // read-modify-write a phase amounts to, and the fields read back.

  /** The DLL_CONFIG bits the DLL reset sequence programs. */
  const DLL_RESET_FIELDS: bv32 := SDCC_DLL_CONFIG_DLL_RST | SDCC_DLL_CONFIG_PDN | SDCC_DLL_CONFIG_DLL_EN | SDCC_DLL_CONFIG_CK_OUT_EN

  /** DLL_CONFIG as the DLL reset sequence leaves it. */
  function DllResetWord(dll: bv32, speed: nat): bv32 {
    var d := Masked(Masked(dll, SDCC_DLL_CONFIG_DLL_RST, SDCC_DLL_CONFIG_DLL_RST), SDCC_DLL_CONFIG_PDN, SDCC_DLL_CONFIG_PDN);
    var c := Masked(Masked(d, SDCC_DLL_CONFIG_DLL_RST, 0), SDCC_DLL_CONFIG_PDN, 0);
    if speed != SPEED_100 && speed != SPEED_10 then
      Masked(Masked(c, SDCC_DLL_CONFIG_DLL_EN, SDCC_DLL_CONFIG_DLL_EN), SDCC_DLL_CONFIG_CK_OUT_EN, SDCC_DLL_CONFIG_CK_OUT_EN)
    else c
  }

  /** The registers the DLL reset sequence touches. */
  const DLL_RESET_REGS: set<nat> := {SDCC_HC_REG_DLL_CONFIG, SDCC_TEST_CTL, SDCC_USR_CTL, SDCC_HC_REG_DLL_CONFIG2}

  lemma DllResetDll(regs: map<nat, bv32>, speed: nat, hasEmac3: bool)
    ensures Reg(DllResetRegs(regs, speed, hasEmac3), SDCC_HC_REG_DLL_CONFIG)
         == DllResetWord(Reg(regs, SDCC_HC_REG_DLL_CONFIG), speed)
  {
    if hasEmac3 && speed == SPEED_1000 {
    } else if hasEmac3 {
    }
  }

  lemma DllResetFrame(regs: map<nat, bv32>, speed: nat, hasEmac3: bool, o: nat)
    requires o !in DLL_RESET_REGS
    ensures Reg(DllResetRegs(regs, speed, hasEmac3), o) == Reg(regs, o)
  {
    if hasEmac3 && speed == SPEED_1000 {
    } else if hasEmac3 {
    }
  }

  /** The DLL reset sequence leaves DLL_CONFIG as DllResetWord says and
      changes no register besides DLL_CONFIG, TEST_CTL, USR_CTL and
      DLL_CONFIG2. */
  lemma DllResetEffect(regs: map<nat, bv32>, speed: nat, hasEmac3: bool)
    ensures Reg(DllResetRegs(regs, speed, hasEmac3), SDCC_HC_REG_DLL_CONFIG)
         == DllResetWord(Reg(regs, SDCC_HC_REG_DLL_CONFIG), speed)
    ensures forall o :: o !in DLL_RESET_REGS ==> Reg(DllResetRegs(regs, speed, hasEmac3), o) == Reg(regs, o)
  {
    DllResetDll(regs, speed, hasEmac3);
    forall o | o !in DLL_RESET_REGS
      ensures Reg(DllResetRegs(regs, speed, hasEmac3), o) == Reg(regs, o)
    {
      DllResetFrame(regs, speed, hasEmac3, o);
    }
  }

  /** The SDCC words of the DLL reset sequence: EMAC3 gets fixed TEST_CTL
      (at 1000 Mb/s only), USR_CTL and DLL_CONFIG2 words; other EMACs keep
      TEST_CTL and DLL_CONFIG2 and get USR_CTL bits 26:24 set to 0b100 at
      speeds other than 100 and 10 Mb/s. */
  lemma DllResetSdccWords(regs: map<nat, bv32>, speed: nat, hasEmac3: bool)
    ensures var r := DllResetRegs(regs, speed, hasEmac3);
      && (hasEmac3 ==> Reg(r, SDCC_HC_REG_DLL_CONFIG2) == 0xA001)
      && (hasEmac3 ==> Reg(r, SDCC_USR_CTL) == if speed == SPEED_1000 then 0x2C01_0800 else 0x4001_0800)
      && (hasEmac3 && speed == SPEED_1000 ==> Reg(r, SDCC_TEST_CTL) == 0x0180_0000)
      && (!hasEmac3 && speed != SPEED_100 && speed != SPEED_10 ==>
            Reg(r, SDCC_USR_CTL) == Masked(Reg(regs, SDCC_USR_CTL), USR_CTL_26_24, USR_CTL_BIT_26))
      && (!hasEmac3 && (speed == SPEED_100 || speed == SPEED_10) ==> Reg(r, SDCC_USR_CTL) == Reg(regs, SDCC_USR_CTL))
      && (!hasEmac3 ==> Reg(r, SDCC_HC_REG_DLL_CONFIG2) == Reg(regs, SDCC_HC_REG_DLL_CONFIG2))
      && (!(hasEmac3 && speed == SPEED_1000) ==> Reg(r, SDCC_TEST_CTL) == Reg(regs, SDCC_TEST_CTL))
  {
  }

  lemma DllResetWordEnabled(dll: bv32, speed: nat)
    requires speed != SPEED_100 && speed != SPEED_10
    ensures DllResetWord(dll, speed) == Masked(dll, DLL_RESET_FIELDS, SDCC_DLL_CONFIG_DLL_EN | SDCC_DLL_CONFIG_CK_OUT_EN)
  {
  }

  lemma DllResetWordSlow(dll: bv32, speed: nat)
    requires speed == SPEED_100 || speed == SPEED_10
    ensures DllResetWord(dll, speed) == Masked(dll, SDCC_DLL_CONFIG_DLL_RST | SDCC_DLL_CONFIG_PDN, 0)
  {
  }

  /** The DLL reset sequence amounts to clearing DLL_RST and PDN and, at
      speeds other than 100 and 10 Mb/s, setting DLL_EN and CK_OUT_EN. Read
      back, the DLL is out of reset and powered up, and enabled with its
      clock output at those speeds; every other bit is kept. */
  lemma DllResetFields(dll: bv32, speed: nat, bits: bv32)
    requires bits & DLL_RESET_FIELDS == 0
    ensures speed != SPEED_100 && speed != SPEED_10 ==>
      DllResetWord(dll, speed) == Masked(dll, DLL_RESET_FIELDS, SDCC_DLL_CONFIG_DLL_EN | SDCC_DLL_CONFIG_CK_OUT_EN)
    ensures speed == SPEED_100 || speed == SPEED_10 ==>
      DllResetWord(dll, speed) == Masked(dll, SDCC_DLL_CONFIG_DLL_RST | SDCC_DLL_CONFIG_PDN, 0)
    ensures DllResetWord(dll, speed) & (SDCC_DLL_CONFIG_DLL_RST | SDCC_DLL_CONFIG_PDN) == 0
    ensures speed != SPEED_100 && speed != SPEED_10 ==>
      DllResetWord(dll, speed) & (SDCC_DLL_CONFIG_DLL_EN | SDCC_DLL_CONFIG_CK_OUT_EN) == SDCC_DLL_CONFIG_DLL_EN | SDCC_DLL_CONFIG_CK_OUT_EN
    ensures DllResetWord(dll, speed) & bits == dll & bits
  {
    if speed != SPEED_100 && speed != SPEED_10 {
      var v := SDCC_DLL_CONFIG_DLL_EN | SDCC_DLL_CONFIG_CK_OUT_EN;
      DllResetWordEnabled(dll, speed);
      MaskedSets(dll, DLL_RESET_FIELDS, v, SDCC_DLL_CONFIG_DLL_RST | SDCC_DLL_CONFIG_PDN);
      MaskedSets(dll, DLL_RESET_FIELDS, v, v);
      MaskedKeeps(dll, DLL_RESET_FIELDS, v, bits);
    } else {
      var m := SDCC_DLL_CONFIG_DLL_RST | SDCC_DLL_CONFIG_PDN;
      DllResetWordSlow(dll, speed);
      MaskedSets(dll, m, 0, m);
      MaskedKeeps(dll, m, 0, bits);
    }
  }

  /** The DLL_CONFIG bits ethqos_dll_configure enables, and all it programs
      on EMACs other than EMAC3. */
  const DLL_ENABLED: bv32 := SDCC_DLL_CONFIG_CDR_EN | SDCC_DLL_CONFIG_CDR_EXT_EN | SDCC_DLL_CONFIG_DLL_EN | SDCC_DLL_CONFIG_CK_OUT_EN
  const DLL_CONFIGURE_FIELDS: bv32 := DLL_ENABLED | SDCC_DLL_MCLK_GATING_EN | SDCC_DLL_CDR_FINE_PHASE

  /** DLL_CONFIG as ethqos_dll_configure leaves it. */
  function DllConfigureWord(dll: bv32, hasEmac3: bool): bv32 {
    var d := Masked(Masked(dll, SDCC_DLL_CONFIG_CDR_EN, SDCC_DLL_CONFIG_CDR_EN), SDCC_DLL_CONFIG_CDR_EXT_EN, SDCC_DLL_CONFIG_CDR_EXT_EN);
    var e := Masked(Masked(d, SDCC_DLL_CONFIG_CK_OUT_EN, 0), SDCC_DLL_CONFIG_DLL_EN, SDCC_DLL_CONFIG_DLL_EN);
    var f := if hasEmac3 then e else Masked(Masked(e, SDCC_DLL_MCLK_GATING_EN, 0), SDCC_DLL_CDR_FINE_PHASE, 0);
    Masked(f, SDCC_DLL_CONFIG_CK_OUT_EN, SDCC_DLL_CONFIG_CK_OUT_EN)
  }

  /** The DLL_CONFIG2 bits ethqos_dll_configure programs on EMACs other than
      EMAC3, and the values they end with: DLL clock not disabled,
      MCLK_FREQ_CALC 26 (0x1A), DDR_TRAFFIC_INIT_SEL 1, DDR_TRAFFIC_INIT_SW
      and DDR_CAL_EN set. */
  const DLL_CONFIGURE2_FIELDS: bv32 := SDCC_DLL_CONFIG2_DDR_CAL_EN | SDCC_DLL_CONFIG2_DLL_CLOCK_DIS
    | SDCC_DLL_CONFIG2_MCLK_FREQ_CALC | SDCC_DLL_CONFIG2_DDR_TRAFFIC_INIT_SEL | SDCC_DLL_CONFIG2_DDR_TRAFFIC_INIT_SW
  const DLL_CONFIGURE2_VALUE: bv32 := SDCC_DLL_CONFIG2_DDR_CAL_EN | 0x0000_6800 | 0x0000_0004 | SDCC_DLL_CONFIG2_DDR_TRAFFIC_INIT_SW

  /** DLL_CONFIG2 as ethqos_dll_configure leaves it. */
  function DllConfigure2Word(dll2: bv32, hasEmac3: bool): bv32 {
    var d := Masked(dll2, SDCC_DLL_CONFIG2_DDR_CAL_EN, SDCC_DLL_CONFIG2_DDR_CAL_EN);
    if hasEmac3 then d
    else
      Masked(Masked(Masked(Masked(d, SDCC_DLL_CONFIG2_DLL_CLOCK_DIS, 0),
        SDCC_DLL_CONFIG2_MCLK_FREQ_CALC, 0x1A << 10),
        SDCC_DLL_CONFIG2_DDR_TRAFFIC_INIT_SEL, 0x0000_0004),
        SDCC_DLL_CONFIG2_DDR_TRAFFIC_INIT_SW, SDCC_DLL_CONFIG2_DDR_TRAFFIC_INIT_SW)
  }

  lemma DllConfigureDll(regs: map<nat, bv32>, hasEmac3: bool)
    ensures Reg(DllConfigureRegs(regs, hasEmac3), SDCC_HC_REG_DLL_CONFIG)
         == DllConfigureWord(Reg(regs, SDCC_HC_REG_DLL_CONFIG), hasEmac3)
  {
    if hasEmac3 {
    } else {
    }
  }

  lemma DllConfigureDll2(regs: map<nat, bv32>, hasEmac3: bool)
    ensures Reg(DllConfigureRegs(regs, hasEmac3), SDCC_HC_REG_DLL_CONFIG2)
         == DllConfigure2Word(Reg(regs, SDCC_HC_REG_DLL_CONFIG2), hasEmac3)
  {
    if hasEmac3 {
    } else {
    }
  }

  lemma DllConfigureFrame(regs: map<nat, bv32>, hasEmac3: bool, o: nat)
    requires o != SDCC_HC_REG_DLL_CONFIG && o != SDCC_HC_REG_DLL_CONFIG2
    ensures Reg(DllConfigureRegs(regs, hasEmac3), o) == Reg(regs, o)
  {
    if hasEmac3 {
    } else {
    }
  }

  /** ethqos_dll_configure changes only DLL_CONFIG and DLL_CONFIG2, as the
      two word functions say. */
  lemma DllConfigureEffect(regs: map<nat, bv32>, hasEmac3: bool)
    ensures Reg(DllConfigureRegs(regs, hasEmac3), SDCC_HC_REG_DLL_CONFIG)
         == DllConfigureWord(Reg(regs, SDCC_HC_REG_DLL_CONFIG), hasEmac3)
    ensures Reg(DllConfigureRegs(regs, hasEmac3), SDCC_HC_REG_DLL_CONFIG2)
         == DllConfigure2Word(Reg(regs, SDCC_HC_REG_DLL_CONFIG2), hasEmac3)
    ensures forall o :: o != SDCC_HC_REG_DLL_CONFIG && o != SDCC_HC_REG_DLL_CONFIG2 ==>
      Reg(DllConfigureRegs(regs, hasEmac3), o) == Reg(regs, o)
  {
    DllConfigureDll(regs, hasEmac3);
    DllConfigureDll2(regs, hasEmac3);
    forall o | o != SDCC_HC_REG_DLL_CONFIG && o != SDCC_HC_REG_DLL_CONFIG2
      ensures Reg(DllConfigureRegs(regs, hasEmac3), o) == Reg(regs, o)
    {
      DllConfigureFrame(regs, hasEmac3, o);
    }
  }

  lemma DllConfigureWordEmac3(dll: bv32)
    ensures DllConfigureWord(dll, true) == Masked(dll, DLL_ENABLED, DLL_ENABLED)
  {
  }

  lemma DllConfigureWordOther(dll: bv32)
    ensures DllConfigureWord(dll, false) == Masked(dll, DLL_CONFIGURE_FIELDS, DLL_ENABLED)
  {
  }

  /** ethqos_dll_configure amounts to enabling the CDR, its external
      selection, the DLL and (after being dropped once) its clock output,
      and, on EMACs other than EMAC3, clearing MCLK gating and the CDR fine
      phase. DLL_RST and PDN are kept. */
  lemma DllConfigureFields(dll: bv32, hasEmac3: bool)
    ensures hasEmac3 ==> DllConfigureWord(dll, hasEmac3) == Masked(dll, DLL_ENABLED, DLL_ENABLED)
    ensures !hasEmac3 ==> DllConfigureWord(dll, hasEmac3) == Masked(dll, DLL_CONFIGURE_FIELDS, DLL_ENABLED)
    ensures DllConfigureWord(dll, hasEmac3) & DLL_ENABLED == DLL_ENABLED
    ensures !hasEmac3 ==> DllConfigureWord(dll, hasEmac3) & (SDCC_DLL_MCLK_GATING_EN | SDCC_DLL_CDR_FINE_PHASE) == 0
    ensures DllConfigureWord(dll, hasEmac3) & (SDCC_DLL_CONFIG_DLL_RST | SDCC_DLL_CONFIG_PDN)
         == dll & (SDCC_DLL_CONFIG_DLL_RST | SDCC_DLL_CONFIG_PDN)
  {
    var keep := SDCC_DLL_CONFIG_DLL_RST | SDCC_DLL_CONFIG_PDN;
    if hasEmac3 {
      DllConfigureWordEmac3(dll);
      MaskedSets(dll, DLL_ENABLED, DLL_ENABLED, DLL_ENABLED);
      MaskedKeeps(dll, DLL_ENABLED, DLL_ENABLED, keep);
    } else {
      DllConfigureWordOther(dll);
      MaskedSets(dll, DLL_CONFIGURE_FIELDS, DLL_ENABLED, SDCC_DLL_MCLK_GATING_EN | SDCC_DLL_CDR_FINE_PHASE);
      MaskedSets(dll, DLL_CONFIGURE_FIELDS, DLL_ENABLED, DLL_ENABLED);
      MaskedKeeps(dll, DLL_CONFIGURE_FIELDS, DLL_ENABLED, keep);
    }
  }

  lemma DllConfigure2WordOther(dll2: bv32)
    ensures DllConfigure2Word(dll2, false) == Masked(dll2, DLL_CONFIGURE2_FIELDS, DLL_CONFIGURE2_VALUE)
  {
  }

  /** ethqos_dll_configure leaves DDR calibration enabled in DLL_CONFIG2; on
      EMACs other than EMAC3 it also leaves the DLL clock not disabled,
      MCLK_FREQ_CALC 26, DDR_TRAFFIC_INIT_SEL 1 and DDR_TRAFFIC_INIT_SW set. */
  lemma DllConfigure2Fields(dll2: bv32, hasEmac3: bool)
    ensures hasEmac3 ==> DllConfigure2Word(dll2, hasEmac3) == Masked(dll2, SDCC_DLL_CONFIG2_DDR_CAL_EN, SDCC_DLL_CONFIG2_DDR_CAL_EN)
    ensures !hasEmac3 ==> DllConfigure2Word(dll2, hasEmac3) == Masked(dll2, DLL_CONFIGURE2_FIELDS, DLL_CONFIGURE2_VALUE)
    ensures DllConfigure2Word(dll2, hasEmac3) & SDCC_DLL_CONFIG2_DDR_CAL_EN == SDCC_DLL_CONFIG2_DDR_CAL_EN
    ensures !hasEmac3 ==> var w := DllConfigure2Word(dll2, hasEmac3);
      && w & SDCC_DLL_CONFIG2_DLL_CLOCK_DIS == 0
      && (w & SDCC_DLL_CONFIG2_MCLK_FREQ_CALC) >> 10 == 26
      && (w & SDCC_DLL_CONFIG2_DDR_TRAFFIC_INIT_SEL) >> 2 == 1
      && w & SDCC_DLL_CONFIG2_DDR_TRAFFIC_INIT_SW == SDCC_DLL_CONFIG2_DDR_TRAFFIC_INIT_SW
  {
    if hasEmac3 {
      MaskedSets(dll2, SDCC_DLL_CONFIG2_DDR_CAL_EN, SDCC_DLL_CONFIG2_DDR_CAL_EN, SDCC_DLL_CONFIG2_DDR_CAL_EN);
    } else {
      DllConfigure2WordOther(dll2);
      MaskedSets(dll2, DLL_CONFIGURE2_FIELDS, DLL_CONFIGURE2_VALUE, DLL_CONFIGURE2_FIELDS);
    }
  }

  /** The CONFIG bits ethqos_rgmii_macro_init programs at every valid speed. */
  const MACRO_CONFIG_FIELDS: bv32 := RGMII_CONFIG_INTF_SEL | RGMII_CONFIG_DDR_MODE | RGMII_CONFIG_BYPASS_TX_ID_EN
    | RGMII_CONFIG_POS_NEG_DATA_SEL | RGMII_CONFIG_PROG_SWAP | RGMII_CONFIG_LOOPBACK_EN

  /** CONFIG as ethqos_rgmii_macro_init leaves it. */
  function MacroConfigWord(cfg: bv32, speed: nat, loopbackEn: bool): bv32 {
    var c := Masked(cfg, RGMII_CONFIG_INTF_SEL, 0);
    if speed == SPEED_1000 then
      var d := Masked(Masked(c, RGMII_CONFIG_DDR_MODE, RGMII_CONFIG_DDR_MODE), RGMII_CONFIG_BYPASS_TX_ID_EN, 0);
      var e := Masked(Masked(d, RGMII_CONFIG_POS_NEG_DATA_SEL, RGMII_CONFIG_POS_NEG_DATA_SEL), RGMII_CONFIG_PROG_SWAP, RGMII_CONFIG_PROG_SWAP);
      Masked(e, RGMII_CONFIG_LOOPBACK_EN, Loopback(loopbackEn))
    else if speed == SPEED_100 || speed == SPEED_10 then
      var d := Masked(Masked(c, RGMII_CONFIG_DDR_MODE, RGMII_CONFIG_DDR_MODE), RGMII_CONFIG_BYPASS_TX_ID_EN, RGMII_CONFIG_BYPASS_TX_ID_EN);
      var e := Masked(Masked(d, RGMII_CONFIG_POS_NEG_DATA_SEL, 0), RGMII_CONFIG_PROG_SWAP, 0);
      var f := if speed == SPEED_100 then Masked(e, RGMII_CONFIG_MAX_SPD_PRG_2, MAX_SPD_PRG_100)
               else Masked(e, RGMII_CONFIG_MAX_SPD_PRG_9, MAX_SPD_PRG_10);
      Masked(f, RGMII_CONFIG_LOOPBACK_EN, Loopback(loopbackEn))
    else c
  }

  /** The RX_PROG_SWAP value: on at 1000 Mb/s and on EMAC3. */
  function RxProgSwap(speed: nat, hasEmac3: bool): bv32 {
    if speed == SPEED_1000 || hasEmac3 then RGMII_CONFIG2_RX_PROG_SWAP else 0
  }

  /** CONFIG2 as ethqos_rgmii_macro_init leaves it. */
  function MacroConfig2Word(cfg2: bv32, speed: nat, mode: PhyMode, hasEmac3: bool): bv32 {
    var c := Masked(cfg2, RGMII_CONFIG2_TX_TO_RX_LOOPBACK_EN, 0);
    if ValidSpeed(speed) then
      var d := Masked(Masked(c, RGMII_CONFIG2_DATA_DIVIDE_CLK_SEL, 0), RGMII_CONFIG2_TX_CLK_PHASE_SHIFT_EN, PhaseShift(mode));
      Masked(Masked(d, RGMII_CONFIG2_RSVD_CONFIG15, 0), RGMII_CONFIG2_RX_PROG_SWAP, RxProgSwap(speed, hasEmac3))
    else c
  }

  /** DDR_CONFIG as ethqos_rgmii_macro_init leaves it. */
  function MacroDdrWord(ddr: bv32, speed: nat, hasEmac3: bool): bv32 {
    if speed == SPEED_1000 then
      Masked(Masked(ddr, SDCC_DDR_CONFIG_PRG_RCLK_DLY, PrgRclkDly(hasEmac3)),
        SDCC_DDR_CONFIG_PRG_DLY_EN, SDCC_DDR_CONFIG_PRG_DLY_EN)
    else if speed == SPEED_100 || speed == SPEED_10 then
      Masked(Masked(Masked(ddr, SDCC_DDR_CONFIG_EXT_PRG_RCLK_DLY_CODE, EXT_PRG_RCLK_DLY_CODE_5),
        SDCC_DDR_CONFIG_EXT_PRG_RCLK_DLY, SDCC_DDR_CONFIG_EXT_PRG_RCLK_DLY),
        SDCC_DDR_CONFIG_EXT_PRG_RCLK_DLY_EN, SDCC_DDR_CONFIG_EXT_PRG_RCLK_DLY_EN)
    else ddr
  }

  /** The registers the macro programming touches. */
  const MACRO_REGS: set<nat> := {RGMII_IO_MACRO_CONFIG, RGMII_IO_MACRO_CONFIG2, SDCC_HC_REG_DDR_CONFIG}

  lemma MacroGigabitConfig(regs: map<nat, bv32>, mode: PhyMode, loopbackEn: bool, hasEmac3: bool)
    ensures Reg(MacroInitRegs(regs, SPEED_1000, mode, loopbackEn, hasEmac3), RGMII_IO_MACRO_CONFIG)
         == MacroConfigWord(Reg(regs, RGMII_IO_MACRO_CONFIG), SPEED_1000, loopbackEn)
  {
  }

  lemma MacroGigabitConfig2(regs: map<nat, bv32>, mode: PhyMode, loopbackEn: bool, hasEmac3: bool)
    ensures Reg(MacroInitRegs(regs, SPEED_1000, mode, loopbackEn, hasEmac3), RGMII_IO_MACRO_CONFIG2)
         == MacroConfig2Word(Reg(regs, RGMII_IO_MACRO_CONFIG2), SPEED_1000, mode, hasEmac3)
  {
  }

  lemma MacroGigabitDdr(regs: map<nat, bv32>, mode: PhyMode, loopbackEn: bool, hasEmac3: bool)
    ensures Reg(MacroInitRegs(regs, SPEED_1000, mode, loopbackEn, hasEmac3), SDCC_HC_REG_DDR_CONFIG)
         == MacroDdrWord(Reg(regs, SDCC_HC_REG_DDR_CONFIG), SPEED_1000, hasEmac3)
  {
  }

  lemma MacroGigabitFrame(regs: map<nat, bv32>, mode: PhyMode, loopbackEn: bool, hasEmac3: bool, o: nat)
    requires o !in MACRO_REGS
    ensures Reg(MacroInitRegs(regs, SPEED_1000, mode, loopbackEn, hasEmac3), o) == Reg(regs, o)
  {
  }

  lemma MacroSlowConfig(regs: map<nat, bv32>, speed: nat, mode: PhyMode, loopbackEn: bool, hasEmac3: bool)
    requires speed == SPEED_100 || speed == SPEED_10
    ensures Reg(MacroInitRegs(regs, speed, mode, loopbackEn, hasEmac3), RGMII_IO_MACRO_CONFIG)
         == MacroConfigWord(Reg(regs, RGMII_IO_MACRO_CONFIG), speed, loopbackEn)
  {
    if speed == SPEED_100 {
    } else {
    }
  }

  lemma MacroSlowConfig2(regs: map<nat, bv32>, speed: nat, mode: PhyMode, loopbackEn: bool, hasEmac3: bool)
    requires speed == SPEED_100 || speed == SPEED_10
    ensures Reg(MacroInitRegs(regs, speed, mode, loopbackEn, hasEmac3), RGMII_IO_MACRO_CONFIG2)
         == MacroConfig2Word(Reg(regs, RGMII_IO_MACRO_CONFIG2), speed, mode, hasEmac3)
  {
    if speed == SPEED_100 {
    } else {
    }
  }

  lemma MacroSlowDdr(regs: map<nat, bv32>, speed: nat, mode: PhyMode, loopbackEn: bool, hasEmac3: bool)
    requires speed == SPEED_100 || speed == SPEED_10
    ensures Reg(MacroInitRegs(regs, speed, mode, loopbackEn, hasEmac3), SDCC_HC_REG_DDR_CONFIG)
         == MacroDdrWord(Reg(regs, SDCC_HC_REG_DDR_CONFIG), speed, hasEmac3)
  {
    if speed == SPEED_100 {
    } else {
    }
  }

  lemma MacroSlowFrame(regs: map<nat, bv32>, speed: nat, mode: PhyMode, loopbackEn: bool, hasEmac3: bool, o: nat)
    requires speed == SPEED_100 || speed == SPEED_10
    requires o !in MACRO_REGS
    ensures Reg(MacroInitRegs(regs, speed, mode, loopbackEn, hasEmac3), o) == Reg(regs, o)
  {
    if speed == SPEED_100 {
    } else {
    }
  }

  /** ethqos_rgmii_macro_init changes only CONFIG, CONFIG2 and DDR_CONFIG,
      each as the word functions above say. */
  lemma MacroInitEffect(regs: map<nat, bv32>, speed: nat, mode: PhyMode, loopbackEn: bool, hasEmac3: bool)
    ensures Reg(MacroInitRegs(regs, speed, mode, loopbackEn, hasEmac3), RGMII_IO_MACRO_CONFIG)
         == MacroConfigWord(Reg(regs, RGMII_IO_MACRO_CONFIG), speed, loopbackEn)
    ensures Reg(MacroInitRegs(regs, speed, mode, loopbackEn, hasEmac3), RGMII_IO_MACRO_CONFIG2)
         == MacroConfig2Word(Reg(regs, RGMII_IO_MACRO_CONFIG2), speed, mode, hasEmac3)
    ensures Reg(MacroInitRegs(regs, speed, mode, loopbackEn, hasEmac3), SDCC_HC_REG_DDR_CONFIG)
         == MacroDdrWord(Reg(regs, SDCC_HC_REG_DDR_CONFIG), speed, hasEmac3)
    ensures forall o :: o !in MACRO_REGS ==> Reg(MacroInitRegs(regs, speed, mode, loopbackEn, hasEmac3), o) == Reg(regs, o)
  {
    if speed == SPEED_1000 {
      MacroGigabitConfig(regs, mode, loopbackEn, hasEmac3);
      MacroGigabitConfig2(regs, mode, loopbackEn, hasEmac3);
      MacroGigabitDdr(regs, mode, loopbackEn, hasEmac3);
      forall o | o !in MACRO_REGS
        ensures Reg(MacroInitRegs(regs, speed, mode, loopbackEn, hasEmac3), o) == Reg(regs, o)
      {
        MacroGigabitFrame(regs, mode, loopbackEn, hasEmac3, o);
      }
    } else if speed == SPEED_100 || speed == SPEED_10 {
      MacroSlowConfig(regs, speed, mode, loopbackEn, hasEmac3);
      MacroSlowConfig2(regs, speed, mode, loopbackEn, hasEmac3);
      MacroSlowDdr(regs, speed, mode, loopbackEn, hasEmac3);
      forall o | o !in MACRO_REGS
        ensures Reg(MacroInitRegs(regs, speed, mode, loopbackEn, hasEmac3), o) == Reg(regs, o)
      {
        MacroSlowFrame(regs, speed, mode, loopbackEn, hasEmac3, o);
      }
    }
  }

  lemma MacroConfigGigabit(cfg: bv32, loopbackEn: bool)
    ensures MacroConfigWord(cfg, SPEED_1000, loopbackEn) == Masked(cfg, MACRO_CONFIG_FIELDS,
      RGMII_CONFIG_DDR_MODE | RGMII_CONFIG_POS_NEG_DATA_SEL | RGMII_CONFIG_PROG_SWAP | Loopback(loopbackEn))
  {
  }

  lemma MacroConfigFast(cfg: bv32, loopbackEn: bool)
    ensures MacroConfigWord(cfg, SPEED_100, loopbackEn) == Masked(cfg, MACRO_CONFIG_FIELDS | RGMII_CONFIG_MAX_SPD_PRG_2,
      RGMII_CONFIG_DDR_MODE | RGMII_CONFIG_BYPASS_TX_ID_EN | MAX_SPD_PRG_100 | Loopback(loopbackEn))
  {
  }

  lemma MacroConfigTen(cfg: bv32, loopbackEn: bool)
    ensures MacroConfigWord(cfg, SPEED_10, loopbackEn) == Masked(cfg, MACRO_CONFIG_FIELDS | RGMII_CONFIG_MAX_SPD_PRG_9,
      RGMII_CONFIG_DDR_MODE | RGMII_CONFIG_BYPASS_TX_ID_EN | MAX_SPD_PRG_10 | Loopback(loopbackEn))
  {
  }

  /** ethqos_rgmii_macro_init amounts, in CONFIG, to one read-modify-write
      per speed. The interface select ends 0. At 1000 Mb/s DDR mode, the
      positive/negative data select and the swap end on and the TX ID bypass
      off; at 100 and 10 Mb/s DDR mode and the TX ID bypass end on and the
      data select and swap off, with MAX_SPD_PRG_2 := 0b01 at 100 and
      MAX_SPD_PRG_9 := 0x13 at 10. LOOPBACK_EN ends as the platform asks.
      At any other speed only the interface select changes. */
  lemma MacroConfigFields(cfg: bv32, speed: nat, loopbackEn: bool)
    ensures speed == SPEED_1000 ==> MacroConfigWord(cfg, speed, loopbackEn) == Masked(cfg, MACRO_CONFIG_FIELDS,
      RGMII_CONFIG_DDR_MODE | RGMII_CONFIG_POS_NEG_DATA_SEL | RGMII_CONFIG_PROG_SWAP | Loopback(loopbackEn))
    ensures speed == SPEED_100 ==> MacroConfigWord(cfg, speed, loopbackEn) == Masked(cfg, MACRO_CONFIG_FIELDS | RGMII_CONFIG_MAX_SPD_PRG_2,
      RGMII_CONFIG_DDR_MODE | RGMII_CONFIG_BYPASS_TX_ID_EN | MAX_SPD_PRG_100 | Loopback(loopbackEn))
    ensures speed == SPEED_10 ==> MacroConfigWord(cfg, speed, loopbackEn) == Masked(cfg, MACRO_CONFIG_FIELDS | RGMII_CONFIG_MAX_SPD_PRG_9,
      RGMII_CONFIG_DDR_MODE | RGMII_CONFIG_BYPASS_TX_ID_EN | MAX_SPD_PRG_10 | Loopback(loopbackEn))
    ensures !ValidSpeed(speed) ==> MacroConfigWord(cfg, speed, loopbackEn) == Masked(cfg, RGMII_CONFIG_INTF_SEL, 0)
  {
    if speed == SPEED_1000 {
      MacroConfigGigabit(cfg, loopbackEn);
    } else if speed == SPEED_100 {
      MacroConfigFast(cfg, loopbackEn);
    } else if speed == SPEED_10 {
      MacroConfigTen(cfg, loopbackEn);
    }
  }

  /** Read back after ethqos_rgmii_macro_init at a valid speed, CONFIG has
      DDR mode on, the interface select 0, LOOPBACK_EN set exactly when the
      platform asks for it, and FUNC_CLK_EN as before. */
  lemma MacroConfigReadBack(cfg: bv32, speed: nat, loopbackEn: bool)
    requires ValidSpeed(speed)
    ensures MacroConfigWord(cfg, speed, loopbackEn) & RGMII_CONFIG_DDR_MODE == RGMII_CONFIG_DDR_MODE
    ensures MacroConfigWord(cfg, speed, loopbackEn) & RGMII_CONFIG_INTF_SEL == 0
    ensures MacroConfigWord(cfg, speed, loopbackEn) & RGMII_CONFIG_LOOPBACK_EN != 0 <==> loopbackEn
    ensures MacroConfigWord(cfg, speed, loopbackEn) & RGMII_CONFIG_FUNC_CLK_EN == cfg & RGMII_CONFIG_FUNC_CLK_EN
  {
    var lb := Loopback(loopbackEn);
    var m, v;
    if speed == SPEED_1000 {
      m, v := MACRO_CONFIG_FIELDS, RGMII_CONFIG_DDR_MODE | RGMII_CONFIG_POS_NEG_DATA_SEL | RGMII_CONFIG_PROG_SWAP | lb;
      MacroConfigGigabit(cfg, loopbackEn);
    } else if speed == SPEED_100 {
      m, v := MACRO_CONFIG_FIELDS | RGMII_CONFIG_MAX_SPD_PRG_2, RGMII_CONFIG_DDR_MODE | RGMII_CONFIG_BYPASS_TX_ID_EN | MAX_SPD_PRG_100 | lb;
      MacroConfigFast(cfg, loopbackEn);
    } else {
      m, v := MACRO_CONFIG_FIELDS | RGMII_CONFIG_MAX_SPD_PRG_9, RGMII_CONFIG_DDR_MODE | RGMII_CONFIG_BYPASS_TX_ID_EN | MAX_SPD_PRG_10 | lb;
      MacroConfigTen(cfg, loopbackEn);
    }
    MaskedSets(cfg, m, v, RGMII_CONFIG_DDR_MODE);
    MaskedSets(cfg, m, v, RGMII_CONFIG_INTF_SEL);
    MaskedSets(cfg, m, v, RGMII_CONFIG_LOOPBACK_EN);
    MaskedKeeps(cfg, m, v, RGMII_CONFIG_FUNC_CLK_EN);
  }

  /** The CONFIG2 bits ethqos_rgmii_macro_init programs at a valid speed. */
  const MACRO_CONFIG2_FIELDS: bv32 := RGMII_CONFIG2_TX_TO_RX_LOOPBACK_EN | RGMII_CONFIG2_DATA_DIVIDE_CLK_SEL
    | RGMII_CONFIG2_TX_CLK_PHASE_SHIFT_EN | RGMII_CONFIG2_RSVD_CONFIG15 | RGMII_CONFIG2_RX_PROG_SWAP

  /** The four CONFIG2 read-modify-writes at a valid speed amount to one. */
  lemma MacroConfig2Chain(cfg2: bv32, ps: bv32, rx: bv32)
    requires ps == 0 || ps == RGMII_CONFIG2_TX_CLK_PHASE_SHIFT_EN
    requires rx == 0 || rx == RGMII_CONFIG2_RX_PROG_SWAP
    ensures Masked(Masked(Masked(Masked(Masked(cfg2, RGMII_CONFIG2_TX_TO_RX_LOOPBACK_EN, 0),
      RGMII_CONFIG2_DATA_DIVIDE_CLK_SEL, 0), RGMII_CONFIG2_TX_CLK_PHASE_SHIFT_EN, ps),
      RGMII_CONFIG2_RSVD_CONFIG15, 0), RGMII_CONFIG2_RX_PROG_SWAP, rx)
         == Masked(cfg2, MACRO_CONFIG2_FIELDS, ps | rx)
  {
    if ps == 0 {
      if rx == 0 {
      } else {
      }
    } else {
      if rx == 0 {
      } else {
      }
    }
  }

  lemma MacroConfig2Gigabit(cfg2: bv32, mode: PhyMode, hasEmac3: bool)
    ensures MacroConfig2Word(cfg2, SPEED_1000, mode, hasEmac3)
         == Masked(cfg2, MACRO_CONFIG2_FIELDS, PhaseShift(mode) | RxProgSwap(SPEED_1000, hasEmac3))
  {
    MacroConfig2Chain(cfg2, PhaseShift(mode), RxProgSwap(SPEED_1000, hasEmac3));
  }

  lemma MacroConfig2Fast(cfg2: bv32, mode: PhyMode, hasEmac3: bool)
    ensures MacroConfig2Word(cfg2, SPEED_100, mode, hasEmac3)
         == Masked(cfg2, MACRO_CONFIG2_FIELDS, PhaseShift(mode) | RxProgSwap(SPEED_100, hasEmac3))
  {
    MacroConfig2Chain(cfg2, PhaseShift(mode), RxProgSwap(SPEED_100, hasEmac3));
  }

  lemma MacroConfig2Ten(cfg2: bv32, mode: PhyMode, hasEmac3: bool)
    ensures MacroConfig2Word(cfg2, SPEED_10, mode, hasEmac3)
         == Masked(cfg2, MACRO_CONFIG2_FIELDS, PhaseShift(mode) | RxProgSwap(SPEED_10, hasEmac3))
  {
    MacroConfig2Chain(cfg2, PhaseShift(mode), RxProgSwap(SPEED_10, hasEmac3));
  }

  /** In CONFIG2, TX-to-RX loopback ends disabled at every speed. At a valid
      speed the data divide clock select and the reserved bits 31:17 end
      cleared, the TX clock phase shift on exactly when the PHY does not add
      the TX delay, and RX swap on exactly at 1000 Mb/s or on EMAC3. */
  lemma MacroConfig2Fields(cfg2: bv32, speed: nat, mode: PhyMode, hasEmac3: bool)
    ensures ValidSpeed(speed) ==>
      MacroConfig2Word(cfg2, speed, mode, hasEmac3) == Masked(cfg2, MACRO_CONFIG2_FIELDS, PhaseShift(mode) | RxProgSwap(speed, hasEmac3))
    ensures !ValidSpeed(speed) ==>
      MacroConfig2Word(cfg2, speed, mode, hasEmac3) == Masked(cfg2, RGMII_CONFIG2_TX_TO_RX_LOOPBACK_EN, 0)
    ensures ValidSpeed(speed) ==> var w := MacroConfig2Word(cfg2, speed, mode, hasEmac3);
      && w & (RGMII_CONFIG2_TX_TO_RX_LOOPBACK_EN | RGMII_CONFIG2_DATA_DIVIDE_CLK_SEL | RGMII_CONFIG2_RSVD_CONFIG15) == 0
      && (w & RGMII_CONFIG2_TX_CLK_PHASE_SHIFT_EN == 0 <==> mode == RgmiiId || mode == RgmiiTxid)
      && (w & RGMII_CONFIG2_RX_PROG_SWAP != 0 <==> speed == SPEED_1000 || hasEmac3)
  {
    if ValidSpeed(speed) {
      var v := PhaseShift(mode) | RxProgSwap(speed, hasEmac3);
      if speed == SPEED_1000 {
        MacroConfig2Gigabit(cfg2, mode, hasEmac3);
      } else if speed == SPEED_100 {
        MacroConfig2Fast(cfg2, mode, hasEmac3);
      } else {
        MacroConfig2Ten(cfg2, mode, hasEmac3);
      }
      MaskedSets(cfg2, MACRO_CONFIG2_FIELDS, v, MACRO_CONFIG2_FIELDS);
    }
  }

  /** The DDR_CONFIG fields ethqos_rgmii_macro_init programs at 1000 Mb/s,
      and at 100 and 10 Mb/s. */
  const MACRO_DDR_1000_FIELDS: bv32 := SDCC_DDR_CONFIG_PRG_RCLK_DLY | SDCC_DDR_CONFIG_PRG_DLY_EN
  const MACRO_DDR_EXT_FIELDS: bv32 := SDCC_DDR_CONFIG_EXT_PRG_RCLK_DLY_CODE | SDCC_DDR_CONFIG_EXT_PRG_RCLK_DLY
    | SDCC_DDR_CONFIG_EXT_PRG_RCLK_DLY_EN

  lemma MacroDdrGigabit(ddr: bv32, hasEmac3: bool)
    ensures MacroDdrWord(ddr, SPEED_1000, hasEmac3)
         == Masked(ddr, MACRO_DDR_1000_FIELDS, PrgRclkDly(hasEmac3) | SDCC_DDR_CONFIG_PRG_DLY_EN)
  {
  }

  lemma MacroDdrSlow(ddr: bv32, speed: nat, hasEmac3: bool)
    requires speed == SPEED_100 || speed == SPEED_10
    ensures MacroDdrWord(ddr, speed, hasEmac3)
         == Masked(ddr, MACRO_DDR_EXT_FIELDS, EXT_PRG_RCLK_DLY_CODE_5 | SDCC_DDR_CONFIG_EXT_PRG_RCLK_DLY | SDCC_DDR_CONFIG_EXT_PRG_RCLK_DLY_EN)
  {
    if speed == SPEED_100 {
    } else {
    }
  }

  /** In DDR_CONFIG, at 1000 Mb/s the programmed RX clock delay reads 115 on
      EMAC3 and 57 otherwise and is enabled; at 100 and 10 Mb/s the external
      delay code reads 5, the external delay field all ones, and it is
      enabled; at any other speed the word is kept. */
  lemma MacroDdrFields(ddr: bv32, speed: nat, hasEmac3: bool)
    ensures speed == SPEED_1000 ==>
      MacroDdrWord(ddr, speed, hasEmac3) == Masked(ddr, MACRO_DDR_1000_FIELDS, PrgRclkDly(hasEmac3) | SDCC_DDR_CONFIG_PRG_DLY_EN)
    ensures speed == SPEED_100 || speed == SPEED_10 ==>
      MacroDdrWord(ddr, speed, hasEmac3) == Masked(ddr, MACRO_DDR_EXT_FIELDS, EXT_PRG_RCLK_DLY_CODE_5 | SDCC_DDR_CONFIG_EXT_PRG_RCLK_DLY | SDCC_DDR_CONFIG_EXT_PRG_RCLK_DLY_EN)
    ensures !ValidSpeed(speed) ==> MacroDdrWord(ddr, speed, hasEmac3) == ddr
    ensures speed == SPEED_1000 ==> var w := MacroDdrWord(ddr, speed, hasEmac3);
      && w & SDCC_DDR_CONFIG_PRG_RCLK_DLY == PrgRclkDly(hasEmac3)
      && w & SDCC_DDR_CONFIG_PRG_DLY_EN == SDCC_DDR_CONFIG_PRG_DLY_EN
    ensures speed == SPEED_100 || speed == SPEED_10 ==> var w := MacroDdrWord(ddr, speed, hasEmac3);
      && (w & SDCC_DDR_CONFIG_EXT_PRG_RCLK_DLY_CODE) >> 27 == 5
      && w & SDCC_DDR_CONFIG_EXT_PRG_RCLK_DLY == SDCC_DDR_CONFIG_EXT_PRG_RCLK_DLY
      && w & SDCC_DDR_CONFIG_EXT_PRG_RCLK_DLY_EN == SDCC_DDR_CONFIG_EXT_PRG_RCLK_DLY_EN
  {
    if speed == SPEED_1000 {
      var v := PrgRclkDly(hasEmac3) | SDCC_DDR_CONFIG_PRG_DLY_EN;
      MacroDdrGigabit(ddr, hasEmac3);
      MaskedSets(ddr, MACRO_DDR_1000_FIELDS, v, MACRO_DDR_1000_FIELDS);
    } else if speed == SPEED_100 || speed == SPEED_10 {
      var v := EXT_PRG_RCLK_DLY_CODE_5 | SDCC_DDR_CONFIG_EXT_PRG_RCLK_DLY | SDCC_DDR_CONFIG_EXT_PRG_RCLK_DLY_EN;
      MacroDdrSlow(ddr, speed, hasEmac3);
      MaskedSets(ddr, MACRO_DDR_EXT_FIELDS, v, MACRO_DDR_EXT_FIELDS);
    }
  }

  /** What ethqos_configure leaves in CONFIG at a valid speed: FUNC_CLK_EN
      and DDR_MODE set, LOOPBACK_EN as the platform asks. */
  lemma ConfigureEndConfig(regs: map<nat, bv32>, por: seq<Por>, speed: nat, mode: PhyMode, loopbackEn: bool, hasEmac3: bool)
    requires ValidSpeed(speed)
    ensures var r := ConfigureRegs(regs, por, speed, mode, loopbackEn, hasEmac3);
      && Reg(r, RGMII_IO_MACRO_CONFIG) & RGMII_CONFIG_FUNC_CLK_EN == RGMII_CONFIG_FUNC_CLK_EN
      && Reg(r, RGMII_IO_MACRO_CONFIG) & RGMII_CONFIG_DDR_MODE == RGMII_CONFIG_DDR_MODE
      && (Reg(r, RGMII_IO_MACRO_CONFIG) & RGMII_CONFIG_LOOPBACK_EN != 0 <==> loopbackEn)
  {
    var p := ApplyPor(regs, por);
    var r1 := ResetRegs(regs, por);
    var r2 := DllResetRegs(r1, speed, hasEmac3);
    var r3 := if speed == SPEED_1000 then DllConfigureRegs(r2, hasEmac3) else r2;
    MaskedSets(Reg(p, RGMII_IO_MACRO_CONFIG), RGMII_CONFIG_FUNC_CLK_EN, RGMII_CONFIG_FUNC_CLK_EN, RGMII_CONFIG_FUNC_CLK_EN);
    DllResetEffect(r1, speed, hasEmac3);
    if speed == SPEED_1000 {
      DllConfigureEffect(r2, hasEmac3);
    }
    assert Reg(r3, RGMII_IO_MACRO_CONFIG) == Reg(r1, RGMII_IO_MACRO_CONFIG);
    MacroInitEffect(r3, speed, mode, loopbackEn, hasEmac3);
    MacroConfigReadBack(Reg(r3, RGMII_IO_MACRO_CONFIG), speed, loopbackEn);
  }

  /** What ethqos_configure leaves in the DLL: out of reset and powered up;
      at 1000 Mb/s enabled, with its CDR and clock output, and calibration
      on. */
  lemma ConfigureEndDll(regs: map<nat, bv32>, por: seq<Por>, speed: nat, mode: PhyMode, loopbackEn: bool, hasEmac3: bool)
    ensures var r := ConfigureRegs(regs, por, speed, mode, loopbackEn, hasEmac3);
      && Reg(r, SDCC_HC_REG_DLL_CONFIG) & (SDCC_DLL_CONFIG_DLL_RST | SDCC_DLL_CONFIG_PDN) == 0
      && (speed == SPEED_1000 ==>
            && Reg(r, SDCC_HC_REG_DLL_CONFIG) & DLL_ENABLED == DLL_ENABLED
            && Reg(r, SDCC_HC_REG_DLL_CONFIG2) & SDCC_DLL_CONFIG2_DDR_CAL_EN == SDCC_DLL_CONFIG2_DDR_CAL_EN)
  {
    var r1 := ResetRegs(regs, por);
    var r2 := DllResetRegs(r1, speed, hasEmac3);
    var r3 := if speed == SPEED_1000 then DllConfigureRegs(r2, hasEmac3) else r2;
    DllResetEffect(r1, speed, hasEmac3);
    DllResetFields(Reg(r1, SDCC_HC_REG_DLL_CONFIG), speed, 0);
    if speed == SPEED_1000 {
      DllConfigureEffect(r2, hasEmac3);
      DllConfigureFields(Reg(r2, SDCC_HC_REG_DLL_CONFIG), hasEmac3);
      DllConfigure2Fields(Reg(r2, SDCC_HC_REG_DLL_CONFIG2), hasEmac3);
    }
    MacroInitEffect(r3, speed, mode, loopbackEn, hasEmac3);
  }

  /** ethqos_update_rgmii_clk: the rate for a speed, or the current rate. */
  function RgmiiClkRate(speed: nat, current: nat): (rate: nat)
    ensures speed == SPEED_1000 ==> rate == 250_000_000
    ensures speed == SPEED_100 ==> rate == 50_000_000
    ensures speed == SPEED_10 ==> rate == 5_000_000
    ensures !ValidSpeed(speed) ==> rate == current
  {
    if speed == SPEED_1000 then RGMII_1000_NOM_CLK_FREQ
    else if speed == SPEED_100 then RGMII_ID_MODE_100_LOW_SVS_CLK_FREQ
    else if speed == SPEED_10 then RGMII_ID_MODE_10_LOW_SVS_CLK_FREQ
    else current
  }

  // ---------------------------------------------------------------------
  // ethqos_configureSGMII

  // MAC_CTRL (GMAC_CONFIG) speed bits
  const GMAC_CONFIG_PS: bv32 := 0x0000_8000   // port select, bit 15
  const GMAC_CONFIG_FES: bv32 := 0x0000_4000  // speed, bit 14
  const GMAC_CONFIG_SPEED: bv32 := 0x0000_C000

  /** The line speed the PS and FES bits of a MAC_CTRL word select: PS=0
      selects 1000 Mb/s (FES=0) or 2500 Mb/s (FES=1); PS=1 selects 10 Mb/s
      (FES=0) or 100 Mb/s (FES=1). */
  function MacSpeed(word: bv32): nat {
    var ps := word & GMAC_CONFIG_PS != 0;
    var fes := word & GMAC_CONFIG_FES != 0;
    if !ps then (if fes then 2500 else 1000)
    else (if fes then 100 else 10)
  }

  /** The MAC_CTRL word ethqos_configureSGMII computes: at 1000 Mb/s PS is
      cleared, at 100 Mb/s PS and FES are set, at 10 Mb/s PS is set and FES
      cleared; any other speed leaves the word as read. */
  function SgmiiMacCtrl(value: bv32, speed: nat): bv32 {
    if speed == SPEED_1000 then value & 0xFFFF_7FFF
    else if speed == SPEED_100 then value | GMAC_CONFIG_PS | GMAC_CONFIG_FES
    else if speed == SPEED_10 then (value | GMAC_CONFIG_PS) & 0xFFFF_BFFF
    else value
  }

  lemma SgmiiGigabit(value: bv32)
    ensures SgmiiMacCtrl(value, SPEED_1000) == Masked(value, GMAC_CONFIG_PS, 0)
  {
  }

  lemma SgmiiFast(value: bv32)
    ensures SgmiiMacCtrl(value, SPEED_100) == Masked(value, GMAC_CONFIG_SPEED, GMAC_CONFIG_SPEED)
  {
  }

  lemma SgmiiTen(value: bv32)
    ensures SgmiiMacCtrl(value, SPEED_10) == Masked(value, GMAC_CONFIG_SPEED, GMAC_CONFIG_PS)
  {
  }

  /** Each speed's word is one read-modify-write: PS cleared at 1000 Mb/s
      (FES as read), PS:FES := 1:1 at 100 and 1:0 at 10; at any other
      speed the word is returned as read. */
  lemma SgmiiMacCtrlFields(value: bv32, speed: nat)
    ensures speed == SPEED_1000 ==> SgmiiMacCtrl(value, speed) == Masked(value, GMAC_CONFIG_PS, 0)
    ensures speed == SPEED_100 ==> SgmiiMacCtrl(value, speed) == Masked(value, GMAC_CONFIG_SPEED, GMAC_CONFIG_SPEED)
    ensures speed == SPEED_10 ==> SgmiiMacCtrl(value, speed) == Masked(value, GMAC_CONFIG_SPEED, GMAC_CONFIG_PS)
    ensures !ValidSpeed(speed) ==> SgmiiMacCtrl(value, speed) == value
  {
    if speed == SPEED_1000 {
      SgmiiGigabit(value);
    } else if speed == SPEED_100 {
      SgmiiFast(value);
    } else if speed == SPEED_10 {
      SgmiiTen(value);
    }
  }

  /** The word selects 100 and 10 Mb/s whatever MAC_CTRL held before; it
      selects 1000 Mb/s exactly when FES was already clear, and 2500 Mb/s
      otherwise, since only PS is cleared. */
  lemma SgmiiMacCtrlSelectsSpeed(value: bv32, speed: nat)
    requires ValidSpeed(speed)
    ensures speed != SPEED_1000 ==> MacSpeed(SgmiiMacCtrl(value, speed)) == speed
    ensures speed == SPEED_1000 ==>
      (MacSpeed(SgmiiMacCtrl(value, speed)) == SPEED_1000 <==> value & GMAC_CONFIG_FES == 0)
    ensures speed == SPEED_1000 && value & GMAC_CONFIG_FES != 0 ==> MacSpeed(SgmiiMacCtrl(value, speed)) == 2500
  {
    if speed == SPEED_1000 {
      SgmiiGigabitSelects(value);
    } else if speed == SPEED_100 {
      SgmiiFastSelects(value);
    } else {
      SgmiiTenSelects(value);
    }
  }

  /** At every speed the word keeps all bits other than PS and FES. */
  lemma SgmiiMacCtrlKeeps(value: bv32, speed: nat)
    ensures SgmiiMacCtrl(value, speed) & 0xFFFF_3FFF == value & 0xFFFF_3FFF
  {
    if speed == SPEED_1000 {
      SgmiiGigabitKeeps(value);
    } else if speed == SPEED_100 {
      SgmiiFastKeeps(value);
    } else if speed == SPEED_10 {
      SgmiiTenKeeps(value);
    }
  }

  lemma SgmiiGigabitKeeps(value: bv32)
    ensures SgmiiMacCtrl(value, SPEED_1000) & 0xFFFF_3FFF == value & 0xFFFF_3FFF
  {
  }

  lemma SgmiiFastKeeps(value: bv32)
    ensures SgmiiMacCtrl(value, SPEED_100) & 0xFFFF_3FFF == value & 0xFFFF_3FFF
  {
  }

  lemma SgmiiTenKeeps(value: bv32)
    ensures SgmiiMacCtrl(value, SPEED_10) & 0xFFFF_3FFF == value & 0xFFFF_3FFF
  {
  }

  lemma SgmiiGigabitSelects(value: bv32)
    ensures value & GMAC_CONFIG_FES == 0 ==> MacSpeed(SgmiiMacCtrl(value, SPEED_1000)) == SPEED_1000
    ensures value & GMAC_CONFIG_FES != 0 ==> MacSpeed(SgmiiMacCtrl(value, SPEED_1000)) == 2500
  {
  }

  lemma SgmiiFastSelects(value: bv32)
    ensures MacSpeed(SgmiiMacCtrl(value, SPEED_100)) == SPEED_100
  {
  }

  lemma SgmiiTenSelects(value: bv32)
    ensures MacSpeed(SgmiiMacCtrl(value, SPEED_10)) == SPEED_10
  {
  }

  // ---------------------------------------------------------------------
  // The driver

  /** struct qcom_ethqos: the two register blocks, the per-SoC data copied
      at probe, the PHY mode, and the fields the speed change assigns. */
  class Ethqos {
    const rgmiiBase: Mmio.Block
    const ioaddr: Mmio.Block
    const phyMode: PhyMode
    const por: seq<Por>
    const rgmiiConfigLoopbackEn: bool
    const hasEmac3: bool
    var rgmiiClkRate: nat
    var speed: nat

    ghost predicate Valid()
      reads this, rgmiiBase, ioaddr
    {
      && rgmiiBase != ioaddr
      && RgmiiOffsets <= rgmiiBase.regs.Keys
      && MAC_CTRL_REG in ioaddr.regs
    }

    constructor (rgmiiBase: Mmio.Block, ioaddr: Mmio.Block, phyMode: PhyMode, data: DriverData)
      ensures this.rgmiiBase == rgmiiBase && this.ioaddr == ioaddr && this.phyMode == phyMode
      ensures por == data.por && rgmiiConfigLoopbackEn == data.rgmiiConfigLoopbackEn && hasEmac3 == data.hasEmac3
      ensures rgmiiClkRate == 0 && speed == 0
    {
      this.rgmiiBase := rgmiiBase;
      this.ioaddr := ioaddr;
      this.phyMode := phyMode;
      por := data.por;
      rgmiiConfigLoopbackEn := data.rgmiiConfigLoopbackEn;
      hasEmac3 := data.hasEmac3;
      rgmiiClkRate := 0;
      speed := 0;
    }

    /** rgmii_updatel: read, clear the mask, or in the value, write back. */
    method RgmiiUpdatel(mask: bv32, val: bv32, offset: nat)
      requires offset in rgmiiBase.regs
      modifies rgmiiBase
      ensures rgmiiBase.regs == Update(old(rgmiiBase.regs), offset, mask, val)
    {
      var temp := rgmiiBase.Readl(offset);
      temp := (temp & (mask ^ 0xFFFF_FFFF)) | val;
      rgmiiBase.Writel(temp, offset);
    }

    /** ethqos_update_rgmii_clk (the clk_set_rate call is not modelled). */
    method UpdateRgmiiClk(speed: nat)
      modifies this`rgmiiClkRate
      ensures rgmiiClkRate == RgmiiClkRate(speed, old(rgmiiClkRate))
    {
      if speed == SPEED_1000 {
        rgmiiClkRate := RGMII_1000_NOM_CLK_FREQ;
      } else if speed == SPEED_100 {
        rgmiiClkRate := RGMII_ID_MODE_100_LOW_SVS_CLK_FREQ;
      } else if speed == SPEED_10 {
        rgmiiClkRate := RGMII_ID_MODE_10_LOW_SVS_CLK_FREQ;
      }
    }

    /** The reset loop of ethqos_configure: the table is written entry by
        entry, in order. */
    method WritePor()
      requires Valid()
      modifies rgmiiBase
      ensures Valid()
      ensures rgmiiBase.regs == ApplyPor(old(rgmiiBase.regs), por)
      ensures rgmiiBase.writes == old(rgmiiBase.writes) + PorWrites(por)
    {
      for i := 0 to |por|
        invariant RgmiiOffsets <= rgmiiBase.regs.Keys
        invariant rgmiiBase.regs == ApplyPor(old(rgmiiBase.regs), por[..i])
        invariant rgmiiBase.writes == old(rgmiiBase.writes) + PorWrites(por[..i])
      {
        ApplyPorSnoc(old(rgmiiBase.regs), por[..i], por[i]);
        assert por[..i + 1] == por[..i] + [por[i]];
        rgmiiBase.Writel(por[i].value, por[i].offset);
      }
      assert por[..|por|] == por;
    }

    /** ethqos_set_func_clk_en */
    method SetFuncClkEn()
      requires Valid()
      modifies rgmiiBase
      ensures Valid()
      ensures rgmiiBase.regs == Update(old(rgmiiBase.regs), RGMII_IO_MACRO_CONFIG, RGMII_CONFIG_FUNC_CLK_EN, RGMII_CONFIG_FUNC_CLK_EN)
    {
      RgmiiUpdatel(RGMII_CONFIG_FUNC_CLK_EN, RGMII_CONFIG_FUNC_CLK_EN, RGMII_IO_MACRO_CONFIG);
    }

    /** The DLL reset sequence of ethqos_configure, without the DLL lock
        poll. */
    method DllReset()
      requires Valid()
      modifies rgmiiBase
      ensures Valid()
      ensures rgmiiBase.regs == DllResetRegs(old(rgmiiBase.regs), speed, hasEmac3)
    {
      RgmiiUpdatel(SDCC_DLL_CONFIG_DLL_RST, SDCC_DLL_CONFIG_DLL_RST, SDCC_HC_REG_DLL_CONFIG);
      RgmiiUpdatel(SDCC_DLL_CONFIG_PDN, SDCC_DLL_CONFIG_PDN, SDCC_HC_REG_DLL_CONFIG);
      if hasEmac3 {
        if speed == SPEED_1000 {
          rgmiiBase.Writel(0x0180_0000, SDCC_TEST_CTL);
          rgmiiBase.Writel(0x2C01_0800, SDCC_USR_CTL);
          rgmiiBase.Writel(0xA001, SDCC_HC_REG_DLL_CONFIG2);
        } else {
          rgmiiBase.Writel(0x4001_0800, SDCC_USR_CTL);
          rgmiiBase.Writel(0xA001, SDCC_HC_REG_DLL_CONFIG2);
        }
      }
      RgmiiUpdatel(SDCC_DLL_CONFIG_DLL_RST, 0, SDCC_HC_REG_DLL_CONFIG);
      RgmiiUpdatel(SDCC_DLL_CONFIG_PDN, 0, SDCC_HC_REG_DLL_CONFIG);
      if speed != SPEED_100 && speed != SPEED_10 {
        RgmiiUpdatel(SDCC_DLL_CONFIG_DLL_EN, SDCC_DLL_CONFIG_DLL_EN, SDCC_HC_REG_DLL_CONFIG);
        RgmiiUpdatel(SDCC_DLL_CONFIG_CK_OUT_EN, SDCC_DLL_CONFIG_CK_OUT_EN, SDCC_HC_REG_DLL_CONFIG);
        if !hasEmac3 {
          RgmiiUpdatel(USR_CTL_26_24, USR_CTL_BIT_26, SDCC_USR_CTL);
        }
      }
    }

    /** ethqos_dll_configure, without the two CK_OUT_EN polls. */
    method DllConfigure() returns (ret: int)
      requires Valid()
      modifies rgmiiBase
      ensures Valid()
      ensures ret == 0
      ensures rgmiiBase.regs == DllConfigureRegs(old(rgmiiBase.regs), hasEmac3)
    {
      RgmiiUpdatel(SDCC_DLL_CONFIG_CDR_EN, SDCC_DLL_CONFIG_CDR_EN, SDCC_HC_REG_DLL_CONFIG);
      RgmiiUpdatel(SDCC_DLL_CONFIG_CDR_EXT_EN, SDCC_DLL_CONFIG_CDR_EXT_EN, SDCC_HC_REG_DLL_CONFIG);
      RgmiiUpdatel(SDCC_DLL_CONFIG_CK_OUT_EN, 0, SDCC_HC_REG_DLL_CONFIG);
      RgmiiUpdatel(SDCC_DLL_CONFIG_DLL_EN, SDCC_DLL_CONFIG_DLL_EN, SDCC_HC_REG_DLL_CONFIG);
      if !hasEmac3 {
        RgmiiUpdatel(SDCC_DLL_MCLK_GATING_EN, 0, SDCC_HC_REG_DLL_CONFIG);
        RgmiiUpdatel(SDCC_DLL_CDR_FINE_PHASE, 0, SDCC_HC_REG_DLL_CONFIG);
      }
      RgmiiUpdatel(SDCC_DLL_CONFIG_CK_OUT_EN, SDCC_DLL_CONFIG_CK_OUT_EN, SDCC_HC_REG_DLL_CONFIG);
      RgmiiUpdatel(SDCC_DLL_CONFIG2_DDR_CAL_EN, SDCC_DLL_CONFIG2_DDR_CAL_EN, SDCC_HC_REG_DLL_CONFIG2);
      if !hasEmac3 {
        RgmiiUpdatel(SDCC_DLL_CONFIG2_DLL_CLOCK_DIS, 0, SDCC_HC_REG_DLL_CONFIG2);
        RgmiiUpdatel(SDCC_DLL_CONFIG2_MCLK_FREQ_CALC, 0x1A << 10, SDCC_HC_REG_DLL_CONFIG2);
        RgmiiUpdatel(SDCC_DLL_CONFIG2_DDR_TRAFFIC_INIT_SEL, 0x0000_0004, SDCC_HC_REG_DLL_CONFIG2);
        RgmiiUpdatel(SDCC_DLL_CONFIG2_DDR_TRAFFIC_INIT_SW, SDCC_DLL_CONFIG2_DDR_TRAFFIC_INIT_SW, SDCC_HC_REG_DLL_CONFIG2);
      }
      return 0;
    }

    /** The 1000 Mb/s case of ethqos_rgmii_macro_init. */
    method MacroInitGigabit(phaseShift: bv32, loopback: bv32)
      requires Valid()
      requires phaseShift == PhaseShift(phyMode) && loopback == Loopback(rgmiiConfigLoopbackEn)
      modifies rgmiiBase
      ensures Valid()
      ensures rgmiiBase.regs == MacroGigabitRegs(old(rgmiiBase.regs), phyMode, rgmiiConfigLoopbackEn, hasEmac3)
    {
      RgmiiUpdatel(RGMII_CONFIG_DDR_MODE, RGMII_CONFIG_DDR_MODE, RGMII_IO_MACRO_CONFIG);
      RgmiiUpdatel(RGMII_CONFIG_BYPASS_TX_ID_EN, 0, RGMII_IO_MACRO_CONFIG);
      RgmiiUpdatel(RGMII_CONFIG_POS_NEG_DATA_SEL, RGMII_CONFIG_POS_NEG_DATA_SEL, RGMII_IO_MACRO_CONFIG);
      RgmiiUpdatel(RGMII_CONFIG_PROG_SWAP, RGMII_CONFIG_PROG_SWAP, RGMII_IO_MACRO_CONFIG);
      RgmiiUpdatel(RGMII_CONFIG2_DATA_DIVIDE_CLK_SEL, 0, RGMII_IO_MACRO_CONFIG2);
      RgmiiUpdatel(RGMII_CONFIG2_TX_CLK_PHASE_SHIFT_EN, phaseShift, RGMII_IO_MACRO_CONFIG2);
      RgmiiUpdatel(RGMII_CONFIG2_RSVD_CONFIG15, 0, RGMII_IO_MACRO_CONFIG2);
      RgmiiUpdatel(RGMII_CONFIG2_RX_PROG_SWAP, RGMII_CONFIG2_RX_PROG_SWAP, RGMII_IO_MACRO_CONFIG2);
      if hasEmac3 {
        RgmiiUpdatel(SDCC_DDR_CONFIG_PRG_RCLK_DLY, 115, SDCC_HC_REG_DDR_CONFIG);
      } else {
        RgmiiUpdatel(SDCC_DDR_CONFIG_PRG_RCLK_DLY, 57, SDCC_HC_REG_DDR_CONFIG);
      }
      RgmiiUpdatel(SDCC_DDR_CONFIG_PRG_DLY_EN, SDCC_DDR_CONFIG_PRG_DLY_EN, SDCC_HC_REG_DDR_CONFIG);
      RgmiiUpdatel(RGMII_CONFIG_LOOPBACK_EN, loopback, RGMII_IO_MACRO_CONFIG);
    }

    /** The 100 and 10 Mb/s cases of ethqos_rgmii_macro_init. */
    method MacroInitSlow(phaseShift: bv32, loopback: bv32)
      requires Valid()
      requires speed == SPEED_100 || speed == SPEED_10
      requires phaseShift == PhaseShift(phyMode) && loopback == Loopback(rgmiiConfigLoopbackEn)
      modifies rgmiiBase
      ensures Valid()
      ensures rgmiiBase.regs == MacroSlowRegs(old(rgmiiBase.regs), speed, phyMode, rgmiiConfigLoopbackEn, hasEmac3)
    {
      RgmiiUpdatel(RGMII_CONFIG_DDR_MODE, RGMII_CONFIG_DDR_MODE, RGMII_IO_MACRO_CONFIG);
      RgmiiUpdatel(RGMII_CONFIG_BYPASS_TX_ID_EN, RGMII_CONFIG_BYPASS_TX_ID_EN, RGMII_IO_MACRO_CONFIG);
      RgmiiUpdatel(RGMII_CONFIG_POS_NEG_DATA_SEL, 0, RGMII_IO_MACRO_CONFIG);
      RgmiiUpdatel(RGMII_CONFIG_PROG_SWAP, 0, RGMII_IO_MACRO_CONFIG);
      RgmiiUpdatel(RGMII_CONFIG2_DATA_DIVIDE_CLK_SEL, 0, RGMII_IO_MACRO_CONFIG2);
      RgmiiUpdatel(RGMII_CONFIG2_TX_CLK_PHASE_SHIFT_EN, phaseShift, RGMII_IO_MACRO_CONFIG2);
      if speed == SPEED_100 {
        RgmiiUpdatel(RGMII_CONFIG_MAX_SPD_PRG_2, MAX_SPD_PRG_100, RGMII_IO_MACRO_CONFIG);
      } else {
        RgmiiUpdatel(RGMII_CONFIG_MAX_SPD_PRG_9, MAX_SPD_PRG_10, RGMII_IO_MACRO_CONFIG);
      }
      RgmiiUpdatel(RGMII_CONFIG2_RSVD_CONFIG15, 0, RGMII_IO_MACRO_CONFIG2);
      if hasEmac3 {
        RgmiiUpdatel(RGMII_CONFIG2_RX_PROG_SWAP, RGMII_CONFIG2_RX_PROG_SWAP, RGMII_IO_MACRO_CONFIG2);
      } else {
        RgmiiUpdatel(RGMII_CONFIG2_RX_PROG_SWAP, 0, RGMII_IO_MACRO_CONFIG2);
      }
      RgmiiUpdatel(SDCC_DDR_CONFIG_EXT_PRG_RCLK_DLY_CODE, EXT_PRG_RCLK_DLY_CODE_5, SDCC_HC_REG_DDR_CONFIG);
      RgmiiUpdatel(SDCC_DDR_CONFIG_EXT_PRG_RCLK_DLY, SDCC_DDR_CONFIG_EXT_PRG_RCLK_DLY, SDCC_HC_REG_DDR_CONFIG);
      RgmiiUpdatel(SDCC_DDR_CONFIG_EXT_PRG_RCLK_DLY_EN, SDCC_DDR_CONFIG_EXT_PRG_RCLK_DLY_EN, SDCC_HC_REG_DDR_CONFIG);
      RgmiiUpdatel(RGMII_CONFIG_LOOPBACK_EN, loopback, RGMII_IO_MACRO_CONFIG);
    }

    /** ethqos_rgmii_macro_init: -EINVAL, after the two common updates, at a
        speed other than 1000, 100 and 10 Mb/s. */
    method RgmiiMacroInit() returns (ret: int)
      requires Valid()
      modifies rgmiiBase
      ensures Valid()
      ensures ret == if ValidSpeed(speed) then 0 else -EINVAL
      ensures rgmiiBase.regs == MacroInitRegs(old(rgmiiBase.regs), speed, phyMode, rgmiiConfigLoopbackEn, hasEmac3)
    {
      var phaseShift: bv32;
      if phyMode == RgmiiId || phyMode == RgmiiTxid {
        phaseShift := 0;
      } else {
        phaseShift := RGMII_CONFIG2_TX_CLK_PHASE_SHIFT_EN;
      }
      RgmiiUpdatel(RGMII_CONFIG2_TX_TO_RX_LOOPBACK_EN, 0, RGMII_IO_MACRO_CONFIG2);
      var loopback: bv32;
      if rgmiiConfigLoopbackEn {
        loopback := RGMII_CONFIG_LOOPBACK_EN;
      } else {
        loopback := 0;
      }
      RgmiiUpdatel(RGMII_CONFIG_INTF_SEL, 0, RGMII_IO_MACRO_CONFIG);
      if speed == SPEED_1000 {
        MacroInitGigabit(phaseShift, loopback);
      } else if speed == SPEED_100 || speed == SPEED_10 {
        MacroInitSlow(phaseShift, loopback);
      } else {
        return -EINVAL;
      }
      return 0;
    }

    /** ethqos_configure: the reset table, the clock enable, the DLL reset,
        ethqos_dll_configure at 1000 Mb/s only, and the macro programming,
        whose result is discarded; the registers end as ConfigureRegs
        says. */
    method Configure() returns (ret: int)
      requires Valid()
      modifies rgmiiBase
      ensures Valid()
      ensures ret == 0
      ensures rgmiiBase.regs == ConfigureRegs(old(rgmiiBase.regs), por, speed, phyMode, rgmiiConfigLoopbackEn, hasEmac3)
    {
      WritePor();
      SetFuncClkEn();
      DllReset();
      if speed == SPEED_1000 {
        var _ := DllConfigure();
      }
      var _ := RgmiiMacroInit();
      return 0;
    }

    /** The MAC_CTRL read-modify-write of ethqos_configureSGMII at one of
        the three speeds. */
    method WriteMacCtrl(speed: nat) returns (value: bv32)
      requires MAC_CTRL_REG in ioaddr.regs
      requires ValidSpeed(speed)
      modifies ioaddr
      ensures value == SgmiiMacCtrl(old(ioaddr.regs[MAC_CTRL_REG]), speed)
      ensures ioaddr.regs == old(ioaddr.regs)[MAC_CTRL_REG := value]
      ensures ioaddr.writes == old(ioaddr.writes) + [Mmio.Write(MAC_CTRL_REG, value)]
    {
      value := ioaddr.Readl(MAC_CTRL_REG);
      if speed == SPEED_1000 {
        value := value & 0xFFFF_7FFF;
      } else if speed == SPEED_100 {
        value := value | GMAC_CONFIG_PS | GMAC_CONFIG_FES;
      } else {
        value := value | GMAC_CONFIG_PS;
        value := value & 0xFFFF_BFFF;
      }
      ioaddr.Writel(value, MAC_CTRL_REG);
    }

    /** ethqos_configureSGMII: the MAC_CTRL word for the speed is written
        and returned, and at 1000 Mb/s RGMII_CLK_SEL_CFG is set in CONFIG2.
        At other speeds nothing is written and the word as read is
        returned. */
    method ConfigureSgmii() returns (value: bv32)
      requires Valid()
      modifies ioaddr, rgmiiBase
      ensures Valid()
      ensures value == SgmiiMacCtrl(old(ioaddr.regs[MAC_CTRL_REG]), speed)
      ensures ValidSpeed(speed) ==> ioaddr.regs == old(ioaddr.regs)[MAC_CTRL_REG := value]
      ensures ValidSpeed(speed) ==> ioaddr.writes == old(ioaddr.writes) + [Mmio.Write(MAC_CTRL_REG, value)]
      ensures !ValidSpeed(speed) ==> ioaddr.regs == old(ioaddr.regs) && ioaddr.writes == old(ioaddr.writes)
      ensures rgmiiBase.regs == if speed == SPEED_1000 then
        Update(old(rgmiiBase.regs), RGMII_IO_MACRO_CONFIG2, RGMII_CONFIG2_RGMII_CLK_SEL_CFG, RGMII_CONFIG2_RGMII_CLK_SEL_CFG)
        else old(rgmiiBase.regs)
    {
      if ValidSpeed(speed) {
        value := WriteMacCtrl(speed);
        if speed == SPEED_1000 {
          RgmiiUpdatel(RGMII_CONFIG2_RGMII_CLK_SEL_CFG, RGMII_CONFIG2_RGMII_CLK_SEL_CFG, RGMII_IO_MACRO_CONFIG2);
          assert rgmiiBase.regs.Keys == old(rgmiiBase.regs).Keys;
        }
      } else {
        value := ioaddr.Readl(MAC_CTRL_REG);
      }
    }

    /** ethqos_fix_mac_speed: record the speed, then program the SGMII MAC
        word, or retune the RGMII clock and run ethqos_configure. */
    method FixMacSpeed(speed: nat)
      requires Valid()
      modifies this`speed, this`rgmiiClkRate, rgmiiBase, ioaddr
      ensures Valid()
      ensures this.speed == speed
      ensures phyMode == Sgmii ==>
        && rgmiiClkRate == old(rgmiiClkRate)
        && (ValidSpeed(speed) ==> ioaddr.regs == old(ioaddr.regs)[MAC_CTRL_REG := SgmiiMacCtrl(old(ioaddr.regs[MAC_CTRL_REG]), speed)])
        && (ValidSpeed(speed) ==> ioaddr.writes == old(ioaddr.writes) + [Mmio.Write(MAC_CTRL_REG, ioaddr.regs[MAC_CTRL_REG])])
        && (!ValidSpeed(speed) ==> ioaddr.regs == old(ioaddr.regs) && ioaddr.writes == old(ioaddr.writes))
        && rgmiiBase.regs == (if speed == SPEED_1000 then
             Update(old(rgmiiBase.regs), RGMII_IO_MACRO_CONFIG2, RGMII_CONFIG2_RGMII_CLK_SEL_CFG, RGMII_CONFIG2_RGMII_CLK_SEL_CFG)
             else old(rgmiiBase.regs))
      ensures phyMode != Sgmii ==>
        && rgmiiClkRate == RgmiiClkRate(speed, old(rgmiiClkRate))
        && rgmiiBase.regs == ConfigureRegs(old(rgmiiBase.regs), por, speed, phyMode, rgmiiConfigLoopbackEn, hasEmac3)
        && ioaddr.regs == old(ioaddr.regs) && ioaddr.writes == old(ioaddr.writes)
    {
      this.speed := speed;
      if phyMode == Sgmii {
        var _ := ConfigureSgmii();
      } else {
        UpdateRgmiiClk(speed);
        var _ := Configure();
      }
    }
  }
}
