/** The DesignWare MAC physical coding sublayer (stmmac_pcs.c and
    stmmac_pcs.h): starting auto-negotiation, decoding the link partner's
    base page into link modes, and counting PCS interrupts. The base page
    layout is that of the Config_Reg of IEEE 802.3 Clause 37 (section
    37.2.1): FD bit 5, HD bit 6, pause bits 8:7, remote fault bits 13:12,
    Ack bit 14. */
module StmmacPcs {
  import opened Bits
  import Mmio

  // Register offsets from the PCS base
  const PCS_AN_CTRL: nat := 0x00
  const PCS_AN_STATUS: nat := 0x04
  const PCS_ANE_ADV: nat := 0x08
  const PCS_ANE_LPA: nat := 0x0C
  const PCS_ANE_EXP: nat := 0x10
  const PCS_TBI_EXT: nat := 0x14

  // AN_CTRL
  const PCS_AN_CTRL_RAN: bv32 := 0x0000_0200      // BIT(9)
  const PCS_AN_CTRL_ANE: bv32 := 0x0000_1000      // BIT(12)
  const PCS_AN_CTRL_ELE: bv32 := 0x0000_4000      // BIT(14)
  const PCS_AN_CTRL_ECD: bv32 := 0x0001_0000      // BIT(16)
  const PCS_AN_CTRL_LR: bv32 := 0x0002_0000       // BIT(17)
  const PCS_AN_CTRL_SGMRAL: bv32 := 0x0004_0000   // BIT(18)

  // AN_STATUS
  const PCS_AN_STATUS_LS: bv32 := 0x0000_0004     // BIT(2)
  const PCS_AN_STATUS_ANA: bv32 := 0x0000_0008    // BIT(3)
  const PCS_AN_STATUS_ANC: bv32 := 0x0000_0020    // BIT(5)
  const PCS_AN_STATUS_ES: bv32 := 0x0000_0100     // BIT(8)

  // ADV and LPA
  const PCS_ANE_FD: bv32 := 0x0000_0020           // BIT(5)
  const PCS_ANE_HD: bv32 := 0x0000_0040           // BIT(6)
  const PCS_ANE_PSE: bv32 := 0x0000_0180          // GENMASK(8, 7)
  const PCS_ANE_PSE_SHIFT: bv32 := 7
  const PCS_ANE_RFE: bv32 := 0x0000_3000          // GENMASK(13, 12)
  const PCS_ANE_RFE_SHIFT: bv32 := 12
  const PCS_ANE_ACK: bv32 := 0x0000_4000          // BIT(14)

  // SGMII/RGMII/SMII link status
  const PCS_CFG_LNKMOD: bv32 := 0x0000_0001       // BIT(0)
  const PCS_CFG_LNKSPEED: bv32 := 0x0000_0006     // GENMASK(2, 1)
  const PCS_CFG_LNKSPEED_2_5: bv32 := 0x0
  const PCS_CFG_LNKSPEED_25: bv32 := 0x1
  const PCS_CFG_LNKSPEED_250: bv32 := 0x2
  const PCS_CFG_LNKSTS: bv32 := 0x0000_0008       // BIT(3)

  /** The interrupt status bits and the pause encodings come from common.h,
      which is not part of this model; these are the values the stmmac
      core defines for them. */
  const PCS_LINK_IRQ: bv32 := 0x0000_0002         // BIT(1)
  const PCS_ANE_IRQ: bv32 := 0x0000_0004          // BIT(2)
  const STMMAC_PCS_PAUSE: bv32 := 1
  const STMMAC_PCS_ASYM_PAUSE: bv32 := 2

  /** The mask constants agree with the GENMASK and shift definitions. */
  lemma MasksAgree()
    ensures PCS_ANE_PSE == GenMask(8, 7) == 3 << PCS_ANE_PSE_SHIFT
    ensures PCS_ANE_RFE == GenMask(13, 12) == 3 << PCS_ANE_RFE_SHIFT
    ensures PCS_CFG_LNKSPEED == GenMask(2, 1)
  {
  }

  /** The base page fields do not overlap, nor do the AN_CTRL bits, and
      the three link speed codes fit in LNKSPEED. */
  lemma FieldsDisjoint()
    ensures var fields := [PCS_ANE_FD, PCS_ANE_HD, PCS_ANE_PSE, PCS_ANE_RFE, PCS_ANE_ACK];
      forall i, j :: 0 <= i < j < |fields| ==> fields[i] & fields[j] == 0
    ensures var bits := [PCS_AN_CTRL_RAN, PCS_AN_CTRL_ANE, PCS_AN_CTRL_ELE, PCS_AN_CTRL_ECD,
      PCS_AN_CTRL_LR, PCS_AN_CTRL_SGMRAL];
      forall i, j :: 0 <= i < j < |bits| ==> bits[i] & bits[j] == 0
    ensures var codes := [PCS_CFG_LNKSPEED_2_5, PCS_CFG_LNKSPEED_25, PCS_CFG_LNKSPEED_250];
      forall i :: 0 <= i < |codes| ==> (codes[i] << 1) & PCS_CFG_LNKSPEED == codes[i] << 1
  {
  }

  // ---------------------------------------------------------------------
  // dwmac_pcs_config

  /** The AN_CTRL word dwmac_pcs_config writes back. */
  function ConfigWord(val: bv32, ps: int): bv32 {
    var v := val | PCS_AN_CTRL_ANE | PCS_AN_CTRL_RAN;
    if ps != 0 then v | PCS_AN_CTRL_SGMRAL else v
  }

  /** The written word has ANE and RAN on, SGMRAL on when the MAC has a
      fixed port speed and as read otherwise, and every other bit as read. */
  lemma ConfigWordBits(val: bv32, ps: int)
    ensures ConfigWord(val, ps) & (PCS_AN_CTRL_ANE | PCS_AN_CTRL_RAN) == PCS_AN_CTRL_ANE | PCS_AN_CTRL_RAN
    ensures ps != 0 ==> ConfigWord(val, ps) & PCS_AN_CTRL_SGMRAL == PCS_AN_CTRL_SGMRAL
    ensures ps == 0 ==> ConfigWord(val, ps) & PCS_AN_CTRL_SGMRAL == val & PCS_AN_CTRL_SGMRAL
    ensures var rest := (PCS_AN_CTRL_ANE | PCS_AN_CTRL_RAN | PCS_AN_CTRL_SGMRAL) ^ 0xFFFF_FFFF;
      ConfigWord(val, ps) & rest == val & rest
  {
    if ps != 0 {
    } else {
    }
  }

  // ---------------------------------------------------------------------
  // dwmac_pcs_get_state

  /** ETHTOOL_LINK_MODE_*_BIT numbers of the modes the decoder touches. */
  const LINK_MODE_10baseT_Half: nat := 0
  const LINK_MODE_10baseT_Full: nat := 1
  const LINK_MODE_100baseT_Half: nat := 2
  const LINK_MODE_100baseT_Full: nat := 3
  const LINK_MODE_1000baseT_Half: nat := 4
  const LINK_MODE_1000baseT_Full: nat := 5
  const LINK_MODE_Autoneg: nat := 6
  const LINK_MODE_Pause: nat := 13
  const LINK_MODE_Asym_Pause: nat := 14

  const FULL_MODES: set<nat> := {LINK_MODE_1000baseT_Full, LINK_MODE_100baseT_Full, LINK_MODE_10baseT_Full}
  const HALF_MODES: set<nat> := {LINK_MODE_1000baseT_Half, LINK_MODE_100baseT_Half, LINK_MODE_10baseT_Half}
  const PAUSE_MODES: set<nat> := {LINK_MODE_Pause, LINK_MODE_Asym_Pause}

  /** FIELD_GET(PCS_ANE_PSE, val): the two pause bits of the base page. */
  function PauseField(val: bv32): (r: bv32)
    ensures r < 4
  {
    (val & PCS_ANE_PSE) >> PCS_ANE_PSE_SHIFT
  }

  /** linkmode_mod_bit: set the mode when on, clear it otherwise. */
  function ModBit(modes: set<nat>, mode: nat, on: bool): set<nat> {
    if on then modes + {mode} else modes - {mode}
  }

  /** lp_advertising after dwmac_pcs_get_state with LPA word val. */
  function LpAdvertising(modes: set<nat>, val: bv32): set<nat> {
    var a := modes + {LINK_MODE_Autoneg};
    var f := if val & PCS_ANE_FD != 0 then a + FULL_MODES else a;
    var h := if val & PCS_ANE_HD != 0 then f + HALF_MODES else f;
    var p := ModBit(h, LINK_MODE_Pause, PauseField(val) & STMMAC_PCS_PAUSE != 0);
    ModBit(p, LINK_MODE_Asym_Pause, PauseField(val) & STMMAC_PCS_ASYM_PAUSE != 0)
  }

  /** Autoneg is always added; FD adds the three Full modes and HD the three
      Half modes, which are never removed; Pause follows LPA bit 7 and
      Asym_Pause LPA bit 8; any other mode is kept as it was. */
  lemma LpAdvertisingModes(modes: set<nat>, val: bv32)
    ensures LINK_MODE_Autoneg in LpAdvertising(modes, val)
    ensures val & PCS_ANE_FD != 0 ==> FULL_MODES <= LpAdvertising(modes, val)
    ensures val & PCS_ANE_HD != 0 ==> HALF_MODES <= LpAdvertising(modes, val)
    ensures modes - PAUSE_MODES <= LpAdvertising(modes, val)
    ensures LINK_MODE_Pause in LpAdvertising(modes, val) <==> val & 0x80 != 0
    ensures LINK_MODE_Asym_Pause in LpAdvertising(modes, val) <==> val & 0x100 != 0
    ensures forall m :: m !in PAUSE_MODES && m !in FULL_MODES && m !in HALF_MODES && m != LINK_MODE_Autoneg ==>
      (m in LpAdvertising(modes, val) <==> m in modes)
    ensures forall m :: m in FULL_MODES && m !in modes ==>
      (m in LpAdvertising(modes, val) <==> val & PCS_ANE_FD != 0)
    ensures forall m :: m in HALF_MODES && m !in modes ==>
      (m in LpAdvertising(modes, val) <==> val & PCS_ANE_HD != 0)
  {
    PauseBits(val);
  }

  /** The pause encoding masks pick LPA bits 7 and 8. */
  lemma PauseBits(val: bv32)
    ensures PauseField(val) & STMMAC_PCS_PAUSE != 0 <==> val & 0x80 != 0
    ensures PauseField(val) & STMMAC_PCS_ASYM_PAUSE != 0 <==> val & 0x100 != 0
  {
  }

  /** struct phylink_link_state: the link partner's advertised modes. */
  class LinkState {
    var lpAdvertising: set<nat>

    constructor (modes: set<nat>)
      ensures lpAdvertising == modes
    {
      lpAdvertising := modes;
    }
  }

  /** struct stmmac_extra_stats: the two PCS interrupt counters (unsigned
      long, 64 bits). */
  class ExtraStats {
    var irqPcsAneN: nat
    var irqPcsLinkN: nat

    constructor ()
      ensures irqPcsAneN == 0 && irqPcsLinkN == 0
    {
      irqPcsAneN := 0;
      irqPcsLinkN := 0;
    }
  }

  const U64_MODULUS: nat := 0x1_0000_0000_0000_0000

  /** `x->irq_pcs_*_n++` on an unsigned long. */
  function Inc64(n: nat): (r: nat)
    requires n < U64_MODULUS
    ensures r < U64_MODULUS
    ensures r == n + 1 || (n == U64_MODULUS - 1 && r == 0)
  {
    if n == U64_MODULUS - 1 then 0 else n + 1
  }

  /** struct mac_device_info as the PCS code sees it: the PCS registers and
      hw->ps, the fixed port speed (0 when there is none). */
  class Pcs {
    const pcsaddr: Mmio.Block
    const ps: int

    constructor (pcsaddr: Mmio.Block, ps: int)
      ensures this.pcsaddr == pcsaddr && this.ps == ps
    {
      this.pcsaddr := pcsaddr;
      this.ps := ps;
    }

    /** dwmac_pcs_config: AN_CTRL is read, ANE and RAN (and SGMRAL with a
        fixed port speed) are or-ed in, and it is written back. */
    method Config() returns (ret: int)
      requires PCS_AN_CTRL in pcsaddr.regs
      modifies pcsaddr
      ensures pcsaddr.regs == old(pcsaddr.regs)[PCS_AN_CTRL := ConfigWord(old(pcsaddr.regs[PCS_AN_CTRL]), ps)]
      ensures pcsaddr.writes == old(pcsaddr.writes) + [Mmio.Write(PCS_AN_CTRL, ConfigWord(old(pcsaddr.regs[PCS_AN_CTRL]), ps))]
      ensures ret == 0
    {
      var val := pcsaddr.Readl(PCS_AN_CTRL);
      val := val | PCS_AN_CTRL_ANE | PCS_AN_CTRL_RAN;
      if ps != 0 {
        val := val | PCS_AN_CTRL_SGMRAL;
      }
      pcsaddr.Writel(val, PCS_AN_CTRL);
      ret := 0;
    }

    /** dwmac_pcs_get_state: the LPA word is decoded into lp_advertising;
        no register is written. */
    method GetState(state: LinkState)
      requires PCS_ANE_LPA in pcsaddr.regs
      modifies state
      ensures state.lpAdvertising == LpAdvertising(old(state.lpAdvertising), pcsaddr.regs[PCS_ANE_LPA])
    {
      var val := pcsaddr.Readl(PCS_ANE_LPA);
      state.lpAdvertising := state.lpAdvertising + {LINK_MODE_Autoneg};
      if val & PCS_ANE_FD != 0 {
        state.lpAdvertising := state.lpAdvertising + {LINK_MODE_1000baseT_Full};
        state.lpAdvertising := state.lpAdvertising + {LINK_MODE_100baseT_Full};
        state.lpAdvertising := state.lpAdvertising + {LINK_MODE_10baseT_Full};
      }
      if val & PCS_ANE_HD != 0 {
        state.lpAdvertising := state.lpAdvertising + {LINK_MODE_1000baseT_Half};
        state.lpAdvertising := state.lpAdvertising + {LINK_MODE_100baseT_Half};
        state.lpAdvertising := state.lpAdvertising + {LINK_MODE_10baseT_Half};
      }
      state.lpAdvertising := ModBit(state.lpAdvertising, LINK_MODE_Pause, PauseField(val) & STMMAC_PCS_PAUSE != 0);
      state.lpAdvertising := ModBit(state.lpAdvertising, LINK_MODE_Asym_Pause, PauseField(val) & STMMAC_PCS_ASYM_PAUSE != 0);
    }
  }

  /** dwmac_pcs_isr: AN_STATUS is read (its bits only choose a log
      message); each counter goes up by one when its interrupt bit is set.
      Nothing is written: the block is not in the frame. */
  method Isr(pcsaddr: Mmio.Block, intrStatus: bv32, x: ExtraStats)
    requires PCS_AN_STATUS in pcsaddr.regs
    requires x.irqPcsAneN < U64_MODULUS && x.irqPcsLinkN < U64_MODULUS
    modifies x
    ensures x.irqPcsAneN == if intrStatus & PCS_ANE_IRQ != 0 then Inc64(old(x.irqPcsAneN)) else old(x.irqPcsAneN)
    ensures x.irqPcsLinkN == if intrStatus & PCS_LINK_IRQ != 0 then Inc64(old(x.irqPcsLinkN)) else old(x.irqPcsLinkN)
  {
    var val := pcsaddr.Readl(PCS_AN_STATUS);
    if intrStatus & PCS_ANE_IRQ != 0 {
      x.irqPcsAneN := Inc64(x.irqPcsAneN);
    }
    if intrStatus & PCS_LINK_IRQ != 0 {
      x.irqPcsLinkN := Inc64(x.irqPcsLinkN);
    }
  }
}
