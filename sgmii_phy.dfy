/** The Qualcomm DWMAC SGMII SerDes PHY (phy-qcom-sgmii-eth.c). The PHY
    remembers the speed the SerDes was last programmed for (cur_speed) and
    the speed the MAC asked for (new_speed); init and calibrate program the
    1 Gb/s or the 2.5 Gb/s table only when that changes the SerDes, then
    poll four ready/lock conditions against fixed read budgets.

    The QSERDES_* register offsets are defined in phy-qcom-sgmii-eth.h,
    which is not part of this model: the programming tables and the
    power-down registers are given as a layout, and what a status register
    read shows is given as an oracle. */
module QcomSgmiiPhy {
  import Mmio

  const SPEED_10: int := 10
  const SPEED_100: int := 100
  const SPEED_1000: int := 1000
  const SPEED_2500: int := 2500

  /** The register layout the source takes from its header: the stores of
      qcom_dwmac_sgmii_1g_phy_init and qcom_dwmac_sgmii_2p5g_phy_init, in
      order, and the three registers of the power-down sequence. */
  datatype SerdesLayout = SerdesLayout(
    init1g: seq<Mmio.Write>,
    init2p5g: seq<Mmio.Write>,
    txMidTermCtrl2: nat,
    swReset: nat,
    phyStart: nat)

  // ---------------------------------------------------------------------
  // poll_status

  /** The four conditions poll_status waits for, in order:
      0 QSERDES_COM_C_READY, 1 QSERDES_PCS_READY,
      2 QSERDES_PCS_SGMIIPHY_READY, 3 QSERDES_COM_C_PLL_LOCKED. */
  const CONDITIONS: nat := 4

  /** The number of reads poll_status allows each condition. */
  function Budget(c: nat): nat
    requires c < CONDITIONS
  {
    if c == 3 then 5000 else 500
  }

  /** What the SerDes shows: ready(c, k) holds when the k-th read (from 0)
      of condition c's status register has the condition's bit set. */
  type Status = (nat, nat) -> bool

  /** Condition c is seen within its budget. */
  predicate Observed(ready: Status, c: nat)
    requires c < CONDITIONS
  {
    exists k :: 0 <= k < Budget(c) && ready(c, k)
  }

  /** The number of reads the loop for condition c makes from read k on:
      up to and including the first that shows the bit, or the rest of the
      budget. */
  function ReadsFrom(ready: Status, c: nat, k: nat): (n: nat)
    requires c < CONDITIONS && k <= Budget(c)
    ensures k <= n <= Budget(c)
    decreases Budget(c) - k
  {
    if k == Budget(c) then k
    else if ready(c, k) then k + 1
    else ReadsFrom(ready, c, k + 1)
  }

  function Reads(ready: Status, c: nat): nat
    requires c < CONDITIONS
  {
    ReadsFrom(ready, c, 0)
  }

  /** The reads of a poll loop stop at the first read showing the bit: no
      earlier read showed it, and it is seen within the budget exactly when
      the last read made showed it. */
  lemma {:induction false} ReadsFromFirst(ready: Status, c: nat, k: nat)
    requires c < CONDITIONS && k <= Budget(c)
    ensures forall j :: k <= j < ReadsFrom(ready, c, k) - 1 ==> !ready(c, j)
    ensures (exists j :: k <= j < Budget(c) && ready(c, j)) <==>
      (ReadsFrom(ready, c, k) > k && ready(c, ReadsFrom(ready, c, k) - 1))
    decreases Budget(c) - k
  {
    if k < Budget(c) && !ready(c, k) {
      ReadsFromFirst(ready, c, k + 1);
    }
  }

  lemma ReadsFirst(ready: Status, c: nat)
    requires c < CONDITIONS
    ensures 1 <= Reads(ready, c) <= Budget(c)
    ensures forall j :: 0 <= j < Reads(ready, c) - 1 ==> !ready(c, j)
    ensures Observed(ready, c) <==> ready(c, Reads(ready, c) - 1)
  {
    ReadsFromFirst(ready, c, 0);
  }

  /** The conditions poll_status reaches: all four, or up to and including
      the first that is never seen. */
  function Polled(ready: Status, c: nat): (n: nat)
    requires c <= CONDITIONS
    ensures c <= n <= CONDITIONS
    decreases CONDITIONS - c
  {
    if c == CONDITIONS then c
    else if !Observed(ready, c) then c + 1
    else Polled(ready, c + 1)
  }

  /** What poll_status returns. */
  function PollResult(ready: Status): int {
    if forall c :: 0 <= c < CONDITIONS ==> Observed(ready, c) then 0 else -1
  }

  /** poll_status fails exactly when some condition is never seen, and it
      stops after that condition: every condition before the last one it
      polled was seen. */
  lemma {:induction false} PolledStops(ready: Status, c: nat)
    requires c <= CONDITIONS
    ensures forall d :: c <= d < Polled(ready, c) - 1 ==> Observed(ready, d)
    ensures Polled(ready, c) < CONDITIONS ==> !Observed(ready, Polled(ready, c) - 1)
    ensures (forall d :: c <= d < CONDITIONS ==> Observed(ready, d)) <==>
      (Polled(ready, c) == CONDITIONS && (c == CONDITIONS || Observed(ready, CONDITIONS - 1)))
    decreases CONDITIONS - c
  {
    if c < CONDITIONS && Observed(ready, c) {
      PolledStops(ready, c + 1);
    }
  }

  // ---------------------------------------------------------------------
  // init, calibrate and set_speed

  /** The SerDes speed a requested MAC speed needs: the 1 Gb/s table serves
      1000, 100 and 10 Mb/s, the 2.5 Gb/s table 2500 Mb/s, and any other
      speed leaves the SerDes unprogrammed (0). */
  function SerdesSpeed(newSpeed: int): (s: int)
    ensures s == SPEED_1000 <==> newSpeed == SPEED_1000 || newSpeed == SPEED_100 || newSpeed == SPEED_10
    ensures s == SPEED_2500 <==> newSpeed == SPEED_2500
    ensures s == 0 || s == SPEED_1000 || s == SPEED_2500
  {
    if newSpeed == SPEED_1000 || newSpeed == SPEED_100 || newSpeed == SPEED_10 then SPEED_1000
    else if newSpeed == SPEED_2500 then SPEED_2500
    else 0
  }

  /** init programs the SerDes exactly when the requested speed needs a
      table and the SerDes is not already at that speed. */
  predicate Reprograms(curSpeed: int, newSpeed: int) {
    SerdesSpeed(newSpeed) != 0 && curSpeed != SerdesSpeed(newSpeed)
  }

  /** The table init writes for a requested speed. */
  function InitTable(layout: SerdesLayout, newSpeed: int): seq<Mmio.Write> {
    if SerdesSpeed(newSpeed) == SPEED_1000 then layout.init1g
    else if SerdesSpeed(newSpeed) == SPEED_2500 then layout.init2p5g
    else []
  }

  /** Idempotence: once init has run, running it again with the same
      requested speed programs nothing and keeps cur_speed. */
  lemma InitIdempotent(curSpeed: int, newSpeed: int)
    ensures !Reprograms(SerdesSpeed(newSpeed), newSpeed)
    ensures Reprograms(curSpeed, newSpeed) ==> curSpeed != SerdesSpeed(newSpeed)
    ensures !Reprograms(curSpeed, newSpeed) && SerdesSpeed(newSpeed) != 0 ==> curSpeed == SerdesSpeed(newSpeed)
  {
  }

  /** The power-down sequence of qcom_dwmac_sgmii_phy_exit. */
  function PowerDown(layout: SerdesLayout): seq<Mmio.Write> {
    [Mmio.Write(layout.txMidTermCtrl2, 0x08), Mmio.Write(layout.swReset, 0x01),
     Mmio.Write(layout.swReset, 0x00), Mmio.Write(layout.phyStart, 0x01)]
  }

  /** struct qcom_dwmac_sgmii_phy: the SerDes register block and the two
      speeds. */
  class SgmiiPhy {
    const serdes: Mmio.Block
    const layout: SerdesLayout
    var curSpeed: int
    var newSpeed: int

    /** The state qcom_dwmac_sgmii_phy_probe leaves: both speeds 0. */
    constructor (serdes: Mmio.Block, layout: SerdesLayout)
      ensures this.serdes == serdes && this.layout == layout
      ensures curSpeed == 0 && newSpeed == 0
    {
      this.serdes := serdes;
      this.layout := layout;
      curSpeed := 0;
      newSpeed := 0;
    }

    /** One retry-countdown loop of poll_status: read the status register
        until the bit shows or the budget is spent. */
    method PollOne(ready: Status, c: nat) returns (seen: bool, count: nat)
      requires c < CONDITIONS
      ensures seen <==> Observed(ready, c)
      ensures count == Reads(ready, c)
    {
      var retry: int := Budget(c);
      count := 0;
      while true
        invariant 0 <= count < Budget(c) && retry == Budget(c) - count
        invariant ReadsFrom(ready, c, count) == Reads(ready, c)
        invariant forall j :: 0 <= j < count ==> !ready(c, j)
        decreases retry
      {
        count := count + 1;
        if ready(c, count - 1) {
          break;
        }
        retry := retry - 1;
        if retry <= 0 {
          break;
        }
      }
      seen := retry != 0;
      ReadsFirst(ready, c);
    }

    /** poll_status: the four loops in order, stopping with -1 at the first
        condition not seen; counts[c] is how many status reads condition c
        took, and only the conditions polled have an entry. */
    method PollStatus(ready: Status) returns (ret: int, counts: seq<nat>)
      ensures ret == PollResult(ready)
      ensures |counts| == Polled(ready, 0)
      ensures forall c :: 0 <= c < |counts| ==> counts[c] == Reads(ready, c)
    {
      counts := [];
      ret := 0;
      var c := 0;
      while c < CONDITIONS
        invariant c <= CONDITIONS && |counts| == c
        invariant forall d :: 0 <= d < c ==> Observed(ready, d) && counts[d] == Reads(ready, d)
        invariant Polled(ready, c) == Polled(ready, 0)
        decreases CONDITIONS - c
      {
        var seen, n := PollOne(ready, c);
        counts := counts + [n];
        if !seen {
          ret := -1;
          return;
        }
        c := c + 1;
      }
    }

    /** The stores of one programming table, in order. */
    method WriteTable(table: seq<Mmio.Write>)
      modifies serdes
      ensures serdes.regs == Mmio.Stores(old(serdes.regs), table)
      ensures serdes.writes == old(serdes.writes) + table
    {
      for i := 0 to |table|
        invariant serdes.regs == Mmio.Stores(old(serdes.regs), table[..i])
        invariant serdes.writes == old(serdes.writes) + table[..i]
      {
        Mmio.StoresSnoc(old(serdes.regs), table[..i], table[i]);
        assert table[..i + 1] == table[..i] + [table[i]];
        serdes.Writel(table[i].value, table[i].offset);
      }
      assert table[..|table|] == table;
    }

    /** qcom_dwmac_sgmii_phy_init: when the requested speed needs a table
        the SerDes is not at, write it and poll; cur_speed becomes the
        SerDes speed the request needs (0 for an unsupported speed) whatever
        the poll returned. */
    method Init(ready: Status) returns (ret: int)
      modifies this`curSpeed, serdes
      ensures curSpeed == SerdesSpeed(newSpeed)
      ensures Reprograms(old(curSpeed), newSpeed) ==>
        && serdes.writes == old(serdes.writes) + InitTable(layout, newSpeed)
        && serdes.regs == Mmio.Stores(old(serdes.regs), InitTable(layout, newSpeed))
        && ret == PollResult(ready)
      ensures !Reprograms(old(curSpeed), newSpeed) ==>
        serdes.writes == old(serdes.writes) && serdes.regs == old(serdes.regs) && ret == 0
    {
      ret := 0;
      if newSpeed == SPEED_1000 || newSpeed == SPEED_100 || newSpeed == SPEED_10 {
        if curSpeed != SPEED_1000 {
          WriteTable(layout.init1g);
          var counts;
          ret, counts := PollStatus(ready);
          curSpeed := SPEED_1000;
        }
      } else if newSpeed == SPEED_2500 {
        if curSpeed != SPEED_2500 {
          WriteTable(layout.init2p5g);
          var counts;
          ret, counts := PollStatus(ready);
          curSpeed := SPEED_2500;
        }
      } else {
        curSpeed := 0;
      }
    }

    /** qcom_dwmac_sgmii_phy_calibrate runs init. */
    method Calibrate(ready: Status) returns (ret: int)
      modifies this`curSpeed, serdes
      ensures curSpeed == SerdesSpeed(newSpeed)
      ensures Reprograms(old(curSpeed), newSpeed) ==>
        && serdes.writes == old(serdes.writes) + InitTable(layout, newSpeed)
        && serdes.regs == Mmio.Stores(old(serdes.regs), InitTable(layout, newSpeed))
        && ret == PollResult(ready)
      ensures !Reprograms(old(curSpeed), newSpeed) ==>
        serdes.writes == old(serdes.writes) && serdes.regs == old(serdes.regs) && ret == 0
    {
      ret := Init(ready);
    }

    /** qcom_dwmac_set_speed: only new_speed changes. */
    method SetSpeed(speed: int) returns (ret: int)
      modifies this`newSpeed
      ensures newSpeed == speed && ret == 0
    {
      newSpeed := speed;
      ret := 0;
    }

    /** qcom_dwmac_sgmii_phy_exit: the power-down stores; both speeds are
        kept (the 100 us delay is not modelled). */
    method Exit() returns (ret: int)
      modifies serdes
      ensures serdes.writes == old(serdes.writes) + PowerDown(layout)
      ensures serdes.regs == old(serdes.regs)[layout.txMidTermCtrl2 := 0x08][layout.swReset := 0x01]
        [layout.swReset := 0x00][layout.phyStart := 0x01]
      ensures ret == 0
    {
      serdes.Writel(0x08, layout.txMidTermCtrl2);
      serdes.Writel(0x01, layout.swReset);
      serdes.Writel(0x00, layout.swReset);
      serdes.Writel(0x01, layout.phyStart);
      ret := 0;
    }

    /** Two runs of init with no set_speed between them program the SerDes
        at most once, and the second returns 0. */
    method InitTwice(ready: Status) returns (first: int, second: int)
      modifies this`curSpeed, serdes
      ensures second == 0
      ensures serdes.writes == old(serdes.writes) +
        (if Reprograms(old(curSpeed), newSpeed) then InitTable(layout, newSpeed) else [])
    {
      first := Init(ready);
      InitIdempotent(curSpeed, newSpeed);
      second := Init(ready);
    }
  }
}
