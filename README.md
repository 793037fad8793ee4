# Qualcomm automotive kernel drivers: the verifiable cores

This project models, in Dafny, the parts of a set of Qualcomm Linux kernel
drivers whose behaviour can be stated independently of the hardware. It
proves what those parts promise. Hardware registers are a map from byte
offset to a 32-bit word plus a trace of the stores made (`Mmio.Block`). A
driver structure whose fields are assigned is a class. A kernel list is a
sequence held by a class (`IommuIovaMap.RegionList`).

- `iova_regions.dfy` (module `IovaRegions`): the address-pool algebra of
  `iommu_iova_map.c`. It covers:
  - regions as closed 64-bit intervals, and the `check_overlap` test;
  - the sorted, disjoint insertion of `insert_range`;
  - decoding of device-tree cells into (start, size) entries;
  - the complement computed by `invert_regions`, with the trailing-gap
    check corrected as the Findings row explains;
  - u64 wrap-around written out (`Add64`, `Sub64`).
- `iommu_iova_map.dfy` (module `IommuIovaMap`): the list-building code of
  `iommu_iova_map.c`, as methods on `RegionList`. It covers:
  - `insert_range`, the entry walk of `of_property_walk_each_entry`, and
    `qcom_iommu_generate_dma_regions`;
  - `invert_regions` and `qcom_iommu_generate_resv_regions`;
  - proofs that the methods meet the functions of `IovaRegions`, and that
    the reserved regions are the exact complement of the pool. That
    complement holds for the corrected trailing-gap check of the Findings
    row; as written, the source can leave the address U64_MAX out of both.
- `ethqos.dfy` (module `DwmacQcomEthqos`): the Qualcomm EMAC glue
  (`dwmac-qcom-ethqos.c`). It covers:
  - `rgmii_updatel`, the POR reset tables, `ethqos_set_func_clk_en`, the DLL
    reset, `ethqos_dll_configure`, `ethqos_rgmii_macro_init` and
    `ethqos_configure`;
  - `ethqos_update_rgmii_clk`, `ethqos_configureSGMII` and
    `ethqos_fix_mac_speed`.

  Each phase is summed up by a function on the register map. Lemmas state
  what each register holds afterwards, field by field.
- `pps.dfy` (module `QcomEthqosPps`): the PPS bit-field helpers and register
  offsets of `dwmac-qcom-ethqos.h`.
- `sgmii_phy.dfy` (module `QcomSgmiiPhy`): the SGMII SerDes PHY
  (`phy-qcom-sgmii-eth.c`). It covers the `cur_speed`/`new_speed` state
  machine of init, calibrate, set_speed and exit, and the four bounded
  status polls of `poll_status`.
- `pcs.dfy` (module `StmmacPcs`): the DesignWare PCS (`stmmac_pcs.c` and
  `stmmac_pcs.h`). It covers starting auto-negotiation, decoding the link
  partner's base page (IEEE 802.3 Clause 37, section 37.2.1), and the
  interrupt counters.
- `kaslr.dfy` (module `KaslrOffsetStore`): the KASLR offset record, with the
  magic word and the offset split into halves, and its read-back.
- `bits.dfy`, `mmio.dfy` and `errno.dfy` are shared helpers. They provide
  `BIT`/`GENMASK`/read-modify-write on `bv32`, the register block, and the
  error numbers.

## Model

| member | source | states |
|---|---|---|
| IovaRegions.CheckOverlap | drivers/misc/iommu_iova_map.c:78-82 | check_overlap: the region's last address is start + length - 1 in u64, and it overlaps [start, end] when end is not below the region's start and start is not above its last address; CheckOverlapIffIntersect states what this means |
| IovaRegions.CheckOverlapIffIntersect | drivers/misc/iommu_iova_map.c:78-82 | for proper regions, check_overlap against [start, start+size-1] holds exactly when the two regions share an address |
| IovaRegions.ProperEnd | drivers/misc/iommu_iova_map.c:80 | the wrapped region_end of a region that fits in 64 bits is its true last address |
| IovaRegions.InsertPos | drivers/misc/iommu_iova_map.c:91-97 | the insertion point comes after every region whose start is not above the new start and before the first region whose start is larger |
| IovaRegions.InsertPosUnique | drivers/misc/iommu_iova_map.c:95-96 | any position with that before/after property is the insertion point |
| IovaRegions.EntryLength | drivers/misc/iommu_iova_map.c:88-89 | the length `end - start + 1` computed from `end = start + size - 1` in u64 arithmetic is the entry's size, including for wrapped values |
| IovaRegions.NewRegion | drivers/misc/iommu_iova_map.c:99-100 | the allocated region is the entry itself: start `start`, length equal to the entry's size |
| IovaRegions.ScanClashIffIntersect | drivers/misc/iommu_iova_map.c:91-97 | for a proper (non-empty, non-wrapping) entry and a sorted disjoint list, the scan that stops at the first larger start finds an overlap exactly when some region of the list intersects the entry |
| IovaRegions.InsertedSortedDisjoint | drivers/misc/iommu_iova_map.c:99-103 | inserting a non-overlapping proper (non-empty, non-wrapping) region at the insertion point keeps the list sorted and pairwise disjoint |
| IovaRegions.InsertedCovers | drivers/misc/iommu_iova_map.c:103 | after insertion an address is covered exactly when it was covered before or lies in the new region |
| IovaRegions.InsertStep | drivers/misc/iommu_iova_map.c:84-105 | one insert_range, for any entry (zero-size and wrapping ones included): -EINVAL with the list kept when the scan meets an overlap, -ENOMEM with the list kept when no allocation succeeds, otherwise 0 with the entry linked at the insertion point and one allocation used; InsertStepCorrect states its meaning and IommuIovaMap.InsertRange is proved equal to it |
| IovaRegions.InsertStepCorrect | drivers/misc/iommu_iova_map.c:84-105 | for a proper (non-empty, non-wrapping) entry, insert_range returns -EINVAL exactly on overlap and -ENOMEM exactly when allocation fails without an overlap (both leave the list unchanged); on success the list grows by one and covers the old addresses plus the entry's; the list stays sorted and disjoint either way |
| IovaRegions.ReadNumberTwoCells | drivers/misc/iommu_iova_map.c:88 | of_read_number on two cells is big-endian: high cell times 2^32 plus low cell |
| IovaRegions.InsertAll | drivers/misc/iommu_iova_map.c:67-73 | the entry loop with insert_range as callback: the entries are inserted in order and the first non-zero return ends the walk with that code; InsertAllStopsAtFirstFailure, InsertAllSuccess and InsertAllSucceedsIffDisjoint state its meaning |
| IovaRegions.InsertAllStopsAtFirstFailure | drivers/misc/iommu_iova_map.c:67-73 | when the walk fails, some entry k failed: the entries before k were inserted and the failing step's return code and list are the result |
| IovaRegions.InsertAllSuccess | drivers/misc/iommu_iova_map.c:67-75 | for proper (non-empty, non-wrapping) entries, a successful walk leaves a sorted disjoint list with one region per entry, one allocation used per entry, covering exactly the old addresses plus every entry's |
| IovaRegions.CoveredCons | drivers/misc/iommu_iova_map.c:67-73 | an address is covered by the entries exactly when it is in the first or covered by the rest |
| IovaRegions.ClashIffShared | drivers/misc/iommu_iova_map.c:92-93 | a region of the list intersects the entry exactly when the entry holds an address the list covers |
| IovaRegions.InsertAllSucceedsIffDisjoint | drivers/misc/iommu_iova_map.c:67-105 | for proper (non-empty, non-wrapping) entries and allocations enough, inserting all entries succeeds exactly when no entry overlaps the list and no two entries overlap each other |
| IovaRegions.ClearPoolCons | drivers/misc/iommu_iova_map.c:67-73 | after the first entry is inserted, the entries clear of the old list and pairwise disjoint are exactly the remaining entries clear of the new list and pairwise disjoint |
| IovaRegions.ClearPoolIntro | drivers/misc/iommu_iova_map.c:67-73 | one direction of that step: the remaining entries clear of the new list give all entries clear of the old one |
| IovaRegions.ClearPoolElim | drivers/misc/iommu_iova_map.c:67-73 | the other direction: all entries clear of the old list give the remaining entries clear of the new one |
| IovaRegions.SortedDisjointInit | drivers/misc/iommu_iova_map.c:146-164 | dropping the last region of a sorted disjoint list keeps it sorted and disjoint |
| IovaRegions.GapBetweenExact | drivers/misc/iommu_iova_map.c:150-161 | between consecutive regions the gap emitted is [prev end, curr start) when non-empty and nothing otherwise |
| IovaRegions.GapBetweenCovers | drivers/misc/iommu_iova_map.c:150-161 | the emitted gap holds exactly the addresses from the end of prev up to the start of curr |
| IovaRegions.InnerGapsSorted | drivers/misc/iommu_iova_map.c:146-164 | the inner gaps are sorted and disjoint and lie between the end of the first region and the start of the last |
| IovaRegions.InnerGapsCover | drivers/misc/iommu_iova_map.c:146-164 | an address is in an inner gap exactly when it lies within the pool's span and is in no pool region |
| IovaRegions.TrailingGapExact | drivers/misc/iommu_iova_map.c:180-192 | with the corrected guard, the trailing region is [last end, 2^64) whenever the last region ends below 2^64, and nothing otherwise |
| IovaRegions.LeadingGapCovers | drivers/misc/iommu_iova_map.c:166-178 | the leading region holds exactly the addresses below the first region's start |
| IovaRegions.TrailingGapCovers | drivers/misc/iommu_iova_map.c:180-192 | with the corrected guard, the trailing region holds exactly the 64-bit addresses from the end of the last region on |
| IovaRegions.Inverted | drivers/misc/iommu_iova_map.c:146-192 | the list invert_regions builds with the corrected trailing-gap check: the leading gap (added with list_add, so first), then the inner gaps in pool order, then the trailing gap; InvertedSortedDisjoint and InvertedIsComplement state its meaning |
| IovaRegions.InvertedSortedDisjoint | drivers/misc/iommu_iova_map.c:146-192 | the inverted list (leading gap, inner gaps, trailing gap) is sorted and pairwise disjoint |
| IovaRegions.FrontSortedDisjoint | drivers/misc/iommu_iova_map.c:146-178 | the leading gap followed by the inner gaps is sorted and disjoint and ends before the end of the last pool region |
| IovaRegions.TrailingGapSorted | drivers/misc/iommu_iova_map.c:180-192 | the trailing region is proper and starts at or after the end of the last pool region |
| IovaRegions.InvertedIsComplement | drivers/misc/iommu_iova_map.c:126-200 | for a sorted disjoint pool (its regions non-empty and non-wrapping), a 64-bit address is reserved by the inversion exactly when no pool region covers it |
| IovaRegions.TrailingGapAsWritten | drivers/misc/iommu_iova_map.c:180-192 | the trailing gap with the guard `U64_MAX - prev->start > prev->length` as written; AsWrittenLeavesLastAddressUnreserved shows the address it misses |
| IovaRegions.InvertedAsWritten | drivers/misc/iommu_iova_map.c:146-192 | the list invert_regions builds with the trailing-gap guard as written; AsWrittenLeavesLastAddressUnreserved shows it is not the complement of the pool |
| IovaRegions.ZeroSizeEntryRejectsDisjointEntry | drivers/misc/iommu_iova_map.c:78-100 | a zero-size entry at 10 followed by the entry (9, size 2) makes the walk return -EINVAL although the two entries share no address, which is why the walk's properties are stated for proper entries |
| IovaRegions.AsWrittenLeavesLastAddressUnreserved | drivers/misc/iommu_iova_map.c:184 | with the guard as written, the pool [0, U64_MAX-1] leaves address U64_MAX neither in the pool nor reserved, while the corrected guard reserves it |
| IovaRegions.InnerGapsPrefix | drivers/misc/iommu_iova_map.c:146-164 | a prefix of the pool has no more inner gaps than the whole pool |
| IommuIovaMap.RegionList.constructor | drivers/misc/iommu_iova_map.c:207-208 | LIST_HEAD: a new list is empty |
| IommuIovaMap.Allocator.Alloc | drivers/misc/iommu_iova_map.c:99-102 | an allocation succeeds exactly while allocations remain and uses one up |
| IommuIovaMap.GroupNode | drivers/misc/iommu_iova_map.c:31-40 | no node without an of_node; otherwise the "qcom,iommu-group" phandle target, or the device's own node when there is no phandle |
| IommuIovaMap.Walk | drivers/misc/iommu_iova_map.c:42-76 | of_property_walk_each_entry with insert_range: -EINVAL when the device has no node, -ENODEV when the node lacks the property, -EINVAL for zero cell counts or a length that is not a whole number of entries, and otherwise InsertAll over the decoded entries; WalkReturns states its outcomes and WalkEachEntry is proved equal to it |
| IommuIovaMap.WalkReturns | drivers/misc/iommu_iova_map.c:42-76 | the walk returns 0, -EINVAL, -ENODEV or -ENOMEM; -ENODEV exactly when the node lacks the property; a device without a node gets -EINVAL and nothing changes |
| IommuIovaMap.DmaRegionsSortedAndExact | drivers/misc/iommu_iova_map.c:107-124 | for proper (non-empty, non-wrapping) pool entries, a successful qcom_iommu_generate_dma_regions yields a sorted disjoint list with one region per pool entry, covering exactly the pool's addresses |
| IommuIovaMap.DmaRegionsFailIffOverlap | drivers/misc/iommu_iova_map.c:84-124 | for proper (non-empty, non-wrapping) pool entries, allocations enough and a well-formed property, generating the pool fails exactly when two pool entries overlap |
| IommuIovaMap.ResvRegionsAreComplement | drivers/misc/iommu_iova_map.c:203-226 | for proper (non-empty, non-wrapping) pool entries and with the corrected trailing-gap check of the Findings row, the reserved regions spliced onto head are sorted and disjoint, and reserve a 64-bit address exactly when the pool does not cover it |
| IommuIovaMap.ResvRegionsAdded | drivers/misc/iommu_iova_map.c:203-226 | with the corrected trailing-gap check, a non-empty, well-formed, pairwise disjoint pool of proper (non-empty, non-wrapping) entries with enough allocations always produces reserved regions |
| IommuIovaMap.InvertedLength | drivers/misc/iommu_iova_map.c:146-192 | inversion emits at most one region more than the pool has |
| IommuIovaMap.InnerGapsLength | drivers/misc/iommu_iova_map.c:146-164 | there is at most one inner gap per pair of consecutive regions |
| IommuIovaMap.InsertRange | drivers/misc/iommu_iova_map.c:84-105 | the method reading one entry's cells, scanning, allocating and linking ends with the return code, list and allocator of InsertStep on the decoded entry |
| IommuIovaMap.MultipleStep | drivers/misc/iommu_iova_map.c:60-72 | a positive multiple of the entry width leaves a multiple after one entry is consumed, so the pointer reaches property_end exactly |
| IommuIovaMap.WalkStep | drivers/misc/iommu_iova_map.c:67-73 | walking the cells is one insert_range on the first entry, then the rest of the walk if it returned 0 |
| IommuIovaMap.WalkEntries | drivers/misc/iommu_iova_map.c:65-75 | the while loop over the cells ends in the result of inserting every decoded entry in order, stopping at the first failure |
| IommuIovaMap.WalkEachEntry | drivers/misc/iommu_iova_map.c:42-76 | of_property_walk_each_entry with insert_range as callback: -EINVAL without a node, -ENODEV without the property, -EINVAL on a bad cell count, otherwise the entry walk |
| IommuIovaMap.GenerateDmaRegions | drivers/misc/iommu_iova_map.c:114-124 | the walk over "qcom,iommu-dma-addr-pool" |
| IommuIovaMap.InvertInnerGaps | drivers/misc/iommu_iova_map.c:145-164 | the loop appends exactly the inner gaps, one allocation each, and ends with prev at the last region; on allocation failure the allocator is exhausted |
| IommuIovaMap.InvertRegions | drivers/misc/iommu_iova_map.c:126-200 | -EINVAL on an empty list with nothing changed; otherwise the leading gap goes to the front and the inner gaps and (corrected) trailing gap to the tail of inverted; on -ENOMEM the inverted entries are freed |
| IommuIovaMap.PutResvRegions | drivers/misc/iommu_iova_map.c:216 | freeing a region list leaves it empty |
| IommuIovaMap.ResvRegions | drivers/misc/iommu_iova_map.c:203-226 | what qcom_iommu_generate_resv_regions adds to head: nothing when generation fails, the pool is empty or inversion runs out of allocations, and otherwise the corrected inverted list; ResvRegionsAreComplement and ResvRegionsAdded state its meaning |
| IommuIovaMap.ResvRemaining | drivers/misc/iommu_iova_map.c:203-226 | the allocations left afterwards: the walk's remainder when nothing is inverted, none when inversion runs out, and otherwise one fewer per reserved region; GenerateResvRegions ends with it |
| IommuIovaMap.GenerateResvRegions | drivers/misc/iommu_iova_map.c:203-226 | with the corrected trailing-gap check of the Findings row: head is unchanged when generation or inversion fails, and otherwise exactly the reserved regions are spliced in front of it; the allocator ends with the allocations the walk left, less one per reserved region, or none once inversion ran out |
| DwmacQcomEthqos.ApplyPor | drivers/net/ethernet/stmicro/stmmac/dwmac-qcom-ethqos.c:764-767 | last write wins: after the reset loop an offset holds the value of the table's last entry for it, an offset no entry names keeps its old value, and no register is removed |
| DwmacQcomEthqos.PorWrites | drivers/net/ethernet/stmicro/stmmac/dwmac-qcom-ethqos.c:764-767 | the reset loop stores one word per table entry, entry i's value at entry i's offset, in table order |
| DwmacQcomEthqos.ApplyPorSnoc | drivers/net/ethernet/stmicro/stmmac/dwmac-qcom-ethqos.c:764-767 | one more table entry is one more store on top of the earlier ones |
| DwmacQcomEthqos.DistinctLastWins | drivers/net/ethernet/stmicro/stmmac/dwmac-qcom-ethqos.c:764-767 | with distinct offsets every entry's register ends with that entry's value |
| DwmacQcomEthqos.PorTablesDistinct | drivers/net/ethernet/stmicro/stmmac/dwmac-qcom-ethqos.c:458-497 | the three POR tables each program six distinct RGMII registers |
| DwmacQcomEthqos.PhaseShift | drivers/net/ethernet/stmicro/stmmac/dwmac-qcom-ethqos.c:609-614 | TX_CLK_PHASE_SHIFT_EN is 0 exactly for RGMII_ID and RGMII_TXID, and bit 5 otherwise |
| DwmacQcomEthqos.DllResetDll | drivers/net/ethernet/stmicro/stmmac/dwmac-qcom-ethqos.c:771-811 | DLL_CONFIG after the DLL reset sequence is the DllResetWord of the old word |
| DwmacQcomEthqos.DllResetFrame | drivers/net/ethernet/stmicro/stmmac/dwmac-qcom-ethqos.c:771-811 | the DLL reset sequence changes no register outside DLL_CONFIG, TEST_CTL, USR_CTL and DLL_CONFIG2 |
| DwmacQcomEthqos.DllResetEffect | drivers/net/ethernet/stmicro/stmmac/dwmac-qcom-ethqos.c:771-811 | both of the above together |
| DwmacQcomEthqos.DllResetSdccWords | drivers/net/ethernet/stmicro/stmmac/dwmac-qcom-ethqos.c:779-811 | on EMAC3, TEST_CTL (1000 Mb/s only), USR_CTL and DLL_CONFIG2 get the fixed EMAC3 words; otherwise, at speeds other than 100 and 10, USR_CTL bits 26:24 become 0b100; every other case keeps those registers |
| DwmacQcomEthqos.DllResetWordEnabled | drivers/net/ethernet/stmicro/stmmac/dwmac-qcom-ethqos.c:771-807 | at speeds other than 100 and 10 the sequence amounts to one masked write: DLL_RST and PDN cleared, DLL_EN and CK_OUT_EN set |
| DwmacQcomEthqos.DllResetWordSlow | drivers/net/ethernet/stmicro/stmmac/dwmac-qcom-ethqos.c:771-796 | at 100 and 10 Mb/s it amounts to clearing DLL_RST and PDN |
| DwmacQcomEthqos.DllResetFields | drivers/net/ethernet/stmicro/stmmac/dwmac-qcom-ethqos.c:771-807 | the DLL leaves reset and power-down, the DLL and its clock output are enabled except at 100 and 10 Mb/s, and every other DLL_CONFIG bit is kept |
| DwmacQcomEthqos.DllConfigureDll | drivers/net/ethernet/stmicro/stmmac/dwmac-qcom-ethqos.c:527-565 | DLL_CONFIG after ethqos_dll_configure is the DllConfigureWord of the old word |
| DwmacQcomEthqos.DllConfigureDll2 | drivers/net/ethernet/stmicro/stmmac/dwmac-qcom-ethqos.c:580-597 | DLL_CONFIG2 after ethqos_dll_configure is the DllConfigure2Word of the old word |
| DwmacQcomEthqos.DllConfigureFrame | drivers/net/ethernet/stmicro/stmmac/dwmac-qcom-ethqos.c:522-600 | ethqos_dll_configure changes no register besides DLL_CONFIG and DLL_CONFIG2 |
| DwmacQcomEthqos.DllConfigureEffect | drivers/net/ethernet/stmicro/stmmac/dwmac-qcom-ethqos.c:522-600 | the three above together |
| DwmacQcomEthqos.DllConfigureWordEmac3 | drivers/net/ethernet/stmicro/stmmac/dwmac-qcom-ethqos.c:527-565 | on EMAC3, DLL_CONFIG amounts to setting CDR_EN, CDR_EXT_EN, DLL_EN and CK_OUT_EN |
| DwmacQcomEthqos.DllConfigureWordOther | drivers/net/ethernet/stmicro/stmmac/dwmac-qcom-ethqos.c:527-565 | elsewhere it also clears MCLK_GATING_EN and CDR_FINE_PHASE |
| DwmacQcomEthqos.DllConfigureFields | drivers/net/ethernet/stmicro/stmmac/dwmac-qcom-ethqos.c:527-565 | CDR, external CDR, DLL and clock output end enabled; gating and fine phase end cleared except on EMAC3; DLL_RST and PDN are kept |
| DwmacQcomEthqos.DllConfigure2WordOther | drivers/net/ethernet/stmicro/stmmac/dwmac-qcom-ethqos.c:580-597 | on non-EMAC3 parts DLL_CONFIG2 amounts to one masked write of the five fields |
| DwmacQcomEthqos.DllConfigure2Fields | drivers/net/ethernet/stmicro/stmmac/dwmac-qcom-ethqos.c:580-597 | DDR_CAL_EN ends set; on non-EMAC3 parts DLL_CLOCK_DIS is cleared, MCLK_FREQ_CALC reads 26, DDR_TRAFFIC_INIT_SEL reads 1 and DDR_TRAFFIC_INIT_SW is set |
| DwmacQcomEthqos.MacroGigabitConfig | drivers/net/ethernet/stmicro/stmmac/dwmac-qcom-ethqos.c:617-669 | CONFIG after the 1000 Mb/s macro programming is MacroConfigWord at 1000 |
| DwmacQcomEthqos.MacroGigabitConfig2 | drivers/net/ethernet/stmicro/stmmac/dwmac-qcom-ethqos.c:617-669 | CONFIG2 after it is MacroConfig2Word at 1000 |
| DwmacQcomEthqos.MacroGigabitDdr | drivers/net/ethernet/stmicro/stmmac/dwmac-qcom-ethqos.c:631-669 | DDR_CONFIG after it is MacroDdrWord at 1000 |
| DwmacQcomEthqos.MacroGigabitFrame | drivers/net/ethernet/stmicro/stmmac/dwmac-qcom-ethqos.c:617-669 | no other register changes |
| DwmacQcomEthqos.MacroSlowConfig | drivers/net/ethernet/stmicro/stmmac/dwmac-qcom-ethqos.c:671-748 | CONFIG after the 100/10 Mb/s programming is MacroConfigWord at that speed |
| DwmacQcomEthqos.MacroSlowConfig2 | drivers/net/ethernet/stmicro/stmmac/dwmac-qcom-ethqos.c:671-748 | CONFIG2 after it is MacroConfig2Word at that speed |
| DwmacQcomEthqos.MacroSlowDdr | drivers/net/ethernet/stmicro/stmmac/dwmac-qcom-ethqos.c:671-748 | DDR_CONFIG after it is MacroDdrWord at that speed |
| DwmacQcomEthqos.MacroSlowFrame | drivers/net/ethernet/stmicro/stmmac/dwmac-qcom-ethqos.c:671-748 | no other register changes |
| DwmacQcomEthqos.MacroInitEffect | drivers/net/ethernet/stmicro/stmmac/dwmac-qcom-ethqos.c:602-756 | ethqos_rgmii_macro_init changes only CONFIG, CONFIG2 and DDR_CONFIG, each to its word function's value, at every speed |
| DwmacQcomEthqos.MacroConfigGigabit | drivers/net/ethernet/stmicro/stmmac/dwmac-qcom-ethqos.c:631-669 | at 1000 Mb/s CONFIG amounts to one masked write: DDR mode, POS_NEG_DATA_SEL and PROG_SWAP on, TX delay bypass and interface select off, loopback as the platform asks |
| DwmacQcomEthqos.MacroConfigFast | drivers/net/ethernet/stmicro/stmmac/dwmac-qcom-ethqos.c:671-709 | at 100 Mb/s: DDR mode and bypass on, POS_NEG and PROG_SWAP off, MAX_SPD_PRG_2 = BIT(6), loopback as asked |
| DwmacQcomEthqos.MacroConfigTen | drivers/net/ethernet/stmicro/stmmac/dwmac-qcom-ethqos.c:711-748 | at 10 Mb/s the same, with MAX_SPD_PRG_9 = BIT(12) \| GENMASK(9, 8) |
| DwmacQcomEthqos.MacroConfigFields | drivers/net/ethernet/stmicro/stmmac/dwmac-qcom-ethqos.c:617-753 | the three cases above, and at any other speed only INTF_SEL is cleared |
| DwmacQcomEthqos.MacroConfigReadBack | drivers/net/ethernet/stmicro/stmmac/dwmac-qcom-ethqos.c:621-746 | at every valid speed DDR_MODE ends set, INTF_SEL cleared, LOOPBACK_EN on exactly when rgmii_config_loopback_en, FUNC_CLK_EN as before |
| DwmacQcomEthqos.MacroConfig2Chain | drivers/net/ethernet/stmicro/stmmac/dwmac-qcom-ethqos.c:617-690 | the five CONFIG2 read-modify-writes amount to one masked write |
| DwmacQcomEthqos.MacroConfig2Gigabit | drivers/net/ethernet/stmicro/stmmac/dwmac-qcom-ethqos.c:617-651 | CONFIG2 at 1000 Mb/s as one masked write, RX_PROG_SWAP on |
| DwmacQcomEthqos.MacroConfig2Fast | drivers/net/ethernet/stmicro/stmmac/dwmac-qcom-ethqos.c:671-697 | CONFIG2 at 100 Mb/s, RX_PROG_SWAP on exactly on EMAC3 |
| DwmacQcomEthqos.MacroConfig2Ten | drivers/net/ethernet/stmicro/stmmac/dwmac-qcom-ethqos.c:711-736 | CONFIG2 at 10 Mb/s likewise |
| DwmacQcomEthqos.MacroConfig2Fields | drivers/net/ethernet/stmicro/stmmac/dwmac-qcom-ethqos.c:609-753 | TX-to-RX loopback ends disabled; at valid speeds DATA_DIVIDE_CLK_SEL and RSVD_CONFIG15 clear, the phase shift as PhaseShift says and RX_PROG_SWAP on exactly at 1000 Mb/s or on EMAC3 |
| DwmacQcomEthqos.MacroDdrGigabit | drivers/net/ethernet/stmicro/stmmac/dwmac-qcom-ethqos.c:652-666 | DDR_CONFIG at 1000 Mb/s: PRG_RCLK_DLY replaced by the delay code, PRG_DLY_EN set |
| DwmacQcomEthqos.MacroDdrSlow | drivers/net/ethernet/stmicro/stmmac/dwmac-qcom-ethqos.c:698-745 | DDR_CONFIG at 100/10 Mb/s: code 5 in EXT_PRG_RCLK_DLY_CODE, EXT_PRG_RCLK_DLY and its enable set |
| DwmacQcomEthqos.MacroDdrFields | drivers/net/ethernet/stmicro/stmmac/dwmac-qcom-ethqos.c:655-739 | PRG_RCLK_DLY reads 115 with has_emac3 and 57 otherwise, with the delay enabled; at 100 and 10 EXT_PRG_RCLK_DLY_CODE reads 5 with its enable; any other speed keeps the word |
| DwmacQcomEthqos.ConfigureRegs | drivers/net/ethernet/stmicro/stmmac/dwmac-qcom-ethqos.c:758-832 | the RGMII registers after ethqos_configure: the POR table, then the DLL reset, then ethqos_dll_configure at 1000 Mb/s only, then the macro programming; ConfigureEndConfig and ConfigureEndDll state what is read back, and Ethqos.Configure is proved to end with it |
| DwmacQcomEthqos.ConfigureEndConfig | drivers/net/ethernet/stmicro/stmmac/dwmac-qcom-ethqos.c:758-832 | after ethqos_configure at a valid speed, CONFIG has FUNC_CLK_EN and DDR_MODE set and LOOPBACK_EN on exactly when the platform asks |
| DwmacQcomEthqos.ConfigureEndDll | drivers/net/ethernet/stmicro/stmmac/dwmac-qcom-ethqos.c:771-831 | after ethqos_configure the DLL is out of reset and power-down; at 1000 Mb/s it, its CDR and its clock output are enabled, and DDR calibration is on |
| DwmacQcomEthqos.RgmiiClkRate | drivers/net/ethernet/stmicro/stmmac/dwmac-qcom-ethqos.c:428-447 | 1000 → 250 MHz, 100 → 50 MHz, 10 → 5 MHz, any other speed keeps the current rate |
| DwmacQcomEthqos.SgmiiGigabit | drivers/net/ethernet/stmicro/stmmac/dwmac-qcom-ethqos.c:860-864 | at 1000 Mb/s MAC_CTRL is the word read with bit 15 (PS) cleared |
| DwmacQcomEthqos.SgmiiFast | drivers/net/ethernet/stmicro/stmmac/dwmac-qcom-ethqos.c:866-869 | at 100 Mb/s bits 15 and 14 are set |
| DwmacQcomEthqos.SgmiiTen | drivers/net/ethernet/stmicro/stmmac/dwmac-qcom-ethqos.c:871-875 | at 10 Mb/s bit 15 is set and bit 14 cleared |
| DwmacQcomEthqos.SgmiiMacCtrl | drivers/net/ethernet/stmicro/stmmac/dwmac-qcom-ethqos.c:859-876 | the MAC_CTRL word ethqos_configureSGMII writes for each speed, as read otherwise; SgmiiMacCtrlFields, SgmiiMacCtrlKeeps and the per-speed Selects lemmas state its meaning |
| DwmacQcomEthqos.SgmiiMacCtrlFields | drivers/net/ethernet/stmicro/stmmac/dwmac-qcom-ethqos.c:859-876 | the three speed cases as masked writes of PS/FES; any other speed leaves the word as read |
| DwmacQcomEthqos.SgmiiMacCtrlSelectsSpeed | drivers/net/ethernet/stmicro/stmmac/dwmac-qcom-ethqos.c:839-876 | by the PS/FES encoding, the word written selects 100 or 10 Mb/s at those speeds; at 1000 Mb/s it selects 1000 exactly when FES was already clear, and 2500 otherwise |
| DwmacQcomEthqos.SgmiiMacCtrlKeeps | drivers/net/ethernet/stmicro/stmmac/dwmac-qcom-ethqos.c:859-876 | no MAC_CTRL bit other than PS and FES changes |
| DwmacQcomEthqos.SgmiiGigabitKeeps | drivers/net/ethernet/stmicro/stmmac/dwmac-qcom-ethqos.c:861 | at 1000 Mb/s the bits outside PS/FES are kept |
| DwmacQcomEthqos.SgmiiFastKeeps | drivers/net/ethernet/stmicro/stmmac/dwmac-qcom-ethqos.c:867 | at 100 Mb/s likewise |
| DwmacQcomEthqos.SgmiiTenKeeps | drivers/net/ethernet/stmicro/stmmac/dwmac-qcom-ethqos.c:872-873 | at 10 Mb/s likewise |
| DwmacQcomEthqos.SgmiiGigabitSelects | drivers/net/ethernet/stmicro/stmmac/dwmac-qcom-ethqos.c:861 | at 1000 Mb/s the word selects 1000 when FES was clear and 2500 when it was set |
| DwmacQcomEthqos.SgmiiFastSelects | drivers/net/ethernet/stmicro/stmmac/dwmac-qcom-ethqos.c:867 | at 100 Mb/s the word selects 100 |
| DwmacQcomEthqos.SgmiiTenSelects | drivers/net/ethernet/stmicro/stmmac/dwmac-qcom-ethqos.c:872-873 | at 10 Mb/s the word selects 10 |
| DwmacQcomEthqos.Ethqos.constructor | drivers/net/ethernet/stmicro/stmmac/dwmac-qcom-ethqos.c:962-966 | probe copies the POR table, loopback flag and EMAC3 flag of the match data |
| DwmacQcomEthqos.Ethqos.RgmiiUpdatel | drivers/net/ethernet/stmicro/stmmac/dwmac-qcom-ethqos.c:120-128 | the word at the offset becomes (old & ~mask) \| val; no other register changes |
| DwmacQcomEthqos.Ethqos.UpdateRgmiiClk | drivers/net/ethernet/stmicro/stmmac/dwmac-qcom-ethqos.c:428-450 | rgmii_clk_rate becomes RgmiiClkRate(speed, old rate); no register changes |
| DwmacQcomEthqos.Ethqos.WritePor | drivers/net/ethernet/stmicro/stmmac/dwmac-qcom-ethqos.c:764-767 | the loop stores the table entries in order: registers as ApplyPor, trace extended by PorWrites |
| DwmacQcomEthqos.Ethqos.SetFuncClkEn | drivers/net/ethernet/stmicro/stmmac/dwmac-qcom-ethqos.c:452-456 | FUNC_CLK_EN is set in CONFIG, all else kept |
| DwmacQcomEthqos.Ethqos.DllReset | drivers/net/ethernet/stmicro/stmmac/dwmac-qcom-ethqos.c:771-811 | the RGMII registers become DllResetRegs of the old registers |
| DwmacQcomEthqos.Ethqos.DllConfigure | drivers/net/ethernet/stmicro/stmmac/dwmac-qcom-ethqos.c:522-600 | the registers become DllConfigureRegs; returns 0 |
| DwmacQcomEthqos.Ethqos.MacroInitGigabit | drivers/net/ethernet/stmicro/stmmac/dwmac-qcom-ethqos.c:631-669 | the registers become MacroGigabitRegs |
| DwmacQcomEthqos.Ethqos.MacroInitSlow | drivers/net/ethernet/stmicro/stmmac/dwmac-qcom-ethqos.c:671-748 | the registers become MacroSlowRegs at 100 or 10 Mb/s |
| DwmacQcomEthqos.Ethqos.RgmiiMacroInit | drivers/net/ethernet/stmicro/stmmac/dwmac-qcom-ethqos.c:602-756 | the registers become MacroInitRegs; -EINVAL exactly for a speed other than 1000/100/10, after clearing only TX_TO_RX_LOOPBACK_EN and INTF_SEL; 0 otherwise |
| DwmacQcomEthqos.Ethqos.Configure | drivers/net/ethernet/stmicro/stmmac/dwmac-qcom-ethqos.c:758-832 | the registers become ConfigureRegs (reset table, clock enable, DLL reset, DLL configure at 1000 only, macro init); returns 0 |
| DwmacQcomEthqos.Ethqos.WriteMacCtrl | drivers/net/ethernet/stmicro/stmmac/dwmac-qcom-ethqos.c:838-875 | reads MAC_CTRL and writes back SgmiiMacCtrl of it once |
| DwmacQcomEthqos.Ethqos.ConfigureSgmii | drivers/net/ethernet/stmicro/stmmac/dwmac-qcom-ethqos.c:834-879 | at 1000/100/10 the MAC_CTRL word is written once and returned, and at 1000 CONFIG2 bit 16 is set; at any other speed nothing is written and the word read is returned |
| DwmacQcomEthqos.Ethqos.FixMacSpeed | drivers/net/ethernet/stmicro/stmmac/dwmac-qcom-ethqos.c:881-893 | speed is recorded; in SGMII mode the clock rate is kept, at 1000/100/10 the MAC_CTRL word is stored once, at any other speed the MAC block is untouched, and the RGMII registers change only by CONFIG2 bit 16 being set at 1000; otherwise the rate is retuned, the RGMII registers become ConfigureRegs and the MAC block is untouched |
| QcomEthqosPps.PpsxMask | drivers/net/ethernet/stmicro/stmmac/dwmac-qcom-ethqos.h:70-73 | PPSX_MASK(x) is 0xFF << 8x: bit k is set exactly for 8x <= k <= 8x+7 |
| QcomEthqosPps.PpsCmdX | drivers/net/ethernet/stmicro/stmmac/dwmac-qcom-ethqos.h:58-62 | PPSCMDX(x, val) is the low four bits of val shifted to bit 8x |
| QcomEthqosPps.TrgtModSelX | drivers/net/ethernet/stmicro/stmmac/dwmac-qcom-ethqos.h:64-68 | TRGTMODSELX(x, val) is the low two bits of val shifted to bit 8x+5 |
| QcomEthqosPps.McgrenX | drivers/net/ethernet/stmicro/stmmac/dwmac-qcom-ethqos.h:29-31 | MCGRENX(x) is the single bit 8x+7 |
| QcomEthqosPps.ChannelFieldsDisjoint | drivers/net/ethernet/stmicro/stmmac/dwmac-qcom-ethqos.h:28-73 | within a channel the command, mode and MCGREN bits are pairwise disjoint and all inside PPSX_MASK(x) |
| QcomEthqosPps.ChannelMasksDisjoint | drivers/net/ethernet/stmicro/stmmac/dwmac-qcom-ethqos.h:70-73 | the masks of two different channels 0..3 do not overlap |
| QcomEthqosPps.PpsRegistersDistinct | drivers/net/ethernet/stmicro/stmmac/dwmac-qcom-ethqos.h:28-38 | the per-channel registers are 0xB80 + 0x10x + 4r, 0x10 apart per channel, distinct across (register, channel), and never MAC_PPS_CONTROL |
| QcomEthqosPps.PrgRclkConst | drivers/net/ethernet/stmicro/stmmac/dwmac-qcom-ethqos.h:85-90 | RGMII_PRG_RCLK_CONST = 52 * 4 / 2 = 104 |
| QcomSgmiiPhy.ReadsFrom | drivers/phy/qualcomm/phy-qcom-sgmii-eth.c:31-38 | counted from read k on, a poll loop has made at least k and at most its budget of reads |
| QcomSgmiiPhy.ReadsFromFirst | drivers/phy/qualcomm/phy-qcom-sgmii-eth.c:31-38 | the loop stops at the first read showing the bit; the condition is seen within the budget exactly when the last read made showed it |
| QcomSgmiiPhy.ReadsFirst | drivers/phy/qualcomm/phy-qcom-sgmii-eth.c:27-45 | the same from the first read: 1 to budget reads, none before the last showing the bit |
| QcomSgmiiPhy.Polled | drivers/phy/qualcomm/phy-qcom-sgmii-eth.c:25-96 | poll_status reaches between the starting condition and all four |
| QcomSgmiiPhy.PolledStops | drivers/phy/qualcomm/phy-qcom-sgmii-eth.c:25-96 | the conditions polled before the last were all seen; when it stops early the last polled was not seen; all are seen exactly when it polls all four and sees the last |
| QcomSgmiiPhy.SerdesSpeed | drivers/phy/qualcomm/phy-qcom-sgmii-eth.c:305-330 | 1000, 100 and 10 need the 1 Gb/s table, 2500 the 2.5 Gb/s table, any other speed none (0) |
| QcomSgmiiPhy.InitIdempotent | drivers/phy/qualcomm/phy-qcom-sgmii-eth.c:309-318 | once cur_speed is the SerDes speed the request needs, init does not reprogram; it reprograms only when cur_speed differs |
| QcomSgmiiPhy.SgmiiPhy.constructor | drivers/phy/qualcomm/phy-qcom-sgmii-eth.c:396-398 | probe starts cur_speed and new_speed at 0 |
| QcomSgmiiPhy.SgmiiPhy.PollOne | drivers/phy/qualcomm/phy-qcom-sgmii-eth.c:27-45 | a retry-countdown loop returns "seen" exactly when some read within the budget shows the bit, after exactly Reads reads |
| QcomSgmiiPhy.SgmiiPhy.PollStatus | drivers/phy/qualcomm/phy-qcom-sgmii-eth.c:25-96 | budgets 500, 500, 500 and 5000; returns 0 exactly when all four conditions are seen, else -1 after the first unseen one, polling no later one |
| QcomSgmiiPhy.SgmiiPhy.WriteTable | drivers/phy/qualcomm/phy-qcom-sgmii-eth.c:98-295 | a programming table's stores are made in order |
| QcomSgmiiPhy.InitTable | drivers/phy/qualcomm/phy-qcom-sgmii-eth.c:305-325 | the SerDes table init writes: the 1G table for 1000, 100 and 10 Mb/s, the 2.5G table for 2500 Mb/s, and none for other speeds; SgmiiPhy.Init writes it |
| QcomSgmiiPhy.PowerDown | drivers/phy/qualcomm/phy-qcom-sgmii-eth.c:341-346 | the four stores of the power-down sequence: TX_MID_TERM_CTRL2 = 0x08, SW_RESET = 1 then 0, PHY_START = 1; SgmiiPhy.Exit makes them |
| QcomSgmiiPhy.SgmiiPhy.Init | drivers/phy/qualcomm/phy-qcom-sgmii-eth.c:298-333 | when the requested speed needs a table the SerDes is not at, that table is written and the poll result returned; otherwise nothing is written and 0 returned; cur_speed becomes the needed SerDes speed (0 if none) even when the poll failed |
| QcomSgmiiPhy.SgmiiPhy.Calibrate | drivers/phy/qualcomm/phy-qcom-sgmii-eth.c:360-363 | calibrate behaves as init |
| QcomSgmiiPhy.SgmiiPhy.SetSpeed | drivers/phy/qualcomm/phy-qcom-sgmii-eth.c:351-358 | only new_speed changes, to the speed given; returns 0 |
| QcomSgmiiPhy.SgmiiPhy.Exit | drivers/phy/qualcomm/phy-qcom-sgmii-eth.c:335-349 | the four power-down stores in order; both speeds kept; returns 0 |
| QcomSgmiiPhy.SgmiiPhy.InitTwice | drivers/phy/qualcomm/phy-qcom-sgmii-eth.c:305-324 | two inits with no set_speed between program the SerDes at most once, and the second returns 0 |
| StmmacPcs.MasksAgree | drivers/net/ethernet/stmicro/stmmac/stmmac_pcs.h:44-52 | PCS_ANE_PSE is GENMASK(8,7) = 3 << 7, PCS_ANE_RFE is GENMASK(13,12) = 3 << 12, LNKSPEED is GENMASK(2,1) |
| StmmacPcs.FieldsDisjoint | drivers/net/ethernet/stmicro/stmmac/stmmac_pcs.h:28-55 | FD, HD, PSE, RFE and ACK are pairwise disjoint, as are RAN, ANE, ELE, ECD, LR and SGMRAL; the codes 0, 1, 2 fit in LNKSPEED |
| StmmacPcs.ConfigWord | drivers/net/ethernet/stmicro/stmmac/stmmac_pcs.c:11-18 | the AN_CTRL word dwmac_pcs_config writes back: the word read with ANE and RAN set, and SGMRAL set too when hw->ps is non-zero; ConfigWordBits states its bits |
| StmmacPcs.ConfigWordBits | drivers/net/ethernet/stmicro/stmmac/stmmac_pcs.c:11-18 | the word written has ANE and RAN set, SGMRAL set when hw->ps is non-zero and as read otherwise, and every other bit as read |
| StmmacPcs.PauseField | drivers/net/ethernet/stmicro/stmmac/stmmac_pcs.c:55-58 | FIELD_GET(PCS_ANE_PSE, val) is a 2-bit value |
| StmmacPcs.LpAdvertising | drivers/net/ethernet/stmicro/stmmac/stmmac_pcs.c:29-58 | lp_advertising after dwmac_pcs_get_state: Autoneg added, the Full modes on FD, the Half modes on HD, and Pause and Asym_Pause set or cleared by the pause field; LpAdvertisingModes states its meaning |
| StmmacPcs.LpAdvertisingModes | drivers/net/ethernet/stmicro/stmmac/stmmac_pcs.c:29-58 | Autoneg always added; FD adds the three Full modes and HD the three Half modes, never removing any; Pause follows LPA bit 7 and Asym_Pause bit 8; every other mode kept |
| StmmacPcs.PauseBits | drivers/net/ethernet/stmicro/stmmac/stmmac_pcs.c:53-58 | the pause field masked with STMMAC_PCS_PAUSE is LPA bit 7, with STMMAC_PCS_ASYM_PAUSE bit 8 |
| StmmacPcs.Inc64 | drivers/net/ethernet/stmicro/stmmac/stmmac_pcs.h:75-81 | an unsigned long counter goes up by one, wrapping to 0 after 2^64-1 |
| StmmacPcs.Pcs.Config | drivers/net/ethernet/stmicro/stmmac/stmmac_pcs.c:4-21 | AN_CTRL is read and written back once as ConfigWord; returns 0 |
| StmmacPcs.Pcs.GetState | drivers/net/ethernet/stmicro/stmmac/stmmac_pcs.c:23-59 | lp_advertising becomes LpAdvertising of the old set and the LPA word; no register is written |
| StmmacPcs.Isr | drivers/net/ethernet/stmicro/stmmac/stmmac_pcs.h:68-87 | each counter goes up by one exactly when its interrupt bit is set; no other statistic and no register changes |
| KaslrOffsetStore.Record | drivers/soc/qcom/kaslr_offset_store.c:26-28 | three stores: KASLR_MAGIC at 0, then offsets 4 and 8 |
| KaslrOffsetStore.ReadRecord | drivers/soc/qcom/kaslr_offset_store.c:13-26 | a reader recovers an offset only when word 0 holds KASLR_MAGIC |
| KaslrOffsetStore.LowWord | drivers/soc/qcom/kaslr_offset_store.c:27 | the low 32 bits of the offset, stored at offset 4; SplitRoundTrip states that it and HighWord give back the offset |
| KaslrOffsetStore.HighWord | drivers/soc/qcom/kaslr_offset_store.c:28 | the high 32 bits of the offset, stored at offset 8; SplitRoundTrip states that it and LowWord give back the offset |
| KaslrOffsetStore.SplitRoundTrip | drivers/soc/qcom/kaslr_offset_store.c:12-28 | the high and low words put back together give the offset, as bit fields and as word4 + 2^32 * word8 |
| KaslrOffsetStore.StoresRecord | drivers/soc/qcom/kaslr_offset_store.c:26-28 | the region afterwards holds the magic at 0, the low word at 4, the high word at 8, all else as before |
| KaslrOffsetStore.RecordReadsBack | drivers/soc/qcom/kaslr_offset_store.c:26-28 | whatever the region held, after the stores a reader recovers exactly the offset |
| KaslrOffsetStore.Probe | drivers/soc/qcom/kaslr_offset_store.c:14-31 | a failed mapping returns its error and stores nothing; otherwise exactly the three words are stored in order and 0 returned |

## Left out

- Delays (`usleep_range`, `mdelay`, `udelay`) and all log messages are not modelled.
- The DLL lock poll of `ethqos_configure` and the two CK_OUT_EN polls of `ethqos_dll_configure` only log on timeout. The register writes are modelled, the polls are not.
- DwmacQcomEthqos.Ethqos.DllReset: only the final register values are stated, not the order of the stores. The sequence first sets DLL_RST and PDN and later clears them, and no contract states that pulse. The reason is cost: stating the store trace of every read-modify-write puts the longer phases beyond the verifier's resource budget.
- DwmacQcomEthqos.Ethqos.RgmiiUpdatel: the register value is stated, but not the single store it appends to the block's trace, for the same reason.
- DwmacQcomEthqos.Ethqos.Configure: like its phases SetFuncClkEn, DllConfigure, MacroInitGigabit, MacroInitSlow and RgmiiMacroInit, it states the RGMII registers it ends with but not its store sequence; only the reset-table loop (WritePor) states its trace. ConfigureSgmii and FixMacSpeed likewise state the trace of the MAC block only.
- `clk_set_rate` in `ethqos_update_rgmii_clk`: only the rate recorded in `rgmii_clk_rate` is modelled.
- DwmacQcomEthqos.MAC_CTRL_REG is taken as offset 0 of the MAC block, and GMAC_CONFIG_PS/FES as bits 15 and 14, as the comment in `ethqos_configureSGMII` describes them. The stmmac core headers that define them are not part of this model.
- DwmacQcomEthqos.SgmiiMacCtrlSelectsSpeed: at 1000 Mb/s the driver clears only PS. It relies on the stmmac core having programmed the speed bits at link-up, and that core code is not part of this model. So the lemma states the dependence on FES and does not claim 1000 Mb/s outright.
- The probe of `dwmac-qcom-ethqos.c` is left out, apart from the driver data it copies. Also left out: regulators, `configure_serdes_dt`, `qcom_ethqos_serdes_init`, `rgmii_dump`, clock enabling, and the dwmac4 address layout of the match data.
- The PHY mode is a constructor argument. `device_get_phy_mode` is not modelled.
- The SerDes programming tables of `phy-qcom-sgmii-eth.c` are not modelled value by value. The values are literals in `qcom_dwmac_sgmii_1g_phy_init` and `qcom_dwmac_sgmii_2p5g_phy_init` (for example lines 102-110 and 188-193), and they are left out on purpose. Each table is an opaque sequence of stores, a field of the `SerdesLayout` parameter. Only the QSERDES_* register offsets come from `phy-qcom-sgmii-eth.h`, which is not part of this model; the power-down offsets are `SerdesLayout` fields too. What each status read shows is an oracle, `ready(c, k)`.
- The probe of `phy-qcom-sgmii-eth.c` is only partly modelled. Its allocation, ioremap and phy creation paths are left out; only the initial speeds are modelled.
- `PCS_ANE_IRQ` (BIT(2)), `PCS_LINK_IRQ` (BIT(1)), `STMMAC_PCS_PAUSE` (1) and `STMMAC_PCS_ASYM_PAUSE` (2) come from the stmmac `common.h`, which is not part of this model. The model uses the values the stmmac core gives them.
- KaslrOffsetStore.SplitRoundTrip: the sum word4 + 2^32 * word8 is stated in 64-bit arithmetic, not over unbounded integers. The bit-field form is stated as well.
- `kaslr_offset()` is a parameter of the probe. The ioremap outcome is a `Mapping` value.
- IovaRegions.ScanClashIffIntersect, InsertedSortedDisjoint, InsertStepCorrect, InsertAllSuccess, InsertAllSucceedsIffDisjoint, InvertedIsComplement, IommuIovaMap.DmaRegionsSortedAndExact, DmaRegionsFailIffOverlap, ResvRegionsAreComplement and ResvRegionsAdded: these properties are proved only for proper entries, with size at least 1 and start + size at most 2^64. The source accepts zero-size and wrapping device-tree entries too, and InsertStep, InsertAll, Walk and the methods model them with the source's u64 arithmetic. For such entries the properties can fail: with a zero-size entry at 10 followed by (9, size 2), the second insert_range sees a region ending at 9 and returns -EINVAL although the two entries share no address (IovaRegions.ZeroSizeEntryRejectsDisjointEntry).
- Device-tree lookups (`of_parse_phandle`, `of_get_property`, `of_n_addr_cells`, `of_n_size_cells`) are a `Device`/`DeviceNode` value.
- IommuIovaMap.DeviceNode: a property is a sequence of 32-bit cells, so a byte length that is not a multiple of 4 cannot be represented. The truncation `len /= sizeof(u32)` makes for such a length in `of_property_walk_each_entry` (the trailing bytes are ignored) is not modelled.
- Allocation failure (`iommu_alloc_resv_region`) is modelled by an `Allocator` holding the number of allocations that succeed before the first failure. Every failure in this code aborts the operation, so that count fixes the behaviour.
- Kernel list nodes and their linkage are sequences. `list_add` prepends, `list_add_tail` appends and `list_splice` prepends the spliced list. Aliasing of list nodes is not modelled.
- The misc-device and ioctl stubs of `iommu_iova_map.c` are not modelled. Also left out: the drivers with no core logic the model could state, namely the interconnect and clock tables, `qcom_hvc.c`, `kiumd.c`, `vfio_iommu_qcom.c`, `apps_pinctrl.c`, `dump_boot_log.c`, `khab_test.c`, `dwmac-qcom-gpio.c`, and the uapi and prototype headers.

## Findings

| source | as written | input that shows it | evidently intended | confidence | as-written member | corrected member |
|---|---|---|---|---|---|---|
| drivers/misc/iommu_iova_map.c:184 | the trailing reserved region is added only when `U64_MAX - prev->start > prev->length` | a pool whose last region ends at U64_MAX - 1, e.g. the single region start 0, length U64_MAX: address U64_MAX is then neither in the pool nor reserved | reserve [end, 2^64) whenever the last region ends below 2^64, i.e. `>=` | medium; not executed | IovaRegions.TrailingGapAsWritten, IovaRegions.InvertedAsWritten, IovaRegions.AsWrittenLeavesLastAddressUnreserved | IovaRegions.TrailingGap, IovaRegions.Inverted, IovaRegions.InvertedIsComplement, IommuIovaMap.InvertRegions, IommuIovaMap.ResvRegions, IommuIovaMap.ResvRegionsAreComplement, IommuIovaMap.GenerateResvRegions |
