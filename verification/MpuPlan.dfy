// The address arithmetic of the Cortex-M allocator (arch/cortex-m/src/mpu.rs):
// where a region goes, how large its physical MPU region is, and which
// subregions are switched on. Everything is judged by the set of addresses the
// resulting register values make accessible.

module MpuPlan {
  import opened Wrappers
  import opened Powers
  import opened Region

  // Overflow: an operation left the 32-bit range, or a subtraction went below
  // zero; what the machine does next depends on how the kernel was built.
  datatype Outcome<+T> = Overflow | Failed | Done(value: T)

  datatype RegionPlan = RegionPlan(start: nat, size: nat, regionStart: nat, regionSize: nat,
                                   subregions: Option<(nat, nat)>)

  // ------------------------------------------------------- allocate_region

  // The final test that the logical region fits in the offered memory.
  function CheckFits(plan: RegionPlan, memEnd: nat): Outcome<RegionPlan> {
    if plan.start + plan.size >= WORD then Overflow
    else if plan.start + plan.size > memEnd then Failed
    else Done(plan)
  }

  // Largest power of two dividing `start`; for address 0, an eighth of the
  // smallest region that could hold `size`.
  function SubregionSizeFor(start: nat, size: nat): (sub: nat)
    requires size >= 1
    ensures sub >= 1
  {
    if start > 0 then Pow2(TrailingZeros(start)) else Max(CeilPow2(size), 256) / 8
  }

  function Quotient(x: nat, d: nat): (q: nat)
    requires d > 0
  {
    x / d
  }

  // Size and start do not make a region of their own: expose subregions of a
  // larger region, or failing that round up to a power of two and shift up.
  function PlanUnaligned(start: nat, size: nat, memEnd: nat): Outcome<RegionPlan>
    requires size >= 1
  {
    PlanWithSubregions(start, size, SubregionSizeFor(start, size), memEnd)
  }

  function PlanWithSubregions(start: nat, size: nat, sub: nat, memEnd: nat): Outcome<RegionPlan>
    requires size >= 1 && sub >= 1
  {
    var under := 8 * sub;
    if under >= WORD then Overflow else
    var underStart := AlignDown(start, under);
    var size1 := AlignUp(size, sub);
    if start + size1 >= WORD || underStart + under >= WORD then Overflow
    else if sub >= 32 && underStart + under >= start + size1 then
      var lo := Quotient(start - underStart, sub);
      var hi := lo + Quotient(size1, sub) - 1;
      if hi < 0 then Overflow else
      CheckFits(RegionPlan(start, size1, underStart, under, Some((lo, hi))), memEnd)
    else
      PlanRoundedUp(start, CeilPow2(size1), memEnd)
  }

  function PlanRoundedUp(start: nat, size: nat, memEnd: nat): Outcome<RegionPlan>
    requires size >= 1
  {
    if size >= WORD then Overflow else
    var shifted := start + (size - start % size);
    CheckFits(RegionPlan(shifted, size, shifted, size, None), memEnd)
  }

  function PlanRegion(unit: nat, memStart: nat, memSize: nat, minSize: nat): Outcome<RegionPlan>
    requires unit >= 1
  {
    var start := AlignUp(memStart, unit);
    var size := Max(minSize, unit);
    if start >= WORD then Overflow
    else if CountOnes(size) > 1 || start % size != 0 then PlanUnaligned(start, size, memStart + memSize)
    else CheckFits(RegionPlan(start, size, start, size, None), memStart + memSize)
  }

  // The plan can be written to the registers, and the registers then expose
  // exactly the logical region.
  ghost predicate Exact(plan: RegionPlan) {
    && Encodable(plan.regionStart, plan.regionSize, plan.subregions)
    && plan.regionSize < WORD
    && EncodedStart(plan.regionStart, plan.regionSize, plan.subregions) == plan.start
    && EncodedEnd(plan.regionStart, plan.regionSize, plan.subregions) == plan.start + plan.size
  }

  lemma EighthOfPow2(x: nat)
    requires IsPow2(x) && x >= 256
    ensures IsPow2(x / 8) && x / 8 >= 32
  {
    Pow2Half(x);
    Pow2Half(x / 2);
    Pow2Half(x / 4);
    assert x / 8 == x / 4 / 2;
  }

  lemma CeilAtLeast256(size: nat)
    requires size >= 1
    ensures IsPow2(Max(CeilPow2(size), 256))
  {
    CeilPow2IsPow2(size);
    Pow2Constants();
    assert IsPow2(256) by { assert 256 == Pow2(8); }
  }

  lemma StartGranularity(unit: nat, start: nat)
    requires IsPow2(unit) && unit >= 32 && start > 0 && start % unit == 0
    ensures Pow2(TrailingZeros(start)) >= 32
  {
    Pow2Constants();
    var k := Pow2Exponent(unit, 5);
    TrailingZerosGreatest(start, k);
    Pow2Divides(k, TrailingZeros(start));
  }

  lemma SubregionSizeAligned(unit: nat, start: nat, size: nat)
    requires IsPow2(unit) && unit >= 32 && size >= unit && start % unit == 0
    ensures var sub := SubregionSizeFor(start, size); IsPow2(sub) && sub >= 32 && start % sub == 0
  {
    if start > 0 {
      TrailingZerosDivides(start);
      StartGranularity(unit, start);
    } else {
      CeilAtLeast256(size);
      EighthOfPow2(Max(CeilPow2(size), 256));
      MultipleMod(0, Max(CeilPow2(size), 256) / 8);
    }
  }

  lemma EightTimesPow2(sub: nat)
    requires IsPow2(sub)
    ensures IsPow2(8 * sub) && 8 * sub / 8 == sub
  {
    Pow2Double(sub);
    Pow2Double(2 * sub);
    Pow2Double(4 * sub);
  }

  lemma ExactQuotient(x: nat, d: nat)
    requires d > 0 && x % d == 0
    ensures x == (x / d) * d
  {
  }

  lemma QuotientBound(k: int, m: int, d: int)
    requires d > 0 && k * d <= m * d
    ensures k <= m
  {
  }

  lemma SubregionSums(start: nat, size1: nat, underStart: nat, sub: nat, lo: nat, n: nat)
    requires sub > 0 && size1 > 0 && start - underStart == lo * sub && size1 == n * sub
    requires start + size1 <= underStart + 8 * sub
    ensures 1 <= n && lo + n <= 8 && underStart + (lo + n) * sub == start + size1
  {
  }

  lemma SubregionBounds(start: nat, size1: nat, underStart: nat, sub: nat)
    requires sub > 0 && size1 > 0 && underStart <= start
    requires start % sub == 0 && underStart % sub == 0 && size1 % sub == 0
    requires start + size1 <= underStart + 8 * sub
    ensures var lo := Quotient(start - underStart, sub); var hi := lo + Quotient(size1, sub) - 1;
            0 <= lo <= hi < 8
            && underStart + lo * sub == start
            && underStart + (hi + 1) * sub == start + size1
  {
    ModAdd(start, underStart, sub);
    ExactQuotient(start - underStart, sub);
    ExactQuotient(size1, sub);
    SubregionSums(start, size1, underStart, sub, Quotient(start - underStart, sub), Quotient(size1, sub));
  }

  lemma RoundedUpExact(start: nat, size: nat, memEnd: nat)
    requires IsPow2(size) && size >= 32
    requires PlanRoundedUp(start, size, memEnd).Done?
    ensures var plan := PlanRoundedUp(start, size, memEnd).value;
            Exact(plan) && plan.start >= start && plan.size == size && plan.start + plan.size <= memEnd
  {
    AlignDownMultiple(start, size);
    ModAdd(AlignDown(start, size), size, size);
    assert start + (size - start % size) == AlignDown(start, size) + size;
  }

  lemma SubregionPlanExact(start: nat, size: nat, sub: nat)
    requires size >= 1 && IsPow2(sub) && 32 <= sub && 8 * sub < WORD
    requires start % sub == 0 && size % sub == 0
    requires AlignDown(start, 8 * sub) + 8 * sub >= start + size
    ensures var under := AlignDown(start, 8 * sub);
            var lo := Quotient(start - under, sub);
            var hi := lo + Quotient(size, sub) - 1;
            hi >= 0 && Exact(RegionPlan(start, size, under, 8 * sub, Some((lo, hi))))
  {
    var under := AlignDown(start, 8 * sub);
    EightTimesPow2(sub);
    AlignDownMultiple(start, 8 * sub);
    MultipleMod(8, sub);
    ModTrans(under, 8 * sub, sub);
    SubregionBounds(start, size, under, sub);
  }

  lemma WithSubregionsExact(start: nat, size: nat, sub: nat, memEnd: nat)
    returns (plan: RegionPlan)
    requires size >= 32 && IsPow2(sub) && sub >= 32 && start % sub == 0
    requires PlanWithSubregions(start, size, sub, memEnd).Done?
    ensures PlanWithSubregions(start, size, sub, memEnd) == Done(plan)
    ensures Exact(plan) && plan.start >= start && plan.size >= size && plan.start + plan.size <= memEnd
  {
    plan := PlanWithSubregions(start, size, sub, memEnd).value;
    var size1 := AlignUp(size, sub);
    AlignUpMultiple(size, sub);
    var under := AlignDown(start, 8 * sub);
    if under + 8 * sub >= start + size1 {
      SubregionPlanExact(start, size1, sub);
      var lo := Quotient(start - under, sub);
      assert plan == RegionPlan(start, size1, under, 8 * sub, Some((lo, lo + Quotient(size1, sub) - 1)));
    } else {
      CeilPow2IsPow2(size1);
      RoundedUpExact(start, CeilPow2(size1), memEnd);
    }
  }

  // Whenever a plan is found, in all three cases the accessible bytes are
  // exactly the returned range, inside the offered memory and large enough.
  lemma PlanRegionExact(unit: nat, memStart: nat, memSize: nat, minSize: nat)
    requires IsPow2(unit) && unit >= 32
    requires PlanRegion(unit, memStart, memSize, minSize).Done?
    ensures var plan := PlanRegion(unit, memStart, memSize, minSize).value;
            && Exact(plan)
            && memStart <= plan.start && plan.start + plan.size <= memStart + memSize
            && plan.size >= minSize && plan.size >= unit
  {
    var start, size := AlignUp(memStart, unit), Max(minSize, unit);
    AlignUpMultiple(memStart, unit);
    if CountOnes(size) > 1 || start % size != 0 {
      SubregionSizeAligned(unit, start, size);
      var _ := WithSubregionsExact(start, size, SubregionSizeFor(start, size), memStart + memSize);
    } else {
      CountOnesPow2(size);
    }
  }

  lemma LargestDivisor(n: nat, sub: nat)
    requires n > 0 && IsPow2(sub) && n % sub == 0 && n % (2 * sub) != 0
    ensures sub == Pow2(TrailingZeros(n))
  {
    var k: nat :| sub == Pow2(k);
    assert Pow2(k + 1) == 2 * sub;
    TrailingZerosGreatest(n, k);
    TrailingZerosGreatest(n, k + 1);
  }

  // Where a region goes. The request is aligned and raised to the unit. If it is a
  // power of two that divides its start, it is taken as it is. If not, and the
  // request rounded up to the largest power of two dividing its start fits the
  // window of eight of those, it is taken so rounded. If not, it is rounded up to
  // a power of two and shifted to the next multiple of that. It is refused exactly
  // when what comes out does not fit the memory offered.
  lemma PlanRegionWhere(unit: nat, memStart: nat, memSize: nat, minSize: nat, sub: nat)
    requires unit >= 1 && AlignUp(memStart, unit) > 0 && PlanRegion(unit, memStart, memSize, minSize) != Overflow
    requires var start := AlignUp(memStart, unit); IsPow2(sub) && sub >= 32 && start % sub == 0 && start % (2 * sub) != 0
    ensures var r := PlanRegion(unit, memStart, memSize, minSize);
            var (start, size, memEnd) := (AlignUp(memStart, unit), Max(minSize, unit), memStart + memSize);
            var rounded := AlignUp(size, sub);
            if IsPow2(size) && start % size == 0 then
              (r.Done? <==> start + size <= memEnd) && (r.Done? ==> r.value.start == start && r.value.size == size)
            else if start % (8 * sub) + rounded <= 8 * sub then
              (r.Done? <==> start + rounded <= memEnd) && (r.Done? ==> r.value.start == start && r.value.size == rounded)
            else
              var (up, whole) := (start + CeilPow2(rounded) - start % CeilPow2(rounded), CeilPow2(rounded));
              (r.Done? <==> up + whole <= memEnd) && (r.Done? ==> r.value.start == up && r.value.size == whole)
  {
    var (start, size) := (AlignUp(memStart, unit), Max(minSize, unit));
    CountOnesPow2(size);
    LargestDivisor(start, sub);
  }

  // ------------------------------------------- the pair of app RAM regions

  // Regions 0 and 1 with `enabled` of their 16 subregions switched on.
  function AppRegion0(start: nat, regionSize: nat, enabled: nat, permissions: Permissions): CortexMRegion
    requires regionSize >= 2 && 1 <= enabled
  {
    NewRegion(Location(start, regionSize), start, regionSize, 0, Some((0, Min(enabled, 8) - 1)), permissions)
  }

  function AppRegion1(start: nat, regionSize: nat, enabled: nat, permissions: Permissions): CortexMRegion
    requires regionSize >= 2 && 1 <= enabled <= 16
  {
    if enabled <= 8 then Empty(1)
    else NewRegion(Location(start + regionSize, regionSize), start + regionSize, regionSize, 1,
                   Some((0, enabled - 8 - 1)), permissions)
  }

  lemma AppRegion0Covers(start: nat, regionSize: nat, enabled: nat, permissions: Permissions, a: int)
    requires IsPow2(regionSize) && regionSize >= 256 && start % regionSize == 0 && 1 <= enabled
    ensures Covers(AppRegion0(start, regionSize, enabled, permissions), a)
       <==> start <= a < start + Min(enabled, 8) * (regionSize / 8)
  {
    NewRegionCovers(Location(start, regionSize), start, regionSize, 0, Some((0, Min(enabled, 8) - 1)), permissions, a);
  }

  lemma AppRegion1Covers(start: nat, regionSize: nat, enabled: nat, permissions: Permissions, a: int)
    requires IsPow2(regionSize) && regionSize >= 256 && start % regionSize == 0 && 1 <= enabled <= 16
    ensures Covers(AppRegion1(start, regionSize, enabled, permissions), a)
       <==> enabled > 8 && start + regionSize <= a < start + regionSize + (enabled - 8) * (regionSize / 8)
  {
    if enabled > 8 {
      var next := start + regionSize;
      ModAdd(start, regionSize, regionSize);
      NewRegionCovers(Location(next, regionSize), next, regionSize, 1, Some((0, enabled - 8 - 1)), permissions, a);
    }
  }

  lemma Contiguous(in0: bool, in1: bool, start: nat, sub: nat, enabled: nat, a: int)
    requires in0 <==> start <= a < start + Min(enabled, 8) * sub
    requires in1 <==> enabled > 8 && start + 8 * sub <= a < start + 8 * sub + (enabled - 8) * sub
    ensures in0 || in1 <==> start <= a < start + enabled * sub
  {
  }

  // Together they expose one contiguous range starting at `start`.
  lemma AppRegionsCover(start: nat, regionSize: nat, enabled: nat, permissions: Permissions, a: int)
    requires IsPow2(regionSize) && regionSize >= 256 && start % regionSize == 0 && 1 <= enabled <= 16
    ensures Covers(AppRegion0(start, regionSize, enabled, permissions), a)
            || Covers(AppRegion1(start, regionSize, enabled, permissions), a)
       <==> start <= a < start + enabled * (regionSize / 8)
  {
    AppRegion0Covers(start, regionSize, enabled, permissions, a);
    AppRegion1Covers(start, regionSize, enabled, permissions, a);
    EncodingDecodes(start, regionSize);
    Contiguous(Covers(AppRegion0(start, regionSize, enabled, permissions), a),
               Covers(AppRegion1(start, regionSize, enabled, permissions), a),
               start, regionSize / 8, enabled, a);
  }

  // --------------------------------------------- allocate_app_memory_region

  datatype AppPlan = AppPlan(start: nat, blockSize: nat, regionSize: nat, enabled: nat)

  function BlockSize(need: nat): (size: nat)
    requires need >= 1
    ensures size >= 512 && size >= need
  {
    var po2 := CeilPow2(need);
    Log2Small(po2, need);
    if Log2(po2) < 9 then 512 else po2
  }

  // Used by BlockSize: a logarithm below nine means at most 256.
  lemma Log2Small(po2: nat, need: nat)
    requires need >= 1 && po2 == CeilPow2(need)
    ensures Log2(po2) < 9 ==> po2 <= 256
    ensures Log2(po2) >= 9 ==> po2 >= 512
  {
    CeilPow2IsPow2(need);
    var k: nat :| po2 == Pow2(k);
    Log2Pow2(k);
    Pow2Constants();
    if k < 9 { Pow2Divides(k, 8); } else { Pow2Divides(9, k); }
  }

  lemma BlockSizePow2(need: nat)
    requires need >= 1
    ensures IsPow2(BlockSize(need))
  {
    CeilPow2IsPow2(need);
    Pow2Constants();
    assert IsPow2(512) by { assert 512 == Pow2(9); }
  }

  // app * 8 / region_size + 1 subregions of a region of size `regionSize`.
  function EnabledFor(app: nat, regionSize: nat): nat
    requires regionSize > 0
  {
    app * 8 / regionSize + 1
  }

  // The branch condition of the doubling step. It does not depend on where the
  // block goes: the first sixteenth past the app memory reaches the kernel part.
  predicate Doubles(block: nat, app: nat, kernel: nat)
    requires block >= 512
  {
    EnabledFor(app, block / 2) * (block / 2 / 8) > block - kernel
  }

  function PlanApp(memStart: nat, memSize: nat, minMemory: nat, app: nat, kernel: nat): Outcome<AppPlan> {
    if memStart + memSize >= WORD || app + kernel >= WORD then Overflow else
    var need := Max(minMemory, app + kernel);
    if need == 0 || CeilPow2(need) >= WORD then Overflow
    else PlaceBlock(memStart, memStart + memSize, BlockSize(need), app, kernel)
  }

  // Where a block of the chosen size goes, and how it is split into regions.
  function PlaceBlock(memStart: nat, memEnd: nat, block: nat, app: nat, kernel: nat): Outcome<AppPlan>
    requires block >= 512
  {
    var half := block / 2;
    var start := AlignUp(memStart, half);
    if app * 8 >= WORD || start + block >= WORD
       || start + EnabledFor(app, half) * (half / 8) >= WORD then Overflow
    else
      var plan := if Doubles(block, app, kernel)
                  then AppPlan(AlignUp(start, half * 2), block, half * 2, EnabledFor(app, half * 2))
                  else AppPlan(start, block, half, EnabledFor(app, half));
      if plan.start + block >= WORD then Overflow
      else if plan.start + block > memEnd then Failed
      else if plan.enabled > 16 then Overflow
      else Done(plan)
  }

  // First address past the enabled subregions.
  function AccessEnd(plan: AppPlan): nat {
    plan.start + plan.enabled * (plan.regionSize / 8)
  }

  // The geometry every later update of the regions relies on.
  ghost predicate AppGeometry(start: nat, blockSize: nat, regionSize: nat) {
    && IsPow2(regionSize) && regionSize >= 256
    && start % regionSize == 0
    && (blockSize == regionSize || blockSize == 2 * regionSize)
  }

  lemma BlockQuarters(block: nat)
    requires IsPow2(block) && block >= 512
    ensures IsPow2(block / 2) && block / 2 >= 256 && 2 * (block / 2) == block
    ensures block / 2 / 8 == block / 16 && 16 * (block / 16) == block && block / 8 == 2 * (block / 16)
  {
    Pow2Half(block);
    Pow2Constants();
    var k := Pow2Exponent(block, 9);
    Pow2Divides(4, k);
  }

  // app * 8 / r is the number of whole subregions below `app`.
  lemma EnabledForMeaning(app: nat, regionSize: nat, sub: nat)
    requires sub > 0 && regionSize == 8 * sub
    ensures EnabledFor(app, regionSize) == app / sub + 1
    ensures app < EnabledFor(app, regionSize) * sub <= app + sub
  {
    var q := app / sub;
    assert app == q * sub + app % sub;
    assert app * 8 == q * (8 * sub) + 8 * (app % sub);
    DivModUnique(app * 8, 8 * sub, q, 8 * (app % sub));
  }

  // The doubling step makes the subregions coarser but not the block larger, so
  // the enabled range still ends above the kernel part.
  lemma DoublingStillOverlaps(app: nat, block: nat, kernel: nat, s: nat)
    requires s > 0 && block == 16 * s
    requires (app / s + 1) * s > block - kernel
    ensures (app / (2 * s) + 1) * (2 * s) > block - kernel
  {
    HalfQuotient(app, s);
    var q, q2 := app / s, app / (2 * s);
    MulLe(q + 1, q2 * 2 + 2, s);
    assert (q2 * 2 + 2) * s == (q2 + 1) * (2 * s);
  }

  lemma HalfQuotient(x: nat, s: nat)
    requires s > 0
    ensures x / s <= 2 * (x / (2 * s)) + 1
  {
    var q, q2 := x / s, x / (2 * s);
    assert q * s <= x < q2 * (2 * s) + 2 * s;
    assert (q2 * 2 + 2) * s == q2 * (2 * s) + 2 * s;
    if q > 2 * q2 + 1 { MulLe(q2 * 2 + 2, q, s); }
  }

  // How many bytes of a new block the enabled subregions reach.
  function Reach(block: nat, app: nat, kernel: nat): nat
    requires block >= 512
  {
    if Doubles(block, app, kernel) then EnabledFor(app, block) * (block / 8)
    else EnabledFor(app, block / 2) * (block / 2 / 8)
  }

  // Coarser subregions never reach less far.
  lemma CoarserReachesFurther(block: nat, app: nat)
    requires IsPow2(block) && block >= 512
    ensures EnabledFor(app, block / 2) * (block / 2 / 8) <= EnabledFor(app, block) * (block / 8)
  {
    BlockQuarters(block);
    var s := block / 16;
    EnabledForMeaning(app, block / 2, s);
    EnabledForMeaning(app, block, 2 * s);
    HalfQuotient(app, s);
    MulLe(app / s + 1, app / (2 * s) * 2 + 2, s);
    assert (app / (2 * s) * 2 + 2) * s == (app / (2 * s) + 1) * (2 * s);
  }

  // Sizes of the enabled range, with and without doubling.
  lemma EnabledBounds(block: nat, app: nat, kernel: nat)
    requires IsPow2(block) && block >= 512 && app + kernel <= block
    ensures app < EnabledFor(app, block / 2) * (block / 2 / 8)
    ensures app < EnabledFor(app, block) * (block / 8)
    ensures kernel > 0 ==> EnabledFor(app, block) <= 8 && EnabledFor(app, block) * (block / 8) <= block
    ensures kernel > 0 ==> EnabledFor(app, block / 2) <= 16 && EnabledFor(app, block / 2) * (block / 2 / 8) <= block
    ensures Doubles(block, app, kernel) ==> EnabledFor(app, block) * (block / 8) > block - kernel
  {
    BlockQuarters(block);
    var s := block / 16;
    EnabledForMeaning(app, block / 2, s);
    EnabledForMeaning(app, block, 2 * s);
    if kernel > 0 {
      SubregionIndex(app, 2 * s, 0, 7);
      MulLe(app / (2 * s) + 1, 8, 2 * s);
      SubregionIndex(app, s, 0, 15);
      MulLe(app / s + 1, 16, s);
    }
    if Doubles(block, app, kernel) { DoublingStillOverlaps(app, block, kernel, s); }
  }

  // The plan, field by field.
  lemma PlaceBlockPlan(memStart: nat, memEnd: nat, block: nat, app: nat, kernel: nat)
    requires block >= 512 && PlaceBlock(memStart, memEnd, block, app, kernel).Done?
    ensures var plan := PlaceBlock(memStart, memEnd, block, app, kernel).value;
            var (start, doubled) := (AlignUp(memStart, block / 2), Doubles(block, app, kernel));
            && plan.blockSize == block && plan.start + block <= memEnd && 1 <= plan.enabled <= 16
            && plan.start == (if doubled then AlignUp(start, block / 2 * 2) else start)
            && plan.regionSize == (if doubled then block / 2 * 2 else block / 2)
            && plan.enabled == EnabledFor(app, plan.regionSize)
  {
  }

  lemma PlaceBlockSound(memStart: nat, memEnd: nat, block: nat, app: nat, kernel: nat)
    requires IsPow2(block) && block >= 512 && app + kernel <= block
    requires PlaceBlock(memStart, memEnd, block, app, kernel).Done?
    ensures var plan := PlaceBlock(memStart, memEnd, block, app, kernel).value;
            && memStart <= plan.start && plan.start + block <= memEnd && plan.blockSize == block
            && AppGeometry(plan.start, block, plan.regionSize)
            && 1 <= plan.enabled <= 16
            && plan.start + app < AccessEnd(plan)
            && (kernel > 0 ==> AccessEnd(plan) <= plan.start + block)
            && (AccessEnd(plan) <= plan.start + block - kernel <==> !Doubles(block, app, kernel))
            && AccessEnd(plan) == plan.start + Reach(block, app, kernel)
            && (Doubles(block, app, kernel) <==> plan.regionSize == block)
  {
    var plan := PlaceBlock(memStart, memEnd, block, app, kernel).value;
    PlaceBlockPlan(memStart, memEnd, block, app, kernel);
    BlockGeometry(memStart, block, Doubles(block, app, kernel));
    BlockAccess(plan, block, app, kernel);
  }

  // Where the block may start, with and without doubling.
  lemma BlockGeometry(memStart: nat, block: nat, doubled: bool)
    requires IsPow2(block) && block >= 512
    ensures block / 2 * 2 == block
    ensures var start := AlignUp(memStart, block / 2);
            if doubled then memStart <= AlignUp(start, block) && AppGeometry(AlignUp(start, block), block, block)
            else AppGeometry(start, block, block / 2)
  {
    BlockQuarters(block);
    if doubled {
      AlignUpMultiple(AlignUp(memStart, block / 2), block);
    } else {
      AlignUpMultiple(memStart, block / 2);
    }
  }

  lemma BlockAccess(plan: AppPlan, block: nat, app: nat, kernel: nat)
    requires IsPow2(block) && block >= 512 && app + kernel <= block
    requires plan.regionSize == (if Doubles(block, app, kernel) then block else block / 2)
    requires plan.enabled == EnabledFor(app, plan.regionSize)
    ensures plan.start + app < AccessEnd(plan)
    ensures kernel > 0 ==> AccessEnd(plan) <= plan.start + block
    ensures AccessEnd(plan) <= plan.start + block - kernel <==> !Doubles(block, app, kernel)
    ensures AccessEnd(plan) == plan.start + Reach(block, app, kernel)
  {
    EnabledBounds(block, app, kernel);
  }

  // What allocation promises whenever it succeeds: a power-of-two block inside
  // the offered memory, large enough, whose first `app` bytes are accessible.
  lemma PlanAppSound(memStart: nat, memSize: nat, minMemory: nat, app: nat, kernel: nat)
    requires PlanApp(memStart, memSize, minMemory, app, kernel).Done?
    ensures var plan := PlanApp(memStart, memSize, minMemory, app, kernel).value;
            && memStart <= plan.start && plan.start + plan.blockSize <= memStart + memSize
            && plan.blockSize >= Max(minMemory, app + kernel) && IsPow2(plan.blockSize)
            && AppGeometry(plan.start, plan.blockSize, plan.regionSize)
            && 1 <= plan.enabled <= 16
            && plan.start + app < AccessEnd(plan)
            && (kernel > 0 ==> AccessEnd(plan) <= plan.start + plan.blockSize)
  {
    var need := Max(minMemory, app + kernel);
    BlockSizePow2(need);
    PlaceBlockSound(memStart, memStart + memSize, BlockSize(need), app, kernel);
  }

  predicate FirstMultiple(x: nat, d: nat, m: nat) {
    d > 0 && m % d == 0 && x <= m < x + d
  }

  // Aligning to a half and then to the whole is aligning to the whole.
  lemma AlignedTwice(x: nat, half: nat)
    requires half > 0
    ensures FirstMultiple(x, half * 2, AlignUp(AlignUp(x, half), half * 2))
  {
    var y := AlignUp(x, half);
    AlignUpMultiple(x, half);
    AlignUpMultiple(y, half * 2);
    var k := y / half;
    assert y == k * half;
    HalfStep(k, half);
  }

  // The block starts at the first multiple of its region size in the memory
  // offered; it is refused exactly when it does not fit there.
  ghost predicate PlacedFirst(r: Outcome<AppPlan>, memStart: nat, memEnd: nat, block: nat, step: nat) {
    exists start: nat ::
      && FirstMultiple(memStart, step, start) && (r.Done? <==> start + block <= memEnd)
      && (r.Done? ==> r.value.start == start && r.value.blockSize == block && r.value.regionSize == step)
  }

  lemma PlaceBlockWhere(memStart: nat, memEnd: nat, block: nat, app: nat, kernel: nat)
    requires block >= 512 && block / 2 * 2 == block && PlaceBlock(memStart, memEnd, block, app, kernel) != Overflow
    ensures PlacedFirst(PlaceBlock(memStart, memEnd, block, app, kernel), memStart, memEnd, block,
                        if Doubles(block, app, kernel) then block else block / 2)
  {
    var half := block / 2;
    if Doubles(block, app, kernel) {
      AlignedTwice(memStart, half);
      assert FirstMultiple(memStart, block, AlignUp(AlignUp(memStart, half), half * 2));
    } else {
      AlignUpMultiple(memStart, half);
      assert FirstMultiple(memStart, half, AlignUp(memStart, half));
    }
  }

  // The block is the least that holds the need, placed there.
  lemma PlanAppWhere(memStart: nat, memSize: nat, minMemory: nat, app: nat, kernel: nat)
    requires PlanApp(memStart, memSize, minMemory, app, kernel) != Overflow
    ensures exists block: nat ::
              && LeastBlock(block, Max(minMemory, app + kernel))
              && PlacedFirst(PlanApp(memStart, memSize, minMemory, app, kernel), memStart, memStart + memSize, block,
                             if Doubles(block, app, kernel) then block else block / 2)
  {
    var block := BlockSize(Max(minMemory, app + kernel));
    BlockSizeLeast(Max(minMemory, app + kernel));
    BlockQuarters(block);
    PlaceBlockWhere(memStart, memStart + memSize, block, app, kernel);
  }

  // The promise that the accessible range stays clear of the last `kernel`
  // bytes holds exactly when the doubling branch is not taken.
  lemma KernelGapIff(memStart: nat, memSize: nat, minMemory: nat, app: nat, kernel: nat)
    requires PlanApp(memStart, memSize, minMemory, app, kernel).Done?
    ensures var plan := PlanApp(memStart, memSize, minMemory, app, kernel).value;
            && (AccessEnd(plan) <= plan.start + plan.blockSize - kernel
                <==> !Doubles(BlockSize(Max(minMemory, app + kernel)), app, kernel))
            && AccessEnd(plan) == plan.start + Reach(BlockSize(Max(minMemory, app + kernel)), app, kernel)
  {
    var need := Max(minMemory, app + kernel);
    BlockSizePow2(need);
    PlaceBlockSound(memStart, memStart + memSize, BlockSize(need), app, kernel);
  }

  // A concrete request whose accessible range ends inside the kernel part:
  // 32 bytes of app memory and 464 bytes of kernel memory in 512 bytes.
  lemma KernelGapFails()
    ensures var plan := AppPlan(0x2000_0000, 512, 512, 1);
            && PlanApp(0x2000_0000, 0x1000, 496, 32, 464) == Done(plan)
            && AccessEnd(plan) == 0x2000_0040
            && plan.start + plan.blockSize - 464 == 0x2000_0030
  {
    BlockFor496();
    assert EnabledFor(32, 256) == 2 && EnabledFor(32, 512) == 1;
    assert PlaceBlock(0x2000_0000, 0x2000_1000, 512, 32, 464) == Done(AppPlan(0x2000_0000, 512, 512, 1));
  }

  // A power of two, at least 512, that holds `need` bytes, and the least such.
  ghost predicate LeastBlock(block: nat, need: nat) {
    && IsPow2(block) && block >= 512 && need <= block
    && forall other :: IsPow2(other) && other >= 512 && need <= other ==> block <= other
  }

  lemma BlockSizeLeast(need: nat)
    requires need >= 1
    ensures LeastBlock(BlockSize(need), need)
  {
    BlockSizePow2(need);
    forall other | IsPow2(other) && other >= 512 && need <= other
      ensures BlockSize(need) <= other
    {
      CeilPow2Least(need, other);
    }
  }

  // A region whose size and start make it one of its own.
  lemma NaturalRegion(unit: nat, start: nat, size: nat)
    requires 1 <= unit <= size && IsPow2(size) && start % unit == 0 && start % size == 0 && start + size < WORD
    ensures PlanRegion(unit, start, size, size) == Done(RegionPlan(start, size, start, size, None))
  {
    CountOnesPow2(size);
  }

  lemma BlockFor496()
    ensures BlockSize(496) == 512
  {
  }

  lemma Log2AtLeast9(block: nat)
    requires IsPow2(block) && block >= 512
    ensures BlockSize(block) == block && CeilPow2(block) == block
  {
    CeilPow2Least(block, block);
    Log2Small(block, block);
  }

  lemma AlignUpFixed(x: nat, d: nat)
    requires d > 0 && x % d == 0
    ensures AlignUp(x, d) == x
  {
  }

  lemma DoublesMonotone(block: nat, app: nat, kernel: nat, less: nat)
    requires block >= 512 && less <= kernel
    ensures Doubles(block, app, less) ==> Doubles(block, app, kernel)
  {
  }

  lemma PlaceBlockStable(start: nat, block: nat, app: nat, kernel: nat)
    requires IsPow2(block) && block >= 512 && start + block < WORD && app * 8 < WORD
    requires kernel > 0 && app + kernel <= block
    requires start % (block / 2) == 0 && (Doubles(block, app, kernel) ==> start % block == 0)
    ensures PlaceBlock(start, start + block, block, app, kernel)
         == Done(if Doubles(block, app, kernel) then AppPlan(start, block, block, EnabledFor(app, block))
                 else AppPlan(start, block, block / 2, EnabledFor(app, block / 2)))
  {
    EnabledBounds(block, app, kernel);
    BlockQuarters(block);
    AlignUpFixed(start, block / 2);
    if Doubles(block, app, kernel) { AlignUpFixed(start, block); }
  }

  lemma HalfAligned(start: nat, block: nat)
    requires IsPow2(block) && block >= 512 && start % block == 0
    ensures start % (block / 2) == 0
  {
    BlockQuarters(block);
    MultipleMod(2, block / 2);
    ModTrans(start, block, block / 2);
  }

  // Offering a granted block again, for at most as much kernel memory, finds
  // the same block at the same place. Restarting a process relies on this.
  lemma PlanAppStable(memStart: nat, memSize: nat, minMemory: nat, app: nat, kernel: nat, less: nat)
    requires 0 < less <= kernel
    requires PlanApp(memStart, memSize, minMemory, app, kernel).Done?
    ensures var plan := PlanApp(memStart, memSize, minMemory, app, kernel).value;
            var again := PlanApp(plan.start, plan.blockSize, plan.blockSize, app, less);
            && again.Done?
            && again.value.start == plan.start && again.value.blockSize == plan.blockSize
            && (Doubles(plan.blockSize, app, less) == Doubles(plan.blockSize, app, kernel) ==> again.value == plan)
  {
    var need := Max(minMemory, app + kernel);
    BlockSizePow2(need);
    var block := BlockSize(need);
    PlaceBlockSound(memStart, memStart + memSize, block, app, kernel);
    var plan := PlaceBlock(memStart, memStart + memSize, block, app, kernel).value;
    Log2AtLeast9(block);
    if plan.regionSize == block { HalfAligned(plan.start, block); }
    DoublesMonotone(block, app, kernel, less);
    PlaceBlockStable(plan.start, block, app, less);
  }

  // ----------------------------------------------- update_app_memory_region

  // round_up(size / sub).
  function SubregionCount(size: nat, sub: nat): nat
    requires sub > 0
  {
    (size + sub - 1) / sub
  }

  // Number of subregions to enable for a new pair of breaks.
  function PlanUpdate(region0: Option<Location>, appBreak: nat, kernelBreak: nat): Outcome<nat> {
    match region0
    case None => Failed
    case Some(Location(start, size)) =>
      if appBreak > kernelBreak then Failed
      else if appBreak < start || size < 8 then Overflow
      else
        var enabled := SubregionCount(appBreak - start, size / 8);
        var end := start + enabled * (size / 8);
        if end >= WORD then Overflow
        else if end > kernelBreak then Failed
        else if enabled == 0 || enabled > 16 then Overflow
        else Done(enabled)
  }

  lemma RoundUpDivision(x: nat, d: nat)
    requires d > 0
    ensures SubregionCount(x, d) * d == AlignUp(x, d)
    ensures SubregionCount(x, d) == 0 <==> x == 0
  {
    AlignUpMultiple(x, d);
    var q := AlignUp(x, d) / d;
    assert AlignUp(x, d) == q * d;
    DivModUnique(x + d - 1, d, q, x + d - 1 - q * d);
    if x == 0 { MultipleMod(0, d); }
  }

  // On a laid-out process the update succeeds exactly when rounding the app
  // memory up to whole subregions stays below the kernel break, underflows
  // exactly when the break is the start of the block, and otherwise changes
  // nothing; on success the enabled range is that rounding.
  lemma PlanUpdateExact(start: nat, blockSize: nat, regionSize: nat, appBreak: nat, kernelBreak: nat)
    requires AppGeometry(start, blockSize, regionSize)
    requires start <= appBreak && kernelBreak <= start + blockSize < WORD
    ensures var sub := regionSize / 8;
            var end := start + AlignUp(appBreak - start, sub);
            var r := PlanUpdate(Some(Location(start, regionSize)), appBreak, kernelBreak);
            && (r.Done? <==> start < appBreak && end <= kernelBreak)
            && (r == Overflow <==> appBreak == start && start <= kernelBreak)
            && (r.Done? ==> 1 <= r.value <= 16 && start + r.value * sub == end)
  {
    var sub := regionSize / 8;
    EncodingDecodes(start, regionSize);
    RoundUpDivision(appBreak - start, sub);
    if appBreak <= kernelBreak { EnabledAtMost16(appBreak - start, blockSize, regionSize); }
  }

  lemma EnabledAtMost16(size: nat, blockSize: nat, regionSize: nat)
    requires regionSize >= 8 && regionSize % 8 == 0 && (blockSize == regionSize || blockSize == 2 * regionSize)
    requires size <= blockSize
    ensures var sub := regionSize / 8;
            AlignUp(size, sub) <= blockSize && SubregionCount(size, sub) <= 16
  {
    var sub := regionSize / 8;
    RoundUpDivision(size, sub);
    WholeSubregions(blockSize, regionSize);
    AlignUpLeast(size, sub, blockSize);
    QuotientBound(SubregionCount(size, sub), 16, sub);
  }

  lemma WholeSubregions(blockSize: nat, regionSize: nat)
    requires regionSize >= 8 && regionSize % 8 == 0 && (blockSize == regionSize || blockSize == 2 * regionSize)
    ensures blockSize % (regionSize / 8) == 0 && blockSize <= 16 * (regionSize / 8)
  {
    MultipleMod(8, regionSize / 8);
    MultipleMod(16, regionSize / 8);
  }

  // ------------------------------------------- requests that cannot overflow

  const MODEST_UNIT: nat := 0x10_0000
  const MODEST_SIZE: nat := 0x1000_0000
  const MODEST_END: nat := 0x4000_0000

  lemma TrailingAtMost(start: nat)
    requires start > 0
    ensures Pow2(TrailingZeros(start)) <= start
  {
    TrailingZerosDivides(start);
  }

  // Room for the request wherever it has to be shifted to: twice the power of two
  // that holds it once it is rounded up to subregions.
  predicate RoomForRegion(unit: nat, memStart: nat, memSize: nat, minSize: nat)
    requires unit >= 1
  {
    var (start, size) := (AlignUp(memStart, unit), Max(minSize, unit));
    start + 2 * CeilPow2(AlignUp(size, SubregionSizeFor(start, size))) <= memStart + memSize
  }

  // In memory that ends in the first 256 MB of the address space a request never
  // leaves the 32-bit range, and it succeeds when there is room.
  lemma ModestRegion(unit: nat, memStart: nat, memSize: nat, minSize: nat)
    requires 32 <= unit <= MODEST_UNIT && minSize <= memSize && memStart + memSize <= MODEST_SIZE
    ensures PlanRegion(unit, memStart, memSize, minSize) != Overflow
    ensures RoomForRegion(unit, memStart, memSize, minSize) ==> PlanRegion(unit, memStart, memSize, minSize).Done?
  {
    var (start, size) := (AlignUp(memStart, unit), Max(minSize, unit));
    if start > 0 { TrailingAtMost(start); }
    var sub := SubregionSizeFor(start, size);
    ModestSubregions(start, size, sub, memStart + memSize);
  }

  lemma ModestSubregions(start: nat, size: nat, sub: nat, memEnd: nat)
    requires 1 <= size <= MODEST_SIZE && start < MODEST_SIZE + MODEST_UNIT && 1 <= sub <= MODEST_SIZE + MODEST_UNIT
    ensures PlanWithSubregions(start, size, sub, memEnd) != Overflow
    ensures start + 2 * CeilPow2(AlignUp(size, sub)) <= memEnd ==> PlanWithSubregions(start, size, sub, memEnd).Done?
  {
    var size1 := AlignUp(size, sub);
    SomeSubregions(size, sub);
    var underStart := AlignDown(start, 8 * sub);
    assert Quotient(start - underStart, sub) >= 0;
    ModestRounded(start, CeilPow2(size1), memEnd);
  }

  lemma SomeSubregions(size: nat, sub: nat)
    requires size >= 1 && sub >= 1
    ensures Quotient(AlignUp(size, sub), sub) >= 1
  {
    var size1 := AlignUp(size, sub);
    AlignUpMultiple(size, sub);
    if size1 < sub { DivModUnique(size1, sub, 0, size1); }
  }

  lemma ModestRounded(start: nat, size: nat, memEnd: nat)
    requires 1 <= size <= MODEST_END + 2 * MODEST_UNIT && start <= MODEST_SIZE + MODEST_UNIT
    ensures PlanRoundedUp(start, size, memEnd) != Overflow
    ensures start + 2 * size <= memEnd ==> PlanRoundedUp(start, size, memEnd).Done?
  {
    assert 0 <= start % size < size;
  }

  // A process of at most 256 MB in RAM that ends in the first gigabyte likewise; it
  // gets its block when there is room for twice that.
  lemma ModestApp(memStart: nat, memSize: nat, minMemory: nat, app: nat, kernel: nat)
    requires memStart + memSize <= MODEST_END && 0 < app + kernel <= minMemory <= MODEST_SIZE && app <= 512 && kernel > 0
    ensures PlanApp(memStart, memSize, minMemory, app, kernel) != Overflow
    ensures 2 * BlockSize(minMemory) <= memSize ==> PlanApp(memStart, memSize, minMemory, app, kernel).Done?
  {
    var block := BlockSize(minMemory);
    BlockSizePow2(minMemory);
    EnabledBounds(block, app, kernel);
    BlockQuarters(block);
    ModestBlock(memStart, memStart + memSize, block, app, kernel);
  }

  lemma ModestBlock(memStart: nat, memEnd: nat, block: nat, app: nat, kernel: nat)
    requires memStart <= MODEST_END && 512 <= block <= 2 * MODEST_SIZE && app <= 512 && block / 2 * 2 == block
    requires EnabledFor(app, block / 2) <= 16 && EnabledFor(app, block) <= 16
    requires EnabledFor(app, block / 2) * (block / 2 / 8) <= block
    ensures PlaceBlock(memStart, memEnd, block, app, kernel) != Overflow
    ensures memStart + 2 * block <= memEnd ==> PlaceBlock(memStart, memEnd, block, app, kernel).Done?
  {
    var start := AlignUp(memStart, block / 2);
    AlignUpMultiple(memStart, block / 2);
    var k := start / (block / 2);
    assert start == k * (block / 2);
    HalfStep(k, block / 2);
  }

  // A multiple of half a block is at most half a block from the next whole one.
  lemma HalfStep(k: nat, half: nat)
    requires half > 0
    ensures AlignUp(k * half, half * 2) <= k * half + half
  {
    var j := (k + 1) / 2;
    MultipleMod(j, half * 2);
    assert j * (half * 2) == (2 * j) * half;
    if 2 * j == k {
      AlignUpLeast(k * half, half * 2, j * (half * 2));
    } else {
      assert (k + 1) * half == k * half + half;
      AlignUpLeast(k * half, half * 2, j * (half * 2));
    }
  }
}
