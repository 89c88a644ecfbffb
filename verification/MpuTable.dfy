// A process's table of MPU regions (CortexMConfig) as a value, the operations of
// the allocator on it, and what any sequence of them preserves.

module MpuTable {
  import opened Wrappers
  import opened Powers
  import opened Region
  import opened MpuPlan

  // Slots 0..APP_MEMORY_REGION_MAX_NUM hold application RAM.
  const APP_MEMORY_REGION_MAX_NUM: nat := 1

  datatype Config = Config(id: nat, regions: seq<CortexMRegion>, dirty: bool)

  // ------------------------------------------------------------ operations

  function EmptyRegions(n: nat): (rs: seq<CortexMRegion>)
    ensures |rs| == n && forall i :: 0 <= i < n ==> rs[i] == Empty(i)
  {
    seq(n, i requires 0 <= i < n => Empty(i))
  }

  function Reset(c: Config): Config {
    c.(regions := EmptyRegions(|c.regions|), dirty := true)
  }

  predicate AnyOverlap(regions: seq<CortexMRegion>, start: nat, size: nat) {
    exists i :: 0 <= i < |regions| && Overlaps(regions[i], start, size)
  }

  // The first slot at or above `from` that holds no region.
  function FirstUnused(regions: seq<CortexMRegion>, from: nat): (slot: Option<nat>)
    requires from <= |regions|
    ensures slot.Some? ==> from <= slot.value < |regions| && regions[slot.value].location.None?
    ensures slot.Some? ==> forall i :: from <= i < slot.value ==> regions[i].location.Some?
    ensures slot.None? ==> forall i :: from <= i < |regions| ==> regions[i].location.Some?
    decreases |regions| - from
  {
    if from == |regions| then None
    else if regions[from].location.None? then Some(from)
    else FirstUnused(regions, from + 1)
  }

  function UnusedRegionNumber(regions: seq<CortexMRegion>): Option<nat> {
    if |regions| <= APP_MEMORY_REGION_MAX_NUM + 1 then None
    else FirstUnused(regions, APP_MEMORY_REGION_MAX_NUM + 1)
  }

  function RegionFromPlan(plan: RegionPlan, slot: nat, permissions: Permissions): CortexMRegion
    requires plan.regionSize >= 2 && (plan.subregions.Some? ==> plan.subregions.value.1 < 8)
  {
    NewRegion(Location(plan.start, plan.size), plan.regionStart, plan.regionSize, slot, plan.subregions, permissions)
  }

  // What a granted plan needs to be turned into a region.
  lemma PlanUsable(unit: nat, memStart: nat, memSize: nat, minSize: nat)
    requires IsPow2(unit) && unit >= 32
    requires PlanRegion(unit, memStart, memSize, minSize).Done?
    ensures var plan := PlanRegion(unit, memStart, memSize, minSize).value;
            plan.regionSize >= 2 && (plan.subregions.Some? ==> plan.subregions.value.1 < 8)
  {
    PlanRegionExact(unit, memStart, memSize, minSize);
  }

  function AllocateRegion(unit: nat, c: Config, memStart: nat, memSize: nat, minSize: nat,
                          permissions: Permissions): (Outcome<Location>, Config)
    requires IsPow2(unit) && unit >= 32
  {
    if memStart + memSize >= WORD then (Overflow, c)
    else if AnyOverlap(c.regions, memStart, memSize) then (Failed, c)
    else match UnusedRegionNumber(c.regions)
      case None => (Failed, c)
      case Some(slot) =>
        match PlanRegion(unit, memStart, memSize, minSize)
        case Overflow => (Overflow, c)
        case Failed => (Failed, c)
        case Done(plan) =>
          PlanUsable(unit, memStart, memSize, minSize);
          (Done(Location(plan.start, plan.size)),
           c.(regions := c.regions[slot := RegionFromPlan(plan, slot, permissions)], dirty := true))
  }

  // The first slot whose logical location is exactly `l`.
  function FindLocation(regions: seq<CortexMRegion>, l: Location, from: nat): (slot: Option<nat>)
    requires from <= |regions|
    ensures slot.Some? ==> from <= slot.value < |regions| && regions[slot.value].location == Some(l)
    ensures slot.Some? ==> forall i :: from <= i < slot.value ==> regions[i].location != Some(l)
    ensures slot.None? ==> forall i :: from <= i < |regions| ==> regions[i].location != Some(l)
    decreases |regions| - from
  {
    if from == |regions| then None
    else if regions[from].location == Some(l) then Some(from)
    else FindLocation(regions, l, from + 1)
  }

  function RemoveRegion(c: Config, l: Location): (bool, Config) {
    match FindLocation(c.regions, l, 0)
    case None => (false, c)
    case Some(slot) =>
      if slot <= APP_MEMORY_REGION_MAX_NUM then (false, c)
      else (true, c.(regions := c.regions[slot := Empty(slot)], dirty := true))
  }

  function WithAppRegions(c: Config, start: nat, regionSize: nat, enabled: nat, permissions: Permissions): (c': Config)
    requires |c.regions| >= 2 && regionSize >= 2 && 1 <= enabled <= 16
    ensures |c'.regions| == |c.regions| && c'.id == c.id && c'.dirty
    ensures forall i :: 2 <= i < |c.regions| ==> c'.regions[i] == c.regions[i]
    ensures c'.regions[0] == AppRegion0(start, regionSize, enabled, permissions)
    ensures c'.regions[1] == AppRegion1(start, regionSize, enabled, permissions)
  {
    c.(regions := c.regions[0 := AppRegion0(start, regionSize, enabled, permissions)]
                           [1 := AppRegion1(start, regionSize, enabled, permissions)],
       dirty := true)
  }

  lemma AppPlanUsable(memStart: nat, memSize: nat, minMemory: nat, app: nat, kernel: nat)
    requires PlanApp(memStart, memSize, minMemory, app, kernel).Done?
    ensures var plan := PlanApp(memStart, memSize, minMemory, app, kernel).value;
            plan.regionSize >= 256 && 1 <= plan.enabled <= 16
  {
    PlanAppSound(memStart, memSize, minMemory, app, kernel);
  }

  // The block's start and size, and the table with regions 0 and 1 replaced.
  function AllocateApp(c: Config, memStart: nat, memSize: nat, minMemory: nat, app: nat, kernel: nat,
                       permissions: Permissions): (Outcome<Location>, Config)
    requires |c.regions| >= 2
  {
    if memStart + memSize >= WORD then (Overflow, c)
    else if AnyOverlap(c.regions, memStart, memSize) then (Failed, c)
    else match PlanApp(memStart, memSize, minMemory, app, kernel)
      case Overflow => (Overflow, c)
      case Failed => (Failed, c)
      case Done(plan) =>
        AppPlanUsable(memStart, memSize, minMemory, app, kernel);
        (Done(Location(plan.start, plan.blockSize)),
         WithAppRegions(c, plan.start, plan.regionSize, plan.enabled, permissions))
  }

  function UpdateApp(c: Config, appBreak: nat, kernelBreak: nat, permissions: Permissions): (Outcome<()>, Config)
    requires |c.regions| >= 2
  {
    match PlanUpdate(c.regions[0].location, appBreak, kernelBreak)
    case Overflow => (Overflow, c)
    case Failed => (Failed, c)
    case Done(enabled) =>
      var l := c.regions[0].location.value;
      (Done(()), WithAppRegions(c, l.start, l.size, enabled, permissions))
  }

  // ------------------------------------------------------------- invariant

  predicate Apart(l: Location, m: Location) {
    l.start + l.size <= m.start || m.start + m.size <= l.start
  }

  // Slot i always carries region number i, so writing the table in any order
  // sets hardware slot i from entry i.
  predicate Numbered(regions: seq<CortexMRegion>) {
    forall i :: 0 <= i < |regions| ==> regions[i].base.region == i
  }

  ghost predicate Confined(r: CortexMRegion) {
    forall a :: Covers(r, a) ==> r.location.Some? && InLocation(r.location.value, a)
  }

  ghost predicate ExactRegion(r: CortexMRegion) {
    r.location.Some? ==>
      r.location.value.size > 0 && forall a :: InLocation(r.location.value, a) ==> Covers(r, a)
  }

  predicate LocationsApart(regions: seq<CortexMRegion>) {
    forall i, j :: 0 <= i < j < |regions| && regions[i].location.Some? && regions[j].location.Some? ==>
      Apart(regions[i].location.value, regions[j].location.value)
  }

  ghost predicate TableInv(regions: seq<CortexMRegion>) {
    && Numbered(regions)
    && LocationsApart(regions)
    && (forall i :: 0 <= i < |regions| ==> Confined(regions[i]))
    && (forall i :: 0 <= i < |regions| && regions[i].location.None? ==> regions[i] == Empty(i))
    && (forall i :: 2 <= i < |regions| ==> ExactRegion(regions[i]))
  }

  lemma EmptyTableInv(n: nat)
    ensures TableInv(EmptyRegions(n))
  {
  }

  // No address is matched by two different slots.
  lemma AccessDisjoint(regions: seq<CortexMRegion>, i: nat, j: nat, a: int)
    requires TableInv(regions) && i < |regions| && j < |regions| && i != j
    ensures !(Covers(regions[i], a) && Covers(regions[j], a))
  {
  }

  lemma NewRegionExact(plan: RegionPlan, slot: nat, permissions: Permissions)
    requires Exact(plan) && plan.size > 0
    ensures var r := RegionFromPlan(plan, slot, permissions);
            Confined(r) && ExactRegion(r) && r.base.region == slot && r.location == Some(Location(plan.start, plan.size))
  {
    var r := RegionFromPlan(plan, slot, permissions);
    forall a
      ensures Covers(r, a) <==> InLocation(Location(plan.start, plan.size), a)
    {
      NewRegionCovers(Location(plan.start, plan.size), plan.regionStart, plan.regionSize, slot,
                      plan.subregions, permissions, a);
    }
  }

  lemma ReplaceSlot(regions: seq<CortexMRegion>, slot: nat, r: CortexMRegion)
    requires TableInv(regions) && 2 <= slot < |regions|
    requires r.base.region == slot && Confined(r) && ExactRegion(r) && (r.location.None? ==> r == Empty(slot))
    requires forall i :: 0 <= i < |regions| && i != slot && r.location.Some? && regions[i].location.Some? ==>
               Apart(regions[i].location.value, r.location.value)
    ensures TableInv(regions[slot := r])
  {
  }

  // A successful allocation: the granted range is inside the offered memory,
  // exactly accessible, apart from every other region; only one spare slot
  // changes. A failure changes nothing.
  lemma AllocateRegionSound(unit: nat, c: Config, memStart: nat, memSize: nat, minSize: nat, permissions: Permissions)
    requires IsPow2(unit) && unit >= 32 && TableInv(c.regions)
    ensures var (r, c') := AllocateRegion(unit, c, memStart, memSize, minSize, permissions);
            && TableInv(c'.regions) && |c'.regions| == |c.regions| && c'.id == c.id
            && (!r.Done? ==> c' == c)
            && (r.Done? ==>
                  && memStart <= r.value.start && r.value.start + r.value.size <= memStart + memSize
                  && r.value.size >= minSize
                  && UnusedRegionNumber(c.regions).Some?
                  && var slot := UnusedRegionNumber(c.regions).value;
                     && c'.dirty
                     && c'.regions == c.regions[slot := c'.regions[slot]]
                     && c'.regions[slot].location == Some(r.value)
                     && (forall a :: Covers(c'.regions[slot], a) <==> InLocation(r.value, a)))
  {
    var (r, c') := AllocateRegion(unit, c, memStart, memSize, minSize, permissions);
    if r.Done? {
      PlanRegionExact(unit, memStart, memSize, minSize);
      var plan := PlanRegion(unit, memStart, memSize, minSize).value;
      var slot := UnusedRegionNumber(c.regions).value;
      NewRegionExact(plan, slot, permissions);
      forall i | 0 <= i < |c.regions| && i != slot && c.regions[i].location.Some?
        ensures Apart(c.regions[i].location.value, r.value)
      {
        assert !Overlaps(c.regions[i], memStart, memSize);
      }
      ReplaceSlot(c.regions, slot, c'.regions[slot]);
      assert Confined(c'.regions[slot]) && ExactRegion(c'.regions[slot]);
    }
  }

  lemma RemoveRegionSound(c: Config, l: Location)
    requires TableInv(c.regions)
    ensures var (ok, c') := RemoveRegion(c, l);
            && TableInv(c'.regions) && |c'.regions| == |c.regions| && c'.id == c.id
            && (!ok ==> c' == c)
            && (ok ==> c'.dirty)
            && (ok ==> exists slot :: 2 <= slot < |c.regions| && c.regions[slot].location == Some(l)
                                      && c'.regions == c.regions[slot := Empty(slot)])
  {
  }

  // Removing the region just allocated finds its slot and undoes the allocation.
  lemma AllocateThenRemove(unit: nat, c: Config, memStart: nat, memSize: nat, minSize: nat, permissions: Permissions)
    requires IsPow2(unit) && unit >= 32 && TableInv(c.regions)
    requires AllocateRegion(unit, c, memStart, memSize, minSize, permissions).0.Done?
    ensures var (r, c') := AllocateRegion(unit, c, memStart, memSize, minSize, permissions);
            RemoveRegion(c', r.value) == (true, c.(dirty := true))
  {
    AllocateRegionSound(unit, c, memStart, memSize, minSize, permissions);
    var (r, c') := AllocateRegion(unit, c, memStart, memSize, minSize, permissions);
    var slot := UnusedRegionNumber(c.regions).value;
    var found := FindLocation(c'.regions, r.value, 0);
    assert found.Some? && found.value <= slot;
    assert ExactRegion(c'.regions[slot]);
    assert c'.regions[slot := Empty(slot)] == c.regions;
  }

  // ------------------------------------------------ application RAM regions

  // What the user-mode process may touch through the RAM regions.
  predicate AppAccessible(c: Config, a: int)
    requires |c.regions| >= 2
  {
    Covers(c.regions[0], a) || Covers(c.regions[1], a)
  }

  // ----------------------------------------------- the table of a process

  // The flash region of a process, as allocated in the first spare slot.
  function FlashRegion(unit: nat, flashStart: nat, flashLen: nat): CortexMRegion
    requires IsPow2(unit) && unit >= 32
  {
    match PlanRegion(unit, flashStart, flashLen, flashLen)
    case Done(plan) =>
      PlanUsable(unit, flashStart, flashLen, flashLen);
      RegionFromPlan(plan, APP_MEMORY_REGION_MAX_NUM + 1, ReadExecuteOnly)
    case _ => Empty(APP_MEMORY_REGION_MAX_NUM + 1)
  }

  // A flash region that could be placed lets user mode read and execute exactly
  // the process's flash, and write nothing.
  lemma FlashRegionExact(unit: nat, flashStart: nat, flashLen: nat, a: int)
    requires IsPow2(unit) && unit >= 32 && PlanRegion(unit, flashStart, flashLen, flashLen).Done?
    ensures FlashExact(FlashRegion(unit, flashStart, flashLen), flashStart, flashLen, a)
  {
    var plan := PlanRegion(unit, flashStart, flashLen, flashLen).value;
    PlanRegionExact(unit, flashStart, flashLen, flashLen);
    NewRegionExact(plan, 2, ReadExecuteOnly);
    NewRegionUser(Location(plan.start, plan.size), plan.regionStart, plan.regionSize, 2, plan.subregions,
                  ReadExecuteOnly, a);
  }

  predicate FlashExact(r: CortexMRegion, flashStart: nat, flashLen: nat, a: int) {
    var inside := flashStart <= a < flashStart + flashLen;
    && (UserCanRead(r, a) <==> inside) && (UserCanExecute(r, a) <==> inside) && !UserCanWrite(r, a)
    && (Covers(r, a) <==> inside)
  }

  // Slots 0 and 1 hold application RAM, which is not executable, or nothing.
  predicate AppSlot(r: CortexMRegion) {
    r.attributes.enable ==> r.attributes.access == ReadWrite && r.attributes.executeNever
  }

  // Application RAM, then flash, then nothing.
  predicate Shape(regions: seq<CortexMRegion>, n: nat, flash: CortexMRegion) {
    && |regions| == n >= 3 && AppSlot(regions[0]) && AppSlot(regions[1]) && regions[2] == flash
    && forall i :: 3 <= i < n ==> regions[i] == Empty(i)
  }

  // What user mode can reach through all slots together, read, write and execute.
  predicate Reachable(regions: seq<CortexMRegion>, a: int) {
    exists i :: 0 <= i < |regions| && Covers(regions[i], a)
  }

  predicate Readable(regions: seq<CortexMRegion>, a: int) {
    exists i :: 0 <= i < |regions| && UserCanRead(regions[i], a)
  }

  predicate Writable(regions: seq<CortexMRegion>, a: int) {
    exists i :: 0 <= i < |regions| && UserCanWrite(regions[i], a)
  }

  predicate Executable(regions: seq<CortexMRegion>, a: int) {
    exists i :: 0 <= i < |regions| && UserCanExecute(regions[i], a)
  }

  lemma ShapeAccess(c: Config, n: nat, flash: CortexMRegion, flashStart: nat, flashLen: nat, a: int)
    requires Shape(c.regions, n, flash) && FlashExact(flash, flashStart, flashLen, a)
    ensures Writable(c.regions, a) <==> AppAccessible(c, a)
    ensures Executable(c.regions, a) <==> flashStart <= a < flashStart + flashLen
    ensures Readable(c.regions, a) <==> AppAccessible(c, a) || flashStart <= a < flashStart + flashLen
    ensures Reachable(c.regions, a) <==> Readable(c.regions, a)
  {
    var rs := c.regions;
    assert forall i :: 3 <= i < n ==> !Covers(rs[i], a);
    forall i | i == 0 || i == 1
      ensures UserCanWrite(rs[i], a) <==> Covers(rs[i], a)
      ensures UserCanRead(rs[i], a) <==> Covers(rs[i], a)
      ensures !UserCanExecute(rs[i], a)
    {
    }
    assert UserCanExecute(rs[2], a) <==> flashStart <= a < flashStart + flashLen;
    assert UserCanRead(rs[2], a) <==> flashStart <= a < flashStart + flashLen;
  }

  // Replacing the application regions keeps the shape.
  lemma AppRegionsShape(c: Config, n: nat, flash: CortexMRegion, start: nat, regionSize: nat, enabled: nat)
    requires Shape(c.regions, n, flash) && regionSize >= 2 && 1 <= enabled <= 16
    ensures Shape(WithAppRegions(c, start, regionSize, enabled, ReadWriteOnly).regions, n, flash)
  {
  }

  lemma WithAppRegionsAccess(c: Config, start: nat, regionSize: nat, enabled: nat, permissions: Permissions, a: int)
    requires |c.regions| >= 2 && IsPow2(regionSize) && regionSize >= 256 && start % regionSize == 0 && 1 <= enabled <= 16
    ensures AppAccessible(WithAppRegions(c, start, regionSize, enabled, permissions), a)
       <==> start <= a < start + enabled * (regionSize / 8)
  {
    AppRegionsCover(start, regionSize, enabled, permissions, a);
  }

  lemma AppRegionsConfined(start: nat, regionSize: nat, enabled: nat, permissions: Permissions)
    requires IsPow2(regionSize) && regionSize >= 256 && start % regionSize == 0 && 1 <= enabled <= 16
    ensures Confined(AppRegion0(start, regionSize, enabled, permissions))
    ensures Confined(AppRegion1(start, regionSize, enabled, permissions))
  {
    var r0, r1 := AppRegion0(start, regionSize, enabled, permissions), AppRegion1(start, regionSize, enabled, permissions);
    EncodingDecodes(start, regionSize);
    MulLe(Min(enabled, 8), 8, regionSize / 8);
    MulLe(enabled - 8, 8, regionSize / 8);
    forall a
      ensures Covers(r0, a) ==> InLocation(r0.location.value, a)
      ensures Covers(r1, a) ==> r1.location.Some? && InLocation(r1.location.value, a)
    {
      AppRegion0Covers(start, regionSize, enabled, permissions, a);
      AppRegion1Covers(start, regionSize, enabled, permissions, a);
    }
  }

  lemma AppRegionsInTable(c: Config, start: nat, regionSize: nat, enabled: nat, permissions: Permissions)
    requires |c.regions| >= 2 && TableInv(c.regions)
    requires IsPow2(regionSize) && regionSize >= 256 && start % regionSize == 0 && 1 <= enabled <= 16
    requires forall i :: 2 <= i < |c.regions| && c.regions[i].location.Some? ==>
               Apart(c.regions[i].location.value, Location(start, if enabled <= 8 then regionSize else 2 * regionSize))
    ensures TableInv(WithAppRegions(c, start, regionSize, enabled, permissions).regions)
  {
    AppRegionsConfined(start, regionSize, enabled, permissions);
  }

  // Allocation of the RAM block: the block lies in the offered memory, is large
  // enough, and regions 0 and 1 expose exactly its first bytes, including the
  // initial app memory and nothing outside the block.
  lemma AllocateAppSound(c: Config, memStart: nat, memSize: nat, minMemory: nat, app: nat, kernel: nat,
                         permissions: Permissions)
    requires |c.regions| >= 2 && TableInv(c.regions) && kernel > 0
    ensures var (r, c') := AllocateApp(c, memStart, memSize, minMemory, app, kernel, permissions);
            && TableInv(c'.regions) && |c'.regions| == |c.regions| && c'.id == c.id
            && (!r.Done? ==> c' == c)
            && (r.Done? ==>
                  var plan := PlanApp(memStart, memSize, minMemory, app, kernel).value;
                  && r.value == Location(plan.start, plan.blockSize)
                  && memStart <= plan.start && plan.start + plan.blockSize <= memStart + memSize
                  && plan.blockSize >= Max(minMemory, app + kernel)
                  && plan.start + app < AccessEnd(plan) <= plan.start + plan.blockSize
                  && (forall a :: AppAccessible(c', a) <==> plan.start <= a < AccessEnd(plan))
                  && (forall i :: 2 <= i < |c.regions| ==> c'.regions[i] == c.regions[i]))
  {
    var (r, c') := AllocateApp(c, memStart, memSize, minMemory, app, kernel, permissions);
    if r.Done? {
      PlanAppSound(memStart, memSize, minMemory, app, kernel);
      var plan := PlanApp(memStart, memSize, minMemory, app, kernel).value;
      forall a
        ensures AppAccessible(c', a) <==> plan.start <= a < AccessEnd(plan)
      {
        WithAppRegionsAccess(c, plan.start, plan.regionSize, plan.enabled, permissions, a);
      }
      EncodingDecodes(plan.start, plan.regionSize);
      if plan.enabled > 8 { MulLe(9, plan.enabled, plan.regionSize / 8); }
      forall i | 2 <= i < |c.regions| && c.regions[i].location.Some?
        ensures Apart(c.regions[i].location.value,
                      Location(plan.start, if plan.enabled <= 8 then plan.regionSize else 2 * plan.regionSize))
      {
        assert !Overlaps(c.regions[i], memStart, memSize);
      }
      AppRegionsInTable(c, plan.start, plan.regionSize, plan.enabled, permissions);
    }
  }

  // -------------------------------------------------------- runs of the two

  datatype Op =
    | Allocate(memStart: nat, memSize: nat, minSize: nat, permissions: Permissions)
    | Remove(location: Location)

  function Apply(unit: nat, c: Config, op: Op): Config
    requires IsPow2(unit) && unit >= 32
  {
    match op
    case Allocate(memStart, memSize, minSize, permissions) =>
      AllocateRegion(unit, c, memStart, memSize, minSize, permissions).1
    case Remove(l) => RemoveRegion(c, l).1
  }

  function Run(unit: nat, c: Config, ops: seq<Op>): Config
    requires IsPow2(unit) && unit >= 32
    decreases |ops|
  {
    if ops == [] then c else Run(unit, Apply(unit, c, ops[0]), ops[1..])
  }

  lemma ApplyKeeps(unit: nat, c: Config, op: Op)
    requires IsPow2(unit) && unit >= 32 && TableInv(c.regions)
    ensures var c' := Apply(unit, c, op);
            && TableInv(c'.regions) && |c'.regions| == |c.regions|
            && (forall i :: 0 <= i < |c.regions| && i <= 1 ==> c'.regions[i] == c.regions[i])
  {
    match op
    case Allocate(memStart, memSize, minSize, permissions) =>
      AllocateRegionSound(unit, c, memStart, memSize, minSize, permissions);
    case Remove(l) =>
      RemoveRegionSound(c, l);
  }

  // Over every run: accessible sets of distinct regions stay disjoint, and the
  // two application RAM slots are untouched.
  lemma {:induction false} RunKeeps(unit: nat, c: Config, ops: seq<Op>)
    requires IsPow2(unit) && unit >= 32 && TableInv(c.regions)
    ensures var c' := Run(unit, c, ops);
            && TableInv(c'.regions) && |c'.regions| == |c.regions|
            && (forall i :: 0 <= i < |c.regions| && i <= 1 ==> c'.regions[i] == c.regions[i])
            && (forall i, j, a :: 0 <= i < |c.regions| && 0 <= j < |c.regions| && i != j ==>
                  !(Covers(c'.regions[i], a) && Covers(c'.regions[j], a)))
    decreases |ops|
  {
    if ops == [] {
      forall i, j, a | 0 <= i < |c.regions| && 0 <= j < |c.regions| && i != j
        ensures !(Covers(c.regions[i], a) && Covers(c.regions[j], a))
      {
        AccessDisjoint(c.regions, i, j, a);
      }
    } else {
      ApplyKeeps(unit, c, ops[0]);
      RunKeeps(unit, Apply(unit, c, ops[0]), ops[1..]);
    }
  }
}
