// The MPU driver object and the per-process configuration objects it works on
// (arch/cortex-m/src/mpu.rs), with the hardware register file it writes.

module CortexMpu {
  import opened Wrappers
  import opened Powers
  import opened Region
  import opened MpuPlan
  import T = MpuTable

  // The RBAR and RASR values of one hardware slot.
  datatype Registers = Registers(base: BaseAddress, attributes: Attributes)

  function Image(regions: seq<CortexMRegion>): (image: seq<Registers>)
    ensures |image| == |regions|
    ensures forall i :: 0 <= i < |regions| ==> image[i] == Registers(regions[i].base, regions[i].attributes)
  {
    seq(|regions|, i requires 0 <= i < |regions| => Registers(regions[i].base, regions[i].attributes))
  }

  // What user mode can write under a register file.
  predicate HardwareWritable(hw: seq<Registers>, a: int) {
    exists i :: 0 <= i < |hw| && UserCanWrite(CortexMRegion(None, hw[i].base, hw[i].attributes), a)
  }

  lemma ImageWritable(regions: seq<CortexMRegion>, a: int)
    ensures HardwareWritable(Image(regions), a) <==> T.Writable(regions, a)
  {
    var hw := Image(regions);
    forall i | 0 <= i < |regions|
      ensures UserCanWrite(CortexMRegion(None, hw[i].base, hw[i].attributes), a) <==> UserCanWrite(regions[i], a)
    {
      SameRegisters(CortexMRegion(None, hw[i].base, hw[i].attributes), regions[i], a);
    }
  }

  lemma SameRegisters(r: CortexMRegion, q: CortexMRegion, a: int)
    requires r.base == q.base && r.attributes == q.attributes
    ensures UserCanWrite(r, a) <==> UserCanWrite(q, a)
  {
  }

  class CortexMConfig {
    const id: nat
    var regions: seq<CortexMRegion>
    var isDirty: bool

    function Value(): T.Config
      reads this
    {
      T.Config(id, regions, isDirty)
    }

    constructor (id: nat, numRegions: nat)
      ensures this.id == id && |regions| == numRegions && isDirty
      ensures forall i :: 0 <= i < numRegions ==> regions[i] == Empty(0)
    {
      this.id := id;
      regions := seq(numRegions, _ => Empty(0));
      isDirty := true;
    }

    method UnusedRegionNumber() returns (number: Option<nat>)
      ensures number == T.UnusedRegionNumber(regions)
    {
      for i := 0 to |regions|
        invariant |regions| > 2 && i >= 2 ==> T.FirstUnused(regions, 2) == T.FirstUnused(regions, i)
      {
        if i <= T.APP_MEMORY_REGION_MAX_NUM { continue; }
        if regions[i].location.None? { return Some(i); }
      }
      return None;
    }

    method AnyOverlap(start: nat, size: nat) returns (overlap: bool)
      ensures overlap == T.AnyOverlap(regions, start, size)
    {
      for i := 0 to |regions|
        invariant forall j :: 0 <= j < i ==> !Overlaps(regions[j], start, size)
      {
        if Overlaps(regions[i], start, size) { return true; }
      }
      return false;
    }
  }

  class Mpu {
    const numRegions: nat
    const minRegionSize: nat
    var configCount: nat
    var hardwareIsConfiguredFor: Option<nat>
    var registers: seq<Registers>

    ghost predicate Valid()
      reads this
    {
      && 2 <= numRegions <= 16 && |registers| == numRegions
      && IsPow2(minRegionSize) && minRegionSize >= 32
      && 1 <= configCount < WORD
    }

    // A configuration made for this unit, with entry i aimed at slot i.
    ghost predicate Fits(config: CortexMConfig)
      reads this, config
    {
      |config.regions| == numRegions && T.Numbered(config.regions)
    }

    // If this configuration is the one last written and it has not changed
    // since, the hardware still holds it.
    ghost predicate Synced(config: CortexMConfig)
      reads this, config
    {
      hardwareIsConfiguredFor == Some(config.id) && !config.isDirty ==> registers == Image(config.regions)
    }

    constructor (numRegions: nat, minRegionSize: nat, hardware: seq<Registers>)
      requires 2 <= numRegions <= 16 && |hardware| == numRegions
      requires IsPow2(minRegionSize) && minRegionSize >= 32
      ensures Valid() && configCount == 1 && hardwareIsConfiguredFor == None && registers == hardware
      ensures this.numRegions == numRegions && this.minRegionSize == minRegionSize
    {
      this.numRegions, this.minRegionSize := numRegions, minRegionSize;
      configCount, hardwareIsConfiguredFor, registers := 1, None, hardware;
    }

    // A configuration under an identifier never used before, or null when the
    // identifiers are exhausted.
    method NewConfig() returns (config: CortexMConfig?)
      requires Valid()
      modifies this`configCount
      ensures Valid()
      ensures config == null <==> old(configCount) == WORD - 1
      ensures config == null ==> configCount == old(configCount)
      ensures config != null ==>
                && fresh(config) && configCount == old(configCount) + 1
                && config.Value() == T.Config(old(configCount), T.EmptyRegions(numRegions), true)
    {
      var id := configCount;
      if id + 1 >= WORD { return null; }
      configCount := id + 1;
      config := new CortexMConfig(id, numRegions);
      ResetConfig(config);
    }

    method ResetConfig(config: CortexMConfig)
      modifies config
      requires |config.regions| == numRegions
      ensures config.Value() == T.Reset(old(config.Value()))
    {
      for i := 0 to numRegions
        invariant |config.regions| == numRegions
        invariant forall j :: 0 <= j < i ==> config.regions[j] == Empty(j)
      {
        config.regions := config.regions[i := Empty(i)];
      }
      config.isDirty := true;
      assert config.regions == T.EmptyRegions(numRegions);
    }

    method AllocateRegion(memStart: nat, memSize: nat, minSize: nat, permissions: Permissions, config: CortexMConfig)
      returns (region: Outcome<Location>)
      requires Valid()
      modifies config
      ensures (region, config.Value())
           == T.AllocateRegion(minRegionSize, old(config.Value()), memStart, memSize, minSize, permissions)
    {
      if memStart + memSize >= WORD { return Overflow; }
      var overlap := config.AnyOverlap(memStart, memSize);
      if overlap { return Failed; }
      var number := config.UnusedRegionNumber();
      if number.None? { return Failed; }
      match PlanRegion(minRegionSize, memStart, memSize, minSize)
      case Overflow => return Overflow;
      case Failed => return Failed;
      case Done(plan) =>
        T.PlanUsable(minRegionSize, memStart, memSize, minSize);
        config.regions := config.regions[number.value := T.RegionFromPlan(plan, number.value, permissions)];
        config.isDirty := true;
        return Done(Location(plan.start, plan.size));
    }

    method RemoveMemoryRegion(region: Location, config: CortexMConfig) returns (ok: bool)
      modifies config
      ensures (ok, config.Value()) == T.RemoveRegion(old(config.Value()), region)
    {
      var idx := 0;
      while idx < |config.regions| && config.regions[idx].location != Some(region)
        invariant 0 <= idx <= |config.regions|
        invariant T.FindLocation(config.regions, region, 0) == T.FindLocation(config.regions, region, idx)
        invariant config.Value() == old(config.Value())
      {
        idx := idx + 1;
      }
      if idx == |config.regions| { return false; }
      if idx <= T.APP_MEMORY_REGION_MAX_NUM { return false; }
      config.regions := config.regions[idx := Empty(idx)];
      config.isDirty := true;
      return true;
    }

    method AllocateAppMemoryRegion(memStart: nat, memSize: nat, minMemory: nat, app: nat, kernel: nat,
                                   permissions: Permissions, config: CortexMConfig)
      returns (block: Outcome<Location>)
      requires |config.regions| >= 2
      modifies config
      ensures (block, config.Value())
           == T.AllocateApp(old(config.Value()), memStart, memSize, minMemory, app, kernel, permissions)
    {
      if memStart + memSize >= WORD { return Overflow; }
      var overlap := config.AnyOverlap(memStart, memSize);
      if overlap { return Failed; }
      match PlanApp(memStart, memSize, minMemory, app, kernel)
      case Overflow => return Overflow;
      case Failed => return Failed;
      case Done(plan) =>
        T.AppPlanUsable(memStart, memSize, minMemory, app, kernel);
        config.regions := config.regions[0 := AppRegion0(plan.start, plan.regionSize, plan.enabled, permissions)];
        config.regions := config.regions[1 := AppRegion1(plan.start, plan.regionSize, plan.enabled, permissions)];
        config.isDirty := true;
        return Done(Location(plan.start, plan.blockSize));
    }

    method UpdateAppMemoryRegion(appBreak: nat, kernelBreak: nat, permissions: Permissions, config: CortexMConfig)
      returns (result: Outcome<()>)
      requires |config.regions| >= 2
      modifies config
      ensures (result, config.Value()) == T.UpdateApp(old(config.Value()), appBreak, kernelBreak, permissions)
    {
      match PlanUpdate(config.regions[0].location, appBreak, kernelBreak)
      case Overflow => return Overflow;
      case Failed => return Failed;
      case Done(enabled) =>
        var l := config.regions[0].location.value;
        config.regions := config.regions[0 := AppRegion0(l.start, l.size, enabled, permissions)];
        config.regions := config.regions[1 := AppRegion1(l.start, l.size, enabled, permissions)];
        config.isDirty := true;
        return Done(());
    }

    // Whether or not the write is skipped, the hardware ends up holding the
    // configuration.
    method ConfigureMpu(config: CortexMConfig)
      requires Valid() && Fits(config) && Synced(config)
      modifies this`hardwareIsConfiguredFor, this`registers, config`isDirty
      ensures Valid() && registers == Image(config.regions)
      ensures hardwareIsConfiguredFor == Some(config.id) && !config.isDirty
      ensures (hardwareIsConfiguredFor, registers, config.Value())
           == Configured(old(hardwareIsConfiguredFor), old(registers), old(config.Value()))
    {
      if hardwareIsConfiguredFor != Some(config.id) || config.isDirty {
        ghost var before := registers;
        for i := 0 to |config.regions|
          invariant |registers| == numRegions
          invariant registers == WriteAll(before, config.regions[..i])
        {
          var r := config.regions[i];
          registers := registers[r.base.region := Registers(r.base, r.attributes)];
          assert config.regions[..i + 1] == config.regions[..i] + [r];
        }
        assert config.regions[..|config.regions|] == config.regions;
        WriteAllNumbered(before, config.regions);
        hardwareIsConfiguredFor := Some(config.id);
        config.isDirty := false;
      }
    }
  }

  // --------------------------------------------------- the write, as a value

  // Writing RBAR with VALID set selects the slot named by its REGION field.
  function WriteAll(hw: seq<Registers>, regions: seq<CortexMRegion>): (hw': seq<Registers>)
    ensures |hw'| == |hw|
    decreases |regions|
  {
    if regions == [] then hw
    else
      var last := regions[|regions| - 1];
      var hw1 := WriteAll(hw, regions[..|regions| - 1]);
      if last.base.region < |hw| then hw1[last.base.region := Registers(last.base, last.attributes)] else hw1
  }

  lemma {:induction false} WriteAllPrefix(hw: seq<Registers>, regions: seq<CortexMRegion>, i: nat)
    requires T.Numbered(regions) && |regions| <= |hw|
    requires i < |hw|
    ensures WriteAll(hw, regions)[i]
         == if i < |regions| then Registers(regions[i].base, regions[i].attributes) else hw[i]
    decreases |regions|
  {
    if regions != [] {
      WriteAllPrefix(hw, regions[..|regions| - 1], i);
    }
  }

  // Because entry i is aimed at slot i, the whole table arrives in place.
  lemma WriteAllNumbered(hw: seq<Registers>, regions: seq<CortexMRegion>)
    requires T.Numbered(regions) && |hw| == |regions|
    ensures WriteAll(hw, regions) == Image(regions)
  {
    forall i | 0 <= i < |regions|
      ensures WriteAll(hw, regions)[i] == Image(regions)[i]
    {
      WriteAllPrefix(hw, regions, i);
    }
  }

  function Configured(hwFor: Option<nat>, hw: seq<Registers>, c: T.Config): (Option<nat>, seq<Registers>, T.Config) {
    if hwFor != Some(c.id) || c.dirty then (Some(c.id), WriteAll(hw, c.regions), c.(dirty := false))
    else (hwFor, hw, c)
  }

  // ------------------------------- one MPU shared by any number of processes

  datatype World = World(numRegions: nat, unit: nat, count: nat, hwFor: Option<nat>, hw: seq<Registers>,
                         configs: seq<T.Config>)

  datatype Op =
    | New
    | Reset(k: nat)
    | Allocate(k: nat, memStart: nat, memSize: nat, minSize: nat, permissions: Permissions)
    | Remove(k: nat, location: Location)
    | AllocateApp(k: nat, memStart: nat, memSize: nat, minMemory: nat, app: nat, kernel: nat, permissions: Permissions)
    | UpdateApp(k: nat, appBreak: nat, kernelBreak: nat, permissions: Permissions)
    | Configure(k: nat)

  ghost predicate WorldInv(w: World) {
    && 2 <= w.numRegions <= 16 && IsPow2(w.unit) && w.unit >= 32 && |w.hw| == w.numRegions
    && (forall k :: 0 <= k < |w.configs| ==> ConfigOk(w, w.configs[k]))
    && (forall k, l :: 0 <= k < l < |w.configs| ==> w.configs[k].id != w.configs[l].id)
    && (w.hwFor.Some? ==> w.hwFor.value < w.count)
  }

  ghost predicate ConfigOk(w: World, c: T.Config) {
    && |c.regions| == w.numRegions && T.Numbered(c.regions) && c.id < w.count
    && (w.hwFor == Some(c.id) && !c.dirty ==> w.hw == Image(c.regions))
  }

  function Target(op: Op): Option<nat> {
    if op.New? then None else Some(op.k)
  }

  // An operation on a configuration's own table; `Configure` and `New` are not.
  function Edit(w: World, c: T.Config, op: Op): T.Config
    requires IsPow2(w.unit) && w.unit >= 32 && |c.regions| >= 2
  {
    match op
    case New => c
    case Configure(_) => c
    case Reset(_) => T.Reset(c)
    case Allocate(_, memStart, memSize, minSize, permissions) =>
      T.AllocateRegion(w.unit, c, memStart, memSize, minSize, permissions).1
    case Remove(_, l) => T.RemoveRegion(c, l).1
    case AllocateApp(_, memStart, memSize, minMemory, app, kernel, permissions) =>
      T.AllocateApp(c, memStart, memSize, minMemory, app, kernel, permissions).1
    case UpdateApp(_, appBreak, kernelBreak, permissions) =>
      T.UpdateApp(c, appBreak, kernelBreak, permissions).1
  }

  function Step(w: World, op: Op): World
    requires WorldInv(w)
  {
    match op
    case New =>
      if w.count + 1 >= WORD then w
      else w.(count := w.count + 1, configs := w.configs + [T.Config(w.count, T.EmptyRegions(w.numRegions), true)])
    case Configure(k) =>
      if k >= |w.configs| then w
      else
        var (hwFor, hw, c) := Configured(w.hwFor, w.hw, w.configs[k]);
        w.(hwFor := hwFor, hw := hw, configs := w.configs[k := c])
    case _ =>
      if op.k >= |w.configs| then w
      else w.(configs := w.configs[op.k := Edit(w, w.configs[op.k], op)])
  }

  // Every edit keeps identity, length and numbering, and either changes nothing
  // or marks the configuration dirty.
  lemma EditMarksDirty(w: World, c: T.Config, op: Op)
    requires IsPow2(w.unit) && w.unit >= 32 && |c.regions| >= 2 && T.Numbered(c.regions)
    ensures var c' := Edit(w, c, op);
            && c'.id == c.id && |c'.regions| == |c.regions| && T.Numbered(c'.regions)
            && (c' == c || c'.dirty)
  {
  }

  lemma StepKeeps(w: World, op: Op)
    requires WorldInv(w)
    ensures WorldInv(Step(w, op))
  {
    if Target(op).Some? && op.k < |w.configs| {
      var c := w.configs[op.k];
      assert ConfigOk(w, c);
      if op.Configure? {
        WriteAllNumbered(w.hw, c.regions);
      } else {
        EditMarksDirty(w, c, op);
      }
    }
  }

  // After configure the hardware holds that process's table, slot by slot.
  lemma ConfigureSetsHardware(w: World, k: nat)
    requires WorldInv(w) && k < |w.configs|
    ensures var w' := Step(w, Configure(k));
            && w'.hw == Image(w'.configs[k].regions)
            && w'.configs[k].regions == w.configs[k].regions
  {
    assert ConfigOk(w, w.configs[k]);
    WriteAllNumbered(w.hw, w.configs[k].regions);
  }

  ghost function Run(w: World, ops: seq<Op>): (w': World)
    requires WorldInv(w)
    ensures WorldInv(w')
    decreases |ops|
  {
    if ops == [] then w
    else
      StepKeeps(w, ops[0]);
      Run(Step(w, ops[0]), ops[1..])
  }

  ghost function Boot(numRegions: nat, unit: nat, hw: seq<Registers>): World {
    World(numRegions, unit, 1, None, hw, [])
  }

  // For every interleaving of operations over any number of configurations
  // from power-up: configuring k leaves the hardware equal to k's table even
  // when the driver decides to skip the write.
  lemma HardwareMatches(numRegions: nat, unit: nat, hw: seq<Registers>, ops: seq<Op>, k: nat)
    requires 2 <= numRegions <= 16 && IsPow2(unit) && unit >= 32 && |hw| == numRegions
    ensures WorldInv(Boot(numRegions, unit, hw))
    ensures var w := Run(Boot(numRegions, unit, hw), ops);
            k < |w.configs| ==> Step(w, Configure(k)).hw == Image(w.configs[k].regions)
  {
    var w := Run(Boot(numRegions, unit, hw), ops);
    if k < |w.configs| { ConfigureSetsHardware(w, k); }
  }
}
