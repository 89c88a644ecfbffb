// ProcessStandard::create (kernel/src/process_standard.rs) on objects: a new MPU
// configuration, its regions, and the process object in its block.

module ObjectCreation {
  import opened Wrappers
  import opened Powers
  import opened Region
  import opened MpuPlan
  import opened ProcessTypes
  import opened ProcessStandards
  import opened ObjectSteps
  import C = Creation
  import H = CortexMpu

  // How create came out: the object, an error, or a kernel that has stopped.
  datatype Made = Object(process: ProcessStandard, rest: Location) | Refused(error: C.LoadError, rest: Location) | Trapped

  twostate predicate NewParts(new p: ProcessStandard)
    reads p
  {
    fresh(p) && fresh(p.tasks) && fresh(p.tasks.ring) && fresh(p.grantPointers)
  }

  // The object, or the refusal, that the function on values describes.
  ghost predicate Matches(made: Made, r: C.CreateResult, b: Board, mpu: H.Mpu, id: nat)
    reads if made.Object? then {made.process, made.process.mpu} + Footprint(made.process) else {}
  {
    match r
    case Created(q, rest) =>
      && made.Object? && made.rest == rest && made.process.board == b && made.process.mpu == mpu
      && made.process.Valid() && made.process.Value() == q
      && made.process.mpuConfig != null && made.process.mpuConfig.id == id
    case Rejected(e, rest) => made == Refused(e, rest)
    case CreateTrap => made.Trapped?
  }

  method NewFlashConfig(b: Board, mpu: H.Mpu, bin: C.Binary) returns (config: H.CortexMConfig?, flash: Outcome<Location>)
    requires ValidBoard(b) && mpu.Valid() && b.unit == mpu.minRegionSize && b.numRegions == mpu.numRegions
    modifies mpu`configCount
    ensures mpu.Valid() && old(mpu.configCount) <= mpu.configCount
    ensures config != null ==>
              && fresh(config) && config.id == old(mpu.configCount) < mpu.configCount
              && (flash, config.Value()) == C.FlashConfig(b, bin, config.id) && mpu.Fits(config) && config.isDirty
  {
    config := mpu.NewConfig();
    if config == null { return null, Failed; }
    flash := mpu.AllocateRegion(bin.flashStart, bin.flashLen, bin.flashLen, ReadExecuteOnly, config);
    C.FlashConfigSound(b, bin, config.id);
  }

  // ProcessStandard::create: a new configuration, flash, then RAM, then the
  // object in it.
  method Create(b: Board, mpu: H.Mpu, bin: C.Binary, memory: Location, pid: ProcessId, contextOk: bool)
    returns (made: Made, ghost configId: Option<nat>)
    requires ValidBoard(b) && mpu.Valid() && b.unit == mpu.minRegionSize && b.numRegions == mpu.numRegions
    modifies mpu`configCount
    ensures mpu.Valid() && old(mpu.configCount) <= mpu.configCount
    ensures configId.Some? ==> configId.value == old(mpu.configCount) < mpu.configCount
    ensures made.Object? ==> configId.Some? && NewParts(made.process) && fresh(made.process.mpuConfig)
    ensures Matches(made, C.Create(b, bin, memory, configId, pid, contextOk), b, mpu, old(mpu.configCount))
  {
    var config, flash := NewFlashConfig(b, mpu, bin);
    if config == null { return Refused(C.MpuConfigurationError, memory), None; }
    configId := Some(config.id);
    if flash == Overflow { return Trapped, configId; }
    if flash == Failed { return Refused(C.MpuInvalidFlashLength, memory), configId; }
    var left := C.SkipTo(memory, bin.fixedRam);
    if left.Err? { return Refused(left.error, memory), configId; }
    made := Place(b, mpu, bin, left.value, config, pid, contextOk);
  }

  // The process object with its grant table and task ring.
  method Furnish(b: Board, mpu: H.Mpu, bin: C.Binary, block: Location, config: H.CortexMConfig, pid: ProcessId)
    returns (p: ProcessStandard)
    requires mpu.Valid() && b.unit == mpu.minRegionSize && mpu.Fits(config) && mpu.Synced(config)
    requires 0 <= C.InitialKernelBreak(b, C.NewImage(b, bin, block)) < WORD
    ensures NewParts(p) && p.board == b && p.mpu == mpu && p.mpuConfig == config
    ensures p.Valid() && p.Value() == C.NewProcess(b, bin, block, config.Value(), pid)
  {
    var grants := new GrantEntry[|b.grants|](_ => GrantEntry(0, 0));
    var ring := new Task[CALLBACK_LEN](_ => Ipc(ProcessId(0, 0), false));
    p := new ProcessStandard(b, bin, block, mpu, config, pid, grants, ring);
  }

  method Place(b: Board, mpu: H.Mpu, bin: C.Binary, left: Location, config: H.CortexMConfig, pid: ProcessId, contextOk: bool)
    returns (made: Made)
    requires ValidBoard(b) && mpu.Valid() && b.unit == mpu.minRegionSize
    requires mpu.Fits(config) && config.isDirty
    modifies config
    ensures made.Object? ==> made.process.mpuConfig == config && NewParts(made.process)
    ensures Matches(made, C.PlaceProcess(b, bin, left, old(config.Value()), pid, contextOk), b, mpu, config.id)
  {
    ghost var c := config.Value();
    var minTotal := C.MinTotal(b, bin);
    if minTotal >= WORD { return Trapped; }
    var block := mpu.AllocateAppMemoryRegion(left.start, left.size, minTotal, INITIAL_APP_BYTES, C.ReservedBytes(b),
                                             ReadWriteOnly, config);
    if block == Overflow { return Trapped; }
    if block == Failed { return Refused(C.NotEnoughMemory, left); }
    var l := block.value;
    C.BlockBelowWord(b, bin, left, c, minTotal);
    if bin.fixedRam.Some? && l.start != bin.fixedRam.value {
      return Refused(C.MemoryAddressMismatch(l.start, bin.fixedRam.value), left);
    }
    if C.InitialKernelBreak(b, C.NewImage(b, bin, l)) < 0 || C.End(left) < C.End(l) { return Trapped; }
    var unused := Location(C.End(l), C.End(left) - C.End(l));
    if !contextOk { return Refused(C.InternalError, unused); }
    var p := Furnish(b, mpu, bin, l, config, pid);
    return Object(p, unused);
  }
}
