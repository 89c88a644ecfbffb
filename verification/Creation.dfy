// Creating a process from a binary (ProcessStandard::create, the layout part) and
// why re-creating its region table on restart always works.

module Creation {
  import opened Wrappers
  import opened Powers
  import opened Region
  import opened MpuPlan
  import opened ProcessTypes
  import opened ProcessSpec
  import opened GrantTable
  import opened Syscalls
  import opened GrantRanges
  import opened ProcessRuns
  import M = ProcessMemory
  import T = MpuTable

  // What create reads from a process binary and its header.
  datatype Binary = Binary(flashStart: nat, flashLen: nat, protectedSize: nat, appStart: nat, initFn: nat,
                           ramRequested: nat, fixedRam: Option<nat>)

  datatype LoadError =
    | NotEnoughMemory
    | MpuInvalidFlashLength
    | MpuConfigurationError
    | MemoryAddressMismatch(actual: int, expected: nat)
    | InternalError

  // Both outcomes return the memory left for later processes.
  datatype CreateResult =
    | Created(process: Process, rest: Location)
    | Rejected(error: LoadError, rest: Location)
    | CreateTrap

  // Grant pointer table, task buffer and process struct.
  function KernelBytes(b: Board): nat { GRANT_ENTRY_BYTES * |b.grants| + b.taskBytes + b.structBytes }

  // create reserves one more word in case the break has to be word-aligned.
  function ReservedBytes(b: Board): nat { KernelBytes(b) + USIZE_BYTES }

  function End(l: Location): nat { l.start + l.size }

  // Skip memory so that it starts at the address the binary was linked for.
  function SkipTo(memory: Location, fixedRam: Option<nat>): Result<Location, LoadError> {
    match fixedRam
    case None => Ok(memory)
    case Some(f) =>
      if f == memory.start then Ok(memory)
      else if f > memory.start then
        if f - memory.start > memory.size then Err(MemoryAddressMismatch(End(memory) - 1, f))
        else Ok(Location(f, memory.size - (f - memory.start)))
      else Err(MemoryAddressMismatch(memory.start, f))
  }

  function NewImage(b: Board, bin: Binary, block: Location): Image {
    Image(block.start, block.size, KernelBytes(b),
          bin.flashStart, bin.flashLen, bin.protectedSize, bin.appStart, bin.initFn)
  }

  // The kernel break of a new process: the end of its block, rounded down to a
  // word, below the grant table, the task buffer and the process struct.
  function InitialKernelBreak(b: Board, m: Image): int {
    var end := m.memStart + m.memLen;
    end - end % USIZE_BYTES - GRANT_ENTRY_BYTES * |b.grants| - b.taskBytes - b.structBytes
  }

  function NewProcess(b: Board, bin: Binary, block: Location, c: MpuConfig, pid: ProcessId): Process
    requires InitialKernelBreak(b, NewImage(b, bin, block)) >= 0
  {
    var m := NewImage(b, bin, block);
    var p := Process(m, pid, Yielded, m.memStart + INITIAL_APP_BYTES, InitialKernelBreak(b, m), m.memStart, Some(c),
                     NullGrants(|b.grants|), seq(|b.grants|, _ => GrantMemory([], [], [])), [], 0, None);
    p.(tasks := [InitTask(p)])
  }

  // A new configuration with the flash region in it.
  function FlashConfig(b: Board, bin: Binary, id: nat): (Outcome<Location>, MpuConfig)
    requires IsPow2(b.unit) && b.unit >= 32 && b.numRegions >= 3
  {
    T.AllocateRegion(b.unit, T.Config(id, T.EmptyRegions(b.numRegions), true), bin.flashStart, bin.flashLen, bin.flashLen,
                     ReadExecuteOnly)
  }

  // `configId` is the identifier of a new MPU configuration, if any is left.
  function Create(b: Board, bin: Binary, memory: Location, configId: Option<nat>, pid: ProcessId, contextOk: bool)
    : CreateResult
    requires IsPow2(b.unit) && b.unit >= 32 && b.numRegions >= 3
  {
    if configId.None? then Rejected(MpuConfigurationError, memory)
    else
      var (flash, c1) := FlashConfig(b, bin, configId.value);
      if flash == Overflow then CreateTrap
      else if flash == Failed then Rejected(MpuInvalidFlashLength, memory)
      else match SkipTo(memory, bin.fixedRam)
        case Err(e) => Rejected(e, memory)
        case Ok(left) => PlaceProcess(b, bin, left, c1, pid, contextOk)
  }

  // Bytes create asks the allocator for.
  function MinTotal(b: Board, bin: Binary): nat { Max(bin.ramRequested, INITIAL_APP_BYTES) + ReservedBytes(b) }

  // Whether the block this binary will get is roomy: it depends only on the
  // board and on the RAM its header asks for.
  predicate RoomyFor(b: Board, bin: Binary) {
    M.Roomy(NewImage(b, bin, Location(0, BlockSize(MinTotal(b, bin)))))
  }

  function PlaceProcess(b: Board, bin: Binary, left: Location, c1: MpuConfig, pid: ProcessId, contextOk: bool)
    : CreateResult
  {
    var minTotal := MinTotal(b, bin);
    if minTotal >= WORD then CreateTrap
    else
      var (block, c2) :=
        T.AllocateApp(c1, left.start, left.size, minTotal, INITIAL_APP_BYTES, ReservedBytes(b), ReadWriteOnly);
      if block == Overflow then CreateTrap
      else if block == Failed then Rejected(NotEnoughMemory, left)
      else FinishCreate(b, bin, left, block.value, c2, pid, contextOk)
  }

  function FinishCreate(b: Board, bin: Binary, left: Location, block: Location, c: MpuConfig, pid: ProcessId,
                        contextOk: bool): CreateResult
  {
    if bin.fixedRam.Some? && block.start != bin.fixedRam.value then
      Rejected(MemoryAddressMismatch(block.start, bin.fixedRam.value), left)
    else if InitialKernelBreak(b, NewImage(b, bin, block)) < 0 || End(left) < End(block) then CreateTrap
    else
      var unused := Location(End(block), End(left) - End(block));
      if !contextOk then Rejected(InternalError, unused)
      else Created(NewProcess(b, bin, block, c, pid), unused)
  }

  // ------------------------------------------------------------- soundness

  // A tail of the memory offered.
  predicate TailOf(rest: Location, memory: Location) {
    memory.start <= rest.start && End(rest) == End(memory)
  }

  lemma SkipToTail(memory: Location, fixedRam: Option<nat>)
    ensures SkipTo(memory, fixedRam).Ok? ==> TailOf(SkipTo(memory, fixedRam).value, memory)
  {
  }

  lemma WordAligned(m: Image)
    requires IsPow2(m.memLen) && m.memLen >= 512 && m.memStart % (m.memLen / 2) == 0
    ensures (m.memStart + m.memLen) % USIZE_BYTES == 0
  {
    BlockQuarters(m.memLen);
    Pow2Constants();
    assert IsPow2(4) by { assert 4 == Pow2(2); }
    Pow2DividesByValue(4, m.memLen / 2);
    Pow2DividesByValue(4, m.memLen);
    ModTrans(m.memStart, m.memLen / 2, 4);
    ModAdd(m.memStart, m.memLen, 4);
  }

  lemma GeometryHalf(start: nat, block: nat, regionSize: nat)
    requires IsPow2(block) && block >= 512 && AppGeometry(start, block, regionSize)
    ensures start % (block / 2) == 0
  {
    if block == regionSize { HalfAligned(start, block); }
  }

  // Exactly what creation exposes of a block.
  ghost predicate CreateExposes(m: Image, c: MpuConfig)
    requires m.memLen >= 512
  {
    M.Exposes(c, m.memStart, m.memStart + Reach(m.memLen, INITIAL_APP_BYTES, m.kernelBytes + USIZE_BYTES))
  }

  // The block of an accepted request, and what the MPU exposes of it.
  lemma PlacedBlock(b: Board, bin: Binary, left: Location, c1: MpuConfig, minTotal: nat)
    requires b.structBytes > 0 && T.TableInv(c1.regions) && minTotal >= INITIAL_APP_BYTES + ReservedBytes(b)
    requires bin.flashStart + bin.flashLen < WORD
    requires T.AllocateApp(c1, left.start, left.size, minTotal, INITIAL_APP_BYTES, ReservedBytes(b), ReadWriteOnly).0.Done?
    ensures var (r, c2) :=
              T.AllocateApp(c1, left.start, left.size, minTotal, INITIAL_APP_BYTES, ReservedBytes(b), ReadWriteOnly);
            var m := NewImage(b, bin, r.value);
            && left.start <= r.value.start && End(r.value) <= End(left) && r.value.size == BlockSize(minTotal)
            && M.GoodImage(m) && |c2.regions| >= 2 && M.Laid(c2, m)
            && m.memStart % (m.memLen / 2) == 0
            && CreateExposes(m, c2) && exists end: nat :: M.FreshEnd(m, c2, end)
  {
    var (app, kernel) := (INITIAL_APP_BYTES, ReservedBytes(b));
    T.AllocateAppSound(c1, left.start, left.size, minTotal, app, kernel, ReadWriteOnly);
    PlanAppSound(left.start, left.size, minTotal, app, kernel);
    KernelGapIff(left.start, left.size, minTotal, app, kernel);
    var plan := PlanApp(left.start, left.size, minTotal, app, kernel).value;
    var (r, c2) := T.AllocateApp(c1, left.start, left.size, minTotal, app, kernel, ReadWriteOnly);
    assert BlockSize(Max(minTotal, app + kernel)) == plan.blockSize;
    GeometryHalf(plan.start, plan.blockSize, plan.regionSize);
    assert M.FreshEnd(NewImage(b, bin, r.value), c2, AccessEnd(plan));
  }

  lemma BlockBelowWord(b: Board, bin: Binary, left: Location, c1: MpuConfig, minTotal: nat)
    requires T.AllocateApp(c1, left.start, left.size, minTotal, INITIAL_APP_BYTES, ReservedBytes(b), ReadWriteOnly).0.Done?
    ensures var l := T.AllocateApp(c1, left.start, left.size, minTotal, INITIAL_APP_BYTES, ReservedBytes(b),
                                   ReadWriteOnly).0.value;
            InitialKernelBreak(b, NewImage(b, bin, l)) < WORD
  {
  }

  lemma NewProcessInv(b: Board, bin: Binary, block: Location, c: MpuConfig, pid: ProcessId)
    requires ValidBoard(b)
    requires var m := NewImage(b, bin, block);
             && M.GoodImage(m) && M.Laid(c, m) && m.memStart % (m.memLen / 2) == 0
             && CreateExposes(m, c) && exists end: nat :: M.FreshEnd(m, c, end)
    ensures InitialKernelBreak(b, NewImage(b, bin, block)) >= 0
    ensures var p := NewProcess(b, bin, block, c, pid);
            M.FreshBreaks(p) && RecInv(b, Record(p, [], [], map[]), pid.identifier + 1)
  {
    WordAligned(NewImage(b, bin, block));
    var p := NewProcess(b, bin, block, c, pid);
    M.FreshLayout(p);
    RebornQueue(b, p);
    RebornRanges(b, p);
    assert forall id :: Saved(p, id) == NULL_UPCALL;
  }

  // A new process is isolated if and only if its block is roomy; otherwise the
  // first of the kernel's structures is exposed.
  ghost predicate ExposureExact(p: Process) {
    && p.image.memLen >= 512 && p.mpu.Some?
    && (M.Isolated(p) <==> M.Roomy(p.image))
    && (T.AppAccessible(p.mpu.value, p.kernelBreak) <==> !M.Roomy(p.image))
  }

  lemma FreshExposure(p: Process)
    requires M.GoodImage(p.image) && M.FreshBreaks(p) && p.mpu.Some? && CreateExposes(p.image, p.mpu.value)
    ensures ExposureExact(p)
  {
    var (len, kernel) := (p.image.memLen, p.image.kernelBytes + USIZE_BYTES);
    EnabledBounds(len, INITIAL_APP_BYTES, kernel);
    M.IsolatedIff(p, p.image.memStart + Reach(len, INITIAL_APP_BYTES, kernel));
  }

  // What a new process is made of, field by field: the binary's flash and entry
  // point, the kernel's structures, the call of the entry point, nothing granted,
  // and the least block that holds the RAM asked for, the structures and a word.
  ghost predicate MadeOf(b: Board, bin: Binary, p: Process) {
    var (m, kernel) := (p.image, GRANT_ENTRY_BYTES * |b.grants| + b.taskBytes + b.structBytes);
    && m.flashStart == bin.flashStart && m.flashLen == bin.flashLen && m.protectedSize == bin.protectedSize
    && m.appStart == bin.appStart && m.initFn == bin.initFn && m.kernelBytes == kernel
    && LeastBlock(m.memLen, Max(bin.ramRequested, INITIAL_APP_BYTES) + kernel + USIZE_BYTES)
    && m.memStart + bin.ramRequested <= p.kernelBreak == m.memStart + m.memLen - kernel
    && p.state == Yielded && p.restartCount == 0 && p.completionCode == None
    && p.tasks == [Call(FunctionCall(Kernel, bin.appStart, m.memStart, m.memLen, m.memStart + 32, bin.initFn))]
    && |p.grants| == |b.grants| && forall g :: 0 <= g < |p.grants| ==> p.grants[g] == GrantEntry(0, 0)
  }

  // Everything a successful creation establishes, and what every failure
  // leaves: a tail of the offered memory, never overlapping the new block.
  ghost predicate CreateOutcome(b: Board, bin: Binary, memory: Location, pid: ProcessId, r: CreateResult) {
    && (r.Rejected? ==> TailOf(r.rest, memory))
    && (r.Created? ==>
          && TailOf(r.rest, memory)
          && memory.start <= r.process.image.memStart && MemEnd(r.process) <= r.rest.start
          && (bin.fixedRam.Some? ==> r.process.image.memStart == bin.fixedRam.value)
          && r.process.pid == pid && M.FreshBreaks(r.process) && MadeOf(b, bin, r.process)
          && RecInv(b, Record(r.process, [], [], map[]), pid.identifier + 1)
          && ExposureExact(r.process) && (M.Roomy(r.process.image) <==> RoomyFor(b, bin)))
  }

  lemma FinishSound(b: Board, bin: Binary, left: Location, block: Location, c: MpuConfig, pid: ProcessId, contextOk: bool)
    requires ValidBoard(b)
    requires left.start <= block.start && End(block) <= End(left) && block.size == BlockSize(MinTotal(b, bin))
    requires var m := NewImage(b, bin, block);
             && M.GoodImage(m) && M.Laid(c, m) && m.memStart % (m.memLen / 2) == 0
             && CreateExposes(m, c) && exists end: nat :: M.FreshEnd(m, c, end)
    ensures CreateOutcome(b, bin, left, pid, FinishCreate(b, bin, left, block, c, pid, contextOk))
    ensures !FinishCreate(b, bin, left, block, c, pid, contextOk).CreateTrap?
  {
    NewProcessInv(b, bin, block, c, pid);
    FreshExposure(NewProcess(b, bin, block, c, pid));
    NewMadeOf(b, bin, block, c, pid);
  }

  lemma NewMadeOf(b: Board, bin: Binary, block: Location, c: MpuConfig, pid: ProcessId)
    requires ValidBoard(b) && block.size == BlockSize(MinTotal(b, bin))
    requires var m := NewImage(b, bin, block); IsPow2(m.memLen) && m.memLen >= 512 && m.memStart % (m.memLen / 2) == 0
    ensures InitialKernelBreak(b, NewImage(b, bin, block)) >= 0 && MadeOf(b, bin, NewProcess(b, bin, block, c, pid))
  {
    WordAligned(NewImage(b, bin, block));
    BlockSizeLeast(MinTotal(b, bin));
  }

  lemma PlaceSound(b: Board, bin: Binary, left: Location, c1: MpuConfig, pid: ProcessId, contextOk: bool)
    requires ValidBoard(b) && T.TableInv(c1.regions) && bin.flashStart + bin.flashLen < WORD
    ensures CreateOutcome(b, bin, left, pid, PlaceProcess(b, bin, left, c1, pid, contextOk))
    ensures PlaceProcess(b, bin, left, c1, pid, contextOk).CreateTrap? ==>
              || MinTotal(b, bin) >= WORD || End(left) >= WORD
              || PlanApp(left.start, left.size, MinTotal(b, bin), INITIAL_APP_BYTES, ReservedBytes(b)) == Overflow
  {
    var minTotal := MinTotal(b, bin);
    if minTotal < WORD {
      var (block, c2) :=
        T.AllocateApp(c1, left.start, left.size, minTotal, INITIAL_APP_BYTES, ReservedBytes(b), ReadWriteOnly);
      if block.Done? {
        PlacedBlock(b, bin, left, c1, minTotal);
        FinishSound(b, bin, left, block.value, c2, pid, contextOk);
      }
    }
  }

  lemma FlashConfigSound(b: Board, bin: Binary, id: nat)
    requires ValidBoard(b)
    ensures var (flash, c1) := FlashConfig(b, bin, id);
            && T.TableInv(c1.regions) && |c1.regions| == b.numRegions && c1.id == id && c1.dirty
            && (flash.Done? ==> bin.flashStart + bin.flashLen < WORD)
  {
    T.EmptyTableInv(b.numRegions);
    T.AllocateRegionSound(b.unit, T.Config(id, T.EmptyRegions(b.numRegions), true), bin.flashStart, bin.flashLen,
                          bin.flashLen, ReadExecuteOnly);
  }

  lemma CreateSound(b: Board, bin: Binary, memory: Location, configId: Option<nat>, pid: ProcessId, contextOk: bool)
    requires ValidBoard(b)
    ensures CreateOutcome(b, bin, memory, pid, Create(b, bin, memory, configId, pid, contextOk))
  {
    if configId.Some? {
      FlashConfigSound(b, bin, configId.value);
      var (flash, c1) := FlashConfig(b, bin, configId.value);
      SkipToTail(memory, bin.fixedRam);
      if flash.Done? && SkipTo(memory, bin.fixedRam).Ok? {
        PlaceSound(b, bin, SkipTo(memory, bin.fixedRam).value, c1, pid, contextOk);
      }
    }
  }

  // What each refusal means, and which memory is left after it.
  lemma RefusedWhy(b: Board, bin: Binary, memory: Location, configId: Option<nat>, pid: ProcessId, contextOk: bool)
    requires ValidBoard(b) && Create(b, bin, memory, configId, pid, contextOk).Rejected?
    ensures var (e, rest) := (Create(b, bin, memory, configId, pid, contextOk).error,
                              Create(b, bin, memory, configId, pid, contextOk).rest);
            match e
            case MpuConfigurationError => configId.None? && rest == memory
            case MpuInvalidFlashLength =>
              PlanRegion(b.unit, bin.flashStart, bin.flashLen, bin.flashLen) == Failed && rest == memory
            case MemoryAddressMismatch(actual, expected) =>
              && bin.fixedRam == Some(expected) && actual != expected
              && (expected < memory.start ==> actual == memory.start && rest == memory)
              && (expected > End(memory) ==> actual == End(memory) - 1 && rest == memory)
              && (memory.start <= expected <= End(memory) ==> actual > expected && rest.start == expected)
            case NotEnoughMemory => !bin.fixedRam.Some? || rest.start == bin.fixedRam.value
            case InternalError => !contextOk && rest.start > memory.start
  {
    if configId.Some? {
      FlashConfigSound(b, bin, configId.value);
      SkipToTail(memory, bin.fixedRam);
      var (flash, c1) := FlashConfig(b, bin, configId.value);
      if flash == Failed {
        assert !T.AnyOverlap(T.EmptyRegions(b.numRegions), bin.flashStart, bin.flashLen);
      } else if flash.Done? && SkipTo(memory, bin.fixedRam).Ok? {
        PlaceRefusedWhy(b, bin, SkipTo(memory, bin.fixedRam).value, c1, pid, contextOk);
      }
    }
  }

  lemma PlaceRefusedWhy(b: Board, bin: Binary, left: Location, c1: MpuConfig, pid: ProcessId, contextOk: bool)
    requires ValidBoard(b) && T.TableInv(c1.regions) && bin.flashStart + bin.flashLen < WORD
    requires PlaceProcess(b, bin, left, c1, pid, contextOk).Rejected?
    ensures var (e, rest) := (PlaceProcess(b, bin, left, c1, pid, contextOk).error,
                              PlaceProcess(b, bin, left, c1, pid, contextOk).rest);
            match e
            case MpuConfigurationError => false
            case MpuInvalidFlashLength => false
            case MemoryAddressMismatch(actual, expected) =>
              bin.fixedRam == Some(expected) && actual != expected && actual >= left.start && rest == left
            case NotEnoughMemory => rest == left
            case InternalError => !contextOk && rest.start > left.start
  {
    var minTotal := MinTotal(b, bin);
    if minTotal < WORD
       && T.AllocateApp(c1, left.start, left.size, minTotal, INITIAL_APP_BYTES, ReservedBytes(b), ReadWriteOnly).0.Done? {
      PlacedBlock(b, bin, left, c1, minTotal);
    }
  }

  // Flash in the first 256 MB, RAM in the first gigabyte, and a process of at
  // most 256 MB.
  predicate Modest(b: Board, bin: Binary, memory: Location) {
    && b.unit <= MODEST_UNIT && bin.flashStart + bin.flashLen <= MODEST_SIZE
    && End(memory) <= MODEST_END && MinTotal(b, bin) <= MODEST_SIZE
  }

  // Creating such a process never leaves the 32-bit range.
  lemma ModestNeverTraps(b: Board, bin: Binary, memory: Location, configId: Option<nat>, pid: ProcessId, contextOk: bool)
    requires ValidBoard(b) && Modest(b, bin, memory)
    ensures !Create(b, bin, memory, configId, pid, contextOk).CreateTrap?
  {
    ModestRegion(b.unit, bin.flashStart, bin.flashLen, bin.flashLen);
    SkipToTail(memory, bin.fixedRam);
    if configId.Some? && SkipTo(memory, bin.fixedRam).Ok? {
      FlashConfigSound(b, bin, configId.value);
      var (flash, c1) := FlashConfig(b, bin, configId.value);
      var left := SkipTo(memory, bin.fixedRam).value;
      ModestApp(left.start, left.size, MinTotal(b, bin), INITIAL_APP_BYTES, ReservedBytes(b));
      if flash.Done? { PlaceSound(b, bin, left, c1, pid, contextOk); }
    }
  }

  // ------------------------------------------------- a process, in the concrete

  // 460 bytes of kernel structures and a word leave 48 of a block of 512, and 64
  // are exposed.
  const TIGHT_BOARD: Board := Board(32, 8, 0, 460, [])
  const TIGHT_BINARY: Binary := Binary(0x1_0000, 0x1000, 0, 0x1_0000, 0x1_0000, 0, None)
  const TIGHT_RAM: Location := Location(0x2000_0000, 0x1000)

  lemma FlashPlaced(b: Board, bin: Binary, memory: Location, id: nat)
    requires ValidBoard(b) && bin.flashStart + bin.flashLen < WORD && bin.flashStart + bin.flashLen <= memory.start
    requires PlanRegion(b.unit, bin.flashStart, bin.flashLen, bin.flashLen).Done?
    ensures var (flash, c1) := FlashConfig(b, bin, id);
            flash.Done? && T.TableInv(c1.regions) && !T.AnyOverlap(c1.regions, memory.start, memory.size)
  {
    T.EmptyTableInv(b.numRegions);
    T.AllocateRegionSound(b.unit, T.Config(id, T.EmptyRegions(b.numRegions), true), bin.flashStart, bin.flashLen,
                          bin.flashLen, ReadExecuteOnly);
  }

  lemma RamPlacedNew(b: Board, bin: Binary, memory: Location, c1: MpuConfig, pid: ProcessId)
    requires ValidBoard(b) && bin.fixedRam.None? && MinTotal(b, bin) < WORD && End(memory) < WORD
    requires bin.flashStart + bin.flashLen < WORD && T.TableInv(c1.regions) && !T.AnyOverlap(c1.regions, memory.start, memory.size)
    requires PlanApp(memory.start, memory.size, MinTotal(b, bin), INITIAL_APP_BYTES, ReservedBytes(b)).Done?
    ensures PlaceProcess(b, bin, memory, c1, pid, true).Created?
  {
    PlaceSound(b, bin, memory, c1, pid, true);
  }

  // When both plans come off, flash is apart from RAM and the architecture
  // agrees, the process is created.
  lemma CreatedWhen(b: Board, bin: Binary, memory: Location, id: nat, pid: ProcessId)
    requires ValidBoard(b) && bin.fixedRam.None? && MinTotal(b, bin) < WORD && End(memory) < WORD
    requires bin.flashStart + bin.flashLen < WORD && bin.flashStart + bin.flashLen <= memory.start
    requires PlanRegion(b.unit, bin.flashStart, bin.flashLen, bin.flashLen).Done?
    requires PlanApp(memory.start, memory.size, MinTotal(b, bin), INITIAL_APP_BYTES, ReservedBytes(b)).Done?
    ensures Create(b, bin, memory, Some(id), pid, true).Created?
  {
    FlashPlaced(b, bin, memory, id);
    RamPlacedNew(b, bin, memory, FlashConfig(b, bin, id).1, pid);
  }

  lemma TightIsNotRoomy()
    ensures MinTotal(TIGHT_BOARD, TIGHT_BINARY) == 496 && ReservedBytes(TIGHT_BOARD) == 464
    ensures !RoomyFor(TIGHT_BOARD, TIGHT_BINARY)
  {
    BlockFor496();
    assert EnabledFor(32, 256) == 2 && EnabledFor(32, 512) == 1;
    assert Reach(512, 32, 464) == 64;
  }

  lemma TightProcess(id: nat, pid: ProcessId)
    ensures ValidBoard(TIGHT_BOARD) && !RoomyFor(TIGHT_BOARD, TIGHT_BINARY)
    ensures Create(TIGHT_BOARD, TIGHT_BINARY, TIGHT_RAM, Some(id), pid, true).Created?
  {
    assert IsPow2(32) && IsPow2(0x1000) by {
      Pow2Constants();
      assert 32 == Pow2(5) && 0x1000 == Pow2(12);
    }
    TightIsNotRoomy();
    NaturalRegion(32, 0x1_0000, 0x1000);
    KernelGapFails();
    CreatedWhen(TIGHT_BOARD, TIGHT_BINARY, TIGHT_RAM, id, pid);
  }
}

module Restart {
  import opened Wrappers
  import opened Powers
  import opened Region
  import opened MpuPlan
  import opened ProcessTypes
  import opened ProcessSpec
  import opened GrantTable
  import opened Syscalls
  import opened GrantRanges
  import opened ProcessRuns
  import opened Creation
  import L = GrantLayout
  import M = ProcessMemory
  import T = MpuTable

  // What creation leaves behind for every later reset: the block is aligned for
  // itself, and the flash region can be placed again without touching it.
  ghost predicate Restartable(b: Board, m: Image)
    requires IsPow2(b.unit) && b.unit >= 32
  {
    && M.GoodImage(m)
    && m.memStart % (m.memLen / 2) == 0
    && (Doubles(m.memLen, INITIAL_APP_BYTES, m.kernelBytes) ==> m.memStart % m.memLen == 0)
    && m.flashStart + m.flashLen < WORD
    && PlanRegion(b.unit, m.flashStart, m.flashLen, m.flashLen).Done?
    && var plan := PlanRegion(b.unit, m.flashStart, m.flashLen, m.flashLen).value;
       T.Apart(Location(plan.start, plan.size), Location(m.memStart, m.memLen))
  }

  // Whatever the table holds, it can be rebuilt around the same block.
  ghost predicate Rebuildable(b: Board, m: Image, flash: CortexMRegion)
    requires IsPow2(b.unit) && b.unit >= 32
  {
    forall c: MpuConfig {:trigger RebuildTable(b, c, m)} :: |c.regions| == b.numRegions ==>
      var t := RebuildTable(b, c, m);
      t.Rebuilt? && t.block == Location(m.memStart, m.memLen) && T.Shape(t.config.regions, b.numRegions, flash)
  }

  function FlashOf(b: Board, m: Image): CortexMRegion
    requires IsPow2(b.unit) && b.unit >= 32
  {
    T.FlashRegion(b.unit, m.flashStart, m.flashLen)
  }

  // The process has a region table, with application RAM, flash and no more.
  predicate Tabled(p: Process, n: nat, flash: CortexMRegion) {
    p.mpu.Some? && T.Shape(p.mpu.value.regions, n, flash)
  }

  // The region lets user mode read and execute exactly the process's flash.
  ghost predicate FlashLike(flash: CortexMRegion, m: Image) {
    forall a :: T.FlashExact(flash, m.flashStart, m.flashLen, a)
  }

  // A process whose region table is present and can always be rebuilt, with a
  // flash region that is what it should be.
  ghost predicate LiveWith(b: Board, p: Process, flash: CortexMRegion)
    requires IsPow2(b.unit) && b.unit >= 32
  {
    Rebuildable(b, p.image, flash) && Tabled(p, b.numRegions, flash) && FlashLike(flash, p.image)
  }

  ghost predicate Live(b: Board, p: Process)
    requires IsPow2(b.unit) && b.unit >= 32
  {
    exists flash :: LiveWith(b, p, flash)
  }

  // What user mode can do through the whole table of a process: write the RAM that
  // regions 0 and 1 expose, execute its flash, read both, and no more.
  lemma LiveAccess(b: Board, p: Process, a: int)
    requires ValidBoard(b) && Live(b, p)
    ensures p.mpu.Some? && (T.Writable(p.mpu.value.regions, a) <==> T.AppAccessible(p.mpu.value, a))
    ensures T.Executable(p.mpu.value.regions, a) <==> p.image.flashStart <= a < FlashEnd(p)
    ensures T.Readable(p.mpu.value.regions, a) <==>
              T.Writable(p.mpu.value.regions, a) || T.Executable(p.mpu.value.regions, a)
    ensures T.Reachable(p.mpu.value.regions, a) <==> T.Readable(p.mpu.value.regions, a)
  {
    var flash :| LiveWith(b, p, flash);
    T.ShapeAccess(p.mpu.value, b.numRegions, flash, p.image.flashStart, p.image.flashLen, a);
  }

  // The process's table lets it write at a, which is not its own memory below
  // the kernel break: the kernel's part of its block, another process, or
  // memory outside the pool.
  predicate Trespasses(p: Process, a: int) {
    p.mpu.Some? && T.Writable(p.mpu.value.regions, a) && !(p.image.memStart <= a < p.kernelBreak)
  }

  // That is possible exactly at addresses that regions 0 and 1 expose from the
  // kernel break on, and nowhere if the block is roomy.
  lemma TrespassMeans(b: Board, p: Process, a: int)
    requires ValidBoard(b) && M.Inv(p) && Live(b, p)
    ensures p.mpu.Some? && (Trespasses(p, a) <==> T.AppAccessible(p.mpu.value, a) && a >= p.kernelBreak)
    ensures M.Roomy(p.image) ==> !Trespasses(p, a)
  {
    LiveAccess(b, p, a);
    M.IsolationByAddress(p, a);
  }

  // The table holding nothing but a flash region in its first spare slot.
  lemma FlashOnly(b: Board, c: T.Config, flashStart: nat, flashLen: nat)
    requires ValidBoard(b) && c.regions == T.EmptyRegions(b.numRegions)
    requires flashStart + flashLen < WORD && PlanRegion(b.unit, flashStart, flashLen, flashLen).Done?
    ensures var (r, c1) := T.AllocateRegion(b.unit, c, flashStart, flashLen, flashLen, ReadExecuteOnly);
            var plan := PlanRegion(b.unit, flashStart, flashLen, flashLen).value;
            && r == Done(Location(plan.start, plan.size)) && c1.regions[2].location == Some(r.value)
            && T.Shape(c1.regions, b.numRegions, T.FlashRegion(b.unit, flashStart, flashLen))
            && c1.regions[0] == Empty(0) && c1.regions[1] == Empty(1)
  {
    assert !T.AnyOverlap(c.regions, flashStart, flashLen);
    assert T.UnusedRegionNumber(c.regions) == Some(2);
  }

  lemma SameBlock(m: Image)
    requires M.GoodImage(m) && m.memStart % (m.memLen / 2) == 0
    requires Doubles(m.memLen, INITIAL_APP_BYTES, m.kernelBytes) ==> m.memStart % m.memLen == 0
    ensures var r := PlanApp(m.memStart, m.memLen, m.memLen, INITIAL_APP_BYTES, m.kernelBytes);
            r.Done? && r.value.start == m.memStart && r.value.blockSize == m.memLen
  {
    Log2AtLeast9(m.memLen);
    PlaceBlockStable(m.memStart, m.memLen, INITIAL_APP_BYTES, m.kernelBytes);
  }

  // With only a flash region elsewhere in the table, the block is granted again.
  lemma RamAgain(c1: MpuConfig, m: Image, flash: Location, n: nat, region: CortexMRegion)
    requires M.GoodImage(m) && T.Apart(flash, Location(m.memStart, m.memLen))
    requires forall i :: 0 <= i < |c1.regions| && c1.regions[i].location.Some? ==> c1.regions[i].location == Some(flash)
    requires var r := PlanApp(m.memStart, m.memLen, m.memLen, INITIAL_APP_BYTES, m.kernelBytes);
             r.Done? && r.value.start == m.memStart && r.value.blockSize == m.memLen
    requires T.Shape(c1.regions, n, region)
    ensures var (block, c2) :=
              T.AllocateApp(c1, m.memStart, m.memLen, m.memLen, INITIAL_APP_BYTES, m.kernelBytes, ReadWriteOnly);
            block == Done(Location(m.memStart, m.memLen)) && T.Shape(c2.regions, n, region)
  {
    assert !T.AnyOverlap(c1.regions, m.memStart, m.memLen);
    var plan := PlanApp(m.memStart, m.memLen, m.memLen, INITIAL_APP_BYTES, m.kernelBytes).value;
    T.AppPlanUsable(m.memStart, m.memLen, m.memLen, INITIAL_APP_BYTES, m.kernelBytes);
    T.AppRegionsShape(c1, n, region, plan.start, plan.regionSize, plan.enabled);
  }

  lemma RamPlaced(b: Board, c1: MpuConfig, m: Image, flash: Location, n: nat, region: CortexMRegion)
    requires ValidBoard(b) && Restartable(b, m)
    requires var plan := PlanRegion(b.unit, m.flashStart, m.flashLen, m.flashLen).value;
             flash == Location(plan.start, plan.size)
    requires forall i :: 0 <= i < |c1.regions| && c1.regions[i].location.Some? ==> c1.regions[i].location == Some(flash)
    requires T.Shape(c1.regions, n, region)
    ensures var t := RebuildRam(c1, m);
            t.Rebuilt? && t.block == Location(m.memStart, m.memLen) && T.Shape(t.config.regions, n, region)
  {
    SameBlock(m);
    RamAgain(c1, m, flash, n, region);
  }

  // Rebuilding the table of a created process always succeeds, with the same
  // block, so the kernel structures above the break stay where they are.
  lemma RebuildOnce(b: Board, c: MpuConfig, m: Image)
    requires ValidBoard(b) && Restartable(b, m) && |c.regions| == b.numRegions
    ensures var t := RebuildTable(b, c, m);
            && t.Rebuilt? && t.block == Location(m.memStart, m.memLen)
            && T.Shape(t.config.regions, b.numRegions, FlashOf(b, m))
  {
    FlashOnly(b, T.Reset(c), m.flashStart, m.flashLen);
    var (flash, c1) := T.AllocateRegion(b.unit, T.Reset(c), m.flashStart, m.flashLen, m.flashLen, ReadExecuteOnly);
    RamPlaced(b, c1, m, flash.value, b.numRegions, FlashOf(b, m));
  }

  lemma RebuildAlways(b: Board, m: Image)
    requires ValidBoard(b) && Restartable(b, m)
    ensures Rebuildable(b, m, FlashOf(b, m))
  {
    forall c: MpuConfig | |c.regions| == b.numRegions
      ensures var t := RebuildTable(b, c, m);
              && t.Rebuilt? && t.block == Location(m.memStart, m.memLen)
              && T.Shape(t.config.regions, b.numRegions, FlashOf(b, m))
    {
      RebuildOnce(b, c, m);
    }
  }

  // How a live process comes out of re-initialization: with the table it had,
  // isolated if and only if the allocator does not double the region for the
  // kernel's bytes.
  ghost predicate Restarted(p: Process, q: Process, newId: nat, contextOk: bool, n: nat, flash: CortexMRegion) {
    && q.image == p.image && Tabled(q, n, flash) && q.pid == ProcessId(newId, p.pid.index)
    && (forall g :: 0 <= g < |q.grants| ==> q.grants[g] == GrantEntry(0, 0))
    && (contextOk ==>
          var m := p.image;
          && q.state == Yielded && q.restartCount == p.restartCount + 1
          && q.appBreak == m.memStart + 32 && q.kernelBreak == MemEnd(p) - m.kernelBytes && q.highWater == m.memStart
          && |q.tasks| == 1 && q.tasks[0].Call?
          && var f := q.tasks[0].call;
             && f.source == Kernel && f.pc == m.initFn && f.argument0 == m.appStart
             && f.argument1 == m.memStart && f.argument2 == m.memLen && f.argument3 == q.appBreak)
    && (!contextOk ==> q.state == Terminated && q.tasks == [] && q.restartCount == p.restartCount)
    && p.image.memLen >= 512
    && (M.Isolated(q) <==> !Doubles(p.image.memLen, INITIAL_APP_BYTES, p.image.kernelBytes))
  }

  // A reset given a table that could be rebuilt with the same block.
  lemma ResetWithSucceeds(p: Process, t: ResetTable, newId: nat, contextOk: bool, n: nat, flash: CortexMRegion)
    requires M.Inv(p) && M.GoodTable(p.image, t) && p.tasks == [] && p.state == Terminated
    requires p.mpu.Some? && t.Rebuilt? && T.Shape(t.config.regions, n, flash)
    requires forall g :: 0 <= g < |p.grants| ==> p.grants[g] == GrantEntry(0, 0)
    ensures Restarted(p, AfterReset(ResetWith(p, t, newId, contextOk)), newId, contextOk, n, flash)
  {
    M.WrapsOnce(p.image.memStart, p.image.memLen - p.image.kernelBytes);
    M.ResetIsolatedIff(p, t, newId, contextOk);
    ReachKept(ResetWith(p, t, newId, contextOk).1, AfterReset(ResetWith(p, t, newId, contextOk)));
  }

  // Same block, and the same shape of the region table if it had that shape.
  predicate SameTable(p: Process, q: Process, n: nat, flash: CortexMRegion) {
    q.image == p.image && (Tabled(p, n, flash) ==> Tabled(q, n, flash))
  }

  // --------------------------------------------------- creation gives it

  lemma CreatedLive(b: Board, bin: Binary, memory: Location, configId: Option<nat>, pid: ProcessId, contextOk: bool)
    requires ValidBoard(b)
    ensures var r := Create(b, bin, memory, configId, pid, contextOk);
            r.Created? ==> Live(b, r.process)
  {
    var r := Create(b, bin, memory, configId, pid, contextOk);
    if r.Created? {
      var c0 := T.Config(configId.value, T.EmptyRegions(b.numRegions), true);
      T.EmptyTableInv(b.numRegions);
      T.AllocateRegionSound(b.unit, c0, bin.flashStart, bin.flashLen, bin.flashLen, ReadExecuteOnly);
      var (flash, c1) := T.AllocateRegion(b.unit, c0, bin.flashStart, bin.flashLen, bin.flashLen, ReadExecuteOnly);
      FlashOnly(b, c0, bin.flashStart, bin.flashLen);
      PlacedTable(b, bin, SkipTo(memory, bin.fixedRam).value, c1, pid, contextOk);
      RebuildAlways(b, r.process.image);
      forall a
        ensures T.FlashExact(FlashOf(b, r.process.image), bin.flashStart, bin.flashLen, a)
      {
        T.FlashRegionExact(b.unit, bin.flashStart, bin.flashLen, a);
      }
      assert LiveWith(b, r.process, FlashOf(b, r.process.image));
    }
  }

  // The flash region and the block of a new process are apart, and the block
  // is aligned as its own size demands.
  lemma PlacedTable(b: Board, bin: Binary, left: Location, c1: MpuConfig, pid: ProcessId, contextOk: bool)
    requires ValidBoard(b) && T.TableInv(c1.regions) && bin.flashStart + bin.flashLen < WORD
    requires T.Shape(c1.regions, b.numRegions, T.FlashRegion(b.unit, bin.flashStart, bin.flashLen))
    requires PlanRegion(b.unit, bin.flashStart, bin.flashLen, bin.flashLen).Done?
    requires var plan := PlanRegion(b.unit, bin.flashStart, bin.flashLen, bin.flashLen).value;
             c1.regions[2].location == Some(Location(plan.start, plan.size))
    requires PlaceProcess(b, bin, left, c1, pid, contextOk).Created?
    ensures var p := PlaceProcess(b, bin, left, c1, pid, contextOk).process;
            Restartable(b, p.image) && Tabled(p, b.numRegions, FlashOf(b, p.image))
  {
    PlacedRestartable(b, bin, left, c1, MinTotal(b, bin), T.FlashRegion(b.unit, bin.flashStart, bin.flashLen));
  }

  lemma PlacedRestartable(b: Board, bin: Binary, left: Location, c1: MpuConfig, minTotal: nat, region: CortexMRegion)
    requires ValidBoard(b) && T.TableInv(c1.regions) && T.Shape(c1.regions, b.numRegions, region)
    requires minTotal >= INITIAL_APP_BYTES + ReservedBytes(b) && bin.flashStart + bin.flashLen < WORD
    requires PlanRegion(b.unit, bin.flashStart, bin.flashLen, bin.flashLen).Done?
    requires var plan := PlanRegion(b.unit, bin.flashStart, bin.flashLen, bin.flashLen).value;
             c1.regions[2].location == Some(Location(plan.start, plan.size))
    requires T.AllocateApp(c1, left.start, left.size, minTotal, INITIAL_APP_BYTES, ReservedBytes(b), ReadWriteOnly).0.Done?
    ensures var (block, c2) :=
              T.AllocateApp(c1, left.start, left.size, minTotal, INITIAL_APP_BYTES, ReservedBytes(b), ReadWriteOnly);
            Restartable(b, NewImage(b, bin, block.value)) && T.Shape(c2.regions, b.numRegions, region)
  {
    PlacedBlock(b, bin, left, c1, minTotal);
    assert !Overlaps(c1.regions[2], left.start, left.size);
    var plan := PlanApp(left.start, left.size, minTotal, INITIAL_APP_BYTES, ReservedBytes(b)).value;
    T.AppPlanUsable(left.start, left.size, minTotal, INITIAL_APP_BYTES, ReservedBytes(b));
    T.AppRegionsShape(c1, b.numRegions, region, plan.start, plan.regionSize, plan.enabled);
    DoubledAligned(left, minTotal, INITIAL_APP_BYTES, ReservedBytes(b), KernelBytes(b));
  }

  lemma DoubledAligned(left: Location, minTotal: nat, app: nat, kernel: nat, less: nat)
    requires less <= kernel && PlanApp(left.start, left.size, minTotal, app, kernel).Done?
    ensures var plan := PlanApp(left.start, left.size, minTotal, app, kernel).value;
            plan.blockSize >= 512 && (Doubles(plan.blockSize, app, less) ==> plan.start % plan.blockSize == 0)
  {
    var block := BlockSize(Max(minTotal, app + kernel));
    BlockSizePow2(Max(minTotal, app + kernel));
    PlaceBlockSound(left.start, left.start + left.size, block, app, kernel);
    DoublesMonotone(block, app, kernel, less);
  }

  // ------------------------------------------------------- steps keep it

  lemma BrkTable(p: Process, newBreak: nat, n: nat, flash: CortexMRegion)
    ensures SameTable(p, Brk(p, newBreak).1, n, flash)
  {
  }

  lemma AllocationTable(p: Process, size: nat, align: nat, n: nat, flash: CortexMRegion)
    requires size < WORD && p.kernelBreak < WORD && align >= 1
    ensures SameTable(p, AllocateInGrantRegion(p, size, align).1, n, flash)
  {
  }

  lemma NewGrantTable(b: Board, p: Process, g: nat, n: nat, flash: CortexMRegion)
    requires Sized(b, p)
    ensures SameTable(p, NewGrant(b, p, g).1, n, flash)
  {
  }

  lemma {:induction false} ReactTable(b: Board, p: Process, enters: seq<nat>, n: nat, flash: CortexMRegion)
    requires Sized(b, p)
    ensures SameTable(p, React(b, p, enters), n, flash)
    decreases |enters|
  {
    if enters != [] {
      NewGrantSized(b, p, enters[0]);
      NewGrantTable(b, p, enters[0], n, flash);
      ReactTable(b, NewGrant(b, p, enters[0]).1, enters[1..], n, flash);
    }
  }

  lemma SyscallTable(b: Board, p: Process, op: Op, newId: nat, n: nat, flash: CortexMRegion)
    requires ValidBoard(b) && ProcInv(b, p) && ValidOp(op) && (op.SubscribeOp? || op.AllowOp?)
    ensures SameTable(p, StepProcess(b, p, op, newId), n, flash)
  {
    match op
    case SubscribeOp(present, id, upcall, reaction) =>
      SubscribeGround(b, p, op);
      ReactTable(b, p, reaction.enters, n, flash);
    case AllowOp(kind, _, _, _, start, size, reaction) =>
      AllowShape(b, p, op);
      BuiltKept(b, p, kind, start, size);
      M.BuildKeeps(p, kind, start, size);
      ReactTable(b, Build(p, kind, start, size).1, reaction.enters, n, flash);
  }

  lemma QueueTable(b: Board, p: Process, op: Op, newId: nat, n: nat, flash: CortexMRegion)
    requires ValidBoard(b) && ProcInv(b, p) && ValidOp(op) && !IsLifeOp(op)
    requires !(op.SubscribeOp? || op.AllowOp?)
    ensures SameTable(p, StepProcess(b, p, op, newId), n, flash)
  {
    match op
    case BrkOp(newBreak) => BrkTable(p, newBreak, n, flash);
    case SbrkOp(increment) => BrkTable(p, WrapAdd(p.appBreak, increment), n, flash);
    case UseGrant(g) => NewGrantTable(b, p, g, n, flash);
    case CustomGrant(size, align) => AllocationTable(p, size, align, n, flash);
    case Schedule(g, subscribeNum, r0, r1, r2) => ScheduleKeeps(b, p, g, subscribeNum, r0, r1, r2);
    case _ =>
  }

  lemma ResetTabled(b: Board, p: Process, newId: nat, contextOk: bool, flash: CortexMRegion)
    requires ValidBoard(b) && M.Inv(p) && p.tasks == [] && p.state == Terminated
    requires Rebuildable(b, p.image, flash) && p.mpu.Some? && |p.mpu.value.regions| == b.numRegions
    requires forall g :: 0 <= g < |p.grants| ==> p.grants[g] == GrantEntry(0, 0)
    ensures Restarted(p, AfterReset(Reset(b, p, newId, contextOk)), newId, contextOk, b.numRegions, flash)
  {
    var t := RebuildTable(b, p.mpu.value, p.image);
    M.RebuildSound(b, p.mpu.value, p.image);
    assert t.Rebuilt? && T.Shape(t.config.regions, b.numRegions, flash);
    ResetWithSucceeds(p, t, newId, contextOk, b.numRegions, flash);
  }

  // Re-initialization has two replies for it: success, or that the architecture
  // refused.
  lemma ResetReply(b: Board, p: Process, newId: nat, contextOk: bool, flash: CortexMRegion)
    requires ValidBoard(b) && M.Inv(p) && p.tasks == [] && p.state == Terminated
    requires Rebuildable(b, p.image, flash) && p.mpu.Some? && |p.mpu.value.regions| == b.numRegions
    ensures Reset(b, p, newId, contextOk).0 == if contextOk then Success(()) else Failure(RESERVE)
  {
    var t := RebuildTable(b, p.mpu.value, p.image);
    assert t.Rebuilt?;
  }

  // A restart of a live process fails only when the architecture refuses; then
  // it stays terminated. A success leaves exactly the init call queued and the
  // break pointers creation chose. Either way it has its table, and is isolated
  // if and only if the allocator does not double the region.
  lemma RestartOutcome(b: Board, p: Process, code: Option<nat>, newId: nat, contextOk: bool, flash: CortexMRegion)
    requires ValidBoard(b) && ProcInv(b, p) && LiveWith(b, p, flash) && p.state != Terminated
    ensures var q := TryRestart(b, p, code, newId, contextOk);
            Restarted(p, q, newId, contextOk, b.numRegions, flash) && q.completionCode == Some(code)
  {
    TerminateStep(b, p, code);
    ResetTabled(b, Terminate(p, code), newId, contextOk, flash);
  }

  // What the fault policy decides: a panic stops the kernel, a restart is the one
  // above, and a stop leaves the process faulted with no tasks and no grants.
  lemma FaultOutcome(b: Board, p: Process, action: FaultAction, newId: nat, contextOk: bool, flash: CortexMRegion)
    requires ValidBoard(b) && ProcInv(b, p) && LiveWith(b, p, flash) && p.state != Terminated
    ensures var r := SetFault(b, p, action, newId, contextOk);
            && (r.None? <==> action == PanicAction)
            && (action == RestartAction ==> Restarted(p, r.value, newId, contextOk, b.numRegions, flash))
            && (action == StopAction ==>
                  && r.value.state == Faulted && r.value.tasks == [] && r.value.pid == p.pid
                  && (forall g :: 0 <= g < |r.value.grants| ==> r.value.grants[g] == GrantEntry(0, 0))
                  && r.value == p.(state := Faulted, tasks := [], grants := r.value.grants, completionCode := Some(None)))
  {
    if action == RestartAction { RestartOutcome(b, p, None, newId, contextOk, flash); }
  }

  // A process started after termination comes out the same way; one that is not
  // terminated is left alone.
  lemma StartOutcome(b: Board, p: Process, newId: nat, contextOk: bool, flash: CortexMRegion)
    requires ValidBoard(b) && ProcInv(b, p) && LiveWith(b, p, flash)
    ensures var q := Start(b, p, newId, contextOk);
            && (p.state != Terminated ==> q == p)
            && (p.state == Terminated ==> Restarted(p, q, newId, contextOk, b.numRegions, flash))
  {
    if p.state == Terminated { ResetTabled(b, p, newId, contextOk, flash); }
  }

  lemma RestartTable(b: Board, p: Process, code: Option<nat>, newId: nat, contextOk: bool, flash: CortexMRegion)
    requires ValidBoard(b) && ProcInv(b, p) && LiveWith(b, p, flash)
    ensures SameTable(p, TryRestart(b, p, code, newId, contextOk), b.numRegions, flash)
  {
    if p.state != Terminated { RestartOutcome(b, p, code, newId, contextOk, flash); }
  }

  lemma StartTable(b: Board, p: Process, newId: nat, contextOk: bool, flash: CortexMRegion)
    requires ValidBoard(b) && ProcInv(b, p) && LiveWith(b, p, flash)
    ensures SameTable(p, Start(b, p, newId, contextOk), b.numRegions, flash)
  {
    StartOutcome(b, p, newId, contextOk, flash);
  }

  lemma FaultTable(b: Board, p: Process, action: FaultAction, newId: nat, contextOk: bool, flash: CortexMRegion)
    requires ValidBoard(b) && ProcInv(b, p) && LiveWith(b, p, flash)
    ensures var q := SetFault(b, p, action, newId, contextOk); q.Some? ==> SameTable(p, q.value, b.numRegions, flash)
  {
    if action == RestartAction { RestartTable(b, p, None, newId, contextOk, flash); }
  }

  lemma RestartDispatch(b: Board, p: Process, op: Op, newId: nat, n: nat, flash: CortexMRegion)
    requires ValidBoard(b) && Sized(b, p) && op.RestartOp?
    requires SameTable(p, TryRestart(b, p, op.code, newId, op.contextOk), n, flash)
    ensures SameTable(p, StepProcess(b, p, op, newId), n, flash)
  {
  }

  lemma StartDispatch(b: Board, p: Process, op: Op, newId: nat, n: nat, flash: CortexMRegion)
    requires ValidBoard(b) && Sized(b, p) && op.StartOp?
    requires SameTable(p, Start(b, p, newId, op.contextOk), n, flash)
    ensures SameTable(p, StepProcess(b, p, op, newId), n, flash)
  {
  }

  lemma FaultDispatch(b: Board, p: Process, op: Op, newId: nat, n: nat, flash: CortexMRegion)
    requires ValidBoard(b) && Sized(b, p) && op.FaultOp?
    requires var q := SetFault(b, p, op.action, newId, op.contextOk); q.Some? ==> SameTable(p, q.value, n, flash)
    ensures SameTable(p, StepProcess(b, p, op, newId), n, flash)
  {
  }

  lemma LifeTable(b: Board, p: Process, op: Op, newId: nat, flash: CortexMRegion)
    requires ValidBoard(b) && ProcInv(b, p) && LiveWith(b, p, flash) && IsLifeOp(op)
    ensures SameTable(p, StepProcess(b, p, op, newId), b.numRegions, flash)
  {
    if op.RestartOp? {
      RestartTable(b, p, op.code, newId, op.contextOk, flash);
      RestartDispatch(b, p, op, newId, b.numRegions, flash);
    } else if op.StartOp? {
      StartTable(b, p, newId, op.contextOk, flash);
      StartDispatch(b, p, op, newId, b.numRegions, flash);
    } else if op.FaultOp? {
      FaultTable(b, p, op.action, newId, op.contextOk, flash);
      FaultDispatch(b, p, op, newId, b.numRegions, flash);
    }
  }

  lemma TableKept(b: Board, p: Process, op: Op, newId: nat, flash: CortexMRegion)
    requires ValidBoard(b) && ProcInv(b, p) && LiveWith(b, p, flash) && ValidOp(op)
    ensures SameTable(p, StepProcess(b, p, op, newId), b.numRegions, flash)
  {
    if IsLifeOp(op) {
      LifeTable(b, p, op, newId, flash);
    } else if op.SubscribeOp? || op.AllowOp? {
      SyscallTable(b, p, op, newId, b.numRegions, flash);
    } else {
      QueueTable(b, p, op, newId, b.numRegions, flash);
    }
  }

  lemma LiveSame(b: Board, p: Process, q: Process, flash: CortexMRegion)
    requires ValidBoard(b) && LiveWith(b, p, flash) && SameTable(p, q, b.numRegions, flash)
    ensures LiveWith(b, q, flash)
  {
  }

  // Over every step: the region table is never lost, keeps its shape, and the
  // block never moves.
  lemma LiveKept(b: Board, p: Process, op: Op, newId: nat)
    requires ValidBoard(b) && ProcInv(b, p) && Live(b, p) && ValidOp(op)
    ensures Live(b, StepProcess(b, p, op, newId))
  {
    var flash :| LiveWith(b, p, flash);
    TableKept(b, p, op, newId, flash);
    LiveSame(b, p, StepProcess(b, p, op, newId), flash);
  }

  // ------------------------------------------- exactly when the kernel stops

  // A grant that would take more than a word of memory, not yet allocated.
  predicate Oversize(b: Board, p: Process, g: nat)
    requires Sized(b, p)
  {
    g < |b.grants| && !Allocated(p.grants[g]) && DeclaredSize(b.grants[g]) >= WORD
  }

  predicate AnyOversize(b: Board, p: Process, enters: seq<nat>)
    requires Sized(b, p)
  {
    exists i :: 0 <= i < |enters| && Oversize(b, p, enters[i])
  }

  // What a caller can check beforehand: the break moved to the start of memory
  // while no buffer has ever been shared, an oversized grant entered, or a fault
  // that is answered by a panic.
  predicate Halts(b: Board, p: Process, op: Op)
    requires Sized(b, p)
  {
    match op
    case BrkOp(newBreak) => IsRunning(p.state) && newBreak == p.image.memStart == p.highWater
    case SbrkOp(increment) => IsRunning(p.state) && WrapAdd(p.appBreak, increment) == p.image.memStart == p.highWater
    case UseGrant(g) => IsRunning(p.state) && Oversize(b, p, g)
    case SubscribeOp(present, id, upcall, reaction) =>
      SubscribeReacts(p, present, id, upcall) && IsRunning(p.state) && AnyOversize(b, p, reaction.enters)
    case AllowOp(kind, present, d, n, start, size, reaction) =>
      AllowReacts(p, kind, present, d, n, start, size) && IsRunning(p.state) && AnyOversize(b, p, reaction.enters)
    case FaultOp(action, _) => action == PanicAction
    case _ => false
  }

  lemma NewGrantTrapsIff(b: Board, p: Process, g: nat)
    requires ValidBoard(b) && ProcInv(b, p)
    ensures NewGrant(b, p, g).0.Trap? <==> IsRunning(p.state) && Oversize(b, p, g)
  {
    if g < |b.grants| && DeclaredSize(b.grants[g]) < WORD {
      M.AllocationKeeps(p, DeclaredSize(b.grants[g]), L.GrantAlign(b.grants[g].tAlign));
    }
  }

  lemma {:induction false} ReactTrapsIff(b: Board, p: Process, enters: seq<nat>)
    requires ValidBoard(b) && ProcInv(b, p)
    ensures ReactTraps(b, p, enters) <==> IsRunning(p.state) && AnyOversize(b, p, enters)
    decreases |enters|
  {
    if enters != [] {
      var q := NewGrant(b, p, enters[0]).1;
      NewGrantTrapsIff(b, p, enters[0]);
      NewGrantKeepsAll(b, p, enters[0]);
      ReactTrapsIff(b, q, enters[1..]);
      NewGrantEffect(b, p, enters[0]);
      if Oversize(b, p, enters[0]) {
        assert AnyOversize(b, p, enters);
      } else {
        OversizeStays(b, p, q, enters);
      }
    }
  }

  // Entering one grant leaves the others as oversized as they were.
  lemma OversizeStays(b: Board, p: Process, q: Process, enters: seq<nat>)
    requires Sized(b, p) && Sized(b, q) && enters != [] && !Oversize(b, p, enters[0])
    requires forall g :: 0 <= g < |p.grants| && g != enters[0] ==> q.grants[g] == p.grants[g]
    requires q.grants == p.grants || (enters[0] < |b.grants| && DeclaredSize(b.grants[enters[0]]) < WORD)
    ensures AnyOversize(b, q, enters[1..]) <==> AnyOversize(b, p, enters)
  {
    if AnyOversize(b, q, enters[1..]) {
      var i :| 0 <= i < |enters[1..]| && Oversize(b, q, enters[1..][i]);
      assert Oversize(b, p, enters[i + 1]);
    }
    if AnyOversize(b, p, enters) {
      var i :| 0 <= i < |enters| && Oversize(b, p, enters[i]);
      assert Oversize(b, q, enters[1..][i - 1]);
    }
  }

  lemma ResetNeverTraps(b: Board, p: Process, newId: nat, contextOk: bool)
    requires ValidBoard(b) && Live(b, p)
    ensures !Reset(b, p, newId, contextOk).0.Trap?
  {
    var flash :| LiveWith(b, p, flash);
    var t := RebuildTable(b, p.mpu.value, p.image);
    assert t.Rebuilt?;
  }

  lemma LiveTerminated(b: Board, p: Process, code: Option<nat>)
    requires ValidBoard(b) && Live(b, p)
    ensures Live(b, Terminate(p, code))
  {
    var flash :| LiveWith(b, p, flash);
    LiveSame(b, p, Terminate(p, code), flash);
  }

  // In every reachable state an operation stops the kernel if and only if it
  // meets that condition.
  lemma HaltsIff(b: Board, p: Process, op: Op, newId: nat)
    requires ValidBoard(b) && ProcInv(b, p) && Live(b, p) && ValidOp(op)
    ensures Traps(b, p, op, newId) <==> Halts(b, p, op)
  {
    if op.SubscribeOp? || op.AllowOp? {
      CallHalts(b, p, op, newId);
    } else if op.BrkOp? || op.SbrkOp? || op.UseGrant? || op.CustomGrant? {
      MemoryHalts(b, p, op, newId);
    } else {
      LifeHalts(b, p, op, newId);
    }
  }

  lemma MemoryHalts(b: Board, p: Process, op: Op, newId: nat)
    requires ValidBoard(b) && ProcInv(b, p) && Live(b, p) && ValidOp(op)
    requires op.BrkOp? || op.SbrkOp? || op.UseGrant? || op.CustomGrant?
    ensures Traps(b, p, op, newId) <==> Halts(b, p, op)
  {
    LiveAccess(b, p, 0);
    match op
    case BrkOp(newBreak) => if IsRunning(p.state) { M.BrkOutcome(p, newBreak); }
    case SbrkOp(increment) => if IsRunning(p.state) { M.BrkOutcome(p, WrapAdd(p.appBreak, increment)); }
    case UseGrant(g) => NewGrantTrapsIff(b, p, g);
    case CustomGrant(size, align) => M.AllocationKeeps(p, size, align);
  }

  lemma CallHalts(b: Board, p: Process, op: Op, newId: nat)
    requires ValidBoard(b) && ProcInv(b, p) && ValidOp(op) && (op.SubscribeOp? || op.AllowOp?)
    ensures Traps(b, p, op, newId) <==> Halts(b, p, op)
  {
    match op
    case SubscribeOp(_, _, _, reaction) => ReactTrapsIff(b, p, reaction.enters);
    case AllowOp(kind, _, _, _, start, size, reaction) =>
      BuiltKept(b, p, kind, start, size);
      var p1 := Build(p, kind, start, size).1;
      ReactTrapsIff(b, p1, reaction.enters);
      assert forall i :: 0 <= i < |reaction.enters| ==>
               (Oversize(b, p1, reaction.enters[i]) <==> Oversize(b, p, reaction.enters[i]));
  }

  lemma LifeHalts(b: Board, p: Process, op: Op, newId: nat)
    requires ValidBoard(b) && ProcInv(b, p) && Live(b, p) && ValidOp(op)
    requires !(op.BrkOp? || op.SbrkOp? || op.UseGrant? || op.CustomGrant? || op.SubscribeOp? || op.AllowOp?)
    ensures Traps(b, p, op, newId) <==> Halts(b, p, op)
  {
    match op
    case RestartOp(code, contextOk) =>
      LiveTerminated(b, p, code);
      ResetNeverTraps(b, Terminate(p, code), newId, contextOk);
    case StartOp(contextOk) => ResetNeverTraps(b, p, newId, contextOk);
    case FaultOp(_, contextOk) =>
      LiveTerminated(b, p, None);
      ResetNeverTraps(b, Terminate(p, None), newId, contextOk);
    case _ =>
  }
}
