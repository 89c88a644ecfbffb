// The process object (kernel/src/process_standard.rs): cells, the grant pointer
// table, the task ring and the MPU configuration, updated in place. Each method
// is proved against the function of ProcessSpec on the process's value.

module ProcessStandards {
  import opened Wrappers
  import opened Powers
  import opened Region
  import opened MpuPlan
  import opened ProcessTypes
  import opened CortexMpu
  import opened Queues
  import S = ProcessSpec
  import T = MpuTable
  import C = Creation

  // Slots of the task ring.
  const CALLBACK_LEN: nat := 10

  // The ring's filters are the ones the specification names.
  lemma {:induction false} KeptIsWithout(tasks: seq<Task>, id: UpcallId)
    ensures Kept(tasks, (t: Task) => !S.IsUpcallOf(t, id)) == S.WithoutUpcall(tasks, id)
    decreases |tasks|
  {
    if tasks != [] { KeptIsWithout(tasks[..|tasks| - 1], id); }
  }

  lemma {:induction false} MatchIsWaking(tasks: seq<Task>, id: UpcallId, i: nat)
    requires i <= |tasks|
    ensures FirstMatch(tasks, (t: Task) => S.Wakes(t, id), i) == S.FirstWaking(tasks, id, i)
    decreases |tasks| - i
  {
  }

  // Taking the configuration out and renaming the process first makes no
  // difference to what a reset leaves.
  lemma ResetWithTaken(p: Process, table: S.ResetTable, newId: nat, contextOk: bool)
    ensures var taken := p.(pid := ProcessId(newId, p.pid.index), mpu := None);
            && S.ResetWith(taken, table, newId, contextOk).0 == S.ResetWith(p, table, newId, contextOk).0
            && (!table.Trapped? ==> S.ResetWith(taken, table, newId, contextOk) == S.ResetWith(p, table, newId, contextOk))
  {
  }

  class ProcessStandard {
    const board: Board
    const image: ProcessTypes.Image
    const mpu: Mpu
    const grantPointers: array<GrantEntry>
    const tasks: RingBuffer<Task>

    var processId: ProcessId
    var state: State
    var appBreak: nat
    var kernelMemoryBreak: nat
    var allowHighWaterMark: nat
    var mpuConfig: CortexMConfig?
    var memory: seq<GrantMemory>
    var restartCount: nat
    var completionCode: Option<Option<nat>>

    // What is the object's own, and what it shares: the state of the MPU.
    ghost predicate Whole()
      reads this, tasks, mpuConfig
    {
      && board.unit == mpu.minRegionSize
      && (mpuConfig != null ==> |mpuConfig.regions| == mpu.numRegions >= 2 && T.Numbered(mpuConfig.regions))
      && tasks.Valid() && tasks.ring.Length == CALLBACK_LEN
      && kernelMemoryBreak < WORD
    }

    ghost predicate Valid()
      reads this, mpu, tasks, mpuConfig
    {
      Whole() && mpu.Valid() && (mpuConfig != null ==> mpu.Fits(mpuConfig) && mpu.Synced(mpuConfig))
    }

    ghost function Value(): Process
      requires Whole()
      reads this, tasks, tasks.ring, grantPointers, mpuConfig
    {
      Process(image, processId, state, appBreak, kernelMemoryBreak, allowHighWaterMark,
              if mpuConfig == null then None else Some(mpuConfig.Value()),
              grantPointers[..], memory, tasks.Contents(), restartCount, completionCode)
    }

    // The MPU was left as it was, or last written for this process; so what other
    // processes know of it still holds.
    twostate predicate MpuLeft()
      reads this, mpu
    {
      || (mpu.hardwareIsConfiguredFor, mpu.registers) == old((mpu.hardwareIsConfiguredFor, mpu.registers))
      || (old(mpuConfig) != null && mpu.hardwareIsConfiguredFor == Some(old(mpuConfig).id))
    }

    // The end of `create`: the process in its block, with nothing granted and
    // one task, the call of its entry point.
    constructor (board: Board, bin: C.Binary, block: Location, mpu: Mpu, config: CortexMConfig, pid: ProcessId,
                 grants: array<GrantEntry>, ring: array<Task>)
      requires mpu.Valid() && board.unit == mpu.minRegionSize && mpu.Fits(config) && mpu.Synced(config)
      requires grants.Length == |board.grants| && ring.Length == CALLBACK_LEN
      requires 0 <= C.InitialKernelBreak(board, C.NewImage(board, bin, block)) < WORD
      modifies grants, ring
      ensures Valid() && Value() == C.NewProcess(board, bin, block, config.Value(), pid)
      ensures this.board == board && this.mpu == mpu
      ensures mpuConfig == config && grantPointers == grants && tasks.ring == ring && fresh(tasks)
    {
      var m := C.NewImage(board, bin, block);
      this.board, image, this.mpu, grantPointers := board, m, mpu, grants;
      tasks := new RingBuffer<Task>(ring);
      processId, state, mpuConfig := pid, Yielded, config;
      appBreak, kernelMemoryBreak, allowHighWaterMark :=
        m.memStart + INITIAL_APP_BYTES, C.InitialKernelBreak(board, m), m.memStart;
      memory := seq(|board.grants|, _ => GrantMemory([], [], []));
      restartCount, completionCode := 0, None;
      new;
      GrantPtrsReset();
      var _ := tasks.Enqueue(InitTask());
    }

    function InitTask(): Task
      reads this
    {
      Call(FunctionCall(Kernel, image.appStart, image.memStart, image.memLen, appBreak, image.initFn))
    }

    // ------------------------------------------------------------- memory

    // A successful move of the break is in force when brk returns: the
    // hardware registers hold the new table.
    method Brk(newBreak: nat) returns (r: Reply<nat, Error>)
      requires Valid()
      modifies this`appBreak, mpuConfig, mpu`hardwareIsConfiguredFor, mpu`registers
      ensures Valid() && (r, Value()) == S.Brk(old(Value()), newBreak)
      ensures r.Success? ==> mpuConfig != null && mpu.registers == CortexMpu.Image(mpuConfig.regions)
      ensures MpuLeft()
    {
      if !S.IsRunning(state) { return Failure(InactiveApp); }
      if mpuConfig == null { return Failure(KernelError); }
      if newBreak < allowHighWaterMark || newBreak >= image.memStart + image.memLen { return Failure(AddressOutOfBounds); }
      if newBreak > kernelMemoryBreak { return Failure(OutOfMemory); }
      var result := mpu.UpdateAppMemoryRegion(newBreak, kernelMemoryBreak, ReadWriteOnly, mpuConfig);
      match result
      case Overflow => return Trap;
      case Failed => return Failure(OutOfMemory);
      case Done(_) =>
        r := Success(appBreak);
        appBreak := newBreak;
        mpu.ConfigureMpu(mpuConfig);
    }

    method Sbrk(increment: int) returns (r: Reply<nat, Error>)
      requires Valid()
      modifies this`appBreak, mpuConfig, mpu`hardwareIsConfiguredFor, mpu`registers
      ensures Valid() && (r, Value()) == S.Sbrk(old(Value()), increment)
      ensures r.Success? ==> mpuConfig != null && mpu.registers == CortexMpu.Image(mpuConfig.regions)
      ensures MpuLeft()
    {
      if !S.IsRunning(state) { return Failure(InactiveApp); }
      r := Brk(S.WrapAdd(appBreak, increment));
    }

    // Before a process executes, the hardware holds its table.
    method SetupMpu()
      requires Valid()
      modifies mpuConfig, mpu`hardwareIsConfiguredFor, mpu`registers
      ensures Valid() && Value() == S.SetupMpu(old(Value()))
      ensures mpuConfig != null ==>
                mpu.hardwareIsConfiguredFor == Some(mpuConfig.id) && mpu.registers == CortexMpu.Image(mpuConfig.regions)
      ensures MpuLeft()
    {
      if mpuConfig != null { mpu.ConfigureMpu(mpuConfig); }
    }

    method InAppOwnedMemory(start: nat, size: nat) returns (b: bool)
      requires Valid()
      ensures b <==> S.InAppOwnedMemory(Value(), start, size)
    {
      var end := S.WrapAdd(start, size);
      return end >= start && start >= image.memStart && end <= appBreak;
    }

    method BuildReadWriteProcessBuffer(start: nat, size: nat) returns (r: Reply<Buffer, ErrorCode>)
      requires Valid()
      modifies this`allowHighWaterMark
      ensures Valid() && (r, Value()) == S.Build(old(Value()), RwAllow, start, size)
    {
      if !S.IsRunning(state) { return Failure(FAIL); }
      if size == 0 { return Success(Buffer(start, 0, processId)); }
      var owned := InAppOwnedMemory(start, size);
      if !owned { return Failure(INVAL); }
      allowHighWaterMark := Max(allowHighWaterMark, S.WrapAdd(start, size));
      return Success(Buffer(start, size, processId));
    }

    method BuildReadOnlyProcessBuffer(start: nat, size: nat) returns (r: Reply<Buffer, ErrorCode>)
      requires Valid()
      modifies this`allowHighWaterMark
      ensures Valid() && (r, Value()) == S.Build(old(Value()), RoAllow, start, size)
    {
      if !S.IsRunning(state) { return Failure(FAIL); }
      if size == 0 { return Success(Buffer(start, 0, processId)); }
      var owned := InAppOwnedMemory(start, size);
      if owned {
        allowHighWaterMark := Max(allowHighWaterMark, S.WrapAdd(start, size));
        return Success(Buffer(start, size, processId));
      }
      var end := S.WrapAdd(start, size);
      if end >= start && start >= image.flashStart + image.protectedSize && end <= image.flashStart + image.flashLen {
        return Success(Buffer(start, size, processId));
      }
      return Failure(INVAL);
    }

    // -------------------------------------------------------------- grants

    method AllocateInGrantRegionInternal(size: nat, align: nat) returns (r: Outcome<nat>)
      requires Valid() && size < WORD && align >= 1
      modifies this`kernelMemoryBreak, mpuConfig
      ensures Valid() && (r, Value()) == S.AllocateInGrantRegion(old(Value()), size, align)
    {
      if mpuConfig == null { return Failed; }
      var newBreak := AlignDown(S.WrapSub(kernelMemoryBreak, size), Max(align, 2));
      if newBreak < appBreak { return Failed; }
      if newBreak > kernelMemoryBreak { return Failed; }
      var result := mpu.UpdateAppMemoryRegion(appBreak, newBreak, ReadWriteOnly, mpuConfig);
      match result
      case Overflow => return Overflow;
      case Failed => return Failed;
      case Done(_) =>
        kernelMemoryBreak := newBreak;
        return Done(newBreak);
    }

    method DriverInUse(driverNum: nat) returns (used: bool)
      requires Valid()
      ensures used <==> S.DriverInUse(Value().grants, driverNum)
    {
      for i := 0 to grantPointers.Length
        invariant forall g :: 0 <= g < i ==> !(S.Allocated(grantPointers[g]) && grantPointers[g].driverNum == driverNum)
      {
        if S.Allocated(grantPointers[i]) && grantPointers[i].driverNum == driverNum { return true; }
      }
      return false;
    }

    method AllocateGrant(g: nat, driverNum: nat, size: nat, align: nat) returns (r: Reply<(), ()>)
      requires Valid() && size < WORD && align >= 1
      modifies this`kernelMemoryBreak, mpuConfig, grantPointers
      ensures Valid() && (r, Value()) == S.AllocateGrant(old(Value()), g, driverNum, size, align)
    {
      if !S.IsRunning(state) { return Failure(()); }
      if g >= grantPointers.Length { return Failure(()); }
      if S.Allocated(grantPointers[g]) { return Failure(()); }
      var used := DriverInUse(driverNum);
      if used { return Failure(()); }
      var ptr := AllocateInGrantRegionInternal(size, align);
      match ptr
      case Overflow => return Trap;
      case Failed => return Failure(());
      case Done(p) =>
        grantPointers[g] := GrantEntry(driverNum, p);
        return Success(());
    }

    method AllocateCustomGrant(size: nat, align: nat) returns (r: Reply<(int, nat), ()>)
      requires Valid() && size < WORD && align >= 1
      modifies this`kernelMemoryBreak, mpuConfig
      ensures Valid() && (r, Value()) == S.AllocateCustomGrant(old(Value()), size, align)
    {
      if !S.IsRunning(state) { return Failure(()); }
      var ptr := AllocateInGrantRegionInternal(size, align);
      match ptr
      case Overflow => return Trap;
      case Failed => return Failure(());
      case Done(p) => return Success((image.memStart + image.memLen - p, p));
    }

    method EnterGrant(g: nat) returns (r: Reply<nat, Error>)
      requires Valid()
      modifies grantPointers
      ensures Valid() && (r, Value()) == S.EnterGrant(old(Value()), g)
    {
      if !S.IsRunning(state) { return Failure(InactiveApp); }
      if g >= grantPointers.Length { return Failure(AddressOutOfBounds); }
      var entry := grantPointers[g];
      if entry.ptr % 2 == 1 { return Failure(AlreadyInUse); }
      grantPointers[g] := entry.(ptr := entry.ptr + 1);
      return Success(entry.ptr);
    }

    method LeaveGrant(g: nat)
      requires Valid()
      modifies grantPointers
      ensures Valid() && Value() == S.LeaveGrant(old(Value()), g)
    {
      if !S.IsRunning(state) || g >= grantPointers.Length { return; }
      grantPointers[g] := grantPointers[g].(ptr := S.Untagged(grantPointers[g].ptr));
    }

    method GrantIsAllocated(g: nat) returns (r: Option<bool>)
      requires Valid()
      ensures r == S.GrantIsAllocated(Value(), g)
    {
      if !S.IsRunning(state) || g >= grantPointers.Length { return None; }
      return Some(S.Allocated(grantPointers[g]));
    }

    method GrantAllocatedCount() returns (r: Option<nat>)
      requires Valid()
      ensures r == S.GrantAllocatedCount(Value())
    {
      if !S.IsRunning(state) { return None; }
      var count := 0;
      ghost var entries := grantPointers[..];
      for i := 0 to grantPointers.Length
        invariant count == S.AllocatedCount(entries[..i])
      {
        assert entries[..i + 1][..i] == entries[..i];
        if S.Allocated(grantPointers[i]) { count := count + 1; }
      }
      assert entries[..grantPointers.Length] == entries;
      return Some(count);
    }

    method LookupGrantFromDriverNum(driverNum: nat) returns (g: Option<nat>)
      requires Valid()
      ensures g == S.LookupGrant(Value(), driverNum)
    {
      ghost var entries := grantPointers[..];
      for i := 0 to grantPointers.Length
        invariant S.FindDriver(entries, driverNum, 0) == S.FindDriver(entries, driverNum, i)
      {
        if S.Allocated(grantPointers[i]) && grantPointers[i].driverNum == driverNum { return Some(i); }
      }
      return None;
    }

    // --------------------------------------------------------------- tasks

    method EnqueueTask(task: Task) returns (r: Reply<(), ErrorCode>)
      requires Valid()
      modifies tasks, tasks.ring
      ensures Valid() && (r, Value()) == S.Enqueue(old(Value()), task)
    {
      if !S.IsRunning(state) { return Failure(NODEVICE); }
      var ok := tasks.Enqueue(task);
      if ok { return Success(()); }
      return Failure(NOMEM);
    }

    method DequeueTask() returns (task: Option<Task>)
      requires Valid()
      modifies tasks
      ensures Valid() && (task, Value()) == S.Dequeue(old(Value()))
    {
      task := tasks.Dequeue();
    }

    method RemovePendingUpcalls(id: UpcallId)
      requires Valid()
      modifies tasks, tasks.ring
      ensures Valid() && Value() == S.RemovePendingUpcalls(old(Value()), id)
    {
      KeptIsWithout(tasks.Contents(), id);
      tasks.Retain((t: Task) => !S.IsUpcallOf(t, id));
    }

    method RemoveUpcall(id: UpcallId) returns (task: Option<Task>)
      requires Valid()
      modifies tasks, tasks.ring
      ensures Valid() && (task, Value()) == S.RemoveUpcall(old(Value()), id)
    {
      MatchIsWaking(tasks.Contents(), id, 0);
      task := tasks.RemoveFirstMatching((t: Task) => S.Wakes(t, id));
    }

    // ---------------------------------------------------------- life cycle

    method SetYieldedState()
      requires Valid()
      modifies this`state
      ensures Valid() && Value() == S.SetYielded(old(Value()))
    {
      if state == Running { state := Yielded; }
    }

    method SetYieldedForState(id: UpcallId)
      requires Valid()
      modifies this`state
      ensures Valid() && Value() == S.SetYieldedFor(old(Value()), id)
    {
      if state == Running { state := YieldedFor(id); }
    }

    method Stop()
      requires Valid()
      modifies this`state
      ensures Valid() && Value() == S.Stop(old(Value()))
    {
      match state
      case Running => state := Stopped(WasRunning);
      case Yielded => state := Stopped(WasYielded);
      case YieldedFor(id) => state := Stopped(WasYieldedFor(id));
      case _ =>
    }

    method Resume()
      requires Valid()
      modifies this`state
      ensures Valid() && Value() == S.Resume(old(Value()))
    {
      match state
      case Stopped(WasRunning) => state := Running;
      case Stopped(WasYielded) => state := Yielded;
      case Stopped(WasYieldedFor(id)) => state := YieldedFor(id);
      case _ =>
    }

    method GrantPtrsReset()
      requires Valid()
      modifies grantPointers
      ensures Valid() && Value() == old(Value()).(grants := S.NullGrants(grantPointers.Length))
    {
      for i := 0 to grantPointers.Length
        invariant forall g :: 0 <= g < i ==> grantPointers[g] == GrantEntry(0, 0)
      {
        grantPointers[i] := GrantEntry(0, 0);
      }
      assert grantPointers[..] == S.NullGrants(grantPointers.Length);
    }

    method Terminate(code: Option<nat>)
      requires Valid()
      modifies this`completionCode, this`state, tasks, grantPointers
      ensures Valid() && Value() == S.Terminate(old(Value()), code)
    {
      if !S.IsRunning(state) && state != Faulted { return; }
      tasks.Empty();
      GrantPtrsReset();
      completionCode := Some(code);
      state := Terminated;
    }

    // `newIdentifier` is the kernel's fresh identifier and `contextOk` the answer
    // of the architecture's initialize_process. After Trap the kernel has
    // stopped, and nothing is said of the process.
    method Reset(newIdentifier: nat, contextOk: bool) returns (r: Reply<(), ErrorCode>)
      requires Valid()
      modifies this, mpuConfig, tasks, tasks.ring
      ensures mpuConfig == null || mpuConfig == old(mpuConfig)
      ensures Valid() && r == S.Reset(board, old(Value()), newIdentifier, contextOk).0
      ensures !r.Trap? ==> Value() == S.Reset(board, old(Value()), newIdentifier, contextOk).1
    {
      ghost var p := Value();
      processId := ProcessId(newIdentifier, processId.index);
      if mpuConfig == null { return Failure(FAIL); }
      var config := mpuConfig;
      mpuConfig := null;
      var table := RebuildTable(config);
      assert Value() == p.(pid := ProcessId(newIdentifier, p.pid.index), mpu := None);
      ResetWithTaken(p, table, newIdentifier, contextOk);
      r := Relaunch(table, config, newIdentifier, contextOk);
    }

    // The rest of reset, once the table is rebuilt.
    method Relaunch(table: S.ResetTable, config: CortexMConfig, newIdentifier: nat, contextOk: bool)
      returns (r: Reply<(), ErrorCode>)
      requires Valid() && processId.identifier == newIdentifier && mpuConfig == null
      requires mpu.Fits(config) && mpu.Synced(config) && (table.Rebuilt? ==> config.Value() == table.config)
      modifies this, tasks, tasks.ring
      ensures mpuConfig == null || mpuConfig == config
      ensures Valid() && r == S.ResetWith(old(Value()), table, newIdentifier, contextOk).0
      ensures !r.Trap? ==> Value() == S.ResetWith(old(Value()), table, newIdentifier, contextOk).1
    {
      match table
      case Trapped => return Trap;
      case NoFlashRegion => return Failure(FAIL);
      case NoRamRegion => return Failure(NOMEM);
      case Rebuilt(block, _) =>
        Place(block, config);
        if !contextOk { return Failure(RESERVE); }
        restartCount := restartCount + 1;
        state := Yielded;
        r := EnqueueTask(InitTask());
    }

    // Reset the memory pointers for a block and keep its configuration.
    method Place(block: Location, config: CortexMConfig)
      requires Valid() && mpu.Fits(config) && mpu.Synced(config)
      modifies this`appBreak, this`kernelMemoryBreak, this`allowHighWaterMark, this`mpuConfig
      ensures Valid() && mpuConfig == config
      ensures Value() == old(Value()).(appBreak := block.start + INITIAL_APP_BYTES,
                                       kernelBreak := S.WrapAdd(block.start, block.size - image.kernelBytes),
                                       highWater := block.start, mpu := Some(config.Value()))
    {
      appBreak := block.start + INITIAL_APP_BYTES;
      kernelMemoryBreak := S.WrapAdd(block.start, block.size - image.kernelBytes);
      allowHighWaterMark := block.start;
      mpuConfig := config;
    }

    // The MPU part of reset: nothing, then flash, then RAM.
    method RebuildTable(config: CortexMConfig) returns (table: S.ResetTable)
      requires mpu.Valid() && board.unit == mpu.minRegionSize && mpu.Fits(config)
      modifies config
      ensures mpu.Fits(config) && mpu.Synced(config)
      ensures table == S.RebuildTable(board, old(config.Value()), image)
      ensures table.Rebuilt? ==> config.Value() == table.config
    {
      mpu.ResetConfig(config);
      var flash := mpu.AllocateRegion(image.flashStart, image.flashLen, image.flashLen, ReadExecuteOnly, config);
      if flash == Overflow { return S.Trapped; }
      if flash == Failed { return S.NoFlashRegion; }
      var block := mpu.AllocateAppMemoryRegion(image.memStart, image.memLen, image.memLen, INITIAL_APP_BYTES,
                                               image.kernelBytes, ReadWriteOnly, config);
      if block == Overflow { return S.Trapped; }
      if block == Failed { return S.NoRamRegion; }
      return S.Rebuilt(block.value, config.Value());
    }

    method Start(newIdentifier: nat, contextOk: bool) returns (trapped: bool)
      requires Valid()
      modifies this, mpuConfig, tasks, tasks.ring
      ensures mpuConfig == null || mpuConfig == old(mpuConfig)
      ensures Valid() && (!trapped ==> Value() == S.Start(board, old(Value()), newIdentifier, contextOk))
      ensures trapped <==> S.StartTraps(board, old(Value()), newIdentifier, contextOk)
    {
      if state != Terminated { return false; }
      var r := Reset(newIdentifier, contextOk);
      if r.Success? { state := Yielded; }
      return r.Trap?;
    }

    method TryRestart(code: Option<nat>, newIdentifier: nat, contextOk: bool) returns (trapped: bool)
      requires Valid()
      modifies this, mpuConfig, tasks, tasks.ring, grantPointers
      ensures mpuConfig == null || mpuConfig == old(mpuConfig)
      ensures Valid() && (!trapped ==> Value() == S.TryRestart(board, old(Value()), code, newIdentifier, contextOk))
      ensures trapped <==> S.RestartTraps(board, old(Value()), code, newIdentifier, contextOk)
    {
      if state == Terminated { return false; }
      Terminate(code);
      var r := Reset(newIdentifier, contextOk);
      if r.Success? { state := Yielded; }
      return r.Trap?;
    }

    method SetFaultState(action: FaultAction, newIdentifier: nat, contextOk: bool) returns (trapped: bool)
      requires Valid()
      modifies this, mpuConfig, tasks, tasks.ring, grantPointers
      ensures mpuConfig == null || mpuConfig == old(mpuConfig)
      ensures Valid() && (trapped <==> S.FaultTraps(board, old(Value()), action, newIdentifier, contextOk))
      ensures !trapped ==> Some(Value()) == S.SetFault(board, old(Value()), action, newIdentifier, contextOk)
    {
      match action
      case PanicAction =>
        state := Faulted;
        return true;
      case RestartAction =>
        trapped := TryRestart(None, newIdentifier, contextOk);
      case StopAction =>
        Terminate(None);
        state := Faulted;
        return false;
    }
  }
}
