// A process as a value, and every kernel operation on it as a function of that
// value (kernel/src/process.rs, process_standard.rs, upcall.rs and grant.rs).

module ProcessTypes {
  import opened Wrappers
  import opened Powers
  import opened Region
  import T = MpuTable
  import L = GrantLayout

  datatype ProcessId = ProcessId(identifier: nat, index: nat)

  datatype UpcallId = UpcallId(driverNum: nat, subscribeNum: nat)

  datatype FunctionCallSource = Kernel | Driver(id: UpcallId)

  datatype FunctionCall =
    FunctionCall(source: FunctionCallSource, argument0: nat, argument1: nat, argument2: nat, argument3: nat, pc: nat)

  datatype Task =
    | Call(call: FunctionCall)
    | ReturnValue(id: UpcallId, argument0: nat, argument1: nat, argument2: nat)
    | Ipc(sender: ProcessId, toService: bool)

  datatype StoppedState = WasRunning | WasYielded | WasYieldedFor(id: UpcallId)

  datatype State =
    | Running
    | Yielded
    | YieldedFor(id: UpcallId)
    | Stopped(was: StoppedState)
    | Faulted
    | Terminated

  datatype Error = InactiveApp | KernelError | AddressOutOfBounds | OutOfMemory | AlreadyInUse | NoSuchApp

  datatype ErrorCode = FAIL | RESERVE | INVAL | NOMEM | NODEVICE | NOSUPPORT

  datatype FaultAction = PanicAction | RestartAction | StopAction

  // A reply, or Trap when the kernel itself stops: an explicit panic, or
  // arithmetic that leaves the 32-bit range.
  datatype Reply<+V, +E> = Success(value: V) | Failure(error: E) | Trap

  // Entry of the grant pointer table; the pointer is 0 when not allocated, and
  // its lowest bit is set while the grant is entered.
  datatype GrantEntry = GrantEntry(driverNum: nat, ptr: nat)

  // fn_ptr 0 is the Null Upcall.
  datatype SavedUpcall = SavedUpcall(appdata: nat, fnPtr: nat)
  datatype SavedAllow = SavedAllow(ptr: nat, len: nat)

  // The kernel-managed part of an allocated grant.
  datatype GrantMemory =
    GrantMemory(upcalls: seq<SavedUpcall>, allowRos: seq<SavedAllow>, allowRws: seq<SavedAllow>)
  {
    function Allows(kind: AllowKind): seq<SavedAllow> {
      if kind == RwAllow then allowRws else allowRos
    }

    // One buffer of that kind replaced.
    function WithAllow(kind: AllowKind, n: nat, buffer: SavedAllow): GrantMemory
      requires n < |Allows(kind)|
    {
      if kind == RwAllow then this.(allowRws := allowRws[n := buffer]) else this.(allowRos := allowRos[n := buffer])
    }
  }

  // Read-write and read-only allows are the same call on different arrays.
  datatype AllowKind = RwAllow | RoAllow

  // A grant as created at board setup.
  datatype GrantDecl = GrantDecl(driverNum: nat, counts: L.Counts, tSize: nat, tAlign: nat)

  datatype Buffer = Buffer(ptr: nat, len: nat, pid: ProcessId)

  // Constants of a board. `taskBytes` and `structBytes` are the sizes of the task
  // buffer and of the process struct kept at the top of process memory.
  datatype Board = Board(unit: nat, numRegions: nat, taskBytes: nat, structBytes: nat, grants: seq<GrantDecl>)

  ghost predicate ValidBoard(b: Board) {
    && IsPow2(b.unit) && b.unit >= 32 && 3 <= b.numRegions <= 16
    && b.structBytes > 0
    && (forall g :: 0 <= g < |b.grants| ==> IsPow2(b.grants[g].tAlign) && L.ValidCounts(b.grants[g].counts))
  }

  // What a process keeps from creation on.
  datatype Image =
    Image(memStart: nat, memLen: nat, kernelBytes: nat,
          flashStart: nat, flashLen: nat, protectedSize: nat, appStart: nat, initFn: nat)

  type MpuConfig = c: T.Config | |c.regions| >= 2 witness T.Config(0, [Empty(0), Empty(1)], true)

  datatype Process =
    Process(image: Image, pid: ProcessId, state: State,
            appBreak: nat, kernelBreak: nat, highWater: nat, mpu: Option<MpuConfig>,
            grants: seq<GrantEntry>, memory: seq<GrantMemory>, tasks: seq<Task>,
            restartCount: nat, completionCode: Option<Option<nat>>)

  // The ring of CALLBACK_LEN = 10 slots holds at most nine tasks.
  const TASK_CAPACITY: nat := 9

  // Bytes of app memory a Cortex-M process starts with (its first stack frame).
  const INITIAL_APP_BYTES: nat := 32

  const GRANT_ENTRY_BYTES: nat := 8
  const USIZE_BYTES: nat := 4
}

module ProcessSpec {
  import opened Wrappers
  import opened Powers
  import opened Region
  import opened MpuPlan
  import opened ProcessTypes
  import T = MpuTable
  import L = GrantLayout

  // ------------------------------------------------------- small accessors

  predicate IsRunning(s: State) {
    s.Running? || s.Yielded? || s.YieldedFor? || s.Stopped?
  }

  function MemEnd(p: Process): nat { p.image.memStart + p.image.memLen }

  function FlashEnd(p: Process): nat { p.image.flashStart + p.image.flashLen }

  function WrapAdd(x: nat, y: int): (r: nat) { (x + y) % WORD }

  // The three comparisons of in_app_owned_memory, with its wrapping end.
  predicate InAppOwnedMemory(p: Process, start: nat, size: nat) {
    var end := WrapAdd(start, size);
    end >= start && start >= p.image.memStart && end <= p.appBreak
  }

  predicate InAppFlashMemory(p: Process, start: nat, size: nat) {
    var end := WrapAdd(start, size);
    end >= start && start >= p.image.flashStart + p.image.protectedSize && end <= FlashEnd(p)
  }

  predicate Ready(p: Process) { p.tasks != [] || p.state == Running }

  // ---------------------------------------------------- memory and buffers

  function Brk(p: Process, newBreak: nat): (Reply<nat, Error>, Process) {
    if !IsRunning(p.state) then (Failure(InactiveApp), p)
    else if p.mpu.None? then (Failure(KernelError), p)
    else if newBreak < p.highWater || newBreak >= MemEnd(p) then (Failure(AddressOutOfBounds), p)
    else if newBreak > p.kernelBreak then (Failure(OutOfMemory), p)
    else
      var (r, c) := T.UpdateApp(p.mpu.value, newBreak, p.kernelBreak, ReadWriteOnly);
      match r
      case Overflow => (Trap, p)
      case Failed => (Failure(OutOfMemory), p)
      // configure_mpu writes the new table, so it is no longer dirty.
      case Done(_) => (Success(p.appBreak), p.(appBreak := newBreak, mpu := Some(c.(dirty := false))))
  }

  function Sbrk(p: Process, increment: int): (Reply<nat, Error>, Process) {
    if !IsRunning(p.state) then (Failure(InactiveApp), p)
    else Brk(p, WrapAdd(p.appBreak, increment))
  }

  function RaiseHighWater(p: Process, end: nat): Process {
    p.(highWater := Max(p.highWater, end))
  }

  // build_readwrite_process_buffer and build_readonly_process_buffer: the latter
  // also takes flash.
  function Build(p: Process, kind: AllowKind, start: nat, size: nat): (Reply<Buffer, ErrorCode>, Process) {
    if !IsRunning(p.state) then (Failure(FAIL), p)
    else if size == 0 then (Success(Buffer(start, 0, p.pid)), p)
    else if InAppOwnedMemory(p, start, size) then
      (Success(Buffer(start, size, p.pid)), RaiseHighWater(p, WrapAdd(start, size)))
    else if kind == RoAllow && InAppFlashMemory(p, start, size) then (Success(Buffer(start, size, p.pid)), p)
    else (Failure(INVAL), p)
  }

  // setup_mpu: whatever was to be written has been.
  function SetupMpu(p: Process): Process {
    if p.mpu.None? then p else p.(mpu := Some(p.mpu.value.(dirty := false)))
  }

  // ------------------------------------------------------ grant allocation

  // kernel_memory_break.wrapping_sub(size).
  function WrapSub(x: nat, size: nat): nat
    requires size < WORD && x < WORD
  {
    if size <= x then x - size else x - size + WORD
  }

  // Move the kernel break down for a new allocation; its new value is the
  // allocation's address.
  function AllocateInGrantRegion(p: Process, size: nat, align: nat): (Outcome<nat>, Process)
    requires size < WORD && p.kernelBreak < WORD && align >= 1
  {
    if p.mpu.None? then (Failed, p)
    else
      var newBreak := AlignDown(WrapSub(p.kernelBreak, size), Max(align, 2));
      if newBreak < p.appBreak then (Failed, p)
      else if newBreak > p.kernelBreak then (Failed, p)
      else
        var (r, c) := T.UpdateApp(p.mpu.value, p.appBreak, newBreak, ReadWriteOnly);
        match r
        case Overflow => (Overflow, p)
        case Failed => (Failed, p)
        case Done(_) => (Done(newBreak), p.(kernelBreak := newBreak, mpu := Some(c)))
  }

  predicate Allocated(e: GrantEntry) { e.ptr != 0 }

  function GrantIsAllocated(p: Process, g: nat): Option<bool> {
    if IsRunning(p.state) && g < |p.grants| then Some(Allocated(p.grants[g])) else None
  }

  predicate DriverInUse(grants: seq<GrantEntry>, driverNum: nat) {
    exists g :: 0 <= g < |grants| && Allocated(grants[g]) && grants[g].driverNum == driverNum
  }

  function AllocateGrant(p: Process, g: nat, driverNum: nat, size: nat, align: nat): (Reply<(), ()>, Process)
    requires size < WORD && p.kernelBreak < WORD && align >= 1
  {
    if !IsRunning(p.state) || g >= |p.grants| || Allocated(p.grants[g]) || DriverInUse(p.grants, driverNum)
    then (Failure(()), p)
    else match AllocateInGrantRegion(p, size, align)
      case (Overflow, _) => (Trap, p)
      case (Failed, _) => (Failure(()), p)
      case (Done(ptr), q) => (Success(()), q.(grants := q.grants[g := GrantEntry(driverNum, ptr)]))
  }

  // Custom grants are named by their distance from the end of process memory.
  function CustomGrantOffset(p: Process, address: nat): int { MemEnd(p) - address }

  function CustomGrantAddress(p: Process, offset: int): int { MemEnd(p) - offset }

  function AllocateCustomGrant(p: Process, size: nat, align: nat): (Reply<(int, nat), ()>, Process)
    requires size < WORD && p.kernelBreak < WORD && align >= 1
  {
    if !IsRunning(p.state) then (Failure(()), p)
    else match AllocateInGrantRegion(p, size, align)
      case (Overflow, _) => (Trap, p)
      case (Failed, _) => (Failure(()), p)
      case (Done(ptr), q) => (Success((CustomGrantOffset(q, ptr), ptr)), q)
  }

  // ---------------------------------------------------- entering and leaving

  predicate Entered(e: GrantEntry) { e.ptr % 2 == 1 }

  function Untagged(ptr: nat): nat { ptr - ptr % 2 }

  function EnterGrant(p: Process, g: nat): (Reply<nat, Error>, Process) {
    if !IsRunning(p.state) then (Failure(InactiveApp), p)
    else if g >= |p.grants| then (Failure(AddressOutOfBounds), p)
    else if Entered(p.grants[g]) then (Failure(AlreadyInUse), p)
    else (Success(p.grants[g].ptr), p.(grants := p.grants[g := p.grants[g].(ptr := p.grants[g].ptr + 1)]))
  }

  function LeaveGrant(p: Process, g: nat): Process {
    if !IsRunning(p.state) || g >= |p.grants| then p
    else p.(grants := p.grants[g := p.grants[g].(ptr := Untagged(p.grants[g].ptr))])
  }

  // Position of the first allocated entry with this driver number, from `i` on.
  function FindDriver(grants: seq<GrantEntry>, driverNum: nat, i: nat): (g: Option<nat>)
    requires i <= |grants|
    ensures g.Some? ==> i <= g.value < |grants| && Allocated(grants[g.value]) && grants[g.value].driverNum == driverNum
    ensures g.None? ==> forall h :: i <= h < |grants| ==> !(Allocated(grants[h]) && grants[h].driverNum == driverNum)
    decreases |grants| - i
  {
    if i == |grants| then None
    else if Allocated(grants[i]) && grants[i].driverNum == driverNum then Some(i)
    else FindDriver(grants, driverNum, i + 1)
  }

  function LookupGrant(p: Process, driverNum: nat): Option<nat> { FindDriver(p.grants, driverNum, 0) }

  function AllocatedCount(grants: seq<GrantEntry>): nat {
    if grants == [] then 0
    else AllocatedCount(grants[..|grants| - 1]) + (if Allocated(grants[|grants| - 1]) then 1 else 0)
  }

  function GrantAllocatedCount(p: Process): Option<nat> {
    if IsRunning(p.state) then Some(AllocatedCount(p.grants)) else None
  }

  // ------------------------------------------------------------- task queue

  function Enqueue(p: Process, t: Task): (Reply<(), ErrorCode>, Process) {
    if !IsRunning(p.state) then (Failure(NODEVICE), p)
    else if |p.tasks| >= TASK_CAPACITY then (Failure(NOMEM), p)
    else (Success(()), p.(tasks := p.tasks + [t]))
  }

  function Dequeue(p: Process): (Option<Task>, Process) {
    if p.tasks == [] then (None, p) else (Some(p.tasks[0]), p.(tasks := p.tasks[1..]))
  }

  predicate IsUpcallOf(t: Task, id: UpcallId) { t.Call? && t.call.source == Driver(id) }

  // Tasks other than queued calls of this upcall.
  function WithoutUpcall(tasks: seq<Task>, id: UpcallId): (r: seq<Task>)
    ensures forall t :: t in r <==> t in tasks && !IsUpcallOf(t, id)
    ensures |r| <= |tasks|
  {
    if tasks == [] then []
    else
      var front := WithoutUpcall(tasks[..|tasks| - 1], id);
      assert tasks == tasks[..|tasks| - 1] + [tasks[|tasks| - 1]];
      if IsUpcallOf(tasks[|tasks| - 1], id) then front else front + [tasks[|tasks| - 1]]
  }

  function RemovePendingUpcalls(p: Process, id: UpcallId): Process {
    p.(tasks := WithoutUpcall(p.tasks, id))
  }

  predicate Wakes(t: Task, id: UpcallId) { IsUpcallOf(t, id) || (t.ReturnValue? && t.id == id) }

  // Index of the first task that answers a wait for this upcall.
  function FirstWaking(tasks: seq<Task>, id: UpcallId, i: nat): (k: Option<nat>)
    requires i <= |tasks|
    ensures k.Some? ==> i <= k.value < |tasks| && Wakes(tasks[k.value], id)
    ensures k.Some? ==> forall j :: i <= j < k.value ==> !Wakes(tasks[j], id)
    ensures k.None? ==> forall j :: i <= j < |tasks| ==> !Wakes(tasks[j], id)
    decreases |tasks| - i
  {
    if i == |tasks| then None
    else if Wakes(tasks[i], id) then Some(i)
    else FirstWaking(tasks, id, i + 1)
  }

  function RemoveUpcall(p: Process, id: UpcallId): (Option<Task>, Process) {
    match FirstWaking(p.tasks, id, 0)
    case None => (None, p)
    case Some(k) => (Some(p.tasks[k]), p.(tasks := p.tasks[..k] + p.tasks[k + 1..]))
  }

  // ------------------------------------------------------------- life cycle

  function SetYielded(p: Process): Process {
    if p.state == Running then p.(state := Yielded) else p
  }

  function SetYieldedFor(p: Process, id: UpcallId): Process {
    if p.state == Running then p.(state := YieldedFor(id)) else p
  }

  function Stop(p: Process): Process {
    match p.state
    case Running => p.(state := Stopped(WasRunning))
    case Yielded => p.(state := Stopped(WasYielded))
    case YieldedFor(id) => p.(state := Stopped(WasYieldedFor(id)))
    case _ => p
  }

  function Resume(p: Process): Process {
    match p.state
    case Stopped(WasRunning) => p.(state := Running)
    case Stopped(WasYielded) => p.(state := Yielded)
    case Stopped(WasYieldedFor(id)) => p.(state := YieldedFor(id))
    case _ => p
  }

  function NullGrants(n: nat): (s: seq<GrantEntry>)
    ensures |s| == n && forall g :: 0 <= g < n ==> s[g] == GrantEntry(0, 0)
  {
    seq(n, _ => GrantEntry(0, 0))
  }

  function Terminate(p: Process, code: Option<nat>): Process {
    if !IsRunning(p.state) && p.state != Faulted then p
    else p.(tasks := [], grants := NullGrants(|p.grants|), completionCode := Some(code), state := Terminated)
  }

  function InitTask(p: Process): Task {
    Call(FunctionCall(Kernel, p.image.appStart, p.image.memStart, p.image.memLen, p.appBreak, p.image.initFn))
  }

  datatype ResetTable = Trapped | NoFlashRegion | NoRamRegion | Rebuilt(block: Location, config: MpuConfig)

  // Rebuild the region table of a process from nothing: flash, then RAM.
  function RebuildTable(b: Board, c: MpuConfig, m: Image): ResetTable
    requires IsPow2(b.unit) && b.unit >= 32
  {
    var (flash, c1) := T.AllocateRegion(b.unit, T.Reset(c), m.flashStart, m.flashLen, m.flashLen, ReadExecuteOnly);
    if flash == Overflow then Trapped
    else if flash == Failed then NoFlashRegion
    else RebuildRam(c1, m)
  }

  function RebuildRam(c: MpuConfig, m: Image): ResetTable {
    var (block, c') :=
      T.AllocateApp(c, m.memStart, m.memLen, m.memLen, INITIAL_APP_BYTES, m.kernelBytes, ReadWriteOnly);
    if block == Overflow then Trapped
    else if block == Failed then NoRamRegion
    else Rebuilt(block.value, c')
  }

  function ResetWith(p: Process, table: ResetTable, newId: nat, contextOk: bool): (Reply<(), ErrorCode>, Process) {
    var p0 := p.(pid := ProcessId(newId, p.pid.index));
    match table
    case Trapped => (Trap, p)
    case NoFlashRegion => (Failure(FAIL), p0.(mpu := None))
    case NoRamRegion => (Failure(NOMEM), p0.(mpu := None))
    case Rebuilt(l, c) =>
      var p1 := p0.(appBreak := l.start + INITIAL_APP_BYTES,
                    kernelBreak := WrapAdd(l.start, l.size - p.image.kernelBytes),
                    highWater := l.start, mpu := Some(c));
      if !contextOk then (Failure(RESERVE), p1)
      else
        var p2 := p1.(restartCount := p.restartCount + 1, state := Yielded);
        Enqueue(p2, InitTask(p2))
  }

  // Re-initialize a process that is not running, under a fresh identifier.
  // `contextOk` is the answer of the architecture's initialize_process.
  function Reset(b: Board, p: Process, newId: nat, contextOk: bool): (Reply<(), ErrorCode>, Process)
    requires IsPow2(b.unit) && b.unit >= 32
  {
    if p.mpu.None? then (Failure(FAIL), p.(pid := ProcessId(newId, p.pid.index)))
    else ResetWith(p, RebuildTable(b, p.mpu.value, p.image), newId, contextOk)
  }

  function AfterReset(r: (Reply<(), ErrorCode>, Process)): Process {
    if r.0.Success? then r.1.(state := Yielded) else r.1
  }

  function Start(b: Board, p: Process, newId: nat, contextOk: bool): Process
    requires IsPow2(b.unit) && b.unit >= 32
  {
    if p.state != Terminated then p else AfterReset(Reset(b, p, newId, contextOk))
  }

  function TryRestart(b: Board, p: Process, code: Option<nat>, newId: nat, contextOk: bool): Process
    requires IsPow2(b.unit) && b.unit >= 32
  {
    if p.state == Terminated then p
    else AfterReset(Reset(b, Terminate(p, code), newId, contextOk))
  }

  // None: the kernel panics on behalf of the fault policy.
  function SetFault(b: Board, p: Process, action: FaultAction, newId: nat, contextOk: bool): Option<Process>
    requires IsPow2(b.unit) && b.unit >= 32
  {
    match action
    case PanicAction => None
    case RestartAction => Some(TryRestart(b, p, None, newId, contextOk))
    case StopAction => Some(Terminate(p, None).(state := Faulted))
  }

  // Where the life cycle stops the kernel.
  predicate RestartTraps(b: Board, p: Process, code: Option<nat>, newId: nat, contextOk: bool)
    requires IsPow2(b.unit) && b.unit >= 32
  {
    p.state != Terminated && Reset(b, Terminate(p, code), newId, contextOk).0.Trap?
  }

  predicate StartTraps(b: Board, p: Process, newId: nat, contextOk: bool)
    requires IsPow2(b.unit) && b.unit >= 32
  {
    p.state == Terminated && Reset(b, p, newId, contextOk).0.Trap?
  }

  predicate FaultTraps(b: Board, p: Process, action: FaultAction, newId: nat, contextOk: bool)
    requires IsPow2(b.unit) && b.unit >= 32
  {
    action == PanicAction || (action == RestartAction && RestartTraps(b, p, None, newId, contextOk))
  }

  // ------------------------------------------------------ grants of capsules

  function DefaultMemory(n: L.Counts): GrantMemory {
    GrantMemory(seq(n.upcalls, _ => SavedUpcall(0, 0)),
                seq(n.allowRos, _ => SavedAllow(0, 0)),
                seq(n.allowRws, _ => SavedAllow(0, 0)))
  }

  predicate Sized(b: Board, p: Process) {
    && |p.grants| == |b.grants| && |p.memory| == |b.grants| && p.kernelBreak < WORD
    && forall g :: 0 <= g < |b.grants| ==> b.grants[g].tAlign > 0
  }

  // ProcessGrant::new: make sure grant g exists in this process, allocating and
  // initializing it on first use. A request larger than a word traps.
  function NewGrant(b: Board, p: Process, g: nat): (Reply<(), Error>, Process)
    requires Sized(b, p)
  {
    match GrantIsAllocated(p, g)
    case None => (Failure(InactiveApp), p)
    case Some(true) => (Success(()), p)
    case Some(false) =>
      var d := b.grants[g];
      var size := L.GrantSize(d.counts, d.tSize, d.tAlign);
      if size >= WORD then (Trap, p)
      else match AllocateGrant(p, g, d.driverNum, size, L.GrantAlign(d.tAlign))
        case (Trap, _) => (Trap, p)
        case (Failure(_), _) => (Failure(OutOfMemory), p)
        case (Success(_), q) => InitializeGrant(q, g, d.counts)
  }

  // Enter the new grant, write its defaults, and leave it again.
  function InitializeGrant(p: Process, g: nat, n: L.Counts): (Reply<(), Error>, Process)
    requires g < |p.memory|
  {
    match EnterGrant(p, g)
    case (Success(_), e) => (Success(()), LeaveGrant(e.(memory := e.memory[g := DefaultMemory(n)]), g))
    case (Failure(err), e) => (Failure(err), e)
    case (Trap, e) => (Trap, e)
  }

  // GrantKernelData::schedule_upcall on an allocated grant.
  function ScheduleUpcall(b: Board, p: Process, g: nat, subscribeNum: nat, r0: nat, r1: nat, r2: nat)
    : (Reply<(), ErrorCode>, Process)
    requires Sized(b, p)
  {
    if g >= |p.grants| || !Allocated(p.grants[g]) || subscribeNum >= |p.memory[g].upcalls| then (Failure(INVAL), p)
    else
      var id := UpcallId(b.grants[g].driverNum, subscribeNum);
      var saved := p.memory[g].upcalls[subscribeNum];
      if saved.fnPtr == 0 then Enqueue(p, ReturnValue(id, r0, r1, r2))
      else Enqueue(p, Call(FunctionCall(Driver(id), r0, r1, r2, saved.appdata, saved.fnPtr)))
  }

  // enter_grant_kernel_managed: the grant of this driver, entered.
  function EnterKernelManaged(p: Process, driverNum: nat): (Reply<nat, ErrorCode>, Process) {
    match LookupGrant(p, driverNum)
    case None => (Failure(NOMEM), p)
    case Some(g) =>
      if GrantIsAllocated(p, g).None? then (Failure(FAIL), p)
      else match EnterGrant(p, g)
        case (Success(_), q) => (Success(g), q)
        case (_, _) => (Failure(NOMEM), p)
  }

  // grant::subscribe: swap the saved upcall, returning the previous one.
  function SwapUpcall(p: Process, id: UpcallId, upcall: SavedUpcall): (Reply<SavedUpcall, ErrorCode>, Process)
    requires |p.memory| == |p.grants|
  {
    match EnterKernelManaged(p, id.driverNum)
    case (Failure(e), _) => (Failure(e), p)
    case (Trap, _) => (Trap, p)
    case (Success(g), q) =>
      var saved := q.memory[g].upcalls;
      if id.subscribeNum >= |saved| then (Failure(NOSUPPORT), LeaveGrant(q, g))
      else
        var m := q.memory[g].(upcalls := saved[id.subscribeNum := upcall]);
        (Success(saved[id.subscribeNum]), LeaveGrant(q.(memory := q.memory[g := m]), g))
  }

  // grant::allow_rw and grant::allow_ro.
  function SwapAllow(p: Process, kind: AllowKind, driverNum: nat, allowNum: nat, buffer: SavedAllow)
    : (Reply<SavedAllow, ErrorCode>, Process)
    requires |p.memory| == |p.grants|
  {
    match EnterKernelManaged(p, driverNum)
    case (Failure(e), _) => (Failure(e), p)
    case (Trap, _) => (Trap, p)
    case (Success(g), q) =>
      var saved := q.memory[g].Allows(kind);
      if allowNum >= |saved| then (Failure(NOSUPPORT), LeaveGrant(q, g))
      else
        var m := q.memory[g].WithAllow(kind, allowNum, buffer);
        (Success(saved[allowNum]), LeaveGrant(q.(memory := q.memory[g := m]), g))
  }
}
