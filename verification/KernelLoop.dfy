// Running one process (kernel/src/kernel.rs, do_process): the loop drives the
// process object, and every operation on it is a step of a run of System.

module KernelLoop {
  import opened Wrappers
  import opened Region
  import opened ProcessTypes
  import opened ProcessStandards
  import opened ObjectSteps
  import opened GrantTable
  import opened ProcessRuns
  import opened Restart
  import opened System
  import H = CortexMpu
  import M = ProcessMemory
  import S = ProcessSpec
  import T = MpuTable

  // The object is process k of a sound kernel state.
  ghost predicate Tracked(p: ProcessStandard, s: System.State, ram: Location, k: nat)
    reads p, p.mpu, Footprint(p)
  {
    && p.Valid() && ValidBoard(p.board)
    && SysInv(p.board, s, ram) && s.Intact() && k < |s.recs| && s.recs[k].p == p.Value()
  }

  // One operation on the process object is one step of the run.
  method Perform(p: ProcessStandard, op: Op, nextId: nat, ghost s: System.State, ghost ram: Location, ghost k: nat)
    returns (trapped: bool, nextId': nat, ghost t: System.State)
    requires Tracked(p, s, ram, k) && nextId == s.nextId && ValidOp(op)
    modifies Footprint(p), p.mpu`hardwareIsConfiguredFor, p.mpu`registers
    ensures Leads(p.board, s, ram, k, t) && (trapped <==> t.halted) && !t.wrecked
    ensures !trapped ==> Tracked(p, t, ram, k) && nextId' == t.nextId && p.mpuConfig == old(p.mpuConfig) && p.MpuLeft()
    ensures S.Sized(p.board, s.recs[k].p) && t == OnStep(p.board, s, k, op)
  {
    var before := p.processId;
    LeadsOn(p.board, s, ram, k, op);
    t := OnStep(p.board, s, k, op);
    trapped := Dispatch(p, op, nextId);
    nextId' := if p.processId != before then nextId + 1 else nextId;
    if !trapped { TableThere(p.board, t, ram, k); }
  }

  // A process of a sound state has its region table.
  lemma TableThere(b: Board, s: System.State, ram: Location, k: nat)
    requires ValidBoard(b) && SysInv(b, s, ram) && k < |s.recs|
    ensures s.recs[k].p.mpu.Some?
  {
    SlotAt(b, s, ram, k);
    LiveAccess(b, s.recs[k].p, 0);
  }

  method PerformAll(p: ProcessStandard, ops: seq<Op>, nextId: nat, ghost s: System.State, ghost ram: Location, ghost k: nat)
    returns (trapped: bool, nextId': nat, ghost t: System.State)
    requires Tracked(p, s, ram, k) && nextId == s.nextId && forall op :: op in ops ==> ValidOp(op)
    modifies Footprint(p), p.mpu`hardwareIsConfiguredFor, p.mpu`registers
    ensures Leads(p.board, s, ram, k, t) && (trapped <==> t.halted) && !t.wrecked
    ensures !trapped ==> Tracked(p, t, ram, k) && nextId' == t.nextId && p.mpuConfig == old(p.mpuConfig) && p.MpuLeft()
  {
    trapped, nextId', t := false, nextId, s;
    LeadsSelf(p.board, s, ram, k);
    for i := 0 to |ops|
      invariant Tracked(p, t, ram, k) && nextId' == t.nextId && p.mpuConfig == old(p.mpuConfig) && p.MpuLeft()
      invariant Leads(p.board, s, ram, k, t)
    {
      ghost var u := t;
      trapped, nextId', t := Perform(p, ops[i], nextId', t, ram, k);
      LeadsTrans(p.board, s, ram, k, u, t);
      if trapped { return; }
    }
  }

  // ---------------------------------------------------------------- do_process

  // Microseconds below which a timeslice counts as used up.
  const MIN_QUANTA_THRESHOLD_US: nat := 500

  datatype StoppedExecutingReason = NoWorkLeft | IsStopped | TimesliceExpired | KernelPreemption

  // Why the process came back to the kernel. A system call is whatever the
  // kernel and its capsules then do to the process.
  datatype Switch = FaultHit(hooked: bool) | SyscallFired(ops: seq<Op>) | Interrupted(timeLeft: bool) | SwitchFailed

  // What the timer, the scheduler, the hardware, the fault policy and the
  // inter-process communication capsule answer in one turn of the loop, and the
  // addresses the process writes to if it gets to execute.
  datatype Turn = Turn(remaining: Option<nat>, continues: bool, stores: seq<nat>, switch: Switch, contextSet: bool,
                       ipc: seq<Op>, action: FaultAction, contextOk: bool)

  ghost predicate ValidTurn(t: Turn) {
    && (t.switch.SyscallFired? ==> forall op :: op in t.switch.ops ==> ValidOp(op))
    && (forall op :: op in t.ipc ==> ValidOp(op))
  }

  // What userspace gets to see: its code running under a register file, or an
  // upcall handed to it.
  datatype Event =
    | Executed(p: Process, hardware: seq<H.Registers>)
    | Called(p: Process, call: FunctionCall)

  // The process runs under its own table, which lets it write no more than its
  // own memory; an upcall is the one registered at that moment.
  ghost predicate Sound(e: Event) {
    match e
    case Executed(p, hardware) =>
      && M.Inv(p) && p.state == Running && p.mpu.Some? && hardware == H.Image(p.mpu.value.regions)
      && forall a :: H.HardwareWritable(hardware, a) ==>
                       p.image.memStart <= a < if M.Roomy(p.image) then p.kernelBreak else S.MemEnd(p)
    case Called(p, call) =>
      |p.memory| == |p.grants| && Current(p, Call(call))
  }

  ghost predicate AllSound(log: seq<Event>, image: Image) {
    forall e :: e in log ==> Sound(e) && e.p.image == image
  }

  lemma ExecutesSoundly(b: Board, s: System.State, ram: Location, k: nat, hardware: seq<H.Registers>)
    requires ValidBoard(b) && SysInv(b, s, ram) && k < |s.recs| && s.recs[k].p.state == Running
    requires s.recs[k].p.mpu.Some? ==> hardware == H.Image(s.recs[k].p.mpu.value.regions)
    ensures Sound(Executed(s.recs[k].p, hardware))
  {
    SlotAt(b, s, ram, k);
    var p := s.recs[k].p;
    LiveAccess(b, p, 0);
    forall a | H.HardwareWritable(hardware, a)
      ensures p.image.memStart <= a < if M.Roomy(p.image) then p.kernelBreak else S.MemEnd(p)
    {
      H.ImageWritable(p.mpu.value.regions, a);
      LiveAccess(b, p, a);
      M.IsolationByAddress(p, a);
    }
  }

  // What a removed task was, and that it was current when removed.
  lemma TaskTaken(b: Board, s: System.State, ram: Location, k: nat, task: Task, q: Process)
    requires ValidBoard(b) && SysInv(b, s, ram) && k < |s.recs| && task in s.recs[k].p.tasks
    requires q.grants == s.recs[k].p.grants && q.memory == s.recs[k].p.memory
    ensures |q.memory| == |q.grants| && Current(q, task)
  {
    SlotAt(b, s, ram, k);
  }

  // Outcome of one turn: go round again, or stop with a reason. After a panic,
  // or once the process has written over the kernel's data, nothing is known.
  datatype TurnResult = Again | Break(reason: StoppedExecutingReason) | Panicked | Wrecked {
    predicate Lost() { Panicked? || Wrecked? }
  }

  // The result and the state the kernel was led to agree.
  predicate Agrees(result: TurnResult, t: System.State) {
    (result.Panicked? <==> t.halted && !t.wrecked) && (result.Wrecked? <==> t.wrecked) && !(t.wrecked && t.halted)
  }

  // Does one of the stores hit anything but the process's own memory?
  method AnyTrespass(p: ProcessStandard, stores: seq<nat>, ghost s: System.State, ghost ram: Location, ghost k: nat)
    returns (hit: Option<nat>)
    requires Tracked(p, s, ram, k)
    ensures hit.Some? ==> hit.value in stores && Trespasses(s.recs[k].p, hit.value)
    ensures hit.None? ==> forall a :: a in stores ==> !Trespasses(s.recs[k].p, a)
  {
    TableThere(p.board, s, ram, k);
    for i := 0 to |stores|
      invariant forall j :: 0 <= j < i ==> !Trespasses(s.recs[k].p, stores[j])
    {
      if T.Writable(p.mpuConfig.regions, stores[i])
         && !(p.image.memStart <= stores[i] < p.kernelMemoryBreak) { return Some(stores[i]); }
    }
    return None;
  }

  lemma LeadsWrecked(b: Board, s: System.State, ram: Location, k: nat, a: nat)
    requires ValidBoard(b) && SysInv(b, s, ram) && s.Intact() && k < |s.recs| && Trespasses(s.recs[k].p, a)
    ensures Leads(b, s, ram, k, s.(wrecked := true)) && s.recs[k].p.image.memLen >= 512 && !M.Roomy(s.recs[k].p.image)
  {
    LeadsStep(b, s, ram, Store(k, a));
    SlotAt(b, s, ram, k);
    TrespassMeans(b, s.recs[k].p, a);
  }

  // setup_mpu and the switch: what the process then executes under.
  method SwitchTo(p: ProcessStandard, ghost s: System.State, ghost ram: Location, ghost k: nat)
    returns (ghost u: System.State, ghost event: Event)
    requires Tracked(p, s, ram, k) && p.state == Running
    modifies p.mpuConfig, p.mpu`hardwareIsConfiguredFor, p.mpu`registers
    ensures Leads(p.board, s, ram, k, u) && u.nextId == s.nextId && Tracked(p, u, ram, k) && p.MpuLeft()
    ensures event == Executed(p.Value(), p.mpu.registers) && Sound(event)
  {
    LeadsOn(p.board, s, ram, k, SetupOp);
    p.SetupMpu();
    u := OnStep(p.board, s, k, SetupOp);
    event := Executed(p.Value(), p.mpu.registers);
    ExecutesSoundly(p.board, u, ram, k, p.mpu.registers);
  }

  // The process writes where it writes, and comes back.
  method Execute(p: ProcessStandard, t: Turn, nextId: nat, ghost s: System.State, ghost ram: Location, ghost k: nat)
    returns (result: TurnResult, nextId': nat, ghost u: System.State)
    requires Tracked(p, s, ram, k) && nextId == s.nextId && ValidTurn(t)
    modifies Footprint(p), p.mpu`hardwareIsConfiguredFor, p.mpu`registers
    ensures Leads(p.board, s, ram, k, u) && Agrees(result, u)
    ensures u.Intact() ==> Tracked(p, u, ram, k) && nextId' == u.nextId && p.mpuConfig == old(p.mpuConfig) && p.MpuLeft()
    ensures result.Wrecked? ==> p.image.memLen >= 512 && !M.Roomy(p.image)
    ensures result.Break? ==> result.reason == TimesliceExpired
  {
    var hit := AnyTrespass(p, t.stores, s, ram, k);
    if hit.Some? {
      LeadsWrecked(p.board, s, ram, k, hit.value);
      return Wrecked, nextId, s.(wrecked := true);
    }
    result, nextId', u := ActOnSwitch(p, t, nextId, s, ram, k);
  }

  // State::Running: set up the MPU, switch to the process, act on its return.
  method RunUserspace(p: ProcessStandard, t: Turn, nextId: nat, ghost s: System.State, ghost ram: Location, ghost k: nat)
    returns (result: TurnResult, nextId': nat, ghost u: System.State, ghost event: Event)
    requires Tracked(p, s, ram, k) && nextId == s.nextId && ValidTurn(t) && p.state == Running
    modifies Footprint(p), p.mpu`hardwareIsConfiguredFor, p.mpu`registers
    ensures Leads(p.board, s, ram, k, u) && Agrees(result, u) && Sound(event) && event.p.image == p.image
    ensures u.Intact() ==> Tracked(p, u, ram, k) && nextId' == u.nextId && p.mpuConfig == old(p.mpuConfig) && p.MpuLeft()
    ensures result.Wrecked? ==> p.image.memLen >= 512 && !M.Roomy(p.image)
    ensures result.Break? ==> result.reason == TimesliceExpired
  {
    nextId' := nextId;
    u, event := SwitchTo(p, s, ram, k);
    ghost var v := u;
    result, nextId', u := Execute(p, t, nextId', u, ram, k);
    LeadsTrans(p.board, s, ram, k, v, u);
  }

  method ActOnSwitch(p: ProcessStandard, t: Turn, nextId: nat, ghost s: System.State, ghost ram: Location, ghost k: nat)
    returns (result: TurnResult, nextId': nat, ghost u: System.State)
    requires Tracked(p, s, ram, k) && nextId == s.nextId && ValidTurn(t)
    modifies Footprint(p), p.mpu`hardwareIsConfiguredFor, p.mpu`registers
    ensures Leads(p.board, s, ram, k, u) && Agrees(result, u) && !result.Wrecked?
    ensures u.Intact() ==> Tracked(p, u, ram, k) && nextId' == u.nextId && p.mpuConfig == old(p.mpuConfig) && p.MpuLeft()
    ensures result.Break? ==> result.reason == TimesliceExpired
  {
    var trapped := false;
    nextId', u := nextId, s;
    LeadsSelf(p.board, s, ram, k);
    match t.switch {
      case FaultHit(hooked) =>
        if !hooked { trapped, nextId', u := Perform(p, FaultOp(t.action, t.contextOk), nextId, s, ram, k); }
      case SyscallFired(ops) =>
        trapped, nextId', u := PerformAll(p, ops, nextId, s, ram, k);
      case Interrupted(timeLeft) =>
        if !timeLeft { return Break(TimesliceExpired), nextId', u; }
      case SwitchFailed =>
        trapped, nextId', u := Perform(p, FaultOp(t.action, t.contextOk), nextId, s, ram, k);
    }
    result := if trapped then Panicked else Again;
  }

  // set_process_function and set_syscall_return_value: the process runs next,
  // or faults if the architecture could not prepare it.
  method ResumeUserspace(p: ProcessStandard, t: Turn, nextId: nat, ghost s: System.State, ghost ram: Location,
                         ghost k: nat)
    returns (result: TurnResult, nextId': nat, ghost u: System.State)
    requires Tracked(p, s, ram, k) && nextId == s.nextId
    modifies Footprint(p), p.mpu`hardwareIsConfiguredFor, p.mpu`registers
    ensures Leads(p.board, s, ram, k, u) && Agrees(result, u) && !result.Break? && !result.Wrecked?
    ensures u.Intact() ==> Tracked(p, u, ram, k) && nextId' == u.nextId && p.mpuConfig == old(p.mpuConfig) && p.MpuLeft()
  {
    var trapped;
    trapped, nextId', u :=
      Perform(p, if t.contextSet then SetRunning else FaultOp(t.action, t.contextOk), nextId, s, ram, k);
    result := if trapped then Panicked else Again;
  }

  method TakeTask(p: ProcessStandard, ghost s: System.State, ghost ram: Location, ghost k: nat)
    returns (task: Option<Task>, ghost u: System.State)
    requires Tracked(p, s, ram, k)
    modifies p.tasks
    ensures Leads(p.board, s, ram, k, u) && u.nextId == s.nextId && Tracked(p, u, ram, k)
    ensures task.Some? ==> |p.Value().memory| == |p.Value().grants| && Current(p.Value(), task.value)
  {
    LeadsOn(p.board, s, ram, k, DequeueOp);
    u := OnStep(p.board, s, k, DequeueOp);
    task := p.DequeueTask();
    if task.Some? { TaskTaken(p.board, s, ram, k, task.value, p.Value()); }
  }

  method TakeWaking(p: ProcessStandard, id: UpcallId, ghost s: System.State, ghost ram: Location, ghost k: nat)
    returns (task: Option<Task>, ghost u: System.State)
    requires Tracked(p, s, ram, k)
    modifies p.tasks, p.tasks.ring
    ensures Leads(p.board, s, ram, k, u) && u.nextId == s.nextId && Tracked(p, u, ram, k)
    ensures task.Some? ==> !task.value.Ipc?
  {
    LeadsOn(p.board, s, ram, k, RemoveUpcallOp(id));
    u := OnStep(p.board, s, k, RemoveUpcallOp(id));
    task := p.RemoveUpcall(id);
  }

  // State::Yielded: run the next task.
  method RunTask(p: ProcessStandard, t: Turn, nextId: nat, ghost s: System.State, ghost ram: Location, ghost k: nat)
    returns (result: TurnResult, nextId': nat, ghost u: System.State, ghost events: seq<Event>)
    requires Tracked(p, s, ram, k) && nextId == s.nextId && ValidTurn(t) && p.state == Yielded
    modifies Footprint(p), p.mpu`hardwareIsConfiguredFor, p.mpu`registers
    ensures Leads(p.board, s, ram, k, u) && Agrees(result, u) && !result.Wrecked?
    ensures u.Intact() ==> Tracked(p, u, ram, k) && nextId' == u.nextId && p.mpuConfig == old(p.mpuConfig) && p.MpuLeft()
    ensures AllSound(events, p.image)
    ensures result.Break? ==> result.reason == NoWorkLeft && p.state == Yielded
  {
    events, nextId' := [], nextId;
    var task;
    task, u := TakeTask(p, s, ram, k);
    if task.None? { return Break(NoWorkLeft), nextId', u, events; }
    ghost var v := u;
    match task.value {
      case ReturnValue(_, _, _, _) =>
        return Break(NoWorkLeft), nextId', u, events;
      case Call(call) =>
        events := [Called(p.Value(), call)];
        result, nextId', u := ResumeUserspace(p, t, nextId', u, ram, k);
      case Ipc(_, _) =>
        var trapped;
        trapped, nextId', u := PerformAll(p, t.ipc, nextId', u, ram, k);
        result := if trapped then Panicked else Again;
    }
    LeadsTrans(p.board, s, ram, k, v, u);
  }

  // State::YieldedFor: answer the wait if its task has arrived.
  method AnswerWait(p: ProcessStandard, t: Turn, nextId: nat, ghost s: System.State, ghost ram: Location, ghost k: nat)
    returns (result: TurnResult, nextId': nat, ghost u: System.State)
    requires Tracked(p, s, ram, k) && nextId == s.nextId && p.state.YieldedFor?
    modifies Footprint(p), p.mpu`hardwareIsConfiguredFor, p.mpu`registers
    ensures Leads(p.board, s, ram, k, u) && Agrees(result, u) && !result.Wrecked?
    ensures u.Intact() ==> Tracked(p, u, ram, k) && nextId' == u.nextId && p.mpuConfig == old(p.mpuConfig) && p.MpuLeft()
    ensures result.Break? ==> result.reason == NoWorkLeft && p.state == old(p.state)
  {
    nextId' := nextId;
    var id := p.state.id;
    var task;
    task, u := TakeWaking(p, id, s, ram, k);
    if task.None? { return Break(NoWorkLeft), nextId', u; }
    ghost var v := u;
    match task.value {
      case Ipc(_, _) => assert false;
      case _ => result, nextId', u := ResumeUserspace(p, t, nextId', u, ram, k);
    }
    LeadsTrans(p.board, s, ram, k, v, u);
  }

  // One turn, by the state of the process. The branch for an unrunnable process
  // is never reached, because such a process has no tasks.
  method TakeTurn(p: ProcessStandard, t: Turn, nextId: nat, ghost s: System.State, ghost ram: Location, ghost k: nat)
    returns (result: TurnResult, nextId': nat, ghost u: System.State, ghost events: seq<Event>)
    requires Tracked(p, s, ram, k) && nextId == s.nextId && ValidTurn(t)
    requires p.tasks.Contents() != [] || p.state == Running
    modifies Footprint(p), p.mpu`hardwareIsConfiguredFor, p.mpu`registers
    ensures Leads(p.board, s, ram, k, u) && Agrees(result, u)
    ensures u.Intact() ==> Tracked(p, u, ram, k) && nextId' == u.nextId && p.mpuConfig == old(p.mpuConfig) && p.MpuLeft()
    ensures result.Wrecked? ==> p.image.memLen >= 512 && !M.Roomy(p.image)
    ensures AllSound(events, p.image)
    ensures result == Break(NoWorkLeft) ==> p.state != Running
    ensures result == Break(IsStopped) ==> p.state.Stopped?
  {
    events, nextId', u := [], nextId, s;
    match p.state
    case Running =>
      ghost var event;
      result, nextId', u, event := RunUserspace(p, t, nextId, s, ram, k);
      events := [event];
    case Yielded =>
      result, nextId', u, events := RunTask(p, t, nextId, s, ram, k);
    case YieldedFor(_) =>
      result, nextId', u := AnswerWait(p, t, nextId, s, ram, k);
    case Stopped(_) =>
      LeadsSelf(p.board, s, ram, k);
      result := Break(IsStopped);
    case _ =>
      SlotAt(p.board, s, ram, k);
      assert false;
  }

  // The body of the loop: the checks before the switch, then the turn.
  method GoRound(p: ProcessStandard, t: Turn, nextId: nat, ghost s: System.State, ghost ram: Location, ghost k: nat)
    returns (result: TurnResult, nextId': nat, ghost u: System.State, ghost events: seq<Event>)
    requires Tracked(p, s, ram, k) && nextId == s.nextId && ValidTurn(t)
    modifies Footprint(p), p.mpu`hardwareIsConfiguredFor, p.mpu`registers
    ensures Leads(p.board, s, ram, k, u) && Agrees(result, u)
    ensures u.Intact() ==> Tracked(p, u, ram, k) && nextId' == u.nextId && p.mpuConfig == old(p.mpuConfig) && p.MpuLeft()
    ensures result.Wrecked? ==> p.image.memLen >= 512 && !M.Roomy(p.image)
    ensures AllSound(events, p.image)
    ensures result == Break(NoWorkLeft) ==> p.state != Running
    ensures result == Break(IsStopped) ==> p.state.Stopped?
  {
    events, nextId', u := [], nextId, s;
    LeadsSelf(p.board, s, ram, k);
    if t.remaining.None? || t.remaining.value <= MIN_QUANTA_THRESHOLD_US {
      return Break(TimesliceExpired), nextId', u, events;
    }
    if !t.continues { return Break(KernelPreemption), nextId', u, events; }
    var hasTasks := p.tasks.HasElements();
    if !hasTasks && p.state != Running { return Break(NoWorkLeft), nextId', u, events; }
    result, nextId', u, events := TakeTurn(p, t, nextId, s, ram, k);
  }

  // The loop, for as many turns as its surroundings are given for; `None` when
  // they run out or the kernel is lost.
  method DoProcess(p: ProcessStandard, turns: seq<Turn>, nextId: nat, ghost s: System.State, ghost ram: Location,
                   ghost k: nat)
    returns (reason: Option<StoppedExecutingReason>, lost: bool, nextId': nat, ghost u: System.State,
             ghost log: seq<Event>)
    requires Tracked(p, s, ram, k) && nextId == s.nextId && forall t :: t in turns ==> ValidTurn(t)
    modifies Footprint(p), p.mpu`hardwareIsConfiguredFor, p.mpu`registers
    ensures Leads(p.board, s, ram, k, u) && (lost <==> !u.Intact())
    ensures !lost ==> Tracked(p, u, ram, k) && nextId' == u.nextId && p.mpuConfig == old(p.mpuConfig) && p.MpuLeft()
    ensures u.wrecked ==> p.image.memLen >= 512 && !M.Roomy(p.image)
    ensures AllSound(log, p.image)
    ensures reason == Some(NoWorkLeft) ==> p.state != Running
    ensures reason == Some(IsStopped) ==> p.state.Stopped?
  {
    reason, lost, nextId', u, log := None, false, nextId, s, [];
    LeadsSelf(p.board, s, ram, k);
    for i := 0 to |turns|
      invariant Tracked(p, u, ram, k) && nextId' == u.nextId && p.mpuConfig == old(p.mpuConfig) && p.MpuLeft()
      invariant Leads(p.board, s, ram, k, u)
      invariant AllSound(log, p.image)
    {
      var result;
      ghost var v, events := u, [];
      result, nextId', u, events := GoRound(p, turns[i], nextId', u, ram, k);
      LeadsTrans(p.board, s, ram, k, v, u);
      log := log + events;
      if result.Lost() { return None, true, nextId', u, log; }
      if result.Break? { return Some(result.reason), false, nextId', u, log; }
    }
  }
}
