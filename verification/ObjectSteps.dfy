// Every operation of a run, performed on the process object and proved against
// the step on its value.

module ObjectSteps {
  import opened Wrappers
  import opened ProcessTypes
  import opened ProcessStandards
  import opened ProcessRuns
  import K = KernelCalls
  import S = ProcessSpec

  // Everything one process object owns; the MPU is shared.
  ghost function Footprint(p: ProcessStandard): set<object>
    reads p
  {
    {p, p.tasks, p.tasks.ring, p.grantPointers} + if p.mpuConfig == null then {} else {p.mpuConfig}
  }

  predicate OnMemory(op: Op) {
    || op.BrkOp? || op.SbrkOp? || op.BuildOp?
    || op.UseGrant? || op.CustomGrant? || op.Enter? || op.Leave?
  }

  method PerformMemory(p: ProcessStandard, op: Op) returns (trapped: bool)
    requires p.Valid() && ValidBoard(p.board) && S.Sized(p.board, p.Value()) && ValidOp(op)
    requires OnMemory(op)
    modifies Footprint(p), p.mpu`hardwareIsConfiguredFor, p.mpu`registers
    ensures p.Valid() && p.mpuConfig == old(p.mpuConfig) && p.MpuLeft()
    ensures trapped <==> Traps(p.board, old(p.Value()), op, 0)
    ensures p.Value() == StepProcess(p.board, old(p.Value()), op, 0)
  {
    trapped := false;
    match op
    case BrkOp(newBreak) => var r := p.Brk(newBreak); trapped := r.Trap?;
    case SbrkOp(increment) => var r := p.Sbrk(increment); trapped := r.Trap?;
    case BuildOp(RwAllow, start, size) => var _ := p.BuildReadWriteProcessBuffer(start, size);
    case BuildOp(RoAllow, start, size) => var _ := p.BuildReadOnlyProcessBuffer(start, size);
    case UseGrant(g) => var r := K.NewGrant(p, g); trapped := r.Trap?;
    case CustomGrant(size, align) => var r := p.AllocateCustomGrant(size, align); trapped := r.Trap?;
    case Enter(g) =>
      if g < p.grantPointers.Length && S.Allocated(p.grantPointers[g]) { var _ := p.EnterGrant(g); }
    case Leave(g) => p.LeaveGrant(g);
  }

  predicate IsCall(op: Op) {
    || op.Schedule? || op.EnqueueIpc? || op.DequeueOp? || op.RemoveUpcallOp?
    || op.SubscribeOp? || op.AllowOp?
  }

  method PerformCall(p: ProcessStandard, op: Op) returns (trapped: bool)
    requires p.Valid() && ValidBoard(p.board) && S.Sized(p.board, p.Value()) && ValidOp(op)
    requires IsCall(op)
    modifies Footprint(p), p.mpu`hardwareIsConfiguredFor, p.mpu`registers
    ensures p.Valid() && p.mpuConfig == old(p.mpuConfig) && p.MpuLeft()
    ensures trapped <==> Traps(p.board, old(p.Value()), op, 0)
    ensures p.Value() == StepProcess(p.board, old(p.Value()), op, 0)
  {
    trapped := false;
    match op
    case Schedule(g, n, r0, r1, r2) => var _ := K.ScheduleUpcall(p, g, n, r0, r1, r2);
    case EnqueueIpc(sender, toService) => var _ := p.EnqueueTask(Ipc(sender, toService));
    case DequeueOp => var _ := p.DequeueTask();
    case RemoveUpcallOp(id) => var _ := p.RemoveUpcall(id);
    case SubscribeOp(present, id, upcall, reaction) =>
      var ret; ret, trapped := K.HandleSubscribe(p, present, id, upcall, reaction);
    case AllowOp(RwAllow, present, d, n, start, size, reaction) =>
      var ret; ret, trapped := K.HandleReadWriteAllow(p, present, d, n, start, size, reaction);
    case AllowOp(RoAllow, present, d, n, start, size, reaction) =>
      var ret; ret, trapped := K.HandleReadOnlyAllow(p, present, d, n, start, size, reaction);
  }

  predicate StateOnly(op: Op) {
    op.SetRunning? || op.YieldWait? || op.YieldWaitFor? || op.StopOp? || op.ResumeOp?
  }

  method PerformState(p: ProcessStandard, op: Op)
    requires p.Valid() && ValidBoard(p.board) && S.Sized(p.board, p.Value()) && StateOnly(op)
    modifies p`state
    ensures p.Valid() && p.Value() == StepProcess(p.board, old(p.Value()), op, 0)
  {
    match op
    case SetRunning => p.state := Running;
    case YieldWait => p.SetYieldedState();
    case YieldWaitFor(id) => p.SetYieldedForState(id);
    case StopOp => p.Stop();
    case ResumeOp => p.Resume();
  }

  predicate LifeCycle(op: Op) {
    op.TerminateOp? || op.RestartOp? || op.StartOp?
  }

  method PerformLife(p: ProcessStandard, op: Op, newId: nat) returns (trapped: bool)
    requires p.Valid() && ValidBoard(p.board) && S.Sized(p.board, p.Value()) && LifeCycle(op)
    modifies Footprint(p), p.mpu`hardwareIsConfiguredFor, p.mpu`registers
    ensures p.Valid() && (p.mpuConfig == null || p.mpuConfig == old(p.mpuConfig)) && p.MpuLeft()
    ensures trapped <==> Traps(p.board, old(p.Value()), op, newId)
    ensures !trapped ==> p.Value() == StepProcess(p.board, old(p.Value()), op, newId)
  {
    trapped := false;
    match op
    case TerminateOp(code) => p.Terminate(code);
    case RestartOp(code, contextOk) => trapped := p.TryRestart(code, newId, contextOk);
    case StartOp(contextOk) => trapped := p.Start(newId, contextOk);
  }

  method PerformFault(p: ProcessStandard, op: Op, newId: nat) returns (trapped: bool)
    requires p.Valid() && ValidBoard(p.board) && S.Sized(p.board, p.Value()) && op.FaultOp?
    modifies Footprint(p), p.mpu`hardwareIsConfiguredFor, p.mpu`registers
    ensures p.Valid() && (p.mpuConfig == null || p.mpuConfig == old(p.mpuConfig)) && p.MpuLeft()
    ensures trapped <==> Traps(p.board, old(p.Value()), op, newId)
    ensures !trapped ==> p.Value() == StepProcess(p.board, old(p.Value()), op, newId)
  {
    trapped := p.SetFaultState(op.action, newId, op.contextOk);
  }

  // Any operation, on the object, is what it is on the value.
  method Dispatch(p: ProcessStandard, op: Op, newId: nat) returns (trapped: bool)
    requires p.Valid() && ValidBoard(p.board) && S.Sized(p.board, p.Value()) && ValidOp(op)
    modifies Footprint(p), p.mpu`hardwareIsConfiguredFor, p.mpu`registers
    ensures p.Valid() && (p.mpuConfig == null || p.mpuConfig == old(p.mpuConfig)) && p.MpuLeft()
    ensures trapped <==> Traps(p.board, old(p.Value()), op, newId)
    ensures !trapped ==> p.Value() == StepProcess(p.board, old(p.Value()), op, newId)
  {
    trapped := false;
    if LifeCycle(op) {
      trapped := PerformLife(p, op, newId);
    } else if op.FaultOp? {
      trapped := PerformFault(p, op, newId);
    } else if StateOnly(op) {
      PerformState(p, op);
    } else if op.SetupOp? {
      p.SetupMpu();
    } else if IsCall(op) {
      trapped := PerformCall(p, op);
    } else {
      trapped := PerformMemory(p, op);
    }
  }
}
