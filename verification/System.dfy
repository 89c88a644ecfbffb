// The kernel with all its processes: loading them one after another out of a
// memory pool, and running any of them in any order (kernel/src/kernel.rs,
// process_loading.rs, processbuffer.rs).

module System {
  import opened Wrappers
  import opened Powers
  import opened Region
  import opened ProcessTypes
  import opened ProcessSpec
  import opened GrantTable
  import opened Syscalls
  import opened GrantRanges
  import opened ProcessRuns
  import opened Creation
  import opened Restart
  import opened MpuPlan
  import L = GrantLayout
  import M = ProcessMemory
  import T = MpuTable

  // Processes in slot order, the next unused identifier, and the memory left.
  // `wrecked` once a process has written where the kernel keeps its own data,
  // `halted` once the kernel has panicked or its arithmetic has left the 32-bit
  // range: from then on nothing is known, and the state stands still.
  datatype State = State(slots: nat, recs: seq<Record>, nextId: nat, pool: Location, wrecked: bool, halted: bool) {
    predicate Intact() { !wrecked && !halted }
  }

  // A store is process k writing to address a.
  datatype SysOp =
    | Load(bin: Binary, configId: Option<nat>, contextOk: bool)
    | On(k: nat, op: Op)
    | Store(k: nat, a: nat)

  ghost predicate ValidSysOp(op: SysOp) { op.On? ==> ValidOp(op.op) }

  // What becomes of the state after one attempt to create a process.
  function Loaded(s: State, r: CreateResult): State {
    match r
    case Created(p, rest) => s.(recs := s.recs + [Record(p, [], [], map[])], nextId := s.nextId + 1, pool := rest)
    case Rejected(e, rest) => s.(pool := rest, nextId := if e.InternalError? then s.nextId + 1 else s.nextId)
    case CreateTrap => s.(halted := true)
  }

  // load_process: try the binary in the next free slot; keep the memory that is
  // left whether or not it worked.
  function LoadOne(b: Board, s: State, bin: Binary, configId: Option<nat>, contextOk: bool): State
    requires ValidBoard(b)
  {
    if |s.recs| >= s.slots then s
    else Loaded(s, Create(b, bin, s.pool, configId, ProcessId(s.nextId, |s.recs|), contextOk))
  }

  // One operation on the process in slot k.
  function OnStep(b: Board, s: State, k: nat, op: Op): State
    requires ValidBoard(b) && k < |s.recs| && Sized(b, s.recs[k].p) && ValidOp(op)
  {
    if Traps(b, s.recs[k].p, op, s.nextId) then s.(halted := true)
    else
      var r := Step(b, s.recs[k], op, s.nextId);
      s.(recs := s.recs[k := r], nextId := NextId(s.recs[k], r.p, s.nextId))
  }

  function SysStep(b: Board, s: State, op: SysOp): State
    requires ValidBoard(b) && ValidSysOp(op) && forall k :: 0 <= k < |s.recs| ==> Sized(b, s.recs[k].p)
  {
    if !s.Intact() then s else
    match op
    case Load(bin, configId, contextOk) => LoadOne(b, s, bin, configId, contextOk)
    case Store(k, a) =>
      if k < |s.recs| && Trespasses(s.recs[k].p, a) then s.(wrecked := true) else s
    case On(k, o) => if k < |s.recs| then OnStep(b, s, k, o) else s
  }

  // get_process: the slot named by the identifier, if it still holds it.
  function GetProcess(s: State, pid: ProcessId): Option<Process> {
    if pid.index < |s.recs| && s.recs[pid.index].p.pid.identifier == pid.identifier
    then Some(s.recs[pid.index].p) else None
  }

  // ReadOnlyProcessBuffer::len and ReadWriteProcessBuffer::len.
  function BufferLen(s: State, buffer: Buffer): nat {
    if GetProcess(s, buffer.pid).Some? then buffer.len else 0
  }

  // -------------------------------------------------------------- invariant

  ghost predicate SlotOk(b: Board, r: Record, nextId: nat, k: nat)
    requires ValidBoard(b)
  {
    RecInv(b, r, nextId) && Live(b, r.p) && r.p.pid.index == k
  }

  ghost function SlotOkOn(b: Board): (Record, nat, nat) -> bool
    requires ValidBoard(b)
  {
    (r: Record, nextId: nat, k: nat) => SlotOk(b, r, nextId, k)
  }

  ghost predicate Each(recs: seq<Record>, nextId: nat, ok: (Record, nat, nat) -> bool) {
    forall k {:trigger ok(recs[k], nextId, k)} :: 0 <= k < |recs| ==> ok(recs[k], nextId, k)
  }

  // Blocks follow one another between the start of the pool and what is left.
  predicate BlocksInOrder(s: State, ram: Location) {
    && TailOf(s.pool, ram)
    && (forall k :: 0 <= k < |s.recs| ==> ram.start <= s.recs[k].p.image.memStart && MemEnd(s.recs[k].p) <= s.pool.start)
    && (forall j, k :: 0 <= j < k < |s.recs| ==> MemEnd(s.recs[j].p) <= s.recs[k].p.image.memStart)
  }

  // Identifiers are in use at most once and below the next one.
  predicate Identified(s: State) {
    && (forall k :: 0 <= k < |s.recs| ==> s.recs[k].p.pid.identifier < s.nextId)
    && (forall j, k :: 0 <= j < k < |s.recs| ==> s.recs[j].p.pid.identifier != s.recs[k].p.pid.identifier)
  }

  ghost predicate SysInv(b: Board, s: State, ram: Location)
    requires ValidBoard(b)
  {
    Each(s.recs, s.nextId, SlotOkOn(b)) && Identified(s) && BlocksInOrder(s, ram)
  }

  lemma SlotAt(b: Board, s: State, ram: Location, k: nat)
    requires ValidBoard(b) && SysInv(b, s, ram) && k < |s.recs|
    ensures SlotOk(b, s.recs[k], s.nextId, k)
  {
    assert SlotOkOn(b)(s.recs[k], s.nextId, k);
  }

  // More identifiers in use elsewhere do not matter to a slot.
  ghost predicate Monotone(n: nat, m: nat, ok: (Record, nat, nat) -> bool) {
    forall r, k :: ok(r, n, k) ==> ok(r, m, k)
  }

  lemma SlotMonotone(b: Board, n: nat, m: nat)
    requires ValidBoard(b) && n <= m
    ensures Monotone(n, m, SlotOkOn(b))
  {
    forall r, k | SlotOkOn(b)(r, n, k)
      ensures SlotOkOn(b)(r, m, k)
    {
      MoreIds(b, r, n, m, k);
    }
  }

  lemma MoreIds(b: Board, r: Record, n: nat, m: nat, k: nat)
    requires ValidBoard(b) && SlotOk(b, r, n, k) && n <= m
    ensures SlotOk(b, r, m, k)
  {
  }

  lemma EachReplaced(recs: seq<Record>, n: nat, m: nat, k: nat, r: Record, ok: (Record, nat, nat) -> bool)
    requires Each(recs, n, ok) && Monotone(n, m, ok) && k < |recs| && ok(r, m, k)
    ensures Each(recs[k := r], m, ok)
  {
  }

  lemma EachExtended(recs: seq<Record>, n: nat, m: nat, more: seq<Record>, ok: (Record, nat, nat) -> bool)
    requires Each(recs, n, ok) && Monotone(n, m, ok)
    requires |more| <= 1 && (more != [] ==> ok(more[0], m, |recs|))
    ensures Each(recs + more, m, ok)
  {
  }

  // --------------------------------------------------------------- one step

  function NewRecords(r: CreateResult): seq<Record> {
    if r.Created? then [Record(r.process, [], [], map[])] else []
  }

  // Appending a created process, or only losing some memory.
  lemma LoadedKeeps(b: Board, s: State, ram: Location, bin: Binary, r: CreateResult)
    requires ValidBoard(b) && SysInv(b, s, ram)
    requires CreateOutcome(b, bin, s.pool, ProcessId(s.nextId, |s.recs|), r)
    requires r.Created? ==> Live(b, r.process)
    ensures SysInv(b, Loaded(s, r), ram)
  {
    var s' := Loaded(s, r);
    SlotMonotone(b, s.nextId, s'.nextId);
    if r.Created? { assert SlotOkOn(b)(NewRecords(r)[0], s'.nextId, |s.recs|); }
    EachExtended(s.recs, s.nextId, s'.nextId, NewRecords(r), SlotOkOn(b));
    assert s'.recs == s.recs + NewRecords(r);
    OrderExtended(b, s, ram, bin, r);
  }

  lemma OrderExtended(b: Board, s: State, ram: Location, bin: Binary, r: CreateResult)
    requires BlocksInOrder(s, ram) && Identified(s)
    requires CreateOutcome(b, bin, s.pool, ProcessId(s.nextId, |s.recs|), r)
    ensures BlocksInOrder(Loaded(s, r), ram) && Identified(Loaded(s, r))
  {
  }

  lemma LoadKeeps(b: Board, s: State, ram: Location, bin: Binary, configId: Option<nat>, contextOk: bool)
    requires ValidBoard(b) && SysInv(b, s, ram)
    ensures SysInv(b, LoadOne(b, s, bin, configId, contextOk), ram)
  {
    var pid := ProcessId(s.nextId, |s.recs|);
    CreateSound(b, bin, s.pool, configId, pid, contextOk);
    CreatedLive(b, bin, s.pool, configId, pid, contextOk);
    LoadedKeeps(b, s, ram, bin, Create(b, bin, s.pool, configId, pid, contextOk));
  }

  // A load adds the process made of the binary in the next slot, on memory right
  // after what it leaves in the pool, or it adds nothing; it stops the kernel
  // exactly when creation does.
  lemma LoadOutcome(b: Board, s: State, bin: Binary, configId: Option<nat>, contextOk: bool)
    requires ValidBoard(b) && s.Intact()
    ensures var (t, pid) := (LoadOne(b, s, bin, configId, contextOk), ProcessId(s.nextId, |s.recs|));
            && (|s.recs| >= s.slots ==> t == s)
            && (|s.recs| < s.slots ==>
                  var r := Create(b, bin, s.pool, configId, pid, contextOk);
                  && (t.halted <==> r.CreateTrap?) && t.slots == s.slots && !t.wrecked
                  && s.pool.start <= t.pool.start && End(t.pool) == End(s.pool)
                  && (!r.Created? ==> t.recs == s.recs)
                  && (r.Rejected? ==> t.pool == r.rest)
                  && (!r.CreateTrap? ==>
                        t.nextId == if r.Created? || r.error == InternalError then s.nextId + 1 else s.nextId)
                  && (r.Created? ==>
                        && |t.recs| == |s.recs| + 1 && t.recs[..|s.recs|] == s.recs
                        && var p := t.recs[|s.recs|].p;
                           && MadeOf(b, bin, p) && p.pid == pid
                           && s.pool.start <= p.image.memStart && t.pool.start == MemEnd(p)))
  {
    CreateSound(b, bin, s.pool, configId, ProcessId(s.nextId, |s.recs|), contextOk);
  }

  lemma AllSized(b: Board, s: State, ram: Location)
    requires ValidBoard(b) && SysInv(b, s, ram)
    ensures forall i :: 0 <= i < |s.recs| ==> Sized(b, s.recs[i].p)
  {
    forall i | 0 <= i < |s.recs|
      ensures Sized(b, s.recs[i].p)
    {
      SlotAt(b, s, ram, i);
    }
  }

  // Replacing one slot by a record that satisfies its part of the invariant.
  lemma SlotReplaced(b: Board, s: State, ram: Location, k: nat, r: Record, nextId: nat)
    requires ValidBoard(b) && SysInv(b, s, ram) && k < |s.recs| && s.nextId <= nextId
    requires SlotOkOn(b)(r, nextId, k) && r.p.image == s.recs[k].p.image
    requires r.p.pid == s.recs[k].p.pid || r.p.pid.identifier == s.nextId < nextId
    ensures SysInv(b, s.(recs := s.recs[k := r], nextId := nextId), ram)
  {
    SlotMonotone(b, s.nextId, nextId);
    EachReplaced(s.recs, s.nextId, nextId, k, r, SlotOkOn(b));
  }

  // The record of one process after a step.
  lemma SlotStep(b: Board, r: Record, k: nat, op: Op, nextId: nat)
    requires ValidBoard(b) && SlotOk(b, r, nextId, k) && ValidOp(op)
    ensures Sized(b, r.p)
    ensures var r' := Step(b, r, op, nextId);
            && SlotOkOn(b)(r', NextId(r, r'.p, nextId), k) && r'.p.image == r.p.image
            && (r'.p.pid == r.p.pid || r'.p.pid.identifier == nextId)
  {
    StepKeeps(b, r, op, nextId);
    LiveKept(b, r.p, op, nextId);
    SlotUnmoved(b, r, op, nextId);
  }

  lemma OnKeeps(b: Board, s: State, ram: Location, k: nat, op: Op)
    requires ValidBoard(b) && SysInv(b, s, ram) && k < |s.recs| && ValidOp(op) && s.Intact()
    ensures forall i :: 0 <= i < |s.recs| ==> Sized(b, s.recs[i].p)
    ensures SysInv(b, SysStep(b, s, On(k, op)), ram)
  {
    AllSized(b, s, ram);
    SlotAt(b, s, ram, k);
    if !Traps(b, s.recs[k].p, op, s.nextId) {
      SlotStep(b, s.recs[k], k, op, s.nextId);
      var r := Step(b, s.recs[k], op, s.nextId);
      SlotReplaced(b, s, ram, k, r, NextId(s.recs[k], r.p, s.nextId));
    }
  }

  // A step never moves a process to another block or slot; its identifier stays
  // or becomes the fresh one.
  lemma SlotUnmoved(b: Board, r: Record, op: Op, nextId: nat)
    requires ValidBoard(b) && RecInv(b, r, nextId) && ValidOp(op)
    ensures var q := StepProcess(b, r.p, op, nextId);
            && q.image == r.p.image && q.pid.index == r.p.pid.index
            && (q.pid == r.p.pid || q.pid.identifier == nextId)
  {
    if IsLifeOp(op) {
      LifeStep(b, r.p, op, nextId);
    } else if op.BrkOp? || op.SbrkOp? { BreakOp(b, r, op, nextId); }
    else if op.BuildOp? { BufferOp(b, r, op, nextId); }
    else if op.UseGrant? || op.CustomGrant? || op.Enter? || op.Leave? { GrantOp(b, r, op, nextId); }
    else if op.Schedule? || op.EnqueueIpc? || op.DequeueOp? || op.RemoveUpcallOp? { QueueOp(b, r, op, nextId); }
    else if op.SubscribeOp? || op.AllowOp? { SyscallOp(b, r, op, nextId); }
    else if op.SetupOp? { SetupStep(b, r, op, nextId); }
    else { StateOp(b, r, op, nextId); }
  }

  ghost function Run(b: Board, s: State, ram: Location, ops: seq<SysOp>): (s': State)
    requires ValidBoard(b) && SysInv(b, s, ram) && forall op :: op in ops ==> ValidSysOp(op)
    ensures SysInv(b, s', ram)
    decreases |ops|
  {
    if ops == [] then s
    else
      StepInv(b, s, ram, ops[0]);
      Run(b, SysStep(b, s, ops[0]), ram, ops[1..])
  }

  lemma StepInv(b: Board, s: State, ram: Location, op: SysOp)
    requires ValidBoard(b) && SysInv(b, s, ram) && ValidSysOp(op)
    ensures forall i :: 0 <= i < |s.recs| ==> Sized(b, s.recs[i].p)
    ensures SysInv(b, SysStep(b, s, op), ram)
  {
    AllSized(b, s, ram);
    if !s.Intact() {
    } else if op.Load? {
      LoadKeeps(b, s, ram, op.bin, op.configId, op.contextOk);
    } else if op.On? && op.k < |s.recs| {
      OnKeeps(b, s, ram, op.k, op.op);
    }
  }

  lemma {:induction false} RunConcat(b: Board, s: State, ram: Location, ops: seq<SysOp>, more: seq<SysOp>)
    requires ValidBoard(b) && SysInv(b, s, ram)
    requires (forall op :: op in ops ==> ValidSysOp(op)) && (forall op :: op in more ==> ValidSysOp(op))
    ensures Run(b, s, ram, ops + more) == Run(b, Run(b, s, ram, ops), ram, more)
    decreases |ops|
  {
    if ops == [] {
      assert ops + more == more;
    } else {
      StepInv(b, s, ram, ops[0]);
      assert (ops + more)[0] == ops[0] && (ops + more)[1..] == ops[1..] + more;
      RunConcat(b, SysStep(b, s, ops[0]), ram, ops[1..], more);
    }
  }

  // ----------------------------------------- what one process may lead to

  ghost predicate OnSlot(ops: seq<SysOp>, k: nat) {
    forall op :: op in ops ==> ValidSysOp(op) && !op.Load? && op.k == k
  }

  // Operations on process k, and its own stores, lead from s to t.
  ghost predicate Leads(b: Board, s: State, ram: Location, k: nat, t: State)
    requires ValidBoard(b) && SysInv(b, s, ram)
  {
    exists ops :: OnSlot(ops, k) && t == Run(b, s, ram, ops)
  }

  lemma LeadsSelf(b: Board, s: State, ram: Location, k: nat)
    requires ValidBoard(b) && SysInv(b, s, ram)
    ensures Leads(b, s, ram, k, s)
  {
    assert OnSlot([], k) && s == Run(b, s, ram, []);
  }

  lemma LeadsStep(b: Board, s: State, ram: Location, op: SysOp)
    requires ValidBoard(b) && SysInv(b, s, ram) && ValidSysOp(op) && !op.Load?
    ensures forall i :: 0 <= i < |s.recs| ==> Sized(b, s.recs[i].p)
    ensures SysInv(b, SysStep(b, s, op), ram) && Leads(b, s, ram, op.k, SysStep(b, s, op))
  {
    StepInv(b, s, ram, op);
    assert [op][0] == op && [op][1..] == [];
    assert OnSlot([op], op.k) && SysStep(b, s, op) == Run(b, s, ram, [op]);
  }

  lemma LeadsOn(b: Board, s: State, ram: Location, k: nat, op: Op)
    requires ValidBoard(b) && SysInv(b, s, ram) && s.Intact() && k < |s.recs| && ValidOp(op)
    ensures Sized(b, s.recs[k].p)
    ensures var t := OnStep(b, s, k, op); SysInv(b, t, ram) && Leads(b, s, ram, k, t)
  {
    AllSized(b, s, ram);
    LeadsStep(b, s, ram, On(k, op));
  }

  lemma LeadsTrans(b: Board, s: State, ram: Location, k: nat, t: State, u: State)
    requires ValidBoard(b) && SysInv(b, s, ram) && Leads(b, s, ram, k, t) && SysInv(b, t, ram) && Leads(b, t, ram, k, u)
    ensures Leads(b, s, ram, k, u)
  {
    var ops :| OnSlot(ops, k) && t == Run(b, s, ram, ops);
    var more :| OnSlot(more, k) && u == Run(b, t, ram, more);
    RunConcat(b, s, ram, ops, more);
    assert OnSlot(ops + more, k);
  }

  lemma StepImage(b: Board, s: State, ram: Location, op: SysOp, k: nat)
    requires ValidBoard(b) && SysInv(b, s, ram) && ValidSysOp(op) && k < |s.recs|
    ensures forall i :: 0 <= i < |s.recs| ==> Sized(b, s.recs[i].p)
    ensures var s' := SysStep(b, s, op); k < |s'.recs| && s'.recs[k].p.image == s.recs[k].p.image
  {
    AllSized(b, s, ram);
    SlotAt(b, s, ram, k);
    if op.On? && op.k == k { SlotUnmoved(b, s.recs[k], op.op, s.nextId); }
  }

  // The other processes, the memory pool and all blocks stay as they are.
  predicate Elsewhere(s: State, t: State, k: nat) {
    && |t.recs| == |s.recs| && t.pool == s.pool && t.slots == s.slots
    && (forall j :: 0 <= j < |s.recs| && j != k ==> t.recs[j] == s.recs[j])
    && (k < |s.recs| ==> t.recs[k].p.image == s.recs[k].p.image)
  }

  lemma StepElsewhere(b: Board, s: State, ram: Location, op: SysOp)
    requires ValidBoard(b) && SysInv(b, s, ram) && ValidSysOp(op) && !op.Load?
    ensures forall i :: 0 <= i < |s.recs| ==> Sized(b, s.recs[i].p)
    ensures Elsewhere(s, SysStep(b, s, op), op.k)
  {
    AllSized(b, s, ram);
    if op.k < |s.recs| { StepImage(b, s, ram, op, op.k); }
  }

  lemma {:induction false} RunElsewhere(b: Board, s: State, ram: Location, ops: seq<SysOp>, k: nat)
    requires ValidBoard(b) && SysInv(b, s, ram) && OnSlot(ops, k)
    ensures Elsewhere(s, Run(b, s, ram, ops), k)
    decreases |ops|
  {
    if ops != [] {
      assert ops[0] in ops;
      StepElsewhere(b, s, ram, ops[0]);
      StepInv(b, s, ram, ops[0]);
      RunElsewhere(b, SysStep(b, s, ops[0]), ram, ops[1..], k);
    }
  }

  lemma LeadsElsewhere(b: Board, s: State, ram: Location, k: nat, t: State)
    requires ValidBoard(b) && SysInv(b, s, ram) && Leads(b, s, ram, k, t)
    ensures SysInv(b, t, ram) && Elsewhere(s, t, k)
  {
    var ops :| OnSlot(ops, k) && t == Run(b, s, ram, ops);
    RunElsewhere(b, s, ram, ops, k);
  }

  function Boot(slots: nat, ram: Location): State { State(slots, [], 0, ram, false, false) }

  // The states of all runs from boot, of which the main theorems speak.
  ghost predicate Reached(b: Board, slots: nat, ram: Location, s: State)
    requires ValidBoard(b)
  {
    exists ops :: SysInv(b, Boot(slots, ram), ram) && (forall op :: op in ops ==> ValidSysOp(op))
                  && s == Run(b, Boot(slots, ram), ram, ops)
  }

  lemma BootReached(b: Board, slots: nat, ram: Location)
    requires ValidBoard(b)
    ensures SysInv(b, Boot(slots, ram), ram) && Reached(b, slots, ram, Boot(slots, ram))
  {
    assert Boot(slots, ram) == Run(b, Boot(slots, ram), ram, []);
  }

  lemma ReachedOn(b: Board, slots: nat, ram: Location, s: State, more: seq<SysOp>)
    requires ValidBoard(b) && Reached(b, slots, ram, s) && SysInv(b, s, ram) && forall op :: op in more ==> ValidSysOp(op)
    ensures Reached(b, slots, ram, Run(b, s, ram, more))
  {
    var ops :| (forall op :: op in ops ==> ValidSysOp(op)) && s == Run(b, Boot(slots, ram), ram, ops);
    RunConcat(b, Boot(slots, ram), ram, ops, more);
    assert forall op :: op in ops + more ==> ValidSysOp(op);
  }

  lemma ReachedLed(b: Board, slots: nat, ram: Location, s: State, k: nat, t: State)
    requires ValidBoard(b) && Reached(b, slots, ram, s) && SysInv(b, s, ram) && Leads(b, s, ram, k, t)
    ensures Reached(b, slots, ram, t)
  {
    var ops :| OnSlot(ops, k) && t == Run(b, s, ram, ops);
    ReachedOn(b, slots, ram, s, ops);
  }

  lemma ReachedLoad(b: Board, slots: nat, ram: Location, s: State, bin: Binary, configId: Option<nat>, contextOk: bool)
    requires ValidBoard(b) && Reached(b, slots, ram, s) && SysInv(b, s, ram) && s.Intact()
    ensures var t := LoadOne(b, s, bin, configId, contextOk); SysInv(b, t, ram) && Reached(b, slots, ram, t)
  {
    var op := Load(bin, configId, contextOk);
    StepInv(b, s, ram, op);
    ReachedOn(b, slots, ram, s, [op]);
    assert [op][0] == op && [op][1..] == [];
    assert Run(b, s, ram, [op]) == Run(b, SysStep(b, s, op), ram, []);
  }

  // ------------------------------------------------------- synchronous loading

  // What is found at the next place in flash.
  datatype Discovered =
    | ProcessBinary(bin: Binary, configId: Option<nat>, contextOk: bool)
    | Skipped
    | NoMoreProcesses

  // The loop of load_processes_from_flash from here on.
  function LoadRest(b: Board, s: State, flash: seq<Discovered>): State
    requires ValidBoard(b)
    decreases |flash|
  {
    if flash == [] || |s.recs| >= s.slots || s.halted then s
    else match flash[0]
      case NoMoreProcesses => s
      case Skipped => LoadRest(b, s, flash[1..])
      case ProcessBinary(bin, configId, contextOk) => LoadRest(b, LoadOne(b, s, bin, configId, contextOk), flash[1..])
  }

  // The loads among what is found, up to the end of the binaries: what is skipped
  // does not end the loading, what comes after the end is not looked at.
  function Loads(flash: seq<Discovered>): seq<SysOp> {
    if flash == [] || flash[0].NoMoreProcesses? then []
    else if flash[0].Skipped? then Loads(flash[1..])
    else [Load(flash[0].bin, flash[0].configId, flash[0].contextOk)] + Loads(flash[1..])
  }

  lemma {:induction false} LoadsValid(flash: seq<Discovered>)
    ensures forall op :: op in Loads(flash) ==> ValidSysOp(op)
  {
    if flash != [] { LoadsValid(flash[1..]); }
  }

  // Once the slots are full or the kernel has stopped, loads change nothing.
  lemma {:induction false} FullIgnoresLoads(b: Board, s: State, ram: Location, flash: seq<Discovered>)
    requires ValidBoard(b) && SysInv(b, s, ram) && (|s.recs| >= s.slots || s.halted)
    ensures forall op :: op in Loads(flash) ==> ValidSysOp(op)
    ensures Run(b, s, ram, Loads(flash)) == s
  {
    LoadsValid(flash);
    AllSized(b, s, ram);
    if flash != [] && !flash[0].NoMoreProcesses? {
      FullIgnoresLoads(b, s, ram, flash[1..]);
      if flash[0].ProcessBinary? { assert Loads(flash)[1..] == Loads(flash[1..]); }
    }
  }

  // The loading loop is the run of those loads.
  lemma {:induction false} LoadingIsRun(b: Board, s: State, ram: Location, flash: seq<Discovered>)
    requires ValidBoard(b) && SysInv(b, s, ram) && !s.wrecked
    ensures forall op :: op in Loads(flash) ==> ValidSysOp(op)
    ensures LoadRest(b, s, flash) == Run(b, s, ram, Loads(flash))
    decreases |flash|
  {
    LoadsValid(flash);
    if |s.recs| >= s.slots || s.halted {
      FullIgnoresLoads(b, s, ram, flash);
    } else if flash != [] && flash[0].Skipped? {
      LoadingIsRun(b, s, ram, flash[1..]);
    } else if flash != [] && flash[0].ProcessBinary? {
      var op := Load(flash[0].bin, flash[0].configId, flash[0].contextOk);
      StepInv(b, s, ram, op);
      LoadingIsRun(b, SysStep(b, s, op), ram, flash[1..]);
      assert Loads(flash)[1..] == Loads(flash[1..]);
    }
  }

  // Whatever is found, however loads fail, the processes that come out are
  // sound and their blocks follow one another inside the RAM given.
  method LoadProcessesFromFlash(b: Board, slots: nat, ram: Location, flash: seq<Discovered>) returns (s: State)
    requires ValidBoard(b)
    ensures s == LoadRest(b, Boot(slots, ram), flash)
    ensures |s.recs| <= slots && SysInv(b, s, ram)
  {
    s := Boot(slots, ram);
    var at := 0;
    while |s.recs| < slots && at < |flash| && !s.halted
      invariant at <= |flash| && s.slots == slots && |s.recs| <= slots && SysInv(b, s, ram)
      invariant LoadRest(b, s, flash[at..]) == LoadRest(b, Boot(slots, ram), flash)
      decreases |flash| - at
    {
      match flash[at] {
        case NoMoreProcesses => break;
        case Skipped =>
        case ProcessBinary(bin, configId, contextOk) =>
          LoadKeeps(b, s, ram, bin, configId, contextOk);
          s := LoadOne(b, s, bin, configId, contextOk);
      }
      at := at + 1;
    }
  }

  // ------------------------------------------------- when the kernel stops

  // What can be checked before the step.
  predicate Halting(b: Board, s: State, op: SysOp)
    requires ValidBoard(b) && forall k :: 0 <= k < |s.recs| ==> Sized(b, s.recs[k].p)
  {
    match op
    case Load(bin, configId, contextOk) =>
      |s.recs| < s.slots
      && Create(b, bin, s.pool, configId, ProcessId(s.nextId, |s.recs|), contextOk).CreateTrap?
    case On(k, o) => k < |s.recs| && Halts(b, s.recs[k].p, o)
    case Store(_, _) => false
  }

  lemma StepHaltsIff(b: Board, s: State, ram: Location, op: SysOp)
    requires ValidBoard(b) && SysInv(b, s, ram) && ValidSysOp(op) && s.Intact()
    ensures forall i :: 0 <= i < |s.recs| ==> Sized(b, s.recs[i].p)
    ensures SysStep(b, s, op).halted <==> Halting(b, s, op)
  {
    AllSized(b, s, ram);
    if op.On? && op.k < |s.recs| {
      SlotAt(b, s, ram, op.k);
      HaltsIff(b, s.recs[op.k].p, op.op, s.nextId);
    }
  }

  lemma {:induction false} RunStands(b: Board, s: State, ram: Location, ops: seq<SysOp>)
    requires ValidBoard(b) && SysInv(b, s, ram) && (forall op :: op in ops ==> ValidSysOp(op)) && !s.Intact()
    ensures Run(b, s, ram, ops) == s
    decreases |ops|
  {
    if ops != [] {
      StepInv(b, s, ram, ops[0]);
      RunStands(b, s, ram, ops[1..]);
    }
  }

  // After i operations the kernel is intact, and the next one stops it.
  ghost predicate HaltsAt(b: Board, s: State, ram: Location, ops: seq<SysOp>, i: nat)
    requires ValidBoard(b) && SysInv(b, s, ram) && (forall op :: op in ops ==> ValidSysOp(op)) && i < |ops|
  {
    var t := Run(b, s, ram, ops[..i]);
    AllSized(b, t, ram);
    t.Intact() && Halting(b, t, ops[i])
  }

  lemma HaltsLater(b: Board, s: State, ram: Location, ops: seq<SysOp>, i: nat)
    requires ValidBoard(b) && SysInv(b, s, ram) && (forall op :: op in ops ==> ValidSysOp(op)) && 0 < i < |ops|
    ensures forall k :: 0 <= k < |s.recs| ==> Sized(b, s.recs[k].p)
    ensures var s1 := SysStep(b, s, ops[0]);
            SysInv(b, s1, ram) && (HaltsAt(b, s, ram, ops, i) <==> HaltsAt(b, s1, ram, ops[1..], i - 1))
  {
    StepInv(b, s, ram, ops[0]);
    assert ops[..i][0] == ops[0] && ops[..i][1..] == ops[1..][..i - 1];
  }

  // A run stops the kernel if and only if some operation in it meets the
  // condition when its turn comes.
  lemma {:induction false} HaltedIff(b: Board, s: State, ram: Location, ops: seq<SysOp>)
    requires ValidBoard(b) && SysInv(b, s, ram) && (forall op :: op in ops ==> ValidSysOp(op)) && s.Intact()
    ensures Run(b, s, ram, ops).halted <==> exists i: nat :: i < |ops| && HaltsAt(b, s, ram, ops, i)
    decreases |ops|
  {
    if ops != [] {
      StepInv(b, s, ram, ops[0]);
      StepHaltsIff(b, s, ram, ops[0]);
      var s1 := SysStep(b, s, ops[0]);
      assert ops[..0] == [];
      assert HaltsAt(b, s, ram, ops, 0) <==> s1.halted;
      forall i: nat | 0 < i < |ops|
        ensures HaltsAt(b, s, ram, ops, i) <==> HaltsAt(b, s1, ram, ops[1..], i - 1)
      {
        HaltsLater(b, s, ram, ops, i);
      }
      if s1.Intact() {
        HaltedIff(b, s1, ram, ops[1..]);
        HaltsShift(b, s, s1, ram, ops);
      } else {
        RunStands(b, s1, ram, ops[1..]);
        NoneLater(b, s1, ram, ops[1..]);
      }
    }
  }

  lemma HaltsShift(b: Board, s: State, s1: State, ram: Location, ops: seq<SysOp>)
    requires ValidBoard(b) && SysInv(b, s, ram) && SysInv(b, s1, ram) && (forall op :: op in ops ==> ValidSysOp(op))
    requires ops != [] && !HaltsAt(b, s, ram, ops, 0)
    requires forall i: nat :: 0 < i < |ops| ==> (HaltsAt(b, s, ram, ops, i) <==> HaltsAt(b, s1, ram, ops[1..], i - 1))
    ensures (exists i: nat :: i < |ops| && HaltsAt(b, s, ram, ops, i))
       <==> (exists i: nat :: i < |ops[1..]| && HaltsAt(b, s1, ram, ops[1..], i))
  {
    if i: nat :| i < |ops[1..]| && HaltsAt(b, s1, ram, ops[1..], i) {
      assert HaltsAt(b, s, ram, ops, i + 1);
    }
  }

  lemma NoneLater(b: Board, s: State, ram: Location, ops: seq<SysOp>)
    requires ValidBoard(b) && SysInv(b, s, ram) && (forall op :: op in ops ==> ValidSysOp(op)) && !s.Intact()
    ensures forall i: nat :: i < |ops| ==> !HaltsAt(b, s, ram, ops, i)
  {
    forall i: nat | i < |ops|
      ensures !HaltsAt(b, s, ram, ops, i)
    {
      RunStands(b, s, ram, ops[..i]);
    }
  }

  // No move of the break, no panic, and only modest loads.
  predicate Steady(b: Board, ram: Location, op: SysOp) {
    match op
    case Load(bin, _, _) => Modest(b, bin, ram)
    case On(_, o) => !o.BrkOp? && !o.SbrkOp? && (o.FaultOp? ==> o.action != PanicAction)
    case Store(_, _) => true
  }

  // With grants that fit a word, such a run never stops the kernel.
  lemma {:induction false} SteadyNeverHalts(b: Board, s: State, ram: Location, ops: seq<SysOp>)
    requires ValidBoard(b) && SysInv(b, s, ram) && !s.halted
    requires forall op :: op in ops ==> ValidSysOp(op) && Steady(b, ram, op)
    requires forall g :: 0 <= g < |b.grants| ==> DeclaredSize(b.grants[g]) < WORD
    ensures !Run(b, s, ram, ops).halted
    decreases |ops|
  {
    if ops != [] {
      assert ops[0] in ops;
      StepInv(b, s, ram, ops[0]);
      if s.Intact() {
        StepHaltsIff(b, s, ram, ops[0]);
        if ops[0].Load? {
          ModestNeverTraps(b, ops[0].bin, s.pool, ops[0].configId, ProcessId(s.nextId, |s.recs|), ops[0].contextOk);
        }
      }
      SteadyNeverHalts(b, SysStep(b, s, ops[0]), ram, ops[1..]);
    }
  }

  // ------------------------------------------------- when stores are harmless

  ghost predicate AllRoomy(s: State) {
    forall k :: 0 <= k < |s.recs| ==> s.recs[k].p.image.memLen >= 512 && M.Roomy(s.recs[k].p.image)
  }

  predicate LoadsRoomy(b: Board, op: SysOp) { op.Load? ==> RoomyFor(b, op.bin) }

  lemma LoadRoomy(b: Board, s: State, bin: Binary, configId: Option<nat>, contextOk: bool)
    requires ValidBoard(b) && RoomyFor(b, bin) && AllRoomy(s)
    ensures AllRoomy(LoadOne(b, s, bin, configId, contextOk))
    ensures LoadOne(b, s, bin, configId, contextOk).wrecked == s.wrecked
  {
    CreateSound(b, bin, s.pool, configId, ProcessId(s.nextId, |s.recs|), contextOk);
  }

  lemma StepRoomy(b: Board, s: State, ram: Location, op: SysOp)
    requires ValidBoard(b) && SysInv(b, s, ram) && ValidSysOp(op) && LoadsRoomy(b, op) && AllRoomy(s) && !s.wrecked
    ensures forall i :: 0 <= i < |s.recs| ==> Sized(b, s.recs[i].p)
    ensures var s' := SysStep(b, s, op); AllRoomy(s') && !s'.wrecked
  {
    AllSized(b, s, ram);
    match op
    case Load(bin, configId, contextOk) =>
      LoadRoomy(b, s, bin, configId, contextOk);
    case On(k, o) =>
      if k < |s.recs| { StepImage(b, s, ram, op, k); }
    case Store(k, a) =>
      if k < |s.recs| {
        SlotAt(b, s, ram, k);
        TrespassMeans(b, s.recs[k].p, a);
      }
  }

  // If every binary loaded gets a roomy block, no run, with any stores by any
  // process anywhere in it, ever reaches the kernel's data.
  lemma {:induction false} RoomyNeverWrecked(b: Board, s: State, ram: Location, ops: seq<SysOp>)
    requires ValidBoard(b) && SysInv(b, s, ram) && AllRoomy(s) && !s.wrecked
    requires forall op :: op in ops ==> ValidSysOp(op) && LoadsRoomy(b, op)
    ensures !Run(b, s, ram, ops).wrecked
    decreases |ops|
  {
    if ops != [] {
      assert ops[0] in ops;
      StepRoomy(b, s, ram, ops[0]);
      StepInv(b, s, ram, ops[0]);
      RoomyNeverWrecked(b, SysStep(b, s, ops[0]), ram, ops[1..]);
    }
  }

  // Nothing is loaded after the first process.
  predicate NoLoads(ops: seq<SysOp>) { forall op :: op in ops ==> !op.Load? }

  // The exact condition: the kernel's data is safe from the stores of a new
  // process, in every later run, if and only if its block is roomy.
  lemma SafeIffRoomy(b: Board, slots: nat, ram: Location, bin: Binary, configId: Option<nat>, contextOk: bool)
    requires ValidBoard(b)
    ensures var s := SysStep(b, Boot(slots, ram), Load(bin, configId, contextOk));
            && SysInv(b, s, ram)
            && (|s.recs| == 1 ==>
                  ((forall ops :: NoLoads(ops) && (forall op :: op in ops ==> ValidSysOp(op)) ==>
                                    !Run(b, s, ram, ops).wrecked)
                   <==> RoomyFor(b, bin)))
  {
    var boot := Boot(slots, ram);
    StepInv(b, boot, ram, Load(bin, configId, contextOk));
    var s := SysStep(b, boot, Load(bin, configId, contextOk));
    if |s.recs| == 1 {
      CreateSound(b, bin, ram, configId, ProcessId(0, 0), contextOk);
      if RoomyFor(b, bin) {
        forall ops | NoLoads(ops) && forall op :: op in ops ==> ValidSysOp(op)
          ensures !Run(b, s, ram, ops).wrecked
        {
          RoomyNeverWrecked(b, s, ram, ops);
        }
      } else {
        StructWritten(b, s, ram);
      }
    }
  }

  // So there is a binary that loads and then writes over the kernel's data.
  lemma UnsafeHappens()
    ensures ValidBoard(TIGHT_BOARD)
    ensures var s := SysStep(TIGHT_BOARD, Boot(1, TIGHT_RAM), Load(TIGHT_BINARY, Some(1), true));
            && SysInv(TIGHT_BOARD, s, TIGHT_RAM) && |s.recs| == 1
            && exists ops :: NoLoads(ops) && (forall op :: op in ops ==> ValidSysOp(op))
                             && Run(TIGHT_BOARD, s, TIGHT_RAM, ops).wrecked
  {
    TightProcess(1, ProcessId(0, 0));
    SafeIffRoomy(TIGHT_BOARD, 1, TIGHT_RAM, TIGHT_BINARY, Some(1), true);
  }

  // A process whose block is not roomy can write where its own struct is kept.
  lemma StructWritten(b: Board, s: State, ram: Location)
    requires ValidBoard(b) && SysInv(b, s, ram) && |s.recs| == 1 && s.Intact()
    requires ExposureExact(s.recs[0].p) && !M.Roomy(s.recs[0].p.image)
    ensures var ops := [Store(0, s.recs[0].p.kernelBreak)];
            NoLoads(ops) && (forall op :: op in ops ==> ValidSysOp(op)) && Run(b, s, ram, ops).wrecked
  {
    SlotAt(b, s, ram, 0);
    var op := Store(0, s.recs[0].p.kernelBreak);
    TrespassMeans(b, s.recs[0].p, s.recs[0].p.kernelBreak);
    StepInv(b, s, ram, op);
    assert SysStep(b, s, op).wrecked;
    assert [op][1..] == [];
    assert Run(b, s, ram, [op]) == Run(b, SysStep(b, s, op), ram, []);
  }

  // ---------------------------------------------------------- main theorems

  // The theorems below are about every state reached from boot by any loads,
  // failed loads, system calls, upcalls, faults, terminations, restarts and
  // stores, as long as no store has reached the kernel's data. RoomyNeverWrecked
  // and SafeIffRoomy say when that cannot happen.

  // The break pointers of a process are in order. User mode can write all of
  // its memory below the app break, and nothing outside its block; if the block
  // is roomy, nothing at or above the kernel break. It can execute all of its own
  // flash and nothing else, and read what it can write or execute.
  lemma OwnMemoryOnly(b: Board, slots: nat, ram: Location, ops: seq<SysOp>, k: nat, a: int)
    requires ValidBoard(b) && forall op :: op in ops ==> ValidSysOp(op)
    ensures SysInv(b, Boot(slots, ram), ram)
    ensures var s := Run(b, Boot(slots, ram), ram, ops);
            s.Intact() && k < |s.recs| ==>
              var p := s.recs[k].p;
              && p.mpu.Some? && p.image.memLen >= 512
              && p.image.memStart <= p.highWater <= p.appBreak <= p.kernelBreak <= MemEnd(p)
              && (p.image.memStart <= a < p.appBreak ==> T.Writable(p.mpu.value.regions, a))
              && (T.Writable(p.mpu.value.regions, a) ==>
                    p.image.memStart <= a < if M.Roomy(p.image) then p.kernelBreak else MemEnd(p))
              && (T.Executable(p.mpu.value.regions, a) <==> p.image.flashStart <= a < FlashEnd(p))
              && (T.Readable(p.mpu.value.regions, a) <==>
                    T.Writable(p.mpu.value.regions, a) || T.Executable(p.mpu.value.regions, a))
  {
    var s := Run(b, Boot(slots, ram), ram, ops);
    if k < |s.recs| {
      SlotAt(b, s, ram, k);
      var p := s.recs[k].p;
      M.IsolationByAddress(p, a);
      LiveAccess(b, p, a);
    }
  }

  // Through all slots of its table together, a process can write only inside
  // the RAM pool and outside every other process's block; the same holds of
  // everything it can reach, if its flash is not RAM.
  lemma ProcessesIsolated(b: Board, slots: nat, ram: Location, ops: seq<SysOp>, j: nat, k: nat, a: int)
    requires ValidBoard(b) && forall op :: op in ops ==> ValidSysOp(op)
    ensures SysInv(b, Boot(slots, ram), ram)
    ensures var s := Run(b, Boot(slots, ram), ram, ops);
            s.Intact() && j < |s.recs| && k < |s.recs| && j != k ==>
              var p, other := s.recs[j].p, s.recs[k].p;
              var apart := ram.start <= a < End(ram) && !(other.image.memStart <= a < MemEnd(other));
              && p.mpu.Some?
              && (T.Writable(p.mpu.value.regions, a) ==> apart)
              && (T.Reachable(p.mpu.value.regions, a) ==> apart || p.image.flashStart <= a < FlashEnd(p))
              && (T.Apart(Location(p.image.flashStart, p.image.flashLen), ram) && T.Reachable(p.mpu.value.regions, a) ==>
                    !(other.image.memStart <= a < MemEnd(other)))
  {
    var s := Run(b, Boot(slots, ram), ram, ops);
    if j < |s.recs| && k < |s.recs| {
      SlotAt(b, s, ram, j);
      var p := s.recs[j].p;
      M.IsolationByAddress(p, a);
      LiveAccess(b, p, a);
    }
  }

  // A buffer validated at any earlier point, if its process identifier still
  // resolves, lies below the app break of that process; a read-only one may
  // instead lie in its unprotected flash.
  lemma BuffersStayInside(b: Board, slots: nat, ram: Location, ops: seq<SysOp>, k: nat, h: Handed)
    requires ValidBoard(b) && forall op :: op in ops ==> ValidSysOp(op)
    ensures SysInv(b, Boot(slots, ram), ram)
    ensures var s := Run(b, Boot(slots, ram), ram, ops);
            s.Intact() && k < |s.recs| && h in s.recs[k].handed && BufferLen(s, h.buffer) > 0 ==>
              var p := GetProcess(s, h.buffer.pid).value;
              || (p.image.memStart <= h.buffer.ptr && h.buffer.ptr + h.buffer.len <= p.appBreak)
              || (!h.writable && p.image.flashStart + p.image.protectedSize <= h.buffer.ptr
                  && h.buffer.ptr + h.buffer.len <= FlashEnd(p))
  {
    var s := Run(b, Boot(slots, ram), ram, ops);
    if k < |s.recs| && h in s.recs[k].handed && GetProcess(s, h.buffer.pid).Some? {
      SlotAt(b, s, ram, k);
      assert InsideNow(s.recs[k].p, h);
    }
  }

  // An identifier finds exactly the process that bears it, and a buffer of that
  // process has its length; every other identifier finds nothing, and a buffer
  // under it reads as empty.
  lemma BufferResolves(b: Board, slots: nat, ram: Location, ops: seq<SysOp>, k: nat, buffer: Buffer)
    requires ValidBoard(b) && forall op :: op in ops ==> ValidSysOp(op)
    ensures SysInv(b, Boot(slots, ram), ram)
    ensures var s := Run(b, Boot(slots, ram), ram, ops);
            && (k < |s.recs| && s.recs[k].p.pid == buffer.pid ==>
                  GetProcess(s, buffer.pid) == Some(s.recs[k].p) && BufferLen(s, buffer) == buffer.len)
            && ((forall r :: r in s.recs ==> r.p.pid != buffer.pid) ==>
                  GetProcess(s, buffer.pid) == None && BufferLen(s, buffer) == 0)
  {
    var s := Run(b, Boot(slots, ram), ram, ops);
    if k < |s.recs| { SlotAt(b, s, ram, k); }
    if buffer.pid.index < |s.recs| {
      SlotAt(b, s, ram, buffer.pid.index);
      assert s.recs[buffer.pid.index] in s.recs;
    }
  }

  // Every grant and custom grant of the present incarnation that did not wrap
  // is aligned, lies between the app break and the process struct, and nothing
  // that user mode can write reaches up to it.
  lemma GrantsOutOfReach(b: Board, slots: nat, ram: Location, ops: seq<SysOp>, k: nat, i: nat, a: int)
    requires ValidBoard(b) && forall op :: op in ops ==> ValidSysOp(op)
    ensures SysInv(b, Boot(slots, ram), ram)
    ensures var s := Run(b, Boot(slots, ram), ram, ops);
            s.Intact() && k < |s.recs| && i < |s.recs[k].allocs| && !s.recs[k].allocs[i].wraps ==>
              var p, x := s.recs[k].p, s.recs[k].allocs[i];
              && x.align >= 1 && x.start % x.align == 0
              && p.appBreak <= x.start && x.start + x.size <= StructStart(p)
              && p.mpu.Some? && (T.Writable(p.mpu.value.regions, a) ==> a < x.start)
  {
    var s := Run(b, Boot(slots, ram), ram, ops);
    if k < |s.recs| && i < |s.recs[k].allocs| {
      SlotAt(b, s, ram, k);
      var p := s.recs[k].p;
      assert InRegion(p, s.recs[k].allocs[i]);
      M.IsolationByAddress(p, a);
      LiveAccess(b, p, a);
    }
  }

  // Any two of them are disjoint: the later one ends at or below the earlier.
  lemma GrantsApart(b: Board, slots: nat, ram: Location, ops: seq<SysOp>, k: nat, i: nat, j: nat)
    requires ValidBoard(b) && forall op :: op in ops ==> ValidSysOp(op)
    ensures SysInv(b, Boot(slots, ram), ram)
    ensures var s := Run(b, Boot(slots, ram), ram, ops);
            s.Intact() && k < |s.recs| && i < j < |s.recs[k].allocs| ==>
              var x, y := s.recs[k].allocs[i], s.recs[k].allocs[j];
              !x.wraps && !y.wraps ==> y.start + y.size <= x.start
  {
    var s := Run(b, Boot(slots, ram), ram, ops);
    if k < |s.recs| && i < j < |s.recs[k].allocs| {
      SlotAt(b, s, ram, k);
      assert Below(s.recs[k].allocs[j], s.recs[k].allocs[i]);
    }
  }

  // The range that grant g of a process stands on.
  ghost predicate StandsOn(b: Board, p: Process, allocs: seq<Alloc>, g: nat, i: nat)
    requires Sized(b, p) && g < |p.grants|
  {
    && i < |allocs| && allocs[i].owner == Some(g)
    && allocs[i].start == Untagged(p.grants[g].ptr)
    && allocs[i].size == DeclaredSize(b.grants[g]) && allocs[i].align == L.GrantAlign(b.grants[g].tAlign)
    && (forall j :: 0 <= j < |allocs| && allocs[j].owner == Some(g) ==> j == i)
  }

  lemma OwnRange(b: Board, p: Process, allocs: seq<Alloc>, g: nat) returns (i: nat)
    requires Sized(b, p) && RangeInv(b, p, allocs) && g < |p.grants| && Allocated(p.grants[g])
    ensures StandsOn(b, p, allocs, g, i)
  {
    assert Owned(allocs, g);
    i :| 0 <= i < |allocs| && allocs[i].owner == Some(g);
    assert allocs[i] in allocs && OwnerOk(b, p, allocs[i]);
  }

  // Every allocated grant stands on one range of its own, of its declared size
  // and alignment. In it the counters, the three arrays and T fit without
  // overlap, and T is aligned. Entering the grant returns the start of it.
  lemma GrantsInPlace(b: Board, slots: nat, ram: Location, ops: seq<SysOp>, k: nat, g: nat)
    requires ValidBoard(b) && forall op :: op in ops ==> ValidSysOp(op)
    ensures SysInv(b, Boot(slots, ram), ram)
    ensures var s := Run(b, Boot(slots, ram), ram, ops);
            s.Intact() && k < |s.recs| ==>
              var p, allocs := s.recs[k].p, s.recs[k].allocs;
              && Sized(b, p)
              && (g < |p.grants| && Allocated(p.grants[g]) ==>
                    exists i: nat :: StandsOn(b, p, allocs, g, i) && SectionsInPlace(b.grants[g], allocs[i])
                                     && (EnterGrant(p, g).0.Success? ==> EnterGrant(p, g).0.value == allocs[i].start))
  {
    var s := Run(b, Boot(slots, ram), ram, ops);
    if k < |s.recs| {
      SlotAt(b, s, ram, k);
      var p, allocs := s.recs[k].p, s.recs[k].allocs;
      if g < |p.grants| && Allocated(p.grants[g]) {
        var i := OwnRange(b, p, allocs, g);
        assert InRegion(p, allocs[i]);
        SectionsStand(b.grants[g], allocs[i]);
      }
    }
  }

  predicate SectionsInPlace(d: GrantDecl, x: Alloc)
    requires d.tAlign > 0
  {
    var sections := L.Sections(x.start, d.counts, d.tSize, d.tAlign);
    && (forall i :: 0 <= i < 5 ==> x.start <= sections[i].0 && sections[i].0 + sections[i].1 <= x.start + x.size)
    && (forall i, j :: 0 <= i < j < 5 ==> sections[i].0 + sections[i].1 <= sections[j].0)
    && (forall i :: 0 <= i < 4 ==> sections[i].0 % L.WORD_BYTES == 0)
    && sections[4].0 % d.tAlign == 0
  }

  lemma SectionsStand(d: GrantDecl, x: Alloc)
    requires IsPow2(d.tAlign) && x.size == DeclaredSize(d) && x.align == L.GrantAlign(d.tAlign) && x.start % x.align == 0
    ensures SectionsInPlace(d, x)
  {
    L.SectionsFit(x.start, d.counts, d.tSize, d.tAlign);
    L.SectionsAligned(x.start, d.counts, d.tSize, d.tAlign);
  }

  // Queued driver upcalls carry the registration in force, the registration in
  // force is the last successful subscription of this incarnation, its function
  // was in the process's own flash or app memory when it was subscribed, and an
  // inactive process has nothing queued and nothing allocated, so the scheduler
  // never finds it ready.
  lemma UpcallsCurrent(b: Board, slots: nat, ram: Location, ops: seq<SysOp>, k: nat, t: Task, id: UpcallId)
    requires ValidBoard(b) && forall op :: op in ops ==> ValidSysOp(op)
    ensures SysInv(b, Boot(slots, ram), ram)
    ensures var s := Run(b, Boot(slots, ram), ram, ops);
            s.Intact() && k < |s.recs| ==>
              var r := s.recs[k];
              && |r.p.memory| == |r.p.grants|
              && Saved(r.p, id) == Registered(r.subs, id)
              && (t in r.p.tasks && t.Call? && t.call.source == Driver(id) ==>
                    Registered(r.subs, id) == SavedUpcall(t.call.argument3, t.call.pc) && t.call.pc != 0)
              && (Registered(r.subs, id).fnPtr != 0 ==>
                    && id in r.subs && r.subs[id].appBreak <= MemEnd(r.p)
                    && PointerInside(r.p.image, r.subs[id].appBreak, Registered(r.subs, id).fnPtr))
              && (!IsRunning(r.p.state) ==> Cleared(r.p) && !Ready(r.p))
  {
    var s := Run(b, Boot(slots, ram), ram, ops);
    if k < |s.recs| {
      SlotAt(b, s, ram, k);
      if t in s.recs[k].p.tasks { assert Current(s.recs[k].p, t); }
      if id in s.recs[k].subs { assert SubscribedOk(s.recs[k].p, s.recs[k].subs[id]); }
    }
  }

  lemma {:induction false} ImagesFixed(b: Board, s: State, ram: Location, ops: seq<SysOp>, k: nat)
    requires ValidBoard(b) && SysInv(b, s, ram) && (forall op :: op in ops ==> ValidSysOp(op)) && k < |s.recs|
    ensures var s' := Run(b, s, ram, ops); k < |s'.recs| && s'.recs[k].p.image == s.recs[k].p.image
    decreases |ops|
  {
    if ops != [] {
      StepInv(b, s, ram, ops[0]);
      StepImage(b, s, ram, ops[0], k);
      ImagesFixed(b, SysStep(b, s, ops[0]), ram, ops[1..], k);
    }
  }

  // Through any later run, the identifier of a custom grant maps back to the
  // address that was allocated for it.
  lemma CustomGrantFound(b: Board, s: State, ram: Location, k: nat, size: nat, align: nat, ops: seq<SysOp>)
    requires ValidBoard(b) && SysInv(b, s, ram) && k < |s.recs| && (forall op :: op in ops ==> ValidSysOp(op))
    requires s.recs[k].p.kernelBreak < WORD && size < WORD && 1 <= align
    ensures var (r, _) := AllocateCustomGrant(s.recs[k].p, size, align);
            var s' := Run(b, s, ram, ops);
            k < |s'.recs| && (r.Success? && s'.Intact() ==> CustomGrantAddress(s'.recs[k].p, r.value.0) == r.value.1)
  {
    ImagesFixed(b, s, ram, ops, k);
  }

  // After any run, a successful subscribe returns the pair of the last
  // successful subscribe to that identifier in this incarnation, or the Null
  // Upcall if there was none.
  lemma SubscribeReturnsLast(b: Board, slots: nat, ram: Location, ops: seq<SysOp>, k: nat, present: bool, id: UpcallId,
                             upcall: SavedUpcall, reaction: Reaction)
    requires ValidBoard(b) && forall op :: op in ops ==> ValidSysOp(op)
    ensures SysInv(b, Boot(slots, ram), ram)
    ensures var s := Run(b, Boot(slots, ram), ram, ops);
            s.Intact() && k < |s.recs| ==>
              && Sized(b, s.recs[k].p)
              && var ret := Subscribe(b, s.recs[k].p, present, id, upcall, reaction).0;
                 ret.SubscribeSuccess? ==> SavedUpcall(ret.appdata, ret.fnPtr) == Registered(s.recs[k].subs, id)
  {
    var s := Run(b, Boot(slots, ram), ram, ops);
    if k < |s.recs| {
      SlotAt(b, s, ram, k);
      SubscribeContract(b, s.recs[k].p, present, id, upcall, reaction);
    }
  }
}
