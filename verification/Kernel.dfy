// The kernel object (kernel/src/kernel.rs, kernel_loop_operation): process objects
// that share one MPU, created from binaries and then run in any order.

module Kernels {
  import opened Wrappers
  import opened Region
  import opened ProcessTypes
  import opened ProcessStandards
  import opened ObjectSteps
  import opened ObjectCreation
  import opened ProcessRuns
  import opened System
  import opened KernelLoop
  import C = Creation
  import H = CortexMpu

  // The process value an object holds, and its MPU configuration, if it is whole.
  ghost function View(p: ProcessStandard): Option<(Process, H.CortexMConfig?)>
    reads p, Footprint(p)
  {
    if p.Whole() then Some((p.Value(), p.mpuConfig)) else None
  }

  // The object, with this MPU configuration, stands for the process value v.
  ghost predicate Backs(p: ProcessStandard, c: H.CortexMConfig, b: Board, mpu: H.Mpu, v: Process)
    reads p, mpu, c, Footprint(p)
  {
    p.board == b && p.mpu == mpu && c.id < mpu.configCount && View(p) == Some((v, c)) && mpu.Synced(c)
  }

  // Process objects share nothing but the MPU, and their configurations have
  // different identifiers.
  ghost predicate Distinct(ps: seq<ProcessStandard>, configs: seq<H.CortexMConfig>) {
    |ps| == |configs| && forall j, k :: 0 <= j < |ps| && 0 <= k < |ps| && j != k ==>
      && ps[j] != ps[k] && ps[j].tasks != ps[k].tasks && ps[j].tasks.ring != ps[k].tasks.ring
      && ps[j].grantPointers != ps[k].grantPointers && configs[j].id != configs[k].id
  }

  ghost function Parts(ps: seq<ProcessStandard>): set<object>
    reads ps
  {
    set k, o | 0 <= k < |ps| && o in Footprint(ps[k]) :: o
  }

  // The objects are the processes of the records.
  ghost predicate Standing(ps: seq<ProcessStandard>, configs: seq<H.CortexMConfig>, b: Board, mpu: H.Mpu,
                           recs: seq<Record>)
    reads mpu, ps, configs, Parts(ps)
  {
    && mpu.Valid() && Distinct(ps, configs) && |ps| == |recs|
    && forall k :: 0 <= k < |ps| ==> Backs(ps[k], configs[k], b, mpu, recs[k].p)
  }

  lemma FootprintsApart(ps: seq<ProcessStandard>, configs: seq<H.CortexMConfig>, b: Board, mpu: H.Mpu,
                        recs: seq<Record>, k: nat)
    requires Standing(ps, configs, b, mpu, recs) && k < |ps|
    ensures forall j :: 0 <= j < |ps| && j != k ==> Footprint(ps[j]) !! Footprint(ps[k])
  {
    forall j | 0 <= j < |ps| && j != k
      ensures Footprint(ps[j]) !! Footprint(ps[k])
    {
      assert Backs(ps[j], configs[j], b, mpu, recs[j].p) && Backs(ps[k], configs[k], b, mpu, recs[k].p);
    }
  }

  // do_process on process k of several.
  method RunAmong(ps: seq<ProcessStandard>, ghost configs: seq<H.CortexMConfig>, b: Board, mpu: H.Mpu, k: nat,
                  turns: seq<Turn>, nextId: nat, ghost s: System.State, ghost ram: Location)
    returns (reason: Option<StoppedExecutingReason>, lost: bool, nextId': nat, ghost u: System.State,
             ghost log: seq<Event>)
    requires ValidBoard(b) && SysInv(b, s, ram) && s.Intact() && nextId == s.nextId && k < |ps|
    requires Standing(ps, configs, b, mpu, s.recs) && forall t :: t in turns ==> ValidTurn(t)
    modifies Parts(ps), mpu`hardwareIsConfiguredFor, mpu`registers
    ensures Leads(b, s, ram, k, u) && (lost <==> !u.Intact()) && AllSound(log, s.recs[k].p.image)
    ensures !lost ==> nextId' == u.nextId && Standing(ps, configs, b, mpu, u.recs)
  {
    FootprintsApart(ps, configs, b, mpu, s.recs, k);
    reason, lost, nextId', u, log := DoProcess(ps[k], turns, nextId, s, ram, k);
    LeadsElsewhere(b, s, ram, k, u);
    if !lost {
      assert Backs(ps[k], configs[k], b, mpu, u.recs[k].p);
      forall j | 0 <= j < |ps|
        ensures Backs(ps[j], configs[j], b, mpu, u.recs[j].p)
      {
        assert old(Backs(ps[j], configs[j], b, mpu, s.recs[j].p));
        if j != k {
          assert View(ps[j]) == old(View(ps[j]));
          assert configs[j].id != configs[k].id;
        }
      }
    }
  }

  // Work of capsules on process k of several: any operations on it.
  method WorkAmong(ps: seq<ProcessStandard>, ghost configs: seq<H.CortexMConfig>, b: Board, mpu: H.Mpu, k: nat,
                   ops: seq<Op>, nextId: nat, ghost s: System.State, ghost ram: Location)
    returns (lost: bool, nextId': nat, ghost u: System.State)
    requires ValidBoard(b) && SysInv(b, s, ram) && s.Intact() && nextId == s.nextId && k < |ps|
    requires Standing(ps, configs, b, mpu, s.recs) && forall op :: op in ops ==> ValidOp(op)
    modifies Parts(ps), mpu`hardwareIsConfiguredFor, mpu`registers
    ensures Leads(b, s, ram, k, u) && (lost <==> !u.Intact())
    ensures !lost ==> nextId' == u.nextId && Standing(ps, configs, b, mpu, u.recs)
  {
    FootprintsApart(ps, configs, b, mpu, s.recs, k);
    lost, nextId', u := PerformAll(ps[k], ops, nextId, s, ram, k);
    LeadsElsewhere(b, s, ram, k, u);
    if !lost {
      assert Backs(ps[k], configs[k], b, mpu, u.recs[k].p);
      forall j | 0 <= j < |ps|
        ensures Backs(ps[j], configs[j], b, mpu, u.recs[j].p)
      {
        assert old(Backs(ps[j], configs[j], b, mpu, s.recs[j].p));
        if j != k {
          assert View(ps[j]) == old(View(ps[j]));
          assert configs[j].id != configs[k].id;
        }
      }
    }
  }

  // One more process beside the others, or one refused.
  method CreateBeside(ps: seq<ProcessStandard>, ghost configs: seq<H.CortexMConfig>, b: Board, mpu: H.Mpu,
                      bin: C.Binary, memory: Location, pid: ProcessId, contextOk: bool, ghost recs: seq<Record>)
    returns (made: Made, ghost configs': seq<H.CortexMConfig>, ghost configId: Option<nat>)
    requires ValidBoard(b) && b.unit == mpu.minRegionSize && b.numRegions == mpu.numRegions
    requires Standing(ps, configs, b, mpu, recs)
    modifies mpu`configCount
    ensures Matches(made, C.Create(b, bin, memory, configId, pid, contextOk), b, mpu, old(mpu.configCount))
    ensures made.Object? ==>
              && NewParts(made.process) && fresh(made.process.mpuConfig)
              && var r := C.Create(b, bin, memory, configId, pid, contextOk);
                 r.Created? && Standing(ps + [made.process], configs', b, mpu, recs + [Record(r.process, [], [], map[])])
    ensures !made.Object? ==> configs' == configs && Standing(ps, configs, b, mpu, recs)
    ensures forall c :: c in configs' ==> c in configs || fresh(c)
  {
    configs' := configs;
    made, configId := ObjectCreation.Create(b, mpu, bin, memory, pid, contextOk);
    forall j | 0 <= j < |ps|
      ensures Backs(ps[j], configs[j], b, mpu, recs[j].p)
    {
      assert old(Backs(ps[j], configs[j], b, mpu, recs[j].p));
      assert View(ps[j]) == old(View(ps[j]));
    }
    if made.Object? { configs' := configs + [made.process.mpuConfig]; }
  }

  // load_process: try the binary in the next free slot.
  method LoadBeside(ps: seq<ProcessStandard>, ghost configs: seq<H.CortexMConfig>, b: Board, mpu: H.Mpu, slots: nat,
                    bin: C.Binary, contextOk: bool, nextId: nat, pool: Location, ghost s: System.State)
    returns (ps': seq<ProcessStandard>, ghost configs': seq<H.CortexMConfig>, lost: bool, nextId': nat, pool': Location,
             ghost configId: Option<nat>)
    requires ValidBoard(b) && b.unit == mpu.minRegionSize && b.numRegions == mpu.numRegions
    requires Standing(ps, configs, b, mpu, s.recs) && s.Intact()
    requires slots == s.slots && nextId == s.nextId && pool == s.pool
    modifies mpu`configCount
    ensures var u := LoadOne(b, s, bin, configId, contextOk);
            && !u.wrecked && (lost <==> u.halted) && u.slots == slots
            && (!lost ==> nextId' == u.nextId && pool' == u.pool && Standing(ps', configs', b, mpu, u.recs))
    ensures (forall p :: p in ps' ==> p in ps || NewParts(p)) && (forall c :: c in configs' ==> c in configs || fresh(c))
  {
    ps', configs', lost, nextId', pool', configId := ps, configs, false, nextId, pool, None;
    if |ps| >= slots { return; }
    var made;
    made, configs', configId := CreateBeside(ps, configs, b, mpu, bin, pool, ProcessId(nextId, |ps|), contextOk, s.recs);
    match made
    case Object(p, rest) => ps', nextId', pool' := ps + [p], nextId + 1, rest;
    case Refused(e, rest) => nextId', pool' := if e.InternalError? then nextId + 1 else nextId, rest;
    case Trapped => lost := true;
  }

  // ---------------------------------------------------------------- the log

  // Something process k did or was given.
  datatype Entry = Entry(k: nat, event: Event)

  predicate InBlock(m: Image, a: int) { m.memStart <= a < m.memStart + m.memLen }

  // The registers under which process k executed let it write inside the RAM
  // pool and outside the blocks of all other processes.
  ghost predicate Confined(e: Entry, images: seq<Image>, ram: Location) {
    e.event.Executed? ==>
      forall a :: H.HardwareWritable(e.event.hardware, a) ==>
        && ram.start <= a < C.End(ram)
        && forall j :: 0 <= j < |images| && j != e.k ==> !InBlock(images[j], a)
  }

  ghost predicate Recorded(log: seq<Entry>, images: seq<Image>) {
    forall e :: e in log ==> e.k < |images| && Sound(e.event) && e.event.p.image == images[e.k]
  }

  function Images(s: System.State): (images: seq<Image>)
    ensures |images| == |s.recs| && forall k :: 0 <= k < |images| ==> images[k] == s.recs[k].p.image
  {
    seq(|s.recs|, k requires 0 <= k < |s.recs| => s.recs[k].p.image)
  }

  lemma ImagesKept(s: System.State, u: System.State, k: nat)
    requires Elsewhere(s, u, k) && k < |s.recs|
    ensures Images(u) == Images(s)
  {
  }

  lemma ImagesGrow(b: Board, s: System.State, bin: C.Binary, configId: Option<nat>, contextOk: bool)
    requires ValidBoard(b)
    ensures Images(s) <= Images(LoadOne(b, s, bin, configId, contextOk))
  {
  }

  lemma RecordedConfined(b: Board, s: System.State, ram: Location, log: seq<Entry>, e: Entry)
    requires ValidBoard(b) && SysInv(b, s, ram) && Recorded(log, Images(s)) && e in log
    ensures Confined(e, Images(s), ram)
  {
    assert BlocksInOrder(s, ram) && e.k < |s.recs|;
    assert e.event.p.image == s.recs[e.k].p.image;
  }

  function Tagged(k: nat, events: seq<Event>): (log: seq<Entry>)
    ensures forall e :: e in log ==> e.k == k && e.event in events
  {
    seq(|events|, i requires 0 <= i < |events| => Entry(k, events[i]))
  }

  // ------------------------------------------------------------- the kernel

  // What the scheduler decides, or start-up does: load one more process, let
  // capsules work on a process, or run one.
  datatype Decision =
    | LoadProcess(bin: C.Binary, contextOk: bool)
    | KernelWork(k: nat, ops: seq<Op>)
    | RunProcess(k: nat, turns: seq<Turn>)

  ghost predicate ValidDecision(d: Decision) {
    match d
    case LoadProcess(_, _) => true
    case KernelWork(_, ops) => forall op :: op in ops ==> ValidOp(op)
    case RunProcess(_, turns) => forall t :: t in turns ==> ValidTurn(t)
  }

  // The processes, the next identifier and the memory left.
  datatype Holding = Holding(ps: seq<ProcessStandard>, nextId: nat, pool: Location)

  ghost predicate Holds(h: Holding, configs: seq<H.CortexMConfig>, b: Board, mpu: H.Mpu, s: System.State)
    reads mpu, h.ps, configs, Parts(h.ps)
  {
    h.nextId == s.nextId && h.pool == s.pool && s.Intact() && Standing(h.ps, configs, b, mpu, s.recs)
  }

  // Everything the objects own is one of these.
  lemma PartsAre(ps: seq<ProcessStandard>, configs: seq<H.CortexMConfig>, b: Board, mpu: H.Mpu, recs: seq<Record>,
                 o: object)
    requires Standing(ps, configs, b, mpu, recs) && o in Parts(ps)
    ensures || (exists c :: c in configs && o == c)
            || (exists p :: p in ps && (o == p || o == p.tasks || o == p.tasks.ring || o == p.grantPointers))
  {
    var k :| 0 <= k < |ps| && o in Footprint(ps[k]);
    assert Backs(ps[k], configs[k], b, mpu, recs[k].p) && ps[k] in ps && configs[k] in configs;
  }

  // kernel_loop_operation: act on one decision.
  method Decide(h: Holding, ghost configs: seq<H.CortexMConfig>, b: Board, mpu: H.Mpu, slots: nat, ghost ram: Location,
                d: Decision, ghost s: System.State)
    returns (h': Holding, ghost configs': seq<H.CortexMConfig>, lost: bool, ghost u: System.State, ghost log: seq<Entry>)
    requires ValidBoard(b) && b.unit == mpu.minRegionSize && b.numRegions == mpu.numRegions && ValidDecision(d)
    requires SysInv(b, s, ram) && Reached(b, slots, ram, s) && s.slots == slots && Holds(h, configs, b, mpu, s)
    modifies Parts(h.ps), mpu
    ensures SysInv(b, u, ram) && Reached(b, slots, ram, u) && u.slots == slots
    ensures (lost <==> !u.Intact()) && (!lost ==> Holds(h', configs', b, mpu, u))
    ensures Images(s) <= Images(u) && Recorded(log, Images(u))
    ensures (forall p :: p in h'.ps ==> p in h.ps || NewParts(p)) && (forall c :: c in configs' ==> c in configs || fresh(c))
  {
    h', configs', lost, u, log := h, configs, false, s, [];
    match d
    case LoadProcess(bin, contextOk) =>
      var ps, n, pool;
      ghost var configId;
      ps, configs', lost, n, pool, configId :=
        LoadBeside(h.ps, configs, b, mpu, slots, bin, contextOk, h.nextId, h.pool, s);
      u := LoadOne(b, s, bin, configId, contextOk);
      ReachedLoad(b, slots, ram, s, bin, configId, contextOk);
      ImagesGrow(b, s, bin, configId, contextOk);
      h' := Holding(ps, n, pool);
    case KernelWork(k, ops) =>
      if k >= |h.ps| { return; }
      var n;
      lost, n, u := WorkAmong(h.ps, configs, b, mpu, k, ops, h.nextId, s, ram);
      LeadsElsewhere(b, s, ram, k, u);
      ImagesKept(s, u, k);
      ReachedLed(b, slots, ram, s, k, u);
      h' := h.(nextId := n);
    case RunProcess(k, turns) =>
      if k >= |h.ps| { return; }
      var reason, n;
      ghost var events;
      reason, lost, n, u, events := RunAmong(h.ps, configs, b, mpu, k, turns, h.nextId, s, ram);
      LeadsElsewhere(b, s, ram, k, u);
      ImagesKept(s, u, k);
      ReachedLed(b, slots, ram, s, k, u);
      h', log := h.(nextId := n), Tagged(k, events);
  }

  // Any decisions in any order, from a kernel with no processes. As long as it is
  // not lost, the objects are the processes of the state, which is one that a run
  // from boot reaches, so all theorems about runs hold of them. Lost or not,
  // every process ever executed under registers that kept it inside the RAM pool
  // and out of every other block.
  method RunKernel(b: Board, mpu: H.Mpu, slots: nat, ram: Location, decisions: seq<Decision>)
    returns (h: Holding, lost: bool, ghost configs: seq<H.CortexMConfig>, ghost s: System.State, ghost log: seq<Entry>)
    requires ValidBoard(b) && mpu.Valid() && b.unit == mpu.minRegionSize && b.numRegions == mpu.numRegions
    requires forall d :: d in decisions ==> ValidDecision(d)
    modifies mpu
    ensures SysInv(b, s, ram) && Reached(b, slots, ram, s)
    ensures (lost <==> !s.Intact()) && (!lost ==> Holds(h, configs, b, mpu, s))
    ensures forall e :: e in log ==> Sound(e.event) && Confined(e, Images(s), ram)
  {
    h, lost, configs, s, log := Holding([], 0, ram), false, [], Boot(slots, ram), [];
    BootReached(b, slots, ram);
    for i := 0 to |decisions|
      invariant !lost && Holds(h, configs, b, mpu, s) && s.slots == slots
      invariant SysInv(b, s, ram) && Reached(b, slots, ram, s) && Recorded(log, Images(s))
      invariant (forall p :: p in h.ps ==> NewParts(p)) && (forall c :: c in configs ==> fresh(c))
    {
      ghost var u, events;
      var h';
      forall o | o in Parts(h.ps)
        ensures fresh(o)
      {
        PartsAre(h.ps, configs, b, mpu, s.recs, o);
      }
      h', configs, lost, u, events := Decide(h, configs, b, mpu, slots, ram, decisions[i], s);
      assert Recorded(log + events, Images(u));
      h, s, log := h', u, log + events;
      if lost { break; }
    }
    forall e | e in log
      ensures Sound(e.event) && Confined(e, Images(s), ram)
    {
      RecordedConfined(b, s, ram, log, e);
    }
  }
}
