// A grant that a capsule has entered, through everything the kernel may do
// before it is left again (kernel/src/process_standard.rs, enter_grant and
// leave_grant; kernel/src/grant.rs).

module HeldGrants {
  import opened Wrappers
  import opened Powers
  import opened Region
  import opened ProcessTypes
  import opened ProcessSpec
  import opened GrantTable
  import opened Syscalls
  import opened GrantRanges
  import opened ProcessRuns
  import opened System

  // Entry g, with its mark, and the kernel-managed memory behind it.
  predicate SameEntry(p: Process, q: Process, g: nat) {
    && g < |p.grants| == |p.memory| == |q.grants| == |q.memory|
    && q.grants[g] == p.grants[g] && q.memory[g] == p.memory[g]
  }

  predicate Held(p: Process, g: nat) { g < |p.grants| && Entered(p.grants[g]) }

  // ------------------------------------------------------ one operation each

  lemma NewGrantHolds(b: Board, p: Process, h: nat, g: nat)
    requires ValidBoard(b) && ProcInv(b, p) && Held(p, g)
    ensures SameEntry(p, NewGrant(b, p, h).1, g)
  {
    NewGrantEffect(b, p, h);
  }

  lemma {:induction false} ReactHolds(b: Board, p: Process, enters: seq<nat>, g: nat)
    requires ValidBoard(b) && ProcInv(b, p) && Held(p, g)
    ensures SameEntry(p, React(b, p, enters), g)
    decreases |enters|
  {
    if enters != [] {
      NewGrantHolds(b, p, enters[0], g);
      NewGrantKeepsAll(b, p, enters[0]);
      ReactHolds(b, NewGrant(b, p, enters[0]).1, enters[1..], g);
    }
  }

  // No system call gets into a grant that is held.
  lemma SwapUpcallHolds(b: Board, p: Process, id: UpcallId, upcall: SavedUpcall, g: nat)
    requires GrantInv(b, p) && Held(p, g)
    ensures SameEntry(p, SwapUpcall(p, id, upcall).1, g)
  {
  }

  lemma SwapAllowHolds(b: Board, p: Process, kind: AllowKind, driverNum: nat, allowNum: nat, buffer: SavedAllow, g: nat)
    requires GrantInv(b, p) && Held(p, g)
    ensures SameEntry(p, SwapAllow(p, kind, driverNum, allowNum, buffer).1, g)
  {
  }

  lemma SubscribeHolds(b: Board, p: Process, op: Op, g: nat)
    requires ValidBoard(b) && ProcInv(b, p) && Held(p, g) && op.SubscribeOp?
    ensures SameEntry(p, Subscribe(b, p, op.present, op.id, op.upcall, op.reaction).1, g)
  {
    SwapUpcallHolds(b, p, op.id, op.upcall, g);
    ReactHolds(b, p, op.reaction.enters, g);
    ReactKeeps(b, p, op.reaction.enters);
    SwapUpcallHolds(b, React(b, p, op.reaction.enters), op.id, op.upcall, g);
  }

  lemma AllowHolds(b: Board, p: Process, op: Op, g: nat)
    requires ValidBoard(b) && ProcInv(b, p) && Held(p, g) && op.AllowOp? && ValidOp(op)
    ensures SameEntry(p, AllowEnd(b, p, op), g)
  {
    var buffer := SavedAllow(op.start, op.size);
    BuiltKept(b, p, op.kind, op.start, op.size);
    var p1 := Build(p, op.kind, op.start, op.size).1;
    SwapAllowHolds(b, p1, op.kind, op.driverNum, op.allowNum, buffer, g);
    ReactHolds(b, p1, op.reaction.enters, g);
    ReactKeeps(b, p1, op.reaction.enters);
    SwapAllowHolds(b, React(b, p1, op.reaction.enters), op.kind, op.driverNum, op.allowNum, buffer, g);
  }

  // Anything but leaving g or ending the process.
  predicate Harmless(op: Op, g: nat) { !IsLifeOp(op) && op != Leave(g) }

  predicate Holds(p: Process, q: Process, g: nat) {
    SameEntry(p, q, g) && (IsRunning(p.state) ==> IsRunning(q.state))
  }

  lemma CallHolds(b: Board, p: Process, op: Op, newId: nat, g: nat)
    requires ValidBoard(b) && ProcInv(b, p) && Held(p, g) && ValidOp(op)
    requires op.SubscribeOp? || op.AllowOp?
    ensures Holds(p, StepProcess(b, p, op, newId), g)
  {
    if op.SubscribeOp? {
      SubscribeHolds(b, p, op, g);
      SubscribeContract(b, p, op.present, op.id, op.upcall, op.reaction);
    } else {
      AllowHolds(b, p, op, g);
      AllowKeeps(b, p, op.kind, op.present, op.driverNum, op.allowNum, op.start, op.size, op.reaction);
    }
  }

  lemma StepHolds(b: Board, p: Process, op: Op, newId: nat, g: nat)
    requires ValidBoard(b) && ProcInv(b, p) && Held(p, g) && ValidOp(op) && Harmless(op, g)
    ensures Holds(p, StepProcess(b, p, op, newId), g)
  {
    if op.SubscribeOp? || op.AllowOp? {
      CallHolds(b, p, op, newId, g);
    } else if op.UseGrant? {
      NewGrantHolds(b, p, op.g, g);
      NewGrantKeepsAll(b, p, op.g);
    }
  }

  // ---------------------------------------------------------------- any run

  predicate HarmlessTo(op: SysOp, k: nat, g: nat) { op.On? && op.k == k ==> Harmless(op.op, g) }

  lemma SysStepHolds(b: Board, s: System.State, ram: Location, op: SysOp, k: nat, g: nat)
    requires ValidBoard(b) && SysInv(b, s, ram) && ValidSysOp(op) && k < |s.recs| && Held(s.recs[k].p, g)
    requires HarmlessTo(op, k, g)
    ensures forall i :: 0 <= i < |s.recs| ==> Sized(b, s.recs[i].p)
    ensures var s' := SysStep(b, s, op);
            k < |s'.recs| && Holds(s.recs[k].p, s'.recs[k].p, g)
  {
    AllSized(b, s, ram);
    SlotAt(b, s, ram, k);
    if op.On? && op.k == k { StepHolds(b, s.recs[k].p, op.op, s.nextId, g); }
  }

  lemma {:induction false} RunHolds(b: Board, s: System.State, ram: Location, ops: seq<SysOp>, k: nat, g: nat)
    requires ValidBoard(b) && SysInv(b, s, ram) && k < |s.recs| && Held(s.recs[k].p, g)
    requires forall op :: op in ops ==> ValidSysOp(op) && HarmlessTo(op, k, g)
    ensures var s' := Run(b, s, ram, ops);
            k < |s'.recs| && Holds(s.recs[k].p, s'.recs[k].p, g)
    decreases |ops|
  {
    AllSized(b, s, ram);
    SlotAt(b, s, ram, k);
    if ops != [] {
      assert ops[0] in ops;
      SysStepHolds(b, s, ram, ops[0], k, g);
      StepInv(b, s, ram, ops[0]);
      RunHolds(b, SysStep(b, s, ops[0]), ram, ops[1..], k, g);
    }
  }

  // After grant g of process k is entered: through any run of operations on any
  // processes that does not leave g and does not end process k, its entry keeps
  // its pointer, mark and driver, and its memory every registration and buffer;
  // a second enter fails; and the leave that ends it restores the exact entry.
  lemma EnterHoldsUntilLeave(b: Board, s: System.State, ram: Location, k: nat, g: nat, ops: seq<SysOp>)
    requires ValidBoard(b) && SysInv(b, s, ram) && s.Intact() && k < |s.recs|
    requires g < |s.recs[k].p.grants| && Allocated(s.recs[k].p.grants[g]) && EnterGrant(s.recs[k].p, g).0.Success?
    requires forall op :: op in ops ==> ValidSysOp(op) && HarmlessTo(op, k, g)
    ensures forall i :: 0 <= i < |s.recs| ==> Sized(b, s.recs[i].p)
    ensures var p := s.recs[k].p;
            var entered := SysStep(b, s, On(k, Enter(g)));
            && SysInv(b, entered, ram)
            && var s' := Run(b, entered, ram, ops);
               && k < |s'.recs|
               && var q := s'.recs[k].p;
                  s'.Intact() ==>
                  && SameEntry(entered.recs[k].p, q, g)
                  && q.grants[g] == p.grants[g].(ptr := p.grants[g].ptr + 1) && q.memory[g] == p.memory[g]
                  && EnterGrant(q, g).0 == Failure(AlreadyInUse)
                  && LeaveGrant(q, g).grants[g] == p.grants[g]
  {
    var enter := On(k, Enter(g));
    AllSized(b, s, ram);
    StepInv(b, s, ram, enter);
    SlotAt(b, s, ram, k);
    var entered := SysStep(b, s, enter);
    var p, e := s.recs[k].p, entered.recs[k].p;
    assert e == EnterGrant(p, g).1;
    TagIsLowBit(p.grants[g].ptr);
    RunHolds(b, entered, ram, ops, k, g);
  }
}
