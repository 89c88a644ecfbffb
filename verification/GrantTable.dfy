// The grant pointer table of a process, the kernel-managed memory behind it, and
// the queue of pending upcalls (kernel/src/process_standard.rs, grant.rs).

module GrantTable {
  import opened Wrappers
  import opened Powers
  import opened MpuPlan
  import opened ProcessTypes
  import opened ProcessSpec
  import M = ProcessMemory
  import L = GrantLayout

  // -------------------------------------------------------------- invariant

  // No two allocated entries carry the same driver number.
  predicate UniqueDrivers(grants: seq<GrantEntry>) {
    forall g, h :: 0 <= g < h < |grants| && Allocated(grants[g]) && Allocated(grants[h]) ==>
      grants[g].driverNum != grants[h].driverNum
  }

  // Grant memory has the shape its declaration asked for.
  predicate Shaped(m: GrantMemory, n: L.Counts) {
    |m.upcalls| == n.upcalls && |m.allowRos| == n.allowRos && |m.allowRws| == n.allowRws
  }

  predicate GrantInv(b: Board, p: Process) {
    && Sized(b, p)
    && UniqueDrivers(p.grants)
    && (forall g :: 0 <= g < |p.grants| && Allocated(p.grants[g]) ==>
          p.grants[g].driverNum == b.grants[g].driverNum && Shaped(p.memory[g], b.grants[g].counts))
    && (!IsRunning(p.state) ==> forall g :: 0 <= g < |p.grants| ==> p.grants[g] == GrantEntry(0, 0))
  }

  const NULL_UPCALL: SavedUpcall := SavedUpcall(0, 0)

  // The upcall currently registered under an identifier; the Null Upcall if its
  // driver has no grant yet.
  function Saved(p: Process, id: UpcallId): SavedUpcall
    requires |p.memory| == |p.grants|
  {
    match LookupGrant(p, id.driverNum)
    case None => NULL_UPCALL
    case Some(g) =>
      if id.subscribeNum < |p.memory[g].upcalls| then p.memory[g].upcalls[id.subscribeNum] else NULL_UPCALL
  }

  // A queued call from a driver names the function and data registered now.
  predicate Current(p: Process, t: Task)
    requires |p.memory| == |p.grants|
  {
    t.Call? && t.call.source.Driver? ==>
      t.call.pc != 0 && Saved(p, t.call.source.id) == SavedUpcall(t.call.argument3, t.call.pc)
  }

  predicate QueueInv(p: Process)
    requires |p.memory| == |p.grants|
  {
    && |p.tasks| <= TASK_CAPACITY
    && (!IsRunning(p.state) ==> p.tasks == [])
    && (forall t :: t in p.tasks ==> Current(p, t))
  }

  // ------------------------------------------------------------------ lookup

  lemma LookupUnique(grants: seq<GrantEntry>, g: nat)
    requires UniqueDrivers(grants) && g < |grants| && Allocated(grants[g])
    ensures FindDriver(grants, grants[g].driverNum, 0) == Some(g)
  {
  }

  lemma LookupSame(grants: seq<GrantEntry>, grants': seq<GrantEntry>, driverNum: nat, i: nat)
    requires |grants| == |grants'| && i <= |grants|
    requires forall g :: 0 <= g < |grants| ==>
               grants[g].driverNum == grants'[g].driverNum && (Allocated(grants[g]) <==> Allocated(grants'[g]))
    ensures FindDriver(grants, driverNum, i) == FindDriver(grants', driverNum, i)
    decreases |grants| - i
  {
    if i < |grants| { LookupSame(grants, grants', driverNum, i + 1); }
  }

  lemma SavedSame(p: Process, q: Process, id: UpcallId)
    requires |p.memory| == |p.grants| && |q.memory| == |q.grants| == |p.grants|
    requires forall g :: 0 <= g < |p.grants| ==>
               && p.grants[g].driverNum == q.grants[g].driverNum
               && (Allocated(p.grants[g]) <==> Allocated(q.grants[g]))
               && (Allocated(p.grants[g]) ==> p.memory[g].upcalls == q.memory[g].upcalls)
    ensures Saved(p, id) == Saved(q, id)
  {
    LookupSame(p.grants, q.grants, id.driverNum, 0);
  }

  // ------------------------------------------------------- enter and leave

  // Leaving right after entering restores the whole process, and the pointer
  // handed out is the allocated one.
  lemma EnterLeave(p: Process, g: nat)
    requires EnterGrant(p, g).0.Success?
    ensures var (r, q) := EnterGrant(p, g);
            && r.value == p.grants[g].ptr
            && LeaveGrant(q, g) == p
            && Entered(q.grants[g]) && EnterGrant(q, g).0 == Failure(AlreadyInUse)
            && (Allocated(p.grants[g]) ==> q.grants[g].driverNum == p.grants[g].driverNum && Allocated(q.grants[g]))
  {
  }

  // Entering turns an unallocated entry into an allocated-looking one; it keeps
  // the allocation status of the table exactly when the entry was allocated.
  lemma EnterKeepsStatusIff(p: Process, g: nat)
    requires IsRunning(p.state) && g < |p.grants| && !Entered(p.grants[g])
    ensures var q := EnterGrant(p, g).1;
            (forall h :: 0 <= h < |p.grants| ==> (Allocated(q.grants[h]) <==> Allocated(p.grants[h])))
            <==> Allocated(p.grants[g])
  {
  }

  lemma EnterKeepsInv(b: Board, p: Process, g: nat)
    requires GrantInv(b, p) && QueueInv(p) && g < |p.grants| && Allocated(p.grants[g])
    ensures GrantInv(b, EnterGrant(p, g).1) && QueueInv(EnterGrant(p, g).1)
    ensures forall id :: Saved(EnterGrant(p, g).1, id) == Saved(p, id)
  {
    var q := EnterGrant(p, g).1;
    SavedSameAll(p, q);
  }

  // The table has no entry that is tagged without being allocated.
  predicate TagsOnAllocated(grants: seq<GrantEntry>) {
    forall g :: 0 <= g < |grants| && Entered(grants[g]) ==> grants[g].ptr >= 2
  }

  lemma LeaveKeepsInv(b: Board, p: Process, g: nat)
    requires GrantInv(b, p) && QueueInv(p) && TagsOnAllocated(p.grants)
    ensures GrantInv(b, LeaveGrant(p, g)) && QueueInv(LeaveGrant(p, g)) && TagsOnAllocated(LeaveGrant(p, g).grants)
    ensures forall id :: Saved(LeaveGrant(p, g), id) == Saved(p, id)
  {
    var q := LeaveGrant(p, g);
    SavedSameAll(p, q);
  }

  lemma SavedSameAll(p: Process, q: Process)
    requires |p.memory| == |p.grants| && |q.memory| == |q.grants| == |p.grants|
    requires forall g :: 0 <= g < |p.grants| ==>
               && p.grants[g].driverNum == q.grants[g].driverNum
               && (Allocated(p.grants[g]) <==> Allocated(q.grants[g]))
               && (Allocated(p.grants[g]) ==> p.memory[g].upcalls == q.memory[g].upcalls)
    ensures forall id :: Saved(p, id) == Saved(q, id)
  {
    forall id
      ensures Saved(p, id) == Saved(q, id)
    {
      SavedSame(p, q, id);
    }
  }

  // --------------------------------------------------------- new allocations

  // allocate_grant: at most one entry and the kernel break change.
  lemma AllocateGrantEffect(p: Process, g: nat, driverNum: nat, size: nat, align: nat)
    requires M.MemInv(p) && size < WORD && IsPow2(align)
    ensures var (r, q) := AllocateGrant(p, g, driverNum, size, align);
            && M.MemInv(q) && !r.Trap?
            && (!r.Success? ==> q == p)
            && (r.Success? ==>
                  && M.Isolated(q) && IsRunning(p.state)
                  && g < |p.grants| && !Allocated(p.grants[g]) && !DriverInUse(p.grants, driverNum)
                  && 0 < q.kernelBreak <= p.kernelBreak && q.kernelBreak % 2 == 0
                  && AllocateInGrantRegion(p, size, align).0 == Done(q.kernelBreak)
                  && q == p.(kernelBreak := q.kernelBreak, mpu := q.mpu,
                             grants := p.grants[g := GrantEntry(driverNum, q.kernelBreak)]))
  {
    M.AllocationKeeps(p, size, align);
    if AllocateInGrantRegion(p, size, align).0.Done? { EvenAddress(p, size, align); }
  }

  lemma InitializeGrantEffect(p: Process, g: nat, n: L.Counts)
    requires IsRunning(p.state) && g < |p.grants| && g < |p.memory| && !Entered(p.grants[g])
    ensures InitializeGrant(p, g, n) == (Success(()), p.(memory := p.memory[g := DefaultMemory(n)]))
  {
    EnterLeave(p, g);
    var e := EnterGrant(p, g).1;
    assert LeaveGrant(e.(memory := e.memory[g := DefaultMemory(n)]), g).grants == LeaveGrant(e, g).grants;
  }

  function DeclaredSize(d: GrantDecl): nat
    requires d.tAlign > 0
  {
    L.GrantSize(d.counts, d.tSize, d.tAlign)
  }

  // The change ProcessGrant::new makes when it allocates.
  ghost predicate FirstUse(b: Board, p: Process, q: Process, g: nat)
    requires Sized(b, p) && M.MemInv(p)
  {
    && IsRunning(p.state)
    && g < |p.grants| && !Allocated(p.grants[g]) && !DriverInUse(p.grants, b.grants[g].driverNum)
    && 0 < q.kernelBreak <= p.kernelBreak && q.kernelBreak % 2 == 0
    && q == p.(kernelBreak := q.kernelBreak, mpu := q.mpu,
               grants := p.grants[g := GrantEntry(b.grants[g].driverNum, q.kernelBreak)],
               memory := p.memory[g := DefaultMemory(b.grants[g].counts)])
    && DeclaredSize(b.grants[g]) < WORD
    && AllocateInGrantRegion(p, DeclaredSize(b.grants[g]), L.GrantAlign(b.grants[g].tAlign)).0 == Done(q.kernelBreak)
  }

  lemma NewGrantEffect(b: Board, p: Process, g: nat)
    requires ValidBoard(b) && M.MemInv(p) && GrantInv(b, p)
    ensures var (r, q) := NewGrant(b, p, g);
            M.MemInv(q) && (q == p || (r.Success? && M.Isolated(q) && FirstUse(b, p, q, g)))
  {
    if GrantIsAllocated(p, g) == Some(false) && DeclaredSize(b.grants[g]) < WORD {
      var d := b.grants[g];
      GrantAlignPow2(d.tAlign);
      AllocateGrantEffect(p, g, d.driverNum, DeclaredSize(d), L.GrantAlign(d.tAlign));
      var (r, a) := AllocateGrant(p, g, d.driverNum, DeclaredSize(d), L.GrantAlign(d.tAlign));
      if r.Success? {
        InitializeGrantEffect(a, g, d.counts);
        MemoryIrrelevant(a, a.memory[g := DefaultMemory(d.counts)]);
      }
    }
  }

  // Exactly what entering a grant for the first time, or again, answers.
  lemma NewGrantOutcome(b: Board, p: Process, g: nat)
    requires ValidBoard(b) && M.MemInv(p) && GrantInv(b, p)
    ensures var (r, q) := NewGrant(b, p, g);
            if !IsRunning(p.state) || g >= |p.grants| then r == Failure(InactiveApp) && q == p
            else if p.grants[g].ptr != 0 then r == Success(()) && q == p
            else
              var d := b.grants[g];
              var bytes := AlignUp(4 + 8 * (d.counts.upcalls + d.counts.allowRos + d.counts.allowRws), d.tAlign) + d.tSize;
              if bytes >= WORD then r.Trap?
              else
                var address := M.GrantAddress(p, bytes, if d.tAlign > 4 then d.tAlign else 4);
                && (r.Success? <==>
                      && (forall h :: 0 <= h < |p.grants| && p.grants[h].ptr != 0 ==>
                            p.grants[h].driverNum != d.driverNum)
                      && p.mpu.Some? && p.appBreak <= address <= p.kernelBreak
                      && M.RoundedBreak(p.mpu.value, p.appBreak) <= address)
                && (!r.Success? ==> r == Failure(OutOfMemory) && q == p)
                && (r.Success? ==> q.grants[g] == GrantEntry(d.driverNum, address) && q.kernelBreak == address)
  {
    if g < |p.grants| { L.GrantSizeIs(b.grants[g].counts, b.grants[g].tSize, b.grants[g].tAlign); }
    if g < |p.grants| && DeclaredSize(b.grants[g]) < WORD {
      var d := b.grants[g];
      GrantAlignPow2(d.tAlign);
      M.AllocationOutcome(p, DeclaredSize(d), L.GrantAlign(d.tAlign));
      NewGrantEffect(b, p, g);
      AllocateGrantEffect(p, g, d.driverNum, DeclaredSize(d), L.GrantAlign(d.tAlign));
      var (r, a) := AllocateGrant(p, g, d.driverNum, DeclaredSize(d), L.GrantAlign(d.tAlign));
      if r.Success? { InitializeGrantEffect(a, g, d.counts); }
    }
  }

  // A custom grant is named by its distance from the end of the block.
  lemma CustomGrantOutcome(p: Process, size: nat, align: nat)
    requires M.MemInv(p) && size < WORD && IsPow2(align)
    ensures var (r, q) := AllocateCustomGrant(p, size, align);
            var address := M.GrantAddress(p, size, align);
            && (r.Success? <==>
                  && IsRunning(p.state) && p.mpu.Some? && p.appBreak <= address <= p.kernelBreak
                  && M.RoundedBreak(p.mpu.value, p.appBreak) <= address)
            && (r.Success? ==> r.value == (p.image.memStart + p.image.memLen - address, address) && q.kernelBreak == address)
            && (!r.Success? ==> r == Failure(()) && q == p)
  {
    M.AllocationOutcome(p, size, align);
    M.AllocationKeeps(p, size, align);
  }

  lemma MemoryIrrelevant(p: Process, memory: seq<GrantMemory>)
    requires M.MemInv(p) && M.Isolated(p)
    ensures M.MemInv(p.(memory := memory)) && M.Isolated(p.(memory := memory))
  {
  }

  lemma GrantAlignPow2(tAlign: nat)
    requires IsPow2(tAlign)
    ensures IsPow2(L.GrantAlign(tAlign)) && L.GrantAlign(tAlign) >= 4
  {
    Pow2Constants();
    assert IsPow2(4) by { assert 4 == Pow2(2); }
  }

  // Allocations are even, so the lowest bit is free for the entered mark.
  lemma EvenAddress(p: Process, size: nat, align: nat)
    requires M.MemInv(p) && size < WORD && IsPow2(align)
    requires AllocateInGrantRegion(p, size, align).0.Done?
    ensures AllocateInGrantRegion(p, size, align).0.value % 2 == 0
  {
    var a := Max(align, 2);
    AlignDownMultiple(WrapSub(p.kernelBreak, size), a);
    Pow2Constants();
    assert IsPow2(2) by { assert 2 == Pow2(1); }
    Pow2DividesByValue(2, a);
    ModTrans(AllocateInGrantRegion(p, size, align).0.value, a, 2);
  }

  lemma FirstUseKeeps(b: Board, p: Process, q: Process, g: nat)
    requires M.MemInv(p) && GrantInv(b, p) && QueueInv(p) && TagsOnAllocated(p.grants) && FirstUse(b, p, q, g)
    ensures GrantInv(b, q) && QueueInv(q) && TagsOnAllocated(q.grants)
    ensures forall id :: Saved(q, id) == Saved(p, id)
  {
    assert Shaped(q.memory[g], b.grants[g].counts);
    assert GrantInv(b, q);
    forall id
      ensures Saved(q, id) == Saved(p, id)
    {
      SavedAfterNew(b, p, q, g, id);
    }
    assert forall t :: t in q.tasks ==> Current(p, t);
  }

  lemma NewGrantKeeps(b: Board, p: Process, g: nat)
    requires ValidBoard(b) && M.MemInv(p) && GrantInv(b, p) && QueueInv(p) && TagsOnAllocated(p.grants)
    ensures var q := NewGrant(b, p, g).1;
            GrantInv(b, q) && QueueInv(q) && TagsOnAllocated(q.grants)
            && forall id :: Saved(q, id) == Saved(p, id)
  {
    NewGrantEffect(b, p, g);
    var q := NewGrant(b, p, g).1;
    if q != p { FirstUseKeeps(b, p, q, g); }
  }

  // A first use adds only Null Upcalls.
  lemma SavedAfterNew(b: Board, p: Process, q: Process, g: nat, id: UpcallId)
    requires GrantInv(b, p) && GrantInv(b, q) && g < |p.grants| && !DriverInUse(p.grants, b.grants[g].driverNum)
    requires q.grants == p.grants[g := q.grants[g]] && Allocated(q.grants[g]) && !Allocated(p.grants[g])
    requires q.memory == p.memory[g := DefaultMemory(b.grants[g].counts)]
    ensures Saved(q, id) == Saved(p, id)
  {
  }

  // ----------------------------------------------------------------- queue

  lemma EnqueueKeeps(p: Process, t: Task)
    requires |p.memory| == |p.grants| && QueueInv(p) && Current(p, t)
    ensures var q := Enqueue(p, t).1; QueueInv(q) && q == p.(tasks := q.tasks)
  {
  }

  lemma FewerTasks(p: Process, tasks: seq<Task>)
    requires |p.memory| == |p.grants| && QueueInv(p)
    requires |tasks| <= |p.tasks| && forall t :: t in tasks ==> t in p.tasks
    ensures QueueInv(p.(tasks := tasks))
  {
  }

  lemma ScheduleKeeps(b: Board, p: Process, g: nat, subscribeNum: nat, r0: nat, r1: nat, r2: nat)
    requires GrantInv(b, p) && QueueInv(p)
    ensures var q := ScheduleUpcall(b, p, g, subscribeNum, r0, r1, r2).1; QueueInv(q) && q == p.(tasks := q.tasks)
  {
  }

  // Scheduling an upcall of an allocated grant succeeds exactly when the driver
  // has that upcall and the queue has room. It then appends one task that
  // answers a wait for it, with the three arguments: a call of the function
  // registered now, or a bare return value if that is the Null Upcall.
  lemma ScheduleContract(b: Board, p: Process, g: nat, subscribeNum: nat, r0: nat, r1: nat, r2: nat)
    requires GrantInv(b, p) && QueueInv(p) && g < |p.grants| && Allocated(p.grants[g])
    ensures var (r, q) := ScheduleUpcall(b, p, g, subscribeNum, r0, r1, r2);
            var id := UpcallId(b.grants[g].driverNum, subscribeNum);
            && (r.Success? <==> subscribeNum < b.grants[g].counts.upcalls && |p.tasks| < TASK_CAPACITY)
            && (r.Failure? ==> q == p && r.error == if subscribeNum >= b.grants[g].counts.upcalls then INVAL else NOMEM)
            && (r.Success? ==>
                  && |q.tasks| == |p.tasks| + 1 && q.tasks[..|p.tasks|] == p.tasks
                  && var t := q.tasks[|p.tasks|];
                     && Wakes(t, id) && Current(q, t) && (t.Call? <==> Saved(p, id).fnPtr != 0)
                     && (t.Call? ==> (t.call.argument0, t.call.argument1, t.call.argument2) == (r0, r1, r2))
                     && (t.ReturnValue? ==> (t.argument0, t.argument1, t.argument2) == (r0, r1, r2)))
  {
  }

  lemma DequeueKeeps(p: Process, id: UpcallId)
    requires |p.memory| == |p.grants| && QueueInv(p)
    ensures QueueInv(Dequeue(p).1) && QueueInv(RemoveUpcall(p, id).1) && QueueInv(RemovePendingUpcalls(p, id))
  {
    if p.tasks != [] { FewerTasks(p, p.tasks[1..]); }
    var k := FirstWaking(p.tasks, id, 0);
    if k.Some? { FewerTasks(p, p.tasks[..k.value] + p.tasks[k.value + 1..]); }
    FewerTasks(p, WithoutUpcall(p.tasks, id));
  }

  // ------------------------------------------------------------ swap upcall

  // grant::subscribe changes at most the one saved upcall, and returns what was
  // there.
  lemma SwapUpcallEffect(b: Board, p: Process, id: UpcallId, upcall: SavedUpcall)
    requires GrantInv(b, p)
    ensures var (r, q) := SwapUpcall(p, id, upcall);
            && GrantInv(b, q) && q == p.(memory := q.memory) && !r.Trap?
            && (!r.Success? ==> q == p)
            && (r.Success? ==>
                  && r.value == Saved(p, id) && Saved(q, id) == upcall
                  && (forall other :: other != id ==> Saved(q, other) == Saved(p, other))
                  && (forall g :: 0 <= g < |p.memory| ==>
                        q.memory[g].allowRos == p.memory[g].allowRos && q.memory[g].allowRws == p.memory[g].allowRws))
  {
    var (e, entered) := EnterKernelManaged(p, id.driverNum);
    if e.Success? {
      var g := e.value;
      EnterLeave(p, g);
      var q := SwapUpcall(p, id, upcall).1;
      assert q.grants == p.grants;
      if id.subscribeNum < |p.memory[g].upcalls| {
        forall other | other != id
          ensures Saved(q, other) == Saved(p, other)
        {
          if other.driverNum != id.driverNum && LookupGrant(p, other.driverNum).Some? {
            assert LookupGrant(p, other.driverNum).value != g;
          }
        }
      }
    }
  }
}
