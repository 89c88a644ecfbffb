// Runs of one process: every operation the kernel performs on it, in any order,
// together with a record of what was handed out along the way.

module GrantRanges {
  import opened Wrappers
  import opened Powers
  import opened MpuPlan
  import opened ProcessTypes
  import opened ProcessSpec
  import opened GrantTable
  import opened Syscalls
  import M = ProcessMemory
  import L = GrantLayout

  // One allocation in the grant region; `wraps` when the request exceeded the
  // kernel break it was subtracted from, `owner` the grant it was made for, if
  // it was not a custom grant and that grant is still allocated.
  datatype Alloc = Alloc(start: nat, size: nat, align: nat, wraps: bool, owner: Option<nat>)

  // The lowest of the kernel's own structures: the process struct.
  function StructStart(p: Process): int { MemEnd(p) - p.image.kernelBytes }

  predicate InRegion(p: Process, a: Alloc) {
    && a.align >= 1 && a.start % a.align == 0
    && (!a.wraps ==> p.kernelBreak <= a.start && a.start + a.size <= StructStart(p))
  }

  predicate Below(a: Alloc, b: Alloc) {
    a.wraps || b.wraps || a.start + a.size <= b.start
  }

  // An owned allocation is where the table says its grant is, and has the size
  // and alignment that grant was declared with.
  predicate OwnerOk(b: Board, p: Process, a: Alloc)
    requires Sized(b, p)
  {
    a.owner.Some? ==>
      var g := a.owner.value;
      && g < |p.grants| && Allocated(p.grants[g]) && a.start == Untagged(p.grants[g].ptr)
      && a.size == DeclaredSize(b.grants[g]) && a.align == L.GrantAlign(b.grants[g].tAlign)
  }

  predicate Owned(allocs: seq<Alloc>, g: nat) {
    exists i :: 0 <= i < |allocs| && allocs[i].owner == Some(g)
  }

  // Every allocated grant owns exactly one allocation; all allocations are
  // apart, in the grant region, and nothing of them is exposed.
  ghost predicate RangeInv(b: Board, p: Process, allocs: seq<Alloc>)
    requires Sized(b, p)
  {
    && p.kernelBreak <= StructStart(p)
    && (forall a :: a in allocs ==> InRegion(p, a) && OwnerOk(b, p, a))
    && (forall i, j :: 0 <= i < j < |allocs| ==>
          Below(allocs[j], allocs[i]) && (allocs[i].owner.Some? ==> allocs[i].owner != allocs[j].owner))
    && (forall g :: 0 <= g < |p.grants| && Allocated(p.grants[g]) ==> Owned(allocs, g))
    && (allocs != [] ==> M.Isolated(p))
  }

  // What one more allocation, for a grant or not, has to satisfy.
  ghost predicate Fits(b: Board, p: Process, q: Process, a: Alloc)
    requires Sized(b, p) && Sized(b, q)
  {
    && q.image == p.image && q.kernelBreak == a.start <= p.kernelBreak && M.Isolated(q)
    && a.align >= 1 && a.start % a.align == 0 && (!a.wraps ==> a.start + a.size <= p.kernelBreak)
    && OwnerOk(b, q, a) && (a.owner.Some? ==> !Allocated(p.grants[a.owner.value]))
    && (forall g :: 0 <= g < |p.grants| && a.owner != Some(g) ==> q.grants[g] == p.grants[g])
  }

  lemma Lowered(b: Board, p: Process, q: Process, allocs: seq<Alloc>, a: Alloc)
    requires Sized(b, p) && Sized(b, q) && RangeInv(b, p, allocs) && Fits(b, p, q, a)
    ensures RangeInv(b, q, allocs + [a])
  {
    var more := allocs + [a];
    forall c | c in more
      ensures InRegion(q, c) && OwnerOk(b, q, c)
    {
      if c in allocs { assert InRegion(p, c) && OwnerOk(b, p, c); }
    }
    forall i, j | 0 <= i < j < |more|
      ensures Below(more[j], more[i]) && (more[i].owner.Some? ==> more[i].owner != more[j].owner)
    {
      assert more[i] == allocs[i] && allocs[i] in allocs && OwnerOk(b, p, allocs[i]);
    }
    forall g | 0 <= g < |q.grants| && Allocated(q.grants[g])
      ensures Owned(more, g)
    {
      if a.owner == Some(g) {
        assert more[|allocs|].owner == Some(g);
      } else {
        var i :| 0 <= i < |allocs| && allocs[i].owner == Some(g);
        assert more[i].owner == Some(g);
      }
    }
  }

  // A process that loses its grants keeps the ranges, which nobody owns then.
  function Disowned(allocs: seq<Alloc>): (d: seq<Alloc>)
    ensures |d| == |allocs| && forall i :: 0 <= i < |d| ==> d[i] == allocs[i].(owner := None)
  {
    seq(|allocs|, i requires 0 <= i < |allocs| => allocs[i].(owner := None))
  }

  lemma DisownedRanges(b: Board, p: Process, q: Process, allocs: seq<Alloc>)
    requires Sized(b, p) && Sized(b, q) && RangeInv(b, p, allocs)
    requires q.image == p.image && q.kernelBreak == p.kernelBreak && (M.Isolated(p) ==> M.Isolated(q))
    requires forall g :: 0 <= g < |q.grants| ==> !Allocated(q.grants[g])
    ensures RangeInv(b, q, Disowned(allocs))
  {
    forall a | a in Disowned(allocs)
      ensures InRegion(q, a) && OwnerOk(b, q, a)
    {
      var i :| 0 <= i < |allocs| && a == allocs[i].(owner := None);
      assert allocs[i] in allocs;
    }
  }

  // The allocation made by a first use of grant g that took p to q, if any.
  function FirstAlloc(b: Board, p: Process, q: Process, g: nat): seq<Alloc>
    requires Sized(b, p)
  {
    if q == p || g >= |b.grants| then []
    else
      var d := b.grants[g];
      [Alloc(q.kernelBreak, DeclaredSize(d), L.GrantAlign(d.tAlign), DeclaredSize(d) > p.kernelBreak, Some(g))]
  }

  // The allocations capsules cause while a system call is handled.
  function AllocsOf(b: Board, p: Process, enters: seq<nat>): seq<Alloc>
    requires Sized(b, p)
    decreases |enters|
  {
    if enters == [] then []
    else
      NewGrantSized(b, p, enters[0]);
      var q := NewGrant(b, p, enters[0]).1;
      FirstAlloc(b, p, q, enters[0]) + AllocsOf(b, q, enters[1..])
  }

  lemma AlignedAlloc(p: Process, size: nat, align: nat)
    requires M.MemInv(p) && size < WORD && IsPow2(align) && align >= 2
    requires AllocateInGrantRegion(p, size, align).0.Done?
    ensures var ptr := AllocateInGrantRegion(p, size, align).0.value;
            ptr % align == 0 && (size <= p.kernelBreak ==> ptr + size <= p.kernelBreak)
  {
    AlignDownMultiple(WrapSub(p.kernelBreak, size), align);
  }

  lemma FirstUseRanges(b: Board, p: Process, q: Process, g: nat, allocs: seq<Alloc>)
    requires ValidBoard(b) && ProcInv(b, p) && GrantInv(b, q) && FirstUse(b, p, q, g) && RangeInv(b, p, allocs)
    requires M.Isolated(q)
    ensures q != p && RangeInv(b, q, allocs + FirstAlloc(b, p, q, g))
  {
    var d := b.grants[g];
    GrantAlignPow2(d.tAlign);
    AlignedAlloc(p, DeclaredSize(d), L.GrantAlign(d.tAlign));
    TagIsLowBit(q.kernelBreak);
    Lowered(b, p, q, allocs, FirstAlloc(b, p, q, g)[0]);
  }

  lemma TagIsLowBit(ptr: nat)
    requires ptr % 2 == 0
    ensures Untagged(ptr + 1) == ptr && Untagged(ptr) == ptr
  {
  }

  lemma NewGrantRanges(b: Board, p: Process, g: nat, allocs: seq<Alloc>)
    requires ValidBoard(b) && ProcInv(b, p) && RangeInv(b, p, allocs)
    ensures var q := NewGrant(b, p, g).1;
            ProcInv(b, q) && RangeInv(b, q, allocs + FirstAlloc(b, p, q, g))
  {
    NewGrantKeepsAll(b, p, g);
    NewGrantEffect(b, p, g);
    StepRanges(b, p, NewGrant(b, p, g).1, g, allocs);
  }

  lemma StepRanges(b: Board, p: Process, q: Process, g: nat, allocs: seq<Alloc>)
    requires ValidBoard(b) && ProcInv(b, p) && GrantInv(b, q) && RangeInv(b, p, allocs)
    requires q == p || (FirstUse(b, p, q, g) && M.Isolated(q))
    ensures RangeInv(b, q, allocs + FirstAlloc(b, p, q, g))
  {
    if q == p {
      assert allocs + FirstAlloc(b, p, q, g) == allocs;
    } else {
      FirstUseRanges(b, p, q, g, allocs);
    }
  }

  lemma {:induction false} ReactRanges(b: Board, p: Process, enters: seq<nat>, allocs: seq<Alloc>)
    requires ValidBoard(b) && ProcInv(b, p) && RangeInv(b, p, allocs)
    ensures RangeInv(b, React(b, p, enters), allocs + AllocsOf(b, p, enters))
    decreases |enters|
  {
    if enters == [] {
      assert allocs + AllocsOf(b, p, enters) == allocs;
    } else {
      var g := enters[0];
      NewGrantRanges(b, p, g, allocs);
      var q := NewGrant(b, p, g).1;
      ReactRanges(b, q, enters[1..], allocs + FirstAlloc(b, p, q, g));
      SeqAssoc(allocs, FirstAlloc(b, p, q, g), AllocsOf(b, q, enters[1..]));
    }
  }

  lemma SeqAssoc<X>(r: seq<X>, s: seq<X>, t: seq<X>)
    ensures r + (s + t) == r + s + t
  {
  }

  // Only the kernel break and the grant pointers matter.
  lemma RangesSame(b: Board, p: Process, q: Process, allocs: seq<Alloc>)
    requires Sized(b, p) && Sized(b, q) && RangeInv(b, p, allocs)
    requires q.image == p.image && q.kernelBreak == p.kernelBreak && (M.Isolated(p) ==> M.Isolated(q))
    requires forall g :: 0 <= g < |q.grants| ==>
               && (Allocated(q.grants[g]) <==> Allocated(p.grants[g]))
               && Untagged(q.grants[g].ptr) == Untagged(p.grants[g].ptr)
    ensures RangeInv(b, q, allocs)
  {
    forall a | a in allocs
      ensures InRegion(q, a) && OwnerOk(b, q, a)
    {
      assert InRegion(p, a) && OwnerOk(b, p, a);
    }
  }

  // Exposure and isolation depend on the table and the breaks alone.
  predicate SameReach(p: Process, q: Process) {
    q.image == p.image && q.mpu == p.mpu && q.appBreak == p.appBreak && q.kernelBreak == p.kernelBreak
  }

  lemma ReachKept(p: Process, q: Process)
    requires SameReach(p, q)
    ensures M.Isolated(p) <==> M.Isolated(q)
  {
  }
}

module ProcessRuns {
  import opened Wrappers
  import opened Powers
  import opened MpuPlan
  import opened ProcessTypes
  import opened ProcessSpec
  import opened GrantTable
  import opened Syscalls
  import opened GrantRanges
  import M = ProcessMemory
  import L = GrantLayout
  import T = MpuTable

  // Everything the kernel does to a process after creating it. `contextOk` is
  // the architecture's answer when a process is re-initialized.
  datatype Op =
    | BrkOp(newBreak: nat)
    | SbrkOp(increment: int)
    | BuildOp(kind: AllowKind, start: nat, size: nat)
    | UseGrant(g: nat)
    | CustomGrant(size: nat, align: nat)
    | Enter(g: nat)
    | Leave(g: nat)
    | Schedule(g: nat, subscribeNum: nat, r0: nat, r1: nat, r2: nat)
    | EnqueueIpc(sender: ProcessId, toService: bool)
    | DequeueOp
    | RemoveUpcallOp(id: UpcallId)
    | SubscribeOp(present: bool, id: UpcallId, upcall: SavedUpcall, reaction: Reaction)
    | AllowOp(kind: AllowKind, present: bool, driverNum: nat, allowNum: nat, start: nat, size: nat, reaction: Reaction)
    | SetupOp
    | SetRunning
    | YieldWait
    | YieldWaitFor(id: UpcallId)
    | StopOp
    | ResumeOp
    | TerminateOp(code: Option<nat>)
    | RestartOp(code: Option<nat>, contextOk: bool)
    | StartOp(contextOk: bool)
    | FaultOp(action: FaultAction, contextOk: bool)

  // Machine words are below 2^32 and alignments are powers of two.
  ghost predicate ValidOp(op: Op) {
    match op
    case BuildOp(_, start, size) => start < WORD && size < WORD
    case AllowOp(_, _, _, _, start, size, _) => start < WORD && size < WORD
    case CustomGrant(size, align) => size < WORD && IsPow2(align) && align < WORD
    case _ => true
  }

  datatype Handed = Handed(buffer: Buffer, writable: bool)

  // A successful subscription, and the app break at that moment.
  datatype Subscription = Subscription(upcall: SavedUpcall, appBreak: nat)

  // A process, the buffers ever built for this slot, the grant allocations of
  // this incarnation, and its last successful subscription per identifier.
  datatype Record = Record(p: Process, handed: seq<Handed>, allocs: seq<Alloc>, subs: map<UpcallId, Subscription>)

  function StepProcess(b: Board, p: Process, op: Op, newId: nat): Process
    requires ValidBoard(b) && Sized(b, p) && ValidOp(op)
  {
    match op
    case BrkOp(newBreak) => Brk(p, newBreak).1
    case SbrkOp(increment) => Sbrk(p, increment).1
    case BuildOp(kind, start, size) => Build(p, kind, start, size).1
    case UseGrant(g) => NewGrant(b, p, g).1
    case CustomGrant(size, align) => AllocateCustomGrant(p, size, align).1
    // Callers enter a grant only after checking that it is allocated.
    case Enter(g) => if g < |p.grants| && Allocated(p.grants[g]) then EnterGrant(p, g).1 else p
    case Leave(g) => LeaveGrant(p, g)
    case Schedule(g, subscribeNum, r0, r1, r2) => ScheduleUpcall(b, p, g, subscribeNum, r0, r1, r2).1
    case EnqueueIpc(sender, toService) => Enqueue(p, Ipc(sender, toService)).1
    case DequeueOp => Dequeue(p).1
    case RemoveUpcallOp(id) => RemoveUpcall(p, id).1
    case SubscribeOp(present, id, upcall, reaction) => Subscribe(b, p, present, id, upcall, reaction).1
    case AllowOp(kind, present, d, n, start, size, reaction) => Allow(b, p, kind, present, d, n, start, size, reaction).1
    case SetupOp => SetupMpu(p)
    case SetRunning => p.(state := Running)
    case YieldWait => SetYielded(p)
    case YieldWaitFor(id) => SetYieldedFor(p, id)
    case StopOp => Stop(p)
    case ResumeOp => Resume(p)
    case TerminateOp(code) => Terminate(p, code)
    case RestartOp(code, contextOk) => TryRestart(b, p, code, newId, contextOk)
    case StartOp(contextOk) => Start(b, p, newId, contextOk)
    case FaultOp(action, contextOk) =>
      var q := SetFault(b, p, action, newId, contextOk);
      if q.Some? then q.value else p
  }

  // The kernel stops: an explicit panic, or arithmetic that leaves the 32-bit
  // range.
  predicate Traps(b: Board, p: Process, op: Op, newId: nat)
    requires ValidBoard(b) && Sized(b, p) && ValidOp(op)
  {
    match op
    case BrkOp(newBreak) => Brk(p, newBreak).0.Trap?
    case SbrkOp(increment) => Sbrk(p, increment).0.Trap?
    case UseGrant(g) => NewGrant(b, p, g).0.Trap?
    case CustomGrant(size, align) => AllocateCustomGrant(p, size, align).0.Trap?
    case SubscribeOp(present, id, upcall, reaction) =>
      SubscribeReacts(p, present, id, upcall) && ReactTraps(b, p, reaction.enters)
    case AllowOp(kind, present, d, n, start, size, reaction) =>
      AllowReacts(p, kind, present, d, n, start, size) && ReactTraps(b, Build(p, kind, start, size).1, reaction.enters)
    case RestartOp(code, contextOk) => RestartTraps(b, p, code, newId, contextOk)
    case StartOp(contextOk) => StartTraps(b, p, newId, contextOk)
    case FaultOp(action, contextOk) => FaultTraps(b, p, action, newId, contextOk)
    case _ => false
  }

  function NewHanded(p: Process, op: Op): seq<Handed> {
    match op
    case BuildOp(kind, start, size) =>
      var r := Build(p, kind, start, size).0;
      if r.Success? then [Handed(r.value, kind == RwAllow)] else []
    case AllowOp(kind, present, _, _, start, size, _) =>
      var r := Build(p, kind, start, size).0;
      if present && r.Success? then [Handed(r.value, kind == RwAllow)] else []
    case _ => []
  }

  // Allocations made while the system call asks the capsule for its grant.
  function ReactionAllocs(b: Board, p: Process, enters: seq<nat>, ran: bool): seq<Alloc>
    requires Sized(b, p)
  {
    if ran then AllocsOf(b, p, enters) else []
  }

  function NewAllocs(b: Board, p: Process, op: Op): seq<Alloc>
    requires ValidBoard(b) && Sized(b, p) && ValidOp(op)
  {
    match op
    case UseGrant(g) => FirstAlloc(b, p, NewGrant(b, p, g).1, g)
    case CustomGrant(size, align) =>
      var r := AllocateCustomGrant(p, size, align).0;
      if r.Success? then [Alloc(r.value.1, size, Max(align, 2), size > p.kernelBreak, None)] else []
    case SubscribeOp(present, id, upcall, reaction) =>
      ReactionAllocs(b, p, reaction.enters, SubscribeReacts(p, present, id, upcall))
    case AllowOp(kind, present, d, n, start, size, reaction) =>
      ReactionAllocs(b, Build(p, kind, start, size).1, reaction.enters, AllowReacts(p, kind, present, d, n, start, size))
    case _ => []
  }

  function NewSubs(b: Board, p: Process, op: Op, subs: map<UpcallId, Subscription>): map<UpcallId, Subscription>
    requires Sized(b, p)
  {
    match op
    case SubscribeOp(present, id, upcall, reaction) =>
      if Subscribe(b, p, present, id, upcall, reaction).0.SubscribeSuccess?
      then subs[id := Subscription(upcall, p.appBreak)] else subs
    case _ => subs
  }

  function AllocsAfter(allocs: seq<Alloc>, reborn: bool, q: Process): seq<Alloc> {
    if reborn then [] else if IsRunning(q.state) then allocs else Disowned(allocs)
  }

  // A new identifier starts a new incarnation; an inactive process has none.
  function Step(b: Board, r: Record, op: Op, newId: nat): Record
    requires ValidBoard(b) && Sized(b, r.p) && ValidOp(op)
  {
    var q := StepProcess(b, r.p, op, newId);
    var reborn := q.pid != r.p.pid;
    Record(q, r.handed + NewHanded(r.p, op),
           AllocsAfter(r.allocs + NewAllocs(b, r.p, op), reborn, q),
           if reborn || !IsRunning(q.state) then map[] else NewSubs(b, r.p, op, r.subs))
  }

  // -------------------------------------------------------------- invariant

  predicate InsideNow(p: Process, h: Handed) {
    h.buffer.len > 0 ==>
      || (p.image.memStart <= h.buffer.ptr && h.buffer.ptr + h.buffer.len <= p.highWater)
      || (!h.writable && p.image.flashStart + p.image.protectedSize <= h.buffer.ptr
          && h.buffer.ptr + h.buffer.len <= FlashEnd(p))
  }

  predicate HandedInv(p: Process, handed: seq<Handed>, nextId: nat) {
    forall h :: h in handed ==>
      && h.buffer.pid.identifier < nextId && h.buffer.pid.index == p.pid.index
      && (h.buffer.pid == p.pid ==> InsideNow(p, h))
  }

  function Registered(subs: map<UpcallId, Subscription>, id: UpcallId): SavedUpcall {
    if id in subs then subs[id].upcall else NULL_UPCALL
  }

  ghost predicate SubInv(p: Process, subs: map<UpcallId, Subscription>)
    requires |p.memory| == |p.grants|
  {
    && (forall id :: Saved(p, id) == Registered(subs, id))
    && (forall id :: id in subs ==> SubscribedOk(p, subs[id]))
  }

  // The function registered was null or the process's own when it was subscribed.
  predicate SubscribedOk(p: Process, s: Subscription) {
    && s.appBreak <= MemEnd(p)
    && (s.upcall.fnPtr == 0 || PointerInside(p.image, s.appBreak, s.upcall.fnPtr))
  }

  ghost predicate RecInv(b: Board, r: Record, nextId: nat) {
    && ProcInv(b, r.p)
    && r.p.pid.identifier < nextId
    && HandedInv(r.p, r.handed, nextId)
    && RangeInv(b, r.p, r.allocs)
    && SubInv(r.p, r.subs)
  }

  // ------------------------------------------ what each family of steps keeps

  // Same identity, same block, nothing given back: handed buffers stay inside.
  predicate SameLife(p: Process, q: Process) {
    q.pid == p.pid && q.image == p.image && p.highWater <= q.highWater
  }

  // Steps that leave the grant table and the queue alone.
  lemma TablesUntouched(b: Board, p: Process, q: Process)
    requires ProcInv(b, p) && M.Inv(q) && q.kernelBreak < WORD
    requires q.image == p.image && q.grants == p.grants && q.memory == p.memory && q.tasks == p.tasks
    requires p.highWater <= q.highWater && (IsRunning(p.state) ==> IsRunning(q.state))
    ensures ProcInv(b, q) && forall id :: Saved(q, id) == Saved(p, id)
  {
  }

  // Steps that change only the queue.
  lemma OnlyTasks(b: Board, p: Process, q: Process)
    requires ProcInv(b, p) && q == p.(tasks := q.tasks) && QueueInv(q)
    ensures ProcInv(b, q) && forall id :: Saved(q, id) == Saved(p, id)
  {
  }

  // Steps that change only the tags of grant pointers.
  lemma OnlyTags(b: Board, p: Process, q: Process)
    requires ProcInv(b, p) && q == p.(grants := q.grants) && GrantInv(b, q) && QueueInv(q) && TagsOnAllocated(q.grants)
    requires forall g :: 0 <= g < |q.grants| && Allocated(q.grants[g]) ==> Allocated(p.grants[g])
    ensures ProcInv(b, q)
  {
  }

  lemma BrkStep(b: Board, p: Process, q: Process, newBreak: nat)
    requires ProcInv(b, p) && q == Brk(p, newBreak).1
    ensures ProcInv(b, q) && SameLife(p, q) && q == p.(appBreak := q.appBreak, mpu := q.mpu)
    ensures M.Isolated(p) ==> M.Isolated(q)
    ensures forall id :: Saved(q, id) == Saved(p, id)
  {
    M.BrkKeeps(p, newBreak);
    TablesUntouched(b, p, q);
  }

  lemma CustomStep(b: Board, p: Process, size: nat, align: nat, allocs: seq<Alloc>)
    requires ValidBoard(b) && ProcInv(b, p) && size < WORD && IsPow2(align) && align < WORD && RangeInv(b, p, allocs)
    ensures var q := AllocateCustomGrant(p, size, align).1;
            && ProcInv(b, q) && SameLife(p, q)
            && (forall id :: Saved(q, id) == Saved(p, id))
            && RangeInv(b, q, allocs + NewAllocs(b, p, CustomGrant(size, align)))
  {
    var (r, q) := AllocateCustomGrant(p, size, align);
    M.AllocationKeeps(p, size, align);
    TablesUntouched(b, p, q);
    if r.Success? {
      EvenAlign(p, size, align);
      Lowered(b, p, q, allocs, Alloc(r.value.1, size, Max(align, 2), size > p.kernelBreak, None));
    } else {
      assert allocs + NewAllocs(b, p, CustomGrant(size, align)) == allocs;
    }
  }

  lemma EvenAlign(p: Process, size: nat, align: nat)
    requires M.MemInv(p) && size < WORD && align >= 1
    requires AllocateInGrantRegion(p, size, align).0.Done?
    ensures var ptr := AllocateInGrantRegion(p, size, align).0.value;
            ptr % Max(align, 2) == 0 && (size <= p.kernelBreak ==> ptr + size <= p.kernelBreak)
  {
    AlignDownMultiple(WrapSub(p.kernelBreak, size), Max(align, 2));
  }

  lemma EnterStep(b: Board, p: Process, g: nat, allocs: seq<Alloc>)
    requires ProcInv(b, p) && RangeInv(b, p, allocs) && g < |p.grants| && Allocated(p.grants[g])
    ensures var q := EnterGrant(p, g).1;
            && ProcInv(b, q) && SameLife(p, q) && RangeInv(b, q, allocs)
            && forall id :: Saved(q, id) == Saved(p, id)
  {
    EnterKeepsInv(b, p, g);
    OnlyTags(b, p, EnterGrant(p, g).1);
    if p.grants[g].ptr % 2 == 0 { TagIsLowBit(p.grants[g].ptr); }
    ReachKept(p, EnterGrant(p, g).1);
    RangesSame(b, p, EnterGrant(p, g).1, allocs);
  }

  lemma LeaveStep(b: Board, p: Process, g: nat, allocs: seq<Alloc>)
    requires ProcInv(b, p) && RangeInv(b, p, allocs)
    ensures var q := LeaveGrant(p, g);
            && ProcInv(b, q) && SameLife(p, q) && RangeInv(b, q, allocs)
            && forall id :: Saved(q, id) == Saved(p, id)
  {
    LeaveKeepsInv(b, p, g);
    OnlyTags(b, p, LeaveGrant(p, g));
    ReachKept(p, LeaveGrant(p, g));
    RangesSame(b, p, LeaveGrant(p, g), allocs);
  }

  lemma StateStep(b: Board, p: Process, q: Process)
    requires ProcInv(b, p) && q == p.(state := q.state) && (IsRunning(p.state) ==> IsRunning(q.state))
    ensures ProcInv(b, q) && SameLife(p, q) && forall id :: Saved(q, id) == Saved(p, id)
  {
  }

  // ---------------------------------------------------------------- life cycle

  // An inactive process has nothing queued and nothing allocated.
  predicate Cleared(p: Process) {
    p.tasks == [] && forall g :: 0 <= g < |p.grants| ==> p.grants[g] == GrantEntry(0, 0)
  }

  lemma ClearedInv(b: Board, p: Process)
    requires M.Inv(p) && Sized(b, p) && Cleared(p)
    ensures ProcInv(b, p)
  {
  }

  lemma TerminateStep(b: Board, p: Process, code: Option<nat>)
    requires ProcInv(b, p)
    ensures var q := Terminate(p, code);
            && ProcInv(b, q) && SameLife(p, q) && Cleared(q) && !IsRunning(q.state) && SameReach(p, q)
            && (p.state != Terminated ==> q.state == Terminated)
  {
  }

  // What a step of the life cycle leaves behind when it re-initializes.
  ghost predicate Reborn(b: Board, p: Process, q: Process, newId: nat) {
    && ProcInv(b, q) && q.image == p.image && q.pid == ProcessId(newId, p.pid.index)
    && (forall g :: 0 <= g < |q.grants| ==> q.grants[g] == GrantEntry(0, 0))
    && (IsRunning(q.state) ==> q.state == Yielded && q.tasks == [InitTask(q)] && M.FreshBreaks(q))
    && (!IsRunning(q.state) ==> q.tasks == [])
    && (q.kernelBreak == p.kernelBreak || M.FreshBreaks(q))
  }

  lemma ResetStep(b: Board, p: Process, newId: nat, contextOk: bool)
    requires ValidBoard(b) && ProcInv(b, p) && p.state == Terminated
    ensures var q := AfterReset(Reset(b, p, newId, contextOk));
            q == p || Reborn(b, p, q, newId)
  {
    M.ResetKeeps(b, p, newId, contextOk);
    var (r, s) := Reset(b, p, newId, contextOk);
    var q := AfterReset((r, s));
    M.OnlyBreaksMatter(s, q);
    if r.Success? {
      RebornQueue(b, q);
    } else {
      ClearedInv(b, q);
    }
  }

  lemma RebornQueue(b: Board, q: Process)
    requires M.Inv(q) && |q.memory| == |q.grants| == |b.grants| && q.kernelBreak < WORD
    requires forall g :: 0 <= g < |b.grants| ==> b.grants[g].tAlign > 0
    requires q.tasks == [InitTask(q)] && IsRunning(q.state)
    requires forall g :: 0 <= g < |q.grants| ==> q.grants[g] == GrantEntry(0, 0)
    ensures ProcInv(b, q)
  {
  }

  // Any of terminate, restart, start and fault: the process is unchanged, or
  // cleared and inactive, or re-initialized under the new identifier.
  ghost predicate LifeOutcome(b: Board, p: Process, q: Process, newId: nat) {
    || q == p
    || (ProcInv(b, q) && SameLife(p, q) && Cleared(q) && !IsRunning(q.state) && SameReach(p, q))
    || Reborn(b, p, q, newId)
  }

  lemma RestartStep(b: Board, p: Process, code: Option<nat>, newId: nat, contextOk: bool)
    requires ValidBoard(b) && ProcInv(b, p)
    ensures LifeOutcome(b, p, TryRestart(b, p, code, newId, contextOk), newId)
  {
    if p.state != Terminated {
      TerminateStep(b, p, code);
      ResetStep(b, Terminate(p, code), newId, contextOk);
    }
  }

  lemma FaultStep(b: Board, p: Process, action: FaultAction, newId: nat, contextOk: bool)
    requires ValidBoard(b) && ProcInv(b, p)
    ensures var q := SetFault(b, p, action, newId, contextOk);
            q.Some? ==> LifeOutcome(b, p, q.value, newId) && (action == StopAction ==> q.value.state == Faulted)
  {
    if action == RestartAction {
      RestartStep(b, p, None, newId, contextOk);
    } else if action == StopAction {
      TerminateStep(b, p, None);
      var t := Terminate(p, None);
      M.OnlyBreaksMatter(t, t.(state := Faulted));
      ClearedInv(b, t.(state := Faulted));
    }
  }

  lemma LifeStep(b: Board, p: Process, op: Op, newId: nat)
    requires ValidBoard(b) && ProcInv(b, p)
    requires op.TerminateOp? || op.RestartOp? || op.StartOp? || op.FaultOp?
    ensures LifeOutcome(b, p, StepProcess(b, p, op, newId), newId)
  {
    match op
    case TerminateOp(code) => TerminateStep(b, p, code);
    case RestartOp(code, contextOk) => RestartStep(b, p, code, newId, contextOk);
    case StartOp(contextOk) => if p.state == Terminated { ResetStep(b, p, newId, contextOk); }
    case FaultOp(action, contextOk) => FaultStep(b, p, action, newId, contextOk);
  }

  lemma OutcomeRecord(b: Board, r: Record, q: Process, newId: nat)
    requires RecInv(b, r, newId) && LifeOutcome(b, r.p, q, newId)
    ensures var reborn := q.pid != r.p.pid;
            RecInv(b, Record(q, r.handed, AllocsAfter(r.allocs, reborn, q),
                             if reborn || !IsRunning(q.state) then map[] else r.subs),
                   if reborn then newId + 1 else newId)
  {
    if q.pid == r.p.pid {
      ReachKept(r.p, q);
      if !IsRunning(q.state) { DisownedRanges(b, r.p, q, r.allocs); }
    }
  }

  lemma RebornRanges(b: Board, q: Process)
    requires ProcInv(b, q) && (forall g :: 0 <= g < |q.grants| ==> q.grants[g] == GrantEntry(0, 0))
    requires q.kernelBreak <= StructStart(q)
    ensures RangeInv(b, q, [])
  {
  }

  // ------------------------------------------------------ system call steps

  // The process whose break, table and grant pointers a subscribe ends with.
  function SubscribeBase(b: Board, p: Process, op: Op): Process
    requires op.SubscribeOp? && Sized(b, p)
  {
    if SubscribeReacts(p, op.present, op.id, op.upcall) then React(b, p, op.reaction.enters) else p
  }

  predicate SameGround(p: Process, q: Process) {
    q.grants == p.grants && SameReach(p, q)
  }

  lemma SubscribeGround(b: Board, p: Process, op: Op)
    requires ValidBoard(b) && ProcInv(b, p) && op.SubscribeOp?
    ensures SameGround(SubscribeBase(b, p, op), Subscribe(b, p, op.present, op.id, op.upcall, op.reaction).1)
  {
    SwapUpcallEffect(b, p, op.id, op.upcall);
    if SubscribeReacts(p, op.present, op.id, op.upcall) {
      ReactKeeps(b, p, op.reaction.enters);
      SwapUpcallEffect(b, React(b, p, op.reaction.enters), op.id, op.upcall);
    }
  }

  lemma SubscribeRanges(b: Board, p: Process, q: Process, op: Op, allocs: seq<Alloc>)
    requires ValidBoard(b) && ProcInv(b, p) && RangeInv(b, p, allocs) && op.SubscribeOp?
    requires ProcInv(b, q) && SameGround(SubscribeBase(b, p, op), q)
    ensures RangeInv(b, q, allocs + NewAllocs(b, p, op))
  {
    var base := SubscribeBase(b, p, op);
    if SubscribeReacts(p, op.present, op.id, op.upcall) {
      ReactKeeps(b, p, op.reaction.enters);
      ReactRanges(b, p, op.reaction.enters, allocs);
    } else {
      assert allocs + NewAllocs(b, p, op) == allocs;
    }
    ReachKept(base, q);
    RangesSame(b, base, q, allocs + NewAllocs(b, p, op));
  }

  lemma SubscribeStep(b: Board, p: Process, op: Op, allocs: seq<Alloc>, subs: map<UpcallId, Subscription>)
    requires ValidBoard(b) && ProcInv(b, p) && RangeInv(b, p, allocs) && SubInv(p, subs) && op.SubscribeOp?
    ensures var q := Subscribe(b, p, op.present, op.id, op.upcall, op.reaction).1;
            && ProcInv(b, q) && SameLife(p, q)
            && RangeInv(b, q, allocs + NewAllocs(b, p, op)) && SubInv(q, NewSubs(b, p, op, subs))
  {
    SubscribeContract(b, p, op.present, op.id, op.upcall, op.reaction);
    if Subscribe(b, p, op.present, op.id, op.upcall, op.reaction).0.SubscribeSuccess? && op.upcall.fnPtr != 0 {
      SubscribedInside(b, p, op.present, op.id, op.upcall, op.reaction);
    }
    SubscribeGround(b, p, op);
    SubscribeRanges(b, p, Subscribe(b, p, op.present, op.id, op.upcall, op.reaction).1, op, allocs);
  }

  // Up to the swap of one entry in grant memory, an allow ends in this process.
  function AllowBase(b: Board, p: Process, op: Op): Process
    requires op.AllowOp? && Sized(b, p)
  {
    var p1 := Build(p, op.kind, op.start, op.size).1;
    if !op.present then p
    else if AllowReacts(p, op.kind, op.present, op.driverNum, op.allowNum, op.start, op.size)
    then React(b, p1, op.reaction.enters)
    else p1
  }

  function AllowEnd(b: Board, p: Process, op: Op): Process
    requires op.AllowOp? && Sized(b, p)
  {
    Allow(b, p, op.kind, op.present, op.driverNum, op.allowNum, op.start, op.size, op.reaction).1
  }

  lemma AllowShape(b: Board, p: Process, op: Op)
    requires ValidBoard(b) && ProcInv(b, p) && op.AllowOp? && ValidOp(op)
    ensures var q := AllowEnd(b, p, op); q == AllowBase(b, p, op).(memory := q.memory)
  {
    BuiltKept(b, p, op.kind, op.start, op.size);
    var p1 := Build(p, op.kind, op.start, op.size).1;
    SwapAllowEffect(b, p1, op.kind, op.driverNum, op.allowNum, SavedAllow(op.start, op.size));
    if AllowReacts(p, op.kind, op.present, op.driverNum, op.allowNum, op.start, op.size) {
      ReactKeeps(b, p1, op.reaction.enters);
      SwapAllowEffect(b, React(b, p1, op.reaction.enters), op.kind, op.driverNum, op.allowNum,
                      SavedAllow(op.start, op.size));
    }
  }

  // After building a buffer (p1), a reaction may allocate, and the swap leaves
  // the table alone.
  lemma AllowRanges(b: Board, p: Process, p1: Process, q: Process, enters: seq<nat>, ran: bool, allocs: seq<Alloc>)
    requires ValidBoard(b) && ProcInv(b, p) && RangeInv(b, p, allocs) && Kept(b, p, p1) && Kept(b, p, q)
    requires SameGround(p, p1)
    requires SameGround(if ran then React(b, p1, enters) else p, q)
    ensures RangeInv(b, q, allocs + ReactionAllocs(b, p1, enters, ran))
  {
    ReachKept(p, p1);
    if ran {
      RangesSame(b, p, p1, allocs);
      ReactKeeps(b, p1, enters);
      ReactRanges(b, p1, enters, allocs);
      ReachKept(React(b, p1, enters), q);
      RangesSame(b, React(b, p1, enters), q, allocs + AllocsOf(b, p1, enters));
    } else {
      assert allocs + ReactionAllocs(b, p1, enters, ran) == allocs;
      ReachKept(p, q);
      RangesSame(b, p, q, allocs);
    }
  }

  lemma AllowStep(b: Board, p: Process, op: Op, allocs: seq<Alloc>)
    requires ValidBoard(b) && ProcInv(b, p) && RangeInv(b, p, allocs) && op.AllowOp? && ValidOp(op)
    ensures var q := AllowEnd(b, p, op);
            Kept(b, p, q) && RangeInv(b, q, allocs + NewAllocs(b, p, op))
  {
    AllowKeeps(b, p, op.kind, op.present, op.driverNum, op.allowNum, op.start, op.size, op.reaction);
    AllowShape(b, p, op);
    BuiltKept(b, p, op.kind, op.start, op.size);
    AllowRanges(b, p, Build(p, op.kind, op.start, op.size).1, AllowEnd(b, p, op), op.reaction.enters,
                AllowReacts(p, op.kind, op.present, op.driverNum, op.allowNum, op.start, op.size), allocs);
  }

  lemma AllowHanded(b: Board, p: Process, op: Op)
    requires ValidBoard(b) && ProcInv(b, p) && op.AllowOp? && ValidOp(op)
    ensures forall h :: h in NewHanded(p, op) ==> h.buffer.pid == p.pid && InsideNow(AllowEnd(b, p, op), h)
  {
    M.BuildKeeps(p, op.kind, op.start, op.size);
    AllowShape(b, p, op);
    BuiltKept(b, p, op.kind, op.start, op.size);
    ReactKeeps(b, Build(p, op.kind, op.start, op.size).1, op.reaction.enters);
  }

  // --------------------------------------------------------------- all steps

  // What any step other than a life-cycle one leaves true.
  ghost predicate Advanced(b: Board, r: Record, op: Op, q: Process)
    requires ValidBoard(b) && Sized(b, r.p) && ValidOp(op)
  {
    && ProcInv(b, q) && SameLife(r.p, q)
    && RangeInv(b, q, r.allocs + NewAllocs(b, r.p, op))
    && SubInv(q, NewSubs(b, r.p, op, r.subs))
    && (forall h :: h in NewHanded(r.p, op) ==> h.buffer.pid == r.p.pid && InsideNow(q, h))
  }

  predicate IsLifeOp(op: Op) { op.TerminateOp? || op.RestartOp? || op.StartOp? || op.FaultOp? }

  lemma NoAllocs<X>(s: seq<X>, t: seq<X>)
    requires t == []
    ensures s + t == s
  {
  }

  lemma BreakOp(b: Board, r: Record, op: Op, nextId: nat)
    requires ValidBoard(b) && RecInv(b, r, nextId) && (op.BrkOp? || op.SbrkOp?)
    ensures Advanced(b, r, op, StepProcess(b, r.p, op, nextId))
  {
    var q := StepProcess(b, r.p, op, nextId);
    NoAllocs(r.allocs, NewAllocs(b, r.p, op));
    if op.BrkOp? {
      BrkStep(b, r.p, q, op.newBreak);
    } else if IsRunning(r.p.state) {
      BrkStep(b, r.p, q, WrapAdd(r.p.appBreak, op.increment));
    }
    RangesSame(b, r.p, q, r.allocs);
  }

  lemma BufferOp(b: Board, r: Record, op: Op, nextId: nat)
    requires ValidBoard(b) && RecInv(b, r, nextId) && ValidOp(op) && op.BuildOp?
    ensures Advanced(b, r, op, StepProcess(b, r.p, op, nextId))
  {
    NoAllocs(r.allocs, NewAllocs(b, r.p, op));
    BuiltKept(b, r.p, op.kind, op.start, op.size);
    M.BuildKeeps(r.p, op.kind, op.start, op.size);
    RangesSame(b, r.p, Build(r.p, op.kind, op.start, op.size).1, r.allocs);
  }

  lemma GrantOp(b: Board, r: Record, op: Op, nextId: nat)
    requires ValidBoard(b) && RecInv(b, r, nextId) && ValidOp(op)
    requires op.UseGrant? || op.CustomGrant? || op.Enter? || op.Leave?
    ensures Advanced(b, r, op, StepProcess(b, r.p, op, nextId))
  {
    match op
    case UseGrant(g) =>
      NewGrantKeepsAll(b, r.p, g);
      NewGrantRanges(b, r.p, g, r.allocs);
    case CustomGrant(size, align) =>
      CustomStep(b, r.p, size, align, r.allocs);
    case Enter(g) =>
      NoAllocs(r.allocs, NewAllocs(b, r.p, op));
      if g < |r.p.grants| && Allocated(r.p.grants[g]) { EnterStep(b, r.p, g, r.allocs); }
    case Leave(g) =>
      NoAllocs(r.allocs, NewAllocs(b, r.p, op));
      LeaveStep(b, r.p, g, r.allocs);
  }

  lemma QueueOp(b: Board, r: Record, op: Op, nextId: nat)
    requires ValidBoard(b) && RecInv(b, r, nextId) && ValidOp(op)
    requires op.Schedule? || op.EnqueueIpc? || op.DequeueOp? || op.RemoveUpcallOp?
    ensures Advanced(b, r, op, StepProcess(b, r.p, op, nextId))
  {
    var p, q := r.p, StepProcess(b, r.p, op, nextId);
    NoAllocs(r.allocs, NewAllocs(b, p, op));
    match op {
      case Schedule(g, subscribeNum, r0, r1, r2) => ScheduleKeeps(b, p, g, subscribeNum, r0, r1, r2);
      case EnqueueIpc(sender, toService) => EnqueueKeeps(p, Ipc(sender, toService));
      case DequeueOp => DequeueKeeps(p, UpcallId(0, 0));
      case RemoveUpcallOp(id) => DequeueKeeps(p, id);
    }
    OnlyTasks(b, p, q);
    ReachKept(p, q);
    RangesSame(b, p, q, r.allocs);
  }

  lemma SyscallOp(b: Board, r: Record, op: Op, nextId: nat)
    requires ValidBoard(b) && RecInv(b, r, nextId) && ValidOp(op)
    requires op.SubscribeOp? || op.AllowOp?
    ensures Advanced(b, r, op, StepProcess(b, r.p, op, nextId))
  {
    if op.SubscribeOp? {
      SubscribeStep(b, r.p, op, r.allocs, r.subs);
    } else {
      AllowStep(b, r.p, op, r.allocs);
      AllowHanded(b, r.p, op);
    }
  }

  // Writing the region table out changes nothing that is exposed.
  lemma SetupCovers(p: Process, limit: nat)
    requires M.CoversUpTo(p, limit)
    ensures M.CoversUpTo(SetupMpu(p), limit)
  {
    if p.mpu.Some? {
      var (c, c') := (p.mpu.value, SetupMpu(p).mpu.value);
      var end: nat :| M.Exposes(c, p.image.memStart, end) && p.appBreak <= end <= limit;
      assert forall a :: T.AppAccessible(c', a) <==> T.AppAccessible(c, a);
      assert M.Exposes(c', p.image.memStart, end);
    }
  }

  lemma SetupStep(b: Board, r: Record, op: Op, nextId: nat)
    requires ValidBoard(b) && RecInv(b, r, nextId) && op.SetupOp?
    ensures Advanced(b, r, op, StepProcess(b, r.p, op, nextId))
  {
    var q := SetupMpu(r.p);
    NoAllocs(r.allocs, NewAllocs(b, r.p, op));
    SetupCovers(r.p, MemEnd(r.p));
    if M.Isolated(r.p) { SetupCovers(r.p, r.p.kernelBreak); }
    TablesUntouched(b, r.p, q);
    RangesSame(b, r.p, q, r.allocs);
  }

  lemma StateOp(b: Board, r: Record, op: Op, nextId: nat)
    requires ValidBoard(b) && RecInv(b, r, nextId) && ValidOp(op)
    requires op.SetRunning? || op.YieldWait? || op.YieldWaitFor? || op.StopOp? || op.ResumeOp?
    ensures Advanced(b, r, op, StepProcess(b, r.p, op, nextId))
  {
    var q := StepProcess(b, r.p, op, nextId);
    NoAllocs(r.allocs, NewAllocs(b, r.p, op));
    StateStep(b, r.p, q);
    ReachKept(r.p, q);
    RangesSame(b, r.p, q, r.allocs);
  }

  lemma AdvancedRecord(b: Board, r: Record, op: Op, q: Process, nextId: nat)
    requires ValidBoard(b) && RecInv(b, r, nextId) && ValidOp(op) && Advanced(b, r, op, q)
    ensures RecInv(b, Record(q, r.handed + NewHanded(r.p, op), AllocsAfter(r.allocs + NewAllocs(b, r.p, op), false, q),
                             if !IsRunning(q.state) then map[] else NewSubs(b, r.p, op, r.subs)), nextId)
  {
    if !IsRunning(q.state) { DisownedRanges(b, q, q, r.allocs + NewAllocs(b, r.p, op)); }
  }

  // The next free identifier after a step: one is used up by a reset.
  function NextId(r: Record, q: Process, nextId: nat): nat {
    if q.pid != r.p.pid then nextId + 1 else nextId
  }

  lemma LifeOp(b: Board, r: Record, op: Op, nextId: nat)
    requires ValidBoard(b) && RecInv(b, r, nextId) && ValidOp(op) && IsLifeOp(op)
    ensures var s := Step(b, r, op, nextId); RecInv(b, s, NextId(r, s.p, nextId))
  {
    LifeStep(b, r.p, op, nextId);
    var q := StepProcess(b, r.p, op, nextId);
    OutcomeRecord(b, r, q, nextId);
    NoAllocs(r.handed, NewHanded(r.p, op));
    NoAllocs(r.allocs, NewAllocs(b, r.p, op));
  }

  // Every step keeps the whole record invariant.
  lemma StepKeeps(b: Board, r: Record, op: Op, nextId: nat)
    requires ValidBoard(b) && RecInv(b, r, nextId) && ValidOp(op)
    ensures var s := Step(b, r, op, nextId); RecInv(b, s, NextId(r, s.p, nextId))
  {
    if IsLifeOp(op) {
      LifeOp(b, r, op, nextId);
    } else {
      if op.BrkOp? || op.SbrkOp? { BreakOp(b, r, op, nextId); }
      else if op.BuildOp? { BufferOp(b, r, op, nextId); }
      else if op.UseGrant? || op.CustomGrant? || op.Enter? || op.Leave? { GrantOp(b, r, op, nextId); }
      else if op.Schedule? || op.EnqueueIpc? || op.DequeueOp? || op.RemoveUpcallOp? { QueueOp(b, r, op, nextId); }
      else if op.SubscribeOp? || op.AllowOp? { SyscallOp(b, r, op, nextId); }
      else if op.SetupOp? { SetupStep(b, r, op, nextId); }
      else { StateOp(b, r, op, nextId); }
      AdvancedRecord(b, r, op, StepProcess(b, r.p, op, nextId), nextId);
    }
  }

  // The record misses nothing: every buffer built or allowed, and every custom
  // grant, is in it from then on, or until the process is re-initialized.
  lemma Recorded(b: Board, r: Record, op: Op, newId: nat)
    requires ValidBoard(b) && ProcInv(b, r.p) && ValidOp(op)
    ensures r.handed <= Step(b, r, op, newId).handed
    ensures op.SetRunning? ==> Step(b, r, op, newId).p == r.p.(state := Running)
    ensures op.BuildOp? && Build(r.p, op.kind, op.start, op.size).0.Success? ==>
              Handed(Buffer(op.start, op.size, r.p.pid), op.kind == RwAllow) in Step(b, r, op, newId).handed
    ensures op.AllowOp? && Allow(b, r.p, op.kind, op.present, op.driverNum, op.allowNum, op.start, op.size,
                                 op.reaction).0.AllowSuccess? ==>
              Handed(Buffer(op.start, op.size, r.p.pid), op.kind == RwAllow) in Step(b, r, op, newId).handed
    ensures op.CustomGrant? && AllocateCustomGrant(r.p, op.size, op.align).0.Success? ==>
              var allocs := Step(b, r, op, newId).allocs;
              && allocs != [] && allocs[..|allocs| - 1] == r.allocs
              && allocs[|allocs| - 1].start == AllocateCustomGrant(r.p, op.size, op.align).0.value.1
              && allocs[|allocs| - 1].size == op.size
  {
  }
}
