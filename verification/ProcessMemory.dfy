// Memory isolation of one process: what the MPU exposes compared with the
// process's own bookkeeping (app break, kernel break, allow high-water mark).

module ProcessMemory {
  import opened Wrappers
  import opened Powers
  import opened Region
  import opened MpuPlan
  import opened ProcessTypes
  import opened ProcessSpec
  import T = MpuTable

  // Regions 0 and 1 of c make exactly [start, end) accessible.
  ghost predicate Exposes(c: MpuConfig, start: nat, end: nat) {
    forall a :: T.AppAccessible(c, a) <==> start <= a < end
  }

  // Region 0 starts at the block, and the block is one or two regions long.
  ghost predicate Laid(c: MpuConfig, m: Image) {
    && c.regions[0].location.Some?
    && c.regions[0].location.value.start == m.memStart
    && AppGeometry(m.memStart, m.memLen, c.regions[0].location.value.size)
  }

  ghost predicate GoodImage(m: Image) {
    && IsPow2(m.memLen) && m.memLen >= 512 && m.memStart + m.memLen < WORD
    && 0 < m.kernelBytes && INITIAL_APP_BYTES + m.kernelBytes + USIZE_BYTES <= m.memLen
    && m.flashStart + m.flashLen < WORD
  }

  // The order of the break pointers.
  predicate Ordered(p: Process) {
    && p.image.memStart <= p.highWater <= p.appBreak <= p.kernelBreak <= MemEnd(p)
    && p.image.memStart < p.appBreak
  }

  // The MPU covers everything below the app break and nothing above `limit`.
  ghost predicate CoversUpTo(p: Process, limit: nat) {
    p.mpu.Some? ==>
      exists end: nat :: Exposes(p.mpu.value, p.image.memStart, end) && p.appBreak <= end <= limit
  }

  // Always true of a process: nothing outside its own block is exposed.
  ghost predicate MemInv(p: Process) {
    && GoodImage(p.image)
    && Ordered(p)
    && (p.mpu.Some? ==> Laid(p.mpu.value, p.image))
    && CoversUpTo(p, MemEnd(p))
  }

  // The stronger fact: the kernel-owned part of the block is not exposed.
  ghost predicate Isolated(p: Process) {
    CoversUpTo(p, p.kernelBreak)
  }

  // What creation enables of the block ends below the kernel's structures. It
  // does whenever the allocator's doubling branch is not taken; creation asks
  // for one word more than the structures need.
  predicate Roomy(m: Image)
    requires m.memLen >= 512
  {
    Reach(m.memLen, INITIAL_APP_BYTES, m.kernelBytes + USIZE_BYTES) <= m.memLen - m.kernelBytes
  }

  // A block roomy enough for creation is roomy enough for every reset.
  lemma RoomyResets(m: Image)
    requires GoodImage(m) && Roomy(m)
    ensures !Doubles(m.memLen, INITIAL_APP_BYTES, m.kernelBytes)
  {
    CoarserReachesFurther(m.memLen, INITIAL_APP_BYTES);
  }

  ghost predicate Inv(p: Process) {
    MemInv(p) && (Roomy(p.image) ==> Isolated(p))
  }

  // What the invariant means address by address.
  lemma IsolationByAddress(p: Process, a: int)
    requires MemInv(p) && p.mpu.Some?
    ensures p.image.memStart <= a < p.appBreak ==> T.AppAccessible(p.mpu.value, a)
    ensures T.AppAccessible(p.mpu.value, a) ==> p.image.memStart <= a < MemEnd(p)
    ensures Isolated(p) && T.AppAccessible(p.mpu.value, a) ==> a < p.kernelBreak
  {
  }

  // A process whose MPU exposes exactly [memStart, end) is isolated if and only
  // if that ends at or below the kernel break.
  lemma IsolatedIff(p: Process, end: nat)
    requires p.mpu.Some? && Exposes(p.mpu.value, p.image.memStart, end)
    requires p.image.memStart <= p.appBreak <= end && p.appBreak <= p.kernelBreak
    ensures Isolated(p) <==> end <= p.kernelBreak
    ensures T.AppAccessible(p.mpu.value, p.kernelBreak) <==> end > p.kernelBreak
  {
    var (c, start) := (p.mpu.value, p.image.memStart);
    assert T.AppAccessible(c, p.kernelBreak) <==> start <= p.kernelBreak < end;
    if Isolated(p) {
      var e: nat :| Exposes(c, start, e) && p.appBreak <= e <= p.kernelBreak;
      assert T.AppAccessible(c, p.kernelBreak) <==> start <= p.kernelBreak < e;
    }
    if end <= p.kernelBreak { assert Exposes(c, start, end) && p.appBreak <= end <= p.kernelBreak; }
  }

  // ---------------------------------------------------------- region update

  // Where the enabled subregions end for a given app break.
  function RoundedBreak(c: MpuConfig, appBreak: nat): nat
    requires c.regions[0].location.Some? && c.regions[0].location.value.size >= 8
    requires appBreak >= c.regions[0].location.value.start
  {
    var l := c.regions[0].location.value;
    l.start + AlignUp(appBreak - l.start, l.size / 8)
  }

  lemma UpdateExact(c: MpuConfig, m: Image, appBreak: nat, kernelBreak: nat)
    requires Laid(c, m) && m.memStart <= appBreak && kernelBreak <= m.memStart + m.memLen < WORD
    ensures var (r, c') := T.UpdateApp(c, appBreak, kernelBreak, ReadWriteOnly);
            && |c'.regions| >= 2
            && (r.Done? <==> m.memStart < appBreak && RoundedBreak(c, appBreak) <= kernelBreak)
            && (r == Overflow <==> appBreak == m.memStart && m.memStart <= kernelBreak)
            && (!r.Done? ==> c' == c)
            && (r.Done? ==> Laid(c', m) && c'.regions[0].location == c.regions[0].location)
            && (r.Done? ==> Exposes(c', m.memStart, RoundedBreak(c, appBreak)))
  {
    var size := c.regions[0].location.value.size;
    PlanUpdateExact(m.memStart, m.memLen, size, appBreak, kernelBreak);
    var (r, c') := T.UpdateApp(c, appBreak, kernelBreak, ReadWriteOnly);
    if r.Done? {
      var enabled := PlanUpdate(c.regions[0].location, appBreak, kernelBreak).value;
      forall a
        ensures T.AppAccessible(c', a) <==> m.memStart <= a < RoundedBreak(c, appBreak)
      {
        T.WithAppRegionsAccess(c, m.memStart, size, enabled, ReadWriteOnly, a);
      }
    }
  }

  lemma DirtyIrrelevant(c: MpuConfig, m: Image, start: nat, end: nat)
    requires Laid(c, m) && Exposes(c, start, end)
    ensures Laid(c.(dirty := false), m) && Exposes(c.(dirty := false), start, end)
  {
    forall a
      ensures T.AppAccessible(c.(dirty := false), a) <==> start <= a < end
    {
      assert T.AppAccessible(c, a) <==> start <= a < end;
    }
  }

  // ------------------------------------------------------------ brk and sbrk

  // brk keeps the invariant whatever the argument; a success isolates the
  // process, and anything else leaves it unchanged.
  lemma BrkKeeps(p: Process, newBreak: nat)
    requires MemInv(p)
    ensures var (r, q) := Brk(p, newBreak);
            && MemInv(q)
            && (r.Success? ==> Isolated(q) && q.appBreak == newBreak && r.value == p.appBreak)
            && (r.Success? ==> q == p.(appBreak := q.appBreak, mpu := q.mpu))
            && (!r.Success? ==> q == p)
  {
    if IsRunning(p.state) && p.mpu.Some? && p.highWater <= newBreak <= p.kernelBreak && newBreak < MemEnd(p) {
      UpdateExact(p.mpu.value, p.image, newBreak, p.kernelBreak);
      var (u, c) := T.UpdateApp(p.mpu.value, newBreak, p.kernelBreak, ReadWriteOnly);
      if u.Done? {
        DirtyIrrelevant(c, p.image, p.image.memStart, RoundedBreak(p.mpu.value, newBreak));
      }
    }
  }

  // Exactly when brk succeeds and what it returns, which error it gives otherwise,
  // and exactly when its subregion count underflows: the break moved to the start
  // of memory.
  lemma BrkOutcome(p: Process, newBreak: nat)
    requires MemInv(p)
    ensures var (r, _) := Brk(p, newBreak);
            if !IsRunning(p.state) then r == Failure(InactiveApp)
            else if p.mpu.None? then r == Failure(KernelError)
            else
              && (r.Success? <==>
                    && p.highWater <= newBreak < MemEnd(p)
                    && p.image.memStart < newBreak <= p.kernelBreak
                    && RoundedBreak(p.mpu.value, newBreak) <= p.kernelBreak)
              && (r.Trap? <==> newBreak == p.image.memStart && p.highWater == p.image.memStart)
              && (r.Success? ==> r.value == p.appBreak)
              && (r.Failure? ==>
                    r.error == if p.highWater <= newBreak < MemEnd(p) then OutOfMemory else AddressOutOfBounds)
  {
    if p.mpu.Some? && p.highWater <= newBreak <= p.kernelBreak && newBreak < MemEnd(p) {
      UpdateExact(p.mpu.value, p.image, newBreak, p.kernelBreak);
    }
  }

  // sbrk is brk of the break moved by the increment, modulo the address space.
  lemma SbrkOutcome(p: Process, increment: int)
    requires MemInv(p)
    ensures var (r, q) := Sbrk(p, increment);
            var newBreak := (p.appBreak + increment) % WORD;
            if !IsRunning(p.state) then r == Failure(InactiveApp)
            else if p.mpu.None? then r == Failure(KernelError)
            else
              && (r.Success? <==>
                    && p.highWater <= newBreak < MemEnd(p)
                    && p.image.memStart < newBreak <= p.kernelBreak
                    && RoundedBreak(p.mpu.value, newBreak) <= p.kernelBreak)
              && (r.Success? ==> r.value == p.appBreak && q.appBreak == newBreak)
              && (r.Failure? ==>
                    r.error == if p.highWater <= newBreak < MemEnd(p) then OutOfMemory else AddressOutOfBounds)
  {
    BrkOutcome(p, (p.appBreak + increment) % WORD);
    BrkKeeps(p, (p.appBreak + increment) % WORD);
  }

  lemma SbrkKeeps(p: Process, increment: int)
    requires MemInv(p)
    ensures var (r, q) := Sbrk(p, increment);
            && MemInv(q) && (r.Success? ==> Isolated(q)) && (!r.Success? ==> q == p)
            && q == p.(appBreak := q.appBreak, mpu := q.mpu)
            && (r.Success? ==> q.appBreak == WrapAdd(p.appBreak, increment))
  {
    BrkKeeps(p, WrapAdd(p.appBreak, increment));
  }

  // -------------------------------------------------------- grant allocation

  lemma AllocationKeeps(p: Process, size: nat, align: nat)
    requires MemInv(p) && size < WORD && 1 <= align
    ensures var (r, q) := AllocateInGrantRegion(p, size, align);
            && MemInv(q)
            && (!r.Done? ==> q == p)
            && (r.Done? ==>
                  && Isolated(q)
                  && q == p.(kernelBreak := r.value, mpu := q.mpu)
                  && p.appBreak <= r.value <= p.kernelBreak
                  && r.value > 0)
            && r != Overflow
  {
    var newBreak := AlignDown(WrapSub(p.kernelBreak, size), Max(align, 2));
    if p.mpu.Some? && p.appBreak <= newBreak <= p.kernelBreak {
      UpdateExact(p.mpu.value, p.image, p.appBreak, newBreak);
    }
  }

  // Where an allocation would go: below the kernel break, modulo the address space,
  // rounded down to its alignment.
  function GrantAddress(p: Process, size: nat, align: nat): nat
    requires size < WORD && p.kernelBreak < WORD && align >= 1
  {
    AlignDown(if size <= p.kernelBreak then p.kernelBreak - size else p.kernelBreak + WORD - size, Max(align, 2))
  }

  // It goes there exactly when that is between the app break and the kernel break
  // and the app memory, rounded up to subregions, ends below it.
  lemma AllocationOutcome(p: Process, size: nat, align: nat)
    requires MemInv(p) && size < WORD && 1 <= align
    ensures var (r, address) := (AllocateInGrantRegion(p, size, align).0, GrantAddress(p, size, align));
            && (r.Done? <==>
                  && p.mpu.Some? && p.appBreak <= address <= p.kernelBreak
                  && RoundedBreak(p.mpu.value, p.appBreak) <= address)
            && (r.Done? ==> r.value == address)
  {
    var address := GrantAddress(p, size, align);
    if p.mpu.Some? && p.appBreak <= address <= p.kernelBreak {
      UpdateExact(p.mpu.value, p.image, p.appBreak, address);
    }
  }

  // The new range ends at or below the old break exactly when the subtraction
  // did not wrap; the address is aligned, and always even.
  lemma AllocationFitsIff(p: Process, size: nat, align: nat)
    requires MemInv(p) && size < WORD && IsPow2(align) && align < WORD
    requires AllocateInGrantRegion(p, size, align).0.Done?
    ensures var ptr := AllocateInGrantRegion(p, size, align).0.value;
            && ptr % align == 0 && ptr % 2 == 0
            && (ptr + size <= p.kernelBreak <==> size <= p.kernelBreak)
  {
    var a := Max(align, 2);
    AlignDownMultiple(WrapSub(p.kernelBreak, size), a);
    Pow2Constants();
    assert IsPow2(2) by { assert 2 == Pow2(1); }
    Pow2DividesByValue(2, a);
    Pow2DividesByValue(align, a);
    var ptr := AllocateInGrantRegion(p, size, align).0.value;
    ModTrans(ptr, a, 2);
    ModTrans(ptr, a, align);
  }

  lemma WrapsToBreak(x: nat)
    requires x % 8 == 0 && x < WORD
    ensures x + 4 < WORD && WrapSub(x, WORD - 4) == x + 4 && AlignDown(x + 4, 8) == x
  {
  }

  // A request that does wrap: four bytes short of the whole address space
  // "succeeds" at the old break, for any process whose break is aligned.
  lemma WrappingRequest(p: Process)
    requires MemInv(p) && p.mpu.Some? && p.kernelBreak % 8 == 0
    requires RoundedBreak(p.mpu.value, p.appBreak) <= p.kernelBreak
    ensures AllocateInGrantRegion(p, WORD - 4, 8).0 == Done(p.kernelBreak)
  {
    WrapsToBreak(p.kernelBreak);
    UpdateExact(p.mpu.value, p.image, p.appBreak, p.kernelBreak);
  }

  // ----------------------------------------------------------------- buffers

  lemma WrapsOnce(x: nat, y: nat)
    requires x < WORD && y < WORD
    ensures WrapAdd(x, y) == if x + y < WORD then x + y else x + y - WORD
  {
  }

  lemma HighWaterRaised(p: Process, end: nat)
    requires MemInv(p) && p.image.memStart <= end <= p.appBreak
    ensures var q := RaiseHighWater(p, end);
            && MemInv(q) && (Isolated(p) ==> Isolated(q)) && q == p.(highWater := q.highWater)
            && p.highWater <= q.highWater && end <= q.highWater
  {
  }

  lemma BuildKeeps(p: Process, kind: AllowKind, start: nat, size: nat)
    requires MemInv(p) && start < WORD && size < WORD
    ensures var (r, q) := Build(p, kind, start, size);
            && MemInv(q) && (Isolated(p) ==> Isolated(q))
            && q == p.(highWater := q.highWater) && p.highWater <= q.highWater
            && (r.Success? ==> r.value == Buffer(start, size, p.pid))
            && (r.Success? && size > 0 ==>
                  || (p.image.memStart <= start && start + size <= q.highWater)
                  || (kind == RoAllow && p.image.flashStart + p.image.protectedSize <= start && start + size <= FlashEnd(p)))
  {
    WrapsOnce(start, size);
    if IsRunning(p.state) && size > 0 && InAppOwnedMemory(p, start, size) {
      HighWaterRaised(p, WrapAdd(start, size));
    }
  }

  // A buffer is built exactly for an empty range, one below the app break, or a
  // read-only one in unprotected flash; one in memory raises the high-water mark
  // to its end if that is higher.
  lemma BuildOutcome(p: Process, kind: AllowKind, start: nat, size: nat)
    requires MemInv(p) && start < WORD && size < WORD
    ensures var (r, q) := Build(p, kind, start, size);
            var active := p.state != Faulted && p.state != Terminated;
            var inMemory := p.image.memStart <= start && start + size <= p.appBreak;
            var inFlash := p.image.flashStart + p.image.protectedSize <= start
                           && start + size <= p.image.flashStart + p.image.flashLen;
            && !r.Trap? && (r.Success? <==> active && (size == 0 || inMemory || (kind == RoAllow && inFlash)))
            && (r.Failure? ==> q == p && r.error == if active then INVAL else FAIL)
            && (r.Success? ==>
                  && r.value.ptr == start && r.value.len == size && r.value.pid == p.pid
                  && q == p.(highWater := if size > 0 && inMemory && start + size > p.highWater then start + size
                                          else p.highWater))
  {
    WrapsOnce(start, size);
  }

  // ------------------------------------------------------------------- reset

  // [memStart, end) holds the initial app memory and stays in the block; with
  // room to spare it also stays clear of the kernel structures.
  ghost predicate FreshEnd(m: Image, c: MpuConfig, end: nat)
    requires m.memLen >= 512
  {
    && Exposes(c, m.memStart, end)
    && m.memStart + INITIAL_APP_BYTES <= end <= m.memStart + m.memLen
    && (Roomy(m) ==> end <= m.memStart + m.memLen - m.kernelBytes)
  }

  // Exactly what a reset exposes.
  ghost predicate ResetExposes(m: Image, c: MpuConfig)
    requires m.memLen >= 512
  {
    Exposes(c, m.memStart, m.memStart + Reach(m.memLen, INITIAL_APP_BYTES, m.kernelBytes))
  }

  lemma ResetBlock(m: Image, c1: MpuConfig)
    requires GoodImage(m) && T.TableInv(c1.regions)
    requires T.AllocateApp(c1, m.memStart, m.memLen, m.memLen, INITIAL_APP_BYTES, m.kernelBytes, ReadWriteOnly).0.Done?
    ensures var (block, c2) :=
              T.AllocateApp(c1, m.memStart, m.memLen, m.memLen, INITIAL_APP_BYTES, m.kernelBytes, ReadWriteOnly);
            && block.value == Location(m.memStart, m.memLen)
            && |c2.regions| >= 2 && Laid(c2, m)
            && ResetExposes(m, c2) && exists end: nat :: FreshEnd(m, c2, end)
  {
    T.AllocateAppSound(c1, m.memStart, m.memLen, m.memLen, INITIAL_APP_BYTES, m.kernelBytes, ReadWriteOnly);
    PlanAppSound(m.memStart, m.memLen, m.memLen, INITIAL_APP_BYTES, m.kernelBytes);
    KernelGapIff(m.memStart, m.memLen, m.memLen, INITIAL_APP_BYTES, m.kernelBytes);
    Log2AtLeast9(m.memLen);
    if Roomy(m) { RoomyResets(m); }
    var (_, c2) := T.AllocateApp(c1, m.memStart, m.memLen, m.memLen, INITIAL_APP_BYTES, m.kernelBytes, ReadWriteOnly);
    var plan := PlanApp(m.memStart, m.memLen, m.memLen, INITIAL_APP_BYTES, m.kernelBytes).value;
    assert FreshEnd(m, c2, AccessEnd(plan));
  }

  lemma RebuildSound(b: Board, c: MpuConfig, m: Image)
    requires ValidBoard(b) && GoodImage(m)
    ensures GoodTable(m, RebuildTable(b, c, m))
  {
    T.EmptyTableInv(|c.regions|);
    T.AllocateRegionSound(b.unit, T.Reset(c), m.flashStart, m.flashLen, m.flashLen, ReadExecuteOnly);
    var (flash, c1) := T.AllocateRegion(b.unit, T.Reset(c), m.flashStart, m.flashLen, m.flashLen, ReadExecuteOnly);
    if flash.Done?
       && T.AllocateApp(c1, m.memStart, m.memLen, m.memLen, INITIAL_APP_BYTES, m.kernelBytes, ReadWriteOnly).0.Done? {
      ResetBlock(m, c1);
    }
  }

  // The break pointers of a process that has just been laid out.
  predicate FreshBreaks(p: Process) {
    && p.highWater == p.image.memStart
    && p.appBreak == p.image.memStart + INITIAL_APP_BYTES
    && p.kernelBreak == MemEnd(p) - p.image.kernelBytes
  }

  lemma FreshLayout(p: Process)
    requires GoodImage(p.image) && FreshBreaks(p)
    requires p.mpu.Some? && Laid(p.mpu.value, p.image) && exists end: nat :: FreshEnd(p.image, p.mpu.value, end)
    ensures Inv(p)
  {
  }

  lemma OnlyBreaksMatter(p: Process, q: Process)
    requires Inv(p) && q.image == p.image && q.mpu == p.mpu
    requires q.appBreak == p.appBreak && q.kernelBreak == p.kernelBreak && q.highWater == p.highWater
    ensures Inv(q)
  {
  }

  // A rebuilt table has the shape RebuildSound promises.
  ghost predicate GoodTable(m: Image, t: ResetTable)
    requires m.memLen >= 512
  {
    t.Rebuilt? ==>
      && t.block == Location(m.memStart, m.memLen) && Laid(t.config, m)
      && ResetExposes(m, t.config) && exists end: nat :: FreshEnd(m, t.config, end)
  }

  // Everything a reset does apart from the region table.
  ghost predicate ResetShape(p: Process, r: Reply<(), ErrorCode>, q: Process, newId: nat) {
    && q.image == p.image && q.grants == p.grants && q.memory == p.memory
    && (r.Trap? ==> q == p)
    && (!r.Trap? ==> q.pid == ProcessId(newId, p.pid.index))
    && (!r.Success? ==> q.tasks == p.tasks)
    && (r.Success? ==> q.state == Yielded && q.tasks == p.tasks + [InitTask(q)] && FreshBreaks(q))
    && (!r.Success? && |p.tasks| < TASK_CAPACITY ==> q.state == p.state)
    && (q.kernelBreak == p.kernelBreak || FreshBreaks(q))
  }

  lemma ResetWithKeeps(p: Process, t: ResetTable, newId: nat, contextOk: bool)
    requires Inv(p) && GoodTable(p.image, t)
    ensures var (r, q) := ResetWith(p, t, newId, contextOk);
            Inv(q) && ResetShape(p, r, q, newId)
  {
    var q := ResetWith(p, t, newId, contextOk).1;
    WrapsOnce(p.image.memStart, p.image.memLen - p.image.kernelBytes);
    if t.Rebuilt? { FreshLayout(q); } else if t.Trapped? { OnlyBreaksMatter(p, q); }
  }

  // A reset, successful or not, leaves the process laid out inside its block
  // with its break pointers in order.
  lemma ResetKeeps(b: Board, p: Process, newId: nat, contextOk: bool)
    requires ValidBoard(b) && Inv(p)
    ensures var (r, q) := Reset(b, p, newId, contextOk);
            Inv(q) && ResetShape(p, r, q, newId)
  {
    if p.mpu.None? {
      OnlyBreaksMatter(p, p.(pid := ProcessId(newId, p.pid.index)));
    } else {
      RebuildSound(b, p.mpu.value, p.image);
      ResetWithKeeps(p, RebuildTable(b, p.mpu.value, p.image), newId, contextOk);
    }
  }

  // A reset that rebuilds the table leaves the process isolated if and only if
  // the allocator does not take its doubling branch for the kernel's bytes.
  lemma ResetIsolatedIff(p: Process, t: ResetTable, newId: nat, contextOk: bool)
    requires GoodImage(p.image) && GoodTable(p.image, t) && t.Rebuilt?
    ensures Isolated(ResetWith(p, t, newId, contextOk).1)
       <==> !Doubles(p.image.memLen, INITIAL_APP_BYTES, p.image.kernelBytes)
  {
    var m := p.image;
    WrapsOnce(m.memStart, m.memLen - m.kernelBytes);
    EnabledBounds(m.memLen, INITIAL_APP_BYTES, m.kernelBytes);
    IsolatedIff(ResetWith(p, t, newId, contextOk).1,
                m.memStart + Reach(m.memLen, INITIAL_APP_BYTES, m.kernelBytes));
  }

  // ------------------------------------------------- a process, in the concrete

  // A kilobyte at 0x20000000: 32 bytes of app memory, 64 of them exposed, and
  // the last 256 bytes the kernel's.
  const SMALL_IMAGE: Image := Image(0x2000_0000, 1024, 256, 0, 0, 0, 0, 0)

  function SmallProcess(): Process {
    var c := T.WithAppRegions(T.Config(0, [Empty(0), Empty(1)], true), 0x2000_0000, 512, 1, ReadWriteOnly);
    Process(SMALL_IMAGE, ProcessId(0, 0), Yielded, 0x2000_0020, 0x2000_0300, 0x2000_0000, Some(c), [], [], [], 0, None)
  }

  // It satisfies what WrappingRequest asks for: the request of 2^32 - 4 bytes
  // is granted at 0x20000300, where the kernel's structures begin.
  lemma WrappingRequestHappens()
    ensures MemInv(SmallProcess())
    ensures AllocateInGrantRegion(SmallProcess(), WORD - 4, 8).0 == Done(0x2000_0300)
  {
    var p := SmallProcess();
    Pow2Constants();
    assert IsPow2(1024) && IsPow2(512) by { assert 1024 == Pow2(10) && 512 == Pow2(9); }
    forall a
      ensures T.AppAccessible(p.mpu.value, a) <==> 0x2000_0000 <= a < 0x2000_0040
    {
      T.WithAppRegionsAccess(T.Config(0, [Empty(0), Empty(1)], true), 0x2000_0000, 512, 1, ReadWriteOnly, a);
    }
    assert Exposes(p.mpu.value, 0x2000_0000, 0x2000_0040);
    WrappingRequest(p);
  }
}
