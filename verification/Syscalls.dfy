// The subscribe and allow system calls (kernel/src/kernel.rs, handle_syscall),
// against section 4.2 (Subscribe) of Tock TRD104.

module Syscalls {
  import opened Wrappers
  import opened Powers
  import opened ProcessTypes
  import opened ProcessSpec
  import opened GrantTable
  import M = ProcessMemory

  datatype SubscribeReturn =
    | SubscribeSuccess(fnPtr: nat, appdata: nat)
    | SubscribeFailure(error: ErrorCode, fnPtr: nat, appdata: nat)

  datatype AllowReturn =
    | AllowSuccess(ptr: nat, len: nat)
    | AllowFailure(error: ErrorCode, ptr: nat, len: nat)

  // What the capsule does when asked to allocate its grant: the grants it
  // enters for this process, and the answer it gives.
  datatype Reaction = Reaction(enters: seq<nat>, ok: bool)

  // ------------------------------------------------------------- invariant

  predicate RamBuffer(p: Process, a: SavedAllow) {
    a.len > 0 ==> p.image.memStart <= a.ptr && a.ptr + a.len <= p.highWater
  }

  predicate FlashBuffer(p: Process, a: SavedAllow) {
    p.image.flashStart + p.image.protectedSize <= a.ptr && a.ptr + a.len <= FlashEnd(p)
  }

  predicate BufferOk(p: Process, kind: AllowKind, a: SavedAllow) {
    RamBuffer(p, a) || (kind == RoAllow && FlashBuffer(p, a))
  }

  // Every buffer the kernel holds is inside memory the process cannot give back.
  predicate AllowInv(p: Process)
    requires |p.memory| == |p.grants|
  {
    forall g :: 0 <= g < |p.grants| && Allocated(p.grants[g]) ==>
      && (forall a :: a in p.memory[g].allowRws ==> BufferOk(p, RwAllow, a))
      && (forall a :: a in p.memory[g].allowRos ==> BufferOk(p, RoAllow, a))
  }

  ghost predicate ProcInv(b: Board, p: Process) {
    M.Inv(p) && GrantInv(b, p) && QueueInv(p) && TagsOnAllocated(p.grants) && AllowInv(p)
  }

  // --------------------------------------------------------- try_allocate_grant

  lemma NewGrantSized(b: Board, p: Process, g: nat)
    requires Sized(b, p)
    ensures Sized(b, NewGrant(b, p, g).1)
  {
  }

  function React(b: Board, p: Process, enters: seq<nat>): (q: Process)
    requires Sized(b, p)
    ensures Sized(b, q)
    decreases |enters|
  {
    if enters == [] then p
    else
      NewGrantSized(b, p, enters[0]);
      React(b, NewGrant(b, p, enters[0]).1, enters[1..])
  }

  // One of the entries asks for more than a word of memory, and the kernel stops.
  predicate ReactTraps(b: Board, p: Process, enters: seq<nat>)
    requires Sized(b, p)
    decreases |enters|
  {
    enters != [] &&
      (NewGrantSized(b, p, enters[0]);
       NewGrant(b, p, enters[0]).0.Trap? || ReactTraps(b, NewGrant(b, p, enters[0]).1, enters[1..]))
  }

  // grant_allocated_count().unwrap_or(0)
  function CountOrZero(count: Option<nat>): nat { if count.Some? then count.value else 0 }

  // Did the capsule say yes, and is there one more grant than before?
  predicate NewAllocation(b: Board, p: Process, reaction: Reaction)
    requires Sized(b, p)
  {
    && reaction.ok
    && CountOrZero(GrantAllocatedCount(p)) != CountOrZero(GrantAllocatedCount(React(b, p, reaction.enters)))
  }

  lemma NewGrantKeepsAll(b: Board, p: Process, g: nat)
    requires ValidBoard(b) && ProcInv(b, p)
    ensures var q := NewGrant(b, p, g).1;
            && ProcInv(b, q) && SameOutside(p, q)
            && forall id :: Saved(q, id) == Saved(p, id)
  {
    NewGrantEffect(b, p, g);
    NewGrantKeeps(b, p, g);
  }

  // Nothing but the kernel break, the region table and the grants differs.
  predicate SameOutside(p: Process, q: Process) {
    q == p.(kernelBreak := q.kernelBreak, mpu := q.mpu, grants := q.grants, memory := q.memory)
  }

  lemma {:induction false} ReactKeeps(b: Board, p: Process, enters: seq<nat>)
    requires ValidBoard(b) && ProcInv(b, p)
    ensures var q := React(b, p, enters);
            && ProcInv(b, q) && SameOutside(p, q)
            && forall id :: Saved(q, id) == Saved(p, id)
    decreases |enters|
  {
    if enters != [] {
      NewGrantKeepsAll(b, p, enters[0]);
      ReactKeeps(b, NewGrant(b, p, enters[0]).1, enters[1..]);
    }
  }

  // -------------------------------------------------------------- subscribe

  // The function pointer must lie, with its four bytes, in flash or memory.
  predicate ValidFunctionPointer(p: Process, fnPtr: nat) {
    InAppFlashMemory(p, fnPtr, 4) || InAppOwnedMemory(p, fnPtr, 4)
  }

  function FinishSubscribe(r: Reply<SavedUpcall, ErrorCode>, q: Process, id: UpcallId, upcall: SavedUpcall)
    : (SubscribeReturn, Process)
  {
    match r
    case Success(prev) => (SubscribeSuccess(prev.fnPtr, prev.appdata), RemovePendingUpcalls(q, id))
    case Failure(e) => (SubscribeFailure(e, upcall.fnPtr, upcall.appdata), q)
    case Trap => (SubscribeFailure(FAIL, upcall.fnPtr, upcall.appdata), q)
  }

  function Subscribe(b: Board, p: Process, present: bool, id: UpcallId, upcall: SavedUpcall, reaction: Reaction)
    : (SubscribeReturn, Process)
    requires Sized(b, p)
  {
    if upcall.fnPtr != 0 && !ValidFunctionPointer(p, upcall.fnPtr) then
      (SubscribeFailure(INVAL, upcall.fnPtr, upcall.appdata), p)
    else if !present then
      (SubscribeFailure(NODEVICE, upcall.fnPtr, upcall.appdata), p)
    else
      var (r, q) := SwapUpcall(p, id, upcall);
      if r == Failure(NOMEM) then
        var p2 := React(b, p, reaction.enters);
        if NewAllocation(b, p, reaction) then
          var (r2, q2) := SwapUpcall(p2, id, upcall);
          FinishSubscribe(r2, q2, id, upcall)
        else (SubscribeFailure(NOMEM, upcall.fnPtr, upcall.appdata), p2)
      else FinishSubscribe(r, q, id, upcall)
  }

  // Whether the capsule gets asked for its grant.
  predicate SubscribeReacts(p: Process, present: bool, id: UpcallId, upcall: SavedUpcall)
    requires |p.memory| == |p.grants|
  {
    && present && (upcall.fnPtr == 0 || ValidFunctionPointer(p, upcall.fnPtr))
    && SwapUpcall(p, id, upcall).0 == Failure(NOMEM)
  }

  // A swap followed by dropping the queued calls of that upcall keeps every
  // invariant, whichever task was pending.
  lemma FinishSubscribeKeeps(b: Board, p: Process, id: UpcallId, upcall: SavedUpcall)
    requires ProcInv(b, p)
    ensures var (r, q) := SwapUpcall(p, id, upcall);
            var (ret, s) := FinishSubscribe(r, q, id, upcall);
            && ProcInv(b, s)
            && s == p.(memory := s.memory, tasks := s.tasks)
            && (ret.SubscribeSuccess? ==>
                  && SavedUpcall(ret.appdata, ret.fnPtr) == Saved(p, id) && Saved(s, id) == upcall
                  && (forall other :: other != id ==> Saved(s, other) == Saved(p, other))
                  && s.tasks == WithoutUpcall(p.tasks, id))
            && (ret.SubscribeFailure? ==> s == p && ret.fnPtr == upcall.fnPtr && ret.appdata == upcall.appdata)
  {
    SwapUpcallEffect(b, p, id, upcall);
    var (r, q) := SwapUpcall(p, id, upcall);
    var (ret, s) := FinishSubscribe(r, q, id, upcall);
    if r.Success? {
      SavedSameAll(q, s);
      forall t | t in s.tasks
        ensures Current(s, t)
      {
        assert Current(p, t);
      }
      AllowsUntouched(p, s);
    }
  }

  lemma AllowsUntouched(p: Process, s: Process)
    requires |p.memory| == |p.grants| && AllowInv(p) && |s.memory| == |p.memory|
    requires s == p.(memory := s.memory, tasks := s.tasks)
    requires forall g :: 0 <= g < |p.memory| ==>
               s.memory[g].allowRos == p.memory[g].allowRos && s.memory[g].allowRws == p.memory[g].allowRws
    ensures AllowInv(s)
  {
  }

  // A success returns the previous registration, installs the new one, touches
  // no other, and leaves no queued call of that upcall.
  ghost predicate Swapped(p: Process, q: Process, id: UpcallId, upcall: SavedUpcall, ret: SubscribeReturn)
    requires |p.memory| == |p.grants| && |q.memory| == |q.grants|
  {
    ret.SubscribeSuccess? ==>
      && SavedUpcall(ret.appdata, ret.fnPtr) == Saved(p, id) && Saved(q, id) == upcall
      && (forall other :: other != id ==> Saved(q, other) == Saved(p, other))
      && q.tasks == WithoutUpcall(p.tasks, id)
  }

  // A failure hands the arguments back and changes no registration and no
  // queued task.
  ghost predicate Refused(p: Process, q: Process, upcall: SavedUpcall, ret: SubscribeReturn)
    requires |p.memory| == |p.grants| && |q.memory| == |q.grants|
  {
    ret.SubscribeFailure? ==>
      && ret.fnPtr == upcall.fnPtr && ret.appdata == upcall.appdata
      && (forall other :: Saved(q, other) == Saved(p, other))
      && q.tasks == p.tasks
  }

  predicate SameButTasks(p: Process, q: Process) {
    q == p.(kernelBreak := q.kernelBreak, mpu := q.mpu, grants := q.grants, memory := q.memory, tasks := q.tasks)
  }

  lemma SwapOnce(b: Board, p: Process, id: UpcallId, upcall: SavedUpcall)
    requires ProcInv(b, p)
    ensures var (r, q) := SwapUpcall(p, id, upcall);
            var (ret, s) := FinishSubscribe(r, q, id, upcall);
            ProcInv(b, s) && SameButTasks(p, s) && Swapped(p, s, id, upcall, ret) && Refused(p, s, upcall, ret)
  {
    FinishSubscribeKeeps(b, p, id, upcall);
  }

  lemma AfterReaction(p: Process, p2: Process, q: Process, id: UpcallId, upcall: SavedUpcall, ret: SubscribeReturn)
    requires |p.memory| == |p.grants| && |p2.memory| == |p2.grants| && |q.memory| == |q.grants|
    requires SameOutside(p, p2) && forall other :: Saved(p2, other) == Saved(p, other)
    requires SameButTasks(p2, q) && Swapped(p2, q, id, upcall, ret) && Refused(p2, q, upcall, ret)
    ensures SameButTasks(p, q) && Swapped(p, q, id, upcall, ret) && Refused(p, q, upcall, ret)
  {
  }

  // The contract of TRD104 for every call: the first success for an identifier
  // returns the Null Upcall because that is what Saved is before any.
  lemma SubscribeContract(b: Board, p: Process, present: bool, id: UpcallId, upcall: SavedUpcall, reaction: Reaction)
    requires ValidBoard(b) && ProcInv(b, p)
    ensures var (ret, q) := Subscribe(b, p, present, id, upcall, reaction);
            ProcInv(b, q) && SameButTasks(p, q) && Swapped(p, q, id, upcall, ret) && Refused(p, q, upcall, ret)
  {
    var (ret, q) := Subscribe(b, p, present, id, upcall, reaction);
    if present && (upcall.fnPtr == 0 || ValidFunctionPointer(p, upcall.fnPtr)) {
      if SwapUpcall(p, id, upcall).0 != Failure(NOMEM) {
        SwapOnce(b, p, id, upcall);
      } else {
        ReactKeeps(b, p, reaction.enters);
        var p2 := React(b, p, reaction.enters);
        SwapOnce(b, p2, id, upcall);
        AfterReaction(p, p2, q, id, upcall, ret);
      }
    }
  }

  // Right after a success nothing queued can call into this upcall.
  lemma NoStaleCall(b: Board, p: Process, present: bool, id: UpcallId, upcall: SavedUpcall, reaction: Reaction, t: Task)
    requires ValidBoard(b) && ProcInv(b, p)
    requires Subscribe(b, p, present, id, upcall, reaction).0.SubscribeSuccess?
    requires t in Subscribe(b, p, present, id, upcall, reaction).1.tasks
    ensures !IsUpcallOf(t, id) && t in p.tasks
  {
    SubscribeContract(b, p, present, id, upcall, reaction);
  }

  // ------------------------------------------------------------------ allow

  // The buffer currently held for (driver, number): null and empty if none.
  function SavedBuffer(p: Process, kind: AllowKind, driverNum: nat, allowNum: nat): SavedAllow
    requires |p.memory| == |p.grants|
  {
    match LookupGrant(p, driverNum)
    case None => SavedAllow(0, 0)
    case Some(g) =>
      if allowNum < |p.memory[g].Allows(kind)| then p.memory[g].Allows(kind)[allowNum] else SavedAllow(0, 0)
  }

  function FinishAllow(r: Reply<SavedAllow, ErrorCode>, start: nat, size: nat): AllowReturn {
    match r
    case Success(prev) => AllowSuccess(prev.ptr, prev.len)
    case Failure(e) => AllowFailure(e, start, size)
    case Trap => AllowFailure(FAIL, start, size)
  }

  function Allow(b: Board, p: Process, kind: AllowKind, present: bool, driverNum: nat, allowNum: nat, start: nat, size: nat,
                 reaction: Reaction): (AllowReturn, Process)
    requires Sized(b, p)
  {
    if !present then (AllowFailure(NODEVICE, start, size), p)
    else
      var (built, p1) := Build(p, kind, start, size);
      if !built.Success? then (AllowFailure(if built.Failure? then built.error else FAIL, start, size), p1)
      else
        var buffer := SavedAllow(start, size);
        var (r, q) := SwapAllow(p1, kind, driverNum, allowNum, buffer);
        if r == Failure(NOMEM) then
          var p2 := React(b, p1, reaction.enters);
          if NewAllocation(b, p1, reaction) then
            var (r2, q2) := SwapAllow(p2, kind, driverNum, allowNum, buffer);
            (FinishAllow(r2, start, size), q2)
          else (AllowFailure(NOMEM, start, size), p2)
        else (FinishAllow(r, start, size), q)
  }

  predicate AllowReacts(p: Process, kind: AllowKind, present: bool, d: nat, n: nat, start: nat, size: nat)
    requires |p.memory| == |p.grants|
  {
    var (built, p1) := Build(p, kind, start, size);
    present && built.Success? && SwapAllow(p1, kind, d, n, SavedAllow(start, size)).0 == Failure(NOMEM)
  }

  // Replacing the allow entries of one grant by validated ones.
  lemma AllowsReplaced(b: Board, p: Process, g: nat, m: GrantMemory)
    requires ProcInv(b, p) && g < |p.grants| && Allocated(p.grants[g])
    requires m.upcalls == p.memory[g].upcalls && Shaped(m, b.grants[g].counts)
    requires forall a :: a in m.allowRws ==> BufferOk(p, RwAllow, a)
    requires forall a :: a in m.allowRos ==> BufferOk(p, RoAllow, a)
    ensures var q := p.(memory := p.memory[g := m]);
            ProcInv(b, q) && forall id :: Saved(q, id) == Saved(p, id)
  {
  }

  lemma UpdateMember<X>(s: seq<X>, i: nat, x: X)
    requires i < |s|
    ensures forall a :: a in s[i := x] ==> a == x || a in s
  {
  }

  // The two outcomes of a swap on a grant's memory: one entry, or nothing.
  lemma SwapAllowEffect(b: Board, p: Process, kind: AllowKind, driverNum: nat, allowNum: nat, buffer: SavedAllow)
    requires GrantInv(b, p)
    ensures var (r, q) := SwapAllow(p, kind, driverNum, allowNum, buffer);
            && !r.Trap? && (!r.Success? ==> q == p)
            && (r.Success? ==>
                  var g := LookupGrant(p, driverNum);
                  && g.Some? && allowNum < |p.memory[g.value].Allows(kind)|
                  && r.value == p.memory[g.value].Allows(kind)[allowNum]
                  && q == p.(memory := p.memory[g.value := p.memory[g.value].WithAllow(kind, allowNum, buffer)]))
  {
  }

  // A validated buffer may be swapped in without breaking any invariant, and no
  // registered upcall changes.
  lemma SwapAllowKeeps(b: Board, p: Process, kind: AllowKind, driverNum: nat, allowNum: nat, buffer: SavedAllow)
    requires ProcInv(b, p) && BufferOk(p, kind, buffer)
    ensures var q := SwapAllow(p, kind, driverNum, allowNum, buffer).1;
            ProcInv(b, q) && SameOutside(p, q) && forall id :: Saved(q, id) == Saved(p, id)
  {
    SwapAllowEffect(b, p, kind, driverNum, allowNum, buffer);
    if SwapAllow(p, kind, driverNum, allowNum, buffer).0.Success? {
      var g := LookupGrant(p, driverNum).value;
      UpdateMember(p.memory[g].Allows(kind), allowNum, buffer);
      AllowsReplaced(b, p, g, p.memory[g].WithAllow(kind, allowNum, buffer));
    }
  }

  // -------------------------------------------------- the whole allow call

  // Nothing but what allow may touch differs: memory layout and grants.
  predicate SameTasks(p: Process, q: Process) {
    q == p.(highWater := q.highWater, kernelBreak := q.kernelBreak, mpu := q.mpu, grants := q.grants, memory := q.memory)
  }

  ghost predicate Kept(b: Board, p: Process, q: Process) {
    && |p.memory| == |p.grants|
    && ProcInv(b, q) && SameTasks(p, q) && p.highWater <= q.highWater
    && forall id :: Saved(q, id) == Saved(p, id)
  }

  lemma SwapKept(b: Board, p: Process, p1: Process, kind: AllowKind, driverNum: nat, allowNum: nat, buffer: SavedAllow)
    requires ProcInv(b, p) && Kept(b, p, p1) && BufferOk(p1, kind, buffer)
    ensures Kept(b, p, SwapAllow(p1, kind, driverNum, allowNum, buffer).1)
  {
    SwapAllowKeeps(b, p1, kind, driverNum, allowNum, buffer);
  }

  lemma ReactKept(b: Board, p: Process, p1: Process, enters: seq<nat>)
    requires ValidBoard(b) && ProcInv(b, p) && Kept(b, p, p1)
    ensures Kept(b, p, React(b, p1, enters))
  {
    ReactKeeps(b, p1, enters);
  }

  // A validated range is inside memory the process cannot give back.
  lemma BuiltKept(b: Board, p: Process, kind: AllowKind, start: nat, size: nat)
    requires ProcInv(b, p) && start < WORD && size < WORD
    ensures var (built, p1) := Build(p, kind, start, size);
            Kept(b, p, p1) && (built.Success? ==> BufferOk(p1, kind, SavedAllow(start, size)))
  {
  }

  // Any allow keeps every invariant: the kernel never holds a buffer outside
  // memory the process has given up the right to shrink.
  lemma AllowKeeps(b: Board, p: Process, kind: AllowKind, present: bool, driverNum: nat, allowNum: nat, start: nat,
                   size: nat, reaction: Reaction)
    requires ValidBoard(b) && ProcInv(b, p) && start < WORD && size < WORD
    ensures Kept(b, p, Allow(b, p, kind, present, driverNum, allowNum, start, size, reaction).1)
  {
    BuiltKept(b, p, kind, start, size);
    var (built, p1) := Build(p, kind, start, size);
    if present && built.Success? {
      SwapKept(b, p, p1, kind, driverNum, allowNum, SavedAllow(start, size));
      ReactKept(b, p, p1, reaction.enters);
      ReactKeeps(b, p1, reaction.enters);
      SwapKept(b, p, React(b, p1, reaction.enters), kind, driverNum, allowNum, SavedAllow(start, size));
    }
  }

  ghost predicate SameBuffers(p: Process, q: Process, kind: AllowKind)
    requires |p.memory| == |p.grants| && |q.memory| == |q.grants|
  {
    forall d: nat, n: nat :: SavedBuffer(q, kind, d, n) == SavedBuffer(p, kind, d, n)
  }

  // What an allow returns: on success the buffer held before (null and empty at
  // first) with the new one in its place and every other slot untouched; on
  // failure the arguments, with every slot untouched.
  ghost predicate BufferSwapped(p: Process, q: Process, kind: AllowKind, driverNum: nat, allowNum: nat, start: nat,
                                size: nat, ret: AllowReturn)
    requires |p.memory| == |p.grants| && |q.memory| == |q.grants|
  {
    && (ret.AllowSuccess? ==>
          && SavedAllow(ret.ptr, ret.len) == SavedBuffer(p, kind, driverNum, allowNum)
          && SavedBuffer(q, kind, driverNum, allowNum) == SavedAllow(start, size)
          && forall d: nat, n: nat :: (d, n) != (driverNum, allowNum) ==>
               SavedBuffer(q, kind, d, n) == SavedBuffer(p, kind, d, n))
    && (ret.AllowFailure? ==> ret.ptr == start && ret.len == size && SameBuffers(p, q, kind))
  }

  lemma SwapOneBuffer(b: Board, p: Process, kind: AllowKind, driverNum: nat, allowNum: nat, start: nat, size: nat)
    requires GrantInv(b, p)
    ensures var (r, q) := SwapAllow(p, kind, driverNum, allowNum, SavedAllow(start, size));
            && |q.memory| == |q.grants|
            && BufferSwapped(p, q, kind, driverNum, allowNum, start, size, FinishAllow(r, start, size))
  {
    SwapAllowEffect(b, p, kind, driverNum, allowNum, SavedAllow(start, size));
    var (r, q) := SwapAllow(p, kind, driverNum, allowNum, SavedAllow(start, size));
    if r.Success? {
      var g := LookupGrant(p, driverNum).value;
      forall d: nat, n: nat | (d, n) != (driverNum, allowNum)
        ensures SavedBuffer(q, kind, d, n) == SavedBuffer(p, kind, d, n)
      {
        if d != driverNum && LookupGrant(p, d).Some? { assert LookupGrant(p, d).value != g; }
      }
    }
  }

  lemma BuffersAfterNew(b: Board, p: Process, kind: AllowKind, g: nat)
    requires ValidBoard(b) && ProcInv(b, p)
    ensures var q := NewGrant(b, p, g).1; |q.memory| == |q.grants| && SameBuffers(p, q, kind)
  {
    NewGrantEffect(b, p, g);
    NewGrantKeeps(b, p, g);
    var q := NewGrant(b, p, g).1;
    if q != p {
      forall d: nat, n: nat
        ensures SavedBuffer(q, kind, d, n) == SavedBuffer(p, kind, d, n)
      {
        var before := LookupGrant(p, d);
        if before.Some? {
          assert q.grants[before.value] == p.grants[before.value];
          LookupUnique(q.grants, before.value);
        }
      }
    }
  }

  lemma {:induction false} BuffersAfterReact(b: Board, p: Process, kind: AllowKind, enters: seq<nat>)
    requires ValidBoard(b) && ProcInv(b, p)
    ensures SameBuffers(p, React(b, p, enters), kind)
    decreases |enters|
  {
    if enters != [] {
      BuffersAfterNew(b, p, kind, enters[0]);
      NewGrantKeepsAll(b, p, enters[0]);
      BuffersAfterReact(b, NewGrant(b, p, enters[0]).1, kind, enters[1..]);
    }
  }

  // Reaching p1 without touching a slot, then swapping, is swapping from p.
  lemma SwapFrom(p: Process, p1: Process, q: Process, kind: AllowKind, driverNum: nat, allowNum: nat, start: nat,
                 size: nat, ret: AllowReturn)
    requires |p.memory| == |p.grants| && |p1.memory| == |p1.grants| && |q.memory| == |q.grants|
    requires SameBuffers(p, p1, kind) && BufferSwapped(p1, q, kind, driverNum, allowNum, start, size, ret)
    ensures BufferSwapped(p, q, kind, driverNum, allowNum, start, size, ret)
  {
  }

  lemma AllowContract(b: Board, p: Process, kind: AllowKind, present: bool, driverNum: nat, allowNum: nat, start: nat,
                      size: nat, reaction: Reaction)
    requires ValidBoard(b) && ProcInv(b, p) && start < WORD && size < WORD
    ensures var (ret, q) := Allow(b, p, kind, present, driverNum, allowNum, start, size, reaction);
            |q.memory| == |q.grants| && BufferSwapped(p, q, kind, driverNum, allowNum, start, size, ret)
  {
    BuiltKept(b, p, kind, start, size);
    var (built, p1) := Build(p, kind, start, size);
    assert SameBuffers(p, p1, kind);
    if present && built.Success? {
      var (ret, q) := Allow(b, p, kind, present, driverNum, allowNum, start, size, reaction);
      var p2 := React(b, p1, reaction.enters);
      SwapOneBuffer(b, p1, kind, driverNum, allowNum, start, size);
      BuffersAfterReact(b, p1, kind, reaction.enters);
      ReactKeeps(b, p1, reaction.enters);
      SwapOneBuffer(b, p2, kind, driverNum, allowNum, start, size);
      if SwapAllow(p1, kind, driverNum, allowNum, SavedAllow(start, size)).0 != Failure(NOMEM) {
        SwapFrom(p, p1, q, kind, driverNum, allowNum, start, size, ret);
      } else if NewAllocation(b, p1, reaction) {
        SwapFrom(p, p2, q, kind, driverNum, allowNum, start, size, ret);
      }
    }
  }

  // ------------------------------------------------ exactly when calls succeed

  // The driver's grant is there and nobody has it open.
  predicate GrantOpenable(p: Process, driverNum: nat) {
    var g := LookupGrant(p, driverNum);
    IsRunning(p.state) && g.Some? && !Entered(p.grants[g.value])
  }

  // Four bytes at the pointer lie in unprotected flash or below the app break.
  predicate PointerInside(m: Image, appBreak: nat, fnPtr: nat) {
    || (m.flashStart + m.protectedSize <= fnPtr && fnPtr + 4 <= m.flashStart + m.flashLen)
    || (m.memStart <= fnPtr && fnPtr + 4 <= appBreak)
  }

  lemma ValidPointerIff(p: Process, fnPtr: nat)
    requires M.MemInv(p)
    ensures ValidFunctionPointer(p, fnPtr) <==> PointerInside(p.image, p.appBreak, fnPtr)
  {
    if fnPtr < WORD { M.WrapsOnce(fnPtr, 4); }
  }

  // With the grant in place a subscribe succeeds exactly when the pointer is null,
  // in unprotected flash or below the app break, and the driver has that upcall;
  // the first thing wrong names the error.
  lemma SubscribeOutcome(b: Board, p: Process, present: bool, id: UpcallId, upcall: SavedUpcall, reaction: Reaction)
    requires ProcInv(b, p) && GrantOpenable(p, id.driverNum)
    ensures var ret := Subscribe(b, p, present, id, upcall, reaction).0;
            var known := id.subscribeNum < |p.memory[LookupGrant(p, id.driverNum).value].upcalls|;
            var m, fnPtr := p.image, upcall.fnPtr;
            var pointerOk := || fnPtr == 0
                             || (m.flashStart + m.protectedSize <= fnPtr && fnPtr + 4 <= m.flashStart + m.flashLen)
                             || (m.memStart <= fnPtr && fnPtr + 4 <= p.appBreak);
            && (ret.SubscribeSuccess? <==> pointerOk && present && known)
            && (ret.SubscribeFailure? ==>
                  ret.error == if !pointerOk then INVAL else if !present then NODEVICE else NOSUPPORT)
  {
    ValidPointerIff(p, upcall.fnPtr);
  }

  // However the grant gets there, only such a pointer is ever registered.
  lemma SubscribedInside(b: Board, p: Process, present: bool, id: UpcallId, upcall: SavedUpcall, reaction: Reaction)
    requires ProcInv(b, p) && Subscribe(b, p, present, id, upcall, reaction).0.SubscribeSuccess? && upcall.fnPtr != 0
    ensures PointerInside(p.image, p.appBreak, upcall.fnPtr)
  {
    ValidPointerIff(p, upcall.fnPtr);
  }

  lemma {:induction false} CountOneMore(grants: seq<GrantEntry>, g: nat, e: GrantEntry)
    requires g < |grants| && !Allocated(grants[g]) && Allocated(e)
    ensures AllocatedCount(grants[g := e]) == AllocatedCount(grants) + 1
    decreases |grants|
  {
    var n := |grants| - 1;
    if g < n {
      CountOneMore(grants[..n], g, e);
      assert grants[g := e][..n] == grants[..n][g := e];
    } else {
      assert grants[g := e][..n] == grants[..n];
    }
  }

  // A capsule that enters its grant for the first time when asked.
  lemma FirstReaction(b: Board, p: Process, g: nat)
    requires ValidBoard(b) && ProcInv(b, p) && IsRunning(p.state) && g < |p.grants| && !Allocated(p.grants[g])
    requires NewGrant(b, p, g).0.Success?
    ensures var (q, driver) := (React(b, p, [g]), b.grants[g].driverNum);
            && q == NewGrant(b, p, g).1 && FirstUse(b, p, q, g)
            && LookupGrant(p, driver).None? && LookupGrant(q, driver) == Some(g) && GrantOpenable(q, driver)
            && q.memory[g] == DefaultMemory(b.grants[g].counts) && NewAllocation(b, p, Reaction([g], true))
  {
    NewGrantOutcome(b, p, g);
    NewGrantEffect(b, p, g);
    var q := NewGrant(b, p, g).1;
    NewGrantSized(b, p, g);
    assert [g][1..] == [];
    assert React(b, p, [g]) == React(b, q, []) == q;
    NewGrantKeeps(b, p, g);
    LookupUnique(q.grants, g);
    CountOneMore(p.grants, g, q.grants[g]);
  }

  // The first subscribe of a process to a driver: the capsule is asked, allocates,
  // and the swap is tried again and returns the Null Upcall.
  lemma FirstSubscribe(b: Board, p: Process, g: nat, n: nat, upcall: SavedUpcall)
    requires ValidBoard(b) && ProcInv(b, p) && IsRunning(p.state) && g < |p.grants| && !Allocated(p.grants[g])
    requires NewGrant(b, p, g).0.Success? && n < b.grants[g].counts.upcalls
    requires upcall.fnPtr == 0 || PointerInside(p.image, p.appBreak, upcall.fnPtr)
    ensures var id := UpcallId(b.grants[g].driverNum, n);
            var (ret, q) := Subscribe(b, p, true, id, upcall, Reaction([g], true));
            ret == SubscribeSuccess(0, 0) && Allocated(q.grants[g]) && |q.memory| == |q.grants| && Saved(q, id) == upcall
  {
    var id := UpcallId(b.grants[g].driverNum, n);
    ValidPointerIff(p, upcall.fnPtr);
    FirstReaction(b, p, g);
    NewGrantKeepsAll(b, p, g);
    SwapUpcallEffect(b, React(b, p, [g]), id, upcall);
    SubscribeContract(b, p, true, id, upcall, Reaction([g], true));
  }

  // The same for the first allow; what is returned is the null, empty buffer.
  lemma FirstAllow(b: Board, p: Process, kind: AllowKind, g: nat, n: nat, start: nat, size: nat)
    requires ValidBoard(b) && ProcInv(b, p) && IsRunning(p.state) && g < |p.grants| && !Allocated(p.grants[g])
    requires start < WORD && size < WORD && Build(p, kind, start, size).0.Success?
    requires NewGrant(b, Build(p, kind, start, size).1, g).0.Success?
    requires n < |DefaultMemory(b.grants[g].counts).Allows(kind)|
    ensures var d := b.grants[g].driverNum;
            var (ret, q) := Allow(b, p, kind, true, d, n, start, size, Reaction([g], true));
            && ret == AllowSuccess(0, 0) && |q.memory| == |q.grants|
            && SavedBuffer(q, kind, d, n) == SavedAllow(start, size)
  {
    BuiltKept(b, p, kind, start, size);
    var p1 := Build(p, kind, start, size).1;
    FirstReaction(b, p1, g);
    NewGrantKeepsAll(b, p1, g);
    SwapAllowEffect(b, React(b, p1, [g]), kind, b.grants[g].driverNum, n, SavedAllow(start, size));
    AllowContract(b, p, kind, true, b.grants[g].driverNum, n, start, size, Reaction([g], true));
  }

  lemma {:induction false} CountSame(grants: seq<GrantEntry>, grants': seq<GrantEntry>)
    requires |grants| == |grants'| && forall g :: 0 <= g < |grants| ==> (grants[g].ptr == 0 <==> grants'[g].ptr == 0)
    ensures AllocatedCount(grants) == AllocatedCount(grants')
    decreases |grants|
  {
    if grants != [] { CountSame(grants[..|grants| - 1], grants'[..|grants| - 1]); }
  }

  // Asked in vain, because the capsule refuses or allocates nothing, the call fails
  // for want of memory.
  lemma AskedInVain(b: Board, p: Process, id: UpcallId, upcall: SavedUpcall, reaction: Reaction)
    requires ValidBoard(b) && ProcInv(b, p) && (upcall.fnPtr == 0 || PointerInside(p.image, p.appBreak, upcall.fnPtr))
    requires SwapUpcall(p, id, upcall).0 == Failure(NOMEM)
    requires var q := React(b, p, reaction.enters);
             !reaction.ok || forall g :: 0 <= g < |p.grants| ==> (p.grants[g].ptr == 0 <==> q.grants[g].ptr == 0)
    ensures Subscribe(b, p, true, id, upcall, reaction).0 == SubscribeFailure(NOMEM, upcall.fnPtr, upcall.appdata)
  {
    ValidPointerIff(p, upcall.fnPtr);
    ReactKeeps(b, p, reaction.enters);
    if reaction.ok { CountSame(p.grants, React(b, p, reaction.enters).grants); }
  }

  // With the grant in place an allow succeeds exactly when the range is empty or
  // all below the app break, or in unprotected flash if read-only, and the
  // driver has that buffer slot.
  lemma AllowOutcome(b: Board, p: Process, kind: AllowKind, present: bool, driverNum: nat, allowNum: nat, start: nat,
                     size: nat, reaction: Reaction)
    requires ProcInv(b, p) && GrantOpenable(p, driverNum) && start < WORD && size < WORD
    ensures var ret := Allow(b, p, kind, present, driverNum, allowNum, start, size, reaction).0;
            var known := allowNum < |p.memory[LookupGrant(p, driverNum).value].Allows(kind)|;
            var inside := || size == 0 || (p.image.memStart <= start && start + size <= p.appBreak)
                          || (kind == RoAllow && p.image.flashStart + p.image.protectedSize <= start
                              && start + size <= FlashEnd(p));
            && (ret.AllowSuccess? <==> present && inside && known)
            && (ret.AllowFailure? ==>
                  ret.error == if !present then NODEVICE else if !inside then INVAL else NOSUPPORT)
  {
    M.WrapsOnce(start, size);
  }
}
