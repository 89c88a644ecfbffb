// Grant operations (kernel/src/grant.rs) and the subscribe and allow arms of
// handle_syscall (kernel/src/kernel.rs) on the process object, each proved
// against the function on the process's value.

module KernelCalls {
  import opened Wrappers
  import opened Powers
  import opened ProcessTypes
  import opened ProcessStandards
  import opened Syscalls
  import S = ProcessSpec
  import L = GrantLayout

  // ----------------------------------------------------------------- grants

  // ProcessGrant::new.
  method NewGrant(p: ProcessStandard, g: nat) returns (r: Reply<(), Error>)
    requires p.Valid() && S.Sized(p.board, p.Value())
    modifies p`kernelMemoryBreak, p`memory, p.mpuConfig, p.grantPointers
    ensures p.Valid() && (r, p.Value()) == S.NewGrant(p.board, old(p.Value()), g)
  {
    var known := p.GrantIsAllocated(g);
    if known.None? { return Failure(InactiveApp); }
    if known.value { return Success(()); }
    var d := p.board.grants[g];
    var size := L.GrantSize(d.counts, d.tSize, d.tAlign);
    if size >= WORD { return Trap; }
    var a := p.AllocateGrant(g, d.driverNum, size, L.GrantAlign(d.tAlign));
    match a
    case Trap => return Trap;
    case Failure(_) => return Failure(OutOfMemory);
    case Success(_) => r := InitializeGrant(p, g, d.counts);
  }

  method InitializeGrant(p: ProcessStandard, g: nat, counts: L.Counts) returns (r: Reply<(), Error>)
    requires p.Valid() && g < |p.memory|
    modifies p`memory, p.grantPointers
    ensures p.Valid() && (r, p.Value()) == S.InitializeGrant(old(p.Value()), g, counts)
  {
    var e := p.EnterGrant(g);
    match e
    case Trap => return Trap;
    case Failure(err) => return Failure(err);
    case Success(_) =>
      p.memory := p.memory[g := S.DefaultMemory(counts)];
      p.LeaveGrant(g);
      return Success(());
  }

  method EnterGrantKernelManaged(p: ProcessStandard, driverNum: nat) returns (r: Reply<nat, ErrorCode>)
    requires p.Valid()
    modifies p.grantPointers
    ensures p.Valid() && (r, p.Value()) == S.EnterKernelManaged(old(p.Value()), driverNum)
  {
    var found := p.LookupGrantFromDriverNum(driverNum);
    if found.None? { return Failure(NOMEM); }
    var known := p.GrantIsAllocated(found.value);
    if known.None? { return Failure(FAIL); }
    var e := p.EnterGrant(found.value);
    if e.Success? { return Success(found.value); }
    return Failure(NOMEM);
  }

  // grant::subscribe: the saved upcall is replaced and the previous returned.
  method SwapUpcall(p: ProcessStandard, id: UpcallId, upcall: SavedUpcall) returns (r: Reply<SavedUpcall, ErrorCode>)
    requires p.Valid() && |p.memory| == p.grantPointers.Length
    modifies p`memory, p.grantPointers
    ensures p.Valid() && (r, p.Value()) == S.SwapUpcall(old(p.Value()), id, upcall)
  {
    var entered := EnterGrantKernelManaged(p, id.driverNum);
    match entered
    case Trap => return Trap;
    case Failure(e) => return Failure(e);
    case Success(g) =>
      var saved := p.memory[g].upcalls;
      if id.subscribeNum < |saved| {
        r := Success(saved[id.subscribeNum]);
        p.memory := p.memory[g := p.memory[g].(upcalls := saved[id.subscribeNum := upcall])];
      } else {
        r := Failure(NOSUPPORT);
      }
      p.LeaveGrant(g);
  }

  // grant::allow_rw.
  method SwapAllowRw(p: ProcessStandard, driverNum: nat, allowNum: nat, buffer: SavedAllow)
    returns (r: Reply<SavedAllow, ErrorCode>)
    requires p.Valid() && |p.memory| == p.grantPointers.Length
    modifies p`memory, p.grantPointers
    ensures p.Valid() && (r, p.Value()) == S.SwapAllow(old(p.Value()), RwAllow, driverNum, allowNum, buffer)
  {
    var entered := EnterGrantKernelManaged(p, driverNum);
    match entered
    case Trap => return Trap;
    case Failure(e) => return Failure(e);
    case Success(g) =>
      var saved := p.memory[g].allowRws;
      if allowNum < |saved| {
        r := Success(saved[allowNum]);
        p.memory := p.memory[g := p.memory[g].(allowRws := saved[allowNum := buffer])];
      } else {
        r := Failure(NOSUPPORT);
      }
      p.LeaveGrant(g);
  }

  // grant::allow_ro.
  method SwapAllowRo(p: ProcessStandard, driverNum: nat, allowNum: nat, buffer: SavedAllow)
    returns (r: Reply<SavedAllow, ErrorCode>)
    requires p.Valid() && |p.memory| == p.grantPointers.Length
    modifies p`memory, p.grantPointers
    ensures p.Valid() && (r, p.Value()) == S.SwapAllow(old(p.Value()), RoAllow, driverNum, allowNum, buffer)
  {
    var entered := EnterGrantKernelManaged(p, driverNum);
    match entered
    case Trap => return Trap;
    case Failure(e) => return Failure(e);
    case Success(g) =>
      var saved := p.memory[g].allowRos;
      if allowNum < |saved| {
        r := Success(saved[allowNum]);
        p.memory := p.memory[g := p.memory[g].(allowRos := saved[allowNum := buffer])];
      } else {
        r := Failure(NOSUPPORT);
      }
      p.LeaveGrant(g);
  }

  // GrantKernelData::schedule_upcall.
  method ScheduleUpcall(p: ProcessStandard, g: nat, subscribeNum: nat, r0: nat, r1: nat, r2: nat)
    returns (r: Reply<(), ErrorCode>)
    requires p.Valid() && S.Sized(p.board, p.Value())
    modifies p.tasks, p.tasks.ring
    ensures p.Valid() && (r, p.Value()) == S.ScheduleUpcall(p.board, old(p.Value()), g, subscribeNum, r0, r1, r2)
  {
    if g >= p.grantPointers.Length || !S.Allocated(p.grantPointers[g]) { return Failure(INVAL); }
    if subscribeNum >= |p.memory[g].upcalls| { return Failure(INVAL); }
    var id := UpcallId(p.board.grants[g].driverNum, subscribeNum);
    var saved := p.memory[g].upcalls[subscribeNum];
    if saved.fnPtr == 0 {
      r := p.EnqueueTask(ReturnValue(id, r0, r1, r2));
    } else {
      r := p.EnqueueTask(Call(FunctionCall(Driver(id), r0, r1, r2, saved.appdata, saved.fnPtr)));
    }
  }

  // ----------------------------------------------------------- handle_syscall

  // try_allocate_grant: did asking the capsule leave one more grant allocated?
  // After a trap the kernel has stopped, and what is returned is never used.
  method TryAllocateGrant(p: ProcessStandard, reaction: Reaction) returns (newAllocation: bool, trapped: bool)
    requires p.Valid() && S.Sized(p.board, p.Value())
    modifies p`kernelMemoryBreak, p`memory, p.mpuConfig, p.grantPointers
    ensures p.Valid() && p.Value() == React(p.board, old(p.Value()), reaction.enters)
    ensures newAllocation == NewAllocation(p.board, old(p.Value()), reaction)
    ensures trapped <==> ReactTraps(p.board, old(p.Value()), reaction.enters)
  {
    var before := p.GrantAllocatedCount();
    ghost var total := React(p.board, p.Value(), reaction.enters);
    ghost var stops := ReactTraps(p.board, p.Value(), reaction.enters);
    trapped := false;
    for i := 0 to |reaction.enters|
      invariant p.Valid() && S.Sized(p.board, p.Value())
      invariant React(p.board, p.Value(), reaction.enters[i..]) == total
      invariant stops <==> trapped || ReactTraps(p.board, p.Value(), reaction.enters[i..])
    {
      NewGrantSized(p.board, p.Value(), reaction.enters[i]);
      var r := NewGrant(p, reaction.enters[i]);
      trapped := trapped || r.Trap?;
    }
    var after := p.GrantAllocatedCount();
    return reaction.ok && CountOrZero(before) != CountOrZero(after), trapped;
  }

  method IsValidUpcallFunctionPointer(p: ProcessStandard, fnPtr: nat) returns (b: bool)
    requires p.Valid()
    ensures b <==> ValidFunctionPointer(p.Value(), fnPtr)
  {
    var end := S.WrapAdd(fnPtr, 4);
    var m := p.image;
    if end >= fnPtr && fnPtr >= m.flashStart + m.protectedSize && end <= m.flashStart + m.flashLen { return true; }
    b := p.InAppOwnedMemory(fnPtr, 4);
  }

  method HandleSubscribe(p: ProcessStandard, present: bool, id: UpcallId, upcall: SavedUpcall, reaction: Reaction)
    returns (ret: SubscribeReturn, trapped: bool)
    requires p.Valid() && S.Sized(p.board, p.Value())
    modifies p`kernelMemoryBreak, p`memory, p.mpuConfig, p.grantPointers, p.tasks, p.tasks.ring
    ensures p.Valid() && (ret, p.Value()) == Subscribe(p.board, old(p.Value()), present, id, upcall, reaction)
    ensures trapped <==>
              && SubscribeReacts(old(p.Value()), present, id, upcall)
              && ReactTraps(p.board, old(p.Value()), reaction.enters)
  {
    trapped := false;
    if upcall.fnPtr != 0 {
      var ok := IsValidUpcallFunctionPointer(p, upcall.fnPtr);
      if !ok { return SubscribeFailure(INVAL, upcall.fnPtr, upcall.appdata), false; }
    }
    if !present { return SubscribeFailure(NODEVICE, upcall.fnPtr, upcall.appdata), false; }
    var r := SwapUpcall(p, id, upcall);
    if r == Failure(NOMEM) {
      var again;
      again, trapped := TryAllocateGrant(p, reaction);
      if !again { return SubscribeFailure(NOMEM, upcall.fnPtr, upcall.appdata), trapped; }
      r := SwapUpcall(p, id, upcall);
    }
    ret := CompleteSubscribe(p, r, id, upcall);
  }

  // Pending calls are dropped only when the subscribe succeeds.
  method CompleteSubscribe(p: ProcessStandard, r: Reply<SavedUpcall, ErrorCode>, id: UpcallId, upcall: SavedUpcall)
    returns (ret: SubscribeReturn)
    requires p.Valid()
    modifies p.tasks, p.tasks.ring
    ensures p.Valid() && (ret, p.Value()) == FinishSubscribe(r, old(p.Value()), id, upcall)
  {
    match r
    case Success(prev) =>
      p.RemovePendingUpcalls(id);
      return SubscribeSuccess(prev.fnPtr, prev.appdata);
    case Failure(e) => return SubscribeFailure(e, upcall.fnPtr, upcall.appdata);
    case Trap => return SubscribeFailure(FAIL, upcall.fnPtr, upcall.appdata);
  }

  method HandleReadWriteAllow(p: ProcessStandard, present: bool, driverNum: nat, allowNum: nat, start: nat, size: nat,
                              reaction: Reaction)
    returns (ret: AllowReturn, trapped: bool)
    requires p.Valid() && S.Sized(p.board, p.Value())
    modifies p`allowHighWaterMark, p`kernelMemoryBreak, p`memory, p.mpuConfig, p.grantPointers
    ensures p.Valid()
    ensures (ret, p.Value())
         == Allow(p.board, old(p.Value()), RwAllow, present, driverNum, allowNum, start, size, reaction)
    ensures trapped <==>
              && AllowReacts(old(p.Value()), RwAllow, present, driverNum, allowNum, start, size)
              && ReactTraps(p.board, S.Build(old(p.Value()), RwAllow, start, size).1, reaction.enters)
  {
    trapped := false;
    if !present { return AllowFailure(NODEVICE, start, size), false; }
    var built := p.BuildReadWriteProcessBuffer(start, size);
    if !built.Success? { return AllowFailure(if built.Failure? then built.error else FAIL, start, size), false; }
    var buffer := SavedAllow(start, size);
    var r := SwapAllowRw(p, driverNum, allowNum, buffer);
    if r == Failure(NOMEM) {
      var again;
      again, trapped := TryAllocateGrant(p, reaction);
      if !again { return AllowFailure(NOMEM, start, size), trapped; }
      r := SwapAllowRw(p, driverNum, allowNum, buffer);
    }
    return FinishAllow(r, start, size), trapped;
  }

  method HandleReadOnlyAllow(p: ProcessStandard, present: bool, driverNum: nat, allowNum: nat, start: nat, size: nat,
                             reaction: Reaction)
    returns (ret: AllowReturn, trapped: bool)
    requires p.Valid() && S.Sized(p.board, p.Value())
    modifies p`allowHighWaterMark, p`kernelMemoryBreak, p`memory, p.mpuConfig, p.grantPointers
    ensures p.Valid()
    ensures (ret, p.Value())
         == Allow(p.board, old(p.Value()), RoAllow, present, driverNum, allowNum, start, size, reaction)
    ensures trapped <==>
              && AllowReacts(old(p.Value()), RoAllow, present, driverNum, allowNum, start, size)
              && ReactTraps(p.board, S.Build(old(p.Value()), RoAllow, start, size).1, reaction.enters)
  {
    trapped := false;
    if !present { return AllowFailure(NODEVICE, start, size), false; }
    var built := p.BuildReadOnlyProcessBuffer(start, size);
    if !built.Success? { return AllowFailure(if built.Failure? then built.error else FAIL, start, size), false; }
    var buffer := SavedAllow(start, size);
    var r := SwapAllowRo(p, driverNum, allowNum, buffer);
    if r == Failure(NOMEM) {
      var again;
      again, trapped := TryAllocateGrant(p, reaction);
      if !again { return AllowFailure(NOMEM, start, size), trapped; }
      r := SwapAllowRo(p, driverNum, allowNum, buffer);
    }
    return FinishAllow(r, start, size), trapped;
  }
}
