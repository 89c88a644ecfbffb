// Laws of the task queue, the state of a process and its grant entries, whatever
// the process (kernel/src/process_standard.rs).

module LifeCycle {
  import opened Wrappers
  import opened ProcessTypes
  import opened ProcessSpec

  // ------------------------------------------------------------- task queue

  // The tasks in the order the scheduler gets them.
  function Drained(p: Process): seq<Task>
    decreases |p.tasks|
  {
    match Dequeue(p)
    case (None, _) => []
    case (Some(t), q) => [t] + Drained(q)
  }

  lemma {:induction false} DrainedIsQueue(p: Process)
    ensures Drained(p) == p.tasks
    decreases |p.tasks|
  {
    if p.tasks != [] {
      DrainedIsQueue(Dequeue(p).1);
      assert p.tasks == [p.tasks[0]] + p.tasks[1..];
    }
  }

  // Tasks come out in the order they went in, none lost and none twice. One is
  // taken in unless the process is inactive or nine are waiting, and the error
  // tells which.
  lemma FirstInFirstOut(p: Process, t: Task)
    ensures var (r, q) := Enqueue(p, t);
            && (r.Success? <==> p.state != Faulted && p.state != Terminated && |p.tasks| < 9)
            && (r.Failure? ==> r.error == if p.state == Faulted || p.state == Terminated then NODEVICE else NOMEM)
            && !r.Trap? && q.(tasks := []) == p.(tasks := [])
            && Drained(q) == if r.Success? then Drained(p) + [t] else Drained(p)
    ensures Ready(p) <==> Drained(p) != [] || p.state == Running
  {
    DrainedIsQueue(p);
    DrainedIsQueue(Enqueue(p, t).1);
  }

  // Removing the pending calls of an upcall drops exactly those, and keeps the
  // order of the others.
  lemma PendingRemovedLast(s: seq<Task>, t: Task, id: UpcallId)
    ensures WithoutUpcall([], id) == []
    ensures WithoutUpcall(s + [t], id) ==
              WithoutUpcall(s, id) + if t.Call? && t.call.source == Driver(id) then [] else [t]
  {
    assert (s + [t])[..|s|] == s;
  }

  // The task answers a wait for this upcall: a call of it or its return value.
  predicate Answers(t: Task, id: UpcallId) {
    match t
    case Call(call) => call.source == Driver(id)
    case ReturnValue(i, _, _, _) => i == id
    case Ipc(_, _) => false
  }

  // A wait takes the earliest task that answers it, and nothing else.
  lemma EarliestAnswer(p: Process, id: UpcallId)
    ensures var (r, q) := RemoveUpcall(p, id);
            && (r.None? <==> forall t :: t in p.tasks ==> !Answers(t, id))
            && (r.None? ==> q == p)
            && (r.Some? ==> exists k :: 0 <= k < |p.tasks| && EarliestAt(p.tasks, id, k) && r.value == p.tasks[k]
                                        && q == p.(tasks := p.tasks[..k] + p.tasks[k + 1..]))
  {
    var k := FirstWaking(p.tasks, id, 0);
    assert forall t :: Wakes(t, id) <==> Answers(t, id);
    if k.Some? { assert p.tasks[k.value] in p.tasks && EarliestAt(p.tasks, id, k.value); }
  }

  predicate EarliestAt(tasks: seq<Task>, id: UpcallId, k: nat) {
    k < |tasks| && Answers(tasks[k], id) && forall j :: 0 <= j < k ==> !Answers(tasks[j], id)
  }

  // ------------------------------------------------------------------ state

  // Stopping an active process holds it where it was: until it is resumed
  // neither yielding nor stopping again has an effect, and resuming restores
  // the whole process. An inactive process does not react.
  lemma StopHolds(p: Process, id: UpcallId)
    ensures var q := Stop(p);
            && (p.state.Running? || p.state.Yielded? || p.state.YieldedFor? ==> q.state.Stopped? && Resume(q) == p)
            && (p.state.Stopped? || p.state == Faulted || p.state == Terminated ==> q == p)
            && Stop(q) == q && SetYielded(q) == q && SetYieldedFor(q, id) == q
            && q.(state := p.state) == p
    ensures p.state.Stopped? ==> Stop(Resume(p)) == p
    ensures !p.state.Stopped? ==> Resume(p) == p
  {
  }

  // Only a running process yields, to any upcall or to one; nothing else changes.
  lemma YieldsOnlyRunning(p: Process, id: UpcallId)
    ensures var q := SetYielded(p);
            && (q != p <==> p.state.Running?) && q.(state := p.state) == p
            && (q.state.Yielded? <==> p.state.Running? || p.state.Yielded?)
    ensures var q := SetYieldedFor(p, id);
            && (q != p <==> p.state.Running?) && q.(state := p.state) == p
            && (q.state == YieldedFor(id) <==> p.state.Running? || p.state == YieldedFor(id))
  {
  }

  // Termination empties the queue, gives up every grant and records the
  // completion code, and leaves the rest; a terminated process is left alone.
  lemma TerminateOutcome(p: Process, code: Option<nat>)
    ensures var q := Terminate(p, code);
            && (p.state == Terminated ==> q == p)
            && (p.state != Terminated ==>
                  && q.state == Terminated && q.tasks == [] && q.completionCode == Some(code)
                  && |q.grants| == |p.grants|
                  && (forall g :: 0 <= g < |q.grants| ==> q.grants[g].driverNum == 0 && q.grants[g].ptr == 0)
                  && q.(state := p.state, tasks := p.tasks, completionCode := p.completionCode, grants := p.grants) == p)
  {
  }

  // ------------------------------------------------------------ grant entries

  // Entering sets the low bit of the entry and returns the pointer; the first
  // thing in the way names the error.
  lemma EnterOutcome(p: Process, g: nat)
    ensures var (r, q) := EnterGrant(p, g);
            var active := p.state != Faulted && p.state != Terminated;
            && !r.Trap?
            && (r.Success? <==> active && g < |p.grants| && p.grants[g].ptr % 2 == 0)
            && (r.Failure? ==> q == p && r.error == if !active then InactiveApp
                                                    else if g >= |p.grants| then AddressOutOfBounds else AlreadyInUse)
            && (r.Success? ==> && r.value == p.grants[g].ptr && q.grants[g].ptr == p.grants[g].ptr + 1
                               && q.grants[g].driverNum == p.grants[g].driverNum
                               && q == p.(grants := p.grants[g := q.grants[g]]))
  {
  }

  // Leaving clears the low bit of the entry and touches no other; an inactive
  // process is left alone.
  lemma LeaveOutcome(p: Process, g: nat)
    ensures var q := LeaveGrant(p, g);
            && (p.state == Faulted || p.state == Terminated || g >= |p.grants| ==> q == p)
            && (IsRunning(p.state) && g < |p.grants| ==>
                  && q == p.(grants := p.grants[g := q.grants[g]])
                  && q.grants[g].driverNum == p.grants[g].driverNum
                  && q.grants[g].ptr % 2 == 0 && q.grants[g].ptr / 2 == p.grants[g].ptr / 2)
  {
  }

  // A driver's saved upcall is swapped exactly when some allocated entry is the
  // driver's, the process is active, the first such entry is not entered and has
  // that upcall; the first thing in the way names the error.
  lemma SwapOutcome(p: Process, id: UpcallId, upcall: SavedUpcall)
    requires |p.memory| == |p.grants|
    ensures var r := SwapUpcall(p, id, upcall).0;
            var found := exists g :: 0 <= g < |p.grants| && p.grants[g].ptr != 0 && p.grants[g].driverNum == id.driverNum;
            && !r.Trap? && (!found ==> r == Failure(NOMEM))
            && (found && (p.state == Faulted || p.state == Terminated) ==> r == Failure(FAIL))
    ensures forall g: nat :: IsRunning(p.state) && FirstEntry(p.grants, id.driverNum, g) ==>
              var r := SwapUpcall(p, id, upcall).0;
              && (p.grants[g].ptr % 2 == 1 ==> r == Failure(NOMEM))
              && (p.grants[g].ptr % 2 == 0 ==>
                    && (r.Success? <==> id.subscribeNum < |p.memory[g].upcalls|)
                    && (r.Failure? ==> r.error == NOSUPPORT))
  {
    forall g: nat | FirstEntry(p.grants, id.driverNum, g)
      ensures LookupGrant(p, id.driverNum) == Some(g)
    {
      FirstFound(p.grants, id.driverNum, g, 0);
    }
  }

  // The same for a buffer: read-write ones and read-only ones are kept apart.
  lemma SwapAllowOutcome(p: Process, kind: AllowKind, driverNum: nat, n: nat, buffer: SavedAllow, g: nat)
    requires |p.memory| == |p.grants| && FirstEntry(p.grants, driverNum, g)
    ensures var (r, q) := SwapAllow(p, kind, driverNum, n, buffer);
            var mine := if kind == RwAllow then p.memory[g].allowRws else p.memory[g].allowRos;
            && (r.Success? <==> IsRunning(p.state) && p.grants[g].ptr % 2 == 0 && n < |mine|)
            && (r.Failure? ==> q == p && r.error == if !IsRunning(p.state) then FAIL
                                                    else if p.grants[g].ptr % 2 == 1 then NOMEM else NOSUPPORT)
            && (r.Success? ==>
                  && r.value == mine[n] && q == p.(memory := p.memory[g := q.memory[g]])
                  && q.memory[g] == if kind == RwAllow then p.memory[g].(allowRws := mine[n := buffer])
                                    else p.memory[g].(allowRos := mine[n := buffer]))
  {
    FirstFound(p.grants, driverNum, g, 0);
  }

  predicate FirstEntry(grants: seq<GrantEntry>, driverNum: nat, g: nat) {
    && g < |grants| && grants[g].ptr != 0 && grants[g].driverNum == driverNum
    && forall h :: 0 <= h < g ==> !(grants[h].ptr != 0 && grants[h].driverNum == driverNum)
  }

  lemma {:induction false} FirstFound(grants: seq<GrantEntry>, driverNum: nat, g: nat, i: nat)
    requires FirstEntry(grants, driverNum, g) && i <= g
    ensures FindDriver(grants, driverNum, i) == Some(g)
    decreases g - i
  {
    if i < g { FirstFound(grants, driverNum, g, i + 1); }
  }
}
