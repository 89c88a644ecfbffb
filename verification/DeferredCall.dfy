// Deferred calls (kernel/src/deferred_call.rs): the three globals CTR, BITMASK
// and DEFCALLS as the fields of one object.

module DeferredCalls {
  import opened Wrappers

  // Length of DEFCALLS and width of BITMASK.
  const CAPACITY: nat := 32

  // A registered client, named by a number.
  type Handler = nat

  datatype Table = Table(ctr: nat, bitmask: seq<bool>, defcalls: seq<Option<Handler>>)

  predicate Sized(t: Table) { |t.bitmask| == CAPACITY && |t.defcalls| == CAPACITY }

  // Number of occupied cells among the first n.
  function CountSome(cells: seq<Option<Handler>>, n: nat): (c: nat)
    requires n <= |cells|
    ensures c <= n
  {
    if n == 0 then 0 else CountSome(cells, n - 1) + (if cells[n - 1].Some? then 1 else 0)
  }

  // u32::trailing_zeros of the mask: the least set bit from i on.
  function LeastSet(bits: seq<bool>, i: nat): (k: Option<nat>)
    requires i <= |bits|
    ensures k.Some? ==> i <= k.value < |bits| && bits[k.value] && forall j :: i <= j < k.value ==> !bits[j]
    ensures k.None? ==> forall j :: i <= j < |bits| ==> !bits[j]
    decreases |bits| - i
  {
    if i == |bits| then None
    else if bits[i] then Some(i)
    else LeastSet(bits, i + 1)
  }

  // The object of all deferred-call state. A DeferredCall is its index.
  class DeferredCallState {
    var ctr: nat
    var bitmask: seq<bool>
    var defcalls: seq<Option<Handler>>

    function Value(): Table
      reads this
    {
      Table(ctr, bitmask, defcalls)
    }

    constructor ()
      ensures Value() == Table(0, seq(CAPACITY, _ => false), seq(CAPACITY, _ => None))
    {
      ctr, bitmask, defcalls := 0, seq(CAPACITY, _ => false), seq(CAPACITY, _ => None);
    }

    method New() returns (idx: nat)
      modifies this`ctr
      ensures idx == old(ctr) + 1 && ctr == idx
    {
      idx := ctr + 1;
      ctr := idx;
    }

    method RegisterInternal(idx: nat, handler: Handler)
      requires |defcalls| == CAPACITY
      modifies this`defcalls
      ensures Value() == Register(old(Value()), idx, handler)
    {
      if idx >= |defcalls| { return; }
      defcalls := defcalls[idx := Some(handler)];
    }

    // False: the shift leaves the width of the mask.
    method Set(idx: nat) returns (ok: bool)
      requires |bitmask| == CAPACITY
      modifies this`bitmask
      ensures ok == (idx < CAPACITY)
      ensures Value() == SetBit(old(Value()), idx)
    {
      if idx >= CAPACITY { return false; }
      bitmask := bitmask[idx := true];
      return true;
    }

    // The index serviced, if a handler was found for it; `ran` is that handler.
    method ServiceNextPending() returns (serviced: Option<nat>, ran: Option<Handler>)
      requires Sized(Value())
      modifies this`bitmask
      ensures (serviced, ran, Value()) == Service(old(Value()))
    {
      var bit := LeastSet(bitmask, 0);
      if bit.None? { return None, None; }
      bitmask := bitmask[bit.value := false];
      if defcalls[bit.value].None? { return None, None; }
      return bit, defcalls[bit.value];
    }

    method VerifySetup() returns (ok: bool)
      requires Sized(Value())
      ensures ok <==> SetupVerified(Value())
    {
      var registered := 0;
      for i := 0 to |defcalls|
        invariant registered == CountSome(defcalls, i)
      {
        if defcalls[i].Some? { registered := registered + 1; }
      }
      return !(ctr >= |defcalls| || registered != ctr);
    }
  }

  // ---------------------------------------------------------- specification

  function Register(t: Table, idx: nat, handler: Handler): Table
    requires |t.defcalls| == CAPACITY
  {
    if idx >= CAPACITY then t else t.(defcalls := t.defcalls[idx := Some(handler)])
  }

  function SetBit(t: Table, idx: nat): Table
    requires |t.bitmask| == CAPACITY
  {
    if idx >= CAPACITY then t else t.(bitmask := t.bitmask[idx := true])
  }

  function Service(t: Table): (Option<nat>, Option<Handler>, Table)
    requires Sized(t)
  {
    match LeastSet(t.bitmask, 0)
    case None => (None, None, t)
    case Some(bit) =>
      var t' := t.(bitmask := t.bitmask[bit := false]);
      if t.defcalls[bit].None? then (None, None, t') else (Some(bit), t.defcalls[bit], t')
  }

  predicate SetupVerified(t: Table)
    requires Sized(t)
  {
    t.ctr < CAPACITY && CountSome(t.defcalls, CAPACITY) == t.ctr
  }

  // Only created calls (1 ..= ctr) can be registered or set.
  predicate OnlyCreated(t: Table)
    requires Sized(t)
  {
    forall i :: 0 <= i < CAPACITY && (i == 0 || i > t.ctr) ==> t.defcalls[i].None? && !t.bitmask[i]
  }

  // ------------------------------------------------------------------ runs

  datatype Op = NewOp | RegisterOp(idx: nat, handler: Handler) | SetOp(idx: nat) | ServiceOp

  // A DeferredCall object exists only for indices handed out by `new`.
  predicate Enabled(t: Table, op: Op) {
    match op
    case RegisterOp(idx, _) => 1 <= idx <= t.ctr
    case SetOp(idx) => 1 <= idx <= t.ctr
    case _ => true
  }

  function Step(t: Table, op: Op): Table
    requires Sized(t)
  {
    match op
    case NewOp => t.(ctr := t.ctr + 1)
    case RegisterOp(idx, handler) => Register(t, idx, handler)
    case SetOp(idx) => SetBit(t, idx)
    case ServiceOp => Service(t).2
  }

  ghost predicate Run(t: Table, ops: seq<Op>, t': Table)
    requires Sized(t)
    decreases |ops|
  {
    if ops == [] then t' == t else Enabled(t, ops[0]) && Run(Step(t, ops[0]), ops[1..], t')
  }

  lemma {:induction false} RunOnlyCreated(t: Table, ops: seq<Op>, t': Table)
    requires Sized(t) && OnlyCreated(t) && Run(t, ops, t')
    ensures Sized(t') && OnlyCreated(t')
    decreases |ops|
  {
    if ops != [] { RunOnlyCreated(Step(t, ops[0]), ops[1..], t'); }
  }

  // ------------------------------------------------------ counting argument

  // Cells [lo, hi) hold at most hi - lo handlers, and that many only if full.
  lemma {:induction false} CountRange(cells: seq<Option<Handler>>, lo: nat, hi: nat)
    requires lo <= hi <= |cells|
    ensures CountSome(cells, hi) <= CountSome(cells, lo) + (hi - lo)
    ensures CountSome(cells, hi) == CountSome(cells, lo) + (hi - lo) ==> forall i :: lo <= i < hi ==> cells[i].Some?
    ensures (forall i :: lo <= i < hi ==> cells[i].None?) ==> CountSome(cells, hi) == CountSome(cells, lo)
    decreases hi - lo
  {
    if lo < hi { CountRange(cells, lo, hi - 1); }
  }

  // If the start-up check passes after any run, every deferred call ever
  // created is registered, and there are at most 31 of them.
  lemma SetupComplete(ops: seq<Op>, t: Table)
    requires Run(Table(0, seq(CAPACITY, _ => false), seq(CAPACITY, _ => None)), ops, t)
    ensures Sized(t) && (SetupVerified(t) ==> t.ctr <= 31 && forall i :: 1 <= i <= t.ctr ==> t.defcalls[i].Some?)
  {
    RunOnlyCreated(Table(0, seq(CAPACITY, _ => false), seq(CAPACITY, _ => None)), ops, t);
    if SetupVerified(t) {
      CountRange(t.defcalls, 0, 1);
      CountRange(t.defcalls, 1, t.ctr + 1);
      CountRange(t.defcalls, t.ctr + 1, CAPACITY);
    }
  }

  // --------------------------------------------------------------- service

  predicate AllRegistered(t: Table)
    requires Sized(t)
  {
    OnlyCreated(t) && t.ctr < CAPACITY && forall i :: 1 <= i <= t.ctr ==> t.defcalls[i].Some?
  }

  // With everything registered, each service runs exactly the handler of the
  // least pending index and clears only that index.
  lemma ServiceLeast(t: Table)
    requires Sized(t) && AllRegistered(t)
    ensures var (serviced, ran, t') := Service(t);
            && AllRegistered(t')
            && (serviced.None? <==> forall i :: 0 <= i < CAPACITY ==> !t.bitmask[i])
            && (serviced.None? ==> t' == t && ran.None?)
            && (serviced.Some? ==>
                  && t.bitmask[serviced.value] && (forall j :: 0 <= j < serviced.value ==> !t.bitmask[j])
                  && ran == t.defcalls[serviced.value]
                  && t' == t.(bitmask := t.bitmask[serviced.value := false]))
  {
  }

  // Set up or not, a service clears the least pending bit and no other, and runs
  // what is registered there, if anything is.
  lemma ServiceOutcome(t: Table, k: nat)
    requires Sized(t) && k < CAPACITY && t.bitmask[k] && forall j :: 0 <= j < k ==> !t.bitmask[j]
    ensures var (serviced, ran, t') := Service(t);
            && t'.ctr == t.ctr && t'.defcalls == t.defcalls && |t'.bitmask| == CAPACITY
            && (forall j :: 0 <= j < CAPACITY ==> t'.bitmask[j] == (j != k && t.bitmask[j]))
            && ran == t.defcalls[k] && (serviced == Some(k) <==> ran.Some?) && (serviced.None? <==> ran.None?)
  {
  }

  // The handler last registered for index i.
  function LastHandler(cell: Option<Handler>, ops: seq<Op>, i: nat): Option<Handler>
    decreases |ops|
  {
    if ops == [] then cell
    else LastHandler(if ops[0].RegisterOp? && ops[0].idx == i then Some(ops[0].handler) else cell, ops[1..], i)
  }

  // Over any run the handler found for an index is the one last registered for it.
  lemma {:induction false} RunsLastRegistered(t: Table, ops: seq<Op>, t': Table, i: nat)
    requires Sized(t) && Run(t, ops, t') && i < CAPACITY
    ensures Sized(t') && t'.defcalls[i] == LastHandler(t.defcalls[i], ops, i)
    decreases |ops|
  {
    if ops != [] { RunsLastRegistered(Step(t, ops[0]), ops[1..], t', i); }
  }

  // Once set up, every later run that creates no further call stays set up.
  lemma {:induction false} RunRegistered(t: Table, ops: seq<Op>, t': Table)
    requires Sized(t) && AllRegistered(t) && Run(t, ops, t') && NewOp !in ops
    ensures Sized(t') && AllRegistered(t')
    decreases |ops|
  {
    if ops != [] {
      assert ops[0] in ops;
      RunRegistered(Step(t, ops[0]), ops[1..], t');
    }
  }

  // The indices whose handlers a run ran, in order.
  function ServicedIn(t: Table, ops: seq<Op>): seq<nat>
    requires Sized(t)
    decreases |ops|
  {
    if ops == [] then []
    else
      (if ops[0].ServiceOp? && Service(t).0.Some? then [Service(t).0.value] else [])
      + ServicedIn(Step(t, ops[0]), ops[1..])
  }

  // No request is lost: a pending call stays pending until its handler runs.
  lemma {:induction false} PendingUntilServiced(t: Table, ops: seq<Op>, t': Table, i: nat)
    requires Sized(t) && AllRegistered(t) && Run(t, ops, t') && NewOp !in ops
    requires i < CAPACITY && t.bitmask[i]
    ensures Sized(t') && (t'.bitmask[i] || i in ServicedIn(t, ops))
    decreases |ops|
  {
    if ops != [] {
      assert ops[0] in ops;
      var u := Step(t, ops[0]);
      if u.bitmask[i] {
        PendingUntilServiced(u, ops[1..], t', i);
      } else {
        RunRegistered(u, ops[1..], t');
      }
    }
  }

  // Number of pending calls below n.
  function CountPending(bits: seq<bool>, n: nat): (c: nat)
    requires n <= |bits|
    ensures c == 0 <==> forall i :: 0 <= i < n ==> !bits[i]
  {
    if n == 0 then 0 else CountPending(bits, n - 1) + (if bits[n - 1] then 1 else 0)
  }

  lemma {:induction false} ClearOne(bits: seq<bool>, k: nat, n: nat)
    requires k < |bits| && n <= |bits| && bits[k]
    ensures CountPending(bits[k := false], n) == CountPending(bits, n) - (if k < n then 1 else 0)
    decreases n
  {
    if n > 0 { ClearOne(bits, k, n - 1); }
  }

  function Pending(t: Table): nat
    requires Sized(t)
  {
    CountPending(t.bitmask, CAPACITY)
  }

  // Service until nothing is pending, with handlers that set nothing: the
  // indices in the order they ran.
  ghost function Drain(t: Table): (order: seq<nat>)
    requires Sized(t) && AllRegistered(t)
    decreases Pending(t)
  {
    ServiceLeast(t);
    var (serviced, _, t') := Service(t);
    if serviced.None? then []
    else
      ClearOne(t.bitmask, serviced.value, CAPACITY);
      [serviced.value] + Drain(t')
  }

  predicate Increasing(order: seq<nat>) {
    forall i, j :: 0 <= i < j < |order| ==> order[i] < order[j]
  }

  // Every pending call is serviced, and nothing else, one service each.
  lemma {:induction false} DrainServes(t: Table)
    requires Sized(t) && AllRegistered(t)
    ensures |Drain(t)| == Pending(t)
    ensures forall i: nat :: i in Drain(t) <==> i < CAPACITY && t.bitmask[i]
    decreases Pending(t)
  {
    ServiceLeast(t);
    var (serviced, _, t') := Service(t);
    if serviced.Some? {
      ClearOne(t.bitmask, serviced.value, CAPACITY);
      DrainServes(t');
    }
  }

  // ... and each once, in index order.
  lemma {:induction false} DrainInOrder(t: Table)
    requires Sized(t) && AllRegistered(t)
    ensures Increasing(Drain(t))
    decreases Pending(t)
  {
    ServiceLeast(t);
    var (serviced, _, t') := Service(t);
    if serviced.Some? {
      ClearOne(t.bitmask, serviced.value, CAPACITY);
      DrainServes(t');
      DrainInOrder(t');
      assert forall i :: 0 <= i < |Drain(t')| ==> Drain(t')[i] in Drain(t');
    }
  }
}
