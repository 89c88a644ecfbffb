// Choosing which discovered binaries become processes
// (kernel/src/process_loading.rs, load_process_objects).

module Loader {
  import opened Wrappers

  datatype ShortId = LocallyUnique | Fixed(id: nat)

  // ShortId equality: a locally unique identifier equals nothing, not even
  // another locally unique one.
  predicate SameShortId(a: ShortId, b: ShortId) {
    a.Fixed? && b.Fixed? && a.id == b.id
  }

  // A discovered binary: where it was found, and its version.
  datatype Binary = Binary(address: nat, version: nat)

  datatype Process = Process(binary: Binary, shortId: ShortId)

  // The kernel's application identity policy.
  datatype AppIdPolicy = AppIdPolicy(
    differentIdentifier: (Binary, Binary) -> bool,
    differentIdentifierProcess: (Binary, Process) -> bool,
    toShortId: Binary -> ShortId)

  // What creating a process from the i-th binary comes to.
  datatype Attempt = Created | NotAProcess | CreateError

  datatype Notice = ProcessLoaded | LoadError | NoProcessSlot

  type Policy = Option<AppIdPolicy>
  type Binaries = seq<Option<Binary>>
  type Slots = seq<Option<Process>>

  // ---------------------------------------------------------- conflicts

  predicate Conflict(policy: Policy, a: Binary, b: Binary) {
    policy.Some? && (
      || !policy.value.differentIdentifier(a, b)
      || SameShortId(policy.value.toShortId(a), policy.value.toShortId(b)))
  }

  // Without a policy nothing conflicts; with one, binaries do if it says they have
  // the same identifier, or both carry one and the same fixed short identifier.
  // Two locally unique short identifiers are never the same.
  lemma ConflictIff(policy: Policy, a: Binary, b: Binary)
    ensures Conflict(policy, a, b) <==>
              policy.Some? && (|| !policy.value.differentIdentifier(a, b)
                               || exists id :: policy.value.toShortId(a) == policy.value.toShortId(b) == Fixed(id))
  {
    if policy.Some? && policy.value.toShortId(a).Fixed? {
      assert policy.value.toShortId(a) == Fixed(policy.value.toShortId(a).id);
    }
  }

  predicate BlockedBy(policy: Policy, a: Binary, b: Binary) {
    Conflict(policy, a, b) && b.version > a.version
  }

  predicate BlockedByProcess(policy: Policy, a: Binary, p: Process) {
    policy.Some? && (
      || !policy.value.differentIdentifierProcess(a, p)
      || SameShortId(policy.value.toShortId(a), p.shortId))
  }

  predicate OkToLoad(policy: Policy, bins: Binaries, procs: Slots, b: Binary) {
    && (forall j :: 0 <= j < |bins| && bins[j].Some? ==> !BlockedBy(policy, b, bins[j].value))
    && (forall s :: 0 <= s < |procs| && procs[s].Some? ==> !BlockedByProcess(policy, b, procs[s].value))
  }

  function OpenSlot(procs: Slots, from: nat): (s: Option<nat>)
    requires from <= |procs|
    ensures s.Some? ==> from <= s.value < |procs| && procs[s.value].None?
    ensures s.Some? ==> forall k :: from <= k < s.value ==> procs[k].Some?
    ensures s.None? ==> forall k :: from <= k < |procs| ==> procs[k].Some?
    decreases |procs| - from
  {
    if from == |procs| then None
    else if procs[from].None? then Some(from)
    else OpenSlot(procs, from + 1)
  }

  function NewProcess(policy: Policy, b: Binary): Process {
    Process(b, if policy.Some? then policy.value.toShortId(b) else LocallyUnique)
  }

  // One turn of the loop on binary i, which has been taken out of its cell.
  function LoadBinary(policy: Policy, bins: Binaries, procs: Slots, b: Binary, attempt: Attempt): (Slots, seq<Notice>) {
    if !OkToLoad(policy, bins, procs, b) then (procs, [])
    else
      match OpenSlot(procs, 0)
      case None => (procs, [NoProcessSlot])
      case Some(s) =>
        match attempt
        case Created => (procs[s := Some(NewProcess(policy, b))], [ProcessLoaded])
        case NotAProcess => (procs, [])
        case CreateError => (procs, [LoadError])
  }

  // The rest of the loop, from binary i on; `said` is what the client has been
  // told so far.
  function LoadFrom(policy: Policy, bins: Binaries, procs: Slots, said: seq<Notice>, i: nat, attempts: nat -> Attempt)
    : (Slots, seq<Notice>)
    requires i <= |bins|
    decreases |bins| - i
  {
    if i == |bins| then (procs, said)
    else if bins[i].None? then LoadFrom(policy, bins, procs, said, i + 1, attempts)
    else
      var rest := bins[i := None];
      var (procs', notices) := LoadBinary(policy, rest, procs, bins[i].value, attempts(i));
      LoadFrom(policy, rest, procs', said + notices, i + 1, attempts)
  }

  class SequentialProcessLoaderMachine {
    var policy: Policy
    var procBinaries: Option<Binaries>
    var procs: Slots
    var notices: seq<Notice>
    var finished: bool

    method OkToLoadNow(b: Binary, bins: Binaries) returns (ok: bool)
      ensures ok <==> OkToLoad(policy, bins, procs, b)
    {
      for j := 0 to |bins|
        invariant forall k :: 0 <= k < j && bins[k].Some? ==> !BlockedBy(policy, b, bins[k].value)
      {
        if bins[j].Some? && BlockedBy(policy, b, bins[j].value) { return false; }
      }
      for s := 0 to |procs|
        invariant forall k :: 0 <= k < s && procs[k].Some? ==> !BlockedByProcess(policy, b, procs[k].value)
      {
        if procs[s].Some? && BlockedByProcess(policy, b, procs[s].value) { return false; }
      }
      return true;
    }

    method FindOpenProcessSlot() returns (s: Option<nat>)
      ensures s == OpenSlot(procs, 0)
    {
      for i := 0 to |procs|
        invariant OpenSlot(procs, 0) == OpenSlot(procs, i)
      {
        if procs[i].None? { return Some(i); }
      }
      return None;
    }

    method LoadProcessObjects(attempts: nat -> Attempt) returns (r: Result<(), ()>)
      modifies this`procBinaries, this`procs, this`notices, this`finished
      ensures old(procBinaries.None?) ==> r == Err(()) && procs == old(procs) && notices == old(notices)
      ensures old(procBinaries.Some?) ==>
                var bins := old(procBinaries.value);
                && r == Ok(()) && finished
                && (procs, notices) == LoadFrom(policy, bins, old(procs), old(notices), 0, attempts)
                && procBinaries == Some(seq(|bins|, _ => None))
    {
      if procBinaries.None? { return Err(()); }
      var bins := procBinaries.value;
      procBinaries := None;
      ghost var total := LoadFrom(policy, bins, procs, notices, 0, attempts);
      for i := 0 to |bins|
        invariant |bins| == |old(procBinaries.value)|
        invariant forall k :: 0 <= k < i ==> bins[k].None?
        invariant LoadFrom(policy, bins, procs, notices, i, attempts) == total
      {
        if bins[i].Some? {
          var b := bins[i].value;
          bins := bins[i := None];
          var ok := OkToLoadNow(b, bins);
          if ok {
            var slot := FindOpenProcessSlot();
            if slot.None? {
              notices := notices + [NoProcessSlot];
            } else {
              match attempts(i) {
                case Created =>
                  procs := procs[slot.value := Some(NewProcess(policy, b))];
                  notices := notices + [ProcessLoaded];
                case NotAProcess =>
                  notices := notices + [];
                case CreateError =>
                  notices := notices + [LoadError];
              }
            }
          } else {
            assert notices + [] == notices;
          }
        }
      }
      procBinaries := Some(bins);
      finished := true;
      assert bins == seq(|bins|, _ => None);
      return Ok(());
    }
  }

  // ------------------------------------------- no two processes conflict

  // The policy's two relations agree, and neither depends on the order.
  ghost predicate Coherent(policy: Policy) {
    policy.Some? ==>
      var p := policy.value;
      && (forall a, b :: p.differentIdentifier(a, b) == p.differentIdentifier(b, a))
      && (forall a, q: Process :: p.differentIdentifierProcess(a, q) == p.differentIdentifier(a, q.binary))
  }

  // Every process carries the short identifier its policy gives its binary.
  predicate Labelled(policy: Policy, procs: Slots) {
    forall s :: 0 <= s < |procs| && procs[s].Some? ==> procs[s].value == NewProcess(policy, procs[s].value.binary)
  }

  predicate Apart(policy: Policy, procs: Slots) {
    forall s, u :: 0 <= s < |procs| && 0 <= u < |procs| && s != u && procs[s].Some? && procs[u].Some? ==>
                     !Conflict(policy, procs[s].value.binary, procs[u].value.binary)
  }

  lemma ProcessConflict(policy: Policy, a: Binary, procs: Slots, s: nat)
    requires Coherent(policy) && Labelled(policy, procs) && s < |procs| && procs[s].Some?
    ensures BlockedByProcess(policy, a, procs[s].value) <==> Conflict(policy, a, procs[s].value.binary)
  {
  }

  lemma LoadBinaryApart(policy: Policy, bins: Binaries, procs: Slots, b: Binary, attempt: Attempt)
    requires Coherent(policy) && Labelled(policy, procs) && Apart(policy, procs)
    ensures var procs' := LoadBinary(policy, bins, procs, b, attempt).0;
            Labelled(policy, procs') && Apart(policy, procs')
  {
  }

  // Whatever the outcomes of the attempts, no two loaded processes conflict.
  lemma {:induction false} LoadedApart(policy: Policy, bins: Binaries, procs: Slots, said: seq<Notice>, i: nat,
                                       attempts: nat -> Attempt)
    requires Coherent(policy) && Labelled(policy, procs) && Apart(policy, procs) && i <= |bins|
    ensures Apart(policy, LoadFrom(policy, bins, procs, said, i, attempts).0)
    decreases |bins| - i
  {
    if i < |bins| {
      if bins[i].None? {
        LoadedApart(policy, bins, procs, said, i + 1, attempts);
      } else {
        var rest := bins[i := None];
        LoadBinaryApart(policy, rest, procs, bins[i].value, attempts(i));
        var (procs', notices) := LoadBinary(policy, rest, procs, bins[i].value, attempts(i));
        LoadedApart(policy, rest, procs', said + notices, i + 1, attempts);
      }
    }
  }

  // ------------------------------------ the first binary of maximal version

  ghost predicate Transitive(policy: Policy) {
    forall a, b, c :: Conflict(policy, a, b) && Conflict(policy, b, c) ==> Conflict(policy, a, c)
  }

  // j beats i: newer, or as new and earlier.
  predicate Beats(bins: Binaries, j: nat, i: nat)
    requires i < |bins| && j < |bins| && bins[i].Some? && bins[j].Some?
  {
    var (vi, vj) := (bins[i].value.version, bins[j].value.version);
    vj > vi || (vj == vi && j < i)
  }

  predicate Rivals(policy: Policy, bins: Binaries, i: nat, j: nat)
    requires i < |bins| && j < |bins|
  {
    i != j && bins[i].Some? && bins[j].Some? && Conflict(policy, bins[i].value, bins[j].value)
  }

  // Binary i conflicts with no process that was already there, and beats every
  // other binary it conflicts with.
  predicate Chosen(policy: Policy, bins: Binaries, procs: Slots, i: nat)
    requires i < |bins|
  {
    && bins[i].Some?
    && (forall s :: 0 <= s < |procs| && procs[s].Some? ==> !BlockedByProcess(policy, bins[i].value, procs[s].value))
    && (forall j :: 0 <= j < |bins| && Rivals(policy, bins, i, j) ==> Beats(bins, i, j))
  }

  // The rival of i, or i itself, that beats all others up to n.
  lemma {:induction false} Champion(policy: Policy, bins: Binaries, i: nat, n: nat) returns (m: nat)
    requires i < |bins| && n <= |bins| && bins[i].Some?
    ensures m < |bins| && (m == i || Rivals(policy, bins, i, m))
    ensures forall j :: 0 <= j < n && Rivals(policy, bins, i, j) && j != m ==> Beats(bins, m, j)
    ensures m != i ==> Beats(bins, m, i)
    decreases n
  {
    m := i;
    if n > 0 {
      m := Champion(policy, bins, i, n - 1);
      var j := n - 1;
      if Rivals(policy, bins, i, j) && j != m && !Beats(bins, m, j) { m := j; }
    }
  }

  // Every conflict class whose members clash with no earlier process has a
  // chosen member.
  lemma ClassHasChosen(policy: Policy, bins: Binaries, procs: Slots, i: nat) returns (m: nat)
    requires Coherent(policy) && Transitive(policy) && Labelled(policy, procs)
    requires i < |bins| && bins[i].Some?
    requires forall s :: 0 <= s < |procs| && procs[s].Some? ==> !BlockedByProcess(policy, bins[i].value, procs[s].value)
    ensures m < |bins| && Chosen(policy, bins, procs, m)
    ensures m == i || (Rivals(policy, bins, i, m) && Beats(bins, m, i))
  {
    m := Champion(policy, bins, i, |bins|);
    if m != i {
      var (bi, bm) := (bins[i].value, bins[m].value);
      forall s | 0 <= s < |procs| && procs[s].Some?
        ensures !BlockedByProcess(policy, bm, procs[s].value)
      {
        ProcessConflict(policy, bm, procs, s);
        ProcessConflict(policy, bi, procs, s);
        assert Conflict(policy, bi, bm);
      }
      forall j | 0 <= j < |bins| && Rivals(policy, bins, m, j)
        ensures Beats(bins, m, j)
      {
        assert Conflict(policy, bi, bm) && Conflict(policy, bm, bins[j].value);
      }
    }
  }

  datatype Pick = Pick(index: nat, binary: Binary)

  // The binaries that were made into processes, in the order they were.
  function Picks(policy: Policy, bins: Binaries, procs: Slots, i: nat, attempts: nat -> Attempt): seq<Pick>
    requires i <= |bins|
    decreases |bins| - i
  {
    if i == |bins| then []
    else if bins[i].None? then Picks(policy, bins, procs, i + 1, attempts)
    else
      var rest := bins[i := None];
      var b := bins[i].value;
      var more := Picks(policy, rest, LoadBinary(policy, rest, procs, b, attempts(i)).0, i + 1, attempts);
      if Picked(policy, rest, procs, b, attempts(i)) then [Pick(i, b)] + more else more
  }

  // What the client is told of one binary: nothing if it may not load or is no
  // process, that all slots are taken, that creation failed, or that it is loaded.
  lemma TurnTells(policy: Policy, bins: Binaries, procs: Slots, b: Binary, attempt: Attempt)
    ensures var (ok, full) := (OkToLoad(policy, bins, procs, b), forall s :: 0 <= s < |procs| ==> procs[s].Some?);
            var (procs', told) := LoadBinary(policy, bins, procs, b, attempt);
            && (told == [NoProcessSlot] <==> ok && full)
            && (told == [LoadError] <==> ok && !full && attempt == CreateError)
            && (told == [ProcessLoaded] <==> ok && !full && attempt == Created)
            && (told == [] <==> !ok || (!full && attempt == NotAProcess))
            && (told != [ProcessLoaded] ==> procs' == procs)
            && (told == [ProcessLoaded] <==> Picked(policy, bins, procs, b, attempt))
  {
  }

  // It is told of as many processes as there are picks.
  lemma {:induction false} ToldOfPicks(policy: Policy, bins: Binaries, procs: Slots, said: seq<Notice>, i: nat,
                                       attempts: nat -> Attempt)
    requires i <= |bins|
    ensures multiset(LoadFrom(policy, bins, procs, said, i, attempts).1)[ProcessLoaded] ==
              multiset(said)[ProcessLoaded] + |Picks(policy, bins, procs, i, attempts)|
    decreases |bins| - i
  {
    if i < |bins| && bins[i].None? {
      ToldOfPicks(policy, bins, procs, said, i + 1, attempts);
    } else if i < |bins| {
      var (rest, b) := (bins[i := None], bins[i].value);
      var (procs', told) := LoadBinary(policy, rest, procs, b, attempts(i));
      TurnTells(policy, rest, procs, b, attempts(i));
      ToldOfPicks(policy, rest, procs', said + told, i + 1, attempts);
    }
  }

  // Picks are binaries of the list from i on, in order and none twice.
  predicate InOrder(picks: seq<Pick>, bins: Binaries, i: nat) {
    && (forall x :: 0 <= x < |picks| ==> i <= picks[x].index < |bins| && bins[picks[x].index] == Some(picks[x].binary))
    && (forall x, y :: 0 <= x < y < |picks| ==> picks[x].index < picks[y].index)
  }

  lemma {:induction false} PicksInOrder(policy: Policy, bins: Binaries, procs: Slots, i: nat, attempts: nat -> Attempt)
    requires i <= |bins|
    ensures InOrder(Picks(policy, bins, procs, i, attempts), bins, i)
    decreases |bins| - i
  {
    if i < |bins| && bins[i].None? {
      PicksInOrder(policy, bins, procs, i + 1, attempts);
      assert Picks(policy, bins, procs, i, attempts) == Picks(policy, bins, procs, i + 1, attempts);
    } else if i < |bins| {
      var (rest, b) := (bins[i := None], bins[i].value);
      var procs' := LoadBinary(policy, rest, procs, b, attempts(i)).0;
      PicksInOrder(policy, rest, procs', i + 1, attempts);
      var more := Picks(policy, rest, procs', i + 1, attempts);
      assert InOrder([Pick(i, b)] + more, bins, i) && InOrder(more, bins, i);
    }
  }

  function Occupied(procs: Slots): multiset<Process> {
    if procs == [] then multiset{}
    else Occupied(procs[1..]) + (if procs[0].Some? then multiset{procs[0].value} else multiset{})
  }

  lemma {:induction false} OccupyOne(procs: Slots, s: nat, p: Process)
    requires s < |procs| && procs[s].None?
    ensures Occupied(procs[s := Some(p)]) == Occupied(procs) + multiset{p}
    decreases |procs|
  {
    if s > 0 {
      OccupyOne(procs[1..], s - 1, p);
      assert procs[s := Some(p)][1..] == procs[1..][s - 1 := Some(p)];
    } else {
      assert procs[s := Some(p)][1..] == procs[1..];
    }
  }

  function Made(policy: Policy, picks: seq<Pick>): multiset<Process> {
    if picks == [] then multiset{} else multiset{NewProcess(policy, picks[0].binary)} + Made(policy, picks[1..])
  }

  lemma MadeCons(policy: Policy, pick: Pick, more: seq<Pick>)
    ensures Made(policy, [pick] + more) == multiset{NewProcess(policy, pick.binary)} + Made(policy, more)
  {
  }

  predicate Picked(policy: Policy, bins: Binaries, procs: Slots, b: Binary, attempt: Attempt) {
    OkToLoad(policy, bins, procs, b) && OpenSlot(procs, 0).Some? && attempt.Created?
  }

  lemma LoadBinaryOccupied(policy: Policy, bins: Binaries, procs: Slots, b: Binary, attempt: Attempt)
    ensures Occupied(LoadBinary(policy, bins, procs, b, attempt).0) == Occupied(procs)
         + if Picked(policy, bins, procs, b, attempt) then multiset{NewProcess(policy, b)} else multiset{}
  {
    if Picked(policy, bins, procs, b, attempt) { OccupyOne(procs, OpenSlot(procs, 0).value, NewProcess(policy, b)); }
  }

  // The loader keeps the processes that were there and adds one for each
  // binary it picks, and no others.
  lemma {:induction false} PicksPlaced(policy: Policy, bins: Binaries, procs: Slots, said: seq<Notice>, i: nat,
                                       attempts: nat -> Attempt)
    requires i <= |bins|
    ensures Occupied(LoadFrom(policy, bins, procs, said, i, attempts).0)
         == Occupied(procs) + Made(policy, Picks(policy, bins, procs, i, attempts))
    decreases |bins| - i
  {
    if i < |bins| && bins[i].None? {
      PicksPlaced(policy, bins, procs, said, i + 1, attempts);
    } else if i < |bins| {
      var (rest, b) := (bins[i := None], bins[i].value);
      var (procs', notices) := LoadBinary(policy, rest, procs, b, attempts(i));
      LoadBinaryOccupied(policy, rest, procs, b, attempts(i));
      var more := Picks(policy, rest, procs', i + 1, attempts);
      MadeCons(policy, Pick(i, b), more);
      assert Picks(policy, bins, procs, i, attempts)
          == if Picked(policy, rest, procs, b, attempts(i)) then [Pick(i, b)] + more else more;
      PicksPlaced(policy, rest, procs', said + notices, i + 1, attempts);
    }
  }

  function Free(procs: Slots): (n: nat)
    ensures n > 0 ==> exists s :: 0 <= s < |procs| && procs[s].None?
  {
    if procs == [] then 0 else Free(procs[1..]) + (if procs[0].None? then 1 else 0)
  }

  lemma {:induction false} UseOne(procs: Slots, s: nat, p: Process)
    requires s < |procs| && procs[s].None?
    ensures Free(procs[s := Some(p)]) == Free(procs) - 1
    decreases |procs|
  {
    if s > 0 {
      UseOne(procs[1..], s - 1, p);
      assert procs[s := Some(p)][1..] == procs[1..][s - 1 := Some(p)];
    } else {
      assert procs[s := Some(p)][1..] == procs[1..];
    }
  }

  // ------------------------------------------------ which binaries are picked

  // Binary b conflicts with one of the processes.
  predicate Represented(policy: Policy, b: Binary, procs: Slots) {
    exists s :: 0 <= s < |procs| && procs[s].Some? && BlockedByProcess(policy, b, procs[s].value)
  }

  // Binary i conflicts with no process that was already there, with no newer
  // binary after it, and with no winner before it.
  predicate Wins(policy: Policy, bins: Binaries, procs: Slots, i: nat)
    requires i < |bins|
    decreases i
  {
    && bins[i].Some? && !Represented(policy, bins[i].value, procs)
    && (forall j :: i < j < |bins| && Rivals(policy, bins, i, j) ==> bins[j].value.version <= bins[i].value.version)
    && (forall k :: 0 <= k < i && Rivals(policy, bins, i, k) ==> !Wins(policy, bins, procs, k))
  }

  // The loop has reached binary i: bins0 and procs0 are what it started from.
  ghost predicate Midway(policy: Policy, bins0: Binaries, procs0: Slots, bins: Binaries, procs: Slots, i: nat) {
    && i <= |bins| == |bins0| && Labelled(policy, procs0) && Labelled(policy, procs)
    && (forall k :: 0 <= k < i ==> bins[k].None?)
    && (forall k :: i <= k < |bins| ==> bins[k] == bins0[k])
    && (forall s :: 0 <= s < |procs0| && procs0[s].Some? ==> procs0[s] in procs)
    && (forall k :: 0 <= k < i && Wins(policy, bins0, procs0, k) ==> Some(NewProcess(policy, bins0[k].value)) in procs)
    && (forall s :: 0 <= s < |procs| && procs[s].Some? ==> Accounted(policy, bins0, procs0, procs[s], i))
    && Free(procs) >= |bins| - i
  }

  ghost predicate Accounted(policy: Policy, bins0: Binaries, procs0: Slots, entry: Option<Process>, i: nat)
    requires i <= |bins0|
  {
    || entry in procs0
    || exists k :: 0 <= k < i && Wins(policy, bins0, procs0, k) && entry == Some(NewProcess(policy, bins0[k].value))
  }

  // A winner is never blocked ...
  lemma WinnerLoads(policy: Policy, bins0: Binaries, procs0: Slots, bins: Binaries, procs: Slots, i: nat)
    requires Coherent(policy) && Midway(policy, bins0, procs0, bins, procs, i)
    requires i < |bins| && Wins(policy, bins0, procs0, i)
    ensures OkToLoad(policy, bins[i := None], procs, bins0[i].value)
  {
    var (rest, b) := (bins[i := None], bins0[i].value);
    forall j | 0 <= j < |rest| && rest[j].Some?
      ensures !BlockedBy(policy, b, rest[j].value)
    {
      assert rest[j] == bins0[j] && (Rivals(policy, bins0, i, j) ==> bins0[j].value.version <= b.version);
    }
    forall s | 0 <= s < |procs| && procs[s].Some?
      ensures !BlockedByProcess(policy, b, procs[s].value)
    {
      if procs[s] !in procs0 {
        var k :| 0 <= k < i && Wins(policy, bins0, procs0, k) && procs[s] == Some(NewProcess(policy, bins0[k].value));
        ProcessConflict(policy, b, procs, s);
        assert !Rivals(policy, bins0, i, k);
      }
    }
  }

  // ... and any other binary always is.
  lemma OtherBlocked(policy: Policy, bins0: Binaries, procs0: Slots, bins: Binaries, procs: Slots, i: nat)
    requires Coherent(policy) && Midway(policy, bins0, procs0, bins, procs, i)
    requires i < |bins| && bins0[i].Some? && !Wins(policy, bins0, procs0, i)
    ensures !OkToLoad(policy, bins[i := None], procs, bins0[i].value)
  {
    var (rest, b) := (bins[i := None], bins0[i].value);
    if q :| 0 <= q < |procs0| && procs0[q].Some? && BlockedByProcess(policy, b, procs0[q].value) {
      assert procs0[q] in procs;
    } else if k :| 0 <= k < i && Rivals(policy, bins0, i, k) && Wins(policy, bins0, procs0, k) {
      var s :| 0 <= s < |procs| && procs[s] == Some(NewProcess(policy, bins0[k].value));
      ProcessConflict(policy, b, procs, s);
    } else {
      var j :| i < j < |bins0| && Rivals(policy, bins0, i, j) && bins0[j].value.version > b.version;
      assert rest[j] == bins0[j];
    }
  }

  lemma MidwaySkip(policy: Policy, bins0: Binaries, procs0: Slots, bins: Binaries, procs: Slots, i: nat)
    requires Midway(policy, bins0, procs0, bins, procs, i) && i < |bins| && !Wins(policy, bins0, procs0, i)
    ensures Midway(policy, bins0, procs0, bins[i := None], procs, i + 1)
  {
  }

  lemma StillIn(procs: Slots, s: nat, p: Process, q: Process)
    requires s < |procs| && procs[s].None? && Some(q) in procs
    ensures Some(q) in procs[s := Some(p)]
  {
    var u :| 0 <= u < |procs| && procs[u] == Some(q);
    assert procs[s := Some(p)][u] == Some(q);
  }

  lemma AccountedLater(policy: Policy, bins0: Binaries, procs0: Slots, entry: Option<Process>, i: nat)
    requires i < |bins0| && Accounted(policy, bins0, procs0, entry, i)
    ensures Accounted(policy, bins0, procs0, entry, i + 1)
  {
  }

  lemma MidwayAdd(policy: Policy, bins0: Binaries, procs0: Slots, bins: Binaries, procs: Slots, i: nat, s: nat)
    requires Midway(policy, bins0, procs0, bins, procs, i) && i < |bins| && Wins(policy, bins0, procs0, i)
    requires s < |procs| && procs[s].None?
    requires Free(procs[s := Some(NewProcess(policy, bins0[i].value))]) == Free(procs) - 1
    ensures Midway(policy, bins0, procs0, bins[i := None], procs[s := Some(NewProcess(policy, bins0[i].value))], i + 1)
  {
    var p := NewProcess(policy, bins0[i].value);
    var procs' := procs[s := Some(p)];
    forall k | 0 <= k < i + 1 && Wins(policy, bins0, procs0, k)
      ensures Some(NewProcess(policy, bins0[k].value)) in procs'
    {
      if k == i { assert procs'[s] == Some(p); } else { StillIn(procs, s, p, NewProcess(policy, bins0[k].value)); }
    }
    forall u | 0 <= u < |procs0| && procs0[u].Some?
      ensures procs0[u] in procs'
    {
      StillIn(procs, s, p, procs0[u].value);
    }
    forall u | 0 <= u < |procs'| && procs'[u].Some?
      ensures Accounted(policy, bins0, procs0, procs'[u], i + 1)
    {
      if u != s { AccountedLater(policy, bins0, procs0, procs[u], i); }
    }
  }

  // One turn: the binary is loaded exactly if it wins.
  lemma MidwayStep(policy: Policy, bins0: Binaries, procs0: Slots, bins: Binaries, procs: Slots, i: nat)
    requires Coherent(policy) && Midway(policy, bins0, procs0, bins, procs, i)
    requires i < |bins| && bins[i].Some?
    ensures var b := bins[i].value;
            && OpenSlot(procs, 0).Some?
            && (OkToLoad(policy, bins[i := None], procs, b) <==> Wins(policy, bins0, procs0, i))
            && Midway(policy, bins0, procs0, bins[i := None],
                      LoadBinary(policy, bins[i := None], procs, b, Created).0, i + 1)
  {
    var (rest, b) := (bins[i := None], bins[i].value);
    if Wins(policy, bins0, procs0, i) {
      WinnerLoads(policy, bins0, procs0, bins, procs, i);
      var s := OpenSlot(procs, 0).value;
      UseOne(procs, s, NewProcess(policy, b));
      MidwayAdd(policy, bins0, procs0, bins, procs, i, s);
    } else {
      OtherBlocked(policy, bins0, procs0, bins, procs, i);
      MidwaySkip(policy, bins0, procs0, bins, procs, i);
    }
  }

  // The winners from i on, in order.
  function Winners(policy: Policy, bins: Binaries, procs: Slots, i: nat): seq<Pick>
    requires i <= |bins|
    decreases |bins| - i
  {
    if i == |bins| then []
    else if Wins(policy, bins, procs, i) then [Pick(i, bins[i].value)] + Winners(policy, bins, procs, i + 1)
    else Winners(policy, bins, procs, i + 1)
  }

  lemma {:induction false} InWinners(policy: Policy, bins: Binaries, procs: Slots, i: nat, x: Pick)
    requires i <= |bins|
    ensures x in Winners(policy, bins, procs, i) <==>
              i <= x.index < |bins| && Wins(policy, bins, procs, x.index) && x.binary == bins[x.index].value
    decreases |bins| - i
  {
    if i < |bins| { InWinners(policy, bins, procs, i + 1, x); }
  }

  lemma MidwayNone(policy: Policy, bins0: Binaries, procs0: Slots, bins: Binaries, procs: Slots, i: nat)
    requires Midway(policy, bins0, procs0, bins, procs, i) && i < |bins| && bins[i].None?
    ensures bins0[i].None? && Midway(policy, bins0, procs0, bins, procs, i + 1)
  {
    assert bins[i := None] == bins;
    MidwaySkip(policy, bins0, procs0, bins, procs, i);
  }

  lemma PickedIfWins(policy: Policy, bins0: Binaries, procs0: Slots, bins: Binaries, procs: Slots, i: nat)
    requires Coherent(policy) && Midway(policy, bins0, procs0, bins, procs, i)
    requires i < |bins| && bins[i].Some?
    ensures |bins| == |bins0| && bins0[i] == bins[i]
    ensures Picked(policy, bins[i := None], procs, bins[i].value, Created) <==> Wins(policy, bins0, procs0, i)
    ensures Midway(policy, bins0, procs0, bins[i := None],
                   LoadBinary(policy, bins[i := None], procs, bins[i].value, Created).0, i + 1)
  {
    MidwayStep(policy, bins0, procs0, bins, procs, i);
  }

  lemma PicksOne(policy: Policy, bins0: Binaries, procs0: Slots, bins: Binaries, procs: Slots, i: nat,
                 attempts: nat -> Attempt)
    requires i < |bins| == |bins0| && bins[i].Some? && bins0[i] == bins[i] && attempts(i) == Created
    requires Picked(policy, bins[i := None], procs, bins[i].value, Created) <==> Wins(policy, bins0, procs0, i)
    requires Picks(policy, bins[i := None], LoadBinary(policy, bins[i := None], procs, bins[i].value, Created).0, i + 1,
                   attempts) == Winners(policy, bins0, procs0, i + 1)
    ensures Picks(policy, bins, procs, i, attempts) == Winners(policy, bins0, procs0, i)
  {
  }

  lemma PicksNone(policy: Policy, bins0: Binaries, procs0: Slots, bins: Binaries, procs: Slots, i: nat,
                  attempts: nat -> Attempt)
    requires i < |bins| == |bins0| && bins[i].None? && bins0[i].None?
    requires Picks(policy, bins, procs, i + 1, attempts) == Winners(policy, bins0, procs0, i + 1)
    ensures Picks(policy, bins, procs, i, attempts) == Winners(policy, bins0, procs0, i)
  {
  }

  lemma {:induction false} PicksFrom(policy: Policy, bins0: Binaries, procs0: Slots, bins: Binaries, procs: Slots,
                                     i: nat, attempts: nat -> Attempt)
    requires Coherent(policy) && Midway(policy, bins0, procs0, bins, procs, i)
    requires forall n :: attempts(n).Created?
    ensures Picks(policy, bins, procs, i, attempts) == Winners(policy, bins0, procs0, i)
    decreases |bins| - i
  {
    if i == |bins| {
    } else if bins[i].None? {
      MidwayNone(policy, bins0, procs0, bins, procs, i);
      PicksFrom(policy, bins0, procs0, bins, procs, i + 1, attempts);
      PicksNone(policy, bins0, procs0, bins, procs, i, attempts);
    } else {
      PickedIfWins(policy, bins0, procs0, bins, procs, i);
      var rest := bins[i := None];
      PicksFrom(policy, bins0, procs0, rest, LoadBinary(policy, rest, procs, bins[i].value, Created).0, i + 1, attempts);
      PicksOne(policy, bins0, procs0, bins, procs, i, attempts);
    }
  }

  // With a coherent policy, a free slot for every binary and no failed creation,
  // the loader makes processes of exactly the winners, whatever the conflicts.
  lemma LoadsWinners(policy: Policy, bins: Binaries, procs: Slots, attempts: nat -> Attempt)
    requires Coherent(policy) && Labelled(policy, procs)
    requires Free(procs) >= |bins| && forall n :: attempts(n).Created?
    ensures Picks(policy, bins, procs, 0, attempts) == Winners(policy, bins, procs, 0)
    ensures forall k :: 0 <= k < |bins| && bins[k].Some? ==>
              (Pick(k, bins[k].value) in Picks(policy, bins, procs, 0, attempts) <==> Wins(policy, bins, procs, k))
  {
    assert forall s :: 0 <= s < |procs| && procs[s].Some? ==> Accounted(policy, bins, procs, procs[s], 0);
    PicksFrom(policy, bins, procs, bins, procs, 0, attempts);
    forall k | 0 <= k < |bins| && bins[k].Some?
      ensures Pick(k, bins[k].value) in Winners(policy, bins, procs, 0) <==> Wins(policy, bins, procs, k)
    {
      InWinners(policy, bins, procs, 0, Pick(k, bins[k].value));
    }
  }

  // ----------------------------------------------------- winners and the chosen

  // Binary i conflicts with a process that was already there, or with a newer
  // binary after it, or with a chosen one before it.
  predicate Beaten(policy: Policy, bins: Binaries, procs: Slots, i: nat)
    requires i < |bins| && bins[i].Some?
  {
    || Represented(policy, bins[i].value, procs)
    || (exists j :: i < j < |bins| && Rivals(policy, bins, i, j) && bins[j].value.version > bins[i].value.version)
    || (exists k :: 0 <= k < i && Rivals(policy, bins, i, k) && Chosen(policy, bins, procs, k))
  }

  predicate Settled(policy: Policy, bins: Binaries, procs: Slots) {
    forall i :: 0 <= i < |bins| && bins[i].Some? && !Chosen(policy, bins, procs, i) ==> Beaten(policy, bins, procs, i)
  }

  lemma {:induction false} SettledWins(policy: Policy, bins: Binaries, procs: Slots, i: nat)
    requires Coherent(policy) && Settled(policy, bins, procs) && i < |bins|
    ensures Wins(policy, bins, procs, i) <==> Chosen(policy, bins, procs, i)
    decreases i
  {
    forall k | 0 <= k < i
      ensures Wins(policy, bins, procs, k) <==> Chosen(policy, bins, procs, k)
    {
      SettledWins(policy, bins, procs, k);
    }
    if Chosen(policy, bins, procs, i) {
      forall j | 0 <= j < |bins| && Rivals(policy, bins, i, j)
        ensures Beats(bins, i, j) && !Chosen(policy, bins, procs, j)
      {
        assert Rivals(policy, bins, j, i);
      }
    } else if bins[i].Some? {
      assert Beaten(policy, bins, procs, i);
    }
  }

  // The loader makes processes of exactly the chosen binaries.
  ghost predicate Exact(policy: Policy, bins: Binaries, procs: Slots, attempts: nat -> Attempt) {
    forall k :: 0 <= k < |bins| && bins[k].Some? ==>
                  (Pick(k, bins[k].value) in Picks(policy, bins, procs, 0, attempts) <==> Chosen(policy, bins, procs, k))
  }

  // It does if and only if every other binary is beaten.
  lemma LoadsChosenIff(policy: Policy, bins: Binaries, procs: Slots, attempts: nat -> Attempt)
    requires Coherent(policy) && Labelled(policy, procs)
    requires Free(procs) >= |bins| && forall n :: attempts(n).Created?
    ensures Exact(policy, bins, procs, attempts) <==> Settled(policy, bins, procs)
  {
    LoadsWinners(policy, bins, procs, attempts);
    forall k | 0 <= k < |bins| && bins[k].Some?
      ensures Settled(policy, bins, procs) ==> (Wins(policy, bins, procs, k) <==> Chosen(policy, bins, procs, k))
    {
      if Settled(policy, bins, procs) { SettledWins(policy, bins, procs, k); }
    }
  }

  // ------------------------------------- what becomes of the other binaries

  // Every binary that is not chosen conflicts with an earlier process or with a
  // chosen binary, before it or after it.
  predicate Covered(policy: Policy, bins: Binaries, procs: Slots) {
    forall i :: 0 <= i < |bins| && bins[i].Some? && !Chosen(policy, bins, procs, i) ==>
                  || Represented(policy, bins[i].value, procs)
                  || exists k :: 0 <= k < |bins| && Rivals(policy, bins, i, k) && Chosen(policy, bins, procs, k)
  }

  lemma CoveredSettles(policy: Policy, bins: Binaries, procs: Slots)
    requires Coherent(policy) && Covered(policy, bins, procs)
    ensures Settled(policy, bins, procs)
  {
    forall i | 0 <= i < |bins| && bins[i].Some? && !Chosen(policy, bins, procs, i)
      ensures Beaten(policy, bins, procs, i)
    {
      if !Represented(policy, bins[i].value, procs) {
        var k :| 0 <= k < |bins| && Rivals(policy, bins, i, k) && Chosen(policy, bins, procs, k);
        assert Rivals(policy, bins, k, i) && Beats(bins, k, i);
      }
    }
  }

  // A transitive policy covers every list of binaries.
  lemma TransitiveCovers(policy: Policy, bins: Binaries, procs: Slots)
    requires Coherent(policy) && Transitive(policy) && Labelled(policy, procs)
    ensures Covered(policy, bins, procs)
  {
    forall i | 0 <= i < |bins| && bins[i].Some? && !Chosen(policy, bins, procs, i)
              && !Represented(policy, bins[i].value, procs)
      ensures exists k :: 0 <= k < |bins| && Rivals(policy, bins, i, k) && Chosen(policy, bins, procs, k)
    {
      var m := ClassHasChosen(policy, bins, procs, i);
    }
  }

  lemma {:induction false} InOccupied(procs: Slots, p: Process)
    ensures p in Occupied(procs) <==> Some(p) in procs
  {
    if procs != [] {
      InOccupied(procs[1..], p);
      assert procs == [procs[0]] + procs[1..];
    }
  }

  lemma {:induction false} InMade(policy: Policy, picks: seq<Pick>, p: Process)
    ensures p in Made(policy, picks) <==> exists x :: x in picks && p == NewProcess(policy, x.binary)
  {
    if picks != [] {
      InMade(policy, picks[1..], p);
      assert picks == [picks[0]] + picks[1..];
    }
  }

  // Every binary the loader passed over conflicts with a process that is there
  // in the end.
  ghost predicate Accountable(policy: Policy, bins: Binaries, procs: Slots, said: seq<Notice>, attempts: nat -> Attempt) {
    forall i :: 0 <= i < |bins| && bins[i].Some? && Pick(i, bins[i].value) !in Picks(policy, bins, procs, 0, attempts) ==>
                  Represented(policy, bins[i].value, LoadFrom(policy, bins, procs, said, 0, attempts).0)
  }

  // A binary conflicts with a process there in the end if and only if it does
  // with one there at the start or with a binary that was picked.
  lemma RepresentedIff(policy: Policy, bins: Binaries, procs: Slots, said: seq<Notice>, attempts: nat -> Attempt, b: Binary)
    requires Coherent(policy)
    ensures Represented(policy, b, LoadFrom(policy, bins, procs, said, 0, attempts).0) <==>
              || Represented(policy, b, procs)
              || exists x :: x in Picks(policy, bins, procs, 0, attempts) && Conflict(policy, b, x.binary)
  {
    var picks := Picks(policy, bins, procs, 0, attempts);
    var done := LoadFrom(policy, bins, procs, said, 0, attempts).0;
    PicksPlaced(policy, bins, procs, said, 0, attempts);
    forall p: Process
      ensures Some(p) in done <==> Some(p) in procs || exists x :: x in picks && p == NewProcess(policy, x.binary)
    {
      InOccupied(done, p);
      InOccupied(procs, p);
      InMade(policy, picks, p);
    }
    RepresentedBy(policy, b, done);
    RepresentedBy(policy, b, procs);
    if x :| x in picks && Conflict(policy, b, x.binary) {
      var p := NewProcess(policy, x.binary);
      assert Some(p) in done && BlockedByProcess(policy, b, p);
    }
  }

  lemma RepresentedBy(policy: Policy, b: Binary, procs: Slots)
    ensures Represented(policy, b, procs) <==> exists p :: Some(p) in procs && BlockedByProcess(policy, b, p)
  {
    if Represented(policy, b, procs) {
      var s :| 0 <= s < |procs| && procs[s].Some? && BlockedByProcess(policy, b, procs[s].value);
      assert Some(procs[s].value) in procs;
    }
  }

  // Every binary that does not win conflicts with an earlier process or with a
  // winner, before it or after it.
  predicate Excused(policy: Policy, bins: Binaries, procs: Slots) {
    forall i :: 0 <= i < |bins| && bins[i].Some? && !Wins(policy, bins, procs, i) ==>
                  || Represented(policy, bins[i].value, procs)
                  || exists k :: 0 <= k < |bins| && Rivals(policy, bins, i, k) && Wins(policy, bins, procs, k)
  }

  lemma PassedOver(policy: Policy, bins: Binaries, procs: Slots, said: seq<Notice>, attempts: nat -> Attempt, i: nat)
    requires Coherent(policy) && i < |bins| && bins[i].Some? && !Wins(policy, bins, procs, i)
    requires forall k :: 0 <= k < |bins| && bins[k].Some? ==>
               (Pick(k, bins[k].value) in Picks(policy, bins, procs, 0, attempts) <==> Wins(policy, bins, procs, k))
    ensures Represented(policy, bins[i].value, LoadFrom(policy, bins, procs, said, 0, attempts).0) <==>
              || Represented(policy, bins[i].value, procs)
              || exists k :: 0 <= k < |bins| && Rivals(policy, bins, i, k) && Wins(policy, bins, procs, k)
  {
    var (b, picks) := (bins[i].value, Picks(policy, bins, procs, 0, attempts));
    RepresentedIff(policy, bins, procs, said, attempts, b);
    PicksInOrder(policy, bins, procs, 0, attempts);
    if x :| x in picks && Conflict(policy, b, x.binary) {
      assert x == Pick(x.index, bins[x.index].value) && Wins(policy, bins, procs, x.index);
      assert Rivals(policy, bins, i, x.index);
    }
    if k :| 0 <= k < |bins| && Rivals(policy, bins, i, k) && Wins(policy, bins, procs, k) {
      var x := Pick(k, bins[k].value);
      assert x in picks && Conflict(policy, b, x.binary);
    }
  }

  // Every drop is accounted for by a process that is there in the end if and
  // only if every binary that does not win is excused.
  lemma AccountableIff(policy: Policy, bins: Binaries, procs: Slots, said: seq<Notice>, attempts: nat -> Attempt)
    requires Coherent(policy) && Labelled(policy, procs)
    requires Free(procs) >= |bins| && forall n :: attempts(n).Created?
    ensures Accountable(policy, bins, procs, said, attempts) <==> Excused(policy, bins, procs)
  {
    LoadsWinners(policy, bins, procs, attempts);
    forall i | 0 <= i < |bins| && bins[i].Some? && !Wins(policy, bins, procs, i)
      ensures Represented(policy, bins[i].value, LoadFrom(policy, bins, procs, said, 0, attempts).0) <==>
                || Represented(policy, bins[i].value, procs)
                || exists k :: 0 <= k < |bins| && Rivals(policy, bins, i, k) && Wins(policy, bins, procs, k)
    {
      PassedOver(policy, bins, procs, said, attempts, i);
    }
  }

  lemma ExcusedIsCovered(policy: Policy, bins: Binaries, procs: Slots)
    requires Coherent(policy) && Settled(policy, bins, procs)
    ensures Excused(policy, bins, procs) <==> Covered(policy, bins, procs)
  {
    forall i | 0 <= i < |bins|
      ensures Wins(policy, bins, procs, i) <==> Chosen(policy, bins, procs, i)
    {
      SettledWins(policy, bins, procs, i);
    }
  }

  // The loader makes processes of exactly the chosen binaries, and each binary
  // it passes over conflicts with a process that is there in the end, if and only
  // if the binaries are covered.
  lemma LoadsCoveredIff(policy: Policy, bins: Binaries, procs: Slots, said: seq<Notice>, attempts: nat -> Attempt)
    requires Coherent(policy) && Labelled(policy, procs)
    requires Free(procs) >= |bins| && forall n :: attempts(n).Created?
    ensures (Exact(policy, bins, procs, attempts) && Accountable(policy, bins, procs, said, attempts))
       <==> Covered(policy, bins, procs)
  {
    if Covered(policy, bins, procs) { CoveredSettles(policy, bins, procs); }
    LoadsChosenIff(policy, bins, procs, attempts);
    AccountableIff(policy, bins, procs, said, attempts);
    if Settled(policy, bins, procs) { ExcusedIsCovered(policy, bins, procs); }
  }

  // In particular the first binary of maximal version of each class, whenever
  // conflict is transitive.
  lemma FirstMaximalLoaded(policy: Policy, bins: Binaries, procs: Slots, attempts: nat -> Attempt, k: nat)
    requires Coherent(policy) && Transitive(policy) && Labelled(policy, procs)
    requires Free(procs) >= |bins| && forall n :: attempts(n).Created?
    requires k < |bins| && bins[k].Some?
    ensures Pick(k, bins[k].value) in Picks(policy, bins, procs, 0, attempts) <==> Chosen(policy, bins, procs, k)
  {
    TransitiveCovers(policy, bins, procs);
    CoveredSettles(policy, bins, procs);
    LoadsChosenIff(policy, bins, procs, attempts);
  }

  // One process per conflict class: no two chosen binaries are rivals.
  lemma OnePerClass(policy: Policy, bins: Binaries, procs: Slots, i: nat, j: nat)
    requires Coherent(policy) && i < |bins| && j < |bins|
    requires Chosen(policy, bins, procs, i) && Chosen(policy, bins, procs, j) && i != j
    ensures !Conflict(policy, bins[i].value, bins[j].value)
  {
    assert Rivals(policy, bins, i, j) ==> Rivals(policy, bins, j, i) && Beats(bins, i, j) && Beats(bins, j, i);
  }

  // Binaries at 1 and 2 share an application identifier, 2 and 3 a short one.
  const TWO_IDENTITIES: AppIdPolicy := AppIdPolicy(
    (a: Binary, b: Binary) => a.address > 2 || b.address > 2,
    (a: Binary, p: Process) => a.address > 2 || p.binary.address > 2,
    (a: Binary) => if a.address > 1 then Fixed(7) else LocallyUnique)

  // Conflict joins two relations, so it need not be transitive; then a binary
  // can be discarded although it conflicts with no process that is loaded.
  lemma NotTransitive(attempts: nat -> Attempt)
    requires forall n :: attempts(n).Created?
    ensures var policy := Some(TWO_IDENTITIES);
            var (a, b, c) := (Binary(1, 1), Binary(2, 2), Binary(3, 3));
            && LoadFrom(policy, [Some(a), Some(b), Some(c)], [None, None, None], [], 0, attempts).0
               == [Some(NewProcess(policy, c)), None, None]
            && !Conflict(policy, a, c)
  {
    var policy := Some(TWO_IDENTITIES);
    var (a, b, c) := (Binary(1, 1), Binary(2, 2), Binary(3, 3));
    var bins := [Some(a), Some(b), Some(c)];
    var procs: Slots := [None, None, None];
    var quiet: seq<Notice> := [];
    assert quiet + quiet == quiet;
    assert BlockedBy(policy, a, b) && BlockedBy(policy, b, c);
    var bins1 := bins[0 := None];
    assert bins1[1] == Some(b) && bins1[2] == Some(c);
    assert LoadBinary(policy, bins1, procs, a, attempts(0)) == (procs, []);
    var bins2 := bins1[1 := None];
    assert bins2[2] == Some(c);
    assert LoadBinary(policy, bins2, procs, b, attempts(1)) == (procs, []);
    var bins3 := bins2[2 := None];
    assert OkToLoad(policy, bins3, procs, c);
    var done := [Some(NewProcess(policy, c)), None, None];
    assert LoadBinary(policy, bins3, procs, c, attempts(2)).0 == done;
    assert LoadFrom(policy, bins3, done, [ProcessLoaded], 3, attempts).0 == done;
    assert LoadFrom(policy, bins2, procs, [], 2, attempts).0 == done;
    assert LoadFrom(policy, bins1, procs, [], 1, attempts).0 == done;
  }

  // These binaries are neither covered ...
  lemma NotCovered()
    ensures !Covered(Some(TWO_IDENTITIES), [Some(Binary(1, 1)), Some(Binary(2, 2)), Some(Binary(3, 3))],
                     [None, None, None])
  {
    var (policy, bins) := (Some(TWO_IDENTITIES), [Some(Binary(1, 1)), Some(Binary(2, 2)), Some(Binary(3, 3))]);
    var procs: Slots := [None, None, None];
    assert Rivals(policy, bins, 0, 1) && Rivals(policy, bins, 1, 2) && !Rivals(policy, bins, 0, 2);
    assert !Beats(bins, 0, 1) && !Beats(bins, 1, 2);
    assert !Chosen(policy, bins, procs, 0) && !Chosen(policy, bins, procs, 1);
  }

  // ... nor excused.
  lemma NotExcused()
    ensures !Excused(Some(TWO_IDENTITIES), [Some(Binary(1, 1)), Some(Binary(2, 2)), Some(Binary(3, 3))],
                     [None, None, None])
  {
    var (policy, bins) := (Some(TWO_IDENTITIES), [Some(Binary(1, 1)), Some(Binary(2, 2)), Some(Binary(3, 3))]);
    var procs: Slots := [None, None, None];
    assert Rivals(policy, bins, 0, 1) && Rivals(policy, bins, 1, 2) && !Rivals(policy, bins, 0, 2);
    assert !Wins(policy, bins, procs, 0) && !Wins(policy, bins, procs, 1);
  }
}
