// The kernel-managed part of grants as words of process memory
// (kernel/src/grant.rs): decoding the words gives the grant memory of the process
// value, and writing one entry in words is the swap on the value.

module GrantWords {
  import opened Wrappers
  import opened Powers
  import opened ProcessTypes
  import opened ProcessSpec
  import opened GrantTable
  import opened Syscalls
  import opened GrantRanges
  import L = GrantLayout
  import M = ProcessMemory

  // ------------------------------------------------------------- one grant

  // The counter word and three arrays of entries of two words.
  function Words(n: L.Counts): nat { 1 + (n.upcalls + n.allowRos + n.allowRws) * 2 }

  function UpcallWord(w: nat, i: nat): nat { w + 1 + 2 * i }

  function AllowWord(w: nat, n: L.Counts, kind: AllowKind, i: nat): nat {
    w + 1 + 2 * (n.upcalls + (if kind == RwAllow then n.allowRos else 0) + i)
  }

  function AllowCount(n: L.Counts, kind: AllowKind): nat { if kind == RwAllow then n.allowRws else n.allowRos }

  function UpcallsAt(mem: seq<nat>, w: nat, n: L.Counts): (s: seq<SavedUpcall>)
    requires w + Words(n) <= |mem|
    ensures |s| == n.upcalls
    ensures forall i :: 0 <= i < |s| ==> s[i] == SavedUpcall(mem[UpcallWord(w, i)], mem[UpcallWord(w, i) + 1])
  {
    seq(n.upcalls, i requires 0 <= i < n.upcalls => SavedUpcall(mem[UpcallWord(w, i)], mem[UpcallWord(w, i) + 1]))
  }

  function AllowsAt(mem: seq<nat>, w: nat, n: L.Counts, kind: AllowKind): (s: seq<SavedAllow>)
    requires w + Words(n) <= |mem|
    ensures |s| == AllowCount(n, kind)
    ensures forall i :: 0 <= i < |s| ==>
              s[i] == SavedAllow(mem[AllowWord(w, n, kind, i)], mem[AllowWord(w, n, kind, i) + 1])
  {
    seq(AllowCount(n, kind), i requires 0 <= i < AllowCount(n, kind) =>
          SavedAllow(mem[AllowWord(w, n, kind, i)], mem[AllowWord(w, n, kind, i) + 1]))
  }

  function Decode(mem: seq<nat>, w: nat, n: L.Counts): GrantMemory
    requires w + Words(n) <= |mem|
  {
    GrantMemory(UpcallsAt(mem, w, n), AllowsAt(mem, w, n, RoAllow), AllowsAt(mem, w, n, RwAllow))
  }

  // An entry is two words: appdata and function pointer, or pointer and length.
  function Write(mem: seq<nat>, at: nat, first: nat, second: nat): (m: seq<nat>)
    requires at + 1 < |mem|
    ensures |m| == |mem|
  {
    mem[at := first][at + 1 := second]
  }

  lemma DecodeSame(mem: seq<nat>, mem': seq<nat>, w: nat, n: L.Counts)
    requires w + Words(n) <= |mem| == |mem'| && forall i :: w <= i < w + Words(n) ==> mem'[i] == mem[i]
    ensures Decode(mem', w, n) == Decode(mem, w, n)
  {
    assert UpcallsAt(mem', w, n) == UpcallsAt(mem, w, n);
    assert AllowsAt(mem', w, n, RoAllow) == AllowsAt(mem, w, n, RoAllow);
    assert AllowsAt(mem', w, n, RwAllow) == AllowsAt(mem, w, n, RwAllow);
  }

  lemma InitializedWords(mem: seq<nat>, base: nat, n: L.Counts)
    requires base % 4 == 0 && base / 4 + Words(n) <= |mem|
    ensures base / 4 + L.KernelManagedSize(n) / L.WORD_BYTES <= |mem|
    ensures var m := L.Initialized(mem, base, n);
            && |m| == |mem| && m[base / 4] == L.PackCounters(n)
            && (forall i :: base / 4 < i < base / 4 + Words(n) ==> m[i] == 0)
            && (forall i :: 0 <= i < |mem| && !(base / 4 <= i < base / 4 + Words(n)) ==> m[i] == mem[i])
  {
    L.WordPositions(base, n);
  }

  // What initialize_from_counts writes decodes to the counts and the defaults.
  lemma DecodeInitialized(mem: seq<nat>, base: nat, n: L.Counts)
    requires L.ValidCounts(n) && base % 4 == 0 && base / 4 + Words(n) <= |mem|
    ensures base / 4 + L.KernelManagedSize(n) / L.WORD_BYTES <= |mem|
    ensures var m := L.Initialized(mem, base, n);
            L.UnpackCounters(m[base / 4]) == n && Decode(m, base / 4, n) == DefaultMemory(n)
  {
    InitializedWords(mem, base, n);
    L.CountersRoundTrip(n);
    var (m, w, d) := (L.Initialized(mem, base, n), base / 4, DefaultMemory(n));
    assert UpcallsAt(m, w, n) == d.upcalls;
    assert AllowsAt(m, w, n, RoAllow) == d.allowRos;
    assert AllowsAt(m, w, n, RwAllow) == d.allowRws;
  }

  // Writing one saved upcall in words is replacing it.
  lemma DecodeUpcall(mem: seq<nat>, w: nat, n: L.Counts, i: nat, u: SavedUpcall)
    requires w + Words(n) <= |mem| && i < n.upcalls
    ensures var d := Decode(mem, w, n);
            Decode(Write(mem, UpcallWord(w, i), u.appdata, u.fnPtr), w, n) == d.(upcalls := d.upcalls[i := u])
  {
    var mem' := Write(mem, UpcallWord(w, i), u.appdata, u.fnPtr);
    assert UpcallsAt(mem', w, n) == UpcallsAt(mem, w, n)[i := u];
    assert AllowsAt(mem', w, n, RoAllow) == AllowsAt(mem, w, n, RoAllow);
    assert AllowsAt(mem', w, n, RwAllow) == AllowsAt(mem, w, n, RwAllow);
  }

  lemma AllowEntry(mem: seq<nat>, w: nat, n: L.Counts, kind: AllowKind, i: nat)
    requires w + Words(n) <= |mem| && i < AllowCount(n, kind)
    ensures var (at, s) := (AllowWord(w, n, kind, i), Decode(mem, w, n).Allows(kind));
            && w < at && at + 1 < w + Words(n) && |s| == AllowCount(n, kind)
            && s[i] == SavedAllow(mem[at], mem[at + 1])
  {
  }

  lemma WriteElsewhere(mem: seq<nat>, at: nat, first: nat, second: nat, w: nat, end: nat)
    requires w <= at && at + 1 < end <= |mem|
    ensures forall i :: 0 <= i < |mem| && !(w <= i < end) ==> Write(mem, at, first, second)[i] == mem[i]
  {
  }

  // Writing one saved buffer in words is replacing it, and no other of either kind.
  lemma DecodeAllow(mem: seq<nat>, w: nat, n: L.Counts, kind: AllowKind, i: nat, a: SavedAllow)
    requires w + Words(n) <= |mem| && i < AllowCount(n, kind)
    ensures Decode(Write(mem, AllowWord(w, n, kind, i), a.ptr, a.len), w, n) == Decode(mem, w, n).WithAllow(kind, i, a)
  {
    var mem' := Write(mem, AllowWord(w, n, kind, i), a.ptr, a.len);
    var other := if kind == RwAllow then RoAllow else RwAllow;
    assert UpcallsAt(mem', w, n) == UpcallsAt(mem, w, n);
    assert AllowsAt(mem', w, n, kind) == AllowsAt(mem, w, n, kind)[i := a];
    assert AllowsAt(mem', w, n, other) == AllowsAt(mem, w, n, other);
  }

  // ---------------------------------------------------------- all the grants

  function WordOf(p: Process, g: nat): nat
    requires g < |p.grants|
  {
    Untagged(p.grants[g].ptr) / 4
  }

  // Allocated grants are word-aligned and their words are apart.
  ghost predicate Spread(b: Board, p: Process)
    requires Sized(b, p)
  {
    && (forall g :: 0 <= g < |p.grants| && Allocated(p.grants[g]) ==> Untagged(p.grants[g].ptr) % 4 == 0)
    && (forall g, h :: 0 <= g < |p.grants| && 0 <= h < |p.grants| && g != h ==>
          (Allocated(p.grants[g]) && Allocated(p.grants[h]) ==> ApartWords(b, p, g, h)))
  }

  predicate ApartWords(b: Board, p: Process, g: nat, h: nat)
    requires Sized(b, p) && g < |p.grants| && h < |p.grants|
  {
    || WordOf(p, g) + Words(b.grants[g].counts) <= WordOf(p, h)
    || WordOf(p, h) + Words(b.grants[h].counts) <= WordOf(p, g)
  }

  // The words at each allocated grant are the grant memory of the process.
  ghost predicate Represents(mem: seq<nat>, b: Board, p: Process)
    requires Sized(b, p)
  {
    forall g :: 0 <= g < |p.grants| && Allocated(p.grants[g]) ==>
                  && WordOf(p, g) + Words(b.grants[g].counts) <= |mem|
                  && Decode(mem, WordOf(p, g), b.grants[g].counts) == p.memory[g]
  }

  // In every state with the range invariant, unless a request has wrapped.
  lemma RangesSpread(b: Board, p: Process, allocs: seq<Alloc>)
    requires ValidBoard(b) && Sized(b, p) && RangeInv(b, p, allocs)
    requires forall a :: a in allocs ==> !a.wraps
    ensures Spread(b, p)
  {
    forall g | 0 <= g < |p.grants| && Allocated(p.grants[g])
      ensures Untagged(p.grants[g].ptr) % 4 == 0
    {
      var i := RangeOf(b, p, allocs, g);
      L.BaseAligned(allocs[i].start, b.grants[g].tAlign);
    }
    forall g, h | 0 <= g < |p.grants| && 0 <= h < |p.grants| && g != h && Allocated(p.grants[g]) && Allocated(p.grants[h])
      ensures ApartWords(b, p, g, h)
    {
      var i := RangeOf(b, p, allocs, g);
      var j := RangeOf(b, p, allocs, h);
      L.BaseAligned(allocs[i].start, b.grants[g].tAlign);
      L.BaseAligned(allocs[j].start, b.grants[h].tAlign);
      assert Below(allocs[j], allocs[i]) || Below(allocs[i], allocs[j]);
      RangeWords(allocs[i].start, b.grants[g]);
      RangeWords(allocs[j].start, b.grants[h]);
    }
  }

  lemma RangeOf(b: Board, p: Process, allocs: seq<Alloc>, g: nat) returns (i: nat)
    requires Sized(b, p) && RangeInv(b, p, allocs) && g < |p.grants| && Allocated(p.grants[g])
    ensures i < |allocs| && allocs[i] in allocs && allocs[i].owner == Some(g) && OwnerOk(b, p, allocs[i])
    ensures allocs[i].align >= 1 && allocs[i].start % allocs[i].align == 0
  {
    assert Owned(allocs, g);
    i :| 0 <= i < |allocs| && allocs[i].owner == Some(g);
    assert allocs[i] in allocs && InRegion(p, allocs[i]) && OwnerOk(b, p, allocs[i]);
  }

  lemma RangeWords(start: nat, d: GrantDecl)
    requires d.tAlign > 0 && start % 4 == 0
    ensures 4 * (start / 4 + Words(d.counts)) <= start + DeclaredSize(d)
  {
  }

  // --------------------------------------------------- operations, in words

  // Replacing the memory of grant g alone, on a memory that differs only there.
  lemma Replaced(mem: seq<nat>, mem': seq<nat>, b: Board, p: Process, q: Process, g: nat)
    requires Sized(b, p) && Sized(b, q) && Spread(b, p) && Represents(mem, b, p)
    requires g < |p.grants| && Allocated(p.grants[g]) && |mem'| == |mem|
    requires q.grants == p.grants && q.memory == p.memory[g := q.memory[g]]
    requires forall i :: 0 <= i < |mem| && !(WordOf(p, g) <= i < WordOf(p, g) + Words(b.grants[g].counts)) ==>
               mem'[i] == mem[i]
    requires Decode(mem', WordOf(p, g), b.grants[g].counts) == q.memory[g]
    ensures Represents(mem', b, q)
  {
    forall h | 0 <= h < |q.grants| && Allocated(q.grants[h])
      ensures Decode(mem', WordOf(q, h), b.grants[h].counts) == q.memory[h]
    {
      if h != g {
        assert ApartWords(b, p, g, h);
        DecodeSame(mem, mem', WordOf(p, h), b.grants[h].counts);
      }
    }
  }

  // A successful subscribe in words: read the two words of the entry, write the
  // two new ones.
  lemma SwapUpcallInWords(mem: seq<nat>, b: Board, p: Process, id: UpcallId, upcall: SavedUpcall)
    requires GrantInv(b, p) && Spread(b, p) && Represents(mem, b, p) && SwapUpcall(p, id, upcall).0.Success?
    ensures var (r, q) := SwapUpcall(p, id, upcall);
            && LookupGrant(p, id.driverNum).Some? && GrantInv(b, q)
            && var at := UpcallWord(WordOf(p, LookupGrant(p, id.driverNum).value), id.subscribeNum);
               && at + 1 < |mem| && r.value == SavedUpcall(mem[at], mem[at + 1])
               && Represents(Write(mem, at, upcall.appdata, upcall.fnPtr), b, q)
  {
    var (r, q) := SwapUpcall(p, id, upcall);
    SwapUpcallEffect(b, p, id, upcall);
    var g := LookupGrant(p, id.driverNum).value;
    EnterLeave(p, g);
    var (w, n) := (WordOf(p, g), b.grants[g].counts);
    DecodeUpcall(mem, w, n, id.subscribeNum, upcall);
    Replaced(mem, Write(mem, UpcallWord(w, id.subscribeNum), upcall.appdata, upcall.fnPtr), b, p, q, g);
  }

  // The value side of a successful allow.
  lemma SwapAllowParts(b: Board, p: Process, kind: AllowKind, driverNum: nat, allowNum: nat, buffer: SavedAllow)
    requires GrantInv(b, p) && SwapAllow(p, kind, driverNum, allowNum, buffer).0.Success?
    ensures var (r, q) := SwapAllow(p, kind, driverNum, allowNum, buffer);
            && LookupGrant(p, driverNum).Some? && Sized(b, q)
            && var g := LookupGrant(p, driverNum).value;
               && Allocated(p.grants[g]) && allowNum < |p.memory[g].Allows(kind)|
               && r.value == p.memory[g].Allows(kind)[allowNum]
               && q == p.(memory := p.memory[g := p.memory[g].WithAllow(kind, allowNum, buffer)])
  {
    SwapAllowEffect(b, p, kind, driverNum, allowNum, buffer);
  }

  // The same for a successful allow of either kind.
  lemma SwapAllowInWords(mem: seq<nat>, b: Board, p: Process, kind: AllowKind, driverNum: nat, allowNum: nat,
                         buffer: SavedAllow, held: SavedAllow, q: Process)
    requires GrantInv(b, p) && Spread(b, p) && Represents(mem, b, p)
    requires SwapAllow(p, kind, driverNum, allowNum, buffer) == (Success(held), q)
    ensures LookupGrant(p, driverNum).Some? && Sized(b, q)
    ensures var g := LookupGrant(p, driverNum).value;
            var at := AllowWord(WordOf(p, g), b.grants[g].counts, kind, allowNum);
            && at + 1 < |mem| && held == SavedAllow(mem[at], mem[at + 1])
            && Represents(Write(mem, at, buffer.ptr, buffer.len), b, q)
  {
    SwapAllowParts(b, p, kind, driverNum, allowNum, buffer);
    var g := LookupGrant(p, driverNum).value;
    AllowInWords(mem, b, p, q, g, kind, allowNum, buffer);
  }

  lemma AllowInWords(mem: seq<nat>, b: Board, p: Process, q: Process, g: nat, kind: AllowKind, i: nat, a: SavedAllow)
    requires Sized(b, p) && Sized(b, q) && Spread(b, p) && Represents(mem, b, p)
    requires g < |p.grants| && Allocated(p.grants[g]) && i < |p.memory[g].Allows(kind)|
    requires q == p.(memory := p.memory[g := p.memory[g].WithAllow(kind, i, a)])
    ensures var at := AllowWord(WordOf(p, g), b.grants[g].counts, kind, i);
            && at + 1 < |mem| && p.memory[g].Allows(kind)[i] == SavedAllow(mem[at], mem[at + 1])
            && Represents(Write(mem, at, a.ptr, a.len), b, q)
  {
    var (w, n) := (WordOf(p, g), b.grants[g].counts);
    assert Decode(mem, w, n) == p.memory[g];
    AllowEntry(mem, w, n, kind, i);
    DecodeAllow(mem, w, n, kind, i, a);
    var at := AllowWord(w, n, kind, i);
    WriteElsewhere(mem, at, a.ptr, a.len, w, w + Words(n));
    Replaced(mem, Write(mem, at, a.ptr, a.len), b, p, q, g);
  }

  // Entering a grant for the first time in words: initialize_from_counts at the
  // address allocated for it.
  lemma FirstUseInWords(mem: seq<nat>, b: Board, p: Process, q: Process, g: nat)
    requires ValidBoard(b) && M.MemInv(p) && Sized(b, p) && Sized(b, q) && FirstUse(b, p, q, g)
    requires Represents(mem, b, p) && Spread(b, q) && WordOf(q, g) + Words(b.grants[g].counts) <= |mem|
    ensures var (base, n) := (q.kernelBreak, b.grants[g].counts);
            && base % 4 == 0 && base / 4 + L.KernelManagedSize(n) / L.WORD_BYTES <= |mem|
            && Represents(L.Initialized(mem, base, n), b, q)
  {
    var (base, n) := (q.kernelBreak, b.grants[g].counts);
    TagIsLowBit(base);
    DecodeInitialized(mem, base, n);
    InitializedWords(mem, base, n);
    var mem' := L.Initialized(mem, base, n);
    forall h | 0 <= h < |q.grants| && Allocated(q.grants[h])
      ensures Decode(mem', WordOf(q, h), b.grants[h].counts) == q.memory[h]
      ensures WordOf(q, h) + Words(b.grants[h].counts) <= |mem'|
    {
      if h != g {
        assert ApartWords(b, q, g, h) && q.grants[h] == p.grants[h];
        DecodeSame(mem, mem', WordOf(q, h), b.grants[h].counts);
      }
    }
  }
}
