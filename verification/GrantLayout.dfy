// The memory layout of one grant (kernel/src/grant.rs): a counters word, three
// arrays of kernel-managed entries, padding, and the capsule's own data T.
// Memory is an array of 32-bit words; word i holds the bytes 4*i .. 4*i+3.

module GrantLayout {
  import opened Powers

  // size_of usize, SavedUpcall, SavedAllowRo and SavedAllowRw on a 32-bit target.
  const WORD_BYTES: nat := 4
  const ENTRY_BYTES: nat := 8
  const ENTRY_WORDS: nat := 2

  // UpcallItems, AllowRoItems, AllowRwItems: each count is a u8.
  datatype Counts = Counts(upcalls: nat, allowRos: nat, allowRws: nat)

  predicate ValidCounts(n: Counts) {
    n.upcalls < 256 && n.allowRos < 256 && n.allowRws < 256
  }

  // The pointers kept while a grant is entered.
  datatype Layout = Layout(counters: nat, upcalls: nat, allowRo: nat, allowRw: nat)

  function KernelManagedSize(n: Counts): nat {
    WORD_BYTES + n.upcalls * ENTRY_BYTES + n.allowRos * ENTRY_BYTES + n.allowRws * ENTRY_BYTES
  }

  // Bytes to the next multiple of `align`; a whole `align` becomes zero. The
  // source masks with align - 1, which for a power of two is the remainder.
  function Padding(n: Counts, align: nat): nat
    requires align > 0
  {
    (align - KernelManagedSize(n) % align) % align
  }

  function GrantSize(n: Counts, tSize: nat, tAlign: nat): nat
    requires tAlign > 0
  {
    KernelManagedSize(n) + Padding(n, tAlign) + tSize
  }

  function GrantAlign(tAlign: nat): nat {
    Max(WORD_BYTES, tAlign)
  }

  function OffsetOfT(n: Counts, tSize: nat, tAlign: nat): nat
    requires tAlign > 0
  {
    GrantSize(n, tSize, tAlign) - tSize
  }

  function LayoutAt(base: nat, n: Counts): Layout {
    Layout(base, base + WORD_BYTES, base + WORD_BYTES + n.upcalls * ENTRY_BYTES,
           base + WORD_BYTES + n.upcalls * ENTRY_BYTES + n.allowRos * ENTRY_BYTES)
  }

  // u32::from_be_bytes([0, rw, ro, upcalls]).
  function PackCounters(n: Counts): nat {
    n.allowRws * 65536 + n.allowRos * 256 + n.upcalls
  }

  // (counters >> offset_bits) & 0xFF.
  function CounterAt(word: nat, offsetBits: nat): nat {
    word / Pow2(offsetBits) % 256
  }

  function UnpackCounters(word: nat): Counts {
    Counts(CounterAt(word, 0), CounterAt(word, 8), CounterAt(word, 16))
  }

  // ------------------------------------------------------------- arithmetic

  lemma PadsUp(k: nat, align: nat)
    requires align > 0
    ensures k + (align - k % align) % align == AlignUp(k, align)
  {
    if k % align == 0 {
      MultipleMod(1, align);
    } else {
      DivModUnique(align - k % align, align, 0, align - k % align);
    }
  }

  lemma PaddingAligns(n: Counts, align: nat)
    requires align > 0
    ensures (KernelManagedSize(n) + Padding(n, align)) % align == 0
    ensures Padding(n, align) < align
  {
    PadsUp(KernelManagedSize(n), align);
    AlignUpMultiple(KernelManagedSize(n), align);
  }

  lemma BaseAligned(base: nat, tAlign: nat)
    requires IsPow2(tAlign) && base % GrantAlign(tAlign) == 0
    ensures base % tAlign == 0 && base % WORD_BYTES == 0
  {
    Pow2Constants();
    assert IsPow2(4) by { assert 4 == Pow2(2); }
    Pow2DividesByValue(4, GrantAlign(tAlign));
    Pow2DividesByValue(tAlign, GrantAlign(tAlign));
    ModTrans(base, GrantAlign(tAlign), tAlign);
    ModTrans(base, GrantAlign(tAlign), 4);
  }

  lemma DataAligned(base: nat, n: Counts, tSize: nat, tAlign: nat)
    requires IsPow2(tAlign) && base % GrantAlign(tAlign) == 0
    ensures (base + OffsetOfT(n, tSize, tAlign)) % tAlign == 0
  {
    BaseAligned(base, tAlign);
    PaddingAligns(n, tAlign);
    ModAdd(base, KernelManagedSize(n) + Padding(n, tAlign), tAlign);
  }

  // Counters, upcalls, read-only allows, read-write allows and T, as (start, length).
  function Sections(base: nat, n: Counts, tSize: nat, tAlign: nat): (s: seq<(nat, nat)>)
    requires tAlign > 0
    ensures |s| == 5
  {
    var l := LayoutAt(base, n);
    [(l.counters, WORD_BYTES),
     (l.upcalls, n.upcalls * ENTRY_BYTES),
     (l.allowRo, n.allowRos * ENTRY_BYTES),
     (l.allowRw, n.allowRws * ENTRY_BYTES),
     (base + OffsetOfT(n, tSize, tAlign), tSize)]
  }

  // The five sections follow one another without overlap inside the grant.
  lemma SectionsFit(base: nat, n: Counts, tSize: nat, tAlign: nat)
    requires tAlign > 0
    ensures var s := Sections(base, n, tSize, tAlign);
            && (forall i, j :: 0 <= i < j < 5 ==> s[i].0 + s[i].1 <= s[j].0)
            && (forall i :: 0 <= i < 5 ==> base <= s[i].0 && s[i].0 + s[i].1 <= base + GrantSize(n, tSize, tAlign))
  {
  }

  // Wherever the allocator placed an aligned base, the arrays are word-aligned
  // and T lands on its own alignment.
  lemma SectionsAligned(base: nat, n: Counts, tSize: nat, tAlign: nat)
    requires IsPow2(tAlign) && base % GrantAlign(tAlign) == 0
    ensures var s := Sections(base, n, tSize, tAlign);
            && (forall i :: 0 <= i < 4 ==> s[i].0 % WORD_BYTES == 0)
            && s[4].0 % tAlign == 0
  {
    DataAligned(base, n, tSize, tAlign);
    assert base % WORD_BYTES == 0 by { BaseAligned(base, tAlign); }
    ArraysAligned(base, n);
  }

  // The whole grant: a word, eight bytes an entry, up to the alignment of T, and T.
  lemma GrantSizeIs(n: Counts, tSize: nat, tAlign: nat)
    requires tAlign > 0
    ensures GrantSize(n, tSize, tAlign) == AlignUp(4 + 8 * (n.upcalls + n.allowRos + n.allowRws), tAlign) + tSize
    ensures GrantAlign(tAlign) == if tAlign > 4 then tAlign else 4
  {
    PadsUp(KernelManagedSize(n), tAlign);
  }

  lemma ArraysAligned(base: nat, n: Counts)
    requires base % WORD_BYTES == 0
    ensures var l := LayoutAt(base, n);
            l.upcalls % WORD_BYTES == 0 && l.allowRo % WORD_BYTES == 0 && l.allowRw % WORD_BYTES == 0
  {
    WordPositions(base, n);
  }

  lemma CountersRoundTrip(n: Counts)
    requires ValidCounts(n)
    ensures UnpackCounters(PackCounters(n)) == n
    ensures PackCounters(n) < WORD
    ensures PackCounters(n) % 256 == n.upcalls && PackCounters(n) / 256 % 256 == n.allowRos
    ensures PackCounters(n) / 65536 == n.allowRws
  {
    var w := PackCounters(n);
    assert Pow2(0) == 1 && Pow2(8) == 256 && Pow2(16) == 65536 by { Pow2Constants(); }
    DivModUnique(w, 256, n.allowRws * 256 + n.allowRos, n.upcalls);
    DivModUnique(n.allowRws * 256 + n.allowRos, 256, n.allowRws, n.allowRos);
    DivModUnique(w, 65536, n.allowRws, n.allowRos * 256 + n.upcalls);
  }

  // --------------------------------------------------------- initialization

  // Words [from, from + count) zeroed: the default entry is two zero words.
  function Zeroed(mem: seq<nat>, from: nat, count: nat): (m: seq<nat>)
    requires from + count <= |mem|
    ensures |m| == |mem|
    ensures forall i :: 0 <= i < |mem| ==> m[i] == if from <= i < from + count then 0 else mem[i]
  {
    seq(|mem|, i requires 0 <= i < |mem| => if from <= i < from + count then 0 else mem[i])
  }

  method WriteDefaultArray(mem: array<nat>, base: nat, num: nat)
    requires base % WORD_BYTES == 0 && base / WORD_BYTES + num * ENTRY_WORDS <= mem.Length
    modifies mem
    ensures mem[..] == Zeroed(old(mem[..]), base / WORD_BYTES, num * ENTRY_WORDS)
  {
    var w := base / WORD_BYTES;
    for i := 0 to num
      invariant mem[..] == Zeroed(old(mem[..]), w, i * ENTRY_WORDS)
    {
      mem[w + i * ENTRY_WORDS] := 0;
      mem[w + i * ENTRY_WORDS + 1] := 0;
    }
  }

  // Memory after initialization: the packed counters, then zeros; nothing else moves.
  function Initialized(mem: seq<nat>, base: nat, n: Counts): (m: seq<nat>)
    requires base % WORD_BYTES == 0 && base / WORD_BYTES + KernelManagedSize(n) / WORD_BYTES <= |mem|
    ensures |m| == |mem|
    ensures forall i :: 0 <= i < |mem| && !(base <= 4 * i < base + KernelManagedSize(n)) ==> m[i] == mem[i]
  {
    var w := base / WORD_BYTES;
    Zeroed(mem, w + 1, (n.upcalls + n.allowRos + n.allowRws) * ENTRY_WORDS)[w := PackCounters(n)]
  }

  lemma ZeroedAppend(mem: seq<nat>, from: nat, a: nat, b: nat)
    requires from + a + b <= |mem|
    ensures Zeroed(Zeroed(mem, from, a), from + a, b) == Zeroed(mem, from, a + b)
  {
  }

  lemma ZeroedAfter(mem: seq<nat>, w: nat, x: nat, count: nat)
    requires w + 1 + count <= |mem|
    ensures Zeroed(mem[w := x], w + 1, count) == Zeroed(mem, w + 1, count)[w := x]
  {
  }

  // Where the three arrays start, in words.
  lemma WordPositions(base: nat, n: Counts)
    requires base % WORD_BYTES == 0
    ensures KernelManagedSize(n) / WORD_BYTES == 1 + (n.upcalls + n.allowRos + n.allowRws) * ENTRY_WORDS
    ensures var (l, w) := (LayoutAt(base, n), base / WORD_BYTES);
            && l.upcalls % WORD_BYTES == 0 && l.upcalls / WORD_BYTES == w + 1
            && l.allowRo % WORD_BYTES == 0 && l.allowRo / WORD_BYTES == w + 1 + n.upcalls * ENTRY_WORDS
            && l.allowRw % WORD_BYTES == 0 && l.allowRw / WORD_BYTES == w + 1 + (n.upcalls + n.allowRos) * ENTRY_WORDS
  {
    var w := base / WORD_BYTES;
    var up, ro, rw := n.upcalls * 2, n.allowRos * 2, n.allowRws * 2;
    DivModUnique(KernelManagedSize(n), WORD_BYTES, 1 + up + ro + rw, 0);
    DivModUnique(base + 4, WORD_BYTES, w + 1, 0);
    DivModUnique(base + 4 + 4 * up, WORD_BYTES, w + 1 + up, 0);
    DivModUnique(base + 4 + 4 * up + 4 * ro, WORD_BYTES, w + 1 + up + ro, 0);
  }

  method WriteDefaults(mem: array<nat>, base: nat, n: Counts)
    requires base % WORD_BYTES == 0 && base / WORD_BYTES + KernelManagedSize(n) / WORD_BYTES <= mem.Length
    modifies mem
    ensures base / WORD_BYTES + 1 + (n.upcalls + n.allowRos + n.allowRws) * ENTRY_WORDS <= mem.Length
    ensures mem[..] == Zeroed(old(mem[..]), base / WORD_BYTES + 1, (n.upcalls + n.allowRos + n.allowRws) * ENTRY_WORDS)
  {
    ghost var before, w := mem[..], base / WORD_BYTES;
    WordPositions(base, n);
    var layout := LayoutAt(base, n);
    WriteDefaultArray(mem, layout.upcalls, n.upcalls);
    WriteDefaultArray(mem, layout.allowRo, n.allowRos);
    ZeroedAppend(before, w + 1, n.upcalls * ENTRY_WORDS, n.allowRos * ENTRY_WORDS);
    WriteDefaultArray(mem, layout.allowRw, n.allowRws);
    ZeroedAppend(before, w + 1, (n.upcalls + n.allowRos) * ENTRY_WORDS, n.allowRws * ENTRY_WORDS);
  }

  method InitializeFromCounts(mem: array<nat>, base: nat, n: Counts) returns (layout: Layout)
    requires base % WORD_BYTES == 0 && base / WORD_BYTES + KernelManagedSize(n) / WORD_BYTES <= mem.Length
    modifies mem
    ensures layout == LayoutAt(base, n)
    ensures mem[..] == Initialized(old(mem[..]), base, n)
  {
    layout := Layout(base, base + WORD_BYTES, base + WORD_BYTES + n.upcalls * ENTRY_BYTES,
                     base + WORD_BYTES + n.upcalls * ENTRY_BYTES + n.allowRos * ENTRY_BYTES);
    WordPositions(base, n);
    ghost var before, w := mem[..], base / WORD_BYTES;
    mem[base / WORD_BYTES] := PackCounters(n);
    assert mem[..] == before[w := PackCounters(n)];
    WriteDefaults(mem, base, n);
    ZeroedAfter(before, w, PackCounters(n), (n.upcalls + n.allowRos + n.allowRws) * ENTRY_WORDS);
  }

  // Recover the array positions from the counters word alone.
  function ReadFromBase(mem: seq<nat>, base: nat): Layout
    requires base % WORD_BYTES == 0 && base / WORD_BYTES < |mem|
  {
    var n := UnpackCounters(mem[base / WORD_BYTES]);
    LayoutAt(base, Counts(n.upcalls, n.allowRos, 0))
  }

  // A grant entered later sees the arrays, and all three counts, that were laid
  // out when it was first allocated, with every entry at its default.
  lemma ReadAfterInitialize(mem: seq<nat>, base: nat, n: Counts)
    requires ValidCounts(n)
    requires base % WORD_BYTES == 0 && base / WORD_BYTES + KernelManagedSize(n) / WORD_BYTES <= |mem|
    ensures var m := Initialized(mem, base, n);
            && ReadFromBase(m, base) == LayoutAt(base, n)
            && UnpackCounters(m[base / WORD_BYTES]) == n
            && (forall i :: base / WORD_BYTES < i < (base + KernelManagedSize(n)) / WORD_BYTES ==> m[i] == 0)
  {
    CountersRoundTrip(n);
  }
}
