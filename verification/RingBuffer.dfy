// The ring buffer that holds a process's tasks
// (kernel/src/collections/ring_buffer.rs), against the sequence it represents.

module Queues {
  import opened Wrappers

  // Elements of s that satisfy f, in order.
  function Kept<T>(s: seq<T>, f: T -> bool): (r: seq<T>)
    ensures |r| <= |s|
    decreases |s|
  {
    if s == [] then []
    else
      var front := Kept(s[..|s| - 1], f);
      if f(s[|s| - 1]) then front + [s[|s| - 1]] else front
  }

  // Kept is a filter: it keeps all and only the elements that satisfy f.
  lemma {:induction false} KeptElements<T>(s: seq<T>, f: T -> bool)
    ensures forall x :: x in Kept(s, f) <==> x in s && f(x)
    decreases |s|
  {
    if s != [] {
      KeptElements(s[..|s| - 1], f);
      assert s == s[..|s| - 1] + [s[|s| - 1]];
    }
  }

  // Index of the first element from i on that satisfies f.
  function FirstMatch<T>(s: seq<T>, f: T -> bool, i: nat): (k: Option<nat>)
    requires i <= |s|
    ensures k.Some? ==> i <= k.value < |s| && f(s[k.value]) && forall j :: i <= j < k.value ==> !f(s[j])
    ensures k.None? ==> forall j :: i <= j < |s| ==> !f(s[j])
    decreases |s| - i
  {
    if i == |s| then None else if f(s[i]) then Some(i) else FirstMatch(s, f, i + 1)
  }

  // ------------------------------------------------- positions on the ring

  function Slot(head: nat, k: nat, n: nat): (slot: nat)
    requires head < n && k < n
    ensures slot < n
  {
    if head + k < n then head + k else head + k - n
  }

  function Length(head: nat, tail: nat, n: nat): (len: nat)
    requires head < n && tail < n
    ensures len < n && Slot(head, len, n) == tail
  {
    if tail >= head then tail - head else n - head + tail
  }

  // Stepping to the next slot modulo the ring's length.
  function Next(slot: nat, n: nat): (next: nat)
    requires slot < n
    ensures next < n && next == if slot + 1 == n then 0 else slot + 1
  {
    (slot + 1) % n
  }

  function Read<T>(ring: seq<T>, head: nat, len: nat): (s: seq<T>)
    requires head < |ring| && len < |ring|
    ensures |s| == len && forall k :: 0 <= k < len ==> s[k] == ring[Slot(head, k, |ring|)]
  {
    seq(len, k requires 0 <= k < len => ring[Slot(head, k, |ring|)])
  }

  // From position lo to hi, the ring shows t.
  ghost predicate Shows<T>(ring: seq<T>, head: nat, t: seq<T>, lo: nat, hi: nat)
    requires head < |ring|
  {
    hi <= |t| && hi < |ring| && forall j :: lo <= j < hi ==> ring[Slot(head, j, |ring|)] == t[j]
  }

  lemma ReadShows<T>(ring: seq<T>, head: nat, t: seq<T>)
    requires head < |ring| && Shows(ring, head, t, 0, |t|)
    ensures Read(ring, head, |t|) == t
  {
  }

  // Writing outside [lo, hi) leaves what shows there.
  lemma WriteOutside<T>(ring: seq<T>, head: nat, t: seq<T>, lo: nat, hi: nat, d: nat, x: T)
    requires head < |ring| && Shows(ring, head, t, lo, hi) && d < |ring| && !(lo <= d < hi)
    ensures Shows(ring[Slot(head, d, |ring|) := x], head, t, lo, hi)
  {
  }

  // The first k elements of s have been filtered in place.
  ghost predicate Filtered<T>(ring: seq<T>, head: nat, s: seq<T>, f: T -> bool, k: nat, kept: seq<T>) {
    && head < |ring| && k <= |s| < |ring| && kept == Kept(s[..k], f) && |kept| <= k
    && Shows(ring, head, kept, 0, |kept|) && Shows(ring, head, s, k, |s|)
  }

  lemma FilterOne<T>(ring: seq<T>, head: nat, s: seq<T>, f: T -> bool, k: nat, kept: seq<T>)
    requires Filtered(ring, head, s, f, k, kept) && k < |s|
    ensures ring[Slot(head, k, |ring|)] == s[k]
    ensures f(s[k]) ==> Filtered(ring[Slot(head, |kept|, |ring|) := s[k]], head, s, f, k + 1, kept + [s[k]])
    ensures !f(s[k]) ==> Filtered(ring, head, s, f, k + 1, kept)
  {
    assert s[..k + 1][..k] == s[..k];
    if f(s[k]) {
      WriteOutside(ring, head, kept, 0, |kept|, |kept|, s[k]);
      WriteOutside(ring, head, s, k + 1, |s|, |kept|, s[k]);
    }
  }

  class RingBuffer<T> {
    const ring: array<T>
    var head: nat
    var tail: nat

    ghost predicate Valid()
      reads this
    {
      head < ring.Length && tail < ring.Length
    }

    ghost function Contents(): (s: seq<T>)
      requires Valid()
      reads this, ring
      ensures |s| < ring.Length
    {
      Read(ring[..], head, Length(head, tail, ring.Length))
    }

    constructor (ring: array<T>)
      requires ring.Length > 0
      ensures Valid() && Contents() == [] && this.ring == ring
    {
      this.ring, head, tail := ring, 0, 0;
    }

    method Len() returns (n: nat)
      requires Valid()
      ensures n == |Contents()|
    {
      if tail > head { return tail - head; }
      if tail < head { return (ring.Length - head) + tail; }
      return 0;
    }

    method HasElements() returns (b: bool)
      requires Valid()
      ensures b <==> Contents() != []
    {
      return head != tail;
    }

    method IsFull() returns (b: bool)
      requires Valid()
      ensures b <==> |Contents()| == ring.Length - 1
    {
      return head == Next(tail, ring.Length);
    }

    method Enqueue(val: T) returns (ok: bool)
      requires Valid()
      modifies this`tail, ring
      ensures Valid()
      ensures ok <==> old(|Contents()|) < ring.Length - 1
      ensures Contents() == if ok then old(Contents()) + [val] else old(Contents())
    {
      var full := IsFull();
      if full { return false; }
      ring[tail] := val;
      tail := Next(tail, ring.Length);
      return true;
    }

    method Dequeue() returns (val: Option<T>)
      requires Valid()
      modifies this`head
      ensures Valid()
      ensures var before := old(Contents());
              if before == [] then val == None && Contents() == []
              else val == Some(before[0]) && Contents() == before[1..]
    {
      if head == tail { return None; }
      val := Some(ring[head]);
      head := Next(head, ring.Length);
    }

    // A ring of one slot can hold nothing: it returns what was in the slot.
    method Push(val: T) returns (dropped: Option<T>)
      requires Valid()
      modifies this`head, this`tail, ring
      ensures Valid()
      ensures var before := old(Contents());
              if |before| < ring.Length - 1 then dropped == None && Contents() == before + [val]
              else if before == [] then dropped == Some(old(ring[0])) && Contents() == []
              else dropped == Some(before[0]) && Contents() == before[1..] + [val]
    {
      dropped := None;
      var full := IsFull();
      if full {
        dropped := Some(ring[head]);
        head := Next(head, ring.Length);
      }
      ring[tail] := val;
      tail := Next(tail, ring.Length);
    }

    method Empty()
      requires Valid()
      modifies this`head, this`tail
      ensures Valid() && Contents() == []
    {
      head, tail := 0, 0;
    }

    method Retain(f: T -> bool)
      requires Valid()
      modifies this`tail, ring
      ensures Valid() && Contents() == Kept(old(Contents()), f)
    {
      ghost var s := Contents();
      ghost var k := 0;
      ghost var kept: seq<T> := [];
      var src, dst := head, head;
      while src != tail
        invariant Filtered(ring[..], head, s, f, k, kept)
        invariant tail == Slot(head, |s|, ring.Length)
        invariant src == Slot(head, k, ring.Length) && dst == Slot(head, |kept|, ring.Length)
        decreases |s| - k
      {
        dst, kept := RetainOne(f, src, dst, s, k, kept);
        src := Next(src, ring.Length);
        k := k + 1;
      }
      tail := dst;
      assert s[..k] == s;
      ReadShows(ring[..], head, kept);
    }

    // Move the element at `src` to `dst` if it is to be kept.
    method RetainOne(f: T -> bool, src: nat, dst: nat, ghost s: seq<T>, ghost k: nat, ghost kept: seq<T>)
      returns (dst': nat, ghost kept': seq<T>)
      requires Filtered(ring[..], head, s, f, k, kept) && k < |s|
      requires src == Slot(head, k, ring.Length) && dst == Slot(head, |kept|, ring.Length)
      modifies ring
      ensures Filtered(ring[..], head, s, f, k + 1, kept') && dst' == Slot(head, |kept'|, ring.Length)
    {
      FilterOne(ring[..], head, s, f, k, kept);
      dst', kept' := dst, kept;
      if f(ring[src]) {
        ghost var before := ring[..];
        if src != dst { ring[dst] := ring[src]; }
        assert ring[..] == before[dst := s[k]];
        dst' := Next(dst, ring.Length);
        kept' := kept + [s[k]];
      }
    }

    method RemoveFirstMatching(f: T -> bool) returns (val: Option<T>)
      requires Valid()
      modifies this`tail, ring
      ensures Valid()
      ensures var before := old(Contents());
              match FirstMatch(before, f, 0)
              case None => val == None && Contents() == before
              case Some(k) => val == Some(before[k]) && Contents() == before[..k] + before[k + 1..]
    {
      var n := ring.Length;
      ghost var s := Contents();
      ghost var k := 0;
      var slot := head;
      while slot != tail
        invariant k <= |s| && slot == Slot(head, k, n) && Contents() == s
        invariant FirstMatch(s, f, 0) == FirstMatch(s, f, k)
        decreases |s| - k
      {
        if f(ring[slot]) {
          val := Some(ring[slot]);
          CloseGap(slot, k);
          return;
        }
        slot := Next(slot, n);
        k := k + 1;
      }
      return None;
    }

    // Shift everything after slot `at` forward by one.
    method CloseGap(at: nat, ghost k: nat)
      requires Valid() && k < |Contents()| && at == Slot(head, k, ring.Length)
      modifies this`tail, ring
      ensures Valid() && Contents() == old(Contents()[..k] + Contents()[k + 1..])
    {
      var n := ring.Length;
      ghost var s := Contents();
      ghost var t := s[..k] + s[k + 1..];
      ghost var j := k;
      var slot, nextSlot := at, Next(at, n);
      while nextSlot != tail
        invariant k <= j < |s| && slot == Slot(head, j, n) && nextSlot == Slot(head, j + 1, n)
        invariant tail == Slot(head, |s|, n)
        invariant Shows(ring[..], head, t, 0, j) && Shows(ring[..], head, s, j + 1, |s|)
        decreases |s| - j
      {
        ghost var before := ring[..];
        WriteOutside(before, head, t, 0, j, j, s[j + 1]);
        WriteOutside(before, head, s, j + 2, |s|, j, s[j + 1]);
        ring[slot] := ring[nextSlot];
        assert ring[..] == before[slot := s[j + 1]];
        slot := nextSlot;
        nextSlot := Next(nextSlot, n);
        j := j + 1;
      }
      tail := slot;
      ReadShows(ring[..], head, t);
    }
  }
}
