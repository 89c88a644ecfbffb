// Powers of two, alignment and the bit helpers the kernel builds on
// (kernel/src/utilities/math.rs and the integer intrinsics used by mpu.rs).

module Wrappers {
  datatype Option<+T> = None | Some(value: T)

  datatype Result<+T, +E> = Ok(value: T) | Err(error: E)
}

module Powers {

  // Addresses and sizes are 32-bit machine words.
  const WORD: nat := 0x1_0000_0000

  function Pow2(k: nat): (p: nat)
    ensures p >= 1
  {
    if k == 0 then 1 else 2 * Pow2(k - 1)
  }

  ghost predicate IsPow2(x: nat) {
    exists k: nat :: x == Pow2(k)
  }

  function Max(x: int, y: int): int { if x < y then y else x }

  function Min(x: int, y: int): int { if x < y then x else y }

  // ------------------------------------------------------------ divisibility

  lemma MulAtLeast(k: int, d: int)
    requires d > 0 && k >= 1
    ensures k * d >= d
  {
  }

  lemma DivModUnique(x: int, d: int, q: int, r: int)
    requires d > 0 && 0 <= r < d && x == q * d + r
    ensures x / d == q && x % d == r
  {
    var p := x / d;
    assert x == p * d + x % d;
    assert (q - p) * d == q * d - p * d;
    assert (p - q) * d == p * d - q * d;
    if q > p {
      MulAtLeast(q - p, d);
    } else if q < p {
      MulAtLeast(p - q, d);
    }
  }

  lemma MultipleMod(q: int, d: int)
    requires d > 0
    ensures (q * d) % d == 0 && (q * d) / d == q
  {
    DivModUnique(q * d, d, q, 0);
  }

  lemma ModAdd(x: int, y: int, d: int)
    requires d > 0 && x % d == 0 && y % d == 0
    ensures (x + y) % d == 0 && (x - y) % d == 0
  {
    var p, q := x / d, y / d;
    assert x == p * d && y == q * d;
    assert x + y == (p + q) * d && x - y == (p - q) * d;
    MultipleMod(p + q, d);
    MultipleMod(p - q, d);
  }

  lemma ModTrans(x: int, y: int, d: int)
    requires d > 0 && y > 0 && x % y == 0 && y % d == 0
    ensures x % d == 0
  {
    var p, q := x / y, y / d;
    assert x == p * y && y == q * d;
    assert x == (p * q) * d by {
      assert p * (q * d) == (p * q) * d;
    }
    MultipleMod(p * q, d);
  }

  // The nearest multiple of d at or below x.
  function AlignDown(x: nat, d: nat): (r: nat)
    requires d > 0
    ensures x - d < r <= x
  {
    x - x % d
  }

  lemma AlignDownMultiple(x: nat, d: nat)
    requires d > 0
    ensures AlignDown(x, d) % d == 0
  {
    MultipleMod(x / d, d);
    assert AlignDown(x, d) == (x / d) * d;
  }

  // The nearest multiple of d at or above x.
  function AlignUp(x: nat, d: nat): (r: nat)
    requires d > 0
    ensures x <= r < x + d
  {
    if x % d == 0 then x else x + (d - x % d)
  }

  lemma AlignUpMultiple(x: nat, d: nat)
    requires d > 0
    ensures AlignUp(x, d) % d == 0
  {
    if x % d != 0 {
      MultipleMod(x / d + 1, d);
      assert AlignUp(x, d) == (x / d + 1) * d;
    }
  }

  // No multiple of d lies strictly between x and AlignUp(x, d).
  lemma AlignUpLeast(x: nat, d: nat, m: int)
    requires d > 0 && m % d == 0 && m >= x
    ensures AlignUp(x, d) <= m
  {
    AlignUpMultiple(x, d);
    ModAdd(m, AlignUp(x, d), d);
    if m < AlignUp(x, d) {
      DivModUnique(m - AlignUp(x, d), d, -1, m - AlignUp(x, d) + d);
      assert false;
    }
  }

  // ---------------------------------------------------------- powers of two

  lemma {:induction false} Pow2Add(a: nat, b: nat)
    ensures Pow2(a + b) == Pow2(a) * Pow2(b)
  {
    if b > 0 {
      Pow2Add(a, b - 1);
      assert 2 * (Pow2(a) * Pow2(b - 1)) == Pow2(a) * (2 * Pow2(b - 1));
    }
  }

  lemma Pow2Divides(a: nat, b: nat)
    requires a <= b
    ensures Pow2(b) % Pow2(a) == 0
    ensures Pow2(a) <= Pow2(b)
  {
    Pow2Add(b - a, a);
    MultipleMod(Pow2(b - a), Pow2(a));
    assert Pow2(b - a) * Pow2(a) >= 1 * Pow2(a);
  }

  lemma Pow2Strict(a: nat, b: nat)
    requires a < b
    ensures 2 * Pow2(a) <= Pow2(b)
  {
  }

  lemma Pow2Constants()
    ensures Pow2(1) == 2 && Pow2(2) == 4 && Pow2(3) == 8 && Pow2(4) == 16
    ensures Pow2(5) == 32 && Pow2(8) == 256 && Pow2(9) == 512
    ensures Pow2(16) == 65536 && Pow2(31) == 0x8000_0000 && Pow2(32) == WORD
  {
    assert Pow2(4) == 16;
    assert Pow2(8) == 256 by { Pow2Add(4, 4); }
    assert Pow2(16) == 65536 by { Pow2Add(8, 8); }
    assert Pow2(32) == WORD by { Pow2Add(16, 16); }
  }

  // Of two powers of two the smaller divides the larger.
  lemma Pow2DividesByValue(x: nat, y: nat)
    requires IsPow2(x) && IsPow2(y) && x <= y
    ensures y % x == 0
  {
    var a: nat :| x == Pow2(a);
    var b: nat :| y == Pow2(b);
    if a <= b {
      Pow2Divides(a, b);
    } else {
      Pow2Strict(b, a);
      assert false;
    }
  }

  lemma Pow2Exponent(x: nat, low: nat)
    returns (k: nat)
    requires IsPow2(x) && x >= Pow2(low)
    ensures k >= low && x == Pow2(k)
  {
    k :| x == Pow2(k);
    if k < low {
      Pow2Strict(k, low);
      assert false;
    }
  }

  lemma Pow2Half(x: nat)
    requires IsPow2(x) && x >= 2
    ensures IsPow2(x / 2) && 2 * (x / 2) == x
  {
    Pow2Constants();
    var k := Pow2Exponent(x, 1);
    assert x == 2 * Pow2(k - 1);
  }

  lemma Pow2Double(x: nat)
    requires IsPow2(x)
    ensures IsPow2(2 * x)
  {
    var k: nat :| x == Pow2(k);
    assert 2 * x == Pow2(k + 1);
  }

  // u32::count_ones.
  function CountOnes(n: nat): nat {
    if n == 0 then 0 else n % 2 + CountOnes(n / 2)
  }

  // "At most one bit set" is the test the allocator uses for "power of two".
  lemma {:induction false} CountOnesPow2(n: nat)
    requires n > 0
    ensures CountOnes(n) >= 1
    ensures CountOnes(n) == 1 <==> IsPow2(n)
  {
    if n == 1 {
      assert n == Pow2(0);
    } else if n % 2 == 0 {
      CountOnesPow2(n / 2);
      if IsPow2(n / 2) { Pow2Double(n / 2); }
      if IsPow2(n) { Pow2Half(n); }
    } else {
      CountOnesPow2(n / 2);
      if IsPow2(n) { Pow2Half(n); assert false; }
    }
  }

  // u32::trailing_zeros of a non-zero word.
  function TrailingZeros(n: nat): nat
    requires n > 0
  {
    if n % 2 == 1 then 0 else 1 + TrailingZeros(n / 2)
  }

  lemma {:induction false} TrailingZerosDivides(n: nat)
    requires n > 0
    ensures n % Pow2(TrailingZeros(n)) == 0
  {
    if n % 2 == 0 {
      TrailingZerosDivides(n / 2);
      var d := Pow2(TrailingZeros(n / 2));
      var q := (n / 2) / d;
      assert n / 2 == q * d;
      assert n == q * (2 * d);
      MultipleMod(q, 2 * d);
    }
  }

  lemma {:induction false} DividesTrailing(n: nat, k: nat)
    requires n > 0 && n % Pow2(k) == 0
    ensures k <= TrailingZeros(n)
  {
    if k > 0 {
      var q := n / Pow2(k);
      assert n == q * Pow2(k) == 2 * (q * Pow2(k - 1)) by {
        assert q * (2 * Pow2(k - 1)) == 2 * (q * Pow2(k - 1));
      }
      MultipleMod(q, Pow2(k - 1));
      DividesTrailing(n / 2, k - 1);
    }
  }

  // The powers of two that divide n are those up to its trailing zeros.
  lemma TrailingZerosGreatest(n: nat, k: nat)
    requires n > 0
    ensures n % Pow2(k) == 0 <==> k <= TrailingZeros(n)
  {
    if n % Pow2(k) == 0 { DividesTrailing(n, k); }
    if k <= TrailingZeros(n) {
      TrailingZerosDivides(n);
      Pow2Divides(k, TrailingZeros(n));
      ModTrans(n, Pow2(TrailingZeros(n)), Pow2(k));
    }
  }

  // What math::closest_power_of_two is for (ClosestPowerOfTwoIsCeil).
  function CeilPow2(n: nat): (p: nat)
    requires n >= 1
    ensures n <= p < 2 * n
  {
    if n == 1 then 1 else 2 * CeilPow2((n + 1) / 2)
  }

  lemma {:induction false} CeilPow2IsPow2(n: nat)
    requires n >= 1
    ensures IsPow2(CeilPow2(n))
  {
    if n == 1 {
      assert CeilPow2(n) == Pow2(0);
    } else {
      CeilPow2IsPow2((n + 1) / 2);
      Pow2Double(CeilPow2((n + 1) / 2));
    }
  }

  // It is the least power of two that is not below n.
  lemma CeilPow2Least(n: nat, p: nat)
    requires n >= 1 && IsPow2(p) && p >= n
    ensures CeilPow2(n) <= p
  {
    CeilPow2IsPow2(n);
    if p < CeilPow2(n) {
      var a: nat :| p == Pow2(a);
      var b: nat :| CeilPow2(n) == Pow2(b);
      if b <= a { Pow2Divides(b, a); } else { Pow2Strict(a, b); }
      assert false;
    }
  }

  // ------------------------------------------ closest_power_of_two, bit by bit

  // The value of a machine word given as its bits, lowest first.
  function Value(s: seq<bool>): nat {
    if s == [] then 0 else (if s[0] then 1 else 0) + 2 * Value(s[1..])
  }

  // num | (num >> k)
  function Spread(s: seq<bool>, k: nat): (t: seq<bool>)
    ensures |t| == |s|
  {
    seq(|s|, i requires 0 <= i < |s| => s[i] || (i + k < |s| && s[i + k]))
  }

  // The five steps of closest_power_of_two between the decrement and the increment.
  function Smeared(s: seq<bool>): seq<bool> {
    Spread(Spread(Spread(Spread(Spread(s, 1), 2), 4), 8), 16)
  }

  // One of the n bits from i on is set.
  predicate AnyFrom(s: seq<bool>, i: nat, n: nat) {
    exists j :: i <= j < i + n && j < |s| && s[j]
  }

  // Bit i of t tells whether one of the n bits of s from i on is set.
  predicate Window(s: seq<bool>, t: seq<bool>, n: nat) {
    |t| == |s| && forall i :: 0 <= i < |s| ==> (t[i] <==> AnyFrom(s, i, n))
  }

  // Each step doubles the window.
  lemma SpreadDoubles(s: seq<bool>, t: seq<bool>, n: nat)
    requires Window(s, t, n)
    ensures Window(s, Spread(t, n), 2 * n)
  {
    forall i | 0 <= i < |s|
      ensures Spread(t, n)[i] <==> AnyFrom(s, i, 2 * n)
    {
      if j :| i <= j < i + 2 * n && j < |s| && s[j] {
        if j < i + n { assert AnyFrom(s, i, n); } else { assert AnyFrom(s, i + n, n); }
      }
    }
  }

  lemma SmearedWindow(s: seq<bool>)
    ensures Window(s, Smeared(s), 32)
  {
    var t1 := Spread(s, 1);
    var t2 := Spread(t1, 2);
    var t4 := Spread(t2, 4);
    var t8 := Spread(t4, 8);
    SpreadDoubles(s, s, 1);
    SpreadDoubles(s, t1, 2);
    SpreadDoubles(s, t2, 4);
    SpreadDoubles(s, t4, 8);
    SpreadDoubles(s, t8, 16);
  }

  // The number of bits up to the highest one set.
  function BitLength(s: seq<bool>): (m: nat)
    ensures m <= |s| && (m > 0 ==> s[m - 1]) && forall i :: m <= i < |s| ==> !s[i]
  {
    if s == [] then 0 else if s[|s| - 1] then |s| else BitLength(s[..|s| - 1])
  }

  lemma {:induction false} ValueBound(s: seq<bool>, m: nat)
    requires m <= |s| && forall i :: m <= i < |s| ==> !s[i]
    ensures Value(s) < Pow2(m)
    ensures m > 0 && s[m - 1] ==> Pow2(m - 1) <= Value(s)
    ensures (forall i :: 0 <= i < m ==> s[i]) ==> Value(s) == Pow2(m) - 1
    decreases |s|
  {
    if s != [] { ValueBound(s[1..], if m > 0 then m - 1 else 0); }
  }

  lemma LeastAbove(num: nat, m: nat)
    requires 1 <= num <= Pow2(m) && (m > 0 ==> Pow2(m - 1) < num)
    ensures CeilPow2(num) == Pow2(m)
  {
    CeilPow2Least(num, Pow2(m));
    CeilPow2IsPow2(num);
    var k: nat :| CeilPow2(num) == Pow2(k);
    if k < m { Pow2Divides(k, m - 1); } else if k > m { Pow2Strict(m, k); }
  }

  // A word whose every bit tells whether it or a higher one was set.
  lemma {:induction false} FullWindow(s: seq<bool>, t: seq<bool>, n: nat)
    requires |s| <= n && Window(s, t, n)
    ensures Value(t) + 1 == CeilPow2(Value(s) + 1)
  {
    var m := BitLength(s);
    forall i | 0 <= i < |s|
      ensures t[i] <==> i < m
    {
      if i < m { assert s[m - 1]; }
    }
    ValueBound(s, m);
    ValueBound(t, m);
    LeastAbove(Value(s) + 1, m);
  }

  // Decrementing, smearing the highest bit down and incrementing is rounding up
  // to the least power of two.
  lemma ClosestPowerOfTwoIsCeil(num: nat, less: seq<bool>)
    requires num >= 1 && |less| <= 32 && Value(less) == num - 1
    ensures Value(Smeared(less)) + 1 == CeilPow2(num)
  {
    SmearedWindow(less);
    FullWindow(less, Smeared(less), 32);
  }

  // math::log_base_two, the floor of the logarithm.
  function Log2(n: nat): nat {
    if n < 2 then 0 else 1 + Log2(n / 2)
  }

  lemma {:induction false} Log2Pow2(k: nat)
    ensures Log2(Pow2(k)) == k
  {
    if k > 0 { Log2Pow2(k - 1); }
  }
}
