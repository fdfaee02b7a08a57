/** Page numbers as digit vectors: the odometer of the MMU and the index that
    the multi-level page table computes from a digit vector. */
module Addressing {

  function Pow(b: nat, e: nat): (r: nat)
    ensures b > 0 ==> r > 0
  {
    if e == 0 then 1 else Pow(b, e - 1) * b
  }

  predicate InRange(digits: seq<int>, base: nat) {
    forall k :: 0 <= k < |digits| ==> 0 <= digits[k] < base
  }

  /** The number that a digit vector denotes, most significant digit first. */
  function Value(digits: seq<int>, base: nat): int {
    if digits == [] then 0
    else Value(digits[..|digits| - 1], base) * base + digits[|digits| - 1]
  }

  /** The odometer successor: the all-nines vector rolls over to all zeros. */
  function Next(digits: seq<int>, base: nat): (r: seq<int>)
    ensures |r| == |digits|
  {
    if digits == [] then []
    else
      var high, low := digits[..|digits| - 1], digits[|digits| - 1];
      if low + 1 == base then Next(high, base) + [0] else high + [low + 1]
  }

  function Zeros(n: nat): (r: seq<int>)
    ensures |r| == n && forall k :: 0 <= k < n ==> r[k] == 0
  {
    seq(n, _ => 0)
  }

  lemma {:induction false} ValueBounds(digits: seq<int>, base: nat)
    requires InRange(digits, base)
    ensures 0 <= Value(digits, base) < Pow(base, |digits|)
  {
    if digits != [] {
      var high := digits[..|digits| - 1];
      ValueBounds(high, base);
      AppendBounds(Value(high, base), digits[|digits| - 1], Pow(base, |high|), base);
    }
  }

  lemma AppendBounds(high: int, low: int, top: int, base: nat)
    requires 0 <= high < top && 0 <= low < base
    ensures 0 <= high * base + low < top * base
  {
    MulMonotone(high + 1, top, base);
    MulNonNegative(high, base);
  }

  lemma MulGap(d: int, base: int)
    requires base >= 0
    ensures d >= 1 ==> d * base >= base
    ensures d <= -1 ==> d * base <= -base
  {
    if d >= 1 {
      MulMonotone(1, d, base);
    } else if d <= -1 {
      MulMonotone(d, -1, base);
    }
  }

  lemma MulMonotone(a: int, b: int, c: nat)
    requires a <= b
    ensures a * c <= b * c
  {
    assert b * c - a * c == (b - a) * c;
    MulNonNegative(b - a, c);
  }

  lemma MulNonNegative(a: nat, c: nat)
    ensures a * c >= 0
  {
  }

  /** Every number has at most one in-range digit vector of a given length. */
  lemma {:induction false} ValueInjective(a: seq<int>, b: seq<int>, base: nat)
    requires |a| == |b| && InRange(a, base) && InRange(b, base)
    ensures Value(a, base) == Value(b, base) <==> a == b
  {
    if a != [] && Value(a, base) == Value(b, base) {
      var n := |a| - 1;
      DivisionUnique(Value(a[..n], base), a[n], Value(b[..n], base), b[n], base);
      ValueInjective(a[..n], b[..n], base);
      assert a == a[..n] + [a[n]] && b == b[..n] + [b[n]];
    }
  }

  lemma DivisionUnique(q: int, r: int, q': int, r': int, base: nat)
    requires 0 <= r < base && 0 <= r' < base && q * base + r == q' * base + r'
    ensures q == q' && r == r'
  {
    MulGap(q - q', base);
    assert (q - q') * base == r' - r;
  }

  /** The odometer adds one modulo base^length and keeps digits in range. */
  lemma {:induction false} NextValue(digits: seq<int>, base: nat)
    requires base >= 1 && InRange(digits, base)
    ensures InRange(Next(digits, base), base)
    ensures Value(Next(digits, base), base) ==
            if Value(digits, base) + 1 == Pow(base, |digits|) then 0 else Value(digits, base) + 1
  {
    if digits != [] {
      var n := |digits| - 1;
      var high, low := digits[..n], digits[n];
      NextValue(high, base);
      var next := Next(digits, base);
      assert next[..n] == if low + 1 == base then Next(high, base) else high;
      ValueBounds(high, base);
      Carry(Value(high, base), low, Pow(base, n), base);
    }
  }

  lemma Carry(high: int, low: int, top: int, base: int)
    requires 0 <= low < base && 0 <= high < top
    ensures high * base + low + 1 == top * base <==> low + 1 == base && high + 1 == top
    ensures low + 1 == base ==> (high + 1) * base == high * base + low + 1
  {
    MulGap(top - (high + 1), base);
    assert (top - (high + 1)) * base == top * base - high * base - base;
  }

  lemma {:induction false} ZerosValue(n: nat, base: nat)
    requires base >= 1
    ensures InRange(Zeros(n), base) && Value(Zeros(n), base) == 0
  {
    if n > 0 {
      ZerosValue(n - 1, base);
      assert Zeros(n)[..n - 1] == Zeros(n - 1);
    }
  }

  /** One step of the page-table walk: the partial sum after digit i, scaled by
      what the remaining levels weigh, absorbs the next digit. */
  lemma WalkStep(address: seq<int>, base: nat, i: nat)
    requires i < |address|
    ensures Value(address[..i + 1], base) * Pow(base, |address| - 1 - i) ==
            Value(address[..i], base) * Pow(base, |address| - i) + address[i] * Pow(base, |address| - 1 - i)
  {
    var w := Pow(base, |address| - 1 - i);
    var v := Value(address[..i], base);
    assert address[..i + 1][..i] == address[..i];
    assert Value(address[..i + 1], base) == v * base + address[i];
    assert Pow(base, |address| - i) == w * base;
    assert (v * base + address[i]) * w == v * (w * base) + address[i] * w;
  }

  /** Before the first digit of a walk, and how much the last one weighs. */
  lemma WalkStart(address: seq<int>, base: nat)
    ensures Value(address[..0], base) == 0 && Pow(base, 0) == 1
    ensures Value(address[..0], base) * Pow(base, |address|) == 0
    ensures Value(address, base) * Pow(base, 0) == Value(address, base)
  {
  }

  /** mmu.go sum: the digit slice is incremented in place, right to left. */
  method Sum(val: array<int>, mod: nat)
    requires val.Length >= 1 && mod >= 1 && InRange(val[..], mod)
    modifies val
    ensures val[..] == Next(old(val[..]), mod)
  {
    var i := 1;
    ghost var was, n := val[..], val.Length;
    assert was[..n] == was;
    while true
      invariant 1 <= i <= n
      invariant val[..] == was[..n - i + 1] + Zeros(i - 1)
      invariant Next(was, mod) == Next(was[..n - i + 1], mod) + Zeros(i - 1)
      decreases n - i
    {
      ghost var prefix := was[..n - i + 1];
      assert prefix[..n - i] == was[..n - i];
      val[val.Length - i] := val[val.Length - i] + 1;
      if val[val.Length - i] == mod {
        val[val.Length - i] := 0;
        i := i + 1;
        assert val[..] == was[..n - i + 1] + Zeros(i - 1);
        assert Next(was, mod) == Next(was[..n - i + 1], mod) + Zeros(i - 1);
        if i > val.Length {
          break;
        }
      } else {
        break;
      }
    }
  }

  /** Go's integer division and remainder, which truncate toward zero. */
  function GoDiv(a: int, b: nat): int
    requires b > 0
  {
    if a >= 0 then a / b else -(-a / b)
  }

  function GoMod(a: int, b: nat): int
    requires b > 0
  {
    if a >= 0 then a % b else -(-a % b)
  }

  /** mmu.go FromIntToLogicalAddres: counts the page number up on the odometer
      and appends the offset. Page numbers past base^levels wrap around; for a
      negative address nothing is counted and the offset is not positive. */
  method FromIntToLogicalAddres(address: int, pageSize: nat, entries: nat, levels: nat) returns (r: seq<int>)
    requires pageSize >= 1 && entries >= 1 && levels >= 1
    ensures |r| == levels + 1 && InRange(r[..levels], entries)
    ensures address >= 0 ==> Value(r[..levels], entries) == (address / pageSize) % Pow(entries, levels)
    ensures address >= 0 ==> r[levels] == address % pageSize
    ensures address < 0 ==> Value(r[..levels], entries) == 0 && r[levels] <= 0 < r[levels] + pageSize
    ensures address == GoDiv(address, pageSize) * pageSize + r[levels]
  {
    GoDivision(address, pageSize);
    var page := GoDiv(address, pageSize);
    var delta := GoMod(address, pageSize);
    var digits := new int[levels](_ => 0);
    assert digits[..] == Zeros(levels);
    ZerosValue(levels, entries);
    ghost var p := Pow(entries, levels);
    var k := 0;
    while k < page
      invariant 0 <= k && (page >= 0 ==> k <= page) && (page < 0 ==> k == 0)
      invariant InRange(digits[..], entries)
      invariant Value(digits[..], entries) == k % p
    {
      NextValue(digits[..], entries);
      ModSuccessor(k, p);
      Sum(digits, entries);
      k := k + 1;
    }
    r := digits[..] + [delta];
    assert r[..levels] == digits[..];
  }

  lemma Division(a: nat, b: nat)
    requires b > 0
    ensures a / b >= 0 && 0 <= a % b < b && (a / b) * b + a % b == a
  {
  }

  lemma GoDivision(a: int, b: nat)
    requires b > 0
    ensures a == GoDiv(a, b) * b + GoMod(a, b) && GoMod(a, b) < b && GoMod(a, b) + b > 0
    ensures a >= 0 ==> GoDiv(a, b) == a / b >= 0 && GoMod(a, b) == a % b
    ensures a < 0 ==> GoDiv(a, b) <= 0 && GoMod(a, b) <= 0
  {
    if a >= 0 {
      Division(a, b);
    } else {
      Division(-a, b);
      NegativeProduct(-a / b, b);
    }
  }

  lemma NegativeProduct(q: int, b: nat)
    ensures (-q) * b == -(q * b)
  {
  }

  lemma ModSuccessor(k: nat, p: nat)
    requires p >= 1
    ensures (k + 1) % p == if k % p + 1 == p then 0 else k % p + 1
  {
    var q, r := k / p, k % p;
    if r + 1 == p {
      assert k + 1 == (q + 1) * p + 0;
      DivisionUnique(q + 1, 0, (k + 1) / p, (k + 1) % p, p);
    } else {
      DivisionUnique(q, r + 1, (k + 1) / p, (k + 1) % p, p);
    }
  }
}
