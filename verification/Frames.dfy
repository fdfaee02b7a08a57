/** Frames of the user memory: byte bases, reservation bits and their counts. */
module Frames {
  import opened Addressing
  import opened Pages

  /** base is the first byte of one of the n frames. */
  predicate IsBase(base: int, size: nat, n: nat)
    requires size >= 1
  {
    0 <= base && base % size == 0 && base / size < n
  }

  lemma BaseBounds(base: int, size: nat, n: nat)
    requires size >= 1 && IsBase(base, size, n)
    ensures base == (base / size) * size && base + size <= n * size
  {
    var f := base / size;
    assert base == f * size + base % size;
    MulMonotone(f + 1, n, size);
    assert (f + 1) * size == f * size + size;
  }

  lemma FrameBase(f: nat, size: nat, n: nat)
    requires size >= 1 && f < n
    ensures IsBase(f * size, size, n) && f * size / size == f
  {
    MulNonNegative(f, size);
    DivisionUnique(f, 0, f * size / size, f * size % size, size);
  }

  /** Different bases lie at least one page apart. */
  lemma BasesApart(a: int, b: int, size: nat, n: nat)
    requires size >= 1 && IsBase(a, size, n) && IsBase(b, size, n)
    ensures a == b || a + size <= b || b + size <= a
    ensures a == b <==> a / size == b / size
  {
    BaseBounds(a, size, n);
    BaseBounds(b, size, n);
    MulGap(a / size - b / size, size);
    assert (a / size - b / size) * size == a - b;
  }

  function CountFree(bits: seq<bool>): (r: nat)
    ensures r <= |bits|
  {
    if bits == [] then 0 else CountFree(bits[..|bits| - 1]) + if bits[|bits| - 1] then 0 else 1
  }

  lemma {:induction false} CountFreeUpdate(bits: seq<bool>, f: nat, b: bool)
    requires f < |bits| && bits[f] != b
    ensures CountFree(bits[f := b]) == if b then CountFree(bits) - 1 else CountFree(bits) + 1
  {
    var n := |bits| - 1;
    if f < n {
      CountFreeUpdate(bits[..n], f, b);
      assert bits[f := b][..n] == bits[..n][f := b];
    } else {
      assert bits[f := b][..n] == bits[..n];
    }
  }

  predicate Distinct(fs: seq<int>) {
    forall i, j :: 0 <= i < j < |fs| ==> fs[i] != fs[j]
  }

  predicate Within(fs: seq<int>, n: nat) {
    forall i :: 0 <= i < |fs| ==> 0 <= fs[i] < n
  }

  /** The bits with every listed frame set to b. */
  function Set(bits: seq<bool>, fs: seq<int>, b: bool): (r: seq<bool>)
    requires Within(fs, |bits|)
    ensures |r| == |bits| && forall f :: 0 <= f < |bits| ==> r[f] == if f in fs then b else bits[f]
  {
    if fs == [] then bits
    else Set(bits, fs[..|fs| - 1], b)[fs[|fs| - 1] := b]
  }

  lemma {:induction false} CountSet(bits: seq<bool>, fs: seq<int>, b: bool)
    requires Within(fs, |bits|) && Distinct(fs)
    requires forall i :: 0 <= i < |fs| ==> bits[fs[i]] != b
    ensures CountFree(Set(bits, fs, b)) == if b then CountFree(bits) - |fs| else CountFree(bits) + |fs|
  {
    if fs != [] {
      var n := |fs| - 1;
      CountSet(bits, fs[..n], b);
      CountFreeUpdate(Set(bits, fs[..n], b), fs[n], b);
    }
  }

  /** The first n free frames from `from` on, in order. */
  function FirstFree(bits: seq<bool>, from: nat, n: nat): (r: seq<int>)
    requires from <= |bits|
    ensures |r| <= n
    ensures forall i :: 0 <= i < |r| ==> from <= r[i] < |bits| && !bits[r[i]]
    ensures forall i, j :: 0 <= i < j < |r| ==> r[i] < r[j]
    decreases |bits| - from
  {
    if n == 0 || from == |bits| then []
    else if bits[from] then FirstFree(bits, from + 1, n)
    else [from] + FirstFree(bits, from + 1, n - 1)
  }

  /** A free frame that is not taken comes after n frames that are. */
  lemma {:induction false} FirstFreeLowest(bits: seq<bool>, from: nat, n: nat, f: nat)
    requires from <= f < |bits| && !bits[f]
    ensures var r := FirstFree(bits, from, n); f in r || (|r| == n && forall i :: 0 <= i < n ==> r[i] < f)
    decreases |bits| - from
  {
    if n > 0 && f > from {
      FirstFreeLowest(bits, from + 1, if bits[from] then n else n - 1, f);
    }
  }

  /** Nothing free is skipped: short of n frames, every free one was taken. */
  lemma {:induction false} FirstFreeCount(bits: seq<bool>, from: nat, n: nat)
    requires from <= |bits|
    ensures |FirstFree(bits, from, n)| == Min(n, CountFree(bits) - CountFree(bits[..from]))
    decreases |bits| - from
  {
    if from == |bits| {
      assert bits[..from] == bits;
    } else {
      assert bits[..from + 1][..from] == bits[..from];
      CountPrefix(bits, from);
      CountPrefix(bits, from + 1);
      FirstFreeCount(bits, from + 1, if bits[from] || n == 0 then n else n - 1);
    }
  }

  lemma {:induction false} CountPrefix(bits: seq<bool>, from: nat)
    requires from <= |bits|
    ensures CountFree(bits[..from]) <= CountFree(bits)
  {
    if from == |bits| {
      assert bits[..from] == bits;
    } else {
      CountPrefix(bits[..|bits| - 1], from);
      assert bits[..|bits| - 1][..from] == bits[..from];
    }
  }

  /** A page run of `bytes` pages needs, as math.Ceil rounds it. */
  function PagesFor(bytes: nat, size: nat): nat
    requires size >= 1
  {
    (bytes + size - 1) / size
  }

  lemma PagesForBounds(bytes: nat, size: nat)
    requires size >= 1
    ensures PagesFor(bytes, size) * size >= bytes
    ensures bytes > 0 ==> (PagesFor(bytes, size) - 1) * size < bytes && PagesFor(bytes, size) >= 1
    ensures forall k: nat :: bytes <= k * size <==> PagesFor(bytes, size) <= k
  {
    var q := PagesFor(bytes, size);
    assert q * size + (bytes + size - 1) % size == bytes + size - 1;
    assert (q - 1) * size == q * size - size;
    assert q == 0 ==> q * size == 0;
    forall k: nat ensures bytes <= k * size <==> q <= k {
      MulGap(k - q, size);
      assert (k - q) * size == k * size - q * size;
    }
  }

  lemma PagesForExact(k: nat, size: nat)
    requires size >= 1
    ensures 0 <= size * k && PagesFor(size * k, size) == k
  {
    MulNonNegative(k, size);
    PagesForBounds(size * k, size);
    assert forall j: nat :: size * k <= j * size <==> PagesFor(size * k, size) <= j;
    assert size * k <= k * size;
    MulGap(PagesFor(size * k, size) - k, size);
    assert (PagesFor(size * k, size) - k) * size == PagesFor(size * k, size) * size - k * size;
  }

  // ---- Tables of bases

  predicate AllBases(bases: seq<int>, size: nat, n: nat)
    requires size >= 1
  {
    forall j :: 0 <= j < |bases| ==> IsBase(bases[j], size, n)
  }

  function BasesOf(frames: seq<int>, size: nat): (r: seq<int>)
    ensures |r| == |frames|
  {
    seq(|frames|, i requires 0 <= i < |frames| => frames[i] * size)
  }

  function FramesOf(bases: seq<int>, size: nat): (r: seq<int>)
    requires size >= 1
    ensures |r| == |bases|
  {
    seq(|bases|, i requires 0 <= i < |bases| => bases[i] / size)
  }

  lemma BasesOfOk(frames: seq<int>, size: nat, n: nat)
    requires size >= 1 && Within(frames, n)
    ensures AllBases(BasesOf(frames, size), size, n)
    ensures FramesOf(BasesOf(frames, size), size) == frames
  {
    forall i | 0 <= i < |frames| ensures IsBase(frames[i] * size, size, n) && frames[i] * size / size == frames[i] {
      FrameBase(frames[i], size, n);
    }
  }

  lemma FramesWithin(bases: seq<int>, size: nat, n: nat)
    requires size >= 1 && AllBases(bases, size, n)
    ensures Within(FramesOf(bases, size), n)
    ensures Distinct(bases) <==> Distinct(FramesOf(bases, size))
  {
    forall i, j | 0 <= i < j < |bases| ensures FramesOf(bases, size)[i] == FramesOf(bases, size)[j] <==>
      bases[i] == bases[j] {
      BasesApart(bases[i], bases[j], size, n);
    }
  }

  /** A base is listed iff its frame is. */
  lemma BaseListed(bases: seq<int>, b: int, size: nat, n: nat)
    requires size >= 1 && AllBases(bases, size, n) && IsBase(b, size, n)
    ensures b in bases <==> b / size in FramesOf(bases, size)
  {
    forall j | 0 <= j < |bases| ensures bases[j] == b <==> FramesOf(bases, size)[j] == b / size {
      BasesApart(bases[j], b, size, n);
    }
    assert b in bases ==> exists j :: 0 <= j < |bases| && FramesOf(bases, size)[j] == b / size;
  }

  lemma {:induction false} DistinctCount(s: seq<int>, b: int)
    requires Distinct(s)
    ensures multiset(s)[b] == if b in s then 1 else 0
  {
    if s != [] {
      var n := |s| - 1;
      DistinctCount(s[..n], b);
      assert s == s[..n] + [s[n]];
    }
  }

  /** How often the bits say a base is taken. */
  function Bit(bits: seq<bool>, size: nat, b: int): nat
    requires size >= 1
  {
    if IsBase(b, size, |bits|) && bits[b / size] then 1 else 0
  }

  lemma BitOfSet(bits: seq<bool>, bases: seq<int>, size: nat, b: int, v: bool)
    requires size >= 1 && AllBases(bases, size, |bits|) && Within(FramesOf(bases, size), |bits|)
    ensures Bit(Set(bits, FramesOf(bases, size), v), size, b) ==
            if b in bases then (if v then 1 else 0) else Bit(bits, size, b)
  {
    if IsBase(b, size, |bits|) {
      BaseListed(bases, b, size, |bits|);
    }
  }

  /** Reserving free frames adds exactly their bases to the taken ones. */
  lemma ReserveBit(bits: seq<bool>, bases: seq<int>, size: nat, b: int)
    requires size >= 1 && AllBases(bases, size, |bits|) && Distinct(bases)
    requires forall j :: 0 <= j < |bases| ==> Bit(bits, size, bases[j]) == 0
    ensures Within(FramesOf(bases, size), |bits|)
    ensures Bit(Set(bits, FramesOf(bases, size), true), size, b) == Bit(bits, size, b) + multiset(bases)[b]
  {
    FramesWithin(bases, size, |bits|);
    DistinctCount(bases, b);
    BitOfSet(bits, bases, size, b, true);
    if b in bases {
      var j :| 0 <= j < |bases| && bases[j] == b;
      assert Bit(bits, size, bases[j]) == 0;
    }
  }

  /** Releasing taken frames removes exactly their bases. */
  lemma ReleaseBit(bits: seq<bool>, bases: seq<int>, size: nat, b: int)
    requires size >= 1 && AllBases(bases, size, |bits|) && Distinct(bases)
    requires forall j :: 0 <= j < |bases| ==> Bit(bits, size, bases[j]) == 1
    ensures Within(FramesOf(bases, size), |bits|)
    ensures Bit(Set(bits, FramesOf(bases, size), false), size, b) + multiset(bases)[b] == Bit(bits, size, b)
  {
    FramesWithin(bases, size, |bits|);
    DistinctCount(bases, b);
    BitOfSet(bits, bases, size, b, false);
    if b in bases {
      var j :| 0 <= j < |bases| && bases[j] == b;
      assert Bit(bits, size, bases[j]) == 1;
    }
  }

  /** Reserving free frames, or releasing taken ones, moves the free count. */
  lemma CountTable(bits: seq<bool>, bases: seq<int>, size: nat, b: bool)
    requires size >= 1 && AllBases(bases, size, |bits|) && Distinct(bases)
    requires forall j :: 0 <= j < |bases| ==> Bit(bits, size, bases[j]) == if b then 0 else 1
    ensures Within(FramesOf(bases, size), |bits|)
    ensures CountFree(Set(bits, FramesOf(bases, size), b)) == if b then CountFree(bits) - |bases|
        else CountFree(bits) + |bases|
  {
    FramesWithin(bases, size, |bits|);
    var frames := FramesOf(bases, size);
    forall i | 0 <= i < |frames| ensures bits[frames[i]] != b {
      assert IsBase(bases[i], size, |bits|) && Bit(bits, size, bases[i]) == if b then 0 else 1;
    }
    CountSet(bits, frames, b);
  }
}
