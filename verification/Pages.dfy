/** A process image as a list of equal pages, and the flat byte array that the
    paged reads and writes are meant to look like. */
module Pages {
  import opened Addressing

  newtype byte = b: int | 0 <= b < 256

  type Page = seq<byte>
  type Image = seq<Page>

  predicate Uniform(pages: Image, size: nat) {
    forall i :: 0 <= i < |pages| ==> |pages[i]| == size
  }

  function Flatten(pages: Image): seq<byte> {
    if pages == [] then [] else Flatten(pages[..|pages| - 1]) + pages[|pages| - 1]
  }

  /** s with the cells from `at` on replaced by v. */
  function Splice(s: seq<byte>, at: nat, v: seq<byte>): (r: seq<byte>)
    requires at + |v| <= |s|
    ensures |r| == |s|
    ensures forall k :: 0 <= k < |s| ==> r[k] == if at <= k < at + |v| then v[k - at] else s[k]
  {
    s[..at] + v + s[at + |v|..]
  }

  function Min(a: int, b: int): int { if a < b then a else b }

  /** Writes v from offset `at` of page i, page after page; what would fall past
      the last page is dropped. */
  function WritePages(pages: Image, size: nat, i: nat, at: nat, v: seq<byte>): (r: Image)
    requires Uniform(pages, size) && at < size
    ensures Uniform(r, size) && |r| == |pages|
    decreases |v|
  {
    if i >= |pages| || v == [] then pages
    else if |v| <= size - at then pages[i := Splice(pages[i], at, v)]
    else WritePages(pages[i := Splice(pages[i], at, v[..size - at])], size, i + 1, 0, v[size - at..])
  }

  lemma {:induction false} FlattenLength(pages: Image, size: nat)
    requires Uniform(pages, size)
    ensures |Flatten(pages)| == |pages| * size
  {
    if pages != [] {
      FlattenLength(pages[..|pages| - 1], size);
      assert |pages| * size == (|pages| - 1) * size + size;
    }
  }

  /** Page i of the image is the i-th block of the flat array. */
  lemma {:induction false} FlattenPage(pages: Image, size: nat, i: nat)
    requires Uniform(pages, size) && i < |pages|
    ensures 0 <= i * size && i * size + size <= |Flatten(pages)|
    ensures Flatten(pages)[i * size..i * size + size] == pages[i]
  {
    var n := |pages| - 1;
    FlattenLength(pages, size);
    FlattenLength(pages[..n], size);
    assert |pages| * size == n * size + size;
    if i < n {
      FlattenPage(pages[..n], size, i);
      assert Flatten(pages)[i * size..i * size + size] == Flatten(pages[..n])[i * size..i * size + size];
    }
  }

  /** Two images with the same flat array and page size are the same image. */
  lemma FlattenInjective(a: Image, b: Image, size: nat)
    requires Uniform(a, size) && Uniform(b, size) && |a| == |b|
    requires Flatten(a) == Flatten(b)
    ensures a == b
  {
    forall i | 0 <= i < |a| ensures a[i] == b[i] {
      FlattenPage(a, size, i);
      FlattenPage(b, size, i);
    }
  }

  /** Splicing one page is splicing the flat array. */
  lemma {:induction false} FlattenSplice(pages: Image, size: nat, i: nat, at: nat, v: seq<byte>)
    requires Uniform(pages, size) && i < |pages| && at + |v| <= size
    ensures 0 <= i * size && i * size + at + |v| <= |Flatten(pages)|
    ensures Flatten(pages[i := Splice(pages[i], at, v)]) == Splice(Flatten(pages), i * size + at, v)
  {
    var n := |pages| - 1;
    var next := pages[i := Splice(pages[i], at, v)];
    FlattenPage(pages, size, i);
    FlattenLength(pages[..n], size);
    if i < n {
      FlattenSplice(pages[..n], size, i, at, v);
      assert next[..n] == pages[..n][i := Splice(pages[i], at, v)];
    } else {
      assert next[..n] == pages[..n];
    }
  }

  lemma SpliceTwice(s: seq<byte>, at: nat, v: seq<byte>, cut: nat)
    requires at + |v| <= |s| && cut <= |v|
    ensures Splice(Splice(s, at, v[..cut]), at + cut, v[cut..]) == Splice(s, at, v)
  {
  }

  /** The paged write is one write to the flat array, cut at its end. */
  lemma {:induction false} WriteIsFlat(pages: Image, size: nat, i: nat, at: nat, v: seq<byte>)
    requires Uniform(pages, size) && i < |pages| && at < size
    ensures 0 <= i * size && i * size + at < |Flatten(pages)|
    ensures var fit := Min(|v|, |Flatten(pages)| - (i * size + at));
            Flatten(WritePages(pages, size, i, at, v)) == Splice(Flatten(pages), i * size + at, v[..fit])
    decreases |v|
  {
    hide Splice, Flatten;
    FlattenPage(pages, size, i);
    var room := size - at;
    if |v| <= room {
      FlattenSplice(pages, size, i, at, v);
      assert v[..|v|] == v;
    } else {
      var next := pages[i := Splice(pages[i], at, v[..room])];
      FlattenSplice(pages, size, i, at, v[..room]);
      assert (i + 1) * size == i * size + at + room;
      if i + 1 < |pages| {
        WriteIsFlat(next, size, i + 1, 0, v[room..]);
        SpliceOn(Flatten(pages), i * size + at, v, room);
      } else {
        FlattenLength(pages, size);
        assert WritePages(next, size, i + 1, 0, v[room..]) == next;
      }
    }
  }

  /** Splicing the first part of v, and then as much of the rest as there is room. */
  lemma SpliceOn(flat: seq<byte>, a: nat, v: seq<byte>, room: nat)
    requires room <= |v| && a + room <= |flat|
    ensures var fit, more := Min(|v|, |flat| - a), Min(|v| - room, |flat| - (a + room));
            more == fit - room && Splice(Splice(flat, a, v[..room]), a + room, v[room..][..more])
              == Splice(flat, a, v[..fit])
  {
    var fit := Min(|v|, |flat| - a);
    SpliceTwice(flat, a, v[..fit], room);
    assert v[..fit][..room] == v[..room];
    assert v[..fit][room..] == v[room..][..fit - room];
  }

  /** Reading within one page is reading the flat array. */
  lemma FlattenRead(pages: Image, size: nat, i: nat, at: nat, n: nat)
    requires Uniform(pages, size) && i < |pages| && at + n <= size
    ensures 0 <= i * size && i * size + at + n <= |Flatten(pages)|
    ensures Flatten(pages)[i * size + at..i * size + at + n] == pages[i][at..at + n]
  {
    FlattenPage(pages, size, i);
    SliceOfSlice(Flatten(pages), i * size, i * size + size, at, at + n);
  }

  lemma SliceOfSlice(s: seq<byte>, a: nat, b: nat, c: nat, d: nat)
    requires a <= b <= |s| && c <= d <= b - a
    ensures s[a..b][c..d] == s[a + c..a + d]
  {
    var block := s[a..b];
    assert forall k :: 0 <= k < |block| ==> block[k] == s[a + k];
    assert block[c..d] == s[a + c..a + d];
  }

  /** n bytes from offset `at` of page i, page after page, as far as there are pages. */
  function ReadSpan(pages: Image, size: nat, i: nat, at: nat, n: nat): seq<byte>
    requires Uniform(pages, size) && at < size
    decreases n
  {
    if i >= |pages| || n == 0 then []
    else if n <= size - at then pages[i][at..at + n]
    else pages[i][at..] + ReadSpan(pages, size, i + 1, 0, n - (size - at))
  }

  /** The paged read is one slice of the flat array, cut at its end. */
  lemma {:induction false} ReadIsFlat(pages: Image, size: nat, i: nat, at: nat, n: nat)
    requires Uniform(pages, size) && i < |pages| && at < size
    ensures 0 <= i * size && i * size + at < |Flatten(pages)|
    ensures var fit := Min(n, |Flatten(pages)| - (i * size + at));
            ReadSpan(pages, size, i, at, n) == Flatten(pages)[i * size + at..i * size + at + fit]
    decreases n
  {
    FlattenPage(pages, size, i);
    var room := size - at;
    if n <= room {
      FlattenRead(pages, size, i, at, n);
    } else {
      FlattenRead(pages, size, i, at, room);
      assert (i + 1) * size == i * size + at + room;
      assert pages[i][at..at + room] == pages[i][at..];
      if i + 1 < |pages| {
        ReadIsFlat(pages, size, i + 1, 0, n - room);
        var fit := Min(n, |Flatten(pages)| - (i * size + at));
        SliceJoin(Flatten(pages), i * size + at, i * size + at + room, i * size + at + fit);
      } else {
        FlattenLength(pages, size);
      }
    }
  }

  lemma SliceJoin(s: seq<byte>, a: nat, b: nat, c: nat)
    requires a <= b <= c <= |s|
    ensures s[a..b] + s[b..c] == s[a..c]
  {
  }

  // ---- Accesses that go around the last page number

  /** The page number after i when there are `top` of them. */
  function NextNumber(i: nat, top: nat): nat { if i + 1 == top then 0 else i + 1 }

  /** n bytes from the start of page i on end within the pages. */
  predicate FitsFrom(count: nat, size: nat, top: nat, i: nat, n: nat)
    requires size > 0
    decreases n
  {
    i < count && (n <= size || FitsFrom(count, size, top, NextNumber(i, top), n - size))
  }

  /** Writes v from offset `at` of page i, page number after page number, until
      there is no such page. */
  function WriteFrom(pages: Image, size: nat, top: nat, i: nat, at: nat, v: seq<byte>): (r: Image)
    requires Uniform(pages, size) && at < size
    ensures Uniform(r, size) && |r| == |pages|
    decreases |v|
  {
    if i >= |pages| || v == [] then pages
    else if |v| <= size - at then pages[i := Splice(pages[i], at, v)]
    else WriteFrom(pages[i := Splice(pages[i], at, v[..size - at])], size, top, NextNumber(i, top), 0, v[size - at..])
  }

  /** n bytes from offset `at` of page i, page number after page number. */
  function ReadFrom(pages: Image, size: nat, top: nat, i: nat, at: nat, n: nat): seq<byte>
    requires Uniform(pages, size) && at < size
    decreases n
  {
    if i >= |pages| || n == 0 then []
    else if n <= size - at then pages[i][at..at + n]
    else pages[i][at..] + ReadFrom(pages, size, top, NextNumber(i, top), 0, n - (size - at))
  }

  /** The access does not pass the last page number. */
  predicate NoWrap(count: nat, size: nat, top: nat, i: nat, n: nat) {
    count < top || i * size + n <= top * size
  }

  lemma NoWrapNext(count: nat, size: nat, top: nat, i: nat, n: nat)
    requires i < count && n > size > 0 && NoWrap(count, size, top, i, n)
    ensures NextNumber(i, top) == i + 1 && NoWrap(count, size, top, i + 1, n - size)
    ensures (i + 1) * size == i * size + size
  {
    assert (i + 1) * size == i * size + size;
    assert i + 1 == top ==> top * size == i * size + size;
  }

  /** Without going around, an access fits exactly when it ends within the pages. */
  lemma {:induction false} FitsPlain(count: nat, size: nat, top: nat, i: nat, n: nat)
    requires size > 0 && i < count && NoWrap(count, size, top, i, n)
    ensures FitsFrom(count, size, top, i, n) <==> i * size + n <= count * size
    decreases n
  {
    MulMonotone(i + 1, count, size);
    assert (i + 1) * size == i * size + size;
    if n > size {
      NoWrapNext(count, size, top, i, n);
      if i + 1 < count {
        FitsPlain(count, size, top, i + 1, n - size);
      }
    }
  }

  lemma {:induction false} WritePlain(pages: Image, size: nat, top: nat, i: nat, at: nat, v: seq<byte>)
    requires Uniform(pages, size) && i < |pages| && at < size && NoWrap(|pages|, size, top, i, at + |v|)
    ensures WriteFrom(pages, size, top, i, at, v) == WritePages(pages, size, i, at, v)
    decreases |v|
  {
    if |v| > size - at {
      NoWrapNext(|pages|, size, top, i, at + |v|);
      if i + 1 < |pages| {
        WritePlain(pages[i := Splice(pages[i], at, v[..size - at])], size, top, i + 1, 0, v[size - at..]);
      }
    }
  }

  lemma {:induction false} ReadPlain(pages: Image, size: nat, top: nat, i: nat, at: nat, n: nat)
    requires Uniform(pages, size) && i < |pages| && at < size && NoWrap(|pages|, size, top, i, at + n)
    ensures ReadFrom(pages, size, top, i, at, n) == ReadSpan(pages, size, i, at, n)
    decreases n
  {
    if n > size - at {
      NoWrapNext(|pages|, size, top, i, at + n);
      if i + 1 < |pages| {
        ReadPlain(pages, size, top, i + 1, 0, n - (size - at));
      }
    }
  }
}
