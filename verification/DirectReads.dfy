/** cpu/memory/mmu.go ReadMemory without the cache, as a function of what the
    process sees; where it goes wrong, and exactly when it does not. */
module DirectReads {
  import opened Wrappers
  import opened Addressing
  import opened Pages

  /** How ReadMemory can end: the bytes, status -1, or a Go slice out of range. */
  datatype Reply = Content(bytes: seq<byte>) | Failed | Panicked

  function ZeroBytes(n: nat): (r: seq<byte>)
    ensures |r| == n && forall k :: 0 <= k < n ==> r[k] == 0
  {
    seq(n, _ => 0)
  }

  /** copy(content[at:], chunk): as much as fits. */
  function CopyAt(content: seq<byte>, at: nat, chunk: seq<byte>): (r: seq<byte>)
    requires at <= |content|
    ensures |r| == |content| && r[..at] == content[..at]
  {
    Splice(content, at, chunk[..Min(|chunk|, |content| - at)])
  }

  /** The loop, at page i with `rest` bytes to go, among `top` page numbers. `spare`
      is what the buffer of a page holds past the page, up to its capacity. */
  function DirectLoop(pages: Image, size: nat, top: nat, i: nat, at: nat, content: seq<byte>, done: nat, rest: nat,
                      spare: seq<byte>): Reply
    requires Uniform(pages, size) && size > 0 && rest > 0
    decreases rest
  {
    var n := Min(size, rest);
    if i >= |pages| then Failed
    else if done > |content| || at + n > size + |spare| then Panicked
    else
      var next := CopyAt(content, done, (pages[i] + spare)[at..at + n]);
      if n == rest then Content(next)
      else DirectLoop(pages, size, top, NextNumber(i, top), at, next, done + n, rest - n, spare)
  }

  /** The whole read of n bytes from offset `at` of page i. */
  function DirectRead(pages: Image, size: nat, top: nat, i: nat, at: nat, n: nat, spare: seq<byte>): Reply
    requires Uniform(pages, size) && at < size && i < |pages|
  {
    if n <= size - at then Content(pages[i][at..at + n])
    else
      DirectLoop(pages, size, top, NextNumber(i, top), at, CopyAt(ZeroBytes(n), 0, pages[i][at..]), size,
        n - (size - at), spare)
  }

  /** What the read should answer: the bytes, page number after page number. */
  function PagedReply(pages: Image, size: nat, top: nat, i: nat, at: nat, n: nat): Reply
    requires Uniform(pages, size) && at < size
  {
    if FitsFrom(|pages|, size, top, i, at + n) then Content(ReadFrom(pages, size, top, i, at, n)) else Failed
  }

  /** The same as a slice of the flat array. */
  function FlatReply(pages: Image, size: nat, i: nat, at: nat, n: nat): Reply {
    var a, all := i * size + at, Flatten(pages);
    if 0 <= a <= a + n <= |all| then Content(all[a..a + n]) else Failed
  }

  /** Without going around, the paged answer is the flat one. */
  lemma PagedIsFlat(pages: Image, size: nat, top: nat, i: nat, at: nat, n: nat)
    requires Uniform(pages, size) && at < size && i < |pages| && NoWrap(|pages|, size, top, i, at + n)
    ensures PagedReply(pages, size, top, i, at, n) == FlatReply(pages, size, i, at, n)
  {
    hide Flatten, ReadFrom, ReadSpan, FitsFrom;
    FitsPlain(|pages|, size, top, i, at + n);
    ReadPlain(pages, size, top, i, at, n);
    ReadIsFlat(pages, size, i, at, n);
    FlattenLength(pages, size);
  }

  /** copy appends after what is done. */
  lemma CopyAtNext(content: seq<byte>, done: nat, chunk: seq<byte>)
    requires done + |chunk| <= |content|
    ensures CopyAt(content, done, chunk)[..done + |chunk|] == content[..done] + chunk
    ensures done + |chunk| == |content| ==> CopyAt(content, done, chunk) == content[..done] + chunk
  {
  }

  /** From offset 0 the loop appends page after page. */
  lemma {:induction false} AlignedLoop(pages: Image, size: nat, top: nat, i: nat, content: seq<byte>, done: nat,
      rest: nat, spare: seq<byte>)
    requires Uniform(pages, size) && size > 0 && rest > 0 && done + rest == |content|
    ensures DirectLoop(pages, size, top, i, 0, content, done, rest, spare)
         == if FitsFrom(|pages|, size, top, i, rest)
            then Content(content[..done] + ReadFrom(pages, size, top, i, 0, rest))
            else Failed
    decreases rest
  {
    hide CopyAt, NextNumber;
    var n := Min(size, rest);
    if i < |pages| {
      var chunk := pages[i][..n];
      FirstPart(pages[i], spare, n);
      CopyAtNext(content, done, chunk);
      if n < rest {
        AlignedLoop(pages, size, top, NextNumber(i, top), CopyAt(content, done, chunk), done + n, rest - n, spare);
        ConcatAssociative(content[..done], chunk, ReadFrom(pages, size, top, NextNumber(i, top), 0, rest - n));
      }
    }
  }

  lemma FirstPart(page: Page, spare: seq<byte>, n: nat)
    requires n <= |page|
    ensures (page + spare)[0..0 + n] == page[..n] == page[0..0 + n] && (n == |page| ==> page[..n] == page[0..])
  {
  }

  /** A read within one page, or from the start of a page, answers right. */
  lemma DirectReadRight(pages: Image, size: nat, top: nat, i: nat, at: nat, n: nat, spare: seq<byte>)
    requires Uniform(pages, size) && at < size && i < |pages| && (at == 0 || at + n <= size)
    ensures DirectRead(pages, size, top, i, at, n, spare) == PagedReply(pages, size, top, i, at, n)
  {
    hide DirectLoop, CopyAt;
    if n > size - at {
      var content := CopyAt(ZeroBytes(n), 0, pages[i][0..]);
      CopyAtNext(ZeroBytes(n), 0, pages[i][0..]);
      assert ZeroBytes(n)[..0] + pages[i][0..] == pages[i][0..];
      AlignedLoop(pages, size, top, NextNumber(i, top), content, size, n - size, spare);
    }
  }

  /** The loop never goes back before `done`. */
  lemma {:induction false} LoopKeepsStart(pages: Image, size: nat, top: nat, i: nat, at: nat, content: seq<byte>,
      done: nat, rest: nat, spare: seq<byte>)
    requires Uniform(pages, size) && size > 0 && rest > 0
    ensures var r := DirectLoop(pages, size, top, i, at, content, done, rest, spare);
            r.Content? ==> |r.bytes| == |content| && done <= |content| && r.bytes[..done] == content[..done]
    decreases rest
  {
    hide Splice;
    var n := Min(size, rest);
    if i < |pages| && done <= |content| && at + n <= size + |spare| && n < rest {
      var next := CopyAt(content, done, (pages[i] + spare)[at..at + n]);
      LoopKeepsStart(pages, size, top, NextNumber(i, top), at, next, done + n, rest - n, spare);
      if done + n <= |next| {
        assert next[..done + n][..done] == next[..done];
      }
    }
  }

  /** A read across pages that starts inside a page leaves a hole: the byte that
      should come first from the second page is never written. */
  lemma DirectReadHole(pages: Image, size: nat, top: nat, i: nat, at: nat, n: nat, spare: seq<byte>)
    requires Uniform(pages, size) && at < size && i < |pages| && at > 0 && at + n > size
    ensures var r := DirectRead(pages, size, top, i, at, n, spare);
            r.Content? ==> |r.bytes| == n && size <= n && r.bytes[size - at] == 0
  {
    var content := CopyAt(ZeroBytes(n), 0, pages[i][at..]);
    assert content[size - at] == 0;
    LoopKeepsStart(pages, size, top, NextNumber(i, top), at, content, size, n - (size - at), spare);
    var r := DirectRead(pages, size, top, i, at, n, spare);
    if r.Content? {
      assert r.bytes[..size][size - at] == content[..size][size - at];
    }
  }

  /** An image of k pages that holds only ones. */
  function Ones(k: nat, size: nat): (r: Image)
    ensures Uniform(r, size) && |r| == k && forall j, b :: 0 <= j < k && 0 <= b < size ==> r[j][b] == 1
  {
    seq(k, _ => seq(size, _ => 1))
  }

  /** The read answers right, whatever the process sees and wherever it starts. */
  ghost predicate ReadsRight(size: nat, at: nat, n: nat)
    requires at < size
  {
    forall pages: Image, top: nat, i: nat, spare: seq<byte> :: Uniform(pages, size) && i < |pages| ==>
      DirectRead(pages, size, top, i, at, n, spare) == PagedReply(pages, size, top, i, at, n)
  }

  /** The uncached read is right exactly for reads within one page and reads from
      the start of a page. */
  lemma DirectReadRightIff(size: nat, at: nat, n: nat)
    requires at < size
    ensures ReadsRight(size, at, n) <==> at == 0 || at + n <= size
  {
    if at == 0 || at + n <= size {
      forall pages: Image, top: nat, i: nat, spare: seq<byte> | Uniform(pages, size) && i < |pages|
        ensures DirectRead(pages, size, top, i, at, n, spare) == PagedReply(pages, size, top, i, at, n) {
        DirectReadRight(pages, size, top, i, at, n, spare);
      }
    } else {
      var pages, top := Ones(at + n, size), at + n + 1;
      DirectReadHole(pages, size, top, 0, at, n, []);
      HoleShows(pages, size, top, at, n);
      assert DirectRead(pages, size, top, 0, at, n, []) != PagedReply(pages, size, top, 0, at, n);
    }
  }

  /** In an image of ones the right answer has a one where the hole would be. */
  lemma HoleShows(pages: Image, size: nat, top: nat, at: nat, n: nat)
    requires 0 < at < size < at + n && pages == Ones(at + n, size) && top > at + n
    ensures var r := PagedReply(pages, size, top, 0, at, n);
            r.Content? && |r.bytes| > size - at && r.bytes[size - at] == 1
  {
    hide Flatten, FitsFrom, ReadFrom;
    PagedIsFlat(pages, size, top, 0, at, n);
    FlattenLength(pages, size);
    MulMonotone(1, size, at + n);
    FlattenRead(pages, size, 1, 0, 1);
    var all := Flatten(pages);
    assert all[size] == all[size..size + 1][0] == pages[1][0..1][0] == 1;
    assert all[at..at + n][size - at] == all[size];
  }
}
