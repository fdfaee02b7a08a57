/** The cache over the memory: what an entry owes the page behind it, and the
    image that a process sees through its entries. */
module Coherence {
  import opened Addressing
  import opened Pages
  import opened Memory

  /** What a cache entry holds, without the marks of the replacement policy;
      pid -1 marks an empty one. */
  datatype Line = Line(page: seq<int>, content: seq<byte>, modified: bool, pid: int)

  /** An entry holds one page of the image, and the memory's own bytes while clean. */
  predicate LineOk(cfg: Config, pages: Image, l: Line) {
    && |l.page| == cfg.levels && InRange(l.page, cfg.entries)
    && 0 <= Value(l.page, cfg.entries) < |pages|
    && |l.content| == cfg.pageSize
    && (!l.modified ==> l.content == pages[Value(l.page, cfg.entries)])
  }

  predicate Holds(cfg: Config, l: Line, pid: nat, i: nat) {
    l.pid == pid && Value(l.page, cfg.entries) == i
  }

  /** The entries of one process are right, and no page is cached twice. */
  predicate PidOk(cfg: Config, pages: Image, lines: seq<Line>, pid: nat) {
    && Uniform(pages, cfg.pageSize)
    && (forall k :: 0 <= k < |lines| && lines[k].pid == pid ==> LineOk(cfg, pages, lines[k]))
    && (forall k, j :: 0 <= k < j < |lines| && lines[k].pid == pid == lines[j].pid ==> lines[k].page != lines[j].page)
  }

  /** The first entry holding page i of the process, or the end. */
  function FindLine(cfg: Config, lines: seq<Line>, pid: nat, i: nat): (k: nat)
    ensures k <= |lines| && (k < |lines| ==> Holds(cfg, lines[k], pid, i))
    ensures forall j :: 0 <= j < k ==> !Holds(cfg, lines[j], pid, i)
  {
    if lines == [] || Holds(cfg, lines[0], pid, i) then 0 else 1 + FindLine(cfg, lines[1..], pid, i)
  }

  /** Page i as the process sees it. */
  function SeenPage(cfg: Config, pages: Image, lines: seq<Line>, pid: nat, i: nat): Page
    requires i < |pages|
  {
    var k := FindLine(cfg, lines, pid, i);
    if k < |lines| then lines[k].content else pages[i]
  }

  /** The image that a process sees: its entries over its memory pages. */
  function View(cfg: Config, pages: Image, lines: seq<Line>, pid: nat): (v: Image)
    ensures |v| == |pages|
  {
    seq(|pages|, i requires 0 <= i < |pages| => SeenPage(cfg, pages, lines, pid, i))
  }

  /** Every entry shows in the view. */
  lemma SeenLine(cfg: Config, pages: Image, lines: seq<Line>, pid: nat, k: nat)
    requires PidOk(cfg, pages, lines, pid) && k < |lines| && lines[k].pid == pid
    ensures LineOk(cfg, pages, lines[k]) && FindLine(cfg, lines, pid, Value(lines[k].page, cfg.entries)) == k
    ensures View(cfg, pages, lines, pid)[Value(lines[k].page, cfg.entries)] == lines[k].content
  {
    var i := Value(lines[k].page, cfg.entries);
    var j := FindLine(cfg, lines, pid, i);
    if j < |lines| {
      ValueInjective(lines[j].page, lines[k].page, cfg.entries);
    }
  }

  lemma ViewUniform(cfg: Config, pages: Image, lines: seq<Line>, pid: nat)
    requires PidOk(cfg, pages, lines, pid)
    ensures Uniform(View(cfg, pages, lines, pid), cfg.pageSize)
  {
    forall i | 0 <= i < |pages| ensures |View(cfg, pages, lines, pid)[i]| == cfg.pageSize {
      var k := FindLine(cfg, lines, pid, i);
      if k < |lines| {
        assert LineOk(cfg, pages, lines[k]);
      }
    }
  }

  /** Writing through an entry changes that page of the view and no other. */
  lemma ModifyKeeps(cfg: Config, pages: Image, a: seq<Line>, pid: nat, k: nat, content: seq<byte>)
    requires PidOk(cfg, pages, a, pid) && k < |a| && a[k].pid == pid && |content| == cfg.pageSize
    ensures var b := a[k := a[k].(content := content, modified := true)];
            PidOk(cfg, pages, b, pid)
            && View(cfg, pages, b, pid) == View(cfg, pages, a, pid)[Value(a[k].page, cfg.entries) := content]
  {
    var b := a[k := a[k].(content := content, modified := true)];
    SeenLine(cfg, pages, a, pid, k);
    assert LineOk(cfg, pages, b[k]);
    SeenLine(cfg, pages, b, pid, k);
    forall i | 0 <= i < |pages| && i != Value(a[k].page, cfg.entries)
      ensures SeenPage(cfg, pages, b, pid, i) == SeenPage(cfg, pages, a, pid, i) {
      var x, y := FindLine(cfg, a, pid, i), FindLine(cfg, b, pid, i);
      assert forall j :: 0 <= j < |a| ==> (Holds(cfg, a[j], pid, i) <==> Holds(cfg, b[j], pid, i));
    }
  }

  /** The page of an entry that may be dropped: its bytes are in memory. */
  predicate Settled(cfg: Config, pages: Image, l: Line, pid: nat) {
    l.pid == pid ==> LineOk(cfg, pages, l) && l.content == pages[Value(l.page, cfg.entries)]
  }

  /** Entry k gives way to a page not yet cached, once its own bytes are in
      memory: the view stays as it was. */
  lemma InsertKeeps(cfg: Config, pages: Image, a: seq<Line>, pid: nat, k: nat, l: Line)
    requires PidOk(cfg, pages, a, pid) && k < |a| && Settled(cfg, pages, a[k], pid)
    requires l.pid == pid && LineOk(cfg, pages, l) && !l.modified
    requires forall j :: 0 <= j < |a| && a[j].pid == pid ==> a[j].page != l.page
    ensures PidOk(cfg, pages, a[k := l], pid) && View(cfg, pages, a[k := l], pid) == View(cfg, pages, a, pid)
  {
    var b := a[k := l];
    assert PidOk(cfg, pages, b, pid);
    forall i | 0 <= i < |pages| ensures SeenPage(cfg, pages, b, pid, i) == SeenPage(cfg, pages, a, pid, i) {
      InsertSeen(cfg, pages, a, b, pid, k, i);
    }
  }

  lemma InsertSeen(cfg: Config, pages: Image, a: seq<Line>, b: seq<Line>, pid: nat, k: nat, i: nat)
    requires PidOk(cfg, pages, a, pid) && PidOk(cfg, pages, b, pid) && k < |a| == |b| && i < |pages|
    requires b == a[k := b[k]] && Settled(cfg, pages, a[k], pid) && b[k].pid == pid && !b[k].modified
    ensures SeenPage(cfg, pages, b, pid, i) == SeenPage(cfg, pages, a, pid, i)
  {
    var x, y := FindLine(cfg, a, pid, i), FindLine(cfg, b, pid, i);
    if x < |a| && x != k {
      SeenLine(cfg, pages, b, pid, x);
    } else if y < |b| && y != k {
      SeenLine(cfg, pages, a, pid, y);
    } else {
      assert y == k ==> LineOk(cfg, pages, b[k]);
    }
  }

  /** Writing an entry's own content to memory shows nowhere, and settles it. */
  lemma SaveKeeps(cfg: Config, pages: Image, lines: seq<Line>, pid: nat, k: nat)
    requires PidOk(cfg, pages, lines, pid) && k < |lines| && lines[k].pid == pid
    ensures LineOk(cfg, pages, lines[k])
    ensures var saved := pages[Value(lines[k].page, cfg.entries) := lines[k].content];
            PidOk(cfg, saved, lines, pid) && View(cfg, saved, lines, pid) == View(cfg, pages, lines, pid)
            && Settled(cfg, saved, lines[k], pid)
  {
    SeenLine(cfg, pages, lines, pid, k);
    var i := Value(lines[k].page, cfg.entries);
    var saved := pages[i := lines[k].content];
    forall j | 0 <= j < |lines| && lines[j].pid == pid ensures LineOk(cfg, saved, lines[j]) {
      assert LineOk(cfg, pages, lines[j]);
      if j != k {
        ValueInjective(lines[j].page, lines[k].page, cfg.entries);
      }
    }
    assert View(cfg, saved, lines, pid)[i] == View(cfg, pages, lines, pid)[i];
  }

  /** A line gives way to one of another process, once its own bytes are in memory:
      its process sees no difference, and neither does any third. */
  lemma DropKeeps(cfg: Config, pages: Image, a: seq<Line>, pid: nat, k: nat, l: Line)
    requires PidOk(cfg, pages, a, pid) && k < |a| && Settled(cfg, pages, a[k], pid) && l.pid != pid
    ensures PidOk(cfg, pages, a[k := l], pid) && View(cfg, pages, a[k := l], pid) == View(cfg, pages, a, pid)
  {
    var b := a[k := l];
    DropOk(cfg, pages, a, pid, k, l);
    forall i | 0 <= i < |pages| ensures SeenPage(cfg, pages, b, pid, i) == SeenPage(cfg, pages, a, pid, i) {
      DropSeen(cfg, pages, a, b, pid, k, i);
    }
  }

  lemma DropOk(cfg: Config, pages: Image, a: seq<Line>, pid: nat, k: nat, l: Line)
    requires PidOk(cfg, pages, a, pid) && k < |a| && l.pid != pid
    ensures PidOk(cfg, pages, a[k := l], pid)
  {
    var b := a[k := l];
    forall j | 0 <= j < |b| && b[j].pid == pid ensures b[j] == a[j] && LineOk(cfg, pages, b[j]) {
    }
  }

  lemma DropSeen(cfg: Config, pages: Image, a: seq<Line>, b: seq<Line>, pid: nat, k: nat, i: nat)
    requires PidOk(cfg, pages, a, pid) && PidOk(cfg, pages, b, pid) && k < |a| && i < |pages|
    requires |b| == |a| && b == a[k := b[k]] && b[k].pid != pid && Settled(cfg, pages, a[k], pid)
    ensures SeenPage(cfg, pages, b, pid, i) == SeenPage(cfg, pages, a, pid, i)
  {
    var x, y := FindLine(cfg, a, pid, i), FindLine(cfg, b, pid, i);
    if x < |a| && x != k {
      SeenLine(cfg, pages, b, pid, x);
    } else if y < |b| {
      SeenLine(cfg, pages, a, pid, y);
    }
  }

  /** Without entries the process sees its memory. */
  lemma NoLinesView(cfg: Config, pages: Image, lines: seq<Line>, pid: nat)
    requires forall k :: 0 <= k < |lines| ==> lines[k].pid != pid
    ensures View(cfg, pages, lines, pid) == pages
    ensures Uniform(pages, cfg.pageSize) ==> PidOk(cfg, pages, lines, pid)
  {
  }
}
