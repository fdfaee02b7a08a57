/** The text of the swap file: what suspension prints for a process, and how
    that text is found, removed and parsed back. */
module SwapText {
  import opened Wrappers
  import opened Pages

  // ---- Go's text primitives

  /** fmt.Sprint of a non-negative integer. */
  function PrintNat(n: nat): (s: string)
    ensures |s| > 0 && forall k :: 0 <= k < |s| ==> '0' <= s[k] <= '9'
  {
    if n < 10 then ['0' + n as char] else PrintNat(n / 10) + ['0' + (n % 10) as char]
  }

  /** The digits of strconv.Atoi, most significant first. */
  function ParseDigits(s: string): Option<nat> {
    if s == "" then None
    else
      var c := s[|s| - 1];
      if !('0' <= c <= '9') then None
      else if |s| == 1 then Some((c - '0') as nat)
      else
        match ParseDigits(s[..|s| - 1])
        case None => None
        case Some(high) => Some(high * 10 + (c - '0') as nat)
  }

  /** strconv.Atoi: an optional sign, then digits. */
  function Atoi(s: string): Option<int> {
    if s != "" && (s[0] == '-' || s[0] == '+') then
      match ParseDigits(s[1..])
      case None => None
      case Some(n) => Some(if s[0] == '-' then -(n as int) else n)
    else
      match ParseDigits(s)
      case None => None
      case Some(n) => Some(n)
  }

  /** strings.Split on a one-character separator. */
  function Split(s: string, c: char): (r: seq<string>)
    ensures |r| > 0
  {
    if s == "" then [""]
    else
      var r, last := Split(s[..|s| - 1], c), s[|s| - 1];
      if last == c then r + [""] else r[..|r| - 1] + [r[|r| - 1] + [last]]
  }

  function Join(parts: seq<string>, c: char): string
    requires parts != []
  {
    if |parts| == 1 then parts[0]
    else Join(parts[..|parts| - 1], c) + [c] + parts[|parts| - 1]
  }

  /** bufio.Reader.ReadString: the text up to and including the first c, and what follows. */
  function ReadString(s: string, c: char): (r: Option<(string, string)>)
    ensures r.Some? ==> s == r.value.0 + r.value.1 && |r.value.0| > 0 && r.value.0[|r.value.0| - 1] == c
  {
    if s == "" then None
    else if s[0] == c then Some(([c], s[1..]))
    else
      match ReadString(s[1..], c)
      case None => None
      case Some((line, rest)) => Some(([s[0]] + line, rest))
  }

  // ---- The format

  datatype Block = Block(pid: nat, pages: Image)

  function PrintBytes(page: Page): (r: seq<string>)
    ensures |r| == |page|
  {
    seq(|page|, i requires 0 <= i < |page| => PrintNat(page[i] as nat))
  }

  /** fmt.Sprint of a non-empty byte slice. */
  function PrintPage(page: Page): string
    requires page != []
  {
    "[" + Join(PrintBytes(page), ' ') + "]"
  }

  predicate Printable(b: Block) {
    forall i :: 0 <= i < |b.pages| ==> b.pages[i] != []
  }

  function BodyLines(b: Block): (r: seq<string>)
    requires Printable(b)
    ensures |r| == |b.pages| + 1
  {
    [PrintNat(|b.pages|)] + seq(|b.pages|, i requires 0 <= i < |b.pages| => PrintPage(b.pages[i]))
  }

  /** What follows "pid|" in a block, up to and including its '~'. */
  function Body(b: Block): string
    requires Printable(b)
  {
    Join(BodyLines(b) + ["~"], '\n')
  }

  function PrintBlock(b: Block): string
    requires Printable(b)
  {
    PrintNat(b.pid) + "|" + Body(b) + "\n"
  }

  predicate AllPrintable(blocks: seq<Block>) {
    forall i :: 0 <= i < |blocks| ==> Printable(blocks[i])
  }

  function PrintFile(blocks: seq<Block>): string
    requires AllPrintable(blocks)
  {
    if blocks == [] then "" else PrintBlock(blocks[0]) + PrintFile(blocks[1..])
  }

  /** Position of the block of a pid, or the number of blocks. */
  function FindBlock(blocks: seq<Block>, pid: nat): (i: nat)
    ensures i <= |blocks| && (i < |blocks| ==> blocks[i].pid == pid)
    ensures forall k :: 0 <= k < i ==> blocks[k].pid != pid
  {
    if blocks == [] || blocks[0].pid == pid then 0 else 1 + FindBlock(blocks[1..], pid)
  }

  /** What the file says of process 12 when its two pages hold 255 0 and 7 10. */
  lemma FileText()
    ensures PrintFile([Block(12, [[255, 0], [7, 10]])]) == "12|2\n[255 0]\n[7 10]\n~\n"
  {
    hide PrintPage, Body;
    Decimals();
    PairText(255, 0);
    PairText(7, 10);
    var b := Block(12, [[255, 0], [7, 10]]);
    BodyText(b);
    assert PrintFile([b]) == PrintBlock(b) + PrintFile([]) == PrintBlock(b);
  }

  lemma Decimals()
    ensures PrintNat(12) == "12" && PrintNat(10) == "10" && PrintNat(255) == "255"
    ensures PrintNat(0) == "0" && PrintNat(2) == "2" && PrintNat(7) == "7"
  {
    assert PrintNat(255) == PrintNat(25) + "5" && PrintNat(25) == PrintNat(2) + "5";
    assert PrintNat(12) == PrintNat(1) + "2" && PrintNat(10) == PrintNat(1) + "0";
  }

  lemma PairText(a: byte, b: byte)
    ensures PrintPage([a, b]) == "[" + PrintNat(a as nat) + " " + PrintNat(b as nat) + "]"
  {
    assert PrintBytes([a, b]) == [PrintNat(a as nat), PrintNat(b as nat)];
    PairJoin(PrintNat(a as nat), PrintNat(b as nat), ' ');
  }

  lemma BodyText(b: Block)
    requires |b.pages| == 2 && Printable(b)
    ensures Body(b) == PrintNat(2) + "\n" + PrintPage(b.pages[0]) + "\n" + PrintPage(b.pages[1]) + "\n" + "~"
  {
    hide PrintPage, PrintNat;
    assert BodyLines(b) + ["~"] == [PrintNat(2), PrintPage(b.pages[0]), PrintPage(b.pages[1]), "~"];
    FourJoin(PrintNat(2), PrintPage(b.pages[0]), PrintPage(b.pages[1]), "~", '\n');
  }

  lemma PairJoin(a: string, b: string, c: char)
    ensures Join([a, b], c) == a + [c] + b
  {
    assert [a, b][..1] == [a];
  }

  lemma FourJoin(a: string, b: string, d: string, e: string, c: char)
    ensures Join([a, b, d, e], c) == a + [c] + b + [c] + d + [c] + e
  {
    assert [a, b, d, e][..3] == [a, b, d] && [a, b, d][..2] == [a, b];
    PairJoin(a, b, c);
  }

  // ---- Round trips of the primitives

  lemma {:induction false} AtoiPrint(n: nat)
    ensures ParseDigits(PrintNat(n)) == Some(n) && Atoi(PrintNat(n)) == Some(n)
  {
    if n >= 10 {
      AtoiPrint(n / 10);
      assert PrintNat(n)[..|PrintNat(n)| - 1] == PrintNat(n / 10);
    }
  }

  lemma {:induction false} SplitExtend(s: string, x: string, c: char)
    requires c !in x
    ensures Split(s + x, c) == var r := Split(s, c); r[..|r| - 1] + [r[|r| - 1] + x]
  {
    hide Split;
    var r := Split(s, c);
    if x == "" {
      assert s + x == s;
      assert r[|r| - 1] + x == r[|r| - 1];
    } else {
      var n := |x| - 1;
      SplitExtend(s, x[..n], c);
      SplitChar(s + x[..n], x[n], c);
      assert s + x == s + x[..n] + [x[n]];
      assert r[|r| - 1] + x == r[|r| - 1] + x[..n] + [x[n]];
    }
  }

  lemma SplitChar(s: string, x: char, c: char)
    requires x != c
    ensures Split(s + [x], c) == var r := Split(s, c); r[..|r| - 1] + [r[|r| - 1] + [x]]
  {
    assert (s + [x])[..|s|] == s;
  }

  /** Splitting undoes joining when no part holds the separator. */
  lemma {:induction false} SplitJoin(parts: seq<string>, c: char)
    requires parts != [] && forall i :: 0 <= i < |parts| ==> c !in parts[i]
    ensures Split(Join(parts, c), c) == parts
  {
    var n := |parts| - 1;
    if n == 0 {
      SplitExtend("", parts[0], c);
      assert "" + parts[0] == parts[0];
    } else {
      SplitJoin(parts[..n], c);
      SplitLast(Join(parts[..n], c), parts[n], c);
      assert parts == parts[..n] + [parts[n]];
    }
  }

  lemma SplitLast(head: string, last: string, c: char)
    requires c !in last
    ensures Split(head + [c] + last, c) == Split(head, c) + [last]
  {
    assert (head + [c])[..|head|] == head;
    SplitExtend(head + [c], last, c);
    assert "" + last == last;
  }

  lemma {:induction false} JoinAvoids(parts: seq<string>, c: char, x: char)
    requires parts != [] && x != c && forall i :: 0 <= i < |parts| ==> x !in parts[i]
    ensures x !in Join(parts, c)
  {
    if |parts| > 1 {
      JoinAvoids(parts[..|parts| - 1], c, x);
    }
  }

  lemma {:induction false} ReadStringAt(s: string, c: char, rest: string)
    requires c !in s
    ensures ReadString(s + [c] + rest, c) == Some((s + [c], rest))
  {
    var whole := s + [c] + rest;
    if s == "" {
      assert whole[1..] == rest;
      assert [c] == s + [c];
    } else {
      ReadStringAt(s[1..], c, rest);
      assert whole[1..] == s[1..] + [c] + rest;
      assert [s[0]] + (s[1..] + [c]) == s + [c];
    }
  }

  lemma {:induction false} ReadStringNone(s: string, c: char)
    requires c !in s
    ensures ReadString(s, c) == None
  {
    if s != "" {
      ReadStringNone(s[1..], c);
    }
  }

  // ---- Blocks

  /** A printed page holds digits, blanks and brackets only. */
  lemma PageAvoids(page: Page, x: char)
    requires page != [] && x !in "[] " && !('0' <= x <= '9')
    ensures x !in PrintPage(page)
  {
    JoinAvoids(PrintBytes(page), ' ', x);
  }

  lemma BodyAvoids(b: Block, x: char)
    requires Printable(b) && (x == '|' || x == '~')
    ensures x !in Join(BodyLines(b), '\n')
  {
    var lines := BodyLines(b);
    forall i | 0 <= i < |lines| ensures x !in lines[i] {
      if i > 0 {
        PageAvoids(b.pages[i - 1], x);
      }
    }
    JoinAvoids(lines, '\n', x);
  }

  lemma BodyShape(b: Block)
    requires Printable(b)
    ensures Body(b) == Join(BodyLines(b), '\n') + "\n" + ['~']
  {
    assert (BodyLines(b) + ["~"])[..|BodyLines(b)|] == BodyLines(b);
  }

  /** The two reads of a block header and body recover what was printed. */
  lemma ReadBlock(b: Block, tail: string)
    requires Printable(b)
    ensures ReadString(PrintBlock(b) + tail, '|') == Some((PrintNat(b.pid) + "|", Body(b) + "\n" + tail))
    ensures ReadString(Body(b) + "\n" + tail, '~') == Some((Body(b), "\n" + tail))
  {
    BodyShape(b);
    BodyAvoids(b, '~');
    var text := Join(BodyLines(b), '\n') + "\n";
    ReadStringAt(PrintNat(b.pid), '|', Body(b) + "\n" + tail);
    assert PrintBlock(b) + tail == PrintNat(b.pid) + ['|'] + (Body(b) + "\n" + tail);
    ReadStringAt(text, '~', "\n" + tail);
    assert Body(b) + "\n" + tail == text + ['~'] + ("\n" + tail);
  }

  lemma {:induction false} PrintFileAppend(a: seq<Block>, b: seq<Block>)
    requires AllPrintable(a) && AllPrintable(b)
    ensures AllPrintable(a + b) && PrintFile(a + b) == PrintFile(a) + PrintFile(b)
  {
    hide PrintBlock, Printable;
    if a == [] {
      assert a + b == b;
    } else {
      PrintFileAppend(a[1..], b);
      assert (a + b)[1..] == a[1..] + b && (a + b)[0] == a[0];
      FirstBlock(a + b);
      FirstBlock(a);
      ConcatAssociative(PrintBlock(a[0]), PrintFile(a[1..]), PrintFile(b));
    }
  }

  lemma FirstBlock(blocks: seq<Block>)
    requires blocks != [] && Printable(blocks[0]) && AllPrintable(blocks[1..])
    ensures AllPrintable(blocks) && PrintFile(blocks) == PrintBlock(blocks[0]) + PrintFile(blocks[1..])
  {
    hide PrintBlock, Printable;
    assert forall k :: 0 < k < |blocks| ==> blocks[k] == blocks[1..][k - 1];
  }

  lemma JoinStep(parts: seq<string>, i: nat, c: char)
    requires i + 1 < |parts|
    ensures Join(parts[..i + 2], c) == Join(parts[..i + 1], c) + [c] + parts[i + 1]
  {
    assert parts[..i + 2][..i + 1] == parts[..i + 1];
  }

  /** What one turn of a scan of the swap file reads. */
  lemma ScanStep(blocks: seq<Block>, i: nat)
    requires AllPrintable(blocks) && i < |blocks|
    ensures var b, tail := blocks[i], PrintFile(blocks[i + 1..]);
            var header := PrintNat(b.pid) + "|";
            ReadString(PrintFile(blocks[i..]), '|') == Some((header, Body(b) + "\n" + tail))
            && Atoi(header[..|header| - 1]) == Some(b.pid)
            && ReadString(Body(b) + "\n" + tail, '~') == Some((Body(b), "\n" + tail))
            && ("\n" + tail)[1..] == tail
            && PrintFile(blocks[..i + 1]) == PrintFile(blocks[..i]) + header + Body(b) + "\n"
  {
    var b := blocks[i];
    var header := PrintNat(b.pid) + "|";
    ReadBlock(b, PrintFile(blocks[i + 1..]));
    AtoiPrint(b.pid);
    assert header[..|header| - 1] == PrintNat(b.pid);
    assert blocks[i..][1..] == blocks[i + 1..];
    PrintFileAppend(blocks[..i], [b]);
    assert blocks[..i] + [b] == blocks[..i + 1];
    assert PrintFile([b]) == header + Body(b) + "\n" by {
      assert PrintFile([b]) == PrintBlock(b) + "";
    }
    ConcatAssociative(PrintFile(blocks[..i]), header, Body(b));
    ConcatAssociative(PrintFile(blocks[..i]), header + Body(b), "\n");
  }

  /** The numbers of a printed page come back from strings.Split. */
  lemma SplitPage(page: Page)
    requires page != []
    ensures var text := PrintPage(page); Split(text[1..|text| - 1], ' ') == PrintBytes(page)
  {
    var text := PrintPage(page);
    assert text[1..|text| - 1] == Join(PrintBytes(page), ' ');
    SplitJoin(PrintBytes(page), ' ');
  }

  function ByteOf(text: string): byte {
    var number := match Atoi(text) case Some(n) => n case None => 0;
    (number % 256) as byte
  }

  lemma ByteRoundTrip(b: byte)
    ensures ByteOf(PrintNat(b as nat)) == b
  {
    AtoiPrint(b as nat);
  }

  /** The lines of a block body come back from strings.Split. */
  lemma SplitBody(b: Block)
    requires Printable(b)
    ensures Split(Body(b), '\n') == BodyLines(b) + ["~"]
  {
    var lines := BodyLines(b) + ["~"];
    forall i | 0 <= i < |lines| ensures '\n' !in lines[i] {
      if 0 < i < |b.pages| + 1 {
        PageAvoids(b.pages[i - 1], '\n');
      }
    }
    SplitJoin(lines, '\n');
  }

  // ---- The swap operations of storage.go

  /** A block printed up to and including its first i pages. */
  ghost function Printed(b: Block, i: nat): string
    requires Printable(b) && i <= |b.pages|
  {
    PrintNat(b.pid) + "|" + Join(BodyLines(b)[..i + 1], '\n') + "\n"
  }

  lemma PrintedFirst(b: Block)
    requires Printable(b)
    ensures Printed(b, 0) == PrintNat(b.pid) + "|" + PrintNat(|b.pages|) + "\n"
  {
    assert BodyLines(b)[..1] == [PrintNat(|b.pages|)];
  }

  lemma PrintedNext(b: Block, i: nat)
    requires Printable(b) && i < |b.pages|
    ensures Printed(b, i + 1) == Printed(b, i) + (PrintPage(b.pages[i]) + "\n")
  {
    JoinStep(BodyLines(b), i, '\n');
    FormatStep(PrintNat(b.pid) + "|", Join(BodyLines(b)[..i + 1], '\n'), PrintPage(b.pages[i]));
  }

  lemma PrintedLast(b: Block)
    requires Printable(b)
    ensures PrintBlock(b) == Printed(b, |b.pages|) + "~\n"
  {
    assert BodyLines(b)[..|b.pages| + 1] == BodyLines(b);
    BodyShape(b);
    FormatStep(PrintNat(b.pid) + "|", Join(BodyLines(b), '\n'), "~");
  }

  lemma FormatStep(header: string, text: string, line: string)
    ensures header + text + "\n" + (line + "\n") == header + (text + "\n" + line) + "\n"
  {
  }

  /** formatSwapData: the text of one process. */
  method FormatSwapData(pid: nat, pages: Image) returns (msg: string)
    requires Printable(Block(pid, pages))
    ensures msg == PrintBlock(Block(pid, pages))
  {
    ghost var b := Block(pid, pages);
    msg := PrintNat(pid) + "|" + PrintNat(|pages|) + "\n";
    PrintedFirst(b);
    for i := 0 to |pages|
      invariant msg == Printed(b, i)
    {
      PrintedNext(b, i);
      msg := msg + (PrintPage(pages[i]) + "\n");
    }
    PrintedLast(b);
    msg := msg + "~\n";
  }

  /** getFromSwap's scan stands before block i, and none before it is of the pid. */
  ghost predicate Standing(blocks: seq<Block>, pid: nat, i: nat, rest: string) {
    && AllPrintable(blocks) && i <= |blocks| && rest == PrintFile(blocks[i..])
    && forall k :: 0 <= k < i ==> blocks[k].pid != pid
  }

  /** What the scan reads there, and where it stands next. */
  lemma StandingStep(blocks: seq<Block>, pid: nat, i: nat, rest: string)
    requires Standing(blocks, pid, i, rest)
    ensures i == |blocks| ==> ReadString(rest, '|').None? && FindBlock(blocks, pid) == |blocks|
    ensures i < |blocks| ==> (
              var b, tail := blocks[i], PrintFile(blocks[i + 1..]);
              var header := PrintNat(b.pid) + "|";
              && ReadString(rest, '|') == Some((header, Body(b) + "\n" + tail))
              && Atoi(header[..|header| - 1]) == Some(b.pid)
              && ReadString(Body(b) + "\n" + tail, '~') == Some((Body(b), "\n" + tail))
              && ("\n" + tail)[1..] == tail
              && (b.pid == pid ==> FindBlock(blocks, pid) == i)
              && (b.pid != pid ==> Standing(blocks, pid, i + 1, tail)))
  {
    hide Printable, PrintBlock, Body, Atoi, PrintNat;
    if i < |blocks| {
      ScanStep(blocks, i);
    }
  }

  /** getFromSwap: scans the blocks for a pid; EOF when there is none. */
  method GetFromSwap(file: string, pid: nat, ghost blocks: seq<Block>) returns (r: Result<string>)
    ensures AllPrintable(blocks) && file == PrintFile(blocks) ==>
              var i := FindBlock(blocks, pid);
              r == if i < |blocks| then Ok(Body(blocks[i])) else Err(Eof)
  {
    hide AllPrintable, PrintFile, Standing, Body, Atoi, PrintNat;
    ghost var good := AllPrintable(blocks) && file == PrintFile(blocks);
    ghost var i := 0;
    var rest := file;
    StandingStart(blocks, pid);
    while true
      invariant good ==> i <= |blocks| && Standing(blocks, pid, i, rest)
      decreases |rest|
    {
      if good {
        StandingStep(blocks, pid, i, rest);
      }
      var header := ReadString(rest, '|');
      if header.None? {
        return Err(Eof);
      }
      var number := Atoi(header.value.0[..|header.value.0| - 1]);
      if number.None? {
        return Err(BadNumber);
      }
      var data := ReadString(header.value.1, '~');
      if data.None? {
        return Err(Eof);
      }
      if number.value == pid {
        return Ok(data.value.0);
      }
      if data.value.1 == "" {
        return Err(Eof);
      }
      rest := data.value.1[1..];
      i := i + 1;
    }
  }

  lemma StandingStart(blocks: seq<Block>, pid: nat)
    ensures AllPrintable(blocks) ==> Standing(blocks, pid, 0, PrintFile(blocks))
  {
    assert blocks[0..] == blocks;
  }

  /** removeFromSwap's scan stands before block i, having copied the blocks before it. */
  ghost predicate Copied(blocks: seq<Block>, pid: nat, i: nat, rest: string, temp: string) {
    Standing(blocks, pid, i, rest) && temp == PrintFile(blocks[..i])
  }

  /** A block of another process is copied as it was read. */
  lemma CopiedNext(blocks: seq<Block>, pid: nat, i: nat, rest: string, temp: string)
    requires Copied(blocks, pid, i, rest, temp) && i < |blocks| && blocks[i].pid != pid
    ensures var b := blocks[i];
            Copied(blocks, pid, i + 1, PrintFile(blocks[i + 1..]), temp + (PrintNat(b.pid) + "|") + Body(b) + "\n")
  {
    hide PrintBlock, Body, PrintNat, Printable, Atoi, ReadString;
    StandingStep(blocks, pid, i, rest);
    ScanStep(blocks, i);
  }

  lemma CopiedAll(blocks: seq<Block>, pid: nat, i: nat, rest: string, temp: string)
    requires Copied(blocks, pid, i, rest, temp) && i < |blocks| && blocks[i].pid == pid
    ensures i == FindBlock(blocks, pid) && AllPrintable(blocks[..i] + blocks[i + 1..])
    ensures temp + PrintFile(blocks[i + 1..]) == PrintFile(blocks[..i] + blocks[i + 1..])
  {
    hide PrintBlock, Printable;
    PrintFileAppend(blocks[..i], blocks[i + 1..]);
  }

  /** removeFromSwap: copies the file without the block of a pid. */
  method RemoveFromSwap(file: string, pid: nat, ghost blocks: seq<Block>) returns (r: Result<string>)
    requires AllPrintable(blocks)
    ensures file == PrintFile(blocks) ==>
              var i := FindBlock(blocks, pid);
              if i < |blocks| then AllPrintable(blocks[..i] + blocks[i + 1..])
                && r == Ok(PrintFile(blocks[..i] + blocks[i + 1..]))
              else r == Err(Eof)
  {
    hide AllPrintable, PrintFile, Standing, Copied, Body, Atoi, PrintNat;
    ghost var good, i := file == PrintFile(blocks), 0;
    StandingStart(blocks, pid);
    CopiedStart(blocks, pid);
    var rest, temp := file, "";
    while true
      invariant good ==> i <= |blocks| && Copied(blocks, pid, i, rest, temp)
      decreases |rest|
    {
      if good {
        CopiedStands(blocks, pid, i, rest, temp);
        StandingStep(blocks, pid, i, rest);
      }
      var header := ReadString(rest, '|');
      if header.None? {
        return Err(Eof);
      }
      var number := Atoi(header.value.0[..|header.value.0| - 1]);
      if number.None? {
        return Err(BadNumber);
      }
      var data := ReadString(header.value.1, '~');
      if data.None? {
        return Err(Eof);
      }
      ghost var was := rest;
      rest := if data.value.1 == "" then "" else data.value.1[1..];
      if number.value == pid {
        if good {
          CopiedAll(blocks, pid, i, was, temp);
        }
        temp := CopyRest(temp, rest);
        return Ok(temp);
      }
      if good {
        CopiedNext(blocks, pid, i, was, temp);
      }
      temp := temp + header.value.0 + data.value.0 + "\n";
      i := i + 1;
    }
  }

  lemma CopiedStart(blocks: seq<Block>, pid: nat)
    requires AllPrintable(blocks)
    ensures Copied(blocks, pid, 0, PrintFile(blocks), "")
  {
    StandingStart(blocks, pid);
  }

  lemma CopiedStands(blocks: seq<Block>, pid: nat, i: nat, rest: string, temp: string)
    requires Copied(blocks, pid, i, rest, temp)
    ensures Standing(blocks, pid, i, rest) && AllPrintable(blocks)
  {
  }

  /** The copy loop of removeFromSwap: line by line until end of file. */
  method CopyRest(temp: string, text: string) returns (r: string)
    ensures r == temp + text
  {
    r := temp;
    var rest := text;
    while true
      invariant r + rest == temp + text
      decreases |rest|
    {
      var line := ReadString(rest, '\n');
      if line.None? {
        r := r + rest;
        break;
      }
      r := r + line.value.0;
      rest := line.value.1;
    }
  }

  /** The byte loop of UnSuspendProcess: one printed page into a page buffer. */
  method DecodePage(text: string, bytes: array<byte>, ghost page: Page)
    requires page != [] && text == PrintPage(page) && bytes.Length == |page|
    modifies bytes
    ensures bytes[..] == page
  {
    hide ByteOf, PrintNat, Split, Join, Atoi;
    var numbers := Split(text[1..|text| - 1], ' ');
    SplitPage(page);
    for i := 0 to |numbers|
      invariant forall j :: 0 <= j < i ==> bytes[j] == page[j]
    {
      ByteRoundTrip(page[i]);
      bytes[i] := ByteOf(numbers[i]);
    }
  }
}
