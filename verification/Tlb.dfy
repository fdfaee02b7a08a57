/** cpu/memory/tlb.go: the translation lookaside buffer, FIFO or LRU. */
module Tlb {
  import opened Wrappers
  import opened Pages
  import opened Memory
  import opened Storage

  datatype Entry = Entry(page: seq<int>, frame: int, lastUsed: int, pid: nat)

  datatype Algorithm = FIFO | LRU

  datatype Key = Key(pid: nat, page: seq<int>)

  function KeyOf(e: Entry): Key { Key(e.pid, e.page) }

  // ---- One reference as a function

  /** findFrame: the first entry with that key, or the end. */
  function Lookup(entries: seq<Entry>, key: Key): (i: nat)
    ensures i <= |entries| && (i < |entries| ==> KeyOf(entries[i]) == key)
    ensures forall k :: 0 <= k < i ==> KeyOf(entries[k]) != key
  {
    if entries == [] || KeyOf(entries[0]) == key then 0 else 1 + Lookup(entries[1..], key)
  }

  /** The first of the entries used longest ago. */
  function Oldest(entries: seq<Entry>): (i: nat)
    requires entries != []
    ensures i < |entries|
    ensures forall k :: 0 <= k < |entries| ==> entries[i].lastUsed <= entries[k].lastUsed
    ensures forall k :: 0 <= k < i ==> entries[i].lastUsed < entries[k].lastUsed
  {
    if |entries| == 1 then 0
    else
      var i := Oldest(entries[..|entries| - 1]);
      if entries[|entries| - 1].lastUsed < entries[i].lastUsed then |entries| - 1 else i
  }

  /** AddEntryTLB. */
  function Insert(entries: seq<Entry>, capacity: nat, alg: Algorithm, e: Entry): seq<Entry> {
    if capacity == 0 then entries
    else if |entries| < capacity then entries + [e]
    else Without(entries, if alg == FIFO then 0 else Oldest(entries)) + [e]
  }

  /** The entry joins the end; of a full buffer the first goes, or under LRU the first
      of those used longest ago. */
  ghost predicate Added(was: seq<Entry>, now: seq<Entry>, capacity: nat, alg: Algorithm, e: Entry) {
    && (capacity == 0 ==> now == was)
    && (0 < capacity && |was| < capacity ==> now == was + [e])
    && (0 < capacity <= |was| && alg == FIFO ==> now == was[1..] + [e])
    && (0 < capacity <= |was| && alg == LRU ==>
          exists v :: 0 <= v < |was| && now == was[..v] + was[v + 1..] + [e]
                      && (forall k :: 0 <= k < |was| ==> was[v].lastUsed <= was[k].lastUsed)
                      && (forall k :: 0 <= k < v ==> was[v].lastUsed < was[k].lastUsed))
  }

  lemma InsertAdds(entries: seq<Entry>, capacity: nat, alg: Algorithm, e: Entry)
    ensures Added(entries, Insert(entries, capacity, alg, e), capacity, alg, e)
  {
  }

  /** What a translation of a mapped page does to the buffer at time t. */
  function Reference(entries: seq<Entry>, capacity: nat, alg: Algorithm, key: Key, frame: int, t: int): seq<Entry> {
    var i := Lookup(entries, key);
    if capacity != 0 && i < |entries| then
      if alg == LRU then entries[i := entries[i].(lastUsed := t)] else entries
    else Insert(entries, capacity, alg, Entry(key.page, frame, t, key.pid))
  }

  // ---- Transparency

  /** Every entry of a process that exists translates as the page tables do, once per
      key, within capacity. */
  ghost predicate TlbOk(m: Mem, entries: seq<Entry>, capacity: nat) {
    && |entries| <= capacity
    && (forall i :: 0 <= i < |entries| && Exists(m, entries[i].pid) ==>
          FrameOf(m, entries[i].pid, entries[i].page) == Ok(entries[i].frame))
    && (forall i, j :: 0 <= i < j < |entries| ==> KeyOf(entries[i]) != KeyOf(entries[j]))
  }

  /** Dropping an entry, or refreshing one, leaves the others right. */
  lemma EntriesKeep(m: Mem, entries: seq<Entry>, capacity: nat, k: nat, t: int)
    requires TlbOk(m, entries, capacity) && k < |entries|
    ensures TlbOk(m, Without(entries, k), capacity)
    ensures TlbOk(m, entries[k := entries[k].(lastUsed := t)], capacity)
  {
    var rest := Without(entries, k);
    assert forall x :: 0 <= x < |rest| ==> rest[x] == if x < k then entries[x] else entries[x + 1];
    var touched := entries[k := entries[k].(lastUsed := t)];
    forall x | 0 <= x < |touched|
      ensures touched[x].page == entries[x].page && touched[x].pid == entries[x].pid
          && touched[x].frame == entries[x].frame {
    }
  }

  lemma AppendKeeps(m: Mem, entries: seq<Entry>, capacity: nat, e: Entry)
    requires TlbOk(m, entries, capacity) && |entries| < capacity && FrameOf(m, e.pid, e.page) == Ok(e.frame)
    requires forall k :: 0 <= k < |entries| ==> KeyOf(entries[k]) != KeyOf(e)
    ensures TlbOk(m, entries + [e], capacity)
  {
  }

  /** Any reference to a mapped page keeps the buffer right, FIFO or LRU, at any
      capacity. */
  lemma ReferenceKeeps(m: Mem, entries: seq<Entry>, capacity: nat, alg: Algorithm, key: Key, frame: int, t: int)
    requires TlbOk(m, entries, capacity) && FrameOf(m, key.pid, key.page) == Ok(frame)
    ensures TlbOk(m, Reference(entries, capacity, alg, key, frame, t), capacity)
  {
    var i := Lookup(entries, key);
    var e := Entry(key.page, frame, t, key.pid);
    if capacity != 0 && i < |entries| {
      EntriesKeep(m, entries, capacity, i, t);
    } else if capacity != 0 && |entries| < capacity {
      AppendKeeps(m, entries, capacity, e);
    } else if capacity != 0 {
      var k := if alg == FIFO then 0 else Oldest(entries);
      EntriesKeep(m, entries, capacity, k, t);
      AppendKeeps(m, Without(entries, k), capacity, e);
    }
  }

  /** A hit answers what the page tables would. */
  lemma HitIsTranslation(m: Mem, entries: seq<Entry>, capacity: nat, key: Key)
    requires TlbOk(m, entries, capacity) && Exists(m, key.pid) && Lookup(entries, key) < |entries|
    ensures FrameOf(m, key.pid, key.page) == Ok(entries[Lookup(entries, key)].frame)
  {
  }

  // ---- LRU holds the most recently referenced keys

  datatype Use = Use(key: Key, frame: int, time: int)

  predicate Increasing(trace: seq<Use>) {
    forall i, j :: 0 <= i < j < |trace| ==> trace[i].time < trace[j].time
  }

  function Contents(capacity: nat, alg: Algorithm, trace: seq<Use>): seq<Entry> {
    if trace == [] then []
    else
      var u := trace[|trace| - 1];
      Reference(Contents(capacity, alg, trace[..|trace| - 1]), capacity, alg, u.key, u.frame, u.time)
  }

  /** Every key that the trace uses. */
  function Referenced(trace: seq<Use>): set<Key> { set u | u in trace :: u.key }

  /** The time of the last use of a key. */
  function LastUse(trace: seq<Use>, key: Key): int
    requires key in Referenced(trace)
  {
    var n := |trace| - 1;
    if trace[n].key == key then trace[n].time
    else
      assert key in Referenced(trace[..n]) by {
        var u :| u in trace && u.key == key;
        assert u in trace[..n];
      }
      LastUse(trace[..n], key)
  }

  function Keys(entries: seq<Entry>): set<Key> { set e | e in entries :: KeyOf(e) }

  /** keys are used more recently than everything else in the trace. */
  ghost predicate MostRecent(trace: seq<Use>, keys: set<Key>) {
    && keys <= Referenced(trace)
    && forall a, b :: a in keys && b in Referenced(trace) - keys ==> LastUse(trace, b) < LastUse(trace, a)
  }

  /** The buffer's own record of the trace: one entry per key, with its last use. */
  ghost predicate Records(trace: seq<Use>, entries: seq<Entry>) {
    && (forall i, j :: 0 <= i < j < |entries| ==> KeyOf(entries[i]) != KeyOf(entries[j]))
    && (forall i :: 0 <= i < |entries| ==>
          KeyOf(entries[i]) in Referenced(trace) && entries[i].lastUsed == LastUse(trace, KeyOf(entries[i])))
  }

  lemma UseStep(trace: seq<Use>, key: Key)
    requires trace != []
    ensures var n := |trace| - 1;
            && Referenced(trace) == Referenced(trace[..n]) + {trace[n].key}
            && (key == trace[n].key ==> LastUse(trace, key) == trace[n].time)
            && (key != trace[n].key && key in Referenced(trace[..n]) ==>
              LastUse(trace, key) == LastUse(trace[..n], key))
  {
    var n := |trace| - 1;
    assert trace == trace[..n] + [trace[n]];
  }

  /** Distinct keys have distinct last uses, all before the next reference. */
  lemma {:induction false} LastUseDistinct(trace: seq<Use>, a: Key, b: Key)
    requires Increasing(trace) && a in Referenced(trace) && b in Referenced(trace) && a != b
    ensures LastUse(trace, a) != LastUse(trace, b)
  {
    var n := |trace| - 1;
    UseStep(trace, a);
    UseStep(trace, b);
    if a != trace[n].key && b != trace[n].key {
      LastUseDistinct(trace[..n], a, b);
    } else {
      LastUseBefore(trace[..n], if a == trace[n].key then b else a, trace[n].time);
    }
  }

  lemma {:induction false} LastUseBefore(trace: seq<Use>, key: Key, t: int)
    requires key in Referenced(trace) && forall i :: 0 <= i < |trace| ==> trace[i].time < t
    ensures LastUse(trace, key) < t
  {
    var n := |trace| - 1;
    UseStep(trace, key);
    if key != trace[n].key {
      LastUseBefore(trace[..n], key, t);
    }
  }

  lemma {:induction false} KeysCount(entries: seq<Entry>)
    requires forall i, j :: 0 <= i < j < |entries| ==> KeyOf(entries[i]) != KeyOf(entries[j])
    ensures |Keys(entries)| == |entries|
  {
    if entries != [] {
      var n := |entries| - 1;
      KeysCount(entries[..n]);
      assert entries == entries[..n] + [entries[n]];
      assert Keys(entries) == Keys(entries[..n]) + {KeyOf(entries[n])};
    }
  }

  lemma SubsetSize(a: set<Key>, b: set<Key>)
    requires a <= b
    ensures |a| <= |b| && (|a| == |b| ==> a == b)
  {
    assert b == a + (b - a);
  }

  /** The entry that LRU evicts is the least recently used of them all. */
  lemma OldestIsLeast(trace: seq<Use>, entries: seq<Entry>)
    requires Increasing(trace) && Records(trace, entries) && entries != []
    ensures forall i :: 0 <= i < |entries| && i != Oldest(entries) ==>
              LastUse(trace, KeyOf(entries[Oldest(entries)])) < LastUse(trace, KeyOf(entries[i]))
  {
    var k := Oldest(entries);
    forall i | 0 <= i < |entries| && i != k
      ensures LastUse(trace, KeyOf(entries[k])) < LastUse(trace, KeyOf(entries[i])) {
      LastUseDistinct(trace, KeyOf(entries[k]), KeyOf(entries[i]));
    }
  }

  lemma EvictedKeys(entries: seq<Entry>, k: nat)
    requires k < |entries| && forall i, j :: 0 <= i < j < |entries| ==> KeyOf(entries[i]) != KeyOf(entries[j])
    ensures Keys(Without(entries, k)) == Keys(entries) - {KeyOf(entries[k])}
    ensures forall x :: 0 <= x < |entries| - 1 ==> Without(entries, k)[x] == entries[if x < k then x else x + 1]
  {
    var rest := Without(entries, k);
    assert forall x :: 0 <= x < |rest| ==> rest[x] == entries[if x < k then x else x + 1];
    forall x | 0 <= x < |entries| && x != k ensures entries[x] in rest {
      assert rest[if x < k then x else x - 1] == entries[x];
    }
    forall key ensures key in Keys(rest) <==> key in Keys(entries) && key != KeyOf(entries[k]) {
      if key in Keys(entries) && key != KeyOf(entries[k]) {
        var x :| 0 <= x < |entries| && KeyOf(entries[x]) == key;
        assert entries[x] in rest;
      }
    }
  }

  /** The oldest entry's key may go: the others were used after it. */
  lemma DropLeast(trace: seq<Use>, keys: set<Key>, key: Key)
    requires MostRecent(trace, keys) && key in keys && key in Referenced(trace)
    requires forall a :: a in keys && a != key ==> a in Referenced(trace) && LastUse(trace, key) < LastUse(trace, a)
    ensures MostRecent(trace, keys - {key})
  {
    hide LastUse, Referenced;
    forall a, b | a in keys - {key} && b in Referenced(trace) - (keys - {key})
      ensures LastUse(trace, b) < LastUse(trace, a) {
      assert b == key || b in Referenced(trace) - keys;
    }
  }

  lemma DropRecord(trace: seq<Use>, entries: seq<Entry>, k: nat)
    requires Records(trace, entries) && k < |entries|
    ensures Records(trace, Without(entries, k))
  {
    hide LastUse, Referenced;
    var rest := Without(entries, k);
    assert forall x :: 0 <= x < |rest| ==> rest[x] == entries[if x < k then x else x + 1];
  }

  /** Every key of the buffer but the oldest entry's was used after that one. */
  lemma OthersLater(trace: seq<Use>, entries: seq<Entry>, a: Key)
    requires Increasing(trace) && Records(trace, entries) && entries != []
    requires a in Keys(entries) && a != KeyOf(entries[Oldest(entries)])
    ensures KeyOf(entries[Oldest(entries)]) in Referenced(trace) && a in Referenced(trace)
    ensures LastUse(trace, KeyOf(entries[Oldest(entries)])) < LastUse(trace, a)
  {
    hide LastUse, Referenced;
    var x :| 0 <= x < |entries| && KeyOf(entries[x]) == a;
    OldestIsLeast(trace, entries);
  }

  /** Evicting the oldest leaves a most recent set of one key less. */
  lemma EvictKeeps(trace: seq<Use>, entries: seq<Entry>)
    requires Increasing(trace) && Records(trace, entries) && MostRecent(trace, Keys(entries)) && entries != []
    ensures Records(trace, Without(entries, Oldest(entries)))
    ensures MostRecent(trace, Keys(Without(entries, Oldest(entries))))
    ensures Keys(Without(entries, Oldest(entries))) <= Keys(entries)
  {
    var k := Oldest(entries);
    DropRecord(trace, entries, k);
    EvictKeys(trace, entries, k);
  }

  lemma EvictKeys(trace: seq<Use>, entries: seq<Entry>, k: nat)
    requires Increasing(trace) && Records(trace, entries) && MostRecent(trace, Keys(entries)) && entries != []
    requires k == Oldest(entries)
    ensures MostRecent(trace, Keys(Without(entries, k))) && Keys(Without(entries, k)) <= Keys(entries)
  {
    EvictedKeys(entries, k);
    hide LastUse, Referenced, Records, MostRecent;
    assert entries[k] in entries;
    assert KeyOf(entries[k]) in Keys(entries);
    hide Keys;
    forall a | a in Keys(entries) && a != KeyOf(entries[k])
      ensures KeyOf(entries[k]) in Referenced(trace) && a in Referenced(trace)
      ensures LastUse(trace, KeyOf(entries[k])) < LastUse(trace, a) {
      OthersLater(trace, entries, a);
    }
    DropLeast(trace, Keys(entries), KeyOf(entries[k]));
  }

  /** A key used before keeps its last use when another one is used. */
  lemma UsedBefore(trace: seq<Use>, key: Key)
    requires trace != [] && Increasing(trace) && key in Referenced(trace[..|trace| - 1])
    ensures key in Referenced(trace)
    ensures key != trace[|trace| - 1].key ==>
              LastUse(trace, key) == LastUse(trace[..|trace| - 1], key) < trace[|trace| - 1].time
  {
    var n := |trace| - 1;
    UseStep(trace, key);
    LastUseBefore(trace[..n], key, trace[n].time);
  }

  /** With the key just used, a most recent set is one still. */
  lemma UseKeeps(trace: seq<Use>, keys: set<Key>)
    requires trace != [] && Increasing(trace) && MostRecent(trace[..|trace| - 1], keys)
    ensures MostRecent(trace, keys + {trace[|trace| - 1].key})
  {
    hide LastUse, Referenced;
    var n := |trace| - 1;
    var u := trace[n].key;
    UseStep(trace, u);
    forall a | a in keys ensures a in Referenced(trace) {
      UsedBefore(trace, a);
    }
    forall a, b | a in keys + {u} && b in Referenced(trace) - (keys + {u})
      ensures LastUse(trace, b) < LastUse(trace, a) {
      UseStep(trace, b);
      UsedBefore(trace, b);
      if a != u {
        UsedBefore(trace, a);
      }
    }
  }

  /** Adding the key just used keeps the set most recent. */
  lemma AddKeeps(trace: seq<Use>, entries: seq<Entry>, e: Entry)
    requires trace != [] && Increasing(trace)
    requires Records(trace[..|trace| - 1], entries) && MostRecent(trace[..|trace| - 1], Keys(entries))
    requires var n := |trace| - 1; KeyOf(e) == trace[n].key && e.lastUsed == trace[n].time && KeyOf(e) !in Keys(entries)
    ensures Records(trace, entries + [e]) && MostRecent(trace, Keys(entries + [e]))
  {
    hide LastUse, Referenced, MostRecent;
    assert forall i :: 0 <= i < |entries| ==> entries[i] in entries && KeyOf(entries[i]) in Keys(entries);
    forall i | 0 <= i < |entries|
      ensures KeyOf(entries[i]) in Referenced(trace) && entries[i].lastUsed == LastUse(trace, KeyOf(entries[i])) {
      UsedBefore(trace, KeyOf(entries[i]));
    }
    UseStep(trace, KeyOf(e));
    UseKeeps(trace, Keys(entries));
    assert Keys(entries + [e]) == Keys(entries) + {KeyOf(e)};
  }

  /** A refreshed entry keeps its key. */
  lemma TouchKeys(entries: seq<Entry>, i: nat, t: int)
    requires i < |entries|
    ensures var next := entries[i := entries[i].(lastUsed := t)];
            Keys(next) == Keys(entries) && KeyOf(entries[i]) in Keys(entries)
            && forall x :: 0 <= x < |entries| ==> KeyOf(next[x]) == KeyOf(entries[x])
  {
    var next := entries[i := entries[i].(lastUsed := t)];
    assert forall x :: 0 <= x < |next| ==> next[x] in next && entries[x] in entries;
    assert forall x :: 0 <= x < |next| ==> KeyOf(next[x]) == KeyOf(entries[x]);
  }

  /** A hit refreshes one entry's last use. */
  lemma TouchKeeps(trace: seq<Use>, entries: seq<Entry>, i: nat)
    requires trace != [] && Increasing(trace) && i < |entries|
    requires Records(trace[..|trace| - 1], entries) && MostRecent(trace[..|trace| - 1], Keys(entries))
    requires KeyOf(entries[i]) == trace[|trace| - 1].key
    ensures var next := entries[i := entries[i].(lastUsed := trace[|trace| - 1].time)];
            Records(trace, next) && MostRecent(trace, Keys(next)) && Keys(next) == Keys(entries)
  {
    hide LastUse, Referenced, MostRecent, Keys;
    var n := |trace| - 1;
    var next := entries[i := entries[i].(lastUsed := trace[n].time)];
    TouchKeys(entries, i, trace[n].time);
    forall x | 0 <= x < |next|
      ensures KeyOf(next[x]) in Referenced(trace) && next[x].lastUsed == LastUse(trace, KeyOf(next[x])) {
      UsedBefore(trace, KeyOf(entries[x]));
      UseStep(trace, trace[n].key);
    }
    UseKeeps(trace, Keys(entries));
    assert Keys(entries) + {trace[n].key} == Keys(entries);
  }

  /** An LRU buffer of capacity C holds, after any trace, exactly the
      min(C, distinct) most recently referenced keys, once each. */
  lemma {:induction false} LruHoldsMostRecent(capacity: nat, trace: seq<Use>)
    requires capacity > 0 && Increasing(trace)
    ensures var entries := Contents(capacity, LRU, trace);
            && Records(trace, entries) && MostRecent(trace, Keys(entries))
            && |entries| == |Keys(entries)| == Min(capacity, |Referenced(trace)|)
  {
    if trace != [] {
      var n := |trace| - 1;
      var u, past := trace[n], trace[..n];
      LruHoldsMostRecent(capacity, past);
      var entries := Contents(capacity, LRU, past);
      var i := Lookup(entries, u.key);
      UseStep(trace, u.key);
      if i < |entries| {
        TouchKeeps(trace, entries, i);
        assert Referenced(trace) == Referenced(past);
      } else {
        MissKeeps(capacity, trace, entries);
      }
      KeysCount(Contents(capacity, LRU, trace));
    }
  }

  lemma PastTrace(trace: seq<Use>, entries: seq<Entry>)
    requires trace != [] && Increasing(trace) && Records(trace[..|trace| - 1], entries)
    ensures Increasing(trace[..|trace| - 1]) && Keys(entries) <= Referenced(trace[..|trace| - 1])
  {
  }

  lemma NotHeld(entries: seq<Entry>, key: Key)
    ensures Lookup(entries, key) == |entries| <==> key !in Keys(entries)
  {
    if Lookup(entries, key) < |entries| {
      assert entries[Lookup(entries, key)] in entries;
    }
  }

  lemma MissKeeps(capacity: nat, trace: seq<Use>, entries: seq<Entry>)
    requires capacity > 0 && trace != [] && Increasing(trace)
    requires var past, u := trace[..|trace| - 1], trace[|trace| - 1];
      && Records(past, entries) && MostRecent(past, Keys(entries)) && Lookup(entries, u.key) == |entries|
      && |entries| == |Keys(entries)| == Min(capacity, |Referenced(past)|)
    ensures var u := trace[|trace| - 1];
            var next := Insert(entries, capacity, LRU, Entry(u.key.page, u.frame, u.time, u.key.pid));
            Records(trace, next) && MostRecent(trace, Keys(next)) && |next| == Min(capacity, |Referenced(trace)|)
  {
    hide Records, MostRecent, Referenced, Keys, Increasing, LastUse;
    var past, u := trace[..|trace| - 1], trace[|trace| - 1];
    var e := Entry(u.key.page, u.frame, u.time, u.key.pid);
    UseStep(trace, u.key);
    PastTrace(trace, entries);
    SubsetSize(Keys(entries), Referenced(past));
    SubsetSize(Referenced(past), Referenced(trace));
    NotHeld(entries, u.key);
    if |entries| < capacity {
      AddKeeps(trace, entries, e);
    } else {
      EvictKeeps(past, entries);
      AddKeeps(trace, Without(entries, Oldest(entries)), e);
    }
  }

  /** Stack inclusion: a larger LRU buffer holds what a smaller one holds. */
  lemma LruInclusion(small: nat, large: nat, trace: seq<Use>)
    requires 0 < small <= large && Increasing(trace)
    ensures Keys(Contents(small, LRU, trace)) <= Keys(Contents(large, LRU, trace))
  {
    LruHoldsMostRecent(small, trace);
    LruHoldsMostRecent(large, trace);
    var a, b := Keys(Contents(small, LRU, trace)), Keys(Contents(large, LRU, trace));
    forall k | k in a ensures k in b {
      if k !in b {
        SubsetSize(b, Referenced(trace));
        SubsetSize(b, a - {k});
      }
    }
  }

  // ---- FIFO holds the keys missed last

  /** The last n of a sequence, or all of it. */
  function LastOf(s: seq<Key>, n: nat): seq<Key> { if |s| <= n then s else s[|s| - n..] }

  /** The keys that a queue of that capacity misses, in order: those that are not
      among the last that it missed before. */
  function Misses(capacity: nat, trace: seq<Use>): seq<Key> {
    if trace == [] then []
    else
      var n := |trace| - 1;
      var past := Misses(capacity, trace[..n]);
      if trace[n].key in LastOf(past, capacity) then past else past + [trace[n].key]
  }

  /** The keys of the entries, in order. */
  function KeysInOrder(entries: seq<Entry>): (r: seq<Key>)
    ensures |r| == |entries|
  {
    seq(|entries|, i requires 0 <= i < |entries| => KeyOf(entries[i]))
  }

  /** One insertion into a FIFO buffer: the oldest entry of a full one goes. */
  lemma FifoInsert(entries: seq<Entry>, capacity: nat, e: Entry)
    requires capacity > 0
    ensures Insert(entries, capacity, FIFO, e) == (if |entries| < capacity then entries else entries[1..]) + [e]
  {
  }

  /** A miss adds its key to the last missed ones. */
  lemma FifoMiss(entries: seq<Entry>, capacity: nat, e: Entry, misses: seq<Key>)
    requires capacity > 0 && KeysInOrder(entries) == LastOf(misses, capacity)
    ensures KeysInOrder(Insert(entries, capacity, FIFO, e)) == LastOf(misses + [KeyOf(e)], capacity)
  {
    FifoInsert(entries, capacity, e);
    var next := Insert(entries, capacity, FIFO, e);
    hide Insert;
    var now := LastOf(misses + [KeyOf(e)], capacity);
    assert |next| == |now|;
    forall i | 0 <= i < |next| ensures KeyOf(next[i]) == now[i] {
      if i + 1 < |next| {
        var was := if |entries| < capacity then i else i + 1;
        assert KeysInOrder(entries)[was] == KeyOf(next[i]);
      }
    }
  }

  lemma InOrder(entries: seq<Entry>, key: Key)
    ensures key in KeysInOrder(entries) <==> Lookup(entries, key) < |entries|
  {
    var i := Lookup(entries, key);
    assert i < |entries| ==> KeysInOrder(entries)[i] == key;
  }

  /** A FIFO buffer of capacity C holds, after any trace and in the order of their
      insertion, exactly the keys of its last min(C, misses) misses. */
  lemma {:induction false} FifoHoldsLastMisses(capacity: nat, trace: seq<Use>)
    requires capacity > 0
    ensures KeysInOrder(Contents(capacity, FIFO, trace)) == LastOf(Misses(capacity, trace), capacity)
  {
    if trace != [] {
      var n := |trace| - 1;
      var u, past := trace[n], trace[..n];
      FifoHoldsLastMisses(capacity, past);
      var entries := Contents(capacity, FIFO, past);
      InOrder(entries, u.key);
      hide Insert, KeysInOrder, LastOf;
      FifoMiss(entries, capacity, Entry(u.key.page, u.frame, u.time, u.key.pid), Misses(capacity, past));
    }
  }

  // ---- The buffer itself

  class Buffer {
    var entries: seq<Entry>
    var now: int
    const capacity: nat
    const alg: Algorithm

    /** InitTLB and ClearTLB. */
    constructor (capacity: nat, alg: Algorithm)
      ensures entries == [] && this.capacity == capacity && this.alg == alg
    {
      entries := [];
      now := 0;
      this.capacity := capacity;
      this.alg := alg;
    }

    /** time.Now: a clock that never shows the same time twice. */
    method Tick() returns (t: int)
      modifies this`now
      ensures t == now > old(now)
    {
      now := now + 1;
      t := now;
    }

    method FindFrame(page: seq<int>, pid: nat) returns (r: Option<int>)
      modifies this
      ensures var i := Lookup(old(entries), Key(pid, page));
              if i == |old(entries)| then r == None && entries == old(entries) && now == old(now)
              else r == Some(old(entries)[i].frame) && (if alg == LRU then now > old(now) else now == old(now))
                   && entries == if alg == LRU then old(entries)[i := old(entries)[i].(lastUsed := now)]
                     else old(entries)
    {
      var i := 0;
      while i < |entries|
        invariant i <= |entries| && entries == old(entries) && now == old(now)
        invariant forall k :: 0 <= k < i ==> KeyOf(entries[k]) != Key(pid, page)
      {
        if entries[i].page == page && entries[i].pid == pid {
          if alg == LRU {
            var t := Tick();
            entries := entries[i := entries[i].(lastUsed := t)];
          }
          return Some(entries[i].frame);
        }
        i := i + 1;
      }
      return None;
    }

    method AddEntry(page: seq<int>, frame: int, pid: nat)
      modifies this
      ensures if capacity == 0 then now == old(now) else now > old(now)
      ensures entries == Insert(old(entries), capacity, alg, Entry(page, frame, now, pid))
      ensures Added(old(entries), entries, capacity, alg, Entry(page, frame, now, pid))
    {
      hide Added;
      ghost var was := entries;
      if capacity == 0 {
        InsertAdds(was, capacity, alg, Entry(page, frame, now, pid));
        return;
      }
      if |entries| >= capacity {
        var victim := 0;
        if alg == LRU {
          victim := FindOldest();
        }
        entries := entries[..victim] + entries[victim + 1..];
      }
      var t := Tick();
      entries := entries + [Entry(page, frame, t, pid)];
      InsertAdds(was, capacity, alg, Entry(page, frame, t, pid));
    }

    /** The scan of AddEntryTLB for the entry used longest ago. */
    method FindOldest() returns (victim: nat)
      requires entries != []
      ensures victim == Oldest(entries)
    {
      victim := 0;
      var oldest := entries[0].lastUsed;
      for i := 0 to |entries|
        invariant victim < |entries| && oldest == entries[victim].lastUsed
        invariant forall k :: 0 <= k < i ==> oldest <= entries[k].lastUsed
        invariant forall k :: 0 <= k < victim ==> oldest < entries[k].lastUsed
        invariant victim <= i
      {
        if entries[i].lastUsed < oldest {
          oldest := entries[i].lastUsed;
          victim := i;
        }
      }
    }
  }
}
