/** The cache entries and the two replacement policies, CLOCK and CLOCK-M: which
    entry goes, and what the sweep of the hand leaves behind. */
module Clock {
  import opened Addressing

  /** One cache entry; pid -1 marks an empty one. C is how the content is held. */
  datatype Entry<C> = Entry(page: seq<int>, content: C, use: bool, modified: bool, position: bool, pid: int)

  predicate OneHand<C>(entries: seq<Entry<C>>) {
    forall i, j :: 0 <= i < j < |entries| ==> !(entries[i].position && entries[j].position)
  }

  /** Where a sweep starts: at the hand, or at 0 when no entry carries it. */
  function Hand<C>(entries: seq<Entry<C>>): (h: nat)
    requires entries != []
    ensures h < |entries|
    ensures entries[h].position || (h == 0 && forall i :: 0 <= i < |entries| ==> !entries[i].position)
    ensures forall i :: 0 <= i < h ==> !entries[i].position
  {
    FirstHand(entries, 0)
  }

  function FirstHand<C>(entries: seq<Entry<C>>, from: nat): (h: nat)
    requires from <= |entries| && entries != [] && forall i :: 0 <= i < from ==> !entries[i].position
    ensures h < |entries|
    ensures entries[h].position || (h == 0 && forall i :: 0 <= i < |entries| ==> !entries[i].position)
    ensures forall i :: 0 <= i < h ==> !entries[i].position
    decreases |entries| - from
  {
    if from == |entries| then 0
    else if entries[from].position then from
    else FirstHand(entries, from + 1)
  }

  /** The place k steps after h around n entries. */
  function Around(h: nat, k: nat, n: nat): (p: nat)
    requires h < n && k <= n
    ensures p < n
  {
    if h + k < n then h + k else h + k - n
  }

  /** How many steps after h place p comes. */
  function Steps(h: nat, p: nat, n: nat): (k: nat)
    requires h < n && p < n
    ensures k < n && Around(h, k, n) == p
  {
    if h <= p then p - h else p + n - h
  }

  /** The hand's way round: one step on, in Go's arithmetic. */
  lemma StepOn(h: nat, k: nat, n: nat)
    requires h < n && k < n
    ensures (Around(h, k, n) + 1) % n == Around(h, k + 1, n)
  {
    var p := Around(h, k, n);
    if p + 1 == n {
      assert (p + 1) % n == 0;
    } else {
      DivisionUnique(0, p + 1, (p + 1) / n, (p + 1) % n, n);
    }
  }

  // ---- Ranks

  /** CLOCK-M's order of preference: unused before used, then clean before modified. */
  function Rank<C>(e: Entry<C>): nat {
    (if e.use then 2 else 0) + if e.modified then 1 else 0
  }

  /** CLOCK's preference: empty or unused. */
  predicate Free<C>(e: Entry<C>) { e.pid == -1 || !e.use }

  /** CLOCK's victim: the first empty or unused entry from the hand, or the
      hand's own entry when there is none. */
  ghost predicate ClockVictim<C>(entries: seq<Entry<C>>, victim: nat) {
    && victim < |entries|
    && var n, h := |entries|, Hand(entries);
    if exists i :: 0 <= i < n && Free(entries[i])
    then Free(entries[victim]) && forall j :: 0 <= j < Steps(h, victim, n) ==> !Free(entries[Around(h, j, n)])
    else victim == h
  }

  /** CLOCK-M's victim: the first entry from the hand of the least rank. */
  ghost predicate ClockMVictim<C>(entries: seq<Entry<C>>, victim: nat) {
    && victim < |entries|
    && var n, h := |entries|, Hand(entries);
    && (forall i :: 0 <= i < n ==> Rank(entries[victim]) <= Rank(entries[i]))
    && (forall j :: 0 <= j < Steps(h, victim, n) ==> Rank(entries[victim]) < Rank(entries[Around(h, j, n)]))
  }

  // ---- What a sweep leaves

  /** The entries after the hand moved from h to p, clearing the use bits of the
      first `limit` places on its way round. */
  function Swept<C>(entries: seq<Entry<C>>, h: nat, limit: nat, p: nat): (r: seq<Entry<C>>)
    requires h < |entries|
    ensures |r| == |entries|
  {
    seq(|entries|, i requires 0 <= i < |entries| =>
      entries[i].(use := entries[i].use && Steps(h, i, |entries|) >= limit, position := i == p))
  }

  function WithHand<C>(entries: seq<Entry<C>>, p: nat): seq<Entry<C>>
    requires p < |entries|
  {
    entries[p := entries[p].(position := true)]
  }

  /** The hand stands at p, having cleared `limit` places from h. */
  ghost predicate SweptTo<C>(was: seq<Entry<C>>, now: seq<Entry<C>>, h: nat, limit: nat, p: nat) {
    h < |was| == |now| && p < |now| && WithHand(now, p) == Swept(was, h, limit, p)
  }

  /** A new entry takes place v and the hand moves on to the next one. */
  function Placed<C>(entries: seq<Entry<C>>, v: nat, e: Entry<C>): seq<Entry<C>>
    requires v < |entries|
  {
    WithHand(entries[v := e.(position := false)], Around(v, 1, |entries|))
  }

  function ClockLimit<C>(entries: seq<Entry<C>>, v: nat): nat
    requires v < |entries|
  {
    if Free(entries[v]) then Steps(Hand(entries), v, |entries|) else |entries|
  }

  function ClockMLimit<C>(entries: seq<Entry<C>>, v: nat): nat
    requires v < |entries|
  {
    if Rank(entries[v]) == 0 then 0
    else if Rank(entries[v]) == 1 then Steps(Hand(entries), v, |entries|)
    else |entries|
  }

  /** Before the first step: with at most one hand, the hand stands at h. */
  lemma SweepStart<C>(entries: seq<Entry<C>>)
    requires entries != [] && OneHand(entries)
    ensures SweptTo(entries, entries, Hand(entries), 0, Hand(entries))
  {
    var h := Hand(entries);
    forall i | 0 <= i < |entries| ensures WithHand(entries, h)[i] == Swept(entries, h, 0, h)[i] {
      assert OneHand(entries) && (entries[h].position || !entries[i].position);
    }
  }

  /** One step of the hand, clearing the use bit it leaves behind or not. */
  lemma SweepStep<C>(was: seq<Entry<C>>, now: seq<Entry<C>>, h: nat, limit: nat, k: nat, clear: bool)
    requires h < |was| && k < |was| && SweptTo(was, now, h, limit, Around(h, k, |was|))
    requires clear ==> limit == k || limit == |was|
    ensures var p := Around(h, k, |was|);
            var left := now[p := now[p].(position := false, use := now[p].use && !clear)];
            var next := if clear && limit == k then k + 1 else limit;
            SweptTo(was, WithHand(left, Around(h, k + 1, |was|)), h, next, Around(h, k + 1, |was|))
  {
    var n := |was|;
    var p, q := Around(h, k, n), Around(h, k + 1, n);
    var left := now[p := now[p].(position := false, use := now[p].use && !clear)];
    var after := WithHand(left, q);
    var target := Swept(was, h, if clear && limit == k then k + 1 else limit, q);
    assert Steps(h, p, n) == k;
    forall i | 0 <= i < n ensures WithHand(after, q)[i] == target[i] {
      assert WithHand(now, p)[i] == Swept(was, h, limit, p)[i];
    }
  }

  /** The swept entry under the hand, and those it has not reached. */
  lemma SweptEntry<C>(was: seq<Entry<C>>, now: seq<Entry<C>>, h: nat, limit: nat, p: nat)
    requires SweptTo(was, now, h, limit, p)
    ensures now[p] == was[p].(use := was[p].use && Steps(h, p, |was|) >= limit, position := now[p].position)
  {
    assert WithHand(now, p)[p] == Swept(was, h, limit, p)[p];
  }

  /** Placing a new entry where the hand stands gives the same as placing it in
      the swept entries. */
  lemma PlacedSwept<C>(was: seq<Entry<C>>, now: seq<Entry<C>>, h: nat, limit: nat, v: nat, e: Entry<C>)
    requires SweptTo(was, now, h, limit, v)
    ensures Placed(now, v, e) == Placed(Swept(was, h, limit, v), v, e)
  {
    assert now[v := e.(position := false)] == WithHand(now, v)[v := e.(position := false)];
  }

  /** After an insertion exactly one entry carries the hand: the one after the new. */
  lemma PlacedHand<C>(was: seq<Entry<C>>, h: nat, limit: nat, v: nat, e: Entry<C>)
    requires h < |was| && v < |was|
    ensures var r := Placed(Swept(was, h, limit, v), v, e);
            |r| == |was|
            && (forall i :: 0 <= i < |r| ==> (r[i].position <==> i == Around(v, 1, |was|)))
            && r[v] == e.(position := |was| == 1)
            && (forall i :: 0 <= i < |r| && i != v ==>
                  r[i] == was[i].(use := r[i].use, position := r[i].position) && (r[i].use ==> was[i].use))
  {
  }

  /** CLOCK, in the entries' own terms: the hand passes the entries that are in use,
      clearing their bits, and takes the first that is empty or not in use; when all
      are in use it clears them all and takes the one it started from. */
  lemma ClockTakes<C>(was: seq<Entry<C>>, v: nat, e: Entry<C>)
    requires was != [] && ClockVictim(was, v)
    ensures var n, h := |was|, Hand(was);
            var r := Placed(Swept(was, h, ClockLimit(was, v), v), v, e);
            if forall i :: 0 <= i < n ==> was[i].pid != -1 && was[i].use then
              v == h && forall i :: 0 <= i < n && i != v ==> !r[i].use
            else
              && (was[v].pid == -1 || !was[v].use)
              && (forall i :: 0 <= i < n && Steps(h, i, n) < Steps(h, v, n) ==>
                    was[i].pid != -1 && was[i].use && !r[i].use)
              && (forall i :: 0 <= i < n && Steps(h, i, n) > Steps(h, v, n) ==> r[i].use == was[i].use)
  {
    hide Hand, Steps, Around;
    var n, h := |was|, Hand(was);
    StepsApart(h, v, n);
    forall i | 0 <= i < n && Steps(h, i, n) < Steps(h, v, n) ensures Free(was[v]) ==> !Free(was[i]) {
      assert Around(h, Steps(h, i, n), n) == i;
    }
  }

  /** CLOCK-M likewise: an entry with neither bit, or else one that is modified only,
      or else the same again with all use bits cleared; always the first that the hand
      meets. Passing in search of a modified one clears the use bits. */
  lemma ClockMTakes<C>(was: seq<Entry<C>>, v: nat, e: Entry<C>)
    requires was != [] && ClockMVictim(was, v)
    ensures var n, h := |was|, Hand(was);
            var r := Placed(Swept(was, h, ClockMLimit(was, v), v), v, e);
            && (was[v].use ==> forall i :: 0 <= i < n ==> was[i].use && (i != v ==> !r[i].use))
            && (was[v].modified ==> forall i :: 0 <= i < n && was[i].use == was[v].use ==> was[i].modified)
            && (!was[v].use && !was[v].modified ==> forall i :: 0 <= i < n && i != v ==> r[i].use == was[i].use)
            && (!was[v].use && was[v].modified ==> forall i :: 0 <= i < n && i != v ==>
                  r[i].use == (was[i].use && Steps(h, i, n) > Steps(h, v, n)))
            && forall i :: 0 <= i < n && Steps(h, i, n) < Steps(h, v, n) ==>
                 was[i].use != was[v].use || was[i].modified != was[v].modified
  {
    hide Hand, Steps, Around;
    var n, h := |was|, Hand(was);
    StepsApart(h, v, n);
    assert Rank(was[v]) == (if was[v].use then 2 else 0) + (if was[v].modified then 1 else 0);
    forall i | 0 <= i < n && Steps(h, i, n) < Steps(h, v, n) ensures Rank(was[v]) < Rank(was[i]) {
      assert Around(h, Steps(h, i, n), n) == i;
    }
  }

  lemma StepsApart(h: nat, v: nat, n: nat)
    requires h < n && v < n
    ensures forall i: nat :: i < n && i != v ==> Steps(h, i, n) != Steps(h, v, n)
    ensures forall i: nat :: i < n ==> Steps(h, i, n) < n
  {
  }
}
