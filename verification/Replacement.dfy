/** cpu/memory/cache.go: how an insertion finds its victim and takes its place. */
module Replacement {
  import opened Wrappers
  import opened Pages
  import opened Memory
  import opened Storage
  import opened Clock
  import opened CpuState

  /** The scan for the hand. */
  method FindHand(c: Cpu) returns (position: nat)
    requires c.entries != []
    ensures position == Hand(c.entries)
  {
    position := 0;
    for i := 0 to |c.entries|
      invariant position == 0 && forall k :: 0 <= k < i ==> !c.entries[k].position
    {
      if c.entries[i].position {
        return i;
      }
    }
  }

  /** Takes the hand off an entry and puts it on the next one. */
  method MoveHand(c: Cpu, position: nat, clear: bool, ghost h: nat, ghost k: nat) returns (next: nat)
    requires h < |c.entries| && k < |c.entries| && position == Around(h, k, |c.entries|)
    modifies c`entries
    ensures |c.entries| == |old(c.entries)| && next == Around(h, k + 1, |c.entries|)
    ensures var e := old(c.entries)[position];
            c.entries == WithHand(old(c.entries)[position := e.(position := false, use := e.use && !clear)], next)
  {
    c.entries := c.entries[position := c.entries[position].(position := false)];
    if clear {
      c.entries := c.entries[position := c.entries[position].(use := false)];
    }
    StepOn(h, k, |c.entries|);
    next := (position + 1) % |c.entries|;
    c.entries := c.entries[next := c.entries[next].(position := true)];
  }

  /** The loop of AddEntryCacheClock up to the entry it takes: it clears use bits
      until an empty or unused entry comes under the hand. The use bits run out,
      so it ends. */
  method ClockSweep(c: Cpu) returns (v: nat)
    requires c.entries != [] && OneHand(c.entries)
    modifies c`entries
    ensures ClockVictim(old(c.entries), v)
    ensures SweptTo(old(c.entries), c.entries, Hand(old(c.entries)), ClockLimit(old(c.entries), v), v)
  {
    ghost var was, n := c.entries, |c.entries|;
    ghost var h, k: nat := Hand(was), 0;
    v := FindHand(c);
    SweepStart(was);
    while true
      invariant k <= n == |c.entries| && v == Around(h, k, n)
      invariant SweptTo(was, c.entries, h, k, v)
      invariant forall j :: 0 <= j < k ==> !Free(was[Around(h, j, n)])
      decreases n - k
    {
      SweptEntry(was, c.entries, h, k, v);
      if c.entries[v].pid == -1 || !c.entries[v].use {
        ClockFound(was, h, k);
        return;
      }
      SweepStep(was, c.entries, h, k, k, true);
      v := MoveHand(c, v, true, h, k);
      k := k + 1;
    }
  }

  lemma ClockFound<C>(was: seq<Entry<C>>, h: nat, k: nat)
    requires was != [] && h == Hand(was) && k <= |was|
    requires forall j :: 0 <= j < k ==> !Free(was[Around(h, j, |was|)])
    requires k < |was| ==> Free(was[Around(h, k, |was|)])
    ensures ClockVictim(was, Around(h, k, |was|)) && ClockLimit(was, Around(h, k, |was|)) == k
  {
    var n := |was|;
    if k == n {
      forall i | 0 <= i < n ensures !Free(was[i]) {
        assert was[Around(h, Steps(h, i, n), n)] == was[i];
      }
    } else {
      assert Steps(h, Around(h, k, n), n) == k;
    }
  }

  /** One turn of CLOCK-M's first search: unused and unmodified. */
  method PassClean(c: Cpu, position: nat, ghost was: seq<CacheEntry>, ghost limit: nat) returns (v: nat, found: bool)
    requires SweptTo(was, c.entries, position, limit, position)
    modifies c`entries
    ensures SweptTo(was, c.entries, position, limit, v)
    ensures forall j :: 0 <= j < (if found then Steps(position, v, |was|) else |was|) ==>
              !Clean(was, position, limit, Around(position, j, |was|))
    ensures if found then Clean(was, position, limit, v) else v == position
  {
    v := position;
    ghost var n := |was|;
    for k := 0 to |c.entries|
      invariant |c.entries| == n && v == Around(position, k, n) && SweptTo(was, c.entries, position, limit, v)
      invariant forall j :: 0 <= j < k ==> !Clean(was, position, limit, Around(position, j, n))
    {
      SweptEntry(was, c.entries, position, limit, v);
      if !c.entries[v].modified && !c.entries[v].use {
        return v, true;
      }
      SweepStep(was, c.entries, position, limit, k, false);
      v := MoveHand(c, v, false, position, k);
    }
    return v, false;
  }

  /** Unmodified and, after a sweep of `limit` places, unused. */
  predicate Clean<C>(was: seq<Entry<C>>, h: nat, limit: nat, p: nat)
    requires h < |was| && p < |was|
  {
    !was[p].modified && (!was[p].use || Steps(h, p, |was|) < limit)
  }

  /** One turn of CLOCK-M's second search, clearing use bits: unused and modified. */
  method PassDirty(c: Cpu, position: nat, ghost was: seq<CacheEntry>, ghost limit: nat) returns (v: nat, found: bool)
    requires SweptTo(was, c.entries, position, limit, position) && (limit == 0 || limit == |was|)
    modifies c`entries
    ensures v < |was|
    ensures var k := if found then Steps(position, v, |was|) else |was|;
            && SweptTo(was, c.entries, position, if limit == 0 then k else limit, v)
            && (forall j :: 0 <= j < k ==> !Dirty(was, limit, Around(position, j, |was|)))
    ensures if found then Dirty(was, limit, v) else v == position
  {
    v := position;
    ghost var n := |was|;
    for k := 0 to |c.entries|
      invariant |c.entries| == n && v == Around(position, k, n)
      invariant SweptTo(was, c.entries, position, if limit == 0 then k else limit, v)
      invariant forall j :: 0 <= j < k ==> !Dirty(was, limit, Around(position, j, n))
    {
      SweptEntry(was, c.entries, position, if limit == 0 then k else limit, v);
      if c.entries[v].modified && !c.entries[v].use {
        return v, true;
      }
      SweepStep(was, c.entries, position, if limit == 0 then k else limit, k, true);
      v := MoveHand(c, v, true, position, k);
    }
    return v, false;
  }

  /** Modified and unused, or modified when every use bit was cleared before. */
  predicate Dirty<C>(was: seq<Entry<C>>, limit: nat, p: nat)
    requires p < |was|
  {
    was[p].modified && (!was[p].use || limit == |was|)
  }

  /** The three rounds of AddEntryCacheClockM up to the entry they take. The
      search never fails: the second round at the latest finds an entry. */
  method ClockMSweep(c: Cpu) returns (v: nat, found: bool)
    requires c.entries != [] && OneHand(c.entries)
    modifies c`entries
    ensures found && ClockMVictim(old(c.entries), v)
    ensures SweptTo(old(c.entries), c.entries, Hand(old(c.entries)), ClockMLimit(old(c.entries), v), v)
  {
    ghost var was, n := c.entries, |c.entries|;
    ghost var h := Hand(was);
    v := FindHand(c);
    found := false;
    SweepStart(was);
    for round := 0 to 3
      invariant !found && |c.entries| == n && v == h && round <= 1
      invariant SweptTo(was, c.entries, h, if round == 0 then 0 else n, h)
      invariant round == 1 ==> forall i :: 0 <= i < n ==> Rank(was[i]) >= 2
    {
      ghost var limit := if round == 0 then 0 else n;
      v, found := PassClean(c, v, was, limit);
      if found {
        CleanFound(was, h, limit, v);
        return;
      }
      v, found := PassDirty(c, v, was, limit);
      if found {
        DirtyFound(was, h, limit, v);
        return;
      }
      AllUsed(was, h, limit);
    }
  }

  lemma CleanFound<C>(was: seq<Entry<C>>, h: nat, limit: nat, v: nat)
    requires was != [] && h == Hand(was) && v < |was| && Clean(was, h, limit, v)
    requires limit == 0 || (limit == |was| && forall i :: 0 <= i < |was| ==> Rank(was[i]) >= 2)
    requires forall j :: 0 <= j < Steps(h, v, |was|) ==> !Clean(was, h, limit, Around(h, j, |was|))
    ensures ClockMVictim(was, v) && ClockMLimit(was, v) == limit
  {
  }

  lemma DirtyFound<C>(was: seq<Entry<C>>, h: nat, limit: nat, v: nat)
    requires was != [] && h == Hand(was) && v < |was| && Dirty(was, limit, v)
    requires limit == 0 || (limit == |was| && forall i :: 0 <= i < |was| ==> Rank(was[i]) >= 2)
    requires forall j :: 0 <= j < |was| ==> !Clean(was, h, limit, Around(h, j, |was|))
    requires forall j :: 0 <= j < Steps(h, v, |was|) ==> !Dirty(was, limit, Around(h, j, |was|))
    ensures ClockMVictim(was, v)
    ensures ClockMLimit(was, v) == if limit == 0 then Steps(h, v, |was|) else limit
  {
    forall i | 0 <= i < |was| ensures Rank(was[v]) <= Rank(was[i]) {
      assert !Clean(was, h, limit, Around(h, Steps(h, i, |was|), |was|));
      assert Around(h, Steps(h, i, |was|), |was|) == i;
    }
  }

  lemma AllUsed<C>(was: seq<Entry<C>>, h: nat, limit: nat)
    requires h < |was| && (limit == 0 || limit == |was|)
    requires forall j :: 0 <= j < |was| ==>
        !Clean(was, h, limit, Around(h, j, |was|)) && !Dirty(was, limit, Around(h, j, |was|))
    ensures limit == 0 && forall i :: 0 <= i < |was| ==> Rank(was[i]) >= 2
  {
    forall i | 0 <= i < |was| ensures limit == 0 && Rank(was[i]) >= 2 {
      assert !Clean(was, h, limit, Around(h, Steps(h, i, |was|), |was|));
      assert Around(h, Steps(h, i, |was|), |was|) == i;
    }
    assert was[h] == was[h];
  }
}
