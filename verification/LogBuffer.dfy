/** BufferedLoggerProvider's ring of recent entries, and the history query over it. */
module LogBuffer {
  import opened Optional

  datatype Entry = Entry(level: int, time: int, text: string)

  /** The last n elements of s, or all of them: LINQ's TakeLast. */
  function Last<T>(s: seq<T>, n: nat): (r: seq<T>)
    ensures |r| == if |s| <= n then |s| else n
    ensures r == s[|s| - |r|..]
  {
    if |s| <= n then s else s[|s| - n..]
  }

  lemma {:induction false} LastGrows<T>(s: seq<T>, x: T, n: nat)
    requires 1 <= n
    ensures Last(s + [x], n) == if |s| < n then s + [x] else Last(s, n)[1..] + [x]
  {
  }

  /** The count entries of a ring whose next slot to write is head. */
  ghost function Unrolled(slots: seq<Entry>, head: nat, count: nat): seq<Entry>
    requires head < |slots| && count <= |slots|
  {
    if count < |slots| then slots[..count] else slots[head..] + slots[..head]
  }

  lemma {:induction false} UnrolledLength(slots: seq<Entry>, head: nat, count: nat)
    requires head < |slots| && count <= |slots|
    ensures |Unrolled(slots, head, count)| == count
  {
  }

  lemma {:induction false} UnrolledStep(slots: seq<Entry>, head: nat, count: nat, entry: Entry)
    requires head < |slots| && count <= |slots| && (count < |slots| ==> head == count)
    ensures var next := if head + 1 == |slots| then 0 else head + 1;
      var more := if count < |slots| then count + 1 else count;
      Unrolled(slots[head := entry], next, more)
        == if count < |slots| then Unrolled(slots, head, count) + [entry] else Unrolled(slots, head, count)[1..] + [entry]
  {
  }

  lemma {:induction false} UnrolledAt(slots: seq<Entry>, head: nat, count: nat, i: nat)
    requires head < |slots| && i < count <= |slots|
    ensures var start := if count < |slots| then 0 else head;
      Unrolled(slots, head, count)[i] == slots[if start + i < |slots| then start + i else start + i - |slots|]
  {
  }

  /** Writing the next slot of a ring that holds the last entries keeps it so. */
  lemma {:induction false} RingStep(slots: seq<Entry>, head: nat, count: nat, history: seq<Entry>, entry: Entry)
    requires head < |slots| && count <= |slots| && (count < |slots| ==> head == count)
    requires Unrolled(slots, head, count) == Last(history, |slots|)
    ensures var next, more := Slot(head + 1, |slots|), if count < |slots| then count + 1 else count;
      && next < |slots| && more <= |slots| && (more < |slots| ==> next == more)
      && Unrolled(slots[head := entry], next, more) == Last(history + [entry], |slots|)
  {
    hide Unrolled, Last, Slot;
    UnrolledLength(slots, head, count);
    UnrolledStep(slots, head, count, entry);
    LastGrows(history, entry, |slots|);
    NextSlot(head, |slots|);
  }

  class BufferedLogger {
    const buffer: array<Entry>
    const capacity: nat
    var head: nat
    var count: nat
    /** Everything ever added, oldest first. */
    ghost var history: seq<Entry>

    constructor (capacity: nat, blank: Entry)
      requires 1 <= capacity
      ensures Valid() && fresh(buffer) && history == [] && this.capacity == capacity
    {
      this.capacity := capacity;
      buffer := new Entry[capacity](_ => blank);
      head, count := 0, 0;
      history := [];
    }

    /** The ring read from its oldest slot. */
    ghost function Ring(): seq<Entry>
      reads this, buffer
      requires count <= buffer.Length && head < buffer.Length
    {
      Unrolled(buffer[..], head, count)
    }

    ghost predicate Valid()
      reads this, buffer
    {
      && 1 <= capacity == buffer.Length && head < capacity && count <= capacity
      && (count < capacity ==> head == count)
      && Ring() == Last(history, capacity)
    }

    method AddEntry(entry: Entry)
      requires Valid()
      modifies this, buffer
      ensures Valid() && history == old(history) + [entry]
    {
      hide Unrolled, Last, Slot;
      ghost var slots, at := buffer[..], head;
      RingStep(slots, head, count, history, entry);
      buffer[head] := entry;
      assert buffer[..] == slots[at := entry];
      head := Slot(head + 1, capacity);
      if count < capacity { count := count + 1; }
      history := history + [entry];
    }

    /** The Entries property: start at the oldest slot and wrap around. */
    method Entries() returns (entries: seq<Entry>)
      requires Valid()
      ensures entries == Last(history, capacity)
    {
      var start := if count < capacity then 0 else head;
      ghost var ring := Ring();
      entries := [];
      var i := 0;
      while i < count
        invariant i <= count == |ring| && entries == ring[..i]
      {
        WrappedSlot(start, i, capacity);
        UnrolledAt(buffer[..], head, count, i);
        assert buffer[Slot(start + i, capacity)] == ring[i];
        entries := entries + [buffer[Slot(start + i, capacity)]];
        i := i + 1;
      }
      assert ring[..count] == ring;
    }

    /** The log history action: null for the failure result of a non-positive Max. */
    method RetrieveHistory(q: Query) returns (result: Option<seq<Entry>>)
      requires Valid()
      ensures q.max < 1 ==> result == None
      ensures q.max >= 1 ==> result.Some?
      ensures q.max >= 1 ==> (
        var kept := if |history| <= capacity then history else history[|history| - capacity..];
        Answers(kept, q, NewestPlaces(kept, q), result.value))
    {
      if q.max < 1 { return None; }
      var entries := Entries();
      NewestIsNewest(entries, q);
      result := Some(Newest(entries, q));
      hide Answers, Newest, NewestPlaces;
    }
  }

  /** Positions wrap around at the capacity. */
  function Slot(i: nat, capacity: nat): (slot: nat)
    requires capacity > 0
    ensures slot < capacity
  {
    i % capacity
  }

  lemma {:induction false} NextSlot(head: nat, capacity: nat)
    requires head < capacity
    ensures Slot(head + 1, capacity) == if head + 1 == capacity then 0 else head + 1
  {
  }

  lemma {:induction false} WrappedSlot(start: nat, i: nat, capacity: nat)
    requires start < capacity && i < capacity
    ensures Slot(start + i, capacity) == if start + i < capacity then start + i else start + i - capacity
  {
    if start + i >= capacity {
      assert start + i == 1 * capacity + (start + i - capacity);
      assert (start + i - capacity) % capacity == start + i - capacity;
    }
  }

  // ---------------------------------------------------------------- the history query

  datatype Query = Query(max: int, before: Option<int>, after: Option<int>, minLevel: int)

  predicate Passes(e: Entry, q: Query) {
    && e.level >= q.minLevel
    && (q.after.Some? ==> e.time >= q.after.value)
    && (q.before.Some? ==> e.time < q.before.value)
  }

  function Where(s: seq<Entry>, q: Query): seq<Entry> {
    if s == [] then [] else Where(s[..|s| - 1], q) + (if Passes(s[|s| - 1], q) then [s[|s| - 1]] else [])
  }

  function Newest(s: seq<Entry>, q: Query): seq<Entry>
    requires q.max >= 1
  {
    Last(Where(s, q), q.max)
  }

  /** The places of s whose entry passes, in order. */
  function Places(s: seq<Entry>, q: Query): (at: seq<nat>)
    ensures forall i | 0 <= i < |at| :: at[i] < |s|
  {
    if s == [] then [] else Places(s[..|s| - 1], q) + (if Passes(s[|s| - 1], q) then [|s| - 1] else [])
  }

  lemma {:induction false} WhereIsAtPlaces(s: seq<Entry>, q: Query)
    ensures AtPlaces(s, Places(s, q), Where(s, q)) && AllPassing(s, q, Places(s, q))
  {
    if s != [] { WhereIsAtPlaces(s[..|s| - 1], q); }
  }

  /** at holds every place whose entry passes. */
  ghost predicate AllPassing(s: seq<Entry>, q: Query, at: seq<nat>) {
    forall p: nat | p < |s| && Passes(s[p], q) :: p in at
  }

  /**
   * r is the newest answer to a query over s: the entries at increasing places that meet the level and
   * the times asked for, without a gap from the first of them on, and from the beginning unless the
   * maximum was reached.
   */
  ghost predicate Answers(s: seq<Entry>, q: Query, at: seq<nat>, r: seq<Entry>) {
    |at| <= q.max && AtPlaces(s, at, r) && MeetsAll(q, r) && NoneMissed(s, q, at)
  }

  predicate MeetsAll(q: Query, r: seq<Entry>) {
    forall i | 0 <= i < |r| ::
      && r[i].level >= q.minLevel
      && (q.after.Some? ==> r[i].time >= q.after.value) && (q.before.Some? ==> r[i].time < q.before.value)
  }

  predicate AtPlaces(s: seq<Entry>, at: seq<nat>, r: seq<Entry>) {
    && |at| == |r| && Increasing(at)
    && forall i | 0 <= i < |at| :: at[i] < |s| && r[i] == s[at[i]]
  }

  ghost predicate NoneMissed(s: seq<Entry>, q: Query, at: seq<nat>) {
    forall p: nat | p < |s| && (|at| < q.max || (|at| > 0 && p >= at[0]))
      && s[p].level >= q.minLevel && (q.after.Some? ==> s[p].time >= q.after.value) && (q.before.Some? ==> s[p].time < q.before.value) :: p in at
  }

  function NewestPlaces(s: seq<Entry>, q: Query): (at: seq<nat>)
    requires q.max >= 1
  {
    Last(Places(s, q), q.max)
  }

  /** The query returns exactly the newest Max entries that meet it, in order. */
  lemma {:induction false} NewestIsNewest(s: seq<Entry>, q: Query)
    requires q.max >= 1
    ensures Answers(s, q, NewestPlaces(s, q), Newest(s, q))
  {
    hide AtPlaces, AllPassing, NoneMissed, MeetsAll, Increasing, Places, Where, Last;
    var all, found := Places(s, q), Where(s, q);
    WhereIsAtPlaces(s, q);
    WherePasses(s, q);
    PlacesIncrease(s, q);
    var skip := |all| - |NewestPlaces(s, q)|;
    SuffixPlaces(s, all, found, skip);
    SuffixMeets(q, found, skip);
    SuffixMissesNone(s, q, all, skip);
    assert NewestPlaces(s, q) == all[skip..] && Newest(s, q) == found[skip..];
  }

  lemma {:induction false} SuffixMeets(q: Query, r: seq<Entry>, skip: nat)
    requires MeetsAll(q, r) && skip <= |r|
    ensures MeetsAll(q, r[skip..])
  {
  }

  predicate Increasing(at: seq<nat>) {
    forall i, j | 0 <= i < j < |at| :: at[i] < at[j]
  }

  lemma {:induction false} PlacesIncrease(s: seq<Entry>, q: Query)
    ensures |Places(s, q)| == |Where(s, q)| && Increasing(Places(s, q))
  {
    hide AllPassing;
    WhereIsAtPlaces(s, q);
  }

  lemma {:induction false} WherePasses(s: seq<Entry>, q: Query)
    ensures MeetsAll(q, Where(s, q))
  {
    if s != [] { WherePasses(s[..|s| - 1], q); }
  }

  lemma {:induction false} SuffixMissesNone(s: seq<Entry>, q: Query, all: seq<nat>, skip: nat)
    requires skip <= |all| && (|all| - skip < q.max ==> skip == 0)
    requires Increasing(all) && AllPassing(s, q, all)
    ensures NoneMissed(s, q, all[skip..])
  {
    var at := all[skip..];
    forall p: nat | p < |s| && (|at| < q.max || (|at| > 0 && p >= at[0])) && Passes(s[p], q) ensures p in at {
      NoGap(all, skip, p);
    }
  }

  lemma {:induction false} SuffixPlaces(s: seq<Entry>, all: seq<nat>, r: seq<Entry>, skip: nat)
    requires AtPlaces(s, all, r) && skip <= |all|
    ensures AtPlaces(s, all[skip..], r[skip..])
  {
  }

  /** The end of an increasing sequence holds every element from its first on. */
  lemma {:induction false} NoGap(all: seq<nat>, skip: nat, p: nat)
    requires skip <= |all| && p in all && forall i, j | 0 <= i < j < |all| :: all[i] < all[j]
    requires skip == 0 || (skip < |all| && p >= all[skip])
    ensures p in all[skip..]
  {
    var i :| 0 <= i < |all| && all[i] == p;
    assert i >= skip;
    assert all[skip..][i - skip] == p;
  }
}
