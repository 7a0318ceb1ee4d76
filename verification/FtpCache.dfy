/**
 * The cache of parsed 3MF files in BBLFTPConnection: TouchLRU, and Download3MF as the steps at which
 * concurrent downloads interleave.  Only TouchLRU runs under a lock; lookups and writes of the
 * dictionaries do not take it, so they also happen between its two changes when it evicts.
 */
module FtpCache {
  import opened Optional

  type Hash(==, !new)
  type Path(==, !new)
  type Parsed = int
  type Tid = nat

  const MAX_CACHE_SIZE := 100

  // ---------------------------------------------------------------- TouchLRU

  /** The first place of the key at or after `from`, or the end. */
  function Place(list: seq<Hash>, key: Hash, from: nat): (at: nat)
    requires from <= |list|
    ensures from <= at <= |list| && (at < |list| ==> list[at] == key)
    ensures forall i | from <= i < at :: list[i] != key
    decreases |list| - from
  {
    if from == |list| || list[from] == key then from else Place(list, key, from + 1)
  }

  /** LinkedList.Remove: cut out the first place of the key. */
  function RemoveFirst(list: seq<Hash>, key: Hash): (r: seq<Hash>)
    ensures |r| == if key in list then |list| - 1 else |list|
    ensures key !in list ==> r == list
  {
    var at := Place(list, key, 0);
    if at < |list| then list[..at] + list[at + 1..] else list
  }

  /** Move to the front. */
  function Fronted(list: seq<Hash>, key: Hash): seq<Hash> {
    [key] + RemoveFirst(list, key)
  }

  /** The recency list after TouchLRU. */
  function TouchedList(list: seq<Hash>, key: Hash): seq<Hash> {
    var f := Fronted(list, key);
    if |f| > MAX_CACHE_SIZE then f[..|f| - 1] else f
  }

  /** The cache after TouchLRU: the key pushed off the end of the list goes. */
  function TouchedCache(list: seq<Hash>, cache: map<Hash, Parsed>, key: Hash): map<Hash, Parsed> {
    var f := Fronted(list, key);
    if |f| > MAX_CACHE_SIZE then cache - {f[|f| - 1]} else cache
  }

  predicate NoDup(list: seq<Hash>) {
    forall i, j | 0 <= i < j < |list| :: list[i] != list[j]
  }

  function Elements(list: seq<Hash>): set<Hash> {
    set i | 0 <= i < |list| :: list[i]
  }

  lemma {:induction false} RemoveFirstFacts(list: seq<Hash>, key: Hash)
    requires NoDup(list)
    ensures NoDup(RemoveFirst(list, key)) && key !in RemoveFirst(list, key)
    ensures forall k :: k in RemoveFirst(list, key) <==> k in list && k != key
  {
    hide Place;
    var at, r := Place(list, key, 0), RemoveFirst(list, key);
    if at < |list| {
      assert forall i | 0 <= i < |r| :: r[i] == list[if i < at then i else i + 1];
      assert list == list[..at] + [key] + list[at + 1..];
    }
  }

  lemma {:induction false} FrontedFacts(list: seq<Hash>, key: Hash)
    requires NoDup(list)
    ensures NoDup(Fronted(list, key)) && forall k :: k in Fronted(list, key) <==> k == key || k in list
  {
    hide RemoveFirst;
    RemoveFirstFacts(list, key);
    var r, f := RemoveFirst(list, key), Fronted(list, key);
    forall i, j | 0 <= i < j < |f| ensures f[i] != f[j] {
      assert f[j] == r[j - 1] && r[j - 1] in r;
    }
  }

  lemma {:induction false} TouchFacts(list: seq<Hash>, key: Hash)
    requires NoDup(list) && |list| <= MAX_CACHE_SIZE
    ensures NoDup(TouchedList(list, key)) && |TouchedList(list, key)| <= MAX_CACHE_SIZE
    ensures key in TouchedList(list, key)
    ensures var f := Fronted(list, key);
      forall k :: k in TouchedList(list, key) <==> (k == key || k in list) && !(|f| > MAX_CACHE_SIZE && k == f[|f| - 1])
  {
    hide RemoveFirst;
    FrontedFacts(list, key);
    var f := Fronted(list, key);
    assert f[0] == key;
    if |f| > MAX_CACHE_SIZE {
      var t := f[..|f| - 1];
      assert f == t + [f[|f| - 1]] && t[0] == key;
    }
  }

  // ---------------------------------------------------------------- interleaved downloads

  /** Where a download stands. */
  datatype Pc =
    | Downloading(path: Path)                // before the transfer and the hash
    | Fetched(path: Path, hash: Hash)        // about to look the hash up
    | Hit(path: Path, hash: Hash)            // found it; about to map the path
    | HitMapped(hash: Hash)                  // about to touch
    | Missed(path: Path, hash: Hash)         // storing and parsing the file
    | Written(path: Path, hash: Hash)        // wrote the cache; about to map the path
    | WrittenMapped(hash: Hash)              // about to touch
    | Evicting(hash: Hash)                   // in TouchLRU: took this key off the list, about to drop it from the cache

  datatype State = State(list: seq<Hash>, cache: map<Hash, Parsed>, paths: map<Path, Hash>, threads: map<Tid, Pc>,
                         touches: seq<Hash>)

  datatype Event =
    | Start(t: Tid, path: Path)
    | Transferred(t: Tid, hash: Hash)
    | Lookup(t: Tid)
    | Store(t: Tid, parsed: Parsed)
    | MapPath(t: Tid)
    | Touch(t: Tid)                          // waits for the lock, then changes the list
    | Evict(t: Tid)                          // drops the evicted key from the cache and leaves the lock
    | Fail(t: Tid)                           // any exception before the cache write: recovery reads only
    | ScanRemoves(path: Path)                // the scan loop forgets a path

  const INITIAL := State([], map[], map[], map[], [])

  /** Some thread is inside TouchLRU. */
  predicate Locked(s: State) {
    exists t | t in s.threads :: s.threads[t].Evicting?
  }

  predicate AboutToTouch(s: State, t: Tid) {
    t in s.threads && (s.threads[t].HitMapped? || s.threads[t].WrittenMapped?)
  }

  /** One atomic step; an event that does not fit the thread's place does not happen. */
  function Step(s: State, e: Event): State {
    match e
    case Start(t, path) => if t in s.threads then s else s.(threads := s.threads[t := Downloading(path)])
    case Transferred(t, hash) =>
      if t in s.threads && s.threads[t].Downloading? then s.(threads := s.threads[t := Fetched(s.threads[t].path, hash)]) else s
    case Lookup(t) =>
      if t in s.threads && s.threads[t].Fetched? then
        var Fetched(path, hash) := s.threads[t];
        s.(threads := s.threads[t := if hash in s.cache then Hit(path, hash) else Missed(path, hash)])
      else s
    case Store(t, parsed) =>
      if t in s.threads && s.threads[t].Missed? then
        var Missed(path, hash) := s.threads[t];
        s.(cache := s.cache[hash := parsed], threads := s.threads[t := Written(path, hash)])
      else s
    case MapPath(t) =>
      if t in s.threads && s.threads[t].Hit? then
        s.(paths := s.paths[s.threads[t].path := s.threads[t].hash], threads := s.threads[t := HitMapped(s.threads[t].hash)])
      else if t in s.threads && s.threads[t].Written? then
        s.(paths := s.paths[s.threads[t].path := s.threads[t].hash], threads := s.threads[t := WrittenMapped(s.threads[t].hash)])
      else s
    case Touch(t) =>
      if AboutToTouch(s, t) && !Locked(s) then
        var key := s.threads[t].hash;
        var f := Fronted(s.list, key);
        State(TouchedList(s.list, key), s.cache, s.paths,
              if |f| > MAX_CACHE_SIZE then s.threads[t := Evicting(f[|f| - 1])] else s.threads - {t}, s.touches + [key])
      else s
    case Evict(t) =>
      if t in s.threads && s.threads[t].Evicting? then s.(cache := s.cache - {s.threads[t].hash}, threads := s.threads - {t}) else s
    case Fail(t) =>
      if t in s.threads && (s.threads[t].Downloading? || s.threads[t].Fetched? || s.threads[t].Missed?) then s.(threads := s.threads - {t})
      else s
    case ScanRemoves(path) => s.(paths := s.paths - {path})
  }

  function Run(events: seq<Event>): State {
    if events == [] then INITIAL else Step(Run(events[..|events| - 1]), events[|events| - 1])
  }

  /** Some thread wrote this key and has not touched it yet, or is evicting it. */
  ghost predicate Held(s: State, key: Hash) {
    exists t | t in s.threads :: HoldsIn(s.threads[t], key)
  }

  predicate HoldsIn(pc: Pc, key: Hash) {
    Holding(pc) && pc.hash == key
  }

  predicate Holding(pc: Pc) {
    pc.Written? || pc.WrittenMapped? || pc.Evicting?
  }

  ghost predicate Inv(s: State) {
    && NoDup(s.list) && |s.list| <= MAX_CACHE_SIZE
    && forall key | key in s.cache :: key in s.list || Held(s, key)
  }

  lemma {:induction false} StepKeepsInv(s: State, e: Event)
    requires Inv(s)
    ensures Inv(Step(s, e))
  {
    var s' := Step(s, e);
    if e.Touch? {
      hide Step;
      TouchKeepsInv(s, e.t);
    } else {
      hide TouchedList, Fronted, NoDup, Locked;
      forall key | key in s'.cache ensures key in s'.list || Held(s', key) {
        if e.Store? && e.t in s.threads && s.threads[e.t].Missed? && s.threads[e.t].hash == key {
          assert HoldsIn(s'.threads[e.t], key);
        } else if t :| t in s.threads && HoldsIn(s.threads[t], key) {
          assert t in s'.threads && HoldsIn(s'.threads[t], key);
        }
      }
    }
  }

  lemma {:induction false} TouchKeepsInv(s: State, t: Tid)
    requires Inv(s)
    ensures Inv(Step(s, Touch(t)))
  {
    var s' := Step(s, Touch(t));
    if s' != s {
      var key := s.threads[t].hash;
      TouchFacts(s.list, key);
      hide TouchedList, Fronted, NoDup, Locked;
      forall k | k in s'.cache ensures k in s'.list || Held(s', k) {
        if k == key || k in s.list {
          if k !in s'.list { assert HoldsIn(s'.threads[t], k); }
        } else {
          var t' :| t' in s.threads && HoldsIn(s.threads[t'], k);
          assert t' in s'.threads && HoldsIn(s'.threads[t'], k);
        }
      }
    }
  }

  /**
   * Under any number of interleaved downloads the recency list has no duplicates and at most
   * MaxCacheSize keys, and every cached key is on it, or held by a thread between its write and its
   * touch, or being evicted.
   */
  lemma {:induction false} CacheInvariant(events: seq<Event>)
    ensures Inv(Run(events))
  {
    if events != [] {
      CacheInvariant(events[..|events| - 1]);
      StepKeepsInv(Run(events[..|events| - 1]), events[|events| - 1]);
    }
  }

  lemma {:induction false} ElementsSize(list: seq<Hash>)
    ensures |Elements(list)| <= |list|
  {
    if list != [] {
      var init := list[..|list| - 1];
      ElementsSize(init);
      assert Elements(list) == Elements(init) + {list[|list| - 1]};
    }
  }

  lemma {:induction false} SubsetSize(a: set<Hash>, b: set<Hash>)
    requires a <= b
    ensures |a| <= |b|
  {
    if a != {} {
      var x :| x in a;
      SubsetSize(a - {x}, b - {x});
    }
  }

  /** With no download in flight the cache holds at most MaxCacheSize entries, all on the list. */
  lemma {:induction false} QuiescentCacheIsBounded(events: seq<Event>)
    requires Run(events).threads == map[]
    ensures Run(events).cache.Keys <= Elements(Run(events).list) && |Run(events).cache| <= 100
  {
    CacheInvariant(events);
    var s := Run(events);
    forall key | key in s.cache ensures key in Elements(s.list) {
      assert key in s.list;
    }
    SubsetSize(s.cache.Keys, Elements(s.list));
    ElementsSize(s.list);
  }

  /** The threads that hold a key, and the keys they hold. */
  function Holders(threads: map<Tid, Pc>): set<Tid> {
    set t | t in threads && Holding(threads[t])
  }

  function HeldKeys(threads: map<Tid, Pc>, ts: set<Tid>): set<Hash>
    requires ts <= Holders(threads)
  {
    set t | t in ts :: threads[t].hash
  }

  lemma {:induction false} HeldKeysSize(threads: map<Tid, Pc>, ts: set<Tid>)
    requires ts <= Holders(threads)
    ensures |HeldKeys(threads, ts)| <= |ts|
    decreases |ts|
  {
    if ts != {} {
      var t :| t in ts;
      HeldKeysSize(threads, ts - {t});
      assert HeldKeys(threads, ts) == HeldKeys(threads, ts - {t}) + {threads[t].hash};
    } else {
      assert HeldKeys(threads, ts) == {};
    }
  }

  /** In every interleaving the cache exceeds MaxCacheSize by at most the number of downloads that hold a key. */
  lemma {:induction false} CacheIsBounded(events: seq<Event>)
    ensures var s := Run(events); |s.cache| <= 100 + |Holders(s.threads)|
  {
    CacheInvariant(events);
    var s := Run(events);
    hide Run;
    var held := HeldKeys(s.threads, Holders(s.threads));
    forall key | key in s.cache ensures key in Elements(s.list) + held {
      if key !in s.list {
        var t :| t in s.threads && HoldsIn(s.threads[t], key);
        assert t in Holders(s.threads);
      }
    }
    SubsetSize(s.cache.Keys, Elements(s.list) + held);
    ElementsSize(s.list);
    HeldKeysSize(s.threads, Holders(s.threads));
  }

  /** A path the scan removes is forgotten, and only that. */
  lemma {:induction false} ScanForgetsPath(events: seq<Event>, path: Path)
    ensures var s, s' := Run(events), Run(events + [ScanRemoves(path)]);
      && s'.paths == s.paths - {path} && s'.list == s.list && s'.cache == s.cache && s'.threads == s.threads && s'.touches == s.touches
  {
    assert (events + [ScanRemoves(path)])[..|events + [ScanRemoves(path)]| - 1] == events;
  }

  /** A lookup finds exactly what is cached, and an uncached file is stored as it was parsed. */
  lemma {:induction false} LookupAndStore(events: seq<Event>, t: Tid, parsed: Parsed)
    requires t in Run(events).threads
    ensures var s, l, w := Run(events), Run(events + [Lookup(t)]), Run(events + [Store(t, parsed)]);
      && (s.threads[t].Fetched? ==>
            && t in l.threads
            && l.threads[t] == (if s.threads[t].hash in s.cache then Hit(s.threads[t].path, s.threads[t].hash) else Missed(s.threads[t].path, s.threads[t].hash))
            && l.cache == s.cache)
      && (s.threads[t].Missed? ==> t in w.threads && w.threads[t] == Written(s.threads[t].path, s.threads[t].hash) && w.cache == s.cache[s.threads[t].hash := parsed])
  {
    assert (events + [Lookup(t)])[..|events + [Lookup(t)]| - 1] == events;
    assert (events + [Store(t, parsed)])[..|events + [Store(t, parsed)]| - 1] == events;
  }

  // ---------------------------------------------------------------- recency

  /** The distinct touched keys, most recently touched first. */
  function Recency(touches: seq<Hash>): seq<Hash> {
    if touches == [] then [] else Fronted(Recency(touches[..|touches| - 1]), touches[|touches| - 1])
  }

  function Take(list: seq<Hash>): seq<Hash> {
    if |list| <= MAX_CACHE_SIZE then list else list[..MAX_CACHE_SIZE]
  }

  lemma {:induction false} RemoveFirstPrefix(list: seq<Hash>, n: nat, key: Hash)
    requires n <= |list|
    ensures RemoveFirst(list[..n], key) == RemoveFirst(list, key)[..|RemoveFirst(list[..n], key)|]
  {
    hide Place;
    var at, at' := Place(list, key, 0), Place(list[..n], key, 0);
    if at < n { assert list[..n][at] == key; }
    if at' < n { assert list[at'] == key; }
  }

  /** Touching the truncated list truncates the touched list. */
  lemma {:induction false} TouchCommutesWithTake(list: seq<Hash>, key: Hash)
    ensures TouchedList(Take(list), key) == Take(Fronted(list, key))
  {
    hide RemoveFirst;
    if |list| > MAX_CACHE_SIZE {
      RemoveFirstPrefix(list, MAX_CACHE_SIZE, key);
    }
  }

  /** In every interleaving the list is the MaxCacheSize most recently touched keys, in order. */
  lemma {:induction false} ListIsMostRecent(events: seq<Event>)
    ensures Run(events).list == Take(Recency(Run(events).touches))
  {
    hide Fronted, TouchedList;
    if events != [] {
      var before, e := Run(events[..|events| - 1]), events[|events| - 1];
      ListIsMostRecent(events[..|events| - 1]);
      StepTouches(before, e);
      hide Step;
      var after := Step(before, e);
      if after.touches != before.touches {
        var key := after.touches[|before.touches|];
        TouchCommutesWithTake(Recency(before.touches), key);
        assert after.touches[..|after.touches| - 1] == before.touches;
      }
    }
  }

  /** Only a touch changes the list, and it is recorded. */
  lemma {:induction false} StepTouches(s: State, e: Event)
    ensures var s' := Step(s, e);
      || (s'.list == s.list && s'.touches == s.touches)
      || (|s'.touches| == |s.touches| + 1 && s'.touches == s.touches + [s'.touches[|s.touches|]]
          && s'.list == TouchedList(s.list, s'.touches[|s.touches|]))
  {
    hide TouchedList, TouchedCache;
  }

  /** The last touch of a key. */
  function LastTouch(touches: seq<Hash>, key: Hash): int {
    if touches == [] then -1 else if touches[|touches| - 1] == key then |touches| - 1 else LastTouch(touches[..|touches| - 1], key)
  }

  lemma {:induction false} LastTouchBound(touches: seq<Hash>, key: Hash)
    ensures -1 <= LastTouch(touches, key) < |touches|
    ensures key in touches <==> LastTouch(touches, key) >= 0
  {
    if touches != [] {
      LastTouchBound(touches[..|touches| - 1], key);
      assert touches == touches[..|touches| - 1] + [touches[|touches| - 1]];
    }
  }

  lemma {:induction false} RemoveFirstOrder(list: seq<Hash>, key: Hash, i: nat, j: nat) returns (i': nat, j': nat)
    requires i < j < |RemoveFirst(list, key)|
    ensures i' < j' < |list| && RemoveFirst(list, key)[i] == list[i'] && RemoveFirst(list, key)[j] == list[j']
  {
    hide Place;
    var at := Place(list, key, 0);
    i', j' := if i < at then i else i + 1, if j < at then j else j + 1;
  }

  /** Recency order is the order of last touches: earlier on the list means touched later. */
  lemma {:induction false} RecencyIsByLastTouch(touches: seq<Hash>, i: nat, j: nat)
    requires i < j < |Recency(touches)|
    ensures LastTouch(touches, Recency(touches)[i]) > LastTouch(touches, Recency(touches)[j])
    decreases |touches|
  {
    hide RemoveFirst;
    var init, key := touches[..|touches| - 1], touches[|touches| - 1];
    var rest := RemoveFirst(Recency(init), key);
    RecencyNoDup(init);
    RemoveFirstFacts(Recency(init), key);
    assert Recency(touches) == [key] + rest;
    assert rest[j - 1] in rest;
    LastTouchBound(init, rest[j - 1]);
    if i > 0 {
      assert rest[i - 1] in rest;
      var i', j' := RemoveFirstOrder(Recency(init), key, i - 1, j - 1);
      RecencyIsByLastTouch(init, i', j');
    }
  }

  lemma {:induction false} RecencyNoDup(touches: seq<Hash>)
    ensures NoDup(Recency(touches))
  {
    if touches != [] {
      RecencyNoDup(touches[..|touches| - 1]);
      RemoveFirstFacts(Recency(touches[..|touches| - 1]), touches[|touches| - 1]);
    }
  }

  /** A touch of the MaxCacheSize most recent keys that pushes one off pushes off the least recently touched. */
  lemma {:induction false} EvictionOrder(touches: seq<Hash>, key: Hash, kept: Hash)
    requires var f := Fronted(Take(Recency(touches)), key); |f| > MAX_CACHE_SIZE && kept in f[..|f| - 1]
    ensures var f := Fronted(Take(Recency(touches)), key);
      LastTouch(touches + [key], kept) > LastTouch(touches + [key], f[|f| - 1])
  {
    hide RemoveFirst, LastTouch;
    var order, all := Recency(touches), touches + [key];
    var f := Fronted(Take(order), key);
    if |order| > MAX_CACHE_SIZE { RemoveFirstPrefix(order, MAX_CACHE_SIZE, key); }
    assert all[..|all| - 1] == touches && Recency(all) == Fronted(order, key);
    assert f == Fronted(order, key)[..|f|];
    var i :| 0 <= i < |f| - 1 && f[i] == kept;
    RecencyIsByLastTouch(all, i, |f| - 1);
  }

  /**
   * In every interleaving, when a touch evicts, the evicted key leaves the list and then the cache, and
   * every key still on the list was touched after it.
   */
  lemma {:induction false} EvictedIsLeastRecent(events: seq<Event>, t: Tid, kept: Hash)
    requires var s := Run(events); AboutToTouch(s, t) && !Locked(s) && |Fronted(s.list, s.threads[t].hash)| > MAX_CACHE_SIZE
    requires kept in Step(Run(events), Touch(t)).list
    ensures var s, s' := Run(events), Step(Run(events), Touch(t));
      var f := Fronted(s.list, s.threads[t].hash);
      var evicted := f[|f| - 1];
      && t in s'.threads && s'.threads[t] == Evicting(evicted) && evicted !in s'.list
      && LastTouch(s'.touches, kept) > LastTouch(s'.touches, evicted)
  {
    hide Run, Fronted, LastTouch;
    var s := Run(events);
    ListIsMostRecent(events);
    CacheInvariant(events);
    TouchFacts(s.list, s.threads[t].hash);
    EvictionOrder(s.touches, s.threads[t].hash, kept);
  }

  /** Until it ends, an eviction keeps the list and its own key, whatever the others do; its end drops just that key. */
  lemma {:induction false} EvictionIsExclusive(s: State, t: Tid, e: Event)
    requires t in s.threads && s.threads[t].Evicting?
    ensures e != Evict(t) ==> Step(s, e).list == s.list && t in Step(s, e).threads && Step(s, e).threads[t] == s.threads[t]
    ensures Step(s, Evict(t)).cache == s.cache - {s.threads[t].hash} && Step(s, Evict(t)).list == s.list
  {
    hide TouchedList, Fronted;
  }

  // ---------------------------------------------------------------- one download at a time

  /** Download3MF run to its end with nobody else stepping; a None transfer or parse is its exception. */
  function Alone(s: State, t: Tid, path: Path, transfer: Option<Hash>, parse: Option<Parsed>): State {
    var s1 := Step(s, Start(t, path));
    if transfer == None then Step(s1, Fail(t))
    else
      var s2 := Step(Step(s1, Transferred(t, transfer.value)), Lookup(t));
      if transfer.value in s.cache then Step(Step(Step(s2, MapPath(t)), Touch(t)), Evict(t))
      else if parse == None then Step(s2, Fail(t))
      else Step(Step(Step(Step(s2, Store(t, parse.value)), MapPath(t)), Touch(t)), Evict(t))
  }

  predicate Sequential(list: seq<Hash>, cache: map<Hash, Parsed>) {
    NoDup(list) && |list| <= MAX_CACHE_SIZE && cache.Keys == Elements(list)
  }

  /** Touching a cached key of a sequential cache keeps cache and list equal. */
  lemma {:induction false} TouchKeepsSequential(list: seq<Hash>, cache: map<Hash, Parsed>, key: Hash)
    requires NoDup(list) && |list| <= MAX_CACHE_SIZE && cache.Keys == Elements(list) + {key}
    ensures Sequential(TouchedList(list, key), TouchedCache(list, cache, key))
  {
    hide Fronted;
    TouchFacts(list, key);
    var t := TouchedList(list, key);
    forall k ensures k in TouchedCache(list, cache, key).Keys <==> k in Elements(t) {
      assert k in Elements(t) <==> k in t;
      assert k in Elements(list) <==> k in list;
    }
  }

  /** The connection's cache, driven by one download at a time (as the scan loop does). */
  class BBLFTPConnection {
    var LRU: seq<Hash>
    var Cached3MF: map<Hash, Parsed>
    var PathToHash: map<Path, Hash>

    constructor ()
      ensures Sequential(LRU, Cached3MF) && PathToHash == map[]
    {
      LRU, Cached3MF, PathToHash := [], map[], map[];
    }

    function View(): State
      reads this
    {
      State(LRU, Cached3MF, PathToHash, map[], [])
    }

    method TouchLRU(key: Hash)
      modifies this`LRU, this`Cached3MF
      ensures LRU == TouchedList(old(LRU), key) && Cached3MF == TouchedCache(old(LRU), old(Cached3MF), key)
    {
      if key in LRU { LRU := RemoveFirst(LRU, key); }
      LRU := [key] + LRU;
      if |LRU| > MAX_CACHE_SIZE {
        var evicted := LRU[|LRU| - 1];
        LRU := LRU[..|LRU| - 1];
        Cached3MF := Cached3MF - {evicted};
      }
    }

    /** A hit or a freshly cached file: map the path, then touch. */
    method Remember(remotePath: Path, hash: Hash)
      requires NoDup(LRU) && |LRU| <= MAX_CACHE_SIZE && Cached3MF.Keys == Elements(LRU) + {hash}
      modifies this
      ensures Sequential(LRU, Cached3MF) && PathToHash == old(PathToHash)[remotePath := hash]
      ensures LRU == TouchedList(old(LRU), hash) && Cached3MF == TouchedCache(old(LRU), old(Cached3MF), hash)
      ensures |LRU| > 0 && LRU[0] == hash && hash in Cached3MF && Cached3MF[hash] == old(Cached3MF)[hash]
    {
      TouchFrontStays(LRU, Cached3MF, hash);
      TouchKeepsSequential(LRU, Cached3MF, hash);
      hide Elements, NoDup, TouchedList, TouchedCache, Sequential;
      PathToHash := PathToHash[remotePath := hash];
      TouchLRU(hash);
    }

    /** Download3MF: the parsed file and its hash, by cache, by parsing, or by recovery; None is the rethrown exception. */
    method Download3MF(remotePath: Path, transfer: Option<Hash>, parse: Option<Parsed>) returns (r: Option<(Parsed, Hash)>)
      requires Sequential(LRU, Cached3MF)
      modifies this
      ensures Sequential(LRU, Cached3MF)
      ensures var s := Alone(old(View()), 0, remotePath, transfer, parse);
        LRU == s.list && Cached3MF == s.cache && PathToHash == s.paths
      ensures transfer.Some? && (transfer.value in old(Cached3MF) || parse.Some?) ==>
        && r == Some((if transfer.value in old(Cached3MF) then old(Cached3MF)[transfer.value] else parse.value, transfer.value))
        && |LRU| > 0 && LRU[0] == transfer.value && transfer.value in Cached3MF && Cached3MF[transfer.value] == r.value.0
      ensures !(transfer.Some? && (transfer.value in old(Cached3MF) || parse.Some?)) ==>
        && LRU == old(LRU) && Cached3MF == old(Cached3MF) && PathToHash == old(PathToHash)
        && r == (if remotePath in PathToHash && PathToHash[remotePath] in Cached3MF
                 then Some((Cached3MF[PathToHash[remotePath]], PathToHash[remotePath])) else None)
    {
      AloneOutcome(View(), 0, remotePath, transfer, parse);
      SequentialParts(LRU, Cached3MF);
      hide Elements, NoDup, Alone, TouchedList, TouchedCache, Sequential;
      if transfer.Some? {
        var hash := transfer.value;
        if hash in Cached3MF {
          assert Elements(LRU) + {hash} == Elements(LRU);
          r := Some((Cached3MF[hash], hash));
          Remember(remotePath, hash);
          return;
        } else if parse.Some? {
          Cached3MF := Cached3MF[hash := parse.value];
          r := Some((parse.value, hash));
          Remember(remotePath, hash);
          return;
        }
      }
      r := None;
      if remotePath in PathToHash && PathToHash[remotePath] in Cached3MF {
        r := Some((Cached3MF[PathToHash[remotePath]], PathToHash[remotePath]));
      }
    }
  }

  /** What an undisturbed download does to the shared state. */
  lemma {:induction false} AloneOutcome(s: State, t: Tid, path: Path, transfer: Option<Hash>, parse: Option<Parsed>)
    requires s.threads == map[]
    ensures var s' := Alone(s, t, path, transfer, parse);
      if transfer.Some? && (transfer.value in s.cache || parse.Some?) then
        var cache := if transfer.value in s.cache then s.cache else s.cache[transfer.value := parse.value];
        && s'.list == TouchedList(s.list, transfer.value) && s'.cache == TouchedCache(s.list, cache, transfer.value)
        && s'.paths == s.paths[path := transfer.value] && s'.threads == map[]
      else s'.list == s.list && s'.cache == s.cache && s'.paths == s.paths && s'.threads == map[]
  {
    hide TouchedList, TouchedCache, Fronted, Locked;
    if transfer.Some? && (transfer.value in s.cache || parse.Some?) {
      var s2 := Step(Step(Step(s, Start(t, path)), Transferred(t, transfer.value)), Lookup(t));
      var s3 := if transfer.value in s.cache then Step(s2, MapPath(t)) else Step(Step(s2, Store(t, parse.value)), MapPath(t));
      assert s3.list == s.list && s3.paths == s.paths[path := transfer.value];
      assert s3.threads == map[t := if transfer.value in s.cache then HitMapped(transfer.value) else WrittenMapped(transfer.value)];
      hide Step;
      TouchAndEvict(s3, t);
    }
  }

  /** The two steps of TouchLRU with nobody else stepping. */
  lemma {:induction false} TouchAndEvict(s: State, t: Tid)
    requires AboutToTouch(s, t) && s.threads.Keys == {t}
    ensures var s', key := Step(Step(s, Touch(t)), Evict(t)), s.threads[t].hash;
      && s'.list == TouchedList(s.list, key) && s'.cache == TouchedCache(s.list, s.cache, key) && s'.paths == s.paths && s'.threads == map[]
  {
    hide TouchedList, Fronted;
    assert !Locked(s);
  }

  lemma {:induction false} SequentialParts(list: seq<Hash>, cache: map<Hash, Parsed>)
    requires Sequential(list, cache)
    ensures NoDup(list) && |list| <= MAX_CACHE_SIZE && cache.Keys == Elements(list)
  {
  }

  lemma {:induction false} TouchFrontStays(list: seq<Hash>, cache: map<Hash, Parsed>, key: Hash)
    requires NoDup(list) && key in cache
    ensures |TouchedList(list, key)| > 0 && TouchedList(list, key)[0] == key
    ensures key in TouchedCache(list, cache, key) && TouchedCache(list, cache, key)[key] == cache[key]
  {
    FrontedFacts(list, key);
    hide RemoveFirst;
    assert Fronted(list, key)[0] == key;
  }
}
