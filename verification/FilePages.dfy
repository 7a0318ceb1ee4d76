/** The Creality file listing: one pagination cycle, page by page, and the deduplication of its result. */
module FilePages {
  import opened Optional

  const MAX_FILE_PAGES := 200

  /** A 30 second window, in milliseconds. */
  const STALE_AFTER := 30_000

  type Handle(==, !new)
  type Name(==, !new)

  datatype Job = Job(name: Name, handle: Handle)

  /** One element of a page; an entry with neither path nor name is no file. */
  datatype Raw = Nameless | File(job: Job)

  /** ExtractFiles */
  function Extract(raw: seq<Raw>): (files: seq<Job>)
    ensures |files| <= |raw|
  {
    if raw == [] then []
    else Extract(raw[..|raw| - 1]) + if raw[|raw| - 1].File? then [raw[|raw| - 1].job] else []
  }

  lemma {:induction false} ExtractAppend(a: seq<Raw>, b: seq<Raw>)
    ensures Extract(a + b) == Extract(a) + Extract(b)
    decreases |b|
  {
    if b == [] { assert a + b == a; }
    else {
      assert (a + b)[..|a + b| - 1] == a + b[..|b| - 1];
      ExtractAppend(a, b[..|b| - 1]);
    }
  }

  // ---------------------------------------------------------------- the cycle

  /** The pagination fields; firstPageSize is -1 until a non-empty page arrived. */
  datatype Cycle = Cycle(pending: seq<Job>, nextPage: nat, firstPageSize: int, paginating: bool)

  const IDLE := Cycle([], 1, -1, false)
  const STARTED := Cycle([], 1, -1, true)

  /** What a page leads to: the whole list committed, or a request for the next page. */
  datatype Reaction = Commit(files: seq<Job>) | RequestPage(page: nat)

  function HandlePage(c: Cycle, files: seq<Job>): (Cycle, Reaction) {
    var pending := c.pending + files;
    var isShorter := c.firstPageSize > 0 && |files| < c.firstPageSize;
    var first := if c.firstPageSize < 0 && |files| > 0 then |files| else c.firstPageSize;
    if files == [] || isShorter || c.nextPage >= MAX_FILE_PAGES then (IDLE, Commit(pending))
    else (Cycle(pending, c.nextPage + 1, first, c.paginating), RequestPage(c.nextPage + 1))
  }

  /** Page n (from 1) of a printer that lists its raw entries p at a time; empty past the end. */
  function Page(raw: seq<Raw>, p: nat, n: nat): (page: seq<Raw>)
    requires n >= 1
  {
    var from := (n - 1) * p;
    if from >= |raw| then [] else if from + p <= |raw| then raw[from..from + p] else raw[from..]
  }

  /** A cycle from its state on, with in-order replies: the committed list and the number of pages requested in all. */
  function CycleResult(c: Cycle, raw: seq<Raw>, p: nat): (seq<Job>, nat)
    requires c.nextPage >= 1
    decreases MAX_FILE_PAGES - c.nextPage
  {
    var (next, reaction) := HandlePage(c, Extract(Page(raw, p, c.nextPage)));
    if reaction.Commit? then (reaction.files, c.nextPage)
    else CycleResult(next, raw, p)
  }

  /** The first page ends the list early when it is empty of files, and a later one when it has fewer files than the first. */
  predicate EndsAt(raw: seq<Raw>, p: nat, n: nat)
    requires n >= 1
  {
    var files, first := |Extract(Page(raw, p, n))|, |Extract(Page(raw, p, 1))|;
    files == 0 || files < first || n >= MAX_FILE_PAGES
  }

  /** The files of pages 1..n. */
  function FilesUpTo(raw: seq<Raw>, p: nat, n: nat): seq<Job> {
    Extract(raw[..Covered(raw, p, n)])
  }

  lemma {:induction false} NextPageFiles(raw: seq<Raw>, p: nat, n: nat)
    ensures FilesUpTo(raw, p, n + 1) == FilesUpTo(raw, p, n) + Extract(Page(raw, p, n + 1))
  {
    var upTo := (n + 1) * p;
    assert upTo == n * p + p;
    var a, b := raw[..Covered(raw, p, n)], Page(raw, p, n + 1);
    assert raw[..Covered(raw, p, n + 1)] == a + b;
    ExtractAppend(a, b);
  }

  /** The state of a cycle that is about to receive page n. */
  predicate Awaiting(c: Cycle, raw: seq<Raw>, p: nat, n: nat) {
    && 1 <= n <= MAX_FILE_PAGES && c.nextPage == n && c.paginating
    && c.pending == FilesUpTo(raw, p, n - 1)
    && (if n == 1 then c.firstPageSize == -1 else c.firstPageSize == |Extract(Page(raw, p, 1))| > 0)
  }

  /**
   * Every cycle ends within MaxFilePages requests, at the first page that ends it, and commits the files
   * of exactly the pages received.
   */
  lemma {:induction false} CycleEndsAtFirstEnd(c: Cycle, raw: seq<Raw>, p: nat, n: nat)
    requires Awaiting(c, raw, p, n)
    ensures var (files, last) := CycleResult(c, raw, p);
      && n <= last <= MAX_FILE_PAGES && EndsAt(raw, p, last) && (forall k | n <= k < last :: !EndsAt(raw, p, k))
      && files == FilesUpTo(raw, p, last)
    decreases MAX_FILE_PAGES - n
  {
    hide Page, Extract;
    NextPageFiles(raw, p, n - 1);
    hide FilesUpTo;
    var (next, reaction) := HandlePage(c, Extract(Page(raw, p, n)));
    if reaction.RequestPage? {
      CycleEndsAtFirstEnd(next, raw, p, n + 1);
    }
  }

  lemma {:induction false} StartedAwaits(raw: seq<Raw>, p: nat)
    ensures Awaiting(STARTED, raw, p, 1)
  {
    assert raw[..0] == [];
    assert FilesUpTo(raw, p, 0) == [];
  }

  /** The page at which a fresh cycle stops. */
  function LastPage(raw: seq<Raw>, p: nat): nat {
    CycleResult(STARTED, raw, p).1
  }

  /** How many of the raw entries the first n pages hold. */
  function Covered(raw: seq<Raw>, p: nat, n: nat): (cut: nat)
    ensures cut <= |raw|
  {
    if n * p <= |raw| then n * p else |raw|
  }

  /** A fresh cycle stops at the first page that ends it and commits the files up to there. */
  lemma {:induction false} CommitsPrefix(raw: seq<Raw>, p: nat)
    ensures var last := LastPage(raw, p);
      && 1 <= last <= MAX_FILE_PAGES && EndsAt(raw, p, last) && (forall k | 1 <= k < last :: !EndsAt(raw, p, k))
      && CycleResult(STARTED, raw, p).0 == Extract(raw[..Covered(raw, p, last)])
      && (CycleResult(STARTED, raw, p).0 == Extract(raw) <==> Extract(raw[Covered(raw, p, last)..]) == [])
  {
    StartedAwaits(raw, p);
    CycleEndsAtFirstEnd(STARTED, raw, p, 1);
    hide CycleResult, EndsAt, Page, Extract;
    var cut := Covered(raw, p, LastPage(raw, p));
    hide Covered;
    PrefixIsWholeIff(raw, cut);
  }

  /** Every page with a file beyond it is full enough for the cycle to go on: a condition on the list alone. */
  ghost predicate NoEarlyEnd(raw: seq<Raw>, p: nat) {
    forall n: nat | 1 <= n && Extract(raw[Covered(raw, p, n)..]) != [] :: !EndsAt(raw, p, n)
  }

  /** The whole list is committed exactly when no page ends the cycle while a file lies beyond it. */
  lemma {:induction false} CompleteIff(raw: seq<Raw>, p: nat)
    ensures CycleResult(STARTED, raw, p).0 == Extract(raw) <==> NoEarlyEnd(raw, p)
  {
    CommitsPrefix(raw, p);
    hide CycleResult, EndsAt, Page, Extract, Covered;
    var last := LastPage(raw, p);
    hide LastPage;
    if Extract(raw[Covered(raw, p, last)..]) == [] {
      forall n: nat | 1 <= n && Extract(raw[Covered(raw, p, n)..]) != [] ensures !EndsAt(raw, p, n) {
        if n >= last { NothingBeyond(raw, p, last, n); }
      }
    }
  }

  lemma {:induction false} NothingBeyond(raw: seq<Raw>, p: nat, m: nat, n: nat)
    requires m <= n && Extract(raw[Covered(raw, p, m)..]) == []
    ensures Extract(raw[Covered(raw, p, n)..]) == []
  {
    Increasing(m, n, p);
    hide Extract;
    var a, b := Covered(raw, p, m), Covered(raw, p, n);
    assert raw[a..] == raw[a..b] + raw[b..];
    ExtractAppend(raw[a..b], raw[b..]);
  }

  lemma {:induction false} PrefixIsWholeIff(raw: seq<Raw>, cut: nat)
    requires cut <= |raw|
    ensures Extract(raw[..cut]) == Extract(raw) <==> Extract(raw[cut..]) == []
  {
    ExtractAppend(raw[..cut], raw[cut..]);
    assert raw[..cut] + raw[cut..] == raw;
  }

  predicate AllNamed(raw: seq<Raw>) {
    forall i | 0 <= i < |raw| :: raw[i].File?
  }

  lemma {:induction false} NamedLength(raw: seq<Raw>)
    requires AllNamed(raw)
    ensures |Extract(raw)| == |raw| && forall i | 0 <= i < |raw| :: Extract(raw)[i] == raw[i].job
  {
    if raw != [] { NamedLength(raw[..|raw| - 1]); }
  }

  /** Sizes of the pages of a list of n files. */
  lemma {:induction false} PageSize(raw: seq<Raw>, p: nat, n: nat)
    requires n >= 1 && p >= 1 && AllNamed(raw)
    ensures |Extract(Page(raw, p, n))| == if n * p <= |raw| then p else if (n - 1) * p <= |raw| then |raw| - (n - 1) * p else 0
  {
    assert n * p == (n - 1) * p + p;
    NamedLength(Page(raw, p, n));
  }

  /** A cycle over named files that stops before the limit stopped at a short page, the last of the list. */
  lemma {:induction false} StopsPastTheEnd(raw: seq<Raw>, p: nat, last: nat)
    requires p >= 1 && AllNamed(raw) && 1 <= last < MAX_FILE_PAGES && EndsAt(raw, p, last)
    ensures last * p > |raw| && last * p <= MAX_FILE_PAGES * p
  {
    PageSize(raw, p, last);
    PageSize(raw, p, 1);
    hide Page, Extract;
    assert |Extract(Page(raw, p, last))| < p || |Extract(Page(raw, p, last))| == 0;
    Increasing(last, MAX_FILE_PAGES, p);
  }

  lemma {:induction false} Increasing(a: nat, b: nat, p: nat)
    requires a <= b
    ensures a * p <= b * p
  {
    assert b * p == a * p + (b - a) * p;
  }

  /**
   * For every list of named files and every page size, the whole list is committed, in order, exactly
   * when it fits in MaxFilePages pages; otherwise its first MaxFilePages pages are.
   */
  lemma {:induction false} NamedListIsComplete(raw: seq<Raw>, p: nat)
    requires p >= 1 && AllNamed(raw)
    ensures var files := CycleResult(STARTED, raw, p).0;
      && (files == Extract(raw) <==> |raw| <= 200 * p)
      && (|raw| > 200 * p ==> files == Extract(raw[..200 * p]))
  {
    CommitsPrefix(raw, p);
    hide CycleResult, Extract;
    CoveredByCycle(raw, p);
    hide LastPage, EndsAt, Page;
    var cut := Covered(raw, p, LastPage(raw, p));
    assert raw[..|raw|] == raw;
    NamedLength(raw[cut..]);
  }

  /** A cycle over named files receives all of them, or MaxFilePages full pages. */
  lemma {:induction false} CoveredByCycle(raw: seq<Raw>, p: nat)
    requires p >= 1 && AllNamed(raw)
    ensures Covered(raw, p, LastPage(raw, p)) == if |raw| <= MAX_FILE_PAGES * p then |raw| else MAX_FILE_PAGES * p
  {
    CommitsPrefix(raw, p);
    hide CycleResult, EndsAt, Page, Extract, LastPage;
    var last := LastPage(raw, p);
    if last < MAX_FILE_PAGES { StopsPastTheEnd(raw, p, last); }
  }

  /** The promise fails for a list with a nameless entry: this one loses its last two files. */
  lemma {:induction false} NamelessEntryTruncates(a: Job, b: Job, c: Job, d: Job)
    ensures var raw := [File(a), File(b), File(c), Nameless, File(d), File(d)];
      CycleResult(STARTED, raw, 2).0 == [a, b, c] && Extract(raw) == [a, b, c, d, d]
  {
    var raw := [File(a), File(b), File(c), Nameless, File(d), File(d)];
    assert Page(raw, 2, 1) == [File(a), File(b)] && Page(raw, 2, 2) == [File(c), Nameless];
    ExtractTwo(File(a), File(b));
    ExtractTwo(File(c), Nameless);
    ExtractTwo(File(d), File(d));
    assert raw == ([File(a), File(b)] + [File(c), Nameless]) + [File(d), File(d)];
    ExtractAppend([File(a), File(b)], [File(c), Nameless]);
    ExtractAppend([File(a), File(b)] + [File(c), Nameless], [File(d), File(d)]);
    var c1 := HandlePage(STARTED, [a, b]).0;
    assert c1 == Cycle([a, b], 2, 2, true);
    assert HandlePage(c1, [c]).1 == Commit([a, b, c]);
  }

  lemma {:induction false} ExtractTwo(x: Raw, y: Raw)
    ensures Extract([x, y]) == (if x.File? then [x.job] else []) + (if y.File? then [y.job] else [])
  {
    assert [x, y][..1] == [x] && [x][..0] == [];
    assert Extract([x]) == (if x.File? then [x.job] else []);
  }

  // ---------------------------------------------------------------- deduplication

  /** The first job of each handle, in order. */
  function Dedup(files: seq<Job>): seq<Job> {
    if files == [] then []
    else
      var init, job := files[..|files| - 1], files[|files| - 1];
      Dedup(init) + if job.handle in Handles(init) then [] else [job]
  }

  function Handles(files: seq<Job>): set<Handle> {
    set i | 0 <= i < |files| :: files[i].handle
  }

  /** job i is the first of its handle. */
  predicate IsFirst(files: seq<Job>, i: nat)
    requires i < |files|
  {
    forall k | 0 <= k < i :: files[k].handle != files[i].handle
  }

  lemma {:induction false} HandlesAppend(files: seq<Job>, job: Job)
    ensures Handles(files + [job]) == Handles(files) + {job.handle}
  {
    var r := files + [job];
    forall h | h in Handles(files) + {job.handle} ensures h in Handles(r) {
      if h == job.handle { assert r[|files|].handle == h; }
      else { var i :| 0 <= i < |files| && files[i].handle == h; assert r[i].handle == h; }
    }
  }

  /** Deduplication loses no handle and repeats none. */
  lemma {:induction false} DedupHandles(files: seq<Job>)
    ensures Handles(Dedup(files)) == Handles(files)
    ensures forall i, j | 0 <= i < j < |Dedup(files)| :: Dedup(files)[i].handle != Dedup(files)[j].handle
  {
    if files != [] {
      var init, job := files[..|files| - 1], files[|files| - 1];
      DedupHandles(init);
      assert files == init + [job];
      HandlesAppend(init, job);
      var d := Dedup(init);
      HandlesAppend(d, job);
      DedupStep(files);
      hide Dedup;
      assert forall i | 0 <= i < |d| :: d[i].handle in Handles(d);
      if job.handle in Handles(init) {
        assert Dedup(files) == d;
      } else {
        assert Dedup(files) == d + [job];
        assert forall i | 0 <= i < |d| :: d[i].handle != job.handle;
      }
    }
  }

  /** The places of the first jobs of each handle. */
  function FirstPlaces(files: seq<Job>): seq<nat> {
    if files == [] then []
    else
      var n := |files| - 1;
      FirstPlaces(files[..n]) + if files[n].handle in Handles(files[..n]) then [] else [n]
  }

  /** Deduplication keeps the first job of each handle, in the order of the list. */
  lemma {:induction false} DedupKeepsFirsts(files: seq<Job>)
    ensures Selects(files, FirstPlaces(files), Dedup(files))
  {
    if files != [] {
      var n := |files| - 1;
      var init, job := files[..n], files[n];
      DedupKeepsFirsts(init);
      var at, d := FirstPlaces(init), Dedup(init);
      assert files == init + [job];
      SelectsLonger(init, job, at, d);
      if job.handle !in Handles(init) {
        forall k | 0 <= k < n ensures init[k].handle != job.handle { assert init[k].handle in Handles(init); }
        SelectsNew(init, job, at, d);
      }
      hide Selects;
    }
  }

  lemma {:induction false} SelectsLonger(init: seq<Job>, job: Job, at: seq<nat>, r: seq<Job>)
    requires Selects(init, at, r)
    ensures Selects(init + [job], at, r)
  {
    forall k | 0 <= k < |at| ensures IsFirst(init + [job], at[k]) { assert IsFirst(init, at[k]); }
  }

  lemma {:induction false} SelectsNew(init: seq<Job>, job: Job, at: seq<nat>, r: seq<Job>)
    requires Selects(init + [job], at, r) && Selects(init, at, r)
    requires forall k | 0 <= k < |init| :: init[k].handle != job.handle
    ensures Selects(init + [job], at + [|init|], r + [job])
  {
    assert IsFirst(init + [job], |init|);
  }

  lemma {:induction false} DedupStep(files: seq<Job>)
    requires files != []
    ensures var init, job := files[..|files| - 1], files[|files| - 1];
      Dedup(files) == Dedup(init) + if job.handle in Handles(init) then [] else [job]
  {
  }

  /** r is the jobs of files at increasing places `at`, each the first of its handle. */
  ghost predicate Selects(files: seq<Job>, at: seq<nat>, r: seq<Job>) {
    && |at| == |r|
    && (forall k | 0 <= k < |at| :: at[k] < |files| && r[k] == files[at[k]] && IsFirst(files, at[k]))
    && (forall k, l | 0 <= k < l < |at| :: at[k] < at[l])
  }

  // ---------------------------------------------------------------- the connection

  class CrealityK1CConnection {
    var pendingFiles: seq<Job>
    var nextFilePage: nat
    var firstPageSize: int
    var paginatingFiles: bool
    var lastActivity: int

    constructor ()
      ensures View() == IDLE
    {
      pendingFiles, nextFilePage, firstPageSize, paginatingFiles := [], 1, -1, false;
      lastActivity := 0;
    }

    function View(): Cycle
      reads this
    {
      Cycle(pendingFiles, nextFilePage, firstPageSize, paginatingFiles)
    }

    /** SendGetFilesAndHistoryAsync: start a cycle unless one is active and fresh; page 1 is then requested. */
    method SendGetFilesAndHistory(now: int) returns (requested: Option<nat>)
      modifies this
      ensures old(paginatingFiles) && now - old(lastActivity) < 30_000 ==>
        requested == None && View() == old(View()) && lastActivity == old(lastActivity)
      ensures !(old(paginatingFiles) && now - old(lastActivity) < 30_000) ==>
        requested == Some(1) && View() == STARTED && lastActivity == now
    {
      if paginatingFiles && now - lastActivity < STALE_AFTER { return None; }
      pendingFiles, nextFilePage, firstPageSize, paginatingFiles := [], 1, -1, true;
      lastActivity := now;
      requested := Some(1);
    }

    /** HandleFilePage */
    method HandleFilePage(page: seq<Raw>, now: int) returns (reaction: Reaction)
      modifies this
      ensures (View(), reaction) == HandlePage(old(View()), Extract(page)) && lastActivity == now
      ensures var files := Extract(page);
        reaction.Commit? <==> files == [] || (old(firstPageSize) > 0 && |files| < old(firstPageSize)) || old(nextFilePage) >= 200
      ensures reaction.Commit? ==>
        reaction.files == old(pendingFiles) + Extract(page) && pendingFiles == [] && nextFilePage == 1 && firstPageSize == -1 && !paginatingFiles
      ensures !reaction.Commit? ==> (
        && reaction.page == nextFilePage == old(nextFilePage) + 1 && pendingFiles == old(pendingFiles) + Extract(page)
        && firstPageSize == (if old(firstPageSize) < 0 then |Extract(page)| else old(firstPageSize)) && paginatingFiles == old(paginatingFiles))
    {
      var pageFiles := ExtractFiles(page);
      pendingFiles := pendingFiles + pageFiles;
      lastActivity := now;
      var isEmpty := |pageFiles| == 0;
      var isShorterThanFirstPage := firstPageSize > 0 && |pageFiles| < firstPageSize;
      var hitMax := nextFilePage >= MAX_FILE_PAGES;
      if firstPageSize < 0 && |pageFiles| > 0 { firstPageSize := |pageFiles|; }
      if isEmpty || isShorterThanFirstPage || hitMax {
        reaction := Commit(pendingFiles);
        pendingFiles, nextFilePage, firstPageSize, paginatingFiles := [], 1, -1, false;
      } else {
        nextFilePage := nextFilePage + 1;
        reaction := RequestPage(nextFilePage);
      }
    }

    /** The dedup loop of CommitFileList. */
    method DedupLoop(files: seq<Job>) returns (deduped: seq<Job>)
      ensures deduped == Dedup(files)
    {
      var seen: set<Handle> := {};
      deduped := [];
      var i := 0;
      while i < |files|
        invariant i <= |files| && seen == Handles(files[..i]) && deduped == Dedup(files[..i])
      {
        assert files[..i + 1][..i] == files[..i] && files[..i + 1] == files[..i] + [files[i]];
        HandlesAppend(files[..i], files[i]);
        if files[i].handle !in seen { deduped := deduped + [files[i]]; }
        seen := seen + {files[i].handle};
        i := i + 1;
      }
      assert files[..i] == files;
    }
  }

  /** The loop of ExtractFiles. */
  method ExtractFiles(raw: seq<Raw>) returns (files: seq<Job>)
    ensures files == Extract(raw)
  {
    files := [];
    var i := 0;
    while i < |raw|
      invariant i <= |raw| && files == Extract(raw[..i])
    {
      assert raw[..i + 1][..i] == raw[..i];
      if raw[i].File? { files := files + [raw[i].job]; }
      i := i + 1;
    }
    assert raw[..i] == raw;
  }

  /** Driving a connection through one cycle, replies in order: what CommitFileList receives. */
  method RunCycle(raw: seq<Raw>, p: nat, now: int) returns (files: seq<Job>, requests: nat)
    ensures (files, requests) == CycleResult(STARTED, raw, p)
    ensures requests <= 200
  {
    var connection := new CrealityK1CConnection();
    var page := connection.SendGetFilesAndHistory(now);
    assert connection.View() == STARTED;
    StartedAwaits(raw, p);
    CycleEndsAtFirstEnd(STARTED, raw, p, 1);
    var n := 1;
    while true
      invariant 1 <= n <= MAX_FILE_PAGES && connection.View().nextPage == n
      invariant CycleResult(connection.View(), raw, p) == CycleResult(STARTED, raw, p)
      decreases MAX_FILE_PAGES - n
    {
      var reaction := connection.HandleFilePage(Page(raw, p, n), now);
      if reaction.Commit? { return reaction.files, n; }
      n := reaction.page;
    }
  }
}
