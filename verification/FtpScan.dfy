/** The scan loop of BBLFTPConnection: reconciling the known and the failed files with each listing. */
module FtpScan {

  /** Paths up to case: both collections compare with OrdinalIgnoreCase. */
  type Path(==, !new)

  datatype Stamp = Stamp(size: int, modified: int)

  /** One entry of the FTP listing; is3mf says the name ends in .3mf in any case. */
  datatype Item = Item(path: Path, isFile: bool, is3mf: bool, stamp: Stamp)

  datatype Event = Added(path: Path) | Removed(paths: set<Path>)

  /** What the connection remembers since it connected, and the events it has raised. */
  datatype Memory = Memory(known: set<Path>, failed: map<Path, Stamp>, log: seq<Event>)

  const CONNECTED := Memory({}, map[], [])

  // ---------------------------------------------------------------- one pass

  /** currentFiles: a later item of the same path replaces an earlier one. */
  function Current(items: seq<Item>): map<Path, Stamp> {
    if items == [] then map[]
    else
      var item := items[|items| - 1];
      var rest := Current(items[..|items| - 1]);
      if item.isFile && item.is3mf then rest[item.path := item.stamp] else rest
  }

  /** The enumeration order of currentFiles: where each path was first inserted. */
  function Order(items: seq<Item>): seq<Path> {
    if items == [] then []
    else
      var item := items[|items| - 1];
      var rest := Order(items[..|items| - 1]);
      if item.isFile && item.is3mf && item.path !in rest then rest + [item.path] else rest
  }

  /** Known files missing from the listing are forgotten and reported; failed entries of missing files go. */
  function Forget(m: Memory, current: map<Path, Stamp>): Memory {
    var removed := m.known - current.Keys;
    Memory(m.known * current.Keys,
           map p | p in m.failed && p in current :: m.failed[p],
           if removed == {} then m.log else m.log + [Removed(removed)])
  }

  /** Skip known files and files that failed with the same size and time. */
  predicate Wanted(m: Memory, current: map<Path, Stamp>, p: Path)
    requires p in current
  {
    p !in m.known && !(p in m.failed && m.failed[p] == current[p])
  }

  function ToDownload(m: Memory, current: map<Path, Stamp>, order: seq<Path>): seq<Path>
    requires forall p | p in order :: p in current
  {
    if order == [] then []
    else
      var p := order[|order| - 1];
      assert p in order;
      ToDownload(m, current, order[..|order| - 1]) + if Wanted(m, current, p) then [p] else []
  }

  /** One download: success makes the file known, an exception records its stamp. */
  function Attempt(m: Memory, p: Path, stamp: Stamp, ok: bool): Memory {
    if ok then Memory(m.known + {p}, m.failed - {p}, m.log + [Added(p)])
    else m.(failed := m.failed[p := stamp])
  }

  function AttemptAll(m: Memory, current: map<Path, Stamp>, todo: seq<Path>, succeeds: set<Path>): Memory
    requires forall p | p in todo :: p in current
  {
    if todo == [] then m
    else
      var p := todo[|todo| - 1];
      assert p in todo;
      Attempt(AttemptAll(m, current, todo[..|todo| - 1], succeeds), p, current[p], p in succeeds)
  }

  /** The files a pass sets out to download. */
  function Todo(m: Memory, items: seq<Item>): (todo: seq<Path>)
    ensures forall p | p in todo :: p in Current(items)
  {
    OrderIsCurrent(items);
    ToDownloadIn(Forget(m, Current(items)), Current(items), Order(items));
    ToDownload(Forget(m, Current(items)), Current(items), Order(items))
  }

  /** A pass cut by cancellation after `upTo` downloads; complete when there were no more. */
  function Pass(m: Memory, items: seq<Item>, succeeds: set<Path>, upTo: nat): Memory {
    var todo := Todo(m, items);
    var done := if upTo < |todo| then todo[..upTo] else todo;
    AttemptAll(Forget(m, Current(items)), Current(items), done, succeeds)
  }

  lemma {:induction false} OrderIsCurrent(items: seq<Item>)
    ensures forall p :: p in Order(items) <==> p in Current(items)
    ensures forall i, j | 0 <= i < j < |Order(items)| :: Order(items)[i] != Order(items)[j]
  {
    if items != [] { OrderIsCurrent(items[..|items| - 1]); }
  }

  lemma {:induction false} ToDownloadIn(m: Memory, current: map<Path, Stamp>, order: seq<Path>)
    requires forall p | p in order :: p in current
    requires forall i, j | 0 <= i < j < |order| :: order[i] != order[j]
    ensures var todo := ToDownload(m, current, order);
      && (forall p :: p in todo <==> p in order && Wanted(m, current, p))
      && (forall i, j | 0 <= i < j < |todo| :: todo[i] != todo[j])
  {
    if order != [] {
      var init := order[..|order| - 1];
      assert order == init + [order[|order| - 1]];
      ToDownloadIn(m, current, init);
    }
  }

  // ---------------------------------------------------------------- reconciliation

  /** What the downloads did, path by path. */
  lemma {:induction false} AttemptAllAt(m: Memory, current: map<Path, Stamp>, todo: seq<Path>, succeeds: set<Path>, p: Path)
    requires forall q | q in todo :: q in current
    ensures var r := AttemptAll(m, current, todo, succeeds);
      && (p in r.known <==> p in m.known || (p in todo && p in succeeds))
      && (p in r.failed <==> if p in todo then p !in succeeds else p in m.failed)
      && (p in r.failed ==> r.failed[p] == if p in todo then current[p] else m.failed[p])
  {
    if todo != [] {
      var init := todo[..|todo| - 1];
      assert todo == init + [todo[|todo| - 1]];
      AttemptAllAt(m, current, init, succeeds, p);
    }
  }

  /**
   * After every completed pass the known and the failed files are disjoint and together are exactly the
   * listing's .3mf files, and each failed entry carries the current size and time.
   */
  lemma {:induction false} PassReconciles(m: Memory, items: seq<Item>, succeeds: set<Path>, upTo: nat)
    requires m.known !! m.failed.Keys && upTo >= |Todo(m, items)|
    ensures var r, current := Pass(m, items, succeeds, upTo), Current(items);
      && r.known !! r.failed.Keys
      && r.known + r.failed.Keys == current.Keys
      && forall p | p in r.failed :: r.failed[p] == current[p]
  {
    var r, current := Pass(m, items, succeeds, upTo), Current(items);
    var f := Forget(m, current);
    OrderIsCurrent(items);
    ToDownloadIn(f, current, Order(items));
    hide Current, Order, ToDownload, AttemptAll;
    forall p
      ensures !(p in r.known && p in r.failed)
      ensures p in current <==> p in r.known || p in r.failed
      ensures p in r.failed ==> r.failed[p] == current[p]
    {
      AttemptAllAt(f, current, Todo(m, items), succeeds, p);
    }
  }

  // ---------------------------------------------------------------- what a pass does to each path

  /** The listing has the path as a .3mf file; the last such item gives its stamp. */
  ghost predicate ListedAs(items: seq<Item>, p: Path, stamp: Stamp) {
    exists i | 0 <= i < |items| ::
      && items[i].isFile && items[i].is3mf && items[i].path == p && items[i].stamp == stamp
      && forall j | i < j < |items| :: !(items[j].isFile && items[j].is3mf && items[j].path == p)
  }

  lemma {:induction false} CurrentIsListed(items: seq<Item>, p: Path)
    ensures forall stamp :: (p in Current(items) && Current(items)[p] == stamp) <==> ListedAs(items, p, stamp)
  {
    if items != [] {
      var n := |items| - 1;
      var init, item := items[..n], items[n];
      CurrentIsListed(init, p);
      forall stamp ensures (p in Current(items) && Current(items)[p] == stamp) <==> ListedAs(items, p, stamp) {
        if item.isFile && item.is3mf && item.path == p {
          if item.stamp == stamp { assert items[n].stamp == stamp; }
        } else {
          if ListedAs(init, p, stamp) {
            var i :| 0 <= i < |init| && init[i].isFile && init[i].is3mf && init[i].path == p && init[i].stamp == stamp
              && forall j | i < j < |init| :: !(init[j].isFile && init[j].is3mf && init[j].path == p);
            assert items[i] == init[i] && forall j | i < j < n :: items[j] == init[j];
          }
          if ListedAs(items, p, stamp) {
            var i :| 0 <= i < |items| && items[i].isFile && items[i].is3mf && items[i].path == p && items[i].stamp == stamp
              && forall j | i < j < |items| :: !(items[j].isFile && items[j].is3mf && items[j].path == p);
            assert init[i] == items[i] && forall j | i < j < n :: items[j] == init[j];
          }
        }
      }
    }
  }

  /** The downloads raise one event for each file they add. */
  lemma {:induction false} AttemptAllLog(m: Memory, current: map<Path, Stamp>, todo: seq<Path>, succeeds: set<Path>)
    requires forall q | q in todo :: q in current
    ensures var r := AttemptAll(m, current, todo, succeeds);
      && m.log <= r.log
      && (forall j | |m.log| <= j < |r.log| :: r.log[j].Added? && r.log[j].path in todo && r.log[j].path in succeeds)
      && forall p | p in todo && p in succeeds :: Added(p) in r.log[|m.log|..]
  {
    if todo != [] {
      var n := |todo| - 1;
      var init, q := todo[..n], todo[n];
      assert todo == init + [q];
      AttemptAllLog(m, current, init, succeeds);
      var before, r := AttemptAll(m, current, init, succeeds), AttemptAll(m, current, todo, succeeds);
      hide AttemptAll;
      assert r.log == before.log + if q in succeeds then [Added(q)] else [];
      forall p | p in todo && p in succeeds ensures Added(p) in r.log[|m.log|..] {
        assert r.log[|m.log|..] == before.log[|m.log|..] + if q in succeeds then [Added(q)] else [];
      }
    }
  }

  /**
   * A completed pass, path by path: what the listing lacks is forgotten; a known file stays known; a file
   * that failed with the listed size and time is not tried again; any other listed file is tried, and its
   * outcome remembered with that size and time.
   */
  lemma {:induction false} PassOutcome(m: Memory, items: seq<Item>, succeeds: set<Path>, upTo: nat, p: Path, stamp: Stamp)
    requires m.known !! m.failed.Keys && upTo >= |Todo(m, items)|
    ensures var r := Pass(m, items, succeeds, upTo);
      && ((forall t :: !ListedAs(items, p, t)) ==> p !in r.known && p !in r.failed)
      && (ListedAs(items, p, stamp) ==>
            if p in m.known then p in r.known && p !in r.failed
            else if p in m.failed && m.failed[p] == stamp then p !in r.known && p in r.failed && r.failed[p] == stamp
            else if p in succeeds then p in r.known && p !in r.failed
            else p !in r.known && p in r.failed && r.failed[p] == stamp)
  {
    PassAt(m, items, succeeds, upTo, p);
    CurrentIsListed(items, p);
    hide Current, Pass, ListedAs;
    if p in Current(items) { assert ListedAs(items, p, Current(items)[p]); }
  }

  lemma {:induction false} PassAt(m: Memory, items: seq<Item>, succeeds: set<Path>, upTo: nat, p: Path)
    requires m.known !! m.failed.Keys && upTo >= |Todo(m, items)|
    ensures var r, current := Pass(m, items, succeeds, upTo), Current(items);
      if p !in current then p !in r.known && p !in r.failed
      else if p in m.known then p in r.known && p !in r.failed
      else if p in m.failed && m.failed[p] == current[p] then p !in r.known && p in r.failed && r.failed[p] == current[p]
      else if p in succeeds then p in r.known && p !in r.failed
      else p !in r.known && p in r.failed && r.failed[p] == current[p]
  {
    var f := Forget(m, Current(items));
    OrderIsCurrent(items);
    ToDownloadIn(f, Current(items), Order(items));
    AttemptAllAt(f, Current(items), Todo(m, items), succeeds, p);
    hide Current, Order, ToDownload, AttemptAll;
  }

  /**
   * The events of a completed pass: one for all the known files the listing lacks, if any, then one for
   * each file that was added.
   */
  lemma {:induction false} PassEvents(m: Memory, items: seq<Item>, succeeds: set<Path>, upTo: nat)
    requires m.known !! m.failed.Keys && upTo >= |Todo(m, items)|
    ensures var r, missing := Pass(m, items, succeeds, upTo), set p | p in m.known && p !in Current(items);
      var first := |m.log| + if missing == {} then 0 else 1;
      && m.log <= r.log && first <= |r.log| && (missing != {} ==> r.log[|m.log|] == Removed(missing))
      && (forall j | first <= j < |r.log| :: r.log[j].Added? && r.log[j].path in r.known && r.log[j].path !in m.known)
      && forall p | p in r.known && p !in m.known :: Added(p) in r.log[first..]
  {
    var f := Forget(m, Current(items));
    assert m.known - Current(items).Keys == set p | p in m.known && p !in Current(items);
    OrderIsCurrent(items);
    ToDownloadIn(f, Current(items), Order(items));
    AttemptAllLog(f, Current(items), Todo(m, items), succeeds);
    hide Current, Order, ToDownload, AttemptAll;
    forall p ensures p in Todo(m, items) && p in succeeds <==> p in Pass(m, items, succeeds, upTo).known && p !in m.known {
      AttemptAllAt(f, Current(items), Todo(m, items), succeeds, p);
    }
  }

  // ---------------------------------------------------------------- events over runs

  /** The last event about p was that it was added. */
  predicate Present(log: seq<Event>, p: Path) {
    log != [] &&
    var e := log[|log| - 1];
    if e.Added? && e.path == p then true
    else if e.Removed? && p in e.paths then false
    else Present(log[..|log| - 1], p)
  }

  /** Adds and removes alternate for every path, starting with an add. */
  ghost predicate Alternating(log: seq<Event>) {
    log == [] || (
      var init, e := log[..|log| - 1], log[|log| - 1];
      && Alternating(init)
      && (e.Added? ==> !Present(init, e.path))
      && (e.Removed? ==> e.paths != {} && forall p | p in e.paths :: Present(init, p)))
  }

  ghost predicate Inv(m: Memory) {
    && m.known !! m.failed.Keys && Alternating(m.log)
    && forall p :: p in m.known <==> Present(m.log, p)
  }

  lemma {:induction false} ForgetKeepsInv(m: Memory, current: map<Path, Stamp>)
    requires Inv(m)
    ensures Inv(Forget(m, current))
  {
    var f := Forget(m, current);
    var removed := m.known - current.Keys;
    assert forall p | p in m.known :: p in removed || p in f.known;
    if removed != {} { assert f.log == m.log + [Removed(removed)] && f.log[..|f.log| - 1] == m.log; }
  }

  lemma {:induction false} AttemptKeepsInv(m: Memory, p: Path, stamp: Stamp, ok: bool)
    requires Inv(m) && p !in m.known
    ensures Inv(Attempt(m, p, stamp, ok))
  {
    var a := Attempt(m, p, stamp, ok);
    if ok { assert a.log[..|a.log| - 1] == m.log; }
  }

  lemma {:induction false} AttemptAllKeepsInv(m: Memory, current: map<Path, Stamp>, todo: seq<Path>, succeeds: set<Path>)
    requires Inv(m) && forall p | p in todo :: p in current && p !in m.known
    requires forall i, j | 0 <= i < j < |todo| :: todo[i] != todo[j]
    ensures Inv(AttemptAll(m, current, todo, succeeds))
  {
    if todo != [] {
      var init, p := todo[..|todo| - 1], todo[|todo| - 1];
      assert p in todo;
      AttemptAllKeepsInv(m, current, init, succeeds);
      AttemptAllAt(m, current, init, succeeds, p);
      AttemptKeepsInv(AttemptAll(m, current, init, succeeds), p, current[p], p in succeeds);
    }
  }

  datatype Scan = Scan(items: seq<Item>, succeeds: set<Path>, upTo: nat)

  function Scans(scans: seq<Scan>): Memory {
    if scans == [] then CONNECTED
    else
      var s := scans[|scans| - 1];
      Pass(Scans(scans[..|scans| - 1]), s.items, s.succeeds, s.upTo)
  }

  /**
   * Over any run since connecting, completed or cut passes alike, the known files are exactly those
   * whose last event was "added", and adds and removes alternate per path.
   */
  lemma {:induction false} EventsAlternate(scans: seq<Scan>)
    ensures Inv(Scans(scans))
  {
    if scans != [] {
      var m, s := Scans(scans[..|scans| - 1]), scans[|scans| - 1];
      EventsAlternate(scans[..|scans| - 1]);
      PassKeepsInv(m, s.items, s.succeeds, s.upTo);
    }
  }

  lemma {:induction false} PassKeepsInv(m: Memory, items: seq<Item>, succeeds: set<Path>, upTo: nat)
    requires Inv(m)
    ensures Inv(Pass(m, items, succeeds, upTo))
  {
    var f, todo := Forget(m, Current(items)), Todo(m, items);
    ForgetKeepsInv(m, Current(items));
    OrderIsCurrent(items);
    ToDownloadIn(f, Current(items), Order(items));
    hide Current, Order, ToDownload, AttemptAll, Inv;
    var done := if upTo < |todo| then todo[..upTo] else todo;
    assert forall p | p in done :: p in todo;
    AttemptAllKeepsInv(f, Current(items), done, succeeds);
  }

  // ---------------------------------------------------------------- the loop

  class Scanner {
    var knownPaths: set<Path>
    var failedFiles: map<Path, Stamp>
    var raised: seq<Event>

    constructor ()
      ensures View() == CONNECTED
    {
      knownPaths, failedFiles, raised := {}, map[], [];
    }

    function View(): Memory
      reads this
    {
      Memory(knownPaths, failedFiles, raised)
    }

    /** One turn of ScanLoop over a listing, with the outcome of each download; false when it was cancelled. */
    method ScanOnce(items: seq<Item>, succeeds: set<Path>, upTo: nat) returns (completed: bool)
      modifies this
      ensures View() == Pass(old(View()), items, succeeds, upTo)
      ensures completed <==> upTo >= |Todo(old(View()), items)|
    {
      var currentFiles, order := CurrentFiles(items);
      RemoveMissing(currentFiles);
      var toDownload := SelectDownloads(currentFiles, order);
      assert toDownload == Todo(old(View()), items);
      ghost var f := View();
      var i := 0;
      while i < |toDownload|
        invariant i <= |toDownload| && i <= upTo
        invariant View() == AttemptAll(f, currentFiles, toDownload[..i], succeeds)
      {
        if i == upTo { return false; }
        assert toDownload[i] in toDownload;
        assert toDownload[..i + 1][..i] == toDownload[..i];
        var path := toDownload[i];
        if path in succeeds {
          raised := raised + [Added(path)];
          knownPaths := knownPaths + {path};
          failedFiles := failedFiles - {path};
        } else {
          failedFiles := failedFiles[path := currentFiles[path]];
        }
        i := i + 1;
      }
      assert toDownload[..i] == toDownload;
      completed := true;
    }

    /** Detect removed files, then clear the failed entries of removed files. */
    method RemoveMissing(currentFiles: map<Path, Stamp>)
      modifies this
      ensures View() == Forget(old(View()), currentFiles)
    {
      var removed := set p | p in knownPaths && p !in currentFiles;
      ghost var failed := failedFiles;
      if removed != {} {
        knownPaths := knownPaths - removed;
        failedFiles := failedFiles - removed;
        raised := raised + [Removed(removed)];
      }
      var keys := failedFiles.Keys;
      ghost var start := failedFiles;
      while keys != {}
        invariant keys <= start.Keys
        invariant failedFiles == map p | p in start && (p in keys || p in currentFiles) :: start[p]
        invariant knownPaths == old(knownPaths) - removed && raised == if removed == {} then old(raised) else old(raised) + [Removed(removed)]
        decreases keys
      {
        var failedPath :| failedPath in keys;
        if failedPath !in currentFiles { failedFiles := failedFiles - {failedPath}; }
        keys := keys - {failedPath};
      }
      assert removed == old(knownPaths) - currentFiles.Keys;
    }

    method SelectDownloads(currentFiles: map<Path, Stamp>, order: seq<Path>) returns (toDownload: seq<Path>)
      requires forall p | p in order :: p in currentFiles
      ensures toDownload == ToDownload(View(), currentFiles, order)
    {
      toDownload := [];
      var i := 0;
      while i < |order|
        invariant i <= |order| && toDownload == ToDownload(View(), currentFiles, order[..i])
      {
        assert order[i] in order;
        assert order[..i + 1][..i] == order[..i];
        var path := order[i];
        if path !in knownPaths && !(path in failedFiles && failedFiles[path] == currentFiles[path]) {
          toDownload := toDownload + [path];
        }
        i := i + 1;
      }
      assert order[..i] == order;
    }
  }

  /** The loop that fills currentFiles. */
  method CurrentFiles(items: seq<Item>) returns (currentFiles: map<Path, Stamp>, order: seq<Path>)
    ensures currentFiles == Current(items) && order == Order(items)
    ensures forall p | p in order :: p in currentFiles
  {
    currentFiles, order := map[], [];
    var i := 0;
    while i < |items|
      invariant i <= |items| && currentFiles == Current(items[..i]) && order == Order(items[..i])
    {
      assert items[..i + 1][..i] == items[..i];
      if items[i].isFile && items[i].is3mf {
        currentFiles := currentFiles[items[i].path := items[i].stamp];
        if items[i].path !in order { order := order + [items[i].path]; }
      }
      i := i + 1;
    }
    assert items[..i] == items;
    OrderIsCurrent(items);
  }
}
