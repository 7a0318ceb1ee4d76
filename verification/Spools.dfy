/** Spool matching: FindMatchingSpools, TryGetLoadedSpool and TryRematchMatchedSpools. */
module Spools {
  import opened Optional
  import opened Text

  /** A project filament id. */
  type Filament(==, !new)

  /** A colour by its CIELab coordinates. */
  datatype Color = Color(l: real, a: real, b: real)

  datatype Material = Material(name: string, color: Color, profile: string)

  /** A loaded spool; trays are keyed by tray number, and a spool also carries its own number. */
  datatype Spool = Spool(number: int, material: Material)

  /** A material unit with its trays in enumeration order. */
  datatype Unit = Unit(id: string, trays: seq<Spool>)

  type MachineState = seq<Unit>

  datatype Location = Location(muid: string, slot: int)

  /** deltaE is kept as its square. */
  datatype SpoolMatch = SpoolMatch(location: Location, material: Material, deltaE: real)

  const THRESHOLD := 40.0

  /** The square of CIE76 Delta E: comparing squares orders and thresholds as comparing distances does. */
  function DeltaE(x: Color, y: Color): real {
    (y.l - x.l) * (y.l - x.l) + (y.a - x.a) * (y.a - x.a) + (y.b - x.b) * (y.b - x.b)
  }

  predicate SimilarColor(x: Color, y: Color) {
    DeltaE(x, y) <= THRESHOLD * THRESHOLD
  }

  /** Material.IsSimilar, and the test FindMatchingSpools makes of a spool and a required material. */
  predicate Similar(x: Material, y: Material) {
    Fold(x.name) == Fold(y.name) && SimilarColor(x.color, y.color)
  }

  lemma {:induction false} SimilarReflexive(x: Material)
    ensures Similar(x, x)
  {
    assert DeltaE(x.color, x.color) == 0.0;
  }

  /** Similar means: the same name up to case, and at most 40 apart (CIE76 in Lab coordinates, squared). */
  lemma {:induction false} SimilarMeans(x: Material, y: Material)
    ensures Similar(x, y) <==>
      && |x.name| == |y.name| && (forall i | 0 <= i < |x.name| :: SameLetter(x.name[i], y.name[i]))
      && (x.color.l - y.color.l) * (x.color.l - y.color.l) + (x.color.a - y.color.a) * (x.color.a - y.color.a)
         + (x.color.b - y.color.b) * (x.color.b - y.color.b) <= 1600.0
  {
    FoldIgnoresCase(x.name, y.name);
    Square(x.color.l, y.color.l);
    Square(x.color.a, y.color.a);
    Square(x.color.b, y.color.b);
  }

  lemma {:induction false} Square(a: real, b: real)
    ensures (a - b) * (a - b) == (b - a) * (b - a)
  {
  }

  // ---------------------------------------------------------------- loaded spools

  /** The first spool with the given number in one unit. */
  function InTrays(trays: seq<Spool>, slot: int): Option<Material> {
    if trays == [] then None else if trays[0].number == slot then Some(trays[0].material) else InTrays(trays[1..], slot)
  }

  /** TryGetLoadedSpool */
  function Loaded(state: MachineState, at: Location): Option<Material> {
    if state == [] then None
    else
      var here := if state[0].id == at.muid then InTrays(state[0].trays, at.slot) else None;
      if here.Some? then here else Loaded(state[1..], at)
  }

  /** Tray j of unit i is at the location, and no tray before it, in enumeration order, is. */
  predicate FirstAt(state: MachineState, at: Location, i: nat, j: nat) {
    && i < |state| && j < |state[i].trays| && state[i].id == at.muid && state[i].trays[j].number == at.slot
    && (forall l | 0 <= l < j :: state[i].trays[l].number != at.slot)
    && forall k, l | 0 <= k < i && 0 <= l < |state[k].trays| && state[k].id == at.muid :: state[k].trays[l].number != at.slot
  }

  lemma {:induction false} InTraysIsFirst(trays: seq<Spool>, slot: int) returns (j: nat)
    ensures j <= |trays| && (forall l | 0 <= l < j :: trays[l].number != slot)
    ensures if j < |trays| then trays[j].number == slot && InTrays(trays, slot) == Some(trays[j].material) else InTrays(trays, slot) == None
    decreases |trays|
  {
    j := 0;
    if trays != [] && trays[0].number != slot {
      j := InTraysIsFirst(trays[1..], slot);
      j := j + 1;
    }
  }

  /** The loaded spool is the first at its location; none is found when there is none. */
  lemma {:induction false} LoadedIsFirst(state: MachineState, at: Location) returns (i: nat, j: nat)
    ensures if Loaded(state, at).Some? then FirstAt(state, at, i, j) && Loaded(state, at).value == state[i].trays[j].material
            else forall k, l | 0 <= k < |state| && 0 <= l < |state[k].trays| && state[k].id == at.muid :: state[k].trays[l].number != at.slot
    decreases |state|
  {
    i, j := 0, 0;
    if state != [] {
      j := InTraysIsFirst(state[0].trays, at.slot);
      if state[0].id != at.muid || j == |state[0].trays| {
        assert Loaded(state, at) == Loaded(state[1..], at);
        i, j := LoadedIsFirst(state[1..], at);
        i := i + 1;
        assert forall k | 1 <= k < |state| :: state[k] == state[1..][k - 1];
      }
    }
  }

  /** Unit ids are unique, and so are spool numbers within a unit (each equals its tray's key). */
  ghost predicate UniqueLocations(state: MachineState) {
    && (forall i, j | 0 <= i < j < |state| :: state[i].id != state[j].id)
    && (forall i | 0 <= i < |state| :: UniqueNumbers(state[i].trays))
  }

  ghost predicate UniqueNumbers(trays: seq<Spool>) {
    forall j, k | 0 <= j < k < |trays| :: trays[j].number != trays[k].number
  }

  lemma {:induction false} InTraysAt(trays: seq<Spool>, j: nat)
    requires UniqueNumbers(trays) && j < |trays|
    ensures InTrays(trays, trays[j].number) == Some(trays[j].material)
    decreases |trays|
  {
    if j > 0 { InTraysAt(trays[1..], j - 1); }
  }

  /** With unique locations every spool is what TryGetLoadedSpool finds at its location. */
  lemma {:induction false} LoadedAt(state: MachineState, i: nat, j: nat)
    requires UniqueLocations(state) && i < |state| && j < |state[i].trays|
    ensures Loaded(state, Location(state[i].id, state[i].trays[j].number)) == Some(state[i].trays[j].material)
    decreases |state|
  {
    assert UniqueNumbers(state[i].trays);
    if i == 0 { InTraysAt(state[0].trays, j); }
    else {
      assert UniqueLocations(state[1..]) by {
        forall k | 0 <= k < |state[1..]| ensures UniqueNumbers(state[1..][k].trays) { assert UniqueNumbers(state[k + 1].trays); }
      }
      assert state[i] == state[1..][i - 1];
      LoadedAt(state[1..], i - 1, j);
    }
  }

  // ---------------------------------------------------------------- matching

  function MatchOf(unit: string, spool: Spool, wanted: Material): SpoolMatch {
    SpoolMatch(Location(unit, spool.number), spool.material, DeltaE(spool.material.color, wanted.color))
  }

  /** The matching spools of one unit, in tray order. */
  function UnitMatches(unit: string, trays: seq<Spool>, wanted: Material): seq<SpoolMatch> {
    if trays == [] then []
    else
      var spool := trays[|trays| - 1];
      UnitMatches(unit, trays[..|trays| - 1], wanted) + if Similar(spool.material, wanted) then [MatchOf(unit, spool, wanted)] else []
  }

  /** All spools of similar material, in enumeration order. */
  function AllMatches(state: MachineState, wanted: Material): seq<SpoolMatch> {
    if state == [] then []
    else
      var unit := state[|state| - 1];
      AllMatches(state[..|state| - 1], wanted) + UnitMatches(unit.id, unit.trays, wanted)
  }

  /** OrderBy(DeltaE).First(): the earliest of the closest. */
  function Best(ms: seq<SpoolMatch>): SpoolMatch
    requires ms != []
  {
    var last := ms[|ms| - 1];
    if |ms| == 1 then last
    else
      var best := Best(ms[..|ms| - 1]);
      if last.deltaE < best.deltaE then last else best
  }

  datatype Matches = Matches(all: map<Filament, seq<SpoolMatch>>, best: map<Filament, SpoolMatch>, missing: set<Filament>)

  /** FindMatchingSpools */
  function Find(state: MachineState, wanted: map<Filament, Material>): Matches {
    Matches(map f | f in wanted && AllMatches(state, wanted[f]) != [] :: AllMatches(state, wanted[f]),
            map f | f in wanted && AllMatches(state, wanted[f]) != [] :: Best(AllMatches(state, wanted[f])),
            set f | f in wanted && AllMatches(state, wanted[f]) == [])
  }

  ghost predicate IsSpool(state: MachineState, wanted: Material, m: SpoolMatch, i: nat, j: nat) {
    && i < |state| && j < |state[i].trays|
    && Similar(state[i].trays[j].material, wanted) && m == MatchOf(state[i].id, state[i].trays[j], wanted)
  }

  lemma {:induction false} UnitMatchesExact(unit: string, trays: seq<Spool>, wanted: Material, m: SpoolMatch)
    ensures m in UnitMatches(unit, trays, wanted) <==>
      exists j | 0 <= j < |trays| :: Similar(trays[j].material, wanted) && m == MatchOf(unit, trays[j], wanted)
  {
    if trays != [] {
      var init := trays[..|trays| - 1];
      UnitMatchesExact(unit, init, wanted, m);
      hide Similar, MatchOf;
      if j :| 0 <= j < |trays| && Similar(trays[j].material, wanted) && m == MatchOf(unit, trays[j], wanted) {
        if j < |init| { assert init[j] == trays[j]; }
      }
      if m in UnitMatches(unit, init, wanted) {
        var j :| 0 <= j < |init| && Similar(init[j].material, wanted) && m == MatchOf(unit, init[j], wanted);
        assert trays[j] == init[j];
      }
    }
  }

  /** A match is listed for a required material exactly when it is a loaded spool of similar material. */
  lemma {:induction false} MatchesAreExact(state: MachineState, wanted: Material, m: SpoolMatch)
    ensures m in AllMatches(state, wanted) <==> exists i: nat, j: nat :: IsSpool(state, wanted, m, i, j)
  {
    if state != [] {
      var init, unit := state[..|state| - 1], state[|state| - 1];
      MatchesAreExact(init, wanted, m);
      UnitMatchesExact(unit.id, unit.trays, wanted, m);
      hide Similar, MatchOf;
      if i: nat, j: nat :| IsSpool(state, wanted, m, i, j) {
        if i < |init| { assert IsSpool(init, wanted, m, i, j); }
      }
      if i: nat, j: nat :| IsSpool(init, wanted, m, i, j) { assert IsSpool(state, wanted, m, i, j); }
      if m in UnitMatches(unit.id, unit.trays, wanted) {
        var j :| 0 <= j < |unit.trays| && Similar(unit.trays[j].material, wanted) && m == MatchOf(unit.id, unit.trays[j], wanted);
        assert IsSpool(state, wanted, m, |init|, j);
      }
    }
  }

  /** The trays of a unit that hold a similar spool, in order. */
  function UnitPlaces(trays: seq<Spool>, wanted: Material): seq<nat> {
    if trays == [] then []
    else UnitPlaces(trays[..|trays| - 1], wanted) + if Similar(trays[|trays| - 1].material, wanted) then [|trays| - 1] else []
  }

  /** at is the places of all the similar trays, in order, and ms their matches. */
  ghost predicate UnitListed(unit: string, trays: seq<Spool>, wanted: Material, at: seq<nat>, ms: seq<SpoolMatch>) {
    && |at| == |ms| && (forall i, j | 0 <= i < j < |at| :: at[i] < at[j])
    && (forall i | 0 <= i < |at| :: at[i] < |trays| && Similar(trays[at[i]].material, wanted) && ms[i] == MatchOf(unit, trays[at[i]], wanted))
    && forall k: nat | k < |trays| && Similar(trays[k].material, wanted) :: k in at
  }

  /** The matches of one unit are its similar spools, each once, in tray order. */
  lemma {:induction false} UnitMatchesInOrder(unit: string, trays: seq<Spool>, wanted: Material)
    ensures UnitListed(unit, trays, wanted, UnitPlaces(trays, wanted), UnitMatches(unit, trays, wanted))
  {
    hide Similar, MatchOf;
    if trays != [] { UnitMatchesInOrder(unit, trays[..|trays| - 1], wanted); }
  }

  /** ms is the units' lists, one after the other. */
  ghost predicate ListedByUnit(state: MachineState, wanted: Material, ms: seq<SpoolMatch>) {
    if state == [] then ms == []
    else
      var last := state[|state| - 1];
      exists at: seq<nat>, n | 0 <= n <= |ms| :: UnitListed(last.id, last.trays, wanted, at, ms[n..]) && ListedByUnit(state[..|state| - 1], wanted, ms[..n])
  }

  /** The matches of a material are the similar spools, each once, unit by unit in tray order. */
  lemma {:induction false} MatchesInOrder(state: MachineState, wanted: Material)
    ensures ListedByUnit(state, wanted, AllMatches(state, wanted))
  {
    if state != [] {
      var init, unit, ms := state[..|state| - 1], state[|state| - 1], AllMatches(state, wanted);
      MatchesInOrder(init, wanted);
      UnitMatchesInOrder(unit.id, unit.trays, wanted);
      hide UnitListed;
      var n := |AllMatches(init, wanted)|;
      assert ms[..n] == AllMatches(init, wanted) && ms[n..] == UnitMatches(unit.id, unit.trays, wanted);
      assert UnitListed(unit.id, unit.trays, wanted, UnitPlaces(unit.trays, wanted), ms[n..]);
    }
  }

  predicate FirstClosest(ms: seq<SpoolMatch>, i: nat)
    requires i < |ms|
  {
    && (forall k | 0 <= k < i :: ms[k].deltaE > ms[i].deltaE)
    && (forall k | 0 <= k < |ms| :: ms[i].deltaE <= ms[k].deltaE)
  }

  /** The best match is a match, no match is closer, and it is the first of the closest. */
  lemma {:induction false} BestIsFirstClosest(ms: seq<SpoolMatch>)
    requires ms != []
    ensures exists i | 0 <= i < |ms| :: Best(ms) == ms[i] && FirstClosest(ms, i)
    decreases |ms|
  {
    var n := |ms| - 1;
    if n > 0 {
      var init := ms[..n];
      BestIsFirstClosest(init);
      var i :| 0 <= i < |init| && Best(init) == init[i] && FirstClosest(init, i);
      assert forall k | 0 <= k < n :: ms[k] == init[k];
      if ms[n].deltaE < init[i].deltaE { assert Best(ms) == ms[n] && FirstClosest(ms, n); }
      else { assert Best(ms) == ms[i] && FirstClosest(ms, i); }
    } else {
      assert Best(ms) == ms[0] && FirstClosest(ms, 0);
    }
  }

  /** Some loaded spool is similar to the material. */
  ghost predicate HasSimilar(state: MachineState, wanted: Material) {
    exists i, j | 0 <= i < |state| && 0 <= j < |state[i].trays| :: Similar(state[i].trays[j].material, wanted)
  }

  lemma {:induction false} MatchedIffSimilar(state: MachineState, wanted: Material)
    ensures AllMatches(state, wanted) != [] <==> HasSimilar(state, wanted)
  {
    if AllMatches(state, wanted) != [] {
      MatchesAreExact(state, wanted, AllMatches(state, wanted)[0]);
    }
    if HasSimilar(state, wanted) {
      var i, j :| 0 <= i < |state| && 0 <= j < |state[i].trays| && Similar(state[i].trays[j].material, wanted);
      var m := MatchOf(state[i].id, state[i].trays[j], wanted);
      MatchesAreExact(state, wanted, m);
      assert IsSpool(state, wanted, m, i, j);
    }
  }

  /**
   * Every required filament is missing when no loaded spool is similar to its material, and otherwise
   * matched with exactly the similar spools, of which the best is the first of the closest.
   */
  lemma {:induction false} FindPartitions(state: MachineState, wanted: map<Filament, Material>)
    ensures var r := Find(state, wanted);
      && r.all.Keys == r.best.Keys && r.all.Keys !! r.missing && r.all.Keys + r.missing == wanted.Keys
      && (forall f | f in wanted :: f in r.all <==> HasSimilar(state, wanted[f]))
      && (forall f | f in r.all :: r.best[f] in r.all[f] && exists n | 0 <= n < |r.all[f]| :: r.best[f] == r.all[f][n] && FirstClosest(r.all[f], n))
      && forall f, m | f in r.all :: m in r.all[f] <==> exists i: nat, j: nat :: IsSpool(state, wanted[f], m, i, j)
  {
    var r := Find(state, wanted);
    forall f | f in wanted
      ensures f in r.all <==> HasSimilar(state, wanted[f])
      ensures f in r.all ==> r.best[f] in r.all[f] && exists n | 0 <= n < |r.all[f]| :: r.best[f] == r.all[f][n] && FirstClosest(r.all[f], n)
    {
      MatchedIffSimilar(state, wanted[f]);
      hide HasSimilar, AllMatches, Best;
      if f in r.all { BestIsFirstClosest(r.all[f]); }
    }
    forall f, m | f in r.all ensures m in r.all[f] <==> exists i: nat, j: nat :: IsSpool(state, wanted[f], m, i, j) {
      MatchesAreExact(state, wanted[f], m);
    }
  }

  // ---------------------------------------------------------------- rematching

  /** The mapped spool is still loaded where it was recorded, with similar material. */
  predicate StillValid(state: MachineState, m: SpoolMatch) {
    var now := Loaded(state, m.location);
    now.Some? && Similar(m.material, now.value)
  }

  /** The filaments whose mapping no longer holds. */
  function Invalid(state: MachineState, previous: map<Filament, SpoolMatch>): set<Filament> {
    set f | f in previous && !StillValid(state, previous[f])
  }

  /** The required filaments to map again: the invalid ones among the required. */
  function ToRematch(state: MachineState, required: map<Filament, Material>, previous: map<Filament, SpoolMatch>): map<Filament, Material> {
    map f | f in required && f in Invalid(state, previous) :: required[f]
  }

  /** TryRematchMatchedSpools succeeds when each of those has a match. */
  predicate CanRematch(state: MachineState, required: map<Filament, Material>, previous: map<Filament, SpoolMatch>) {
    forall f | f in ToRematch(state, required, previous) :: AllMatches(state, required[f]) != []
  }

  /** A mapping holds exactly when there is a first spool at its location, and it is similar to the recorded one. */
  lemma {:induction false} ValidMeans(state: MachineState, m: SpoolMatch)
    ensures StillValid(state, m) <==> exists i: nat, j: nat :: FirstAt(state, m.location, i, j) && Similar(m.material, state[i].trays[j].material)
  {
    var i, j := LoadedIsFirst(state, m.location);
    hide Similar;
    if Loaded(state, m.location).Some? {
      forall k: nat, l: nat | FirstAt(state, m.location, k, l) ensures k == i && l == j {
        OneFirst(state, m.location, i, j, k, l);
      }
      if StillValid(state, m) { assert FirstAt(state, m.location, i, j) && Similar(m.material, state[i].trays[j].material); }
    }
  }

  lemma {:induction false} OneFirst(state: MachineState, at: Location, i: nat, j: nat, k: nat, l: nat)
    requires FirstAt(state, at, i, j) && FirstAt(state, at, k, l)
    ensures i == k && j == l
  {
  }

  /** Rematching succeeds exactly when every required filament whose mapping no longer holds has a similar spool. */
  lemma {:induction false} CanRematchIff(state: MachineState, required: map<Filament, Material>, previous: map<Filament, SpoolMatch>)
    ensures CanRematch(state, required, previous) <==>
      forall f | f in required && f in previous && !StillValid(state, previous[f]) :: HasSimilar(state, required[f])
  {
    hide StillValid;
    forall f | f in required ensures AllMatches(state, required[f]) != [] <==> HasSimilar(state, required[f]) {
      MatchedIffSimilar(state, required[f]);
    }
    hide AllMatches, HasSimilar;
    forall f | f in required && f in previous && !StillValid(state, previous[f]) ensures f in ToRematch(state, required, previous) {
    }
  }

  /** The map it leaves: the first match of each, everything else as it was; untouched when it fails. */
  function Rematched(state: MachineState, required: map<Filament, Material>, previous: map<Filament, SpoolMatch>): map<Filament, SpoolMatch> {
    if CanRematch(state, required, previous) then
      previous + map f | f in ToRematch(state, required, previous) && AllMatches(state, required[f]) != [] :: AllMatches(state, required[f])[0]
    else previous
  }

  /** Every spool is similar to the one found first at its location: so it is when locations are unique. */
  ghost predicate LocationsAgree(state: MachineState) {
    forall i, j | 0 <= i < |state| && 0 <= j < |state[i].trays| :: FoundSimilar(state, Location(state[i].id, state[i].trays[j].number), state[i].trays[j].material)
  }

  predicate FoundSimilar(state: MachineState, at: Location, material: Material) {
    Loaded(state, at).Some? && Similar(material, Loaded(state, at).value)
  }

  lemma {:induction false} UniqueLocationsAgree(state: MachineState)
    requires UniqueLocations(state)
    ensures LocationsAgree(state)
  {
    forall i, j | 0 <= i < |state| && 0 <= j < |state[i].trays|
      ensures FoundSimilar(state, Location(state[i].id, state[i].trays[j].number), state[i].trays[j].material)
    {
      LoadedAt(state, i, j);
      SimilarReflexive(state[i].trays[j].material);
    }
  }

  // ---------------------------------------------------------------- which spool is offered

  /** Spool j is similar to the material, and no tray before it is. */
  predicate FirstInTrays(trays: seq<Spool>, wanted: Material, j: nat) {
    j < |trays| && Similar(trays[j].material, wanted) && forall k | 0 <= k < j :: !Similar(trays[k].material, wanted)
  }

  predicate NoneInTrays(trays: seq<Spool>, wanted: Material) {
    forall k | 0 <= k < |trays| :: !Similar(trays[k].material, wanted)
  }

  /** Tray j of unit i is the first spool of the machine, in enumeration order, similar to the material. */
  predicate FirstSimilar(state: MachineState, wanted: Material, i: nat, j: nat) {
    i < |state| && FirstInTrays(state[i].trays, wanted, j) && forall k | 0 <= k < i :: NoneInTrays(state[k].trays, wanted)
  }

  lemma {:induction false} UnitMatchesNone(unit: string, trays: seq<Spool>, wanted: Material)
    requires NoneInTrays(trays, wanted)
    ensures UnitMatches(unit, trays, wanted) == []
  {
    hide Similar;
    if trays != [] { UnitMatchesNone(unit, trays[..|trays| - 1], wanted); }
  }

  lemma {:induction false} UnitMatchesFirst(unit: string, trays: seq<Spool>, wanted: Material, j: nat)
    requires FirstInTrays(trays, wanted, j)
    ensures UnitMatches(unit, trays, wanted) != [] && UnitMatches(unit, trays, wanted)[0] == MatchOf(unit, trays[j], wanted)
  {
    hide Similar, MatchOf;
    var init := trays[..|trays| - 1];
    if j < |init| { UnitMatchesFirst(unit, init, wanted, j); } else { UnitMatchesNone(unit, init, wanted); }
  }

  lemma {:induction false} AllMatchesNone(state: MachineState, wanted: Material)
    requires forall k | 0 <= k < |state| :: NoneInTrays(state[k].trays, wanted)
    ensures AllMatches(state, wanted) == []
  {
    hide NoneInTrays;
    if state != [] {
      AllMatchesNone(state[..|state| - 1], wanted);
      UnitMatchesNone(state[|state| - 1].id, state[|state| - 1].trays, wanted);
    }
  }

  /** The first match listed is the first similar spool. */
  lemma {:induction false} AllMatchesFirst(state: MachineState, wanted: Material, i: nat, j: nat)
    requires FirstSimilar(state, wanted, i, j)
    ensures AllMatches(state, wanted) != [] && AllMatches(state, wanted)[0] == MatchOf(state[i].id, state[i].trays[j], wanted)
  {
    hide NoneInTrays, FirstInTrays, MatchOf;
    var init := state[..|state| - 1];
    if i < |init| { AllMatchesFirst(init, wanted, i, j); }
    else {
      AllMatchesNone(init, wanted);
      UnitMatchesFirst(state[i].id, state[i].trays, wanted, j);
    }
  }

  lemma {:induction false} FirstInTraysExists(trays: seq<Spool>, wanted: Material) returns (j: nat)
    requires !NoneInTrays(trays, wanted)
    ensures FirstInTrays(trays, wanted, j)
  {
    hide Similar;
    j := 0;
    while !Similar(trays[j].material, wanted)
      invariant j < |trays| && !NoneInTrays(trays, wanted)
      invariant forall k | 0 <= k < j :: !Similar(trays[k].material, wanted)
      decreases |trays| - j
    {
      j := j + 1;
    }
  }

  /** A required material has a match exactly when some spool is the first similar one. */
  lemma {:induction false} FirstSimilarExists(state: MachineState, wanted: Material) returns (i: nat, j: nat)
    requires AllMatches(state, wanted) != []
    ensures FirstSimilar(state, wanted, i, j)
    decreases |state|
  {
    var n := |state| - 1;
    var init := state[..n];
    if AllMatches(init, wanted) != [] {
      i, j := FirstSimilarExists(init, wanted);
    } else {
      forall k | 0 <= k < n ensures NoneInTrays(state[k].trays, wanted) {
        if !NoneInTrays(state[k].trays, wanted) {
          var l :| 0 <= l < |init[k].trays| && Similar(init[k].trays[l].material, wanted);
          var m := MatchOf(init[k].id, init[k].trays[l], wanted);
          assert IsSpool(init, wanted, m, k, l);
          MatchesAreExact(init, wanted, m);
        }
      }
      i := n;
      if NoneInTrays(state[n].trays, wanted) { UnitMatchesNone(state[n].id, state[n].trays, wanted); }
      j := FirstInTraysExists(state[n].trays, wanted);
    }
  }

  // ---------------------------------------------------------------- soundness

  /** Where spool (i, j) is, a similar material is found: it is not hidden behind another spool. */
  predicate Findable(state: MachineState, i: nat, j: nat) {
    && i < |state| && j < |state[i].trays|
    && FoundSimilar(state, Location(state[i].id, state[i].trays[j].number), state[i].trays[j].material)
  }

  /** For each of the materials, the first similar spool can be found where it is. */
  ghost predicate FirstsFindable(state: MachineState, wanted: map<Filament, Material>) {
    forall f, i: nat, j: nat | f in wanted && FirstSimilar(state, wanted[f], i, j) :: Findable(state, i, j)
  }

  lemma {:induction false} AgreeingIsFindable(state: MachineState, wanted: map<Filament, Material>)
    requires LocationsAgree(state)
    ensures FirstsFindable(state, wanted)
  {
    hide FoundSimilar;
  }

  /** The first match of a material is of that material, and valid exactly when it can be found where it is. */
  lemma {:induction false} FoundIsValid(state: MachineState, wanted: Material, i: nat, j: nat)
    requires FirstSimilar(state, wanted, i, j)
    ensures AllMatches(state, wanted) != [] && Similar(AllMatches(state, wanted)[0].material, wanted)
    ensures StillValid(state, AllMatches(state, wanted)[0]) <==> Findable(state, i, j)
  {
    AllMatchesFirst(state, wanted, i, j);
  }

  /**
   * Rematching is sound.  When it succeeds, valid entries and those of other filaments are unchanged and
   * repaired ones hold the required material; a repaired entry is valid exactly when the first spool
   * similar to the required material can be found where it is.
   */
  lemma {:induction false} RematchIsSound(state: MachineState, required: map<Filament, Material>, previous: map<Filament, SpoolMatch>, f: Filament)
    requires CanRematch(state, required, previous) && f in previous
    ensures var after := Rematched(state, required, previous);
      && f in after && after.Keys == previous.Keys
      && (StillValid(state, previous[f]) || f !in required ==> after[f] == previous[f])
      && (!StillValid(state, previous[f]) && f in required ==>
            && after[f] in AllMatches(state, required[f]) && Similar(after[f].material, required[f])
            && (exists i: nat, j: nat :: FirstSimilar(state, required[f], i, j))
            && forall i: nat, j: nat | FirstSimilar(state, required[f], i, j) :: StillValid(state, after[f]) <==> Findable(state, i, j))
      && (LocationsAgree(state) ==> (StillValid(state, after[f]) <==> StillValid(state, previous[f]) || f in required))
  {
    hide StillValid, Similar, LocationsAgree, FirstSimilar, Findable;
    if f in ToRematch(state, required, previous) {
      var i, j := FirstSimilarExists(state, required[f]);
      forall i: nat, j: nat | FirstSimilar(state, required[f], i, j)
        ensures Similar(AllMatches(state, required[f])[0].material, required[f])
        ensures StillValid(state, AllMatches(state, required[f])[0]) <==> Findable(state, i, j)
      {
        FoundIsValid(state, required[f], i, j);
      }
      if LocationsAgree(state) { AgreeingIsFindable(state, required); }
    }
  }

  /** Every required entry is valid after a successful call exactly when no first similar spool is hidden. */
  lemma {:induction false} RematchRepairsAllIff(state: MachineState, required: map<Filament, Material>, previous: map<Filament, SpoolMatch>)
    requires CanRematch(state, required, previous)
    ensures (forall f | f in previous && f in required :: StillValid(state, Rematched(state, required, previous)[f]))
       <==> FirstsFindable(state, ToRematch(state, required, previous))
  {
    var after, wanted := Rematched(state, required, previous), ToRematch(state, required, previous);
    forall f | f in previous && f in required
      ensures f in after
      ensures StillValid(state, after[f]) <==> (f in wanted ==> forall i: nat, j: nat | FirstSimilar(state, wanted[f], i, j) :: Findable(state, i, j))
    {
      RematchIsSound(state, required, previous, f);
      if f in wanted { var i, j := FirstSimilarExists(state, required[f]); }
    }
    hide Rematched, StillValid, FirstSimilar, Findable, CanRematch;
    assert forall f | f in wanted :: f in previous && f in required;
  }

  /** Two dissimilar spools with one number: the second is offered, and the next check finds the first. */
  lemma {:induction false} SharedLocationMisleads(id: string, number: int, first: Material, second: Material, f: Filament, earlier: SpoolMatch)
    requires !Similar(second, first) && !Similar(first, second) && earlier.location.muid != id
    ensures var state := [Unit(id, [Spool(number, first), Spool(number, second)])];
      var required, previous := map[f := second], map[f := earlier];
      && CanRematch(state, required, previous)
      && !StillValid(state, Rematched(state, required, previous)[f])
  {
    var trays := [Spool(number, first), Spool(number, second)];
    var state := [Unit(id, trays)];
    var required, previous := map[f := second], map[f := earlier];
    SimilarReflexive(second);
    assert trays[..1] == [Spool(number, first)] && trays[..1][..0] == [];
    assert UnitMatches(id, trays[..1], second) == [];
    assert UnitMatches(id, trays, second) == [MatchOf(id, trays[1], second)];
    assert state[..0] == [];
    assert AllMatches(state, second) == [MatchOf(id, trays[1], second)];
    assert state[1..] == [] && Loaded(state, earlier.location) == None;
    assert Loaded(state, Location(id, number)) == Some(first);
    hide Loaded, Similar, AllMatches, DeltaE;
    assert ToRematch(state, required, previous) == required;
  }

  /**
   * A second call after a successful one returns true and changes nothing, in every state; where
   * locations agree, what is still invalid then is exactly what was invalid and not among the required
   * filaments, so nothing when all are required.
   */
  lemma {:induction false} RematchTwice(state: MachineState, required: map<Filament, Material>, previous: map<Filament, SpoolMatch>)
    requires CanRematch(state, required, previous)
    ensures var after := Rematched(state, required, previous);
      && CanRematch(state, required, after) && Rematched(state, required, after) == after
      && (LocationsAgree(state) ==> Invalid(state, after) == Invalid(state, previous) - required.Keys)
  {
    var after := Rematched(state, required, previous);
    AfterKeys(state, required, previous);
    forall f | f in previous
      ensures StillValid(state, previous[f]) || f !in required ==> after[f] == previous[f]
      ensures LocationsAgree(state) ==> (StillValid(state, after[f]) <==> StillValid(state, previous[f]) || f in required)
    {
      RematchIsSound(state, required, previous, f);
    }
    hide StillValid, AllMatches, LocationsAgree;
    var again := Rematched(state, required, after);
    assert ToRematch(state, required, after).Keys <= ToRematch(state, required, previous).Keys;
    assert CanRematch(state, required, after);
    forall f | f in after ensures f in again && again[f] == after[f] {
      if f in ToRematch(state, required, after) { assert f in ToRematch(state, required, previous); }
    }
    AfterKeys(state, required, after);
    assert again == after;
  }

  lemma {:induction false} AfterKeys(state: MachineState, required: map<Filament, Material>, previous: map<Filament, SpoolMatch>)
    ensures Rematched(state, required, previous).Keys == previous.Keys
  {
    hide AllMatches, StillValid;
  }

  lemma {:induction false} SameCondition(state: MachineState, required: map<Filament, Material>, previous: map<Filament, SpoolMatch>)
    ensures var wanted := ToRematch(state, required, previous);
      && (CanRematch(state, required, previous) <==> forall f | f in wanted :: AllMatches(state, wanted[f]) != [])
      && (CanRematch(state, required, previous) ==>
            Rematched(state, required, previous) == previous + map f | f in wanted && AllMatches(state, wanted[f]) != [] :: AllMatches(state, wanted[f])[0])
  {
    hide AllMatches;
  }

  // ---------------------------------------------------------------- the loops

  /** TryGetLoadedSpool */
  method TryGetLoadedSpool(state: MachineState, location: Location) returns (loaded: Option<Material>)
    ensures loaded == Loaded(state, location)
  {
    var i := 0;
    while i < |state|
      invariant i <= |state| && Loaded(state, location) == Loaded(state[i..], location)
    {
      var mu := state[i];
      var j := 0;
      while j < |mu.trays|
        invariant j <= |mu.trays|
        invariant mu.id == location.muid ==> InTrays(mu.trays, location.slot) == InTrays(mu.trays[j..], location.slot)
      {
        assert mu.trays[j..][1..] == mu.trays[j + 1..];
        if mu.id == location.muid && mu.trays[j].number == location.slot { return Some(mu.trays[j].material); }
        j := j + 1;
      }
      assert state[i..][1..] == state[i + 1..];
      i := i + 1;
    }
    loaded := None;
  }

  /** The nested loops of FindMatchingSpools for one required filament. */
  method CollectMatches(state: MachineState, wanted: Material) returns (ms: seq<SpoolMatch>)
    ensures ms == AllMatches(state, wanted)
  {
    ms := [];
    var i := 0;
    while i < |state|
      invariant i <= |state| && ms == AllMatches(state[..i], wanted)
    {
      var mu := state[i];
      ghost var before := ms;
      var j := 0;
      while j < |mu.trays|
        invariant j <= |mu.trays| && ms == before + UnitMatches(mu.id, mu.trays[..j], wanted)
      {
        assert mu.trays[..j + 1][..j] == mu.trays[..j];
        var spool := mu.trays[j];
        if Fold(spool.material.name) == Fold(wanted.name) && SimilarColor(spool.material.color, wanted.color) {
          ms := ms + [SpoolMatch(Location(mu.id, spool.number), spool.material, DeltaE(spool.material.color, wanted.color))];
        }
        j := j + 1;
      }
      assert mu.trays[..j] == mu.trays && state[..i + 1][..i] == state[..i];
      i := i + 1;
    }
    assert state[..i] == state;
  }

  /** FindMatchingSpools */
  method FindMatchingSpools(state: MachineState, wanted: map<Filament, Material>) returns (r: Matches)
    ensures r == Find(state, wanted)
  {
    hide AllMatches, Best;
    var all: map<Filament, seq<SpoolMatch>>, best: map<Filament, SpoolMatch>, missing: set<Filament> := map[], map[], {};
    var todo := wanted.Keys;
    while todo != {}
      invariant todo <= wanted.Keys
      invariant all == map f | f in wanted && f !in todo && AllMatches(state, wanted[f]) != [] :: AllMatches(state, wanted[f])
      invariant best == map f | f in wanted && f !in todo && AllMatches(state, wanted[f]) != [] :: Best(AllMatches(state, wanted[f]))
      invariant missing == set f | f in wanted && f !in todo && AllMatches(state, wanted[f]) == []
      decreases todo
    {
      var f :| f in todo;
      var ms := CollectMatches(state, wanted[f]);
      if ms != [] {
        all := all[f := ms];
        best := best[f := Best(ms)];
      } else {
        missing := missing + {f};
      }
      todo := todo - {f};
    }
    r := Matches(all, best, missing);
  }

  /** A caller's filament-to-spool map, which rematching changes in place. */
  class SpoolMap {
    var map_: map<Filament, SpoolMatch>

    constructor (initial: map<Filament, SpoolMatch>)
      ensures map_ == initial
    {
      map_ := initial;
    }

    /** TryRematchMatchedSpools: atomic, since replacements are confirmed before any is written. */
    method TryRematch(state: MachineState, required: map<Filament, Material>) returns (ok: bool)
      modifies this
      ensures ok <==> CanRematch(state, required, old(map_))
      ensures map_ == Rematched(state, required, old(map_))
      ensures !ok ==> map_ == old(map_)
    {
      hide AllMatches, StillValid, Best;
      var invalid := CollectInvalid(state);
      if invalid == {} {
        assert ToRematch(state, required, map_) == map[];
        assert Rematched(state, required, map_) == map_;
        return true;
      }
      var toRematch := map f | f in required && f in invalid :: required[f];
      assert toRematch == ToRematch(state, required, map_);
      var found := FindMatchingSpools(state, toRematch);
      hide Invalid, Find, ToRematch;
      var confirmed;
      ok, confirmed := ConfirmReplacements(state, toRematch, found);
      SameCondition(state, required, map_);
      if ok { map_ := map_ + confirmed; }
    }

    /** The loop over the filaments to map again: the first match of each, or failure. */
    method ConfirmReplacements(state: MachineState, wanted: map<Filament, Material>, found: Matches)
      returns (ok: bool, confirmed: map<Filament, SpoolMatch>)
      requires found == Find(state, wanted)
      ensures ok <==> forall f | f in wanted :: AllMatches(state, wanted[f]) != []
      ensures ok ==> confirmed == map f | f in wanted && AllMatches(state, wanted[f]) != [] :: AllMatches(state, wanted[f])[0]
    {
      hide AllMatches, Best;
      confirmed := map[];
      var todo := wanted.Keys;
      while todo != {}
        invariant todo <= wanted.Keys && confirmed.Keys == wanted.Keys - todo
        invariant forall f | f in confirmed :: AllMatches(state, wanted[f]) != [] && confirmed[f] == AllMatches(state, wanted[f])[0]
        decreases todo
      {
        var f :| f in todo;
        if f !in found.all { return false, confirmed; }
        confirmed := confirmed[f := found.all[f][0]];
        todo := todo - {f};
      }
      ok := true;
    }

    /** The first loop: which mapped spools no longer match the machine. */
    method CollectInvalid(state: MachineState) returns (invalid: set<Filament>)
      ensures invalid == Invalid(state, map_)
    {
      invalid := {};
      var todo := map_.Keys;
      while todo != {}
        invariant todo <= map_.Keys && invalid == Invalid(state, map_) - todo
        decreases todo
      {
        var f :| f in todo;
        var current := TryGetLoadedSpool(state, map_[f].location);
        if current.None? || !Similar(map_[f].material, current.value) { invalid := invalid + {f}; }
        todo := todo - {f};
      }
    }
  }
}
