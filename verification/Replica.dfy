/**
 * Runs of commits and the replicas that follow them: a subscriber is registered, later reads a full
 * state, and replays every diff broadcast since its registration.
 */
module Replica {
  import opened Optional
  import opened Schema
  import opened DiffEngine
  import opened ReplayExact

  // ---------------------------------------------------------------- betweenness

  /**
   * Every leaf of t holds what s holds there or what g holds there.  While a replica seeded with a
   * later state g replays the diffs that led up to g, it stays between the server's state s and g.
   * An entry that g does not have may be anything as long as s has it: the run will remove it.
   */
  ghost predicate Between(k: Kind, s: Value, t: Value, g: Value)
    decreases k, 0
  {
    match k
    case Scalar(_, _, _) => t == s || t == g
    case Dict => s.Plain? && t.Plain? && g.Plain? && forall x ::
      PlainAt(t.m, x) == PlainAt(s.m, x) || PlainAt(t.m, x) == PlainAt(g.m, x)
    case Set => s.Elems? && t.Elems? && g.Elems? && s.s * g.s <= t.s <= s.s + g.s
    case DictOf(entry, _) => s.Entries? && t.Entries? && g.Entries? && forall x ::
      BetweenCells(entry, At(s.e, x), At(t.e, x), At(g.e, x))
    case Nested(inner, _) => s.Sub? && t.Sub? && g.Sub? && BetweenCells(inner, s.o, t.o, g.o)
    case Object(props) =>
      && s.Obj? && t.Obj? && g.Obj? && s.fields.Keys == props.Keys && t.fields.Keys == props.Keys && g.fields.Keys == props.Keys
      && forall p | p in props :: Between(props[p], s.fields[p], t.fields[p], g.fields[p])
  }

  /** The same for a place that may be empty: a filled place is compared inside only when all three are filled. */
  ghost predicate BetweenCells(k: Kind, s: Option<Value>, t: Option<Value>, g: Option<Value>)
    decreases k, 1
  {
    if g.None? then s.None? ==> t.None?
    else if s.Some? && t.Some? then Between(k, s.value, t.value, g.value)
    else t == s || t == g
  }

  function PlainAt(m: map<Atom, Atom>, x: Atom): Option<Atom> {
    if x in m then Some(m[x]) else None
  }

  lemma {:induction false} SeededBetween(k: Kind, s: Value, g: Value)
    requires Fits(k, s) && Fits(k, g)
    ensures Between(k, s, g, g)
    decreases k
  {
    match k {
      case DictOf(entry, _) =>
        forall x ensures BetweenCells(entry, At(s.e, x), At(g.e, x), At(g.e, x)) {
          if x in s.e && x in g.e { SeededBetween(entry, s.e[x], g.e[x]); }
        }
      case Nested(inner, _) => if s.o.Some? && g.o.Some? { SeededBetween(inner, s.o.value, g.o.value); }
      case Object(props) =>
        forall p | p in props ensures Between(props[p], s.fields[p], g.fields[p], g.fields[p]) {
          SeededBetween(props[p], s.fields[p], g.fields[p]);
        }
      case _ =>
    }
  }

  lemma {:induction false} SameBetween(k: Kind, s: Value, g: Value)
    requires Fits(k, s) && Fits(k, g)
    ensures Between(k, s, s, g)
    decreases k
  {
    match k {
      case DictOf(entry, _) =>
        forall x ensures BetweenCells(entry, At(s.e, x), At(s.e, x), At(g.e, x)) {
          if x in s.e && x in g.e { SameBetween(entry, s.e[x], g.e[x]); }
        }
      case Nested(inner, _) => if s.o.Some? && g.o.Some? { SameBetween(inner, s.o.value, g.o.value); }
      case Object(props) =>
        forall p | p in props ensures Between(props[p], s.fields[p], s.fields[p], g.fields[p]) {
          SameBetween(props[p], s.fields[p], g.fields[p]);
        }
      case _ =>
    }
  }

  lemma {:induction false} BetweenEqualEnds(k: Kind, t: Value, g: Value)
    requires Fits(k, g) && Between(k, g, t, g)
    ensures t == g
    decreases k
  {
    match k {
      case Dict =>
        forall x ensures x in t.m <==> x in g.m ensures x in t.m ==> t.m[x] == g.m[x] {
          assert PlainAt(t.m, x) == PlainAt(g.m, x);
        }
        assert t.m == g.m;
      case DictOf(entry, _) =>
        forall x ensures At(t.e, x) == At(g.e, x) {
          assert BetweenCells(entry, At(g.e, x), At(t.e, x), At(g.e, x));
          if x in t.e && x in g.e { BetweenEqualEnds(entry, t.e[x], g.e[x]); }
        }
        SameEntries(t.e, g.e);
      case Nested(inner, _) => if t.o.Some? && g.o.Some? { BetweenEqualEnds(inner, t.o.value, g.o.value); }
      case Object(props) =>
        forall p | p in props ensures t.fields[p] == g.fields[p] {
          BetweenEqualEnds(props[p], t.fields[p], g.fields[p]);
        }
        assert t.fields == g.fields;
      case _ =>
    }
  }

  /** Replaying a diff of the server's state on both sides keeps the replica between that state and g. */
  lemma {:induction false} BetweenStep(k: Kind, u: Update, s: Value, t: Value, g: Value)
    requires WellFormed(k) && FitsUpdate(k, u) && Fits(k, s) && Fits(k, g) && Between(k, s, t, g)
    ensures Between(k, Replay(Changes(k, u, s), s), Replay(Changes(k, u, s), t), g)
    decreases k, 0
  {
    var d := Changes(k, u, s);
    match k {
      case Scalar(_, _, _) =>
      case Dict => if u.UpdPlain? { PlainStep(u, s, t, g); }
      case Set =>
      case DictOf(entry, key) =>
        if u.UpdEntries? {
          TouchedBetween(entry, key, u, s.e, t.e, g.e);
          BornBetween(entry, key, u, s.e, g.e);
          EntriesStep(entry, d, s, t, g);
        }
      case Nested(inner, mandatory) =>
        if u.UpdSub? {
          if s.o.Some? && t.o.Some? && g.o.Some? { BetweenStep(inner, u.sub, s.o.value, t.o.value, g.o.value); }
          NestedStep(inner, mandatory, u.sub, s.o, t.o, g.o);
        }
      case Object(props) =>
        forall p | p in props
          ensures var e := Changes(props[p], Part(u.parts, p), s.fields[p]);
            Between(props[p], Replay(e, s.fields[p]), Replay(e, t.fields[p]), g.fields[p])
        {
          BetweenStep(props[p], Part(u.parts, p), s.fields[p], t.fields[p], g.fields[p]);
        }
        ObjectStep(props, u, s, t, g);
    }
  }

  lemma {:induction false} TouchedBetween(
      entry: Kind, key: Option<Property>, u: Update, s: map<Atom, Value>, t: map<Atom, Value>, g: map<Atom, Value>)
    requires WellFormed(DictOf(entry, key)) && FitsUpdate(DictOf(entry, key), u) && u.UpdEntries?
    requires Fits(DictOf(entry, key), Entries(s)) && Fits(DictOf(entry, key), Entries(g))
    requires Between(DictOf(entry, key), Entries(s), Entries(t), Entries(g))
    ensures var d := Changes(DictOf(entry, key), u, Entries(s));
      forall x | x in d.touched && x in t && x in g ::
        Between(entry, Replay(d.touched[x], s[x]), Replay(d.touched[x], t[x]), g[x])
    decreases entry, 1
  {
    forall x | x in s && x in t && x in g && x in u.upd
      ensures var e := Changes(entry, Keyed(key, x, u.upd[x]), s[x]);
        Between(entry, Replay(e, s[x]), Replay(e, t[x]), g[x])
    {
      assert BetweenCells(entry, At(s, x), At(t, x), At(g, x));
      KeyedFits(entry, key, x, u.upd[x]);
      BetweenStep(entry, Keyed(key, x, u.upd[x]), s[x], t[x], g[x]);
    }
  }

  lemma {:induction false} NestedStep(inner: Kind, mandatory: bool, sub: Update, s: Option<Value>, t: Option<Value>, g: Option<Value>)
    requires BetweenCells(inner, s, t, g)
    requires s.Some? && t.Some? && g.Some? ==>
      var e := Changes(inner, sub, s.value); Between(inner, Replay(e, s.value), Replay(e, t.value), g.value)
    ensures var d := Changes(Nested(inner, mandatory), UpdSub(sub), Sub(s));
      Between(Nested(inner, mandatory), Replay(d, Sub(s)), Replay(d, Sub(t)), Sub(g))
  {
    hide Changes, Replay, Between;
    NestedReplayOption(inner, mandatory, sub, s, s);
    NestedReplayOption(inner, mandatory, sub, s, t);
    var d := Changes(Nested(inner, mandatory), UpdSub(sub), Sub(s));
    BetweenNested(inner, mandatory, Replay(d, Sub(s)), Replay(d, Sub(t)), Sub(g));
  }

  lemma {:induction false} BetweenNested(inner: Kind, mandatory: bool, s: Value, t: Value, g: Value)
    requires s.Sub? && t.Sub? && g.Sub?
    ensures Between(Nested(inner, mandatory), s, t, g) <==> BetweenCells(inner, s.o, t.o, g.o)
  {
  }

  lemma {:induction false} NestedReplayOption(inner: Kind, mandatory: bool, sub: Update, s: Option<Value>, t: Option<Value>)
    ensures Replay(Changes(Nested(inner, mandatory), UpdSub(sub), Sub(s)), Sub(t))
         == Sub(if s.Some? && t.Some? then Some(Replay(Changes(inner, sub, s.value), t.value)) else t)
  {
    if s.Some? && t.Some? { NestedReplay(inner, mandatory, sub, s.value, t.value); }
  }

  lemma {:induction false} ObjectStep(props: map<Property, Kind>, u: Update, s: Value, t: Value, g: Value)
    requires u.UpdObj? && s.Obj? && t.Obj? && g.Obj?
    requires s.fields.Keys == props.Keys && t.fields.Keys == props.Keys && g.fields.Keys == props.Keys
    requires forall p | p in props :: var e := Changes(props[p], Part(u.parts, p), s.fields[p]);
      Between(props[p], Replay(e, s.fields[p]), Replay(e, t.fields[p]), g.fields[p])
    ensures var d := Changes(Object(props), u, s); Between(Object(props), Replay(d, s), Replay(d, t), g)
  {
    ObjectReplay(props, u, s, s);
    ObjectReplay(props, u, s, t);
  }

  lemma {:induction false} BornBetween(entry: Kind, key: Option<Property>, u: Update, s: map<Atom, Value>, g: map<Atom, Value>)
    requires WellFormed(DictOf(entry, key)) && FitsUpdate(DictOf(entry, key), u) && u.UpdEntries?
    requires Fits(DictOf(entry, key), Entries(g))
    ensures var d := Changes(DictOf(entry, key), u, Entries(s));
      forall x | x in d.born && x in g :: Between(entry, d.born[x], d.born[x], g[x])
  {
    var d := Changes(DictOf(entry, key), u, Entries(s));
    forall x | x in d.born && x in g ensures Between(entry, d.born[x], d.born[x], g[x]) {
      KeyedFits(entry, key, x, u.upd[x]);
      CreateFits(entry, Keyed(key, x, u.upd[x]));
      SameBetween(entry, d.born[x], g[x]);
    }
  }

  lemma {:induction false} PlainStep(u: Update, s: Value, t: Value, g: Value)
    requires u.UpdPlain? && Between(Dict, s, t, g)
    ensures Between(Dict, Replay(Changes(Dict, u, s), s), Replay(Changes(Dict, u, s), t), g)
  {
    var d := Changes(Dict, u, s);
    var a, b := Replay(d, s).m, Replay(d, t).m;
    forall x ensures PlainAt(b, x) == PlainAt(a, x) || PlainAt(b, x) == PlainAt(g.m, x) {
      assert PlainAt(t.m, x) == PlainAt(s.m, x) || PlainAt(t.m, x) == PlainAt(g.m, x);
    }
  }

  lemma {:induction false} EntriesStep(entry: Kind, d: Diff, s: Value, t: Value, g: Value)
    requires d.EntriesDiff? && s.Entries? && t.Entries? && g.Entries?
    requires d.born.Keys !! s.e.Keys && d.touched.Keys <= s.e.Keys
    requires forall x :: BetweenCells(entry, At(s.e, x), At(t.e, x), At(g.e, x))
    requires forall x | x in d.touched && x in t.e && x in g.e ::
      Between(entry, Replay(d.touched[x], s.e[x]), Replay(d.touched[x], t.e[x]), g.e[x])
    requires forall x | x in d.born && x in g.e :: Between(entry, d.born[x], d.born[x], g.e[x])
    ensures forall x :: BetweenCells(entry, At(Replay(d, s).e, x), At(Replay(d, t).e, x), At(g.e, x))
  {
    forall x ensures BetweenCells(entry, At(Replay(d, s).e, x), At(Replay(d, t).e, x), At(g.e, x)) {
      assert BetweenCells(entry, At(s.e, x), At(t.e, x), At(g.e, x));
      ReplayAt(d, s.e, x);
      ReplayAt(d, t.e, x);
    }
  }

  /** A replica stays well typed when it replays a diff made against another value of its kind. */
  lemma {:induction false} ReplayFits(k: Kind, u: Update, s: Value, t: Value)
    requires WellFormed(k) && FitsUpdate(k, u) && Fits(k, s) && Fits(k, t)
    ensures Fits(k, Replay(Changes(k, u, s), t))
    decreases k, 0
  {
    var d := Changes(k, u, s);
    match k {
      case DictOf(entry, key) =>
        if u.UpdEntries? {
          TouchedFits(entry, key, u, s.e, t.e);
          EntriesReplayFits(entry, key, u, s.e, t.e);
        }
      case Nested(inner, _) =>
        if u.UpdSub? && s.o.Some? && t.o.Some? { ReplayFits(inner, u.sub, s.o.value, t.o.value); }
      case Object(props) =>
        forall p | p in props ensures Fits(props[p], Replay(Changes(props[p], Part(u.parts, p), s.fields[p]), t.fields[p])) {
          ReplayFits(props[p], Part(u.parts, p), s.fields[p], t.fields[p]);
        }
        ObjectReplay(props, u, s, t);
      case _ =>
    }
  }

  lemma {:induction false} TouchedFits(entry: Kind, key: Option<Property>, u: Update, s: map<Atom, Value>, t: map<Atom, Value>)
    requires WellFormed(DictOf(entry, key)) && FitsUpdate(DictOf(entry, key), u) && u.UpdEntries?
    requires Fits(DictOf(entry, key), Entries(s)) && Fits(DictOf(entry, key), Entries(t))
    ensures var d := Changes(DictOf(entry, key), u, Entries(s));
      forall x | x in d.touched && x in t :: Fits(entry, Replay(d.touched[x], t[x]))
    decreases entry, 1
  {
    forall x | x in u.upd && x in s && x in t
      ensures Fits(entry, Replay(Changes(entry, Keyed(key, x, u.upd[x]), s[x]), t[x]))
    {
      KeyedFits(entry, key, x, u.upd[x]);
      ReplayFits(entry, Keyed(key, x, u.upd[x]), s[x], t[x]);
    }
  }

  lemma {:induction false} EntriesReplayFits(entry: Kind, key: Option<Property>, u: Update, s: map<Atom, Value>, t: map<Atom, Value>)
    requires WellFormed(DictOf(entry, key)) && FitsUpdate(DictOf(entry, key), u) && u.UpdEntries?
    requires Fits(DictOf(entry, key), Entries(t))
    requires var d := Changes(DictOf(entry, key), u, Entries(s));
      forall x | x in d.touched && x in t :: Fits(entry, Replay(d.touched[x], t[x]))
    ensures Fits(DictOf(entry, key), Replay(Changes(DictOf(entry, key), u, Entries(s)), Entries(t)))
  {
    hide Changes, Create, Apply;
    var d := Changes(DictOf(entry, key), u, Entries(s));
    BornFits(entry, key, u, s);
    forall x | x in Replay(d, Entries(t)).e ensures Fits(entry, Replay(d, Entries(t)).e[x]) {
      ReplayAt(d, t, x);
    }
  }

  lemma {:induction false} BornFits(entry: Kind, key: Option<Property>, u: Update, s: map<Atom, Value>)
    requires WellFormed(DictOf(entry, key)) && FitsUpdate(DictOf(entry, key), u) && u.UpdEntries?
    ensures var d := Changes(DictOf(entry, key), u, Entries(s)); d.EntriesDiff? && forall x | x in d.born :: Fits(entry, d.born[x])
  {
    var d := Changes(DictOf(entry, key), u, Entries(s));
    forall x | x in d.born ensures Fits(entry, d.born[x]) {
      KeyedFits(entry, key, x, u.upd[x]);
      CreateFits(entry, Keyed(key, x, u.upd[x]));
    }
  }

  // ---------------------------------------------------------------- runs

  /** The server's state after a sequence of commits. */
  function StateAfter(k: Kind, us: seq<Update>, s: Value): Value
    decreases |us|
  {
    if us == [] then s else StateAfter(k, us[1..], Apply(k, us[0], s))
  }

  /** The diffs of those commits, in order. */
  function Diffs(k: Kind, us: seq<Update>, s: Value): (ds: seq<Diff>)
    ensures |ds| == |us|
    decreases |us|
  {
    if us == [] then [] else [Changes(k, us[0], s)] + Diffs(k, us[1..], Apply(k, us[0], s))
  }

  /** Only a diff with HasChanged is raised as an event and broadcast. */
  function Broadcasts(ds: seq<Diff>): seq<Diff> {
    if ds == [] then [] else (if HasChanged(ds[0]) then [ds[0]] else []) + Broadcasts(ds[1..])
  }

  function ReplayAll(ds: seq<Diff>, v: Value): Value
    decreases |ds|
  {
    if ds == [] then v else ReplayAll(ds[1..], Replay(ds[0], v))
  }

  /** Every commit of the run is well typed and meets the replay condition in the state it finds. */
  ghost predicate GoodRun(k: Kind, us: seq<Update>, s: Value)
    decreases |us|
  {
    us == [] || (FitsUpdate(k, us[0]) && ReplayAgrees(k, us[0], s) && GoodRun(k, us[1..], Apply(k, us[0], s)))
  }

  /** A replica that starts with the server's state and misses nothing stays equal to it. */
  lemma {:induction false} Follows(k: Kind, us: seq<Update>, s: Value)
    requires WellFormed(k) && Fits(k, s) && GoodRun(k, us, s)
    ensures ReplayAll(Diffs(k, us, s), s) == StateAfter(k, us, s)
    ensures Fits(k, StateAfter(k, us, s))
    decreases |us|
  {
    hide Apply, Changes, Replay, ReplayAgrees;
    if us != [] {
      ReplayIsExact(k, us[0], s);
      ApplyFits(k, us[0], s);
      Follows(k, us[1..], Apply(k, us[0], s));
    }
  }

  predicate Typed(k: Kind, us: seq<Update>)
    decreases |us|
  {
    us == [] || (FitsUpdate(k, us[0]) && Typed(k, us[1..]))
  }

  /** A replica that misses nothing is equal to the server's state after every commit of the run. */
  ghost predicate AlwaysEqual(k: Kind, us: seq<Update>, s: Value) {
    forall i | 0 <= i <= |us| :: EqualAfter(k, us[..i], s)
  }

  predicate EqualAfter(k: Kind, us: seq<Update>, s: Value) {
    ReplayAll(Diffs(k, us, s), s) == StateAfter(k, us, s)
  }

  /** A replica registered in time agrees after every commit exactly over the good runs. */
  lemma {:induction false} FollowsIff(k: Kind, us: seq<Update>, s: Value)
    requires WellFormed(k) && Fits(k, s) && Typed(k, us)
    ensures AlwaysEqual(k, us, s) <==> GoodRun(k, us, s)
    decreases |us|
  {
    hide Apply, Changes, Replay, ReplayAgrees, Fits, FitsUpdate, WellFormed;
    if us != [] {
      var next := Apply(k, us[0], s);
      ReplayIsExact(k, us[0], s);
      ApplyFits(k, us[0], s);
      FollowsIff(k, us[1..], next);
      FirstEqual(k, us, s);
      if ReplayAgrees(k, us[0], s) { AfterFirst(k, us, s); }
    } else {
      assert us[..0] == [];
    }
  }

  lemma {:induction false} FirstEqual(k: Kind, us: seq<Update>, s: Value)
    requires us != []
    ensures EqualAfter(k, us[..1], s) <==> Replay(Changes(k, us[0], s), s) == Apply(k, us[0], s)
    ensures EqualAfter(k, us[..0], s)
  {
    hide Apply, Changes, Replay;
    var one := us[..1];
    assert one[1..] == [] && one[0] == us[0];
    assert Diffs(k, one, s) == [Changes(k, us[0], s)];
    assert StateAfter(k, one, s) == Apply(k, us[0], s);
    assert ReplayAll([Changes(k, us[0], s)], s) == Replay(Changes(k, us[0], s), s) by {
      assert [Changes(k, us[0], s)][1..] == [];
    }
  }

  lemma {:induction false} LaterEqual(k: Kind, us: seq<Update>, s: Value)
    requires us != [] && Replay(Changes(k, us[0], s), s) == Apply(k, us[0], s)
    ensures EqualAfter(k, us, s) <==> EqualAfter(k, us[1..], Apply(k, us[0], s))
  {
    hide Apply, Changes, Replay;
    assert Diffs(k, us, s)[1..] == Diffs(k, us[1..], Apply(k, us[0], s));
  }

  /** After a first commit that replays exactly, the rest of the run decides. */
  lemma {:induction false} AfterFirst(k: Kind, us: seq<Update>, s: Value)
    requires us != [] && Replay(Changes(k, us[0], s), s) == Apply(k, us[0], s)
    ensures AlwaysEqual(k, us, s) <==> AlwaysEqual(k, us[1..], Apply(k, us[0], s))
  {
    hide Apply, Changes, Replay;
    var rest, next := us[1..], Apply(k, us[0], s);
    forall i | 1 <= i <= |us| ensures EqualAfter(k, us[..i], s) <==> EqualAfter(k, rest[..i - 1], next) {
      LaterEqual(k, us[..i], s);
      assert us[..i][1..] == rest[..i - 1];
    }
    FirstEqual(k, us, s);
    hide EqualAfter;
    if AlwaysEqual(k, us, s) {
      forall i | 0 <= i <= |rest| ensures EqualAfter(k, rest[..i], next) { assert EqualAfter(k, us[..i + 1], s); }
    }
  }

  /** A replica between s and the later state g has caught up with g when the run from s has. */
  lemma {:induction false} CatchesUp(k: Kind, us: seq<Update>, s: Value, t: Value)
    requires WellFormed(k) && Fits(k, s) && GoodRun(k, us, s)
    requires Fits(k, StateAfter(k, us, s)) && Between(k, s, t, StateAfter(k, us, s))
    ensures ReplayAll(Diffs(k, us, s), t) == StateAfter(k, us, s)
    decreases |us|
  {
    hide Apply, Changes, Replay, ReplayAgrees;
    if us == [] {
      BetweenEqualEnds(k, t, s);
    } else {
      var d := Changes(k, us[0], s);
      ReplayIsExact(k, us[0], s);
      ApplyFits(k, us[0], s);
      BetweenStep(k, us[0], s, t, StateAfter(k, us, s));
      CatchesUp(k, us[1..], Apply(k, us[0], s), Replay(d, t));
    }
  }

  lemma {:induction false} SilentDiffsDoNotMatter(ds: seq<Diff>, v: Value)
    ensures ReplayAll(Broadcasts(ds), v) == ReplayAll(ds, v)
    decreases |ds|
  {
    hide Apply, Changes, Replay, ReplayAgrees;
    if ds != [] {
      if HasChanged(ds[0]) {
        assert Broadcasts(ds)[1..] == Broadcasts(ds[1..]);
      } else {
        QuietDiffIsIdentity(ds[0], v);
        assert Broadcasts(ds) == Broadcasts(ds[1..]);
      }
      SilentDiffsDoNotMatter(ds[1..], Replay(ds[0], v));
    }
  }

  lemma {:induction false} ReplayAllAppend(a: seq<Diff>, b: seq<Diff>, v: Value)
    ensures ReplayAll(a + b, v) == ReplayAll(b, ReplayAll(a, v))
    decreases |a|
  {
    hide Apply, Changes, Replay, ReplayAgrees;
    if a == [] { assert a + b == b; }
    else {
      assert (a + b)[1..] == a[1..] + b;
      ReplayAllAppend(a[1..], b, Replay(a[0], v));
    }
  }

  lemma {:induction false} RunAppend(k: Kind, us: seq<Update>, vs: seq<Update>, s: Value)
    ensures StateAfter(k, us + vs, s) == StateAfter(k, vs, StateAfter(k, us, s))
    ensures Diffs(k, us + vs, s) == Diffs(k, us, s) + Diffs(k, vs, StateAfter(k, us, s))
    ensures GoodRun(k, us + vs, s) <==> GoodRun(k, us, s) && GoodRun(k, vs, StateAfter(k, us, s))
    decreases |us|
  {
    hide Apply, Changes, Replay, ReplayAgrees;
    if us == [] { assert us + vs == vs; }
    else {
      assert (us + vs)[1..] == us[1..] + vs;
      RunAppend(k, us[1..], vs, Apply(k, us[0], s));
    }
  }

  /**
   * Late-snapshot convergence.  A subscriber is registered in state s; `missed` is committed before
   * its snapshot is read and `later` after.  Replaying every broadcast since the registration onto
   * that snapshot gives the server's final state.
   */
  lemma {:induction false} LateSnapshotConverges(k: Kind, s: Value, missed: seq<Update>, later: seq<Update>)
    requires WellFormed(k) && Fits(k, s) && GoodRun(k, missed + later, s)
    ensures var snapshot := StateAfter(k, missed, s);
      ReplayAll(Broadcasts(Diffs(k, missed + later, s)), snapshot) == StateAfter(k, missed + later, s)
  {
    hide Apply, Changes, Replay, ReplayAgrees;
    RunAppend(k, missed, later, s);
    Follows(k, missed, s);
    var snapshot := StateAfter(k, missed, s);
    SeededBetween(k, s, snapshot);
    CatchesUp(k, missed, s, snapshot);
    Follows(k, later, snapshot);
    ReplayAllAppend(Diffs(k, missed, s), Diffs(k, later, snapshot), snapshot);
    SilentDiffsDoNotMatter(Diffs(k, missed + later, s), snapshot);
  }
}
