/**
 * A replica property by property: the properties of one object run independently, so each converges
 * whenever its own updates meet the replay condition, whatever happens to the others.
 */
module PropertyReplica {
  import opened Optional
  import opened Schema
  import opened DiffEngine
  import opened ReplayExact
  import opened Replica

  /** What an update says about one property. */
  function PartOf(u: Update, p: Property): Update {
    if u.UpdObj? then Part(u.parts, p) else Keep
  }

  /** What a run says about one property. */
  function Proj(us: seq<Update>, p: Property): (r: seq<Update>)
    ensures |r| == |us|
    decreases |us|
  {
    if us == [] then [] else [PartOf(us[0], p)] + Proj(us[1..], p)
  }

  /** The value of a property. */
  function Field(v: Value, p: Property): Value
    requires v.Obj? && p in v.fields
  {
    v.fields[p]
  }

  // ---------------------------------------------------------------- one commit, one property

  lemma {:induction false} FieldFits(props: map<Property, Kind>, v: Value, p: Property)
    requires Fits(Object(props), v) && p in props
    ensures v.Obj? && v.fields.Keys == props.Keys && Fits(props[p], Field(v, p))
  {
  }

  lemma {:induction false} ObjectFits(props: map<Property, Kind>, v: Value)
    requires Fits(Object(props), v)
    ensures v.Obj? && v.fields.Keys == props.Keys
  {
  }

  lemma {:induction false} PartFits(props: map<Property, Kind>, u: Update, p: Property)
    requires WellFormed(Object(props)) && FitsUpdate(Object(props), u) && p in props
    ensures u.UpdObj? && WellFormed(props[p]) && !props[p].Object? && FitsUpdate(props[p], PartOf(u, p))
  {
  }

  lemma {:induction false} ApplyField(props: map<Property, Kind>, u: Update, v: Value, p: Property)
    requires WellFormed(Object(props)) && FitsUpdate(Object(props), u) && Fits(Object(props), v) && p in props
    ensures Fits(Object(props), Apply(Object(props), u, v)) && p in Apply(Object(props), u, v).fields
    ensures Field(Apply(Object(props), u, v), p) == Apply(props[p], PartOf(u, p), Field(v, p))
  {
    ApplyFits(Object(props), u, v);
  }

  lemma {:induction false} ReplayField(props: map<Property, Kind>, u: Update, v: Value, t: Value, p: Property)
    requires WellFormed(Object(props)) && FitsUpdate(Object(props), u) && Fits(Object(props), v) && Fits(Object(props), t) && p in props
    ensures var t' := Replay(Changes(Object(props), u, v), t);
      && Fits(Object(props), t') && p in t'.fields
      && Field(t', p) == Replay(Changes(props[p], PartOf(u, p), Field(v, p)), Field(t, p))
  {
    ReplayFits(Object(props), u, v, t);
    ObjectReplay(props, u, v, t);
  }

  // ---------------------------------------------------------------- runs, one property

  lemma {:induction false} StateAfterField(props: map<Property, Kind>, us: seq<Update>, v: Value, p: Property)
    requires WellFormed(Object(props)) && Typed(Object(props), us) && Fits(Object(props), v) && p in props
    ensures Fits(Object(props), StateAfter(Object(props), us, v)) && p in StateAfter(Object(props), us, v).fields
    ensures Field(StateAfter(Object(props), us, v), p) == StateAfter(props[p], Proj(us, p), Field(v, p))
    decreases |us|
  {
    hide Apply, Fits, FitsUpdate, WellFormed, PartOf;
    FieldFits(props, v, p);
    if us != [] {
      ApplyField(props, us[0], v, p);
      StateAfterField(props, us[1..], Apply(Object(props), us[0], v), p);
      assert Proj(us, p)[1..] == Proj(us[1..], p);
    }
  }

  lemma {:induction false} ReplayAllField(props: map<Property, Kind>, us: seq<Update>, v: Value, t: Value, p: Property)
    requires WellFormed(Object(props)) && Typed(Object(props), us) && p in props
    requires Fits(Object(props), v) && Fits(Object(props), t)
    ensures var t' := ReplayAll(Diffs(Object(props), us, v), t);
      && Fits(Object(props), t') && p in t'.fields
      && Field(t', p) == ReplayAll(Diffs(props[p], Proj(us, p), Field(v, p)), Field(t, p))
    decreases |us|
  {
    hide Apply, Fits, FitsUpdate, WellFormed, PartOf, Changes, Replay;
    FieldFits(props, v, p);
    FieldFits(props, t, p);
    if us != [] {
      ApplyField(props, us[0], v, p);
      ReplayField(props, us[0], v, t, p);
      ReplayAllField(props, us[1..], Apply(Object(props), us[0], v), Replay(Changes(Object(props), us[0], v), t), p);
      assert Proj(us, p)[1..] == Proj(us[1..], p);
    }
  }

  lemma {:induction false} ProjAppend(us: seq<Update>, vs: seq<Update>, p: Property)
    ensures Proj(us + vs, p) == Proj(us, p) + Proj(vs, p)
    decreases |us|
  {
    if us == [] { assert us + vs == vs; }
    else {
      assert (us + vs)[1..] == us[1..] + vs;
      ProjAppend(us[1..], vs, p);
    }
  }

  lemma {:induction false} TypedAppend(k: Kind, us: seq<Update>, vs: seq<Update>)
    ensures Typed(k, us + vs) <==> Typed(k, us) && Typed(k, vs)
    decreases |us|
  {
    if us == [] { assert us + vs == vs; }
    else {
      assert (us + vs)[1..] == us[1..] + vs;
      TypedAppend(k, us[1..], vs);
    }
  }

  /**
   * Late-snapshot convergence of one property.  Only its own updates need to meet the replay condition;
   * the other properties of the object may be updated in any well-typed way.
   */
  lemma {:induction false} PropertyConverges(props: map<Property, Kind>, s: Value, missed: seq<Update>, later: seq<Update>, p: Property)
    requires WellFormed(Object(props)) && Fits(Object(props), s) && p in props && Typed(Object(props), missed + later)
    requires p in s.fields && GoodRun(props[p], Proj(missed + later, p), s.fields[p])
    ensures var k, us := Object(props), missed + later;
      var replica, server := ReplayAll(Broadcasts(Diffs(k, us, s)), StateAfter(k, missed, s)), StateAfter(k, us, s);
      Fits(k, replica) && Fits(k, server) && p in props && replica.fields.Keys == server.fields.Keys == props.Keys
      && replica.fields[p] == server.fields[p]
  {
    hide Apply, Fits, FitsUpdate, WellFormed, Changes, Replay, GoodRun, ReplayAll, Diffs, StateAfter, Broadcasts, Typed, Proj;
    var k, us := Object(props), missed + later;
    TypedAppend(k, missed, later);
    ProjAppend(missed, later, p);
    StateAfterField(props, missed, s, p);
    StateAfterField(props, us, s, p);
    var snapshot := StateAfter(k, missed, s);
    ReplayAllField(props, us, s, snapshot, p);
    SilentDiffsDoNotMatter(Diffs(k, us, s), snapshot);
    FieldFits(props, s, p);
    FieldFits(props, snapshot, p);
    FieldFits(props, StateAfter(k, us, s), p);
    SilentDiffsDoNotMatter(Diffs(props[p], Proj(us, p), Field(s, p)), Field(snapshot, p));
    FieldFits(props, ReplayAll(Diffs(k, us, s), snapshot), p);
    assert WellFormed(props[p]) by { PropWellFormed(props, p); }
    LateSnapshotConverges(props[p], s.fields[p], Proj(missed, p), Proj(later, p));
  }

  lemma {:induction false} PropWellFormed(props: map<Property, Kind>, p: Property)
    requires WellFormed(Object(props)) && p in props
    ensures WellFormed(props[p])
  {
  }

  // ---------------------------------------------------------------- the whole object

  /** A run of an object is good exactly when it is well typed and good for each property. */
  lemma {:induction false} GoodRunIsPerProperty(props: map<Property, Kind>, us: seq<Update>, s: Value)
    requires WellFormed(Object(props)) && Fits(Object(props), s)
    ensures GoodRun(Object(props), us, s)
       <==> Typed(Object(props), us) && forall p | p in props :: GoodRun(props[p], Proj(us, p), s.fields[p])
    decreases |us|
  {
    hide Apply, Fits, FitsUpdate, WellFormed, ReplayAgrees, PartOf;
    if us != [] && FitsUpdate(Object(props), us[0]) {
      var next := Apply(Object(props), us[0], s);
      ApplyFits(Object(props), us[0], s);
      ObjectFits(props, s);
      ObjectFits(props, next);
      forall p | p in props
        ensures GoodRun(props[p], Proj(us, p), s.fields[p])
           <==> ReplayAgrees(props[p], PartOf(us[0], p), s.fields[p]) && GoodRun(props[p], Proj(us[1..], p), next.fields[p])
      {
        ApplyField(props, us[0], s, p);
        PartFits(props, us[0], p);
        assert Proj(us, p)[0] == PartOf(us[0], p) && Proj(us, p)[1..] == Proj(us[1..], p);
      }
      GoodRunIsPerProperty(props, us[1..], next);
      AgreesIsPerProperty(props, us[0], s);
    }
  }

  lemma {:induction false} AgreesIsPerProperty(props: map<Property, Kind>, u: Update, v: Value)
    requires FitsUpdate(Object(props), u) && Fits(Object(props), v)
    ensures ReplayAgrees(Object(props), u, v) <==> forall p | p in props :: ReplayAgrees(props[p], PartOf(u, p), v.fields[p])
  {
  }

  // ---------------------------------------------------------------- a missing nested value

  /**
   * A nested value that a replica does not hold never reaches it: whatever the server commits, every
   * diff leaves the replica's null in place.
   */
  lemma {:induction false} NullStaysNull(inner: Kind, mandatory: bool, us: seq<Update>, s: Value)
    ensures ReplayAll(Diffs(Nested(inner, mandatory), us, s), Sub(None)) == Sub(None)
    decreases |us|
  {
    if us != [] {
      assert Replay(Changes(Nested(inner, mandatory), us[0], s), Sub(None)) == Sub(None);
      hide Apply, Changes, Replay;
      NullStaysNull(inner, mandatory, us[1..], Apply(Nested(inner, mandatory), us[0], s));
    }
  }
}
