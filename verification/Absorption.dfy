/** Applying the same update again, and the order in which the documentation lets a client replay a diff. */
module Absorption {
  import opened Optional
  import opened Schema
  import opened DiffEngine
  import opened ReplayExact

  // ---------------------------------------------------------------- AppendUpdate is idempotent

  /** For every schema and every update whatever, a second AppendUpdate of it changes nothing. */
  lemma {:induction false} ApplyTwice(k: Kind, u: Update, v: Value)
    ensures Apply(k, u, Apply(k, u, v)) == Apply(k, u, v)
    decreases k
  {
    match (k, u, v) {
      case (Dict, UpdPlain(put, drop), Plain(m)) =>
        assert (((m + put) - drop) + put) - drop == (m + put) - drop;
      case (Set, UpdElems(add, del), Elems(s)) =>
        assert (((s + add) - del) + add) - del == (s + add) - del;
      case (DictOf(entry, key), UpdEntries(upd, rem), Entries(e)) =>
        var b := EntriesApply(entry, key, u, e);
        var c := EntriesApply(entry, key, u, b);
        forall x ensures At(c, x) == At(b, x) {
          if x in upd {
            var w := Keyed(key, x, upd[x]);
            ApplyTwice(entry, w, if x in e then e[x] else Initial(entry, w));
          }
        }
        SameEntries(c, b);
      case (Object(props), UpdObj(parts), Obj(fields)) =>
        forall p | p in props && p in fields
          ensures Apply(props[p], Part(parts, p), Apply(props[p], Part(parts, p), fields[p])) == Apply(props[p], Part(parts, p), fields[p])
        {
          ApplyTwice(props[p], Part(parts, p), fields[p]);
        }
        assert Apply(k, u, Apply(k, u, v)).fields == Apply(k, u, v).fields;
      case _ =>
    }
  }

  // ---------------------------------------------------------------- what a second application reports

  /**
   * Nothing is both set and removed (unless it cannot be created), and no nested property keeps
   * failing to be created over a value it contradicts.
   */
  predicate Settles(k: Kind, u: Update, v: Value)
    decreases k
  {
    match (k, u, v)
    case (Dict, UpdPlain(put, drop), Plain(_)) => put.Keys !! drop
    case (Set, UpdElems(add, del), Elems(_)) => add !! del
    case (DictOf(entry, key), UpdEntries(upd, rem), Entries(e)) =>
      forall x | x in upd ::
        if x in rem then !CanCreate(entry, Keyed(key, x, upd[x]))
        else if x in e then Settles(entry, Keyed(key, x, upd[x]), e[x])
        else CanCreate(entry, Keyed(key, x, upd[x])) ==>
          Settles(entry, Keyed(key, x, upd[x]), Initial(entry, Keyed(key, x, upd[x])))
    case (Nested(inner, _), UpdSub(sub), Sub(o)) =>
      if CanCreate(inner, sub) then Settles(inner, sub, Initial(inner, sub))
      else o.Some? ==> Quiet(inner, sub, o.value)
    case (Object(props), UpdObj(parts), Obj(fields)) =>
      forall p | p in props && p in parts && p in fields :: Settles(props[p], parts[p], fields[p])
    case _ => true
  }

  /** Committing an update a second time reports no change exactly when the update settles. */
  lemma {:induction false} SecondReport(k: Kind, u: Update, v: Value)
    ensures !HasChanged(Changes(k, u, Apply(k, u, v))) <==> Settles(k, u, v)
    decreases k, 1
  {
    match (k, u, v) {
      case (Dict, UpdPlain(put, drop), Plain(m)) =>
        hide Changes, Apply, Settles;
        PlainSecond(put, drop, m);
      case (Set, UpdElems(add, del), Elems(s)) =>
        hide Changes, Apply, Settles;
        ElemsSecond(add, del, s);
      case (DictOf(entry, key), UpdEntries(_, _), Entries(e)) =>
        hide Changes, Apply, Settles;
        EntriesSecond(entry, key, u, e);
      case (Nested(inner, mandatory), UpdSub(sub), Sub(o)) =>
        hide Changes, Apply, Settles;
        NestedSecond(inner, mandatory, sub, o);
      case (Object(props), UpdObj(parts), Obj(fields)) =>
        hide Changes, Apply, Settles;
        ObjectSecond(props, parts, fields);
      case (Scalar(_, _, _), SetOne(_), One(_)) =>
      case _ =>
        hide Changes, Apply, Settles;
        OtherSecond(k, u, v);
    }
  }

  /** The update is for another kind, or keeps what is there. */
  predicate Other(k: Kind, u: Update, v: Value) {
    match (k, u, v)
    case (Scalar(_, _, _), SetOne(_), One(_)) => false
    case (Dict, UpdPlain(_, _), Plain(_)) => false
    case (Set, UpdElems(_, _), Elems(_)) => false
    case (DictOf(_, _), UpdEntries(_, _), Entries(_)) => false
    case (Nested(_, _), UpdSub(_), Sub(_)) => false
    case (Object(_), UpdObj(_), Obj(_)) => false
    case _ => true
  }

  lemma {:induction false} OtherSecond(k: Kind, u: Update, v: Value)
    requires Other(k, u, v)
    ensures SecondIff(k, u, v)
  {
    assert Apply(k, u, v) == v;
    hide Apply;
  }

  ghost predicate SecondIff(k: Kind, u: Update, v: Value) {
    !HasChanged(Changes(k, u, Apply(k, u, v))) <==> Settles(k, u, v)
  }

  lemma {:induction false} PlainSecond(put: map<Atom, Atom>, drop: set<Atom>, m: map<Atom, Atom>)
    ensures SecondIff(Dict, UpdPlain(put, drop), Plain(m))
  {
    var after := (m + put) - drop;
    var d := Changes(Dict, UpdPlain(put, drop), Plain(after));
    if put.Keys !! drop { assert d.added == map[] && d.removed == {} && d.updated == map[]; }
    else { var x :| x in put.Keys && x in drop; assert x in d.added; }
  }

  lemma {:induction false} ElemsSecond(add: set<Atom>, del: set<Atom>, s: set<Atom>)
    ensures SecondIff(Set, UpdElems(add, del), Elems(s))
  {
    var after := (s + add) - del;
    var d := Changes(Set, UpdElems(add, del), Elems(after));
    if add !! del { assert d.plus == {} && d.minus == {}; }
    else { var x :| x in add && x in del; assert x in d.plus; }
  }

  lemma {:induction false} NestedSecond(inner: Kind, mandatory: bool, sub: Update, o: Option<Value>)
    ensures SecondIff(Nested(inner, mandatory), UpdSub(sub), Sub(o))
    decreases inner, 3
  {
    SecondReport(inner, sub, Initial(inner, sub));
    if o.Some? { QuietIsExact(inner, sub, o.value); }
    NestedReport(inner, mandatory, sub, o);
    NestedSettles(inner, mandatory, sub, o);
    hide Changes, Apply, Create, HasChanged, CanCreate, Quiet, Settles, Initial;
  }

  lemma {:induction false} NestedSettles(inner: Kind, mandatory: bool, sub: Update, o: Option<Value>)
    ensures Settles(Nested(inner, mandatory), UpdSub(sub), Sub(o))
       <==> if CanCreate(inner, sub) then Settles(inner, sub, Initial(inner, sub)) else o.Some? ==> Quiet(inner, sub, o.value)
  {
  }

  /** A second application to a nested property diffs its update against what the first one left. */
  lemma {:induction false} NestedReport(inner: Kind, mandatory: bool, sub: Update, o: Option<Value>)
    ensures HasChanged(Changes(Nested(inner, mandatory), UpdSub(sub), Apply(Nested(inner, mandatory), UpdSub(sub), Sub(o))))
       <==> if CanCreate(inner, sub) then HasChanged(Changes(inner, sub, Apply(inner, sub, Initial(inner, sub))))
            else o.Some? && HasChanged(Changes(inner, sub, o.value))
  {
  }

  lemma {:induction false} EntriesSecond(entry: Kind, key: Option<Property>, u: Update, e: map<Atom, Value>)
    requires u.UpdEntries?
    ensures SecondIff(DictOf(entry, key), u, Entries(e))
    decreases entry, 3
  {
    forall x | x in u.upd
      ensures x in e ==> SecondIff(entry, Keyed(key, x, u.upd[x]), e[x])
      ensures SecondIff(entry, Keyed(key, x, u.upd[x]), Initial(entry, Keyed(key, x, u.upd[x])))
    {
      if x in e { SecondReport(entry, Keyed(key, x, u.upd[x]), e[x]); }
      SecondReport(entry, Keyed(key, x, u.upd[x]), Initial(entry, Keyed(key, x, u.upd[x])));
    }
    hide Apply, Changes, Settles, SecondIff, Initial;
    AllEntriesSecond(entry, key, u, e);
  }

  lemma {:induction false} AllEntriesSecond(entry: Kind, key: Option<Property>, u: Update, e: map<Atom, Value>)
    requires u.UpdEntries?
    requires forall x | x in u.upd && x in e :: SecondIff(entry, Keyed(key, x, u.upd[x]), e[x])
    requires forall x | x in u.upd :: SecondIff(entry, Keyed(key, x, u.upd[x]), Initial(entry, Keyed(key, x, u.upd[x])))
    ensures SecondIff(DictOf(entry, key), u, Entries(e))
  {
    var b := EntriesApply(entry, key, u, e);
    forall x | x in u.rem ensures x !in b {
      assert At(b, x) == AppliedEntry(entry, key, u, e, x);
    }
    EntriesQuiet(entry, key, u, e, b);
    SettlesEntries(entry, key, u, e);
  }

  lemma {:induction false} SettlesEntries(entry: Kind, key: Option<Property>, u: Update, e: map<Atom, Value>)
    requires u.UpdEntries?
    ensures Settles(DictOf(entry, key), u, Entries(e)) <==> forall x | x in u.upd :: SettlesAt(entry, key, u, e, x)
  {
  }

  lemma {:induction false} EntriesQuiet(entry: Kind, key: Option<Property>, u: Update, e: map<Atom, Value>, b: map<Atom, Value>)
    requires u.UpdEntries? && u.rem !! b.Keys
    requires forall x | x in u.upd :: At(b, x) == AppliedEntry(entry, key, u, e, x)
    requires forall x | x in u.upd && x in e :: SecondIff(entry, Keyed(key, x, u.upd[x]), e[x])
    requires forall x | x in u.upd :: SecondIff(entry, Keyed(key, x, u.upd[x]), Initial(entry, Keyed(key, x, u.upd[x])))
    ensures !HasChanged(Changes(DictOf(entry, key), u, Entries(b))) <==> forall x | x in u.upd :: SettlesAt(entry, key, u, e, x)
  {
    hide Apply, Create, CanCreate, SettlesAt, Changes;
    var d := EntriesDiffKeys(entry, key, u, b);
    forall x | x in u.upd ensures (x in d.born || x in d.touched) <==> !SettlesAt(entry, key, u, e, x) {
      EntrySecond(entry, key, u, e, b, x);
    }
    assert HasChanged(d) <==> d.born.Keys + d.touched.Keys != {};
    hide HasChanged;
    if x :| x in u.upd && !SettlesAt(entry, key, u, e, x) { assert x in d.born.Keys + d.touched.Keys; }
    else { assert d.born.Keys + d.touched.Keys == {}; }
  }

  lemma {:induction false} EntriesDiffKeys(entry: Kind, key: Option<Property>, u: Update, e: map<Atom, Value>) returns (d: Diff)
    requires u.UpdEntries?
    ensures d == Changes(DictOf(entry, key), u, Entries(e)) && d.EntriesDiff?
    ensures d.gone == u.rem * e.Keys && d.born.Keys + d.touched.Keys <= u.upd.Keys
  {
    d := Changes(DictOf(entry, key), u, Entries(e));
  }

  lemma {:induction false} EntrySecond(entry: Kind, key: Option<Property>, u: Update, e: map<Atom, Value>, b: map<Atom, Value>, x: Atom)
    requires u.UpdEntries? && x in u.upd && At(b, x) == AppliedEntry(entry, key, u, e, x)
    requires x in e ==> SecondIff(entry, Keyed(key, x, u.upd[x]), e[x])
    requires SecondIff(entry, Keyed(key, x, u.upd[x]), Initial(entry, Keyed(key, x, u.upd[x])))
    ensures var d := Changes(DictOf(entry, key), u, Entries(b));
      d.EntriesDiff? && ((x in d.born || x in d.touched) <==> !SettlesAt(entry, key, u, e, x))
  {
  }

  ghost predicate SettlesAt(entry: Kind, key: Option<Property>, u: Update, e: map<Atom, Value>, x: Atom)
    requires u.UpdEntries? && x in u.upd
  {
    if x in u.rem then !CanCreate(entry, Keyed(key, x, u.upd[x]))
    else if x in e then Settles(entry, Keyed(key, x, u.upd[x]), e[x])
    else CanCreate(entry, Keyed(key, x, u.upd[x])) ==>
      Settles(entry, Keyed(key, x, u.upd[x]), Initial(entry, Keyed(key, x, u.upd[x])))
  }

  lemma {:induction false} ObjectSecond(props: map<Property, Kind>, parts: map<Property, Update>, fields: map<Property, Value>)
    ensures SecondIff(Object(props), UpdObj(parts), Obj(fields))
    decreases Object(props), 0
  {
    var k, u, v := Object(props), UpdObj(parts), Obj(fields);
    forall p | p in props && p in parts && p in fields ensures SecondIff(props[p], parts[p], fields[p]) {
      SecondReport(props[p], parts[p], fields[p]);
    }
    SettlesObject(props, parts, fields);
    ObjectReport(props, parts, fields);
    hide Changes, Apply, Settles;
  }

  lemma {:induction false} SettlesObject(props: map<Property, Kind>, parts: map<Property, Update>, fields: map<Property, Value>)
    ensures Settles(Object(props), UpdObj(parts), Obj(fields))
       <==> forall p | p in props && p in parts && p in fields :: Settles(props[p], parts[p], fields[p])
  {
  }

  /** A second application to an object reports a change exactly when one of its properties does. */
  lemma {:induction false} ObjectReport(props: map<Property, Kind>, parts: map<Property, Update>, fields: map<Property, Value>)
    ensures HasChanged(Changes(Object(props), UpdObj(parts), Apply(Object(props), UpdObj(parts), Obj(fields))))
       <==> exists p | p in props && p in parts && p in fields :: HasChanged(Changes(props[p], parts[p], Apply(props[p], parts[p], fields[p])))
  {
    var d := Changes(Object(props), UpdObj(parts), Apply(Object(props), UpdObj(parts), Obj(fields)));
    assert d.ObjDiff? && d.deltas == map p | p in props && p in parts && p in fields :: Changes(props[p], parts[p], Apply(props[p], parts[p], fields[p]));
    hide Changes, Apply;
    if p :| p in props && p in parts && p in fields && HasChanged(Changes(props[p], parts[p], Apply(props[p], parts[p], fields[p]))) {
      assert HasChanged(d.deltas[p]);
    }
  }

  /** No key or element is both set and removed, at any depth. */
  predicate Disjoint(k: Kind, u: Update)
    decreases k
  {
    match (k, u)
    case (Dict, UpdPlain(put, drop)) => put.Keys !! drop
    case (Set, UpdElems(add, del)) => add !! del
    case (DictOf(entry, key), UpdEntries(upd, rem)) =>
      upd.Keys !! rem && forall x | x in upd :: Disjoint(entry, Keyed(key, x, upd[x]))
    case (Nested(inner, _), UpdSub(sub)) => Disjoint(inner, sub)
    case (Object(props), UpdObj(parts)) => forall p | p in props && p in parts :: Disjoint(props[p], parts[p])
    case _ => true
  }

  /** Every property of the update that is itself an updater can create its value; there may be none. */
  predicate NestedCreatable(k: Kind, u: Update)
    decreases k
  {
    match (k, u)
    case (DictOf(entry, key), UpdEntries(upd, _)) => forall x | x in upd :: NestedCreatable(entry, Keyed(key, x, upd[x]))
    case (Nested(inner, _), UpdSub(sub)) => CanCreate(inner, sub) && NestedCreatable(inner, sub)
    case (Object(props), UpdObj(parts)) => forall p | p in props && p in parts :: NestedCreatable(props[p], parts[p])
    case _ => true
  }

  lemma {:induction false} DisjointSettles(k: Kind, u: Update, v: Value)
    requires NestedCreatable(k, u) && Disjoint(k, u)
    ensures Settles(k, u, v)
    decreases k
  {
    match (k, u, v) {
      case (DictOf(entry, key), UpdEntries(upd, rem), Entries(e)) =>
        forall x | x in upd
          ensures x in e ==> Settles(entry, Keyed(key, x, upd[x]), e[x])
          ensures Settles(entry, Keyed(key, x, upd[x]), Initial(entry, Keyed(key, x, upd[x])))
        {
          if x in e { DisjointSettles(entry, Keyed(key, x, upd[x]), e[x]); }
          DisjointSettles(entry, Keyed(key, x, upd[x]), Initial(entry, Keyed(key, x, upd[x])));
        }
      case (Nested(inner, _), UpdSub(sub), Sub(o)) => DisjointSettles(inner, sub, Initial(inner, sub));
      case (Object(props), UpdObj(parts), Obj(fields)) =>
        forall p | p in props && p in parts && p in fields ensures Settles(props[p], parts[p], fields[p]) {
          DisjointSettles(props[p], parts[p], fields[p]);
        }
      case _ =>
    }
  }

  /**
   * Absorption: an update with disjoint sets and removals, whose nested updaters (if any) can create
   * their values, is silent and harmless the second time.
   */
  lemma {:induction false} Absorbed(k: Kind, u: Update, v: Value)
    requires NestedCreatable(k, u) && Disjoint(k, u)
    ensures !HasChanged(Changes(k, u, Apply(k, u, v)))
    ensures Apply(k, u, Apply(k, u, v)) == Apply(k, u, v)
  {
    DisjointSettles(k, u, v);
    SecondReport(k, u, v);
    ApplyTwice(k, u, v);
  }

  // ---------------------------------------------------------------- the documented client order

  /** What JavaScript takes for true in a condition. */
  predicate Truthy(a: Atom) {
    a != Null && a != Int(0) && a != Text("")
  }

  /** Spreading an absent entry and writing the changed scalars makes a partial entry. */
  function Partial(d: Diff): Value {
    Obj(if d.ObjDiff? then map p | p in d.deltas && d.deltas[p].Changed? && Truthy(d.deltas[p].current) :: One(d.deltas[p].current)
        else map[])
  }

  /**
   * The client of the documentation: remove, then add, then write updates whether or not the key is
   * present, a scalar only when its new value is truthy.
   */
  function ReplayDocumented(d: Diff, v: Value): Value
    decreases d
  {
    match (d, v)
    case (Changed(_, current), One(_)) => if Truthy(current) then One(current) else v
    case (PlainDiff(added, removed, updated), Plain(m)) => Plain((m - removed) + added + updated)
    case (ElemsDiff(plus, minus), Elems(s)) => Elems((s - minus) + plus)
    case (EntriesDiff(born, gone, touched), Entries(e)) =>
      var kept := (e - gone) + born;
      Entries(kept + map x | x in touched :: if x in kept then ReplayDocumented(touched[x], kept[x]) else Partial(touched[x]))
    case (SubDiff(inner), Sub(o)) => Sub(if o.Some? then Some(ReplayDocumented(inner, o.value)) else None)
    case (ObjDiff(deltas), Obj(fields)) =>
      Obj(map p | p in fields :: if p in deltas then ReplayDocumented(deltas[p], fields[p]) else fields[p])
    case _ => v
  }

  /** No key is reported both updated and removed, at any depth: a client can see this in the diff. */
  predicate NoClash(d: Diff) {
    match d
    case PlainDiff(_, removed, updated) => updated.Keys !! removed
    case EntriesDiff(_, gone, touched) => touched.Keys !! gone && forall x | x in touched :: NoClash(touched[x])
    case SubDiff(inner) => NoClash(inner)
    case ObjDiff(deltas) => forall p | p in deltas :: NoClash(deltas[p])
    case _ => true
  }

  /** No scalar changes to a value the client's condition takes for false. */
  predicate NoFalsy(d: Diff) {
    match d
    case Changed(_, current) => Truthy(current)
    case EntriesDiff(_, _, touched) => forall x | x in touched :: NoFalsy(touched[x])
    case SubDiff(inner) => NoFalsy(inner)
    case ObjDiff(deltas) => forall p | p in deltas :: NoFalsy(deltas[p])
    case _ => true
  }

  /** A diff the documented client replays as it is meant. */
  predicate Literal(d: Diff) {
    NoClash(d) && NoFalsy(d)
  }

  /** The documented order replays a diff as it is meant exactly when it has no clash and no falsy new value. */
  lemma {:induction false} DocumentedOrderIsExact(k: Kind, u: Update, v: Value)
    ensures ReplayDocumented(Changes(k, u, v), v) == Replay(Changes(k, u, v), v) <==> Literal(Changes(k, u, v))
    decreases k, 1
  {
    match (k, u, v) {
      case (Dict, UpdPlain(put, drop), Plain(m)) => PlainOrder(Changes(k, u, v), m);
      case (Set, UpdElems(add, del), Elems(s)) =>
        assert ReplayDocumented(Changes(k, u, v), v).s == Replay(Changes(k, u, v), v).s;
      case (DictOf(entry, key), UpdEntries(_, _), Entries(e)) =>
        hide Changes, Replay, ReplayDocumented, Literal;
        TouchedOrder(entry, key, u, e);
      case (Nested(inner, _), UpdSub(sub), Sub(o)) => if o.Some? { DocumentedOrderIsExact(inner, sub, o.value); }
      case (Object(props), UpdObj(parts), Obj(fields)) =>
        hide Changes, Replay, ReplayDocumented, Literal;
        DeltasOrder(props, parts, fields);
      case (Scalar(_, _, _), SetOne(_), One(_)) =>
      case _ =>
        assert Changes(k, u, v) == Same;
        hide Changes;
    }
  }

  lemma {:induction false} TouchedOrder(entry: Kind, key: Option<Property>, u: Update, e: map<Atom, Value>)
    requires u.UpdEntries?
    ensures var d := Changes(DictOf(entry, key), u, Entries(e));
      ReplayDocumented(d, Entries(e)) == Replay(d, Entries(e)) <==> Literal(d)
    decreases entry, 3
  {
    var d := Changes(DictOf(entry, key), u, Entries(e));
    forall x | x in d.touched ensures
      ReplayDocumented(d.touched[x], e[x]) == Replay(d.touched[x], e[x]) <==> Literal(d.touched[x])
    {
      DocumentedOrderIsExact(entry, Keyed(key, x, u.upd[x]), e[x]);
    }
    EntriesOrder(d, e);
  }

  lemma {:induction false} DeltasOrder(props: map<Property, Kind>, parts: map<Property, Update>, fields: map<Property, Value>)
    ensures var d := Changes(Object(props), UpdObj(parts), Obj(fields));
      ReplayDocumented(d, Obj(fields)) == Replay(d, Obj(fields)) <==> Literal(d)
    decreases Object(props), 0
  {
    var d := Changes(Object(props), UpdObj(parts), Obj(fields));
    forall p | p in d.deltas ensures
      ReplayDocumented(d.deltas[p], fields[p]) == Replay(d.deltas[p], fields[p]) <==> Literal(d.deltas[p])
    {
      DocumentedOrderIsExact(props[p], parts[p], fields[p]);
    }
    ObjectOrder(d, fields);
  }

  lemma {:induction false} PlainOrder(d: Diff, m: map<Atom, Atom>)
    requires d.PlainDiff? && d.added.Keys !! m.Keys && d.removed <= m.Keys && d.updated.Keys <= m.Keys
    ensures ReplayDocumented(d, Plain(m)) == Replay(d, Plain(m)) <==> Literal(d)
  {
    var a, b := ReplayDocumented(d, Plain(m)).m, Replay(d, Plain(m)).m;
    if d.updated.Keys !! d.removed { assert a == b; }
    else { var x :| x in d.updated.Keys && x in d.removed; assert x in a && x !in b; }
  }

  lemma {:induction false} EntriesOrder(d: Diff, e: map<Atom, Value>)
    requires d.EntriesDiff? && d.born.Keys !! e.Keys && d.gone <= e.Keys && d.touched.Keys <= e.Keys
    requires forall x | x in d.touched ::
      ReplayDocumented(d.touched[x], e[x]) == Replay(d.touched[x], e[x]) <==> Literal(d.touched[x])
    ensures ReplayDocumented(d, Entries(e)) == Replay(d, Entries(e)) <==> Literal(d)
  {
    hide ReplayDocumented, Replay;
    var a := DocumentedEntries(d, e);
    var b := ReplayEntries(d, e);
    if !(d.touched.Keys !! d.gone) {
      var x :| x in d.touched.Keys && x in d.gone;
      assert At(a, x) != At(b, x);
    } else if x :| x in d.touched && !Literal(d.touched[x]) {
      assert At(a, x) != At(b, x);
    } else {
      SameEntries(a, b);
    }
  }

  lemma {:induction false} ReplayEntries(d: Diff, e: map<Atom, Value>) returns (a: map<Atom, Value>)
    requires d.EntriesDiff?
    ensures Replay(d, Entries(e)) == Entries(a) && forall x :: At(a, x) == ReplayedAt(d, e, x)
  {
    ReplayAt(d, e, Null);
    a := Replay(d, Entries(e)).e;
    forall x ensures At(a, x) == ReplayedAt(d, e, x) {
      ReplayAt(d, e, x);
    }
  }

  /** The documented order, key by key, for a diff made against e. */
  function DocumentedAt(d: Diff, e: map<Atom, Value>, x: Atom): Option<Value>
    requires d.EntriesDiff? && d.touched.Keys <= e.Keys
  {
    if x in d.touched then Some(if x in d.gone then Partial(d.touched[x]) else ReplayDocumented(d.touched[x], e[x]))
    else if x in d.born then Some(d.born[x])
    else if x in d.gone then None
    else At(e, x)
  }

  lemma {:induction false} DocumentedEntries(d: Diff, e: map<Atom, Value>) returns (a: map<Atom, Value>)
    requires d.EntriesDiff? && d.born.Keys !! e.Keys && d.gone <= e.Keys && d.touched.Keys <= e.Keys
    ensures ReplayDocumented(d, Entries(e)) == Entries(a)
    ensures forall x :: At(a, x) == DocumentedAt(d, e, x)
  {
    a := ReplayDocumented(d, Entries(e)).e;
  }

  lemma {:induction false} ObjectOrder(d: Diff, fields: map<Property, Value>)
    requires d.ObjDiff? && d.deltas.Keys <= fields.Keys
    requires forall p | p in d.deltas ::
      ReplayDocumented(d.deltas[p], fields[p]) == Replay(d.deltas[p], fields[p]) <==> Literal(d.deltas[p])
    ensures ReplayDocumented(d, Obj(fields)) == Replay(d, Obj(fields)) <==> Literal(d)
  {
    var a, b := ReplayDocumented(d, Obj(fields)).fields, Replay(d, Obj(fields)).fields;
    if p :| p in d.deltas && !Literal(d.deltas[p]) { assert a[p] != b[p]; } else { assert a == b; }
  }

  /** For a commit that meets the replay condition, those are the diffs that give the state AppendUpdate leaves. */
  lemma {:induction false} DocumentedGivesState(k: Kind, u: Update, v: Value)
    requires WellFormed(k) && Fits(k, v) && FitsUpdate(k, u) && ReplayAgrees(k, u, v)
    ensures ReplayDocumented(Changes(k, u, v), v) == Apply(k, u, v) <==> Literal(Changes(k, u, v))
  {
    hide Apply, Changes, Replay, ReplayDocumented, Literal, ReplayAgrees;
    ReplayIsExact(k, u, v);
    DocumentedOrderIsExact(k, u, v);
  }

  /** Disjoint sets and removals never produce a clash, whatever the old value. */
  lemma {:induction false} DisjointNeverClashes(k: Kind, u: Update, v: Value)
    requires Disjoint(k, u)
    ensures NoClash(Changes(k, u, v))
    decreases k
  {
    match (k, u, v) {
      case (DictOf(entry, key), UpdEntries(upd, rem), Entries(e)) =>
        forall x | x in upd && x in e ensures NoClash(Changes(entry, Keyed(key, x, upd[x]), e[x])) {
          DisjointNeverClashes(entry, Keyed(key, x, upd[x]), e[x]);
        }
      case (Nested(inner, _), UpdSub(sub), Sub(o)) => if o.Some? { DisjointNeverClashes(inner, sub, o.value); }
      case (Object(props), UpdObj(parts), Obj(fields)) =>
        forall p | p in props && p in parts && p in fields ensures NoClash(Changes(props[p], parts[p], fields[p])) {
          DisjointNeverClashes(props[p], parts[p], fields[p]);
        }
      case _ =>
    }
  }
}
