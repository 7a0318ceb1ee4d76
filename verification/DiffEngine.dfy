/**
 * What the generated code means, for every schema: `TryCreate`, `Changes`, `AppendUpdate`,
 * `HasChanged`, and the replay a client performs with a `Changes` record.
 */
module DiffEngine {
  import opened Optional
  import opened Schema

  // ---------------------------------------------------------------- the emitted members

  /** Both Changes and AppendUpdate first call Set<KeyProperty>(key) on an entry's updater, if it has one. */
  function Keyed(keyProp: Option<Property>, key: Atom, u: Update): (w: Update)
  {
    if keyProp.Some? && u.UpdObj? then UpdObj(u.parts[keyProp.value := SetOne(key)]) else u
  }

  /** The Boolean result of TryCreate: every required scalar is set, every required nested updater succeeds. */
  predicate CanCreate(k: Kind, u: Update)
    decreases k
  {
    match k
    case Scalar(required, _, _) => required ==> u.SetOne?
    case Nested(inner, mandatory) => mandatory ==> u.UpdSub? && CanCreate(inner, u.sub)
    case Object(props) => u.UpdObj? && forall p | p in props :: CanCreate(props[p], Part(u.parts, p))
    case _ => true
  }

  /** The object initializer of TryCreate: required members are assigned, the rest keep their defaults. */
  function Initial(k: Kind, u: Update): Value
    decreases k, 0
  {
    match k
    case Scalar(required, _, dflt) => One(if required && u.SetOne? then u.a else dflt)
    case Dict => Plain(map[])
    case Set => Elems({})
    case DictOf(_, _) => Entries(map[])
    case Nested(inner, mandatory) => Sub(if mandatory && u.UpdSub? then Some(Create(inner, u.sub)) else None)
    case Object(props) =>
      Obj(map p | p in props :: Initial(props[p], if u.UpdObj? then Part(u.parts, p) else Keep))
  }

  /** The value TryCreate hands out: initialise, then AppendUpdate onto the new object. */
  function Create(k: Kind, u: Update): Value
    decreases k, 2
  {
    Apply(k, u, Initial(k, u))
  }

  /** AppendUpdate: the value the target holds afterwards. */
  function Apply(k: Kind, u: Update, v: Value): Value
    decreases k, 1
  {
    match (k, u, v)
    case (Scalar(_, initOnly, _), SetOne(a), One(_)) => if initOnly then v else One(a)
    case (Dict, UpdPlain(put, drop), Plain(m)) => Plain((m + put) - drop)
    case (Set, UpdElems(add, del), Elems(s)) => Elems((s + add) - del)
    case (DictOf(entry, key), UpdEntries(upd, rem), Entries(e)) =>
      Entries((e + map x | x in upd && (x in e || CanCreate(entry, Keyed(key, x, upd[x]))) ::
        if x in e then Apply(entry, Keyed(key, x, upd[x]), e[x])
        else Create(entry, Keyed(key, x, upd[x]))) - rem)
    case (Nested(inner, _), UpdSub(sub), Sub(o)) =>
      if CanCreate(inner, sub) then Sub(Some(Create(inner, sub))) else v
    case (Object(props), UpdObj(parts), Obj(fields)) =>
      Obj(map p | p in fields :: if p in props then Apply(props[p], Part(parts, p), fields[p]) else fields[p])
    case _ => v
  }

  /** The HasChanged property of a Changes record. */
  predicate HasChanged(d: Diff) {
    match d
    case Same => false
    case Changed(_, _) => true
    case PlainDiff(added, removed, updated) => added != map[] || removed != {} || updated != map[]
    case ElemsDiff(plus, minus) => plus != {} || minus != {}
    case EntriesDiff(born, gone, touched) => born != map[] || gone != {} || touched != map[]
    case SubDiff(inner) => HasChanged(inner)
    case ObjDiff(deltas) => exists p | p in deltas :: HasChanged(deltas[p])
  }

  /** Changes: the diff reported against the old value; every membership test reads the old value. */
  function Changes(k: Kind, u: Update, v: Value): Diff
    decreases k
  {
    match (k, u, v)
    case (Scalar(_, initOnly, _), SetOne(a), One(was)) => if initOnly || a == was then Same else Changed(was, a)
    case (Dict, UpdPlain(put, drop), Plain(m)) =>
      PlainDiff(map x | x in put && x !in m :: put[x],
                drop * m.Keys,
                map x | x in put && x in m && put[x] != m[x] :: put[x])
    case (Set, UpdElems(add, del), Elems(s)) => ElemsDiff(add - s, del * s)
    case (DictOf(entry, key), UpdEntries(upd, rem), Entries(e)) =>
      EntriesDiff(
        map x | x in upd && x !in e && CanCreate(entry, Keyed(key, x, upd[x])) :: Create(entry, Keyed(key, x, upd[x])),
        rem * e.Keys,
        map x | x in upd && x in e && HasChanged(Changes(entry, Keyed(key, x, upd[x]), e[x])) ::
          Changes(entry, Keyed(key, x, upd[x]), e[x]))
    case (Nested(inner, _), UpdSub(sub), Sub(o)) =>
      if o.Some? && HasChanged(Changes(inner, sub, o.value)) then SubDiff(Changes(inner, sub, o.value)) else Same
    case (Object(props), UpdObj(parts), Obj(fields)) =>
      ObjDiff(map p | p in props && p in parts && p in fields :: Changes(props[p], parts[p], fields[p]))
    case _ => Same
  }

  // ---------------------------------------------------------------- the client

  /** A replica replays a diff: add, update what is present, remove. */
  function Replay(d: Diff, v: Value): Value
    decreases d
  {
    match (d, v)
    case (Changed(_, current), One(_)) => One(current)
    case (PlainDiff(added, removed, updated), Plain(m)) =>
      Plain((m + added + map x | x in updated && x in m :: updated[x]) - removed)
    case (ElemsDiff(plus, minus), Elems(s)) => Elems((s + plus) - minus)
    case (EntriesDiff(born, gone, touched), Entries(e)) =>
      Entries((e + born + map x | x in touched && x in e :: Replay(touched[x], e[x])) - gone)
    case (SubDiff(inner), Sub(o)) => Sub(if o.Some? then Some(Replay(inner, o.value)) else None)
    case (ObjDiff(deltas), Obj(fields)) =>
      Obj(map p | p in fields :: if p in deltas then Replay(deltas[p], fields[p]) else fields[p])
    case _ => v
  }

  // ---------------------------------------------------------------- HasChanged is exact

  /** A diff without changes moves no replica, whatever the replica holds. */
  lemma {:induction false} QuietDiffIsIdentity(d: Diff, v: Value)
    requires !HasChanged(d)
    ensures Replay(d, v) == v
    decreases d
  {
    match (d, v) {
      case (ObjDiff(deltas), Obj(fields)) =>
        forall p | p in fields && p in deltas ensures Replay(deltas[p], fields[p]) == fields[p] {
          QuietDiffIsIdentity(deltas[p], fields[p]);
        }
        assert Replay(d, v).fields == fields;
      case (SubDiff(inner), Sub(o)) => if o.Some? { QuietDiffIsIdentity(inner, o.value); }
      case (PlainDiff(_, _, _), Plain(m)) => assert Replay(d, v).m == m;
      case (EntriesDiff(_, _, _), Entries(e)) => assert Replay(d, v).e == e;
      case _ =>
    }
  }

  /** A reported change is a real one for the replica that holds the old value. */
  lemma {:induction false} LoudDiffMoves(k: Kind, u: Update, v: Value)
    requires HasChanged(Changes(k, u, v))
    ensures Replay(Changes(k, u, v), v) != v
    decreases k
  {
    var d := Changes(k, u, v);
    match (k, u, v) {
      case (Dict, UpdPlain(put, drop), Plain(m)) => PlainMoves(d, m);
      case (Set, UpdElems(_, _), Elems(s)) =>
        if d.plus != {} { var x :| x in d.plus; assert x in Replay(d, v).s; }
        else { var x :| x in d.minus; assert x !in Replay(d, v).s; }
      case (DictOf(entry, key), UpdEntries(upd, rem), Entries(e)) =>
        forall x | x in d.touched ensures Replay(d.touched[x], e[x]) != e[x] {
          LoudDiffMoves(entry, Keyed(key, x, upd[x]), e[x]);
        }
        EntriesMove(d, e);
      case (Nested(inner, _), UpdSub(sub), Sub(o)) => LoudDiffMoves(inner, sub, o.value);
      case (Object(props), UpdObj(parts), Obj(fields)) =>
        var p :| p in d.deltas && HasChanged(d.deltas[p]);
        LoudDiffMoves(props[p], parts[p], fields[p]);
        assert Replay(d, v).fields[p] != fields[p];
      case _ =>
    }
  }

  lemma {:induction false} PlainMoves(d: Diff, m: map<Atom, Atom>)
    requires d.PlainDiff? && HasChanged(d)
    requires d.added.Keys !! m.Keys && d.removed <= m.Keys && d.updated.Keys <= m.Keys
    requires forall x | x in d.updated :: d.updated[x] != m[x]
    ensures Replay(d, Plain(m)) != Plain(m)
  {
    var after := Replay(d, Plain(m)).m;
    if d.added != map[] { var x :| x in d.added; assert x in after; }
    else if d.removed != {} { var x :| x in d.removed; assert x !in after; }
    else { var x :| x in d.updated; assert after[x] != m[x]; }
  }

  lemma {:induction false} EntriesMove(d: Diff, e: map<Atom, Value>)
    requires d.EntriesDiff? && HasChanged(d)
    requires d.born.Keys !! e.Keys && d.gone <= e.Keys && d.touched.Keys <= e.Keys
    requires forall x | x in d.touched :: Replay(d.touched[x], e[x]) != e[x]
    ensures Replay(d, Entries(e)) != Entries(e)
  {
    var after := Replay(d, Entries(e)).e;
    if d.born != map[] { var x :| x in d.born; assert x in after; }
    else if d.gone != {} { var x :| x in d.gone; assert x !in after; }
    else { var x :| x in d.touched; assert after[x] != e[x]; }
  }

  /** HasChanged holds exactly when replaying the diff alters the old value. */
  lemma {:induction false} HasChangedIsExact(k: Kind, u: Update, v: Value)
    ensures HasChanged(Changes(k, u, v)) <==> Replay(Changes(k, u, v), v) != v
  {
    if HasChanged(Changes(k, u, v)) { LoudDiffMoves(k, u, v); } else { QuietDiffIsIdentity(Changes(k, u, v), v); }
  }

  // ---------------------------------------------------------------- when nothing is reported

  /**
   * The update only says what the old value already holds: each set scalar is init-only or equal, each
   * put key present with that value, nothing present is removed, each entry present and told nothing
   * new or absent and not creatable.
   */
  predicate Quiet(k: Kind, u: Update, v: Value)
    decreases k
  {
    match (k, u, v)
    case (Scalar(_, initOnly, _), SetOne(a), One(was)) => initOnly || a == was
    case (Dict, UpdPlain(put, drop), Plain(m)) => drop !! m.Keys && forall x | x in put :: x in m && m[x] == put[x]
    case (Set, UpdElems(add, del), Elems(s)) => add <= s && del !! s
    case (DictOf(entry, key), UpdEntries(upd, rem), Entries(e)) =>
      rem !! e.Keys && forall x | x in upd ::
        if x in e then Quiet(entry, Keyed(key, x, upd[x]), e[x]) else !CanCreate(entry, Keyed(key, x, upd[x]))
    case (Nested(inner, _), UpdSub(sub), Sub(o)) => o.Some? ==> Quiet(inner, sub, o.value)
    case (Object(props), UpdObj(parts), Obj(fields)) =>
      forall p | p in props && p in parts && p in fields :: Quiet(props[p], parts[p], fields[p])
    case _ => true
  }

  ghost predicate QuietIff(k: Kind, u: Update, v: Value) {
    !HasChanged(Changes(k, u, v)) <==> Quiet(k, u, v)
  }

  /** No change is reported exactly when the update says nothing new. */
  lemma {:induction false} QuietIsExact(k: Kind, u: Update, v: Value)
    ensures !HasChanged(Changes(k, u, v)) <==> Quiet(k, u, v)
    decreases k
  {
    match (k, u, v) {
      case (Dict, UpdPlain(put, drop), Plain(m)) => QuietPlain(put, drop, m);
      case (Set, UpdElems(add, del), Elems(s)) => QuietElems(add, del, s);
      case (DictOf(entry, key), UpdEntries(upd, rem), Entries(e)) =>
        forall x | x in upd && x in e ensures QuietIff(entry, Keyed(key, x, upd[x]), e[x]) {
          QuietIsExact(entry, Keyed(key, x, upd[x]), e[x]);
        }
        QuietEntries(entry, key, upd, rem, e);
      case (Nested(inner, _), UpdSub(sub), Sub(o)) => if o.Some? { QuietIsExact(inner, sub, o.value); }
      case (Object(props), UpdObj(parts), Obj(fields)) =>
        forall p | p in props && p in parts && p in fields ensures QuietIff(props[p], parts[p], fields[p]) {
          QuietIsExact(props[p], parts[p], fields[p]);
        }
        QuietObject(props, parts, fields);
      case _ =>
    }
  }

  lemma {:induction false} QuietPlain(put: map<Atom, Atom>, drop: set<Atom>, m: map<Atom, Atom>)
    ensures QuietIff(Dict, UpdPlain(put, drop), Plain(m))
  {
    var d := Changes(Dict, UpdPlain(put, drop), Plain(m));
    if x :| x in put && (x !in m || m[x] != put[x]) { assert x in d.added || x in d.updated; }
    else if x :| x in drop && x in m { assert x in d.removed; }
    else { assert d.added == map[] && d.removed == {} && d.updated == map[]; }
  }

  lemma {:induction false} QuietElems(add: set<Atom>, del: set<Atom>, s: set<Atom>)
    ensures QuietIff(Set, UpdElems(add, del), Elems(s))
  {
    var d := Changes(Set, UpdElems(add, del), Elems(s));
    if x :| x in add && x !in s { assert x in d.plus; }
    else if x :| x in del && x in s { assert x in d.minus; }
    else { assert d.plus == {} && d.minus == {}; }
  }

  lemma {:induction false} QuietEntries(entry: Kind, key: Option<Property>, upd: map<Atom, Update>, rem: set<Atom>, e: map<Atom, Value>)
    requires forall x | x in upd && x in e :: QuietIff(entry, Keyed(key, x, upd[x]), e[x])
    ensures QuietIff(DictOf(entry, key), UpdEntries(upd, rem), Entries(e))
  {
    hide CanCreate, Create, Keyed;
    var d := Changes(DictOf(entry, key), UpdEntries(upd, rem), Entries(e));
    if x :| x in upd && x !in e && CanCreate(entry, Keyed(key, x, upd[x])) { assert x in d.born; }
    else if x :| x in upd && x in e && !Quiet(entry, Keyed(key, x, upd[x]), e[x]) { assert x in d.touched; }
    else if x :| x in rem && x in e { assert x in d.gone; }
    else { assert d.born == map[] && d.gone == {} && d.touched == map[]; }
  }

  lemma {:induction false} QuietObject(props: map<Property, Kind>, parts: map<Property, Update>, fields: map<Property, Value>)
    requires forall p | p in props && p in parts && p in fields :: QuietIff(props[p], parts[p], fields[p])
    ensures QuietIff(Object(props), UpdObj(parts), Obj(fields))
  {
    var d := Changes(Object(props), UpdObj(parts), Obj(fields));
    if p :| p in props && p in parts && p in fields && !Quiet(props[p], parts[p], fields[p]) { assert HasChanged(d.deltas[p]); }
  }
}
