/**
 * When replaying `Changes(old)` onto the old value gives what `AppendUpdate` leaves: an exact
 * condition on the update and the old value, for every schema, and the same for the client order
 * shown in the documentation.
 */
module ReplayExact {
  import opened Optional
  import opened Schema
  import opened DiffEngine

  // ---------------------------------------------------------------- typing is preserved

  lemma {:induction false} KeyedFits(entry: Kind, key: Option<Property>, x: Atom, u: Update)
    requires entry.Object? && FitsUpdate(entry, u)
    requires key.Some? ==> key.value in entry.props && entry.props[key.value].Scalar?
    ensures FitsUpdate(entry, Keyed(key, x, u))
  {
  }

  lemma {:induction false} InitialFits(k: Kind, u: Update)
    requires WellFormed(k) && FitsUpdate(k, u) && CanCreate(k, u)
    ensures Fits(k, Initial(k, u))
    decreases k, 0
  {
    match k {
      case Object(props) =>
        forall p | p in props ensures Fits(props[p], Initial(props[p], Part(u.parts, p))) {
          InitialFits(props[p], Part(u.parts, p));
        }
      case Nested(inner, mandatory) => if mandatory { CreateFits(inner, u.sub); }
      case _ =>
    }
  }

  lemma {:induction false} CreateFits(k: Kind, u: Update)
    requires WellFormed(k) && FitsUpdate(k, u) && CanCreate(k, u)
    ensures Fits(k, Create(k, u))
    decreases k, 2
  {
    InitialFits(k, u);
    ApplyFits(k, u, Initial(k, u));
  }

  /** AppendUpdate leaves a value of the same annotated type. */
  lemma {:induction false} ApplyFits(k: Kind, u: Update, v: Value)
    requires WellFormed(k) && FitsUpdate(k, u) && Fits(k, v)
    ensures Fits(k, Apply(k, u, v))
    decreases k, 1
  {
    match (k, u, v) {
      case (DictOf(entry, key), UpdEntries(upd, rem), Entries(e)) =>
        forall x | x in upd ensures x in e ==> Fits(entry, Apply(entry, Keyed(key, x, upd[x]), e[x]))
          ensures CanCreate(entry, Keyed(key, x, upd[x])) ==> Fits(entry, Create(entry, Keyed(key, x, upd[x])))
        {
          KeyedFits(entry, key, x, upd[x]);
          if x in e { ApplyFits(entry, Keyed(key, x, upd[x]), e[x]); }
          if CanCreate(entry, Keyed(key, x, upd[x])) { CreateFits(entry, Keyed(key, x, upd[x])); }
        }
      case (Nested(inner, _), UpdSub(sub), Sub(o)) => if CanCreate(inner, sub) { CreateFits(inner, sub); }
      case (Object(props), UpdObj(parts), Obj(fields)) =>
        forall p | p in props ensures Fits(props[p], Apply(props[p], Part(parts, p), fields[p])) {
          ApplyFits(props[p], Part(parts, p), fields[p]);
        }
      case _ =>
    }
  }

  // ---------------------------------------------------------------- the exact replay condition

  /**
   * The update and the old value are such that diff and apply agree.  A key or element that is both
   * set and removed must already be present (or be an entry that cannot be created); a nested
   * property must be present and rebuilt in full, or, when its updater cannot create a value, be told
   * nothing new.
   */
  predicate ReplayAgrees(k: Kind, u: Update, v: Value)
    decreases k
  {
    match (k, u, v)
    case (Dict, UpdPlain(put, drop), Plain(m)) => put.Keys * drop <= m.Keys
    case (Set, UpdElems(add, del), Elems(s)) => add * del <= s
    case (DictOf(entry, key), UpdEntries(upd, rem), Entries(e)) =>
      forall x | x in upd ::
        if x in e then x in rem || ReplayAgrees(entry, Keyed(key, x, upd[x]), e[x])
        else x in rem ==> !CanCreate(entry, Keyed(key, x, upd[x]))
    case (Nested(inner, _), UpdSub(sub), Sub(o)) =>
      if CanCreate(inner, sub) then o.Some? && Rebuilds(inner, sub, o.value)
      else o.Some? ==> Quiet(inner, sub, o.value)
    case (Object(props), UpdObj(parts), Obj(fields)) =>
      forall p | p in props && p in fields :: ReplayAgrees(props[p], Part(parts, p), fields[p])
    case _ => true
  }

  /**
   * The old value v differs from a newly created one only where the update says so: every property
   * is set or already holds what a new object would hold.
   */
  predicate Rebuilds(k: Kind, u: Update, v: Value)
    decreases k
  {
    match (k, v)
    case (Scalar(_, initOnly, _), One(_)) => (u.SetOne? && !initOnly) || v == Initial(k, u)
    case (Dict, Plain(m)) =>
      if u.UpdPlain? then m.Keys <= u.put.Keys + u.drop && u.put.Keys * u.drop <= m.Keys else m == map[]
    case (Set, Elems(s)) =>
      if u.UpdElems? then s <= u.add + u.del && u.add * u.del <= s else s == {}
    case (DictOf(entry, key), Entries(e)) =>
      if u.UpdEntries? then
        && (forall x | x in e :: x in u.rem ||
              (x in u.upd && CanCreate(entry, Keyed(key, x, u.upd[x])) && Rebuilds(entry, Keyed(key, x, u.upd[x]), e[x])))
        && (forall x | x in u.upd && x !in e && x in u.rem :: !CanCreate(entry, Keyed(key, x, u.upd[x])))
      else e == map[]
    case (Nested(inner, _), Sub(o)) =>
      if u.UpdSub? && CanCreate(inner, u.sub) then o.Some? && Rebuilds(inner, u.sub, o.value) else o.None?
    case (Object(props), Obj(fields)) =>
      u.UpdObj? && forall p | p in props && p in fields :: Rebuilds(props[p], Part(u.parts, p), fields[p])
    case _ => true
  }

  ghost predicate RebuildIff(k: Kind, u: Update, v: Value) {
    Replay(Changes(k, u, v), v) == Create(k, u) <==> Rebuilds(k, u, v)
  }

  ghost predicate ReplayIff(k: Kind, u: Update, v: Value) {
    Replay(Changes(k, u, v), v) == Apply(k, u, v) <==> ReplayAgrees(k, u, v)
  }

  function At(e: map<Atom, Value>, x: Atom): Option<Value> {
    if x in e then Some(e[x]) else None
  }

  /** What a replica of e holds under key x after replaying the diff of update u. */
  function ReplayedEntry(entry: Kind, key: Option<Property>, u: Update, e: map<Atom, Value>, x: Atom): Option<Value>
    requires u.UpdEntries?
  {
    if x in e then
      if x in u.rem then None
      else if x in u.upd then Some(Replay(Changes(entry, Keyed(key, x, u.upd[x]), e[x]), e[x]))
      else Some(e[x])
    else if x in u.upd && CanCreate(entry, Keyed(key, x, u.upd[x])) then Some(Create(entry, Keyed(key, x, u.upd[x])))
    else None
  }

  /** What replaying a dictionary diff leaves under key x. */
  function ReplayedAt(d: Diff, e: map<Atom, Value>, x: Atom): Option<Value>
    requires d.EntriesDiff?
  {
    if x in d.gone then None
    else if x in e && x in d.touched then Some(Replay(d.touched[x], e[x]))
    else if x in d.born then Some(d.born[x])
    else At(e, x)
  }

  lemma {:induction false} ReplayAt(d: Diff, e: map<Atom, Value>, x: Atom)
    requires d.EntriesDiff?
    ensures Replay(d, Entries(e)).Entries?
    ensures At(Replay(d, Entries(e)).e, x) == ReplayedAt(d, e, x)
  {
  }

  lemma {:induction false} EntriesReplayAt(entry: Kind, key: Option<Property>, u: Update, e: map<Atom, Value>, x: Atom)
    requires u.UpdEntries?
    ensures Replay(Changes(DictOf(entry, key), u, Entries(e)), Entries(e)).Entries?
    ensures At(Replay(Changes(DictOf(entry, key), u, Entries(e)), Entries(e)).e, x) == ReplayedEntry(entry, key, u, e, x)
  {
    var d := Changes(DictOf(entry, key), u, Entries(e));
    ReplayAt(d, e, x);
    if x in u.upd && x in e && !HasChanged(Changes(entry, Keyed(key, x, u.upd[x]), e[x])) {
      QuietDiffIsIdentity(Changes(entry, Keyed(key, x, u.upd[x]), e[x]), e[x]);
    }
  }

  lemma {:induction false} EntriesReplay(entry: Kind, key: Option<Property>, u: Update, e: map<Atom, Value>) returns (a: map<Atom, Value>)
    requires u.UpdEntries?
    ensures Replay(Changes(DictOf(entry, key), u, Entries(e)), Entries(e)) == Entries(a)
    ensures forall x :: At(a, x) == ReplayedEntry(entry, key, u, e, x)
  {
    EntriesReplayAt(entry, key, u, e, Null);
    a := Replay(Changes(DictOf(entry, key), u, Entries(e)), Entries(e)).e;
    forall x ensures At(a, x) == ReplayedEntry(entry, key, u, e, x) {
      EntriesReplayAt(entry, key, u, e, x);
    }
  }

  /** What AppendUpdate leaves under key x. */
  function AppliedEntry(entry: Kind, key: Option<Property>, u: Update, e: map<Atom, Value>, x: Atom): Option<Value>
    requires u.UpdEntries?
  {
    if x in u.rem then None
    else if x !in u.upd then At(e, x)
    else if x in e then Some(Apply(entry, Keyed(key, x, u.upd[x]), e[x]))
    else if CanCreate(entry, Keyed(key, x, u.upd[x])) then Some(Create(entry, Keyed(key, x, u.upd[x])))
    else None
  }

  lemma {:induction false} EntriesApply(entry: Kind, key: Option<Property>, u: Update, e: map<Atom, Value>) returns (b: map<Atom, Value>)
    requires u.UpdEntries?
    ensures Apply(DictOf(entry, key), u, Entries(e)) == Entries(b)
    ensures forall x :: At(b, x) == AppliedEntry(entry, key, u, e, x)
  {
    b := Apply(DictOf(entry, key), u, Entries(e)).e;
  }

  /** Replaying the diff of object v onto object t, one property at a time. */
  lemma {:induction false} ObjectReplay(props: map<Property, Kind>, u: Update, v: Value, t: Value)
    requires u.UpdObj? && v.Obj? && v.fields.Keys == props.Keys && t.Obj? && t.fields.Keys == props.Keys
    ensures Replay(Changes(Object(props), u, v), t).Obj?
    ensures Replay(Changes(Object(props), u, v), t).fields
         == map p | p in props :: Replay(Changes(props[p], Part(u.parts, p), v.fields[p]), t.fields[p])
  {
    hide Changes, Replay;
    var deltas := ObjectChanges(props, u, v);
    ReplayObject(deltas, t.fields);
    ReplaySame();
  }

  lemma {:induction false} ReplayObject(deltas: map<Property, Diff>, fields: map<Property, Value>)
    ensures Replay(ObjDiff(deltas), Obj(fields))
         == Obj(map p | p in fields :: if p in deltas then Replay(deltas[p], fields[p]) else fields[p])
  {
  }

  lemma {:induction false} ReplaySame()
    ensures forall v :: Replay(Same, v) == v
  {
  }

  lemma {:induction false} ObjectChanges(props: map<Property, Kind>, u: Update, v: Value) returns (deltas: map<Property, Diff>)
    requires u.UpdObj? && v.Obj? && v.fields.Keys == props.Keys
    ensures Changes(Object(props), u, v) == ObjDiff(deltas)
    ensures deltas.Keys <= props.Keys
    ensures forall p | p in props ::
      Changes(props[p], Part(u.parts, p), v.fields[p]) == if p in deltas then deltas[p] else Same
  {
    deltas := Changes(Object(props), u, v).deltas;
  }

  /** One nested diff: stored only when something changed, replayed alike either way. */
  lemma {:induction false} NestedReplay(inner: Kind, mandatory: bool, sub: Update, was: Value, other: Value)
    ensures Replay(Changes(Nested(inner, mandatory), UpdSub(sub), Sub(Some(was))), Sub(Some(other)))
         == Sub(Some(Replay(Changes(inner, sub, was), other)))
  {
    if !HasChanged(Changes(inner, sub, was)) { QuietDiffIsIdentity(Changes(inner, sub, was), other); }
  }

  // ---------------------------------------------------------------- exactness

  /** Replaying the diff of a nested value yields the newly created object exactly when Rebuilds holds. */
  lemma {:induction false} RebuildIsExact(k: Kind, u: Update, v: Value)
    requires WellFormed(k) && Fits(k, v) && FitsUpdate(k, u) && CanCreate(k, u)
    ensures Replay(Changes(k, u, v), v) == Create(k, u) <==> Rebuilds(k, u, v)
    decreases k
  {
    match k {
      case Scalar(_, _, _) =>
      case Dict => PlainRebuild(k, u, v);
      case Set => ElemsRebuild(k, u, v);
      case DictOf(entry, key) =>
        if u.UpdEntries? {
          forall x | x in u.upd && x in v.e && CanCreate(entry, Keyed(key, x, u.upd[x]))
            ensures RebuildIff(entry, Keyed(key, x, u.upd[x]), v.e[x])
          {
            KeyedFits(entry, key, x, u.upd[x]);
            RebuildIsExact(entry, Keyed(key, x, u.upd[x]), v.e[x]);
          }
          EntriesRebuild(entry, key, u, v.e);
        }
      case Nested(inner, mandatory) =>
        if u.UpdSub? && v.o.Some? {
          NestedReplay(inner, mandatory, u.sub, v.o.value, v.o.value);
          if CanCreate(inner, u.sub) { RebuildIsExact(inner, u.sub, v.o.value); }
        }
      case Object(props) =>
        forall p | p in props ensures RebuildIff(props[p], Part(u.parts, p), v.fields[p]) {
          RebuildIsExact(props[p], Part(u.parts, p), v.fields[p]);
        }
        ObjectRebuild(props, u, v);
    }
  }

  lemma {:induction false} PlainRebuild(k: Kind, u: Update, v: Value)
    requires k.Dict? && v.Plain? && (u.Keep? || u.UpdPlain?)
    ensures Replay(Changes(k, u, v), v) == Create(k, u) <==> Rebuilds(k, u, v)
  {
    if u.UpdPlain? {
      PlainReplay(u.put, u.drop, v.m);
      assert Create(k, u) == Plain(u.put - u.drop) by { assert map[] + u.put == u.put; }
      hide Changes, Replay, Create, Apply;
      var a, b := (v.m + u.put) - (u.drop * v.m.Keys), u.put - u.drop;
      if !(v.m.Keys <= u.put.Keys + u.drop) { var x :| x in v.m.Keys && x !in u.put.Keys + u.drop; assert x in a && x !in b; }
      else if !(u.put.Keys * u.drop <= v.m.Keys) { var x :| x in u.put.Keys * u.drop && x !in v.m.Keys; assert x in a && x !in b; }
      else { assert a == b; }
    }
  }

  /** Replaying a plain dictionary diff: everything set arrives, only what was present before is removed. */
  lemma {:induction false} PlainReplay(put: map<Atom, Atom>, drop: set<Atom>, m: map<Atom, Atom>)
    ensures Replay(Changes(Dict, UpdPlain(put, drop), Plain(m)), Plain(m)) == Plain((m + put) - (drop * m.Keys))
  {
    assert Replay(Changes(Dict, UpdPlain(put, drop), Plain(m)), Plain(m)).m == (m + put) - (drop * m.Keys);
  }

  lemma {:induction false} ElemsRebuild(k: Kind, u: Update, v: Value)
    requires k.Set? && v.Elems? && (u.Keep? || u.UpdElems?)
    ensures Replay(Changes(k, u, v), v) == Create(k, u) <==> Rebuilds(k, u, v)
  {
    if u.UpdElems? {
      var a, b := Replay(Changes(k, u, v), v).s, Create(k, u).s;
      if !(v.s <= u.add + u.del) { var x :| x in v.s && x !in u.add + u.del; assert x in a && x !in b; }
      else if !(u.add * u.del <= v.s) { var x :| x in u.add * u.del && x !in v.s; assert x in a && x !in b; }
      else { assert a == b; }
    }
  }

  lemma {:induction false} EntriesRebuild(entry: Kind, key: Option<Property>, u: Update, e: map<Atom, Value>)
    requires u.UpdEntries?
    requires forall x | x in u.upd && x in e && CanCreate(entry, Keyed(key, x, u.upd[x])) ::
               RebuildIff(entry, Keyed(key, x, u.upd[x]), e[x])
    ensures RebuildIff(DictOf(entry, key), u, Entries(e))
  {
    assert Create(DictOf(entry, key), u) == Apply(DictOf(entry, key), u, Entries(map[]));
    RebuildsEntries(entry, key, u, e);
    hide Changes, Replay, Apply, Create, Rebuilds, CanCreate, RebuildsAt, ReplayedEntry, AppliedEntry;
    var a := EntriesReplay(entry, key, u, e);
    var b := EntriesApply(entry, key, u, map[]);
    forall x ensures At(a, x) == At(b, x) <==> RebuildsAt(entry, key, u, e, x) {
      EntryRebuild(entry, key, u, e, x);
    }
    SameEntriesIff(a, b);
  }

  /** Rebuilds for a dictionary of updaters, seen at one key. */
  ghost predicate RebuildsAt(entry: Kind, key: Option<Property>, u: Update, e: map<Atom, Value>, x: Atom)
    requires u.UpdEntries?
  {
    if x in e then x in u.rem || (x in u.upd && CanCreate(entry, Keyed(key, x, u.upd[x])) && Rebuilds(entry, Keyed(key, x, u.upd[x]), e[x]))
    else x in u.upd && x in u.rem ==> !CanCreate(entry, Keyed(key, x, u.upd[x]))
  }

  lemma {:induction false} RebuildsEntries(entry: Kind, key: Option<Property>, u: Update, e: map<Atom, Value>)
    requires u.UpdEntries?
    ensures Rebuilds(DictOf(entry, key), u, Entries(e)) <==> forall x :: RebuildsAt(entry, key, u, e, x)
  {
    if forall x :: RebuildsAt(entry, key, u, e, x) {
      forall x | x in e || x in u.upd ensures RebuildsAt(entry, key, u, e, x) {
      }
    }
  }

  lemma {:induction false} EntryRebuild(entry: Kind, key: Option<Property>, u: Update, e: map<Atom, Value>, x: Atom)
    requires u.UpdEntries?
    requires x in u.upd && x in e && CanCreate(entry, Keyed(key, x, u.upd[x])) ==> RebuildIff(entry, Keyed(key, x, u.upd[x]), e[x])
    ensures ReplayedEntry(entry, key, u, e, x) == AppliedEntry(entry, key, u, map[], x) <==> RebuildsAt(entry, key, u, e, x)
  {
    hide Changes, Replay, Apply, Create, Rebuilds, CanCreate;
  }

  lemma {:induction false} SameEntries(a: map<Atom, Value>, b: map<Atom, Value>)
    requires forall x :: At(a, x) == At(b, x)
    ensures a == b
  {
    forall x ensures x in a <==> x in b ensures x in a ==> a[x] == b[x] {
      assert At(a, x) == At(b, x);
    }
  }

  lemma {:induction false} SameEntriesIff(a: map<Atom, Value>, b: map<Atom, Value>)
    ensures a == b <==> forall x :: At(a, x) == At(b, x)
  {
    if forall x :: At(a, x) == At(b, x) { SameEntries(a, b); }
  }

  lemma {:induction false} ObjectRebuild(props: map<Property, Kind>, u: Update, v: Value)
    requires u.UpdObj? && v.Obj? && v.fields.Keys == props.Keys
    requires forall p | p in props :: RebuildIff(props[p], Part(u.parts, p), v.fields[p])
    ensures RebuildIff(Object(props), u, v)
  {
    hide Apply, Create, Changes, Replay, Rebuilds;
    ObjectReplay(props, u, v, v);
    ObjectCreate(props, u);
    ObjectRebuildsAll(props, u, v);
    var a := map p | p in props :: Replay(Changes(props[p], Part(u.parts, p), v.fields[p]), v.fields[p]);
    var b := map p | p in props :: Create(props[p], Part(u.parts, p));
    assert a == b <==> forall p | p in props :: a[p] == b[p];
  }

  lemma {:induction false} ObjectRebuildsAll(props: map<Property, Kind>, u: Update, v: Value)
    requires u.UpdObj? && v.Obj? && v.fields.Keys == props.Keys
    ensures Rebuilds(Object(props), u, v) <==> forall p | p in props :: Rebuilds(props[p], Part(u.parts, p), v.fields[p])
  {
  }

  lemma {:induction false} ObjectCreate(props: map<Property, Kind>, u: Update)
    requires u.UpdObj?
    ensures Create(Object(props), u) == Obj(map p | p in props :: Create(props[p], Part(u.parts, p)))
  {
    var fields := map p | p in props :: Initial(props[p], Part(u.parts, p));
    assert Initial(Object(props), u) == Obj(fields);
    forall p | p in props
      ensures Create(props[p], Part(u.parts, p)) == Apply(props[p], Part(u.parts, p), fields[p])
    {
    }
  }

  /**
   * The main result: for every schema, update and old value, replaying the reported changes onto the
   * old value gives exactly what AppendUpdate leaves if and only if ReplayAgrees holds.
   */
  lemma {:induction false} ReplayIsExact(k: Kind, u: Update, v: Value)
    requires WellFormed(k) && Fits(k, v) && FitsUpdate(k, u)
    ensures Replay(Changes(k, u, v), v) == Apply(k, u, v) <==> ReplayAgrees(k, u, v)
    decreases k
  {
    match (k, u, v) {
      case (Dict, UpdPlain(put, drop), Plain(m)) => PlainAgrees(put, drop, m);
      case (Set, UpdElems(add, del), Elems(s)) => ElemsAgree(add, del, s);
      case (DictOf(entry, key), UpdEntries(upd, rem), Entries(e)) =>
        forall x | x in upd && x in e ensures ReplayIff(entry, Keyed(key, x, upd[x]), e[x]) {
          KeyedFits(entry, key, x, upd[x]);
          ReplayIsExact(entry, Keyed(key, x, upd[x]), e[x]);
        }
        EntriesAgree(entry, key, u, e);
      case (Nested(inner, mandatory), UpdSub(sub), Sub(o)) =>
        if o.Some? {
          NestedReplay(inner, mandatory, sub, o.value, o.value);
          HasChangedIsExact(inner, sub, o.value);
          QuietIsExact(inner, sub, o.value);
          if CanCreate(inner, sub) { RebuildIsExact(inner, sub, o.value); }
        }
      case (Object(props), UpdObj(parts), Obj(fields)) =>
        forall p | p in props ensures ReplayIff(props[p], Part(parts, p), fields[p]) {
          ReplayIsExact(props[p], Part(parts, p), fields[p]);
        }
        ObjectAgrees(props, parts, fields);
      case _ =>
    }
  }

  lemma {:induction false} PlainAgrees(put: map<Atom, Atom>, drop: set<Atom>, m: map<Atom, Atom>)
    ensures ReplayIff(Dict, UpdPlain(put, drop), Plain(m))
  {
    PlainReplay(put, drop, m);
    var a, b := (m + put) - (drop * m.Keys), (m + put) - drop;
    if put.Keys * drop <= m.Keys { assert a == b; }
    else { var x :| x in put.Keys * drop && x !in m.Keys; assert x in a && x !in b; }
  }

  lemma {:induction false} ElemsAgree(add: set<Atom>, del: set<Atom>, s: set<Atom>)
    ensures ReplayIff(Set, UpdElems(add, del), Elems(s))
  {
    var a := Replay(Changes(Set, UpdElems(add, del), Elems(s)), Elems(s)).s;
    var b := Apply(Set, UpdElems(add, del), Elems(s)).s;
    if add * del <= s { assert a == b; }
    else { var x :| x in add * del && x !in s; assert x in a && x !in b; }
  }

  lemma {:induction false} ObjectAgrees(props: map<Property, Kind>, parts: map<Property, Update>, fields: map<Property, Value>)
    requires fields.Keys == props.Keys
    requires forall p | p in props :: ReplayIff(props[p], Part(parts, p), fields[p])
    ensures ReplayIff(Object(props), UpdObj(parts), Obj(fields))
  {
    ObjectReplay(props, UpdObj(parts), Obj(fields), Obj(fields));
    var a := Replay(Changes(Object(props), UpdObj(parts), Obj(fields)), Obj(fields)).fields;
    var b := Apply(Object(props), UpdObj(parts), Obj(fields)).fields;
    if forall p | p in props :: ReplayAgrees(props[p], Part(parts, p), fields[p]) { assert a == b; }
    else { var p :| p in props && !ReplayAgrees(props[p], Part(parts, p), fields[p]); assert a[p] != b[p]; }
  }

  lemma {:induction false} EntriesAgree(entry: Kind, key: Option<Property>, u: Update, e: map<Atom, Value>)
    requires u.UpdEntries?
    requires forall x | x in u.upd && x in e :: ReplayIff(entry, Keyed(key, x, u.upd[x]), e[x])
    ensures ReplayIff(DictOf(entry, key), u, Entries(e))
  {
    AgreesEntries(entry, key, u, e);
    hide Changes, Replay, Apply, Create, ReplayAgrees, CanCreate, AgreesAt, ReplayedEntry, AppliedEntry;
    var a := EntriesReplay(entry, key, u, e);
    var b := EntriesApply(entry, key, u, e);
    forall x ensures At(a, x) == At(b, x) <==> AgreesAt(entry, key, u, e, x) {
      EntryAgrees(entry, key, u, e, x);
    }
    SameEntriesIff(a, b);
  }

  /** ReplayAgrees for a dictionary of updaters, seen at one key. */
  ghost predicate AgreesAt(entry: Kind, key: Option<Property>, u: Update, e: map<Atom, Value>, x: Atom)
    requires u.UpdEntries?
  {
    x in u.upd ==>
      if x in e then x in u.rem || ReplayAgrees(entry, Keyed(key, x, u.upd[x]), e[x])
      else x in u.rem ==> !CanCreate(entry, Keyed(key, x, u.upd[x]))
  }

  lemma {:induction false} AgreesEntries(entry: Kind, key: Option<Property>, u: Update, e: map<Atom, Value>)
    requires u.UpdEntries?
    ensures ReplayAgrees(DictOf(entry, key), u, Entries(e)) <==> forall x :: AgreesAt(entry, key, u, e, x)
  {
    if forall x :: AgreesAt(entry, key, u, e, x) {
      forall x | x in u.upd ensures AgreesAt(entry, key, u, e, x) {
      }
    }
  }

  lemma {:induction false} EntryAgrees(entry: Kind, key: Option<Property>, u: Update, e: map<Atom, Value>, x: Atom)
    requires u.UpdEntries?
    requires x in u.upd && x in e ==> ReplayIff(entry, Keyed(key, x, u.upd[x]), e[x])
    ensures ReplayedEntry(entry, key, u, e, x) == AppliedEntry(entry, key, u, e, x) <==> AgreesAt(entry, key, u, e, x)
  {
    hide Changes, Replay, Apply, Create, ReplayAgrees, CanCreate;
  }

  /** Under the replay condition a commit is reported exactly when it altered the state. */
  lemma {:induction false} ReportedIffAltered(k: Kind, u: Update, v: Value)
    requires WellFormed(k) && Fits(k, v) && FitsUpdate(k, u) && ReplayAgrees(k, u, v)
    ensures HasChanged(Changes(k, u, v)) <==> Apply(k, u, v) != v
  {
    ReplayIsExact(k, u, v);
    HasChangedIsExact(k, u, v);
  }
}
