/**
 * The members the generator emits, as loops over their dictionaries and sets.  Each is proved to
 * compute the function of the same meaning in DiffEngine.  `Target` is the object (or the `ref`
 * struct) an updater changes in place; a dictionary entry is updated in a target of its own and
 * stored back.
 */
module EmittedCode {
  import opened Optional
  import opened Schema
  import opened DiffEngine
  import opened ReplayExact
  import opened Effects

  /** Changes(old): for a property, or for a whole annotated type by visiting its properties. */
  method ChangesOf(k: Kind, u: Update, v: Value) returns (d: Diff)
    requires WellFormed(k) && Fits(k, v) && FitsUpdate(k, u)
    ensures d == Changes(k, u, v)
    decreases k, 3
  {
    match k {
      case Scalar(_, initOnly, _) =>
        d := if u.SetOne? && !initOnly && u.a != v.a then Changed(v.a, u.a) else Same;
      case Dict => if u.UpdPlain? { d := PlainChanges(u.put, u.drop, v.m); } else { d := Same; }
      case Set => if u.UpdElems? { d := ElemsDiff(u.add - v.s, u.del * v.s); } else { d := Same; }
      case DictOf(entry, key) =>
        if u.UpdEntries? { d := EntriesChanges(entry, key, u, v.e); } else { d := Same; }
      case Nested(inner, _) =>
        d := Same;
        if u.UpdSub? && v.o.Some? {
          var nested := ChangesOf(inner, u.sub, v.o.value);
          if HasChanged(nested) { d := SubDiff(nested); }
        }
      case Object(props) => d := ObjectChangesOf(props, u, v);
    }
  }

  /** The body of Changes for an annotated type: one diff per property, passed to the record constructor. */
  method ObjectChangesOf(props: map<Property, Kind>, u: Update, v: Value) returns (d: Diff)
    requires WellFormed(Object(props)) && Fits(Object(props), v) && FitsUpdate(Object(props), u)
    ensures d == Changes(Object(props), u, v)
    decreases Object(props), 2
  {
    var deltas := PropertyChanges(props, u.parts, v.fields);
    d := ObjDiff(deltas);
    assert deltas == Changes(Object(props), u, v).deltas;
  }

  method PropertyChanges(props: map<Property, Kind>, parts: map<Property, Update>, fields: map<Property, Value>)
    returns (deltas: map<Property, Diff>)
    requires WellFormed(Object(props)) && Fits(Object(props), Obj(fields)) && FitsUpdate(Object(props), UpdObj(parts))
    ensures deltas == map p | p in parts :: Changes(props[p], parts[p], fields[p])
    decreases Object(props), 1
  {
    hide Changes;
    deltas := map[];
    var todo := parts.Keys;
    while todo != {}
      invariant todo <= parts.Keys && deltas.Keys == parts.Keys - todo
      invariant forall p | p in deltas :: deltas[p] == Changes(props[p], parts[p], fields[p])
      decreases todo
    {
      var p :| p in todo;
      var delta := ChangesOf(props[p], parts[p], fields[p]);
      deltas := deltas[p := delta];
      todo := todo - {p};
    }
  }

  /** The foreach loops over a plain dictionary's ToSet and ToRemove, against the old dictionary. */
  method PlainChanges(put: map<Atom, Atom>, drop: set<Atom>, m: map<Atom, Atom>) returns (d: Diff)
    ensures d == Changes(Dict, UpdPlain(put, drop), Plain(m))
  {
    var added: map<Atom, Atom>, updated: map<Atom, Atom> := map[], map[];
    var todo := put.Keys;
    while todo != {}
      invariant todo <= put.Keys
      invariant added == map x | x in put && x !in todo && x !in m :: put[x]
      invariant updated == map x | x in put && x !in todo && x in m && put[x] != m[x] :: put[x]
      decreases todo
    {
      var x :| x in todo;
      if x in m {
        if m[x] != put[x] { updated := updated[x := put[x]]; }
      } else {
        added := added[x := put[x]];
      }
      todo := todo - {x};
    }
    var removed := PresentOf(drop, m.Keys);
    d := PlainDiff(added, removed, updated);
  }

  /** The foreach loops over an updater dictionary: diff what exists, TryCreate what does not. */
  method EntriesChanges(entry: Kind, key: Option<Property>, u: Update, e: map<Atom, Value>) returns (d: Diff)
    requires WellFormed(DictOf(entry, key)) && u.UpdEntries? && FitsUpdate(DictOf(entry, key), u) && Fits(DictOf(entry, key), Entries(e))
    ensures d == Changes(DictOf(entry, key), u, Entries(e))
    decreases entry, 8
  {
    hide Create, CanCreate, HasChanged, Keyed, Apply;
    var added, updated := DiffOrCreate(entry, key, u, e);
    var removed := PresentOf(u.rem, e.Keys);
    d := EntriesDiff(added, removed, updated);
  }

  /** The foreach loop over a ToRemove: only keys of the old dictionary are reported. */
  method PresentOf(drop: set<Atom>, keys: set<Atom>) returns (removed: set<Atom>)
    ensures removed == drop * keys
  {
    removed := {};
    var todo := drop;
    while todo != {}
      invariant todo <= drop && removed == (drop - todo) * keys
      decreases todo
    {
      var x :| x in todo;
      if x in keys { removed := removed + {x}; }
      todo := todo - {x};
    }
  }

  /** The entries reported as added (TryCreate succeeded) and as updated (their own diff has changes). */
  method DiffOrCreate(entry: Kind, key: Option<Property>, u: Update, e: map<Atom, Value>)
    returns (added: map<Atom, Value>, updated: map<Atom, Diff>)
    requires WellFormed(DictOf(entry, key)) && u.UpdEntries? && FitsUpdate(DictOf(entry, key), u) && Fits(DictOf(entry, key), Entries(e))
    ensures added == map x | x in u.upd && x !in e && CanCreate(entry, Keyed(key, x, u.upd[x])) :: Create(entry, Keyed(key, x, u.upd[x]))
    ensures updated == map x | x in u.upd && x in e && HasChanged(Changes(entry, Keyed(key, x, u.upd[x]), e[x])) ::
              Changes(entry, Keyed(key, x, u.upd[x]), e[x])
    decreases entry, 7
  {
    hide Changes, Create, CanCreate, HasChanged, Keyed, Fits, FitsUpdate, WellFormed;
    added, updated := map[], map[];
    var todo := u.upd.Keys;
    while todo != {}
      invariant todo <= u.upd.Keys
      invariant forall x :: x in added <==> x in u.upd && x !in todo && x !in e && CanCreate(entry, Keyed(key, x, u.upd[x]))
      invariant forall x | x in added :: added[x] == Create(entry, Keyed(key, x, u.upd[x]))
      invariant forall x :: x in updated <==> x in u.upd && x !in todo && x in e && HasChanged(Changes(entry, Keyed(key, x, u.upd[x]), e[x]))
      invariant forall x | x in updated :: updated[x] == Changes(entry, Keyed(key, x, u.upd[x]), e[x])
      decreases todo
    {
      var x :| x in todo;
      var w := Keyed(key, x, u.upd[x]);
      EntryFits(entry, key, u, e, x);
      var created, changed := DiffOrCreateOne(entry, w, At(e, x));
      if changed.Some? { updated := updated[x := changed.value]; }
      if created.Some? { added := added[x := created.value]; }
      todo := todo - {x};
    }
  }

  lemma {:induction false} EntryFits(entry: Kind, key: Option<Property>, u: Update, e: map<Atom, Value>, x: Atom)
    requires WellFormed(DictOf(entry, key)) && FitsUpdate(DictOf(entry, key), u) && u.UpdEntries? && Fits(DictOf(entry, key), Entries(e)) && x in u.upd
    ensures WellFormed(entry) && entry.Object? && FitsUpdate(entry, Keyed(key, x, u.upd[x])) && (x in e ==> Fits(entry, e[x]))
  {
    KeyedFits(entry, key, x, u.upd[x]);
  }

  /** The branches of that loop: an existing entry is diffed, an absent one goes through TryCreate. */
  method DiffOrCreateOne(entry: Kind, w: Update, existing: Option<Value>) returns (created: Option<Value>, changed: Option<Diff>)
    requires WellFormed(entry) && entry.Object? && FitsUpdate(entry, w) && (existing.Some? ==> Fits(entry, existing.value))
    ensures created == if existing.None? && CanCreate(entry, w) then Some(Create(entry, w)) else None
    ensures changed == if existing.Some? && HasChanged(Changes(entry, w, existing.value)) then Some(Changes(entry, w, existing.value)) else None
    decreases entry, 6
  {
    hide Changes, Create, CanCreate, HasChanged, Complete, Made;
    created, changed := None, None;
    if existing.Some? {
      var entryChanges := ChangesOf(entry, w, existing.value);
      if HasChanged(entryChanges) { changed := Some(entryChanges); }
    } else {
      created := TryCreate(entry, w);
    }
  }

  /** TryCreate: validate the required members, initialise, then AppendUpdate onto the new object. */
  method TryCreate(k: Kind, u: Update) returns (r: Option<Value>)
    requires WellFormed(k) && FitsUpdate(k, u) && k.Object?
    ensures r == if CanCreate(k, u) then Some(Create(k, u)) else None
    ensures (r.Some? <==> Complete(k, u)) && (r.Some? ==> Made(k, u, r.value))
    decreases k, 5
  {
    CreatableIff(k, u);
    if CanCreate(k, u) { CreateIsMade(k, u); }
    hide Apply, Changes, Initial, CanCreate, Complete, Made, Effect, Reported;
    ObjectInitial(k.props, u.parts);
    var members := InitialMembers(k.props, u.parts);
    if members.None? { return None; }
    InitialFits(k, u);
    var result := new Target(Obj(members.value));
    var _ := result.AppendUpdate(k, u);
    r := Some(result.value);
  }

  /** TryCreate of a whole object, property by property. */
  lemma {:induction false} ObjectInitial(props: map<Property, Kind>, parts: map<Property, Update>)
    ensures CanCreate(Object(props), UpdObj(parts)) <==> forall p | p in props :: CanCreate(props[p], Part(parts, p))
    ensures Initial(Object(props), UpdObj(parts)) == Obj(map p | p in props :: Initial(props[p], Part(parts, p)))
  {
  }

  /** The required checks and the object initializer, property by property; None as soon as one is missing. */
  method InitialMembers(props: map<Property, Kind>, parts: map<Property, Update>) returns (r: Option<map<Property, Value>>)
    requires WellFormed(Object(props)) && FitsUpdate(Object(props), UpdObj(parts))
    ensures r.Some? <==> forall p | p in props :: CanCreate(props[p], Part(parts, p))
    ensures r.Some? ==> r.value == map p | p in props :: Initial(props[p], Part(parts, p))
    decreases Object(props), 2
  {
    hide CanCreate, Initial;
    var members: map<Property, Value> := map[];
    var todo := props.Keys;
    while todo != {}
      invariant todo <= props.Keys && members.Keys == props.Keys - todo
      invariant forall p | p in members :: CanCreate(props[p], Part(parts, p)) && members[p] == Initial(props[p], Part(parts, p))
      decreases todo
    {
      var p :| p in todo;
      var member := InitialMember(props[p], Part(parts, p));
      if member.None? { return None; }
      members := members[p := member.value];
      todo := todo - {p};
    }
    r := Some(members);
  }

  /** What the object initializer assigns to one property; None when a required one is missing. */
  method InitialMember(k: Kind, u: Update) returns (r: Option<Value>)
    requires WellFormed(k) && FitsUpdate(k, u) && !k.Object?
    ensures r == if CanCreate(k, u) then Some(Initial(k, u)) else None
    decreases k, 0
  {
    match k {
      case Scalar(required, _, dflt) =>
        if required && !u.SetOne? { return None; }
        r := Some(One(if required then u.a else dflt));
      case Dict => r := Some(Plain(map[]));
      case Set => r := Some(Elems({}));
      case DictOf(_, _) => r := Some(Entries(map[]));
      case Nested(inner, mandatory) =>
        if !mandatory { return Some(Sub(None)); }
        if !u.UpdSub? { return None; }
        var created := TryCreate(inner, u.sub);
        r := if created.Some? then Some(Sub(created)) else None;
    }
  }

  /** AppendUpdate on one property: assign, union/except, update-or-create entries, or replace. */
  method ApplyMember(k: Kind, u: Update, v: Value) returns (r: Value)
    requires WellFormed(k) && Fits(k, v) && FitsUpdate(k, u) && !k.Object?
    ensures r == Apply(k, u, v)
    decreases k, 0
  {
    r := v;
    match k {
      case Scalar(_, initOnly, _) => if !initOnly && u.SetOne? { r := One(u.a); }
      case Dict => if u.UpdPlain? { var m := PutAndDrop(u.put, u.drop, v.m); r := Plain(m); }
      case Set => if u.UpdElems? { r := Elems((v.s + u.add) - u.del); }
      case DictOf(entry, key) => if u.UpdEntries? { var e := UpdateOrCreate(entry, key, u, v.e); r := Entries(e); }
      case Nested(inner, _) =>
        if u.UpdSub? {
          var created := TryCreate(inner, u.sub);
          if created.Some? { r := Sub(created); }
        }
    }
  }

  method PutAndDrop(put: map<Atom, Atom>, drop: set<Atom>, m: map<Atom, Atom>) returns (r: map<Atom, Atom>)
    ensures r == (m + put) - drop
  {
    r := m;
    var todo := put.Keys;
    while todo != {}
      invariant todo <= put.Keys && r == m + map x | x in put && x !in todo :: put[x]
      decreases todo
    {
      var x :| x in todo;
      r := r[x := put[x]];
      todo := todo - {x};
    }
    assert r == m + put;
    r := r - drop;
  }

  /** The foreach loop over an updater dictionary, then the removals. */
  method UpdateOrCreate(entry: Kind, key: Option<Property>, u: Update, e: map<Atom, Value>) returns (r: map<Atom, Value>)
    requires WellFormed(DictOf(entry, key)) && u.UpdEntries? && FitsUpdate(DictOf(entry, key), u) && Fits(DictOf(entry, key), Entries(e))
    ensures Entries(r) == Apply(DictOf(entry, key), u, Entries(e))
    decreases entry, 6
  {
    hide Changes, Create, CanCreate, Apply, Keyed, Effect, Reported, Complete, Made, Fits, FitsUpdate, WellFormed;
    r := e;
    var todo := u.upd.Keys;
    while todo != {}
      invariant todo <= u.upd.Keys
      invariant forall x :: At(r, x) == if x in u.upd && x !in todo then EntryBeforeRemoval(entry, key, u, e, x) else At(e, x)
      decreases todo
    {
      var x :| x in todo;
      var w := Keyed(key, x, u.upd[x]);
      EntryFits(entry, key, u, e, x);
      assert At(r, x) == At(e, x);
      ghost var before := r;
      if x in r {
        var existing := new Target(r[x]);
        var _ := existing.AppendUpdate(entry, w);
        r := r[x := existing.value];
      } else {
        var created := TryCreate(entry, w);
        if created.Some? { r := r[x := created.value]; }
      }
      assert At(r, x) == EntryBeforeRemoval(entry, key, u, e, x);
      assert forall y | y != x :: At(r, y) == At(before, y);
      todo := todo - {x};
    }
    r := r - u.rem;
    var b := EntriesApply(entry, key, u, e);
    forall x ensures At(r, x) == At(b, x) {
    }
    SameEntries(r, b);
  }

  function EntryBeforeRemoval(entry: Kind, key: Option<Property>, u: Update, e: map<Atom, Value>, x: Atom): Option<Value>
    requires u.UpdEntries? && x in u.upd
  {
    if x in e then Some(Apply(entry, Keyed(key, x, u.upd[x]), e[x]))
    else if CanCreate(entry, Keyed(key, x, u.upd[x])) then Some(Create(entry, Keyed(key, x, u.upd[x])))
    else None
  }

  lemma {:induction false} MembersFit(k: Kind, u: Update, v: Value)
    requires k.Object? && WellFormed(k) && Fits(k, v) && FitsUpdate(k, u)
    ensures u.UpdObj? && v.Obj? && v.fields.Keys == k.props.Keys
    ensures forall p | p in k.props ::
      WellFormed(k.props[p]) && !k.props[p].Object? && Fits(k.props[p], v.fields[p]) && FitsUpdate(k.props[p], Part(u.parts, p))
  {
  }

  lemma {:induction false} AppliedFields(k: Kind, u: Update, v: Value)
    requires k.Object? && u.UpdObj? && v.Obj? && v.fields.Keys == k.props.Keys
    ensures Apply(k, u, v) == Obj(map p | p in k.props :: Apply(k.props[p], Part(u.parts, p), v.fields[p]))
  {
    assert Apply(k, u, v).fields == map p | p in k.props :: Apply(k.props[p], Part(u.parts, p), v.fields[p]);
  }

  /** The object an updater works on in place. */
  class Target {
    var value: Value

    constructor (value: Value)
      ensures this.value == value
    {
      this.value := value;
    }

    /** AppendUpdate(target, out changes): diff first, then change the target property by property. */
    method AppendUpdate(k: Kind, u: Update) returns (changes: Diff)
      requires k.Object? && WellFormed(k) && Fits(k, value) && FitsUpdate(k, u)
      modifies this
      ensures changes == Changes(k, u, old(value))
      ensures value == Apply(k, u, old(value))
      ensures Effect(k, u, old(value), value) && Reported(k, u, old(value), changes)
      decreases k, 4
    {
      hide Effect, Reported, Changes, Apply, Fits, FitsUpdate, WellFormed;
      changes := ChangesOf(k, u, value);
      ChangesIsReported(k, u, value);
      ApplyIsEffect(k, u, value);
      MembersFit(k, u, value);
      AppliedFields(k, u, value);
      ghost var was := value.fields;
      var todo := k.props.Keys;
      while todo != {}
        invariant todo <= k.props.Keys && value.Obj? && value.fields.Keys == k.props.Keys
        invariant forall p | p in k.props ::
          value.fields[p] == if p in todo then was[p] else Apply(k.props[p], Part(u.parts, p), was[p])
        decreases todo
      {
        var p :| p in todo;
        var member := ApplyMember(k.props[p], Part(u.parts, p), value.fields[p]);
        value := Obj(value.fields[p := member]);
        todo := todo - {p};
      }
      assert value.fields == map p | p in k.props :: Apply(k.props[p], Part(u.parts, p), was[p]);
    }
  }
}
