/**
 * What an update brings about, said place by place: which keys a dictionary has afterwards, what each
 * property holds, what a created value consists of and what is reported.  AppendUpdate, TryCreate and
 * Changes are proved to do exactly that.
 */
module Effects {
  import opened Optional
  import opened Schema
  import opened DiffEngine
  import opened ReplayExact

  // ---------------------------------------------------------------- what creation demands

  /** The property at the end of the path must be set before a value of the kind can be created. */
  predicate Demands(k: Kind, path: seq<Property>)
    decreases k
  {
    match k
    case Scalar(required, _, _) => required && path == []
    case Nested(inner, mandatory) => mandatory && (path == [] || Demands(inner, path))
    case Object(props) => path != [] && path[0] in props && Demands(props[path[0]], path[1..])
    case _ => false
  }

  /** The updater sets the property at the end of the path. */
  predicate Given(u: Update, path: seq<Property>)
    decreases u
  {
    match u
    case SetOne(_) => path == []
    case UpdSub(sub) => path == [] || Given(sub, path)
    case UpdObj(parts) => path != [] && path[0] in parts && Given(parts[path[0]], path[1..])
    case _ => false
  }

  /** Every demanded property is given. */
  ghost predicate Complete(k: Kind, u: Update) {
    forall path | Demands(k, path) :: Given(u, path)
  }

  /** TryCreate succeeds exactly on a complete updater. */
  lemma {:induction false} CreatableIff(k: Kind, u: Update)
    requires WellFormed(k) && FitsUpdate(k, u)
    ensures CanCreate(k, u) <==> Complete(k, u)
    decreases k
  {
    match k {
      case Scalar(required, _, _) => if required { assert Demands(k, []); }
      case Nested(inner, mandatory) =>
        if mandatory {
          assert Demands(k, []);
          if u.UpdSub? {
            CreatableIff(inner, u.sub);
            forall path | Demands(inner, path) ensures Demands(k, path) && (Given(u, path) <==> Given(u.sub, path)) {
            }
          }
        }
      case Object(props) =>
        forall p | p in props ensures CanCreate(props[p], Part(u.parts, p)) <==> Complete(props[p], Part(u.parts, p)) {
          CreatableIff(props[p], Part(u.parts, p));
        }
        ObjectComplete(props, u);
      case _ =>
    }
  }

  lemma {:induction false} ObjectComplete(props: map<Property, Kind>, u: Update)
    requires u.UpdObj?
    ensures Complete(Object(props), u) <==> forall p | p in props :: Complete(props[p], Part(u.parts, p))
  {
    if Complete(Object(props), u) {
      forall p, path | p in props && Demands(props[p], path) ensures Given(Part(u.parts, p), path) {
        assert ([p] + path)[1..] == path;
        assert Demands(Object(props), [p] + path);
      }
    }
    if forall p | p in props :: Complete(props[p], Part(u.parts, p)) {
      forall path | Demands(Object(props), path) ensures Given(u, path) {
        assert Given(Part(u.parts, path[0]), path[1..]);
      }
    }
  }

  /** The same for a dictionary entry, whose key property need not be given. */
  ghost predicate EntryComplete(entry: Kind, key: Option<Property>, w: Update) {
    forall path | Demands(entry, path) && !(key.Some? && path == [key.value]) :: Given(w, path)
  }

  lemma {:induction false} EntryCreatableIff(entry: Kind, key: Option<Property>, x: Atom, w: Update)
    requires WellFormed(DictOf(entry, key)) && FitsUpdate(entry, w)
    ensures CanCreate(entry, Keyed(key, x, w)) <==> EntryComplete(entry, key, w)
  {
    KeyedFits(entry, key, x, w);
    CreatableIff(entry, Keyed(key, x, w));
    forall path | Demands(entry, path)
      ensures Given(Keyed(key, x, w), path) <==> (key.Some? && path == [key.value]) || Given(w, path)
    {
      if key.Some? && path[0] == key.value { assert Demands(entry.props[key.value], path[1..]) && path == [key.value] + path[1..]; }
    }
  }

  // ---------------------------------------------------------------- what a created value holds

  /** v is a new value: what was set, and defaults elsewhere; an init-only scalar takes part only when required. */
  ghost predicate Made(k: Kind, u: Update, v: Value)
    decreases k, 0
  {
    match k
    case Scalar(required, initOnly, dflt) => v == One(if u.SetOne? && (required || !initOnly) then u.a else dflt)
    case Dict => if u.UpdPlain? then PlainEffect(u.put, u.drop, map[], v) else v == Plain(map[])
    case Set => if u.UpdElems? then ElemsEffect(u.add, u.del, {}, v) else v == Elems({})
    case DictOf(entry, key) =>
      if u.UpdEntries? then v.Entries? && forall x :: EntryAt(entry, key, u, x, None, At(v.e, x)) else v == Entries(map[])
    case Nested(inner, _) =>
      if u.UpdSub? && Complete(inner, u.sub) then v.Sub? && v.o.Some? && Made(inner, u.sub, v.o.value) else v == Sub(None)
    case Object(props) =>
      && u.UpdObj? && v.Obj? && v.fields.Keys == props.Keys
      && forall p | p in props :: Made(props[p], Part(u.parts, p), v.fields[p])
  }

  /** The same for a dictionary entry: its key property holds its key, whatever its updater says of it. */
  ghost predicate MadeEntry(entry: Kind, key: Option<Property>, x: Atom, w: Update, v: Value)
    decreases entry, 1
  {
    && entry.Object? && w.UpdObj? && v.Obj? && v.fields.Keys == entry.props.Keys
    && forall p | p in entry.props ::
         if key == Some(p) then KeyHeld(entry.props[p], x, v.fields[p]) else Made(entry.props[p], Part(w.parts, p), v.fields[p])
  }

  /** A new entry's key property: a scalar assigned the key, unless it can never be assigned. */
  predicate KeyHeld(k: Kind, x: Atom, v: Value) {
    k.Scalar? && v == One(if k.required || !k.initOnly then x else k.dflt)
  }

  // ---------------------------------------------------------------- what an update does

  /** A plain dictionary afterwards: what was put and what was there, without what was dropped. */
  ghost predicate PlainEffect(put: map<Atom, Atom>, drop: set<Atom>, m: map<Atom, Atom>, v: Value) {
    && v.Plain? && (forall x :: x in v.m <==> x !in drop && (x in put || x in m))
    && forall x | x in v.m :: v.m[x] == if x in put then put[x] else if x in m then m[x] else x
  }

  /** A set afterwards. */
  ghost predicate ElemsEffect(add: set<Atom>, del: set<Atom>, s: set<Atom>, v: Value) {
    v.Elems? && forall x :: x in v.s <==> x !in del && (x in add || x in s)
  }

  /** v' is what v becomes under the update, place by place. */
  ghost predicate Effect(k: Kind, u: Update, v: Value, v': Value)
    decreases k, 0
  {
    match k
    case Scalar(_, initOnly, _) => v' == if u.SetOne? && !initOnly then One(u.a) else v
    case Dict => if u.UpdPlain? && v.Plain? then PlainEffect(u.put, u.drop, v.m, v') else v' == v
    case Set => if u.UpdElems? && v.Elems? then ElemsEffect(u.add, u.del, v.s, v') else v' == v
    case DictOf(entry, key) =>
      if u.UpdEntries? && v.Entries? then
        v'.Entries? && forall x :: EntryAt(entry, key, u, x, At(v.e, x), At(v'.e, x))
      else v' == v
    case Nested(inner, _) =>
      if u.UpdSub? && Complete(inner, u.sub) then v'.Sub? && v'.o.Some? && Made(inner, u.sub, v'.o.value) else v' == v
    case Object(props) =>
      if u.UpdObj? && v.Obj? && v.fields.Keys == props.Keys then
        v'.Obj? && v'.fields.Keys == props.Keys && forall p | p in props :: Effect(props[p], Part(u.parts, p), v.fields[p], v'.fields[p])
      else v' == v
  }

  /**
   * What is under key x afterwards: nothing when removed, an existing entry updated in place, a new one
   * when its updater is complete.
   */
  ghost predicate EntryAt(entry: Kind, key: Option<Property>, u: Update, x: Atom, was: Option<Value>, now: Option<Value>)
    decreases entry, 2
  {
    && u.UpdEntries?
    && (now.Some? <==> x !in u.rem && (was.Some? || (x in u.upd && EntryComplete(entry, key, u.upd[x]))))
    && (now.Some? ==>
          if x !in u.upd then now == was
          else if was.Some? then EntryEffect(entry, key, x, u.upd[x], was.value, now.value)
          else MadeEntry(entry, key, x, u.upd[x], now.value))
  }

  /** An existing entry afterwards: its key property holds its key, the rest takes effect as given. */
  ghost predicate EntryEffect(entry: Kind, key: Option<Property>, x: Atom, w: Update, v: Value, v': Value)
    decreases entry, 1
  {
    && entry.Object? && w.UpdObj? && v.Obj? && v'.Obj? && v.fields.Keys == entry.props.Keys && v'.fields.Keys == entry.props.Keys
    && forall p | p in entry.props ::
         if key == Some(p) then v'.fields[p] == (if entry.props[p].Scalar? && !entry.props[p].initOnly then One(x) else v.fields[p])
         else Effect(entry.props[p], Part(w.parts, p), v.fields[p], v'.fields[p])
  }

  // ---------------------------------------------------------------- AppendUpdate and TryCreate do that

  /** AppendUpdate does what Effect says. */
  lemma {:induction false} ApplyIsEffect(k: Kind, u: Update, v: Value)
    requires WellFormed(k) && FitsUpdate(k, u) && Fits(k, v)
    ensures Effect(k, u, v, Apply(k, u, v))
    decreases k, 1
  {
    match k {
      case DictOf(entry, key) => if u.UpdEntries? { EntriesAreEffect(entry, key, u, v.e); }
      case Nested(inner, _) =>
        if u.UpdSub? {
          CreatableIff(inner, u.sub);
          if CanCreate(inner, u.sub) { CreateIsMade(inner, u.sub); }
        }
      case Object(props) =>
        forall p | p in props ensures Effect(props[p], Part(u.parts, p), v.fields[p], Apply(props[p], Part(u.parts, p), v.fields[p])) {
          ApplyIsEffect(props[p], Part(u.parts, p), v.fields[p]);
        }
      case _ =>
    }
  }

  lemma {:induction false} EntriesAreEffect(entry: Kind, key: Option<Property>, u: Update, e: map<Atom, Value>)
    requires WellFormed(DictOf(entry, key)) && FitsUpdate(DictOf(entry, key), u) && u.UpdEntries? && Fits(DictOf(entry, key), Entries(e))
    ensures Effect(DictOf(entry, key), u, Entries(e), Apply(DictOf(entry, key), u, Entries(e)))
    decreases entry, 5
  {
    var b := EntriesApply(entry, key, u, e);
    forall x ensures EntryAt(entry, key, u, x, At(e, x), At(b, x)) {
      EntryIsAt(entry, key, u, e, x);
    }
    hide Apply, EntryAt;
  }

  lemma {:induction false} EntryIsAt(entry: Kind, key: Option<Property>, u: Update, e: map<Atom, Value>, x: Atom)
    requires WellFormed(DictOf(entry, key)) && FitsUpdate(DictOf(entry, key), u) && u.UpdEntries? && Fits(DictOf(entry, key), Entries(e))
    ensures EntryAt(entry, key, u, x, At(e, x), AppliedEntry(entry, key, u, e, x))
    decreases entry, 4
  {
    if x in u.upd {
      EntryCreatableIff(entry, key, x, u.upd[x]);
      if x in e { EntryIsEffect(entry, key, x, u.upd[x], e[x]); }
      else if CanCreate(entry, Keyed(key, x, u.upd[x])) { EntryIsMade(entry, key, x, u.upd[x]); }
    }
    hide Apply, Create, CanCreate, EntryComplete, EntryEffect, MadeEntry, Keyed;
  }

  lemma {:induction false} EntryIsEffect(entry: Kind, key: Option<Property>, x: Atom, w: Update, v: Value)
    requires WellFormed(DictOf(entry, key)) && FitsUpdate(entry, w) && Fits(entry, v)
    ensures EntryEffect(entry, key, x, w, v, Apply(entry, Keyed(key, x, w), v))
    decreases entry, 3
  {
    forall p | p in entry.props && key != Some(p)
      ensures Effect(entry.props[p], Part(w.parts, p), v.fields[p], Apply(entry.props[p], Part(w.parts, p), v.fields[p]))
    {
      ApplyIsEffect(entry.props[p], Part(w.parts, p), v.fields[p]);
    }
    KeyedFields(entry, key, x, w, v);
    hide Effect, Apply, Fits, FitsUpdate;
  }

  /** Applying an entry's updater, property by property. */
  lemma {:induction false} KeyedFields(entry: Kind, key: Option<Property>, x: Atom, w: Update, v: Value)
    requires WellFormed(DictOf(entry, key)) && FitsUpdate(entry, w) && Fits(entry, v)
    ensures var after := Apply(entry, Keyed(key, x, w), v);
      && after.Obj? && after.fields.Keys == entry.props.Keys && v.Obj? && v.fields.Keys == entry.props.Keys
      && forall p | p in entry.props ::
           after.fields[p] == if key != Some(p) then Apply(entry.props[p], Part(w.parts, p), v.fields[p])
                              else if entry.props[p].Scalar? && !entry.props[p].initOnly then One(x) else v.fields[p]
  {
    if key.Some? { assert Fits(entry.props[key.value], v.fields[key.value]); }
  }

  /** Whatever TryCreate hands out is a value made as Made says. */
  lemma {:induction false} CreateIsMade(k: Kind, u: Update)
    requires WellFormed(k) && FitsUpdate(k, u) && CanCreate(k, u)
    ensures Made(k, u, Create(k, u))
    decreases k, 1
  {
    match k {
      case DictOf(entry, key) =>
        if u.UpdEntries? {
          EntriesAreEffect(entry, key, u, map[]);
          hide Create, CanCreate;
          DictMade(entry, key, u, map[]);
        }
      case Nested(inner, mandatory) =>
        if u.UpdSub? {
          CreatableIff(inner, u.sub);
          if CanCreate(inner, u.sub) { CreateIsMade(inner, u.sub); }
        }
      case Object(props) =>
        hide Create;
        ObjectCreate(props, u);
        forall p | p in props ensures Made(props[p], Part(u.parts, p), Create(props[p], Part(u.parts, p))) {
          CreateIsMade(props[p], Part(u.parts, p));
        }
      case _ =>
    }
  }

  /** A new dictionary is what the update makes of an empty one. */
  lemma {:induction false} DictMade(entry: Kind, key: Option<Property>, u: Update, e: map<Atom, Value>)
    requires u.UpdEntries? && e == map[]
    requires Effect(DictOf(entry, key), u, Entries(e), Apply(DictOf(entry, key), u, Entries(e)))
    ensures Made(DictOf(entry, key), u, Create(DictOf(entry, key), u))
  {
    assert Create(DictOf(entry, key), u) == Apply(DictOf(entry, key), u, Entries(map[]));
    hide Apply, Create, CanCreate, EntryEffect, EntryComplete, MadeEntry;
    var b := Create(DictOf(entry, key), u).e;
    forall x ensures EntryAt(entry, key, u, x, None, At(b, x)) {
      assert EntryAt(entry, key, u, x, At(e, x), At(b, x));
    }
  }

  lemma {:induction false} EntryIsMade(entry: Kind, key: Option<Property>, x: Atom, w: Update)
    requires WellFormed(DictOf(entry, key)) && FitsUpdate(entry, w) && CanCreate(entry, Keyed(key, x, w))
    ensures MadeEntry(entry, key, x, w, Create(entry, Keyed(key, x, w)))
    decreases entry, 3
  {
    var props, keyed := entry.props, Keyed(key, x, w);
    ObjectCreate(props, keyed);
    forall p | p in props
      ensures if key == Some(p) then KeyHeld(props[p], x, Create(props[p], Part(keyed.parts, p)))
              else Made(props[p], Part(w.parts, p), Create(props[p], Part(keyed.parts, p)))
    {
      if key != Some(p) {
        assert Part(keyed.parts, p) == Part(w.parts, p) && CanCreate(props[p], Part(w.parts, p));
        CreateIsMade(props[p], Part(w.parts, p));
      }
    }
    hide Create, Made;
  }

  // ---------------------------------------------------------------- and Effect leaves no choice

  /** Effect determines the value that an update leaves. */
  lemma {:induction false} EffectIsUnique(k: Kind, u: Update, v: Value, a: Value, b: Value)
    requires Effect(k, u, v, a) && Effect(k, u, v, b)
    ensures a == b
    decreases k, 1
  {
    match k {
      case Dict => if u.UpdPlain? && v.Plain? { assert a.m == b.m; }
      case Set => if u.UpdElems? && v.Elems? { assert a.s == b.s; }
      case DictOf(entry, key) =>
        if u.UpdEntries? && v.Entries? {
          forall x ensures At(a.e, x) == At(b.e, x) {
            assert EntryAt(entry, key, u, x, At(v.e, x), At(a.e, x)) && EntryAt(entry, key, u, x, At(v.e, x), At(b.e, x));
            if x in a.e && x in u.upd {
              if x in v.e { EntryEffectIsUnique(entry, key, x, u.upd[x], v.e[x], a.e[x], b.e[x]); }
              else { MadeEntryIsUnique(entry, key, x, u.upd[x], a.e[x], b.e[x]); }
            }
          }
          SameEntries(a.e, b.e);
        }
      case Nested(inner, _) => if u.UpdSub? && Complete(inner, u.sub) { MadeIsUnique(inner, u.sub, a.o.value, b.o.value); }
      case Object(props) =>
        if u.UpdObj? && v.Obj? && v.fields.Keys == props.Keys {
          forall p | p in props ensures a.fields[p] == b.fields[p] {
            EffectIsUnique(props[p], Part(u.parts, p), v.fields[p], a.fields[p], b.fields[p]);
          }
          assert a.fields == b.fields;
        }
      case _ =>
    }
  }

  lemma {:induction false} EntryEffectIsUnique(entry: Kind, key: Option<Property>, x: Atom, w: Update, v: Value, a: Value, b: Value)
    requires EntryEffect(entry, key, x, w, v, a) && EntryEffect(entry, key, x, w, v, b)
    ensures a == b
    decreases entry, 3
  {
    forall p | p in entry.props ensures a.fields[p] == b.fields[p] {
      if key != Some(p) { EffectIsUnique(entry.props[p], Part(w.parts, p), v.fields[p], a.fields[p], b.fields[p]); }
    }
    assert a.fields == b.fields;
  }

  lemma {:induction false} MadeIsUnique(k: Kind, u: Update, a: Value, b: Value)
    requires Made(k, u, a) && Made(k, u, b)
    ensures a == b
    decreases k, 1
  {
    match k {
      case Dict => if u.UpdPlain? { assert a.m == b.m; }
      case Set => if u.UpdElems? { assert a.s == b.s; }
      case DictOf(entry, key) =>
        if u.UpdEntries? {
          forall x ensures At(a.e, x) == At(b.e, x) {
            assert EntryAt(entry, key, u, x, None, At(a.e, x)) && EntryAt(entry, key, u, x, None, At(b.e, x));
            if x in a.e { MadeEntryIsUnique(entry, key, x, u.upd[x], a.e[x], b.e[x]); }
          }
          SameEntries(a.e, b.e);
        }
      case Nested(inner, _) => if u.UpdSub? && Complete(inner, u.sub) { MadeIsUnique(inner, u.sub, a.o.value, b.o.value); }
      case Object(props) =>
        forall p | p in props ensures a.fields[p] == b.fields[p] {
          MadeIsUnique(props[p], Part(u.parts, p), a.fields[p], b.fields[p]);
        }
        assert a.fields == b.fields;
      case _ =>
    }
  }

  lemma {:induction false} MadeEntryIsUnique(entry: Kind, key: Option<Property>, x: Atom, w: Update, a: Value, b: Value)
    requires MadeEntry(entry, key, x, w, a) && MadeEntry(entry, key, x, w, b)
    ensures a == b
    decreases entry, 3
  {
    forall p | p in entry.props ensures a.fields[p] == b.fields[p] {
      if key != Some(p) { MadeIsUnique(entry.props[p], Part(w.parts, p), a.fields[p], b.fields[p]); }
    }
    assert a.fields == b.fields;
  }

  // ---------------------------------------------------------------- what is reported

  /** d is what Changes must report of the update against v, place by place. */
  ghost predicate Reported(k: Kind, u: Update, v: Value, d: Diff)
    decreases k, 0
  {
    match k
    case Scalar(_, initOnly, _) => d == if u.SetOne? && v.One? && !initOnly && u.a != v.a then Changed(v.a, u.a) else Same
    case Dict => if u.UpdPlain? && v.Plain? then PlainReported(u.put, u.drop, v.m, d) else d == Same
    case Set =>
      if u.UpdElems? && v.Elems? then
        && d.ElemsDiff? && (forall x :: x in d.plus <==> x in u.add && x !in v.s) && (forall x :: x in d.minus <==> x in u.del && x in v.s)
      else d == Same
    case DictOf(entry, key) =>
      if u.UpdEntries? && v.Entries? then
        d.EntriesDiff? && forall x :: KeyReported(entry, key, u, x, At(v.e, x), d)
      else d == Same
    case Nested(inner, _) =>
      if u.UpdSub? && v.Sub? && v.o.Some? then exists e :: Reported(inner, u.sub, v.o.value, e) && d == if HasChanged(e) then SubDiff(e) else Same
      else d == Same
    case Object(props) =>
      if u.UpdObj? && v.Obj? && v.fields.Keys == props.Keys then
        && d.ObjDiff? && (forall p :: p in d.deltas <==> p in props && p in u.parts)
        && forall p | p in d.deltas && p in props :: Reported(props[p], Part(u.parts, p), v.fields[p], d.deltas[p])
      else d == Same
  }

  ghost predicate PlainReported(put: map<Atom, Atom>, drop: set<Atom>, m: map<Atom, Atom>, d: Diff) {
    && d.PlainDiff? && (forall x :: x in d.added <==> x in put && x !in m) && (forall x :: x in d.removed <==> x in drop && x in m)
    && (forall x :: x in d.updated <==> x in put && x in m && m[x] != put[x])
    && (forall x | x in d.added && x in put :: d.added[x] == put[x]) && forall x | x in d.updated && x in put :: d.updated[x] == put[x]
  }

  /**
   * What is said of key x: gone when removed and present, born when absent and complete, touched when
   * present and its own diff has changes.
   */
  ghost predicate KeyReported(entry: Kind, key: Option<Property>, u: Update, x: Atom, was: Option<Value>, d: Diff)
    decreases entry, 2
  {
    && u.UpdEntries? && d.EntriesDiff? && (x in d.gone <==> x in u.rem && was.Some?)
    && (x in d.born <==> x in u.upd && was.None? && EntryComplete(entry, key, u.upd[x]))
    && (x in d.born && x in u.upd ==> MadeEntry(entry, key, x, u.upd[x], d.born[x]))
    && (x in d.touched ==> x in u.upd && was.Some?)
    && (x in u.upd && was.Some? ==> exists t :: EntryReported(entry, key, x, u.upd[x], was.value, t) && TouchedAs(d, x, t))
  }

  predicate TouchedAs(d: Diff, x: Atom, t: Diff)
    requires d.EntriesDiff?
  {
    if HasChanged(t) then x in d.touched && d.touched[x] == t else x !in d.touched
  }

  /** The diff of an existing entry: its key property against its key, the others as given. */
  ghost predicate EntryReported(entry: Kind, key: Option<Property>, x: Atom, w: Update, v: Value, d: Diff)
    decreases entry, 1
  {
    && entry.Object? && w.UpdObj? && v.Obj? && v.fields.Keys == entry.props.Keys
    && d.ObjDiff? && (forall p :: p in d.deltas <==> p in entry.props && (p in w.parts || key == Some(p)))
    && forall p | p in d.deltas && p in entry.props ::
         if key == Some(p) then
           d.deltas[p] == (if entry.props[p].Scalar? && !entry.props[p].initOnly && v.fields[p].One? && v.fields[p].a != x
                           then Changed(v.fields[p].a, x) else Same)
         else Reported(entry.props[p], Part(w.parts, p), v.fields[p], d.deltas[p])
  }

  /** Changes reports exactly that. */
  lemma {:induction false} ChangesIsReported(k: Kind, u: Update, v: Value)
    requires WellFormed(k) && FitsUpdate(k, u) && Fits(k, v)
    ensures Reported(k, u, v, Changes(k, u, v))
    decreases k, 1
  {
    match k {
      case DictOf(entry, key) => if u.UpdEntries? { EntriesAreReported(entry, key, u, v.e); }
      case Nested(inner, _) => if u.UpdSub? && v.o.Some? { ChangesIsReported(inner, u.sub, v.o.value); }
      case Object(props) =>
        forall p | p in u.parts ensures Reported(props[p], Part(u.parts, p), v.fields[p], Changes(props[p], Part(u.parts, p), v.fields[p])) {
          ChangesIsReported(props[p], Part(u.parts, p), v.fields[p]);
        }
      case _ =>
    }
  }

  lemma {:induction false} EntriesAreReported(entry: Kind, key: Option<Property>, u: Update, e: map<Atom, Value>)
    requires WellFormed(DictOf(entry, key)) && FitsUpdate(DictOf(entry, key), u) && u.UpdEntries? && Fits(DictOf(entry, key), Entries(e))
    ensures Reported(DictOf(entry, key), u, Entries(e), Changes(DictOf(entry, key), u, Entries(e)))
    decreases entry, 5
  {
    var d := Changes(DictOf(entry, key), u, Entries(e));
    forall x ensures KeyReported(entry, key, u, x, At(e, x), d) {
      KeyIsReported(entry, key, u, e, x);
    }
    hide Changes, KeyReported;
  }

  lemma {:induction false} KeyIsReported(entry: Kind, key: Option<Property>, u: Update, e: map<Atom, Value>, x: Atom)
    requires WellFormed(DictOf(entry, key)) && FitsUpdate(DictOf(entry, key), u) && u.UpdEntries? && Fits(DictOf(entry, key), Entries(e))
    ensures KeyReported(entry, key, u, x, At(e, x), Changes(DictOf(entry, key), u, Entries(e)))
    decreases entry, 4
  {
    if x in u.upd {
      EntryCreatableIff(entry, key, x, u.upd[x]);
      if x in e { EntryIsReported(entry, key, x, u.upd[x], e[x]); }
      else if CanCreate(entry, Keyed(key, x, u.upd[x])) { EntryIsMade(entry, key, x, u.upd[x]); }
    }
    DiffAt(entry, key, u, e, x);
    hide Changes, Create, CanCreate, EntryComplete, EntryReported, MadeEntry, Keyed, HasChanged;
  }

  /** One key of a dictionary diff. */
  lemma {:induction false} DiffAt(entry: Kind, key: Option<Property>, u: Update, e: map<Atom, Value>, x: Atom)
    requires u.UpdEntries?
    ensures var d := Changes(DictOf(entry, key), u, Entries(e));
      && d.EntriesDiff? && (x in d.gone <==> x in u.rem && x in e)
      && (x in d.born <==> x in u.upd && x !in e && CanCreate(entry, Keyed(key, x, u.upd[x])))
      && (x in d.born ==> d.born[x] == Create(entry, Keyed(key, x, u.upd[x])))
      && (x in d.touched <==> x in u.upd && x in e && HasChanged(Changes(entry, Keyed(key, x, u.upd[x]), e[x])))
      && (x in d.touched ==> d.touched[x] == Changes(entry, Keyed(key, x, u.upd[x]), e[x]))
  {
    hide Create, CanCreate, Keyed, HasChanged;
  }

  lemma {:induction false} EntryIsReported(entry: Kind, key: Option<Property>, x: Atom, w: Update, v: Value)
    requires WellFormed(DictOf(entry, key)) && FitsUpdate(entry, w) && Fits(entry, v)
    ensures EntryReported(entry, key, x, w, v, Changes(entry, Keyed(key, x, w), v))
    decreases entry, 3
  {
    forall p | p in w.parts && key != Some(p)
      ensures Reported(entry.props[p], Part(w.parts, p), v.fields[p], Changes(entry.props[p], w.parts[p], v.fields[p]))
    {
      ChangesIsReported(entry.props[p], w.parts[p], v.fields[p]);
    }
    KeyedDeltas(entry, key, x, w, v);
    hide Reported, Changes, Fits, FitsUpdate;
  }

  /** The diff of an entry's updater, property by property. */
  lemma {:induction false} KeyedDeltas(entry: Kind, key: Option<Property>, x: Atom, w: Update, v: Value)
    requires WellFormed(DictOf(entry, key)) && FitsUpdate(entry, w) && Fits(entry, v)
    ensures var d := Changes(entry, Keyed(key, x, w), v);
      && d.ObjDiff? && (forall p :: p in d.deltas <==> p in entry.props && (p in w.parts || key == Some(p)))
      && v.Obj? && v.fields.Keys == entry.props.Keys
      && forall p | p in d.deltas ::
           d.deltas[p] == if key != Some(p) then Changes(entry.props[p], Part(w.parts, p), v.fields[p])
                          else if !entry.props[p].initOnly && v.fields[p].One? && v.fields[p].a != x then Changed(v.fields[p].a, x) else Same
  {
    if key.Some? { assert Fits(entry.props[key.value], v.fields[key.value]); }
  }
}
