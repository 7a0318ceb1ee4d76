/**
 * Clients that replay in the documented order (remove, add, update): a commit that leaves them with a
 * broken entry, and the runs over which they converge all the same.
 */
module DocumentedReplica {
  import opened Optional
  import opened Schema
  import opened DiffEngine
  import opened ReplayExact
  import opened Absorption
  import opened Replica
  import opened Connection
  import opened MachineTypes

  // ---------------------------------------------------------------- where the order goes wrong

  /**
   * A present notification whose condition is met is set again at a new time.  PreprocessState removes
   * it, so it leaves the state; but the diff reports it both updated and removed, and a client that
   * removes first is left with an entry without the time it was issued.
   */
  lemma {:induction false} SetAgainWhileResolvedClashes(k: Kind, v: Value, message: Atom, now: int)
    requires IsMachine(k) && Fits(k, v) && message.MessageAtom? && Text(message.id) in Resolved(v)
    requires Member(NotificationsOf(v)[Text(message.id)], LastSeenAt) != Time(now)
    ensures var id, u := Text(message.id), UpdObj(map[Notifications := WithNotification(Keep, message, now)]);
      var d := Changes(k, Preprocessed(u, v), v);
      var left := NotificationsOf(ReplayDocumented(d, v));
      && !NoClash(d)
      && id !in NotificationsOf(Committed(k, u, v)) && id !in NotificationsOf(Replay(d, v))
      && id in left && Member(left[id], LastSeenAt) == Time(now)
      && left[id].Obj? && IssuedAt !in left[id].fields && !Fits(NotificationKind(k), left[id])
  {
    var id, w := Text(message.id), WithNotification(Keep, message, now);
    var u := UpdObj(map[Notifications := w]);
    var e := NotificationsOf(v);
    var u' := Preprocessed(u, v);
    PreprocessedSet(v, w);
    MachineFits(k, v);
    hide Resolved, Preprocessed, IsMachine, Fits, Orphans, Committed;
    var rem := Resolved(v);
    assert u' == UpdObj(map[Notifications := UpdEntries(w.upd, rem)]);
    assert w.upd == map[id := w.upd[id]];
    SetAgainDiff(NotificationKind(k), w.upd, rem, e, id, now);
    CommitIs(k, u, v);
    OneDelta(k, Notifications, UpdEntries(w.upd, rem), v);
  }

  /** What the commit does, by definition. */
  lemma {:induction false} CommitIs(k: Kind, u: Update, v: Value)
    ensures Committed(k, u, v) == Apply(k, Preprocessed(u, v), v)
  {
  }

  lemma {:induction false} MachineFits(k: Kind, v: Value)
    requires IsMachine(k) && Fits(k, v)
    ensures k.Object? && Notifications in k.props && k.props[Notifications] == DictOf(NotificationKind(k), None)
    ensures v.Obj? && v.fields.Keys == k.props.Keys && v.fields[Notifications] == Entries(NotificationsOf(v))
    ensures forall x | x in NotificationsOf(v) :: Fits(NotificationKind(k), NotificationsOf(v)[x])
    ensures Resolved(v) <= NotificationsOf(v).Keys
  {
    assert Fits(k.props[Notifications], v.fields[Notifications]);
  }

  /** PreprocessState on an update of notifications alone, when something is resolved. */
  lemma {:induction false} PreprocessedSet(v: Value, w: Update)
    requires w.UpdEntries? && w.rem == {} && Resolved(v) != {}
    ensures Preprocessed(UpdObj(map[Notifications := w]), v) == UpdObj(map[Notifications := UpdEntries(w.upd, Resolved(v))])
  {
    hide Resolved;
    assert Orphans({}, v) == {};
    assert {} + Resolved(v) == Resolved(v);
  }

  /** An object update that concerns one property, and the two replays of its diff. */
  lemma {:induction false} OneDelta(k: Kind, p: Property, w: Update, v: Value)
    requires k.Object? && p in k.props && v.Obj? && p in v.fields
    ensures var u, d := UpdObj(map[p := w]), Changes(k.props[p], w, v.fields[p]);
      && Changes(k, u, v) == ObjDiff(map[p := d])
      && Apply(k, u, v).Obj? && p in Apply(k, u, v).fields && Apply(k, u, v).fields[p] == Apply(k.props[p], w, v.fields[p])
      && FieldAfter(Replay(Changes(k, u, v), v), p, Replay(d, v.fields[p]))
      && FieldAfter(ReplayDocumented(Changes(k, u, v), v), p, ReplayDocumented(d, v.fields[p]))
      && (NoClash(Changes(k, u, v)) <==> NoClash(d))
  {
    var u, d := UpdObj(map[p := w]), Changes(k.props[p], w, v.fields[p]);
    assert Changes(k, u, v).deltas == map[p := d];
    OneDeltaReplay(d, p, v);
    hide Replay, ReplayDocumented, NoClash;
  }

  predicate FieldAfter(v: Value, p: Property, f: Value) {
    v.Obj? && p in v.fields && v.fields[p] == f
  }

  lemma {:induction false} OneDeltaReplay(d: Diff, p: Property, v: Value)
    requires v.Obj? && p in v.fields
    ensures FieldAfter(Replay(ObjDiff(map[p := d]), v), p, Replay(d, v.fields[p]))
    ensures FieldAfter(ReplayDocumented(ObjDiff(map[p := d]), v), p, ReplayDocumented(d, v.fields[p]))
    ensures NoClash(ObjDiff(map[p := d])) <==> NoClash(d)
  {
    assert map[p := d][p] == d;
  }

  /** The notifications dictionary in that commit. */
  lemma {:induction false} SetAgainDiff(n: Kind, upd: map<Atom, Update>, rem: set<Atom>, e: map<Atom, Value>, id: Atom, now: int)
    requires IsNotification(n) && id in e && id in upd && id in rem && Fits(n, e[id])
    requires upd[id].UpdObj? && Part(upd[id].parts, LastSeenAt) == SetOne(Time(now)) && Member(e[id], LastSeenAt) != Time(now)
    ensures var k, u, v := DictOf(n, None), UpdEntries(upd, rem), Entries(e);
      var d := Changes(k, u, v);
      && !NoClash(d)
      && Apply(k, u, v).Entries? && id !in Apply(k, u, v).e
      && Replay(d, v).Entries? && id !in Replay(d, v).e
      && ReplayDocumented(d, v).Entries? && id in ReplayDocumented(d, v).e
      && var entry := ReplayDocumented(d, v).e[id];
         entry.Obj? && Member(entry, LastSeenAt) == Time(now) && IssuedAt !in entry.fields && !Fits(n, entry)
  {
    var k, u, v := DictOf(n, None), UpdEntries(upd, rem), Entries(e);
    var d := Changes(k, u, v);
    var inner := Changes(n, upd[id], e[id]);
    NotificationDiff(n, upd[id], e[id], now);
    RemovedAndSet(n, upd, rem, e, id);
    hide Apply, Fits, Changes, IsNotification, Member, HasChanged, Partial;
    ReplayAt(d, e, id);
    ClashAt(d, e, id);
    hide Replay, ReplayDocumented, NoClash;
    var b := EntriesApply(n, None, u, e);
    assert At(b, id) == AppliedEntry(n, None, u, e, id);
  }

  /** A present entry that is changed and removed is reported as both. */
  lemma {:induction false} RemovedAndSet(n: Kind, upd: map<Atom, Update>, rem: set<Atom>, e: map<Atom, Value>, id: Atom)
    requires id in e && id in upd && id in rem && HasChanged(Changes(n, upd[id], e[id]))
    ensures var d := Changes(DictOf(n, None), UpdEntries(upd, rem), Entries(e));
      d.EntriesDiff? && id in d.touched && d.touched[id] == Changes(n, upd[id], e[id]) && id in d.gone && id !in d.born
  {
    assert Keyed(None, id, upd[id]) == upd[id];
    hide CanCreate, Create, HasChanged;
  }

  /** A key reported both updated and removed is left with the changed scalars alone. */
  lemma {:induction false} ClashAt(d: Diff, e: map<Atom, Value>, id: Atom)
    requires d.EntriesDiff? && id in d.touched && id in d.gone && id !in d.born
    ensures !NoClash(d) && ReplayDocumented(d, Entries(e)).Entries?
    ensures id in ReplayDocumented(d, Entries(e)).e && ReplayDocumented(d, Entries(e)).e[id] == Partial(d.touched[id])
  {
  }

  /** What setting a notification again reports. */
  lemma {:induction false} NotificationDiff(n: Kind, u: Update, v: Value, now: int)
    requires IsNotification(n) && Fits(n, v) && u.UpdObj? && Part(u.parts, LastSeenAt) == SetOne(Time(now)) && Member(v, LastSeenAt) != Time(now)
    ensures var d := Changes(n, u, v);
      && HasChanged(d) && Partial(d).Obj? && Member(Partial(d), LastSeenAt) == Time(now) && IssuedAt !in Partial(d).fields
      && !Fits(n, Partial(d))
  {
    var d := Changes(n, u, v);
    assert Fits(n.props[LastSeenAt], v.fields[LastSeenAt]);
    assert d.deltas[LastSeenAt] == Changes(n.props[LastSeenAt], SetOne(Time(now)), v.fields[LastSeenAt]);
    assert d.deltas[LastSeenAt] == Changed(Member(v, LastSeenAt), Time(now));
    assert HasChanged(d.deltas[LastSeenAt]);
  }

  /**
   * An extruder cools to zero.  The update replays exactly, but a client that applies the pattern to the
   * extruders takes the new temperature for no value and keeps the old one.
   */
  lemma {:induction false} CoolingToZeroIsSkipped(e: map<Atom, Value>, id: Atom, was: int)
    requires Fits(DictOf(EXTRUDER, None), Entries(e)) && id in e && Member(e[id], TempC) == Int(was) && was != 0
    ensures var k, u, v := DictOf(EXTRUDER, None), UpdEntries(map[id := UpdObj(map[TempC := SetOne(Int(0))])], {}), Entries(e);
      var d := Changes(k, u, v);
      && ReplayAgrees(k, u, v) && Replay(d, v) == Apply(k, u, v)
      && ReplayDocumented(d, v) == v && v != Apply(k, u, v)
  {
    DictionariesWellFormed();
    ExtruderFields(e[id]);
    hide EXTRUDER, Fits, WellFormed, Apply, Changes, Replay, ReplayDocumented, ReplayAgrees;
    FalsyIsSkipped(EXTRUDER, TempC, Int(0), e, id);
  }

  lemma {:induction false} ExtruderFields(v: Value)
    requires Fits(EXTRUDER, v)
    ensures TempC in EXTRUDER.props && EXTRUDER.props[TempC] == Scalar(true, false, Int(0))
    ensures forall p | p in EXTRUDER.props :: EXTRUDER.props[p].Scalar?
    ensures v.Obj? && TempC in v.fields && v.fields[TempC].One?
  {
    assert Fits(EXTRUDER.props[TempC], v.fields[TempC]);
  }

  /** A scalar of a present entry, set to another value the client's condition takes for false. */
  lemma {:induction false} FalsyIsSkipped(entry: Kind, p: Property, now: Atom, e: map<Atom, Value>, id: Atom)
    requires entry.Object? && (forall q | q in entry.props :: entry.props[q].Scalar?) && p in entry.props && !entry.props[p].initOnly
    requires WellFormed(DictOf(entry, None)) && Fits(DictOf(entry, None), Entries(e)) && id in e
    requires e[id].Obj? && p in e[id].fields && e[id].fields[p].One? && e[id].fields[p].a != now && !Truthy(now)
    ensures var k, u, v := DictOf(entry, None), UpdEntries(map[id := UpdObj(map[p := SetOne(now)])], {}), Entries(e);
      var d := Changes(k, u, v);
      && ReplayAgrees(k, u, v) && Replay(d, v) == Apply(k, u, v)
      && ReplayDocumented(d, v) == v && v != Apply(k, u, v)
  {
    var w := UpdObj(map[p := SetOne(now)]);
    var k, u, v := DictOf(entry, None), UpdEntries(map[id := w], {}), Entries(e);
    var inner := ObjDiff(map[p := Changed(e[id].fields[p].a, now)]);
    ScalarFits(entry, p, now, id);
    ScalarDiff(entry, p, now, e[id]);
    OneEntryDiff(entry, id, w, e);
    OneEntryAgrees(entry, id, w, e);
    hide Fits, FitsUpdate, WellFormed, Apply, Changes, Replay, ReplayAgrees, ReplayDocumented, HasChanged, Truthy;
    ReplayIsExact(k, u, v);
    SkippedInEntry(p, e[id].fields[p].a, now, e, id);
    HasChangedIsExact(k, u, v);
  }

  lemma {:induction false} ScalarFits(entry: Kind, p: Property, now: Atom, id: Atom)
    requires entry.Object? && p in entry.props && entry.props[p].Scalar?
    ensures FitsUpdate(DictOf(entry, None), UpdEntries(map[id := UpdObj(map[p := SetOne(now)])], {}))
  {
    assert FitsUpdate(entry.props[p], SetOne(now));
    assert FitsUpdate(entry, UpdObj(map[p := SetOne(now)]));
  }

  /** Scalars replay exactly, whatever they are set to. */
  lemma {:induction false} ScalarDiff(entry: Kind, p: Property, now: Atom, v: Value)
    requires entry.Object? && (forall q | q in entry.props :: entry.props[q].Scalar?) && p in entry.props && !entry.props[p].initOnly
    requires v.Obj? && p in v.fields && v.fields[p].One? && v.fields[p].a != now
    ensures var w, d := UpdObj(map[p := SetOne(now)]), ObjDiff(map[p := Changed(v.fields[p].a, now)]);
      Changes(entry, w, v) == d && HasChanged(d) && ReplayAgrees(entry, w, v)
  {
    var d := Changes(entry, UpdObj(map[p := SetOne(now)]), v);
    var delta := Changed(v.fields[p].a, now);
    assert Changes(entry.props[p], SetOne(now), v.fields[p]) == delta;
    assert d.deltas == map[p := delta];
    assert HasChanged(map[p := delta][p]);
  }

  lemma {:induction false} OneEntryDiff(entry: Kind, id: Atom, w: Update, e: map<Atom, Value>)
    requires id in e && HasChanged(Changes(entry, w, e[id]))
    ensures Changes(DictOf(entry, None), UpdEntries(map[id := w], {}), Entries(e)) == EntriesDiff(map[], {}, map[id := Changes(entry, w, e[id])])
    ensures HasChanged(Changes(DictOf(entry, None), UpdEntries(map[id := w], {}), Entries(e)))
  {
    var d := Changes(DictOf(entry, None), UpdEntries(map[id := w], {}), Entries(e));
    assert Keyed(None, id, w) == w && map[id := w][id] == w;
    hide HasChanged, Create, CanCreate, Keyed;
    assert d.touched == map[id := Changes(entry, w, e[id])] && d.born == map[] && d.gone == {};
    LoudTouched(id, Changes(entry, w, e[id]));
  }

  lemma {:induction false} LoudTouched(id: Atom, d: Diff)
    ensures HasChanged(EntriesDiff(map[], {}, map[id := d]))
  {
    assert id in map[id := d];
  }

  lemma {:induction false} OneEntryAgrees(entry: Kind, id: Atom, w: Update, e: map<Atom, Value>)
    requires id in e && ReplayAgrees(entry, w, e[id])
    ensures ReplayAgrees(DictOf(entry, None), UpdEntries(map[id := w], {}), Entries(e))
  {
  }

  lemma {:induction false} SkippedInEntry(p: Property, was: Atom, now: Atom, e: map<Atom, Value>, id: Atom)
    requires id in e && e[id].Obj? && p in e[id].fields && e[id].fields[p] == One(was) && !Truthy(now)
    ensures ReplayDocumented(EntriesDiff(map[], {}, map[id := ObjDiff(map[p := Changed(was, now)])]), Entries(e)) == Entries(e)
  {
    var inner := ObjDiff(map[p := Changed(was, now)]);
    assert ReplayDocumented(inner, e[id]).fields == e[id].fields;
    assert ReplayDocumented(EntriesDiff(map[], {}, map[id := inner]), Entries(e)).e == e;
  }

  // ---------------------------------------------------------------- runs in the documented order

  lemma {:induction false} QuietDocumented(d: Diff, v: Value)
    requires !HasChanged(d)
    ensures ReplayDocumented(d, v) == v
    decreases d
  {
    match (d, v) {
      case (ObjDiff(deltas), Obj(fields)) =>
        forall p | p in fields && p in deltas ensures ReplayDocumented(deltas[p], fields[p]) == fields[p] {
          QuietDocumented(deltas[p], fields[p]);
        }
        assert ReplayDocumented(d, v).fields == fields;
      case (SubDiff(inner), Sub(o)) => if o.Some? { QuietDocumented(inner, o.value); }
      case (PlainDiff(_, _, _), Plain(m)) => assert ReplayDocumented(d, v).m == m;
      case (EntriesDiff(_, _, _), Entries(e)) => assert ReplayDocumented(d, v).e == e;
      case _ =>
    }
  }

  lemma {:induction false} NestedDocumented(inner: Kind, mandatory: bool, sub: Update, was: Value, other: Value)
    ensures ReplayDocumented(Changes(Nested(inner, mandatory), UpdSub(sub), Sub(Some(was))), Sub(Some(other)))
         == Sub(Some(ReplayDocumented(Changes(inner, sub, was), other)))
  {
    if !HasChanged(Changes(inner, sub, was)) { QuietDocumented(Changes(inner, sub, was), other); }
  }

  lemma {:induction false} QuietNoClash(d: Diff)
    requires !HasChanged(d)
    ensures NoClash(d)
    decreases d
  {
    match d {
      case ObjDiff(deltas) => forall p | p in deltas ensures NoClash(deltas[p]) { QuietNoClash(deltas[p]); }
      case SubDiff(inner) => QuietNoClash(inner);
      case _ =>
    }
  }

  lemma {:induction false} NestedNoClash(inner: Kind, mandatory: bool, sub: Update, was: Value)
    ensures NoClash(Changes(Nested(inner, mandatory), UpdSub(sub), Sub(Some(was)))) <==> NoClash(Changes(inner, sub, was))
  {
    if !HasChanged(Changes(inner, sub, was)) { QuietNoClash(Changes(inner, sub, was)); }
  }

  lemma {:induction false} ObjectDocumented(props: map<Property, Kind>, u: Update, v: Value, t: Value)
    requires u.UpdObj? && v.Obj? && v.fields.Keys == props.Keys && t.Obj? && t.fields.Keys == props.Keys
    ensures ReplayDocumented(Changes(Object(props), u, v), t).Obj?
    ensures ReplayDocumented(Changes(Object(props), u, v), t).fields
         == map p | p in props :: ReplayDocumented(Changes(props[p], Part(u.parts, p), v.fields[p]), t.fields[p])
  {
    hide Changes, ReplayDocumented;
    var deltas := ObjectChanges(props, u, v);
    DocumentedObject(deltas, t.fields);
    DocumentedSame();
  }

  lemma {:induction false} DocumentedObject(deltas: map<Property, Diff>, fields: map<Property, Value>)
    ensures ReplayDocumented(ObjDiff(deltas), Obj(fields))
         == Obj(map p | p in fields :: if p in deltas then ReplayDocumented(deltas[p], fields[p]) else fields[p])
  {
  }

  lemma {:induction false} DocumentedSame()
    ensures forall v :: ReplayDocumented(Same, v) == v
  {
  }

  lemma {:induction false} ObjectNoClash(props: map<Property, Kind>, u: Update, v: Value)
    requires u.UpdObj? && v.Obj? && v.fields.Keys == props.Keys
    ensures NoClash(Changes(Object(props), u, v)) <==> forall p | p in props :: NoClash(Changes(props[p], Part(u.parts, p), v.fields[p]))
  {
    hide Changes;
    var deltas := ObjectChanges(props, u, v);
  }

  /** Replaying a diff without a clash in the documented order keeps a replica between the state and g. */
  lemma {:induction false} DocumentedStep(k: Kind, u: Update, s: Value, t: Value, g: Value)
    requires WellFormed(k) && FitsUpdate(k, u) && Fits(k, s) && Fits(k, g) && Between(k, s, t, g)
    requires NoClash(Changes(k, u, s))
    ensures Between(k, ReplayDocumented(Changes(k, u, s), s), ReplayDocumented(Changes(k, u, s), t), g)
    decreases k, 0
  {
    var d := Changes(k, u, s);
    match k {
      case Scalar(_, _, _) =>
      case Dict => if u.UpdPlain? { PlainDocumented(u, s, t, g); }
      case Set =>
      case DictOf(entry, key) =>
        if u.UpdEntries? {
          TouchedDocumented(entry, key, u, s.e, t.e, g.e);
          BornBetween(entry, key, u, s.e, g.e);
          EntriesDocumented(entry, d, s, t, g);
        }
      case Nested(inner, mandatory) =>
        if u.UpdSub? {
          if s.o.Some? { NestedNoClash(inner, mandatory, u.sub, s.o.value); }
          if s.o.Some? && t.o.Some? && g.o.Some? { DocumentedStep(inner, u.sub, s.o.value, t.o.value, g.o.value); }
          NestedStepDocumented(inner, mandatory, u.sub, s.o, t.o, g.o);
        }
      case Object(props) =>
        ObjectNoClash(props, u, s);
        forall p | p in props
          ensures var e := Changes(props[p], Part(u.parts, p), s.fields[p]);
            Between(props[p], ReplayDocumented(e, s.fields[p]), ReplayDocumented(e, t.fields[p]), g.fields[p])
        {
          DocumentedStep(props[p], Part(u.parts, p), s.fields[p], t.fields[p], g.fields[p]);
        }
        ObjectStepDocumented(props, u, s, t, g);
    }
  }

  lemma {:induction false} TouchedDocumented(
      entry: Kind, key: Option<Property>, u: Update, s: map<Atom, Value>, t: map<Atom, Value>, g: map<Atom, Value>)
    requires WellFormed(DictOf(entry, key)) && FitsUpdate(DictOf(entry, key), u) && u.UpdEntries?
    requires Fits(DictOf(entry, key), Entries(s)) && Fits(DictOf(entry, key), Entries(g))
    requires Between(DictOf(entry, key), Entries(s), Entries(t), Entries(g))
    requires NoClash(Changes(DictOf(entry, key), u, Entries(s)))
    ensures var d := Changes(DictOf(entry, key), u, Entries(s));
      forall x | x in d.touched && x in t && x in g ::
        Between(entry, ReplayDocumented(d.touched[x], s[x]), ReplayDocumented(d.touched[x], t[x]), g[x])
    decreases entry, 1
  {
    var d := Changes(DictOf(entry, key), u, Entries(s));
    forall x | x in d.touched && x in t && x in g
      ensures Between(entry, ReplayDocumented(d.touched[x], s[x]), ReplayDocumented(d.touched[x], t[x]), g[x])
    {
      assert BetweenCells(entry, At(s, x), At(t, x), At(g, x));
      KeyedFits(entry, key, x, u.upd[x]);
      DocumentedStep(entry, Keyed(key, x, u.upd[x]), s[x], t[x], g[x]);
    }
  }

  lemma {:induction false} NestedStepDocumented(inner: Kind, mandatory: bool, sub: Update, s: Option<Value>, t: Option<Value>, g: Option<Value>)
    requires BetweenCells(inner, s, t, g)
    requires s.Some? && t.Some? && g.Some? ==>
      var e := Changes(inner, sub, s.value); Between(inner, ReplayDocumented(e, s.value), ReplayDocumented(e, t.value), g.value)
    ensures var d := Changes(Nested(inner, mandatory), UpdSub(sub), Sub(s));
      Between(Nested(inner, mandatory), ReplayDocumented(d, Sub(s)), ReplayDocumented(d, Sub(t)), Sub(g))
  {
    hide Changes, ReplayDocumented, Between;
    NestedDocumentedOption(inner, mandatory, sub, s, s);
    NestedDocumentedOption(inner, mandatory, sub, s, t);
    var d := Changes(Nested(inner, mandatory), UpdSub(sub), Sub(s));
    BetweenNested(inner, mandatory, ReplayDocumented(d, Sub(s)), ReplayDocumented(d, Sub(t)), Sub(g));
  }

  lemma {:induction false} NestedDocumentedOption(inner: Kind, mandatory: bool, sub: Update, s: Option<Value>, t: Option<Value>)
    ensures ReplayDocumented(Changes(Nested(inner, mandatory), UpdSub(sub), Sub(s)), Sub(t))
         == Sub(if s.Some? && t.Some? then Some(ReplayDocumented(Changes(inner, sub, s.value), t.value)) else t)
  {
    if s.Some? && t.Some? { NestedDocumented(inner, mandatory, sub, s.value, t.value); }
  }

  lemma {:induction false} ObjectStepDocumented(props: map<Property, Kind>, u: Update, s: Value, t: Value, g: Value)
    requires u.UpdObj? && s.Obj? && t.Obj? && g.Obj?
    requires s.fields.Keys == props.Keys && t.fields.Keys == props.Keys && g.fields.Keys == props.Keys
    requires forall p | p in props :: var e := Changes(props[p], Part(u.parts, p), s.fields[p]);
      Between(props[p], ReplayDocumented(e, s.fields[p]), ReplayDocumented(e, t.fields[p]), g.fields[p])
    ensures var d := Changes(Object(props), u, s); Between(Object(props), ReplayDocumented(d, s), ReplayDocumented(d, t), g)
  {
    ObjectDocumented(props, u, s, s);
    ObjectDocumented(props, u, s, t);
  }

  lemma {:induction false} PlainDocumented(u: Update, s: Value, t: Value, g: Value)
    requires u.UpdPlain? && Between(Dict, s, t, g) && NoClash(Changes(Dict, u, s))
    ensures Between(Dict, ReplayDocumented(Changes(Dict, u, s), s), ReplayDocumented(Changes(Dict, u, s), t), g)
  {
    var d := Changes(Dict, u, s);
    var a, b := ReplayDocumented(d, s).m, ReplayDocumented(d, t).m;
    forall x ensures PlainAt(b, x) == PlainAt(a, x) || PlainAt(b, x) == PlainAt(g.m, x) {
      assert PlainAt(t.m, x) == PlainAt(s.m, x) || PlainAt(t.m, x) == PlainAt(g.m, x);
    }
  }

  /** The documented order, key by key, on any replica. */
  lemma {:induction false} DocumentedAtAny(d: Diff, e: map<Atom, Value>, x: Atom)
    requires d.EntriesDiff? && d.touched.Keys !! d.gone && d.born.Keys !! d.gone && d.touched.Keys !! d.born.Keys
    ensures ReplayDocumented(d, Entries(e)).Entries?
    ensures At(ReplayDocumented(d, Entries(e)).e, x) ==
      if x in d.gone then None
      else if x in d.touched then Some(if x in e then ReplayDocumented(d.touched[x], e[x]) else Partial(d.touched[x]))
      else if x in d.born then Some(d.born[x])
      else At(e, x)
  {
  }

  lemma {:induction false} EntriesDocumented(entry: Kind, d: Diff, s: Value, t: Value, g: Value)
    requires d.EntriesDiff? && s.Entries? && t.Entries? && g.Entries? && NoClash(d)
    requires d.born.Keys !! s.e.Keys && d.touched.Keys <= s.e.Keys && d.gone <= s.e.Keys
    requires forall x :: BetweenCells(entry, At(s.e, x), At(t.e, x), At(g.e, x))
    requires forall x | x in d.touched && x in t.e && x in g.e ::
      Between(entry, ReplayDocumented(d.touched[x], s.e[x]), ReplayDocumented(d.touched[x], t.e[x]), g.e[x])
    requires forall x | x in d.born && x in g.e :: Between(entry, d.born[x], d.born[x], g.e[x])
    ensures forall x :: BetweenCells(entry, At(ReplayDocumented(d, s).e, x), At(ReplayDocumented(d, t).e, x), At(g.e, x))
  {
    assert ReplayDocumented(d, s).Entries? && ReplayDocumented(d, t).Entries?;
    hide ReplayDocumented, Between;
    forall x ensures BetweenCells(entry, At(ReplayDocumented(d, s).e, x), At(ReplayDocumented(d, t).e, x), At(g.e, x)) {
      assert BetweenCells(entry, At(s.e, x), At(t.e, x), At(g.e, x));
      DocumentedAtAny(d, s.e, x);
      DocumentedAtAny(d, t.e, x);
    }
  }

  function ReplayAllDocumented(ds: seq<Diff>, v: Value): Value
    decreases |ds|
  {
    if ds == [] then v else ReplayAllDocumented(ds[1..], ReplayDocumented(ds[0], v))
  }

  /** No diff of the run reports a key both updated and removed, or a falsy new value. */
  predicate AllLiteral(ds: seq<Diff>)
    decreases |ds|
  {
    ds == [] || (Literal(ds[0]) && AllLiteral(ds[1..]))
  }

  lemma {:induction false} CatchesUpDocumented(k: Kind, us: seq<Update>, s: Value, t: Value)
    requires WellFormed(k) && Fits(k, s) && GoodRun(k, us, s) && AllLiteral(Diffs(k, us, s))
    requires Fits(k, StateAfter(k, us, s)) && Between(k, s, t, StateAfter(k, us, s))
    ensures ReplayAllDocumented(Diffs(k, us, s), t) == StateAfter(k, us, s)
    decreases |us|
  {
    hide Apply, Changes, Replay, ReplayDocumented, ReplayAgrees, NoClash, NoFalsy;
    if us == [] {
      BetweenEqualEnds(k, t, s);
    } else {
      var d := Changes(k, us[0], s);
      ReplayIsExact(k, us[0], s);
      DocumentedOrderIsExact(k, us[0], s);
      ApplyFits(k, us[0], s);
      DocumentedStep(k, us[0], s, t, StateAfter(k, us, s));
      CatchesUpDocumented(k, us[1..], Apply(k, us[0], s), ReplayDocumented(d, t));
    }
  }

  lemma {:induction false} SilentDocumented(ds: seq<Diff>, v: Value)
    ensures ReplayAllDocumented(Broadcasts(ds), v) == ReplayAllDocumented(ds, v)
    decreases |ds|
  {
    hide ReplayDocumented;
    if ds != [] {
      if HasChanged(ds[0]) { assert Broadcasts(ds)[1..] == Broadcasts(ds[1..]); }
      else {
        QuietDocumented(ds[0], v);
        assert Broadcasts(ds) == Broadcasts(ds[1..]);
      }
      SilentDocumented(ds[1..], ReplayDocumented(ds[0], v));
    }
  }

  lemma {:induction false} DocumentedAppend(a: seq<Diff>, b: seq<Diff>, v: Value)
    ensures ReplayAllDocumented(a + b, v) == ReplayAllDocumented(b, ReplayAllDocumented(a, v))
    ensures AllLiteral(a + b) <==> AllLiteral(a) && AllLiteral(b)
    decreases |a|
  {
    hide ReplayDocumented, Literal;
    if a == [] { assert a + b == b; }
    else {
      assert (a + b)[1..] == a[1..] + b;
      DocumentedAppend(a[1..], b, ReplayDocumented(a[0], v));
    }
  }

  /**
   * A client that replays in the documented order converges too, from a snapshot read at any time, over
   * every run whose diffs report no key both updated and removed and no falsy new value; partial entries
   * it may create while it catches up are gone by the time it has.
   */
  lemma {:induction false} LateSnapshotConvergesDocumented(k: Kind, s: Value, missed: seq<Update>, later: seq<Update>)
    requires WellFormed(k) && Fits(k, s) && GoodRun(k, missed + later, s) && AllLiteral(Diffs(k, missed + later, s))
    ensures var snapshot := StateAfter(k, missed, s);
      ReplayAllDocumented(Broadcasts(Diffs(k, missed + later, s)), snapshot) == StateAfter(k, missed + later, s)
  {
    hide Apply, Changes, ReplayDocumented, ReplayAgrees, AllLiteral, ReplayAllDocumented, GoodRun, StateAfter, Diffs, Between, Broadcasts;
    RunAppend(k, missed, later, s);
    Follows(k, missed, s);
    var snapshot := StateAfter(k, missed, s);
    DocumentedAppend(Diffs(k, missed, s), Diffs(k, later, snapshot), snapshot);
    Follows(k, later, snapshot);
    SeededBetween(k, s, snapshot);
    CatchesUpDocumented(k, missed, s, snapshot);
    SameBetween(k, snapshot, StateAfter(k, later, snapshot));
    CatchesUpDocumented(k, later, snapshot, snapshot);
    SilentDocumented(Diffs(k, missed + later, s), snapshot);
  }
}
