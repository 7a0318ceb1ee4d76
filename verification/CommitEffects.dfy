/**
 * What a commit does to the machine state, read off the state before it and the caller's update: which
 * notifications resolve, which scheduled prints go, what the other properties become, and that every
 * entry of a keyed dictionary carries its key.
 */
module CommitEffects {
  import opened Optional
  import opened Schema
  import opened DiffEngine
  import opened ReplayExact
  import opened Effects
  import opened Replica
  import opened PropertyReplica
  import opened Connection
  import opened Subscribers
  import opened MachineTypes
  import opened SafeUpdates

  // ---------------------------------------------------------------- keys

  /** The property holds the value. */
  predicate Holds(v: Value, p: Property, a: Atom) {
    v.Obj? && p in v.fields && v.fields[p] == One(a)
  }

  /** Every entry's key property holds its key. */
  predicate KeysHeld(p: Property, e: map<Atom, Value>) {
    forall x | x in e :: Holds(e[x], p, x)
  }

  /** An entry the update concerns holds its key afterwards, whatever its updater says, and so do the entries of the diff. */
  lemma {:induction false} EntriesCarryTheirKey(entry: Kind, p: Property, u: Update, e: map<Atom, Value>)
    requires WellFormed(DictOf(entry, Some(p))) && FitsUpdate(DictOf(entry, Some(p)), u) && u.UpdEntries?
    requires Fits(DictOf(entry, Some(p)), Entries(e)) && !entry.props[p].initOnly
    ensures var k, v := DictOf(entry, Some(p)), Entries(e);
      var d := Changes(k, u, v);
      && Apply(k, u, v).Entries? && (forall x | x in u.upd && x in Apply(k, u, v).e :: Holds(Apply(k, u, v).e[x], p, x))
      && d.EntriesDiff? && (forall x | x in d.born :: x in u.upd && Holds(d.born[x], p, x))
      && Replay(d, v).Entries? && forall x | x in u.upd && x in Replay(d, v).e :: Holds(Replay(d, v).e[x], p, x)
  {
    var k, v := DictOf(entry, Some(p)), Entries(e);
    var d := Changes(k, u, v);
    ApplyIsEffect(k, u, v);
    ChangesIsReported(k, u, v);
    var after := EntriesApply(entry, Some(p), u, e);
    var replica := EntriesReplay(entry, Some(p), u, e);
    hide Changes, Apply, Replay, Create, CanCreate, Fits, FitsUpdate, WellFormed;
    forall x | x in u.upd
      ensures x in after ==> Holds(after[x], p, x)
      ensures x in d.born ==> Holds(d.born[x], p, x)
      ensures x in replica ==> Holds(replica[x], p, x)
    {
      KeyAfter(entry, p, u, x, At(e, x), At(after, x));
      assert KeyReported(entry, Some(p), u, x, At(e, x), d);
      ReplayedKey(entry, p, u, e, x);
      assert At(replica, x) == ReplayedEntry(entry, Some(p), u, e, x);
    }
    forall x | x in d.born ensures x in u.upd { assert KeyReported(entry, Some(p), u, x, At(e, x), d); }
  }

  lemma {:induction false} KeyAfter(entry: Kind, p: Property, u: Update, x: Atom, was: Option<Value>, now: Option<Value>)
    requires entry.Object? && p in entry.props && entry.props[p].Scalar? && !entry.props[p].initOnly
    requires EntryAt(entry, Some(p), u, x, was, now) && x in u.upd
    ensures now.Some? ==> Holds(now.value, p, x)
  {
    hide Effect, Made;
  }

  lemma {:induction false} ReplayedKey(entry: Kind, p: Property, u: Update, e: map<Atom, Value>, x: Atom)
    requires WellFormed(DictOf(entry, Some(p))) && FitsUpdate(DictOf(entry, Some(p)), u) && u.UpdEntries? && x in u.upd
    requires Fits(DictOf(entry, Some(p)), Entries(e)) && !entry.props[p].initOnly
    ensures ReplayedEntry(entry, Some(p), u, e, x).Some? ==> Holds(ReplayedEntry(entry, Some(p), u, e, x).value, p, x)
  {
    if x in e {
      KeyReplayed(entry, p, x, u.upd[x], e[x]);
    } else if CanCreate(entry, Keyed(Some(p), x, u.upd[x])) {
      EntryIsMade(entry, Some(p), x, u.upd[x]);
    }
    hide Made, Changes, Replay, Create, CanCreate, Keyed, Fits, FitsUpdate;
  }

  lemma {:induction false} KeyReplayed(entry: Kind, p: Property, x: Atom, w: Update, v: Value)
    requires entry.Object? && p in entry.props && entry.props[p].Scalar? && !entry.props[p].initOnly && w.UpdObj? && Fits(entry, v)
    ensures Holds(Replay(Changes(entry, Keyed(Some(p), x, w), v), v), p, x)
  {
    FieldFits(entry.props, v, p);
    ObjectReplay(entry.props, Keyed(Some(p), x, w), v, v);
    ScalarReplayed(entry.props[p], x, v.fields[p]);
    hide Changes, Replay, Fits;
  }

  lemma {:induction false} ScalarReplayed(k: Kind, x: Atom, v: Value)
    requires k.Scalar? && !k.initOnly && Fits(k, v)
    ensures Replay(Changes(k, SetOne(x), v), v) == One(x)
  {
  }

  /** Keys stay held under every update. */
  lemma {:induction false} KeysStayHeld(entry: Kind, p: Property, u: Update, e: map<Atom, Value>)
    requires WellFormed(DictOf(entry, Some(p))) && FitsUpdate(DictOf(entry, Some(p)), u)
    requires Fits(DictOf(entry, Some(p)), Entries(e)) && !entry.props[p].initOnly && KeysHeld(p, e)
    ensures Apply(DictOf(entry, Some(p)), u, Entries(e)).Entries? && KeysHeld(p, Apply(DictOf(entry, Some(p)), u, Entries(e)).e)
  {
    if u.UpdEntries? {
      ApplyIsEffect(DictOf(entry, Some(p)), u, Entries(e));
      var after := EntriesApply(entry, Some(p), u, e);
      hide Apply, Create, CanCreate, Fits, FitsUpdate;
      forall x | x in after ensures Holds(after[x], p, x) {
        assert EntryAt(entry, Some(p), u, x, At(e, x), At(after, x));
        if x in u.upd { KeyAfter(entry, p, u, x, At(e, x), At(after, x)); }
      }
    }
  }

  lemma {:induction false} KeysOverRun(entry: Kind, p: Property, us: seq<Update>, v: Value)
    requires WellFormed(DictOf(entry, Some(p))) && Typed(DictOf(entry, Some(p)), us)
    requires Fits(DictOf(entry, Some(p)), v) && v.Entries? && !entry.props[p].initOnly && KeysHeld(p, v.e)
    ensures StateAfter(DictOf(entry, Some(p)), us, v).Entries? && KeysHeld(p, StateAfter(DictOf(entry, Some(p)), us, v).e)
    decreases |us|
  {
    if us != [] {
      KeysStayHeld(entry, p, us[0], v.e);
      ApplyFits(DictOf(entry, Some(p)), us[0], v);
      hide Apply, Fits, FitsUpdate, WellFormed;
      KeysOverRun(entry, p, us[1..], Apply(DictOf(entry, Some(p)), us[0], v));
    }
  }

  lemma {:induction false} ProjTyped(props: map<Property, Kind>, us: seq<Update>, q: Property)
    requires WellFormed(Object(props)) && Typed(Object(props), us) && q in props
    ensures Typed(props[q], Proj(us, q))
    decreases |us|
  {
    hide Fits, FitsUpdate, WellFormed, PartOf;
    if us != [] {
      PartFits(props, us[0], q);
      ProjTyped(props, us[1..], q);
      assert Proj(us, q)[1..] == Proj(us[1..], q);
    }
  }

  /** Over every run of commits of a new machine, the ID of every material unit equals its key. */
  lemma {:induction false} UnitIdsEqualTheirKeys(us: seq<Update>)
    requires Typed(MACHINE_STATE, us)
    ensures var last := StateAfter(MACHINE_STATE, Processed(MACHINE_STATE, us, NEW_STATE), NEW_STATE);
      && last.Obj? && MaterialUnits in last.fields && last.fields[MaterialUnits].Entries?
      && KeysHeld(ID, last.fields[MaterialUnits].e)
  {
    MachineStateIsMachine();
    NewStateFits();
    UnitsAreKeyed();
    hide MACHINE_STATE, NEW_STATE, MATERIAL_UNIT, IsMachine, Fits, Filled, Typed, Processed, StateAfter, WellFormed, Proj;
    var k := MACHINE_STATE;
    MachineParts(k);
    TypedRun(k, us, NEW_STATE);
    var ws := Processed(k, us, NEW_STATE);
    StateAfterField(k.props, ws, NEW_STATE, MaterialUnits);
    FieldFits(k.props, NEW_STATE, MaterialUnits);
    FieldFits(k.props, StateAfter(k, ws, NEW_STATE), MaterialUnits);
    ProjTyped(k.props, ws, MaterialUnits);
    PropWellFormed(k.props, MaterialUnits);
    KeysOverRun(MATERIAL_UNIT, ID, Proj(ws, MaterialUnits), Entries(map[]));
  }

  lemma {:induction false} UnitsAreKeyed()
    ensures MACHINE_STATE.Object? && MaterialUnits in MACHINE_STATE.props && MACHINE_STATE.props[MaterialUnits] == DictOf(MATERIAL_UNIT, Some(ID))
    ensures MATERIAL_UNIT.Object? && ID in MATERIAL_UNIT.props && MATERIAL_UNIT.props[ID] == Scalar(true, false, Null)
    ensures NEW_STATE.Obj? && MaterialUnits in NEW_STATE.fields && NEW_STATE.fields[MaterialUnits] == Entries(map[])
  {
    hide PRINT_JOB, EXTRUDER, NOZZLE, NOTIFICATION;
    assert MaterialUnits in MACHINE_COLLECTIONS && MACHINE_STATE.props[MaterialUnits] == MACHINE_COLLECTIONS[MaterialUnits];
    var k := MACHINE_STATE.props[MaterialUnits];
    NewMember(MACHINE_STATE.props, MaterialUnits);
    assert Initial(k, Keep) == Entries(map[]);
  }

  lemma {:induction false} NewMember(props: map<Property, Kind>, p: Property)
    requires p in props
    ensures var v := Initial(Object(props), UpdObj(map[])); v.Obj? && p in v.fields && v.fields[p] == Initial(props[p], Keep)
  {
  }

  /** A unit named only by its key, with its capacity and capabilities, is created under that name. */
  lemma {:induction false} UnitCreatedByKey(e: map<Atom, Value>, id: Atom, capacity: Atom, capabilities: Atom)
    requires Fits(DictOf(MATERIAL_UNIT, Some(ID)), Entries(e)) && id !in e
    ensures var u := UpdEntries(map[id := UpdObj(map[Capacity := SetOne(capacity), Capabilities := SetOne(capabilities)])], {});
      var after := Apply(DictOf(MATERIAL_UNIT, Some(ID)), u, Entries(e));
      && after.Entries? && id in after.e
      && Holds(after.e[id], ID, id) && Holds(after.e[id], Capacity, capacity) && Holds(after.e[id], Capabilities, capabilities)
  {
    var w := UpdObj(map[Capacity := SetOne(capacity), Capabilities := SetOne(capabilities)]);
    var u := UpdEntries(map[id := w], {});
    MaterialUnitWellFormed();
    UnitMembers();
    UnitUpdateFits(id, w, capacity, capabilities);
    hide MATERIAL_UNIT, Fits, FitsUpdate, WellFormed, Apply;
    ApplyIsEffect(DictOf(MATERIAL_UNIT, Some(ID)), u, Entries(e));
    var after := EntriesApply(MATERIAL_UNIT, Some(ID), u, e);
    assert EntryAt(MATERIAL_UNIT, Some(ID), u, id, At(e, id), At(after, id));
    UnitComplete(w, capacity, capabilities);
    UnitMade(id, w, after[id], capacity, capabilities);
  }

  lemma {:induction false} UnitMembers()
    ensures MATERIAL_UNIT.Object? && Capacity in MATERIAL_UNIT.props && Capabilities in MATERIAL_UNIT.props && ID in MATERIAL_UNIT.props
    ensures MATERIAL_UNIT.props[ID] == Scalar(true, false, Null)
    ensures MATERIAL_UNIT.props[Capacity] == Scalar(true, false, Int(0)) && MATERIAL_UNIT.props[Capabilities] == Scalar(true, false, Int(0))
    ensures forall p | p in MATERIAL_UNIT.props && p != ID && p != Capacity && p != Capabilities ::
      match MATERIAL_UNIT.props[p]
      case Scalar(required, _, _) => !required
      case Nested(_, mandatory) => !mandatory
      case other => !other.Object?
  {
    hide SPOOL;
  }

  lemma {:induction false} UnitUpdateFits(id: Atom, w: Update, capacity: Atom, capabilities: Atom)
    requires w == UpdObj(map[Capacity := SetOne(capacity), Capabilities := SetOne(capabilities)])
    ensures FitsUpdate(DictOf(MATERIAL_UNIT, Some(ID)), UpdEntries(map[id := w], {}))
  {
    UnitMembers();
    hide MATERIAL_UNIT;
    assert FitsUpdate(MATERIAL_UNIT, w);
  }

  lemma {:induction false} UnitComplete(w: Update, capacity: Atom, capabilities: Atom)
    requires w == UpdObj(map[Capacity := SetOne(capacity), Capabilities := SetOne(capabilities)])
    ensures EntryComplete(MATERIAL_UNIT, Some(ID), w)
  {
    UnitMembers();
    hide MATERIAL_UNIT;
    forall path | Demands(MATERIAL_UNIT, path) && path != [ID] ensures Given(w, path) {
      assert Demands(MATERIAL_UNIT.props[path[0]], path[1..]);
      assert path == [path[0]] + path[1..];
    }
  }

  lemma {:induction false} UnitMade(id: Atom, w: Update, v: Value, capacity: Atom, capabilities: Atom)
    requires w == UpdObj(map[Capacity := SetOne(capacity), Capabilities := SetOne(capabilities)])
    requires MadeEntry(MATERIAL_UNIT, Some(ID), id, w, v)
    ensures Holds(v, ID, id) && Holds(v, Capacity, capacity) && Holds(v, Capabilities, capabilities)
  {
    UnitMembers();
    hide MATERIAL_UNIT;
    assert Part(w.parts, Capacity) == SetOne(capacity) && Part(w.parts, Capabilities) == SetOne(capabilities);
    assert Made(MATERIAL_UNIT.props[Capacity], SetOne(capacity), v.fields[Capacity]);
    assert Made(MATERIAL_UNIT.props[Capabilities], SetOne(capabilities), v.fields[Capabilities]);
  }

  /** A print job is created exactly when its name, its progress and both its times are set. */
  lemma {:induction false} JobDemands(u: Update)
    requires FitsUpdate(PRINT_JOB, u)
    ensures CanCreate(PRINT_JOB, u) <==>
      && Part(u.parts, Name).SetOne? && Part(u.parts, PercentageComplete).SetOne?
      && Part(u.parts, RemainingTime).SetOne? && Part(u.parts, TotalTime).SetOne?
  {
    JobMembers();
    hide PRINT_JOB;
    assert CanCreate(PRINT_JOB, u) <==> forall p | p in PRINT_JOB.props :: CanCreate(PRINT_JOB.props[p], Part(u.parts, p));
  }

  lemma {:induction false} JobMembers()
    ensures PRINT_JOB.Object? && forall p | p in PRINT_JOB.props ::
      && PRINT_JOB.props[p].Scalar?
      && (PRINT_JOB.props[p].required <==> p == Name || p == PercentageComplete || p == RemainingTime || p == TotalTime)
    ensures Name in PRINT_JOB.props && PercentageComplete in PRINT_JOB.props && RemainingTime in PRINT_JOB.props && TotalTime in PRINT_JOB.props
  {
  }

  // ---------------------------------------------------------------- notifications

  /** The message of notification id carries rule r. */
  predicate Carries(v: Value, id: Atom, r: AutoResolve) {
    && v.Obj? && Notifications in v.fields && v.fields[Notifications].Entries? && id in v.fields[Notifications].e
    && var n := v.fields[Notifications].e[id];
      n.Obj? && Message in n.fields && n.fields[Message].One? && n.fields[Message].a.MessageAtom? && n.fields[Message].a.autoResolve == r
  }

  /** The caller removes notification id. */
  predicate RemovesNotification(u: Update, id: Atom) {
    u.UpdObj? && Notifications in u.parts && u.parts[Notifications].UpdEntries? && id in u.parts[Notifications].rem
  }

  /**
   * The auto-resolve rule.  In the state before the commit a notification resolves while printing or
   * printed, in the status it names, or while connected, as far as its message says so: then it is gone
   * after the commit.  Otherwise it is gone only if the caller removes it.
   */
  lemma {:induction false} AutoResolveRule(k: Kind, u: Update, v: Value, id: Atom, st: MachineStatus, r: AutoResolve)
    requires IsMachine(k) && Fits(k, v) && FitsUpdate(k, u)
    requires v.fields[Status] == One(StatusAtom(st)) && Carries(v, id, r)
    ensures var after := Committed(k, u, v);
      && after.Obj? && Notifications in after.fields && after.fields[Notifications].Entries?
      && (id !in after.fields[Notifications].e <==>
           || (r.whenPrinting == Some(true) && (st == Printing || st == Printed))
           || r.whenStatus == Some(st)
           || (r.whenConnected == Some(true) && st != Disconnected)
           || RemovesNotification(u, id))
  {
    ResolvedRule(v, id, st, r);
    hide Resolved;
    NotificationStep(k, u, v, id);
    hide Committed, Fits, FitsUpdate, IsMachine, EntryEffect, MadeEntry;
  }

  lemma {:induction false} ResolvedRule(v: Value, id: Atom, st: MachineStatus, r: AutoResolve)
    requires v.Obj? && Status in v.fields && v.fields[Status] == One(StatusAtom(st)) && Carries(v, id, r)
    ensures id in Resolved(v) <==>
      || (r.whenPrinting == Some(true) && (st == Printing || st == Printed))
      || r.whenStatus == Some(st)
      || (r.whenConnected == Some(true) && st != Disconnected)
  {
  }

  /** The caller's update of the notifications; none is an empty one. */
  function CallersNotifications(u: Update): (n: Update)
    ensures n.UpdEntries?
  {
    if u.UpdObj? && Notifications in u.parts && u.parts[Notifications].UpdEntries? then u.parts[Notifications] else UpdEntries(map[], {})
  }

  /** A notification after a commit: gone when it resolved, otherwise what the caller's update makes of it. */
  lemma {:induction false} NotificationStep(k: Kind, u: Update, v: Value, id: Atom)
    requires IsMachine(k) && Fits(k, v) && FitsUpdate(k, u)
    ensures var after := Committed(k, u, v);
      && after.Obj? && Notifications in after.fields && after.fields[Notifications].Entries?
      && v.Obj? && Notifications in v.fields && v.fields[Notifications].Entries?
      && (id in Resolved(v) ==> id !in after.fields[Notifications].e)
      && (id !in Resolved(v) ==>
            EntryAt(NotificationKind(k), None, CallersNotifications(u), id, At(v.fields[Notifications].e, id), At(after.fields[Notifications].e, id)))
  {
    PropertyStep(k, u, v, Notifications);
    hide Apply, Fits, FitsUpdate, IsMachine, Resolved, Preprocessed, Committed, Effect;
    assert k.props[Notifications] == DictOf(NotificationKind(k), None) by { NotificationsKind(k); }
    var e, after := v.fields[Notifications].e, Committed(k, u, v).fields[Notifications];
    DroppedEntry(NotificationKind(k), PartOf(u, Notifications), CallersNotifications(u), Resolved(v), id, e, after);
  }

  lemma {:induction false} NotificationsKind(k: Kind)
    requires IsMachine(k)
    ensures k.props[Notifications] == DictOf(NotificationKind(k), None) && k.props[ScheduledPrints] == Set
  {
  }

  /** A property after a commit: what the preprocessed update makes of it. */
  lemma {:induction false} PropertyStep(k: Kind, u: Update, v: Value, p: Property)
    requires IsMachine(k) && Fits(k, v) && FitsUpdate(k, u) && p in k.props
    ensures var after, was := Committed(k, u, v), PartOf(u, p);
      && u.UpdObj? && v.Obj? && p in v.fields && Fits(k.props[p], v.fields[p]) && after.Obj? && p in after.fields && Fits(k.props[p], after.fields[p])
      && FitsUpdate(k.props[p], was)
      && Effect(k.props[p],
                if p == Notifications then Dropped(was, Resolved(v), UpdEntries(map[], {}))
                else if p == ScheduledPrints then Dropped(was, Orphans(RemovedJobs(u.parts), v), UpdElems({}, {}))
                else was,
                v.fields[p], after.fields[p])
      && (p == Notifications || p == ScheduledPrints ==> k.props[p].DictOf? || k.props[p].Set?)
      && (k.props[p].DictOf? ==> (was.Keep? || was.UpdEntries?) && v.fields[p].Entries? && after.fields[p].Entries?)
      && (k.props[p].Set? ==> (was.Keep? || was.UpdElems?) && v.fields[p].Elems? && after.fields[p].Elems?)
  {
    MachineParts(k);
    ProcessedFits(k, u, v);
    FieldFits(k.props, v, p);
    FieldFits(k.props, Committed(k, u, v), p);
    PartFits(k.props, u, p);
    PartFits(k.props, Preprocessed(u, v), p);
    PreprocessedPart(u, v, p);
    ApplyField(k.props, Preprocessed(u, v), v, p);
    ApplyIsEffect(k.props[p], PartOf(Preprocessed(u, v), p), v.fields[p]);
    NotificationsKind(k);
    MemberShapes(k.props[p], PartOf(u, p), v.fields[p]);
    MemberShapes(k.props[p], PartOf(u, p), Committed(k, u, v).fields[p]);
    CommitIs(k, u, v);
    hide Apply, Fits, FitsUpdate, IsMachine, Resolved, Orphans, RemovedJobs, Preprocessed, Dropped, Effect, Committed;
  }

  lemma {:induction false} CommitIs(k: Kind, u: Update, v: Value)
    ensures Committed(k, u, v) == Apply(k, Preprocessed(u, v), v)
  {
  }

  lemma {:induction false} MemberShapes(k: Kind, u: Update, v: Value)
    requires Fits(k, v) && FitsUpdate(k, u)
    ensures k.DictOf? ==> (u.Keep? || u.UpdEntries?) && v.Entries?
    ensures k.Set? ==> (u.Keep? || u.UpdElems?) && v.Elems?
  {
  }

  /** Further removals decide only about what they remove. */
  lemma {:induction false} DroppedEntry(n: Kind, was: Update, callers: Update, xs: set<Atom>, id: Atom, e: map<Atom, Value>, after: Value)
    requires (was.Keep? && callers == UpdEntries(map[], {})) || (was.UpdEntries? && callers == was)
    requires after.Entries? && Effect(DictOf(n, None), Dropped(was, xs, UpdEntries(map[], {})), Entries(e), after)
    ensures if id in xs then id !in after.e else EntryAt(n, None, callers, id, At(e, id), At(after.e, id))
  {
    hide EntryEffect, MadeEntry, EntryComplete;
    var w := Dropped(was, xs, UpdEntries(map[], {}));
    if w.UpdEntries? {
      assert EntryAt(n, None, w, id, At(e, id), At(after.e, id));
    }
  }

  /** A notification set by the caller, unless it resolves or is removed: its message and time of sight are new, its issue time is kept. */
  lemma {:induction false} NotificationIsSet(k: Kind, u: Update, v: Value, id: Atom, message: Atom, now: int)
    requires IsMachine(k) && Fits(k, v) && FitsUpdate(k, u) && id !in Resolved(v) && !RemovesNotification(u, id)
    requires Notifications in u.parts && u.parts[Notifications].UpdEntries? && id in u.parts[Notifications].upd
    requires var w := u.parts[Notifications].upd[id];
      w.UpdObj? && Part(w.parts, Message) == SetOne(message) && Part(w.parts, IssuedAt) == SetOne(Time(now)) && Part(w.parts, LastSeenAt) == SetOne(Time(now))
    ensures var after := Committed(k, u, v);
      && after.Obj? && Notifications in after.fields && after.fields[Notifications].Entries? && id in after.fields[Notifications].e
      && var n := after.fields[Notifications].e[id];
        && Holds(n, Message, message) && Holds(n, LastSeenAt, Time(now))
        && (if id in NotificationsOf(v) then Member(n, IssuedAt) == Member(NotificationsOf(v)[id], IssuedAt) else Holds(n, IssuedAt, Time(now)))
  {
    NotificationStep(k, u, v, id);
    var w := u.parts[Notifications].upd[id];
    var was, n := At(v.fields[Notifications].e, id), At(Committed(k, u, v).fields[Notifications].e, id);
    var kind := NotificationKind(k);
    hide Committed, Resolved, Fits, FitsUpdate, IsMachine;
    NotificationComplete(kind, w);
    NotificationFields(kind, w, id, was, n, message, now);
  }

  /** Setting a notification keeps the update well typed. */
  lemma {:induction false} SetNotificationFits(n: Kind, was: Update, message: Atom, now: int)
    requires IsNotification(n) && message.MessageAtom? && FitsUpdate(DictOf(n, None), was)
    ensures FitsUpdate(DictOf(n, None), WithNotification(was, message, now))
  {
    var w := WithNotification(was, message, now).upd[Text(message.id)];
    forall p | p in w.parts ensures p in n.props && FitsUpdate(n.props[p], w.parts[p]) {
      if p != Message && p != IssuedAt && p != LastSeenAt { assert FitsUpdate(n, was.upd[Text(message.id)]); }
    }
    assert FitsUpdate(n, w);
  }

  lemma {:induction false} NotificationComplete(n: Kind, w: Update)
    requires IsNotification(n) && w.UpdObj? && Part(w.parts, Message).SetOne? && Part(w.parts, IssuedAt).SetOne? && Part(w.parts, LastSeenAt).SetOne?
    ensures EntryComplete(n, None, w)
  {
    forall path | Demands(n, path) ensures Given(w, path) {
      assert Demands(n.props[path[0]], path[1..]);
    }
  }

  lemma {:induction false} NotificationFields(n: Kind, w: Update, id: Atom, was: Option<Value>, now: Option<Value>, message: Atom, at: int)
    requires IsNotification(n) && w.UpdObj? && Part(w.parts, Message) == SetOne(message)
    requires Part(w.parts, IssuedAt) == SetOne(Time(at)) && Part(w.parts, LastSeenAt) == SetOne(Time(at)) && now.Some?
    requires if was.Some? then EntryEffect(n, None, id, w, was.value, now.value) else MadeEntry(n, None, id, w, now.value)
    ensures Holds(now.value, Message, message) && Holds(now.value, LastSeenAt, Time(at))
    ensures if was.Some? then Member(now.value, IssuedAt) == Member(was.value, IssuedAt) else Holds(now.value, IssuedAt, Time(at))
  {
    if was.Some? {
      hide Made;
      assert Effect(n.props[Message], Part(w.parts, Message), was.value.fields[Message], now.value.fields[Message]);
      assert Effect(n.props[IssuedAt], Part(w.parts, IssuedAt), was.value.fields[IssuedAt], now.value.fields[IssuedAt]);
      assert Effect(n.props[LastSeenAt], Part(w.parts, LastSeenAt), was.value.fields[LastSeenAt], now.value.fields[LastSeenAt]);
    } else {
      hide Effect;
      assert Made(n.props[Message], Part(w.parts, Message), now.value.fields[Message]);
      assert Made(n.props[IssuedAt], Part(w.parts, IssuedAt), now.value.fields[IssuedAt]);
      assert Made(n.props[LastSeenAt], Part(w.parts, LastSeenAt), now.value.fields[LastSeenAt]);
    }
  }

  // ---------------------------------------------------------------- scheduled prints and the rest

  /** The caller removes a local job with this file. */
  predicate RemovesJobOf(u: Update, file: int) {
    u.UpdObj? && LocalJobs in u.parts && u.parts[LocalJobs].UpdElems?
    && exists job | job in u.parts[LocalJobs].del :: job.JobAtom? && job.file == file
  }

  function CallersPrints(u: Update): (n: Update)
    ensures n.UpdElems?
  {
    if u.UpdObj? && ScheduledPrints in u.parts && u.parts[ScheduledPrints].UpdElems? then u.parts[ScheduledPrints] else UpdElems({}, {})
  }

  /** A scheduled print leaves exactly when the caller removes it or a local job with its file. */
  lemma {:induction false} ScheduledPrintRule(k: Kind, u: Update, v: Value, sp: Atom)
    requires IsMachine(k) && Fits(k, v) && FitsUpdate(k, u)
    ensures var after := Committed(k, u, v);
      && after.Obj? && ScheduledPrints in after.fields && after.fields[ScheduledPrints].Elems?
      && v.Obj? && ScheduledPrints in v.fields && v.fields[ScheduledPrints].Elems?
      && (sp in after.fields[ScheduledPrints].s <==>
            && (sp in v.fields[ScheduledPrints].s || sp in CallersPrints(u).add)
            && sp !in CallersPrints(u).del
            && !(sp in v.fields[ScheduledPrints].s && sp.PrintAtom? && RemovesJobOf(u, sp.jobFile)))
  {
    PropertyStep(k, u, v, ScheduledPrints);
    OrphanRule(u, v, sp);
    NotificationsKind(k);
    var was, xs := PartOf(u, ScheduledPrints), Orphans(RemovedJobs(u.parts), v);
    hide Fits, FitsUpdate, IsMachine, Orphans, RemovedJobs, Committed, Apply;
    DroppedElems(was, CallersPrints(u), xs, v.fields[ScheduledPrints].s, Committed(k, u, v).fields[ScheduledPrints], sp);
  }

  lemma {:induction false} OrphanRule(u: Update, v: Value, sp: Atom)
    requires u.UpdObj? && v.Obj? && ScheduledPrints in v.fields && v.fields[ScheduledPrints].Elems?
    ensures sp in Orphans(RemovedJobs(u.parts), v) <==> sp in v.fields[ScheduledPrints].s && sp.PrintAtom? && RemovesJobOf(u, sp.jobFile)
  {
    if sp in Orphans(RemovedJobs(u.parts), v) {
      var job :| job in RemovedJobs(u.parts) && PrintsFile(sp, job);
      assert job in u.parts[LocalJobs].del;
    }
    if sp.PrintAtom? && RemovesJobOf(u, sp.jobFile) {
      var job :| job in u.parts[LocalJobs].del && job.JobAtom? && job.file == sp.jobFile;
      assert PrintsFile(sp, job) && job in RemovedJobs(u.parts);
    }
  }

  lemma {:induction false} DroppedElems(was: Update, callers: Update, xs: set<Atom>, s: set<Atom>, after: Value, sp: Atom)
    requires (was.Keep? && callers == UpdElems({}, {})) || (was.UpdElems? && callers == was)
    requires Effect(Set, Dropped(was, xs, UpdElems({}, {})), Elems(s), after)
    ensures after.Elems? && (sp in after.s <==> (sp in s || sp in callers.add) && sp !in callers.del && sp !in xs)
  {
  }

  /** Every other property becomes exactly what the caller's update makes of it. */
  lemma {:induction false} OtherPropertiesAsGiven(k: Kind, u: Update, v: Value, p: Property)
    requires IsMachine(k) && Fits(k, v) && FitsUpdate(k, u) && p in k.props && p != Notifications && p != ScheduledPrints
    ensures var after := Committed(k, u, v);
      v.Obj? && p in v.fields && after.Obj? && p in after.fields && Effect(k.props[p], PartOf(u, p), v.fields[p], after.fields[p])
  {
    PropertyStep(k, u, v, p);
    hide Apply, Fits, FitsUpdate, IsMachine, Committed, Effect;
  }
}
