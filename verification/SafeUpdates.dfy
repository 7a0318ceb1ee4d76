/**
 * A condition a caller can check on an update alone, without knowing the state it will meet, under
 * which every commit replays exactly; and with it the convergence of every subscriber of a machine.
 */
module SafeUpdates {
  import opened Schema
  import opened DiffEngine
  import opened ReplayExact
  import opened Replica
  import opened PropertyReplica
  import opened Connection
  import opened Subscribers
  import opened MachineTypes

  /** Every property is set, down to the scalars, so that a replacement and its diff say the same. */
  predicate SetsAll(k: Kind, u: Update)
    decreases k
  {
    match k
    case Scalar(_, initOnly, _) => u.SetOne? && !initOnly
    case Nested(inner, mandatory) => mandatory && u.UpdSub? && SetsAll(inner, u.sub)
    case Object(props) => u.UpdObj? && forall p | p in props :: SetsAll(props[p], Part(u.parts, p))
    case _ => false
  }

  /**
   * Nothing is both set and removed, and a property that is itself an updater is one that always has a
   * value and is set in full.
   */
  predicate Safe(k: Kind, u: Update)
    decreases k
  {
    match (k, u)
    case (Dict, UpdPlain(put, drop)) => put.Keys !! drop
    case (Set, UpdElems(add, del)) => add !! del
    case (DictOf(entry, key), UpdEntries(upd, rem)) =>
      upd.Keys !! rem && forall x | x in upd :: Safe(entry, Keyed(key, x, upd[x]))
    case (Nested(inner, mandatory), UpdSub(sub)) => mandatory && SetsAll(inner, sub)
    case (Object(props), UpdObj(parts)) => forall p | p in props && p in parts :: Safe(props[p], parts[p])
    case _ => true
  }

  /** Every mandatory nested property has a value. */
  predicate Filled(k: Kind, v: Value)
    decreases k
  {
    match (k, v)
    case (DictOf(entry, _), Entries(e)) => forall x | x in e :: Filled(entry, e[x])
    case (Nested(inner, mandatory), Sub(o)) => if o.Some? then Filled(inner, o.value) else !mandatory
    case (Object(props), Obj(fields)) => forall p | p in props && p in fields :: Filled(props[p], fields[p])
    case _ => true
  }

  lemma {:induction false} InitialFilled(k: Kind, u: Update)
    requires CanCreate(k, u)
    ensures Filled(k, Initial(k, u))
    decreases k, 0
  {
    match k {
      case Nested(inner, mandatory) => if mandatory { CreateFilled(inner, u.sub); }
      case Object(props) =>
        forall p | p in props ensures Filled(props[p], Initial(props[p], Part(u.parts, p))) {
          InitialFilled(props[p], Part(u.parts, p));
        }
      case _ =>
    }
  }

  lemma {:induction false} CreateFilled(k: Kind, u: Update)
    requires CanCreate(k, u)
    ensures Filled(k, Create(k, u))
    decreases k, 2
  {
    InitialFilled(k, u);
    ApplyFilled(k, u, Initial(k, u));
  }

  /** No update whatever empties a mandatory property. */
  lemma {:induction false} ApplyFilled(k: Kind, u: Update, v: Value)
    requires Filled(k, v)
    ensures Filled(k, Apply(k, u, v))
    decreases k, 1
  {
    match (k, u, v) {
      case (DictOf(entry, key), UpdEntries(upd, rem), Entries(e)) =>
        forall x | x in upd ensures x in e ==> Filled(entry, Apply(entry, Keyed(key, x, upd[x]), e[x]))
          ensures CanCreate(entry, Keyed(key, x, upd[x])) ==> Filled(entry, Create(entry, Keyed(key, x, upd[x])))
        {
          if x in e { ApplyFilled(entry, Keyed(key, x, upd[x]), e[x]); }
          if CanCreate(entry, Keyed(key, x, upd[x])) { CreateFilled(entry, Keyed(key, x, upd[x])); }
        }
      case (Nested(inner, _), UpdSub(sub), Sub(o)) => if CanCreate(inner, sub) { CreateFilled(inner, sub); }
      case (Object(props), UpdObj(parts), Obj(fields)) =>
        forall p | p in props && p in fields ensures Filled(props[p], Apply(props[p], Part(parts, p), fields[p])) {
          ApplyFilled(props[p], Part(parts, p), fields[p]);
        }
      case _ =>
    }
  }

  /** What is set in full can be created, and its diff rebuilds it from any old value. */
  lemma {:induction false} SetsAllRebuilds(k: Kind, u: Update, v: Value)
    requires SetsAll(k, u) && Fits(k, v) && Filled(k, v)
    ensures CanCreate(k, u) && Rebuilds(k, u, v)
    decreases k
  {
    match k {
      case Nested(inner, _) => SetsAllRebuilds(inner, u.sub, v.o.value);
      case Object(props) =>
        forall p | p in props
          ensures CanCreate(props[p], Part(u.parts, p)) && Rebuilds(props[p], Part(u.parts, p), v.fields[p])
        {
          SetsAllRebuilds(props[p], Part(u.parts, p), v.fields[p]);
        }
      case _ =>
    }
  }

  /** A safe update replays exactly in every state. */
  lemma {:induction false} SafeAgrees(k: Kind, u: Update, v: Value)
    requires Safe(k, u) && Fits(k, v) && Filled(k, v)
    ensures ReplayAgrees(k, u, v)
    decreases k
  {
    match (k, u, v) {
      case (DictOf(entry, key), UpdEntries(upd, rem), Entries(e)) =>
        forall x | x in upd && x in e ensures ReplayAgrees(entry, Keyed(key, x, upd[x]), e[x]) {
          SafeAgrees(entry, Keyed(key, x, upd[x]), e[x]);
        }
      case (Nested(inner, _), UpdSub(sub), Sub(o)) => SetsAllRebuilds(inner, sub, o.value);
      case (Object(props), UpdObj(parts), Obj(fields)) =>
        forall p | p in props && p in fields ensures ReplayAgrees(props[p], Part(parts, p), fields[p]) {
          if p in parts { SafeAgrees(props[p], parts[p], fields[p]); }
        }
      case _ =>
    }
  }

  /** Every update of the run is safe at property p. */
  predicate SafeAt(kind: Kind, us: seq<Update>, p: Property) {
    forall u | u in us :: Safe(kind, PartOf(u, p))
  }

  lemma {:induction false} SafeIsGood(k: Kind, us: seq<Update>, v: Value, p: Property)
    requires IsMachine(k) && Fits(k, v) && Filled(k, v) && p in k.props && Typed(k, us) && SafeAt(k.props[p], us, p)
    ensures PropertyGood(k, us, v, p)
    decreases |us|
  {
    hide IsMachine, Fits, FitsUpdate, Safe, ReplayAgrees, Apply, Preprocessed, PartOf, Filled;
    if us != [] {
      MachineParts(k);
      assert us[0] in us && forall u | u in us[1..] :: u in us;
      FieldFits(k.props, v, p);
      FieldFilled(k.props, v, p);
      SafeAgrees(k.props[p], PartOf(us[0], p), v.fields[p]);
      ProcessedFits(k, us[0], v);
      ApplyFilled(k, Preprocessed(us[0], v), v);
      SafeIsGood(k, us[1..], Committed(k, us[0], v), p);
    }
  }

  lemma {:induction false} FieldFilled(props: map<Property, Kind>, v: Value, p: Property)
    requires v.Obj? && p in props && p in v.fields && Filled(Object(props), v)
    ensures Filled(props[p], v.fields[p])
  {
  }

  /** new MachineState(): every property at its default. */
  const NEW_STATE := Initial(MACHINE_STATE, UpdObj(map[]))

  /**
   * A new machine's subscribers converge at every property whose updates are safe: over every run,
   * whatever it does to the other properties and whenever each snapshot is read.
   */
  lemma {:induction false} SafeRunsConverge(us: seq<Update>, at: nat, p: Property)
    requires at <= |us| && Typed(MACHINE_STATE, us) && p in MACHINE_STATE.props && SafeAt(MACHINE_STATE.props[p], us, p)
    ensures var k, v := MACHINE_STATE, NEW_STATE;
      var ws := Processed(k, us, v);
      var replica, server := ReplayAll(Broadcasts(Diffs(k, ws, v)), StateAfter(k, ws[..at], v)), StateAfter(k, ws, v);
      && replica.Obj? && server.Obj? && p in replica.fields && p in server.fields && replica.fields[p] == server.fields[p]
  {
    MachineStateIsMachine();
    NewStateFits();
    hide MACHINE_STATE, NEW_STATE, IsMachine, Fits, Filled, SafeAt, PropertyGood, Typed, Processed, ReplayAll, Broadcasts, Diffs, StateAfter;
    SafeIsGood(MACHINE_STATE, us, NEW_STATE, p);
    SubscriberPropertyConverges(MACHINE_STATE, us, NEW_STATE, at, p);
  }

  /** When every update is safe at every property, the whole state converges. */
  lemma {:induction false} SafeRunsConvergeWhole(us: seq<Update>, at: nat)
    requires at <= |us| && Typed(MACHINE_STATE, us) && forall p | p in MACHINE_STATE.props :: SafeAt(MACHINE_STATE.props[p], us, p)
    ensures var k, v := MACHINE_STATE, NEW_STATE;
      var ws := Processed(k, us, v);
      ReplayAll(Broadcasts(Diffs(k, ws, v)), StateAfter(k, ws[..at], v)) == StateAfter(k, ws, v)
  {
    MachineStateIsMachine();
    NewStateFits();
    assert MACHINE_STATE.Object?;
    hide MACHINE_STATE, NEW_STATE, IsMachine, Fits, Filled, SafeAt, PropertyGood, Typed, Processed, ReplayAll, Broadcasts, Diffs, StateAfter, CallersGood;
    forall p | p in MACHINE_STATE.props ensures PropertyGood(MACHINE_STATE, us, NEW_STATE, p) {
      SafeIsGood(MACHINE_STATE, us, NEW_STATE, p);
    }
    CallersGoodIsPerProperty(MACHINE_STATE, us, NEW_STATE);
    SubscriberConverges(MACHINE_STATE, us, NEW_STATE, at);
  }

  lemma {:induction false} NewStateFits()
    ensures Fits(MACHINE_STATE, NEW_STATE) && Filled(MACHINE_STATE, NEW_STATE)
  {
    NothingMandatory();
    hide MACHINE_SCALARS, MACHINE_COLLECTIONS, PRINT_JOB;
    NewObjectFits(MACHINE_STATE.props);
  }

  lemma {:induction false} NothingMandatory()
    ensures forall p | p in MACHINE_STATE.props :: !MACHINE_STATE.props[p].Object? && (MACHINE_STATE.props[p].Nested? ==> !MACHINE_STATE.props[p].mandatory)
  {
    hide PRINT_JOB, EXTRUDER, NOZZLE, MATERIAL_UNIT, NOTIFICATION;
  }

  lemma {:induction false} NewObjectFits(props: map<Property, Kind>)
    requires forall p | p in props :: !props[p].Object? && (props[p].Nested? ==> !props[p].mandatory)
    ensures var v := Initial(Object(props), UpdObj(map[])); Fits(Object(props), v) && Filled(Object(props), v)
  {
    var v := Initial(Object(props), UpdObj(map[]));
    forall p | p in props ensures Fits(props[p], v.fields[p]) && Filled(props[p], v.fields[p]) {
      assert v.fields[p] == Initial(props[p], Keep);
    }
  }
}
