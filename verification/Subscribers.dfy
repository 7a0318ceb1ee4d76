/**
 * The subscribers of a machine, over runs of commits with preprocessing and suppressed diffs: which
 * properties of their replicas end up equal to the machine's state.
 */
module Subscribers {
  import opened Optional
  import opened Schema
  import opened DiffEngine
  import opened ReplayExact
  import opened Replica
  import opened PropertyReplica
  import opened Connection

  /** The caller's update meets the replay condition at property p. */
  predicate AgreesAtProperty(k: Kind, u: Update, v: Value, p: Property) {
    k.Object? && p in k.props && v.Obj? && p in v.fields && ReplayAgrees(k.props[p], PartOf(u, p), v.fields[p])
  }

  /** One property of an update after further removals. */
  function Dropped(was: Update, xs: set<Atom>, empty: Update): Update {
    if xs == {} then was else AlsoRemove(if was.Keep? then empty else was, xs)
  }

  /** What PreprocessState makes of each property of an update. */
  lemma {:induction false} PreprocessedPart(u: Update, v: Value, p: Property)
    requires u.UpdObj?
    ensures PartOf(Preprocessed(u, v), p) ==
      if p == Notifications then Dropped(PartOf(u, p), Resolved(v), UpdEntries(map[], {}))
      else if p == ScheduledPrints then Dropped(PartOf(u, p), Orphans(RemovedJobs(u.parts), v), UpdElems({}, {}))
      else PartOf(u, p)
  {
    var resolved := Dropping(u.parts, Notifications, Resolved(v), UpdEntries(map[], {}));
    DroppingPart(u.parts, Notifications, Resolved(v), UpdEntries(map[], {}), p);
    DroppingPart(resolved, ScheduledPrints, Orphans(RemovedJobs(u.parts), v), UpdElems({}, {}), p);
    hide Resolved, Orphans, RemovedJobs, Dropping, Dropped;
  }

  lemma {:induction false} DroppingPart(parts: map<Property, Update>, q: Property, xs: set<Atom>, empty: Update, p: Property)
    ensures Part(Dropping(parts, q, xs, empty), p) == if p == q then Dropped(Part(parts, p), xs, empty) else Part(parts, p)
  {
    hide AlsoRemove;
  }

  /** PreprocessState keeps the replay condition of every property that meets it. */
  lemma {:induction false} PreprocessKeepsProperty(k: Kind, u: Update, v: Value, p: Property)
    requires IsMachine(k) && Fits(k, v) && FitsUpdate(k, u) && AgreesAtProperty(k, u, v, p)
    ensures AgreesAtProperty(k, Preprocessed(u, v), v, p)
  {
    FieldFits(k.props, v, p);
    PartFits(k.props, u, p);
    PreprocessedPart(u, v, p);
    Presence(k, u, v);
    hide ReplayAgrees, Resolved, Orphans, RemovedJobs, Preprocessed, AlsoRemove, Fits, FitsUpdate, PartOf;
    if p == Notifications && Resolved(v) != {} {
      DropOne(k.props[p], PartOf(u, p), PartOf(Preprocessed(u, v), p), Resolved(v), v.fields[p]);
    } else if p == ScheduledPrints && Orphans(RemovedJobs(u.parts), v) != {} {
      DropOne(k.props[p], PartOf(u, p), PartOf(Preprocessed(u, v), p), Orphans(RemovedJobs(u.parts), v), v.fields[p]);
    }
  }

  /** What PreprocessState removes is there. */
  lemma {:induction false} Presence(k: Kind, u: Update, v: Value)
    requires IsMachine(k) && Fits(k, v) && u.UpdObj?
    ensures v.Obj? && Notifications in v.fields && ScheduledPrints in v.fields
    ensures v.fields[Notifications].Entries? && Resolved(v) <= v.fields[Notifications].e.Keys
    ensures v.fields[ScheduledPrints].Elems? && Orphans(RemovedJobs(u.parts), v) <= v.fields[ScheduledPrints].s
  {
    FieldFits(k.props, v, Notifications);
    FieldFits(k.props, v, ScheduledPrints);
  }

  /** Each caller's update meets the replay condition at p in the state its commit finds. */
  ghost predicate PropertyGood(k: Kind, us: seq<Update>, v: Value, p: Property)
    decreases |us|
  {
    us == [] || (AgreesAtProperty(k, us[0], v, p) && PropertyGood(k, us[1..], Committed(k, us[0], v), p))
  }

  lemma {:induction false} PropertyGoodRun(k: Kind, us: seq<Update>, v: Value, p: Property)
    requires IsMachine(k) && Fits(k, v) && p in k.props && Typed(k, us) && PropertyGood(k, us, v, p)
    ensures var ws := Processed(k, us, v);
      Typed(k, ws) && v.Obj? && p in v.fields && GoodRun(k.props[p], Proj(ws, p), v.fields[p])
    decreases |us|
  {
    hide Apply, Preprocessed, ReplayAgrees, Fits, FitsUpdate, IsMachine, PartOf;
    MachineParts(k);
    FieldFits(k.props, v, p);
    if us != [] {
      var ws, next := Processed(k, us, v), Committed(k, us[0], v);
      ProcessedFits(k, us[0], v);
      PreprocessKeepsProperty(k, us[0], v, p);
      PropertyGoodRun(k, us[1..], next, p);
      ApplyField(k.props, ws[0], v, p);
      PartFits(k.props, ws[0], p);
      assert ws[0] == Preprocessed(us[0], v) && ws[1..] == Processed(k, us[1..], next);
      assert Proj(ws, p)[0] == PartOf(ws[0], p) && Proj(ws, p)[1..] == Proj(ws[1..], p);
    }
  }

  lemma {:induction false} MachineParts(k: Kind)
    requires IsMachine(k)
    ensures k.Object? && k == Object(k.props) && WellFormed(k)
  {
  }

  /**
   * Every subscriber of a machine holds the machine's value of a property: registered in state v, it
   * reads its snapshot after the first `at` commits and replays every broadcast since the registration.
   * Only the updates of that property need to meet the replay condition.
   */
  lemma {:induction false} SubscriberPropertyConverges(k: Kind, us: seq<Update>, v: Value, at: nat, p: Property)
    requires IsMachine(k) && Fits(k, v) && at <= |us| && p in k.props && Typed(k, us) && PropertyGood(k, us, v, p)
    ensures var ws := Processed(k, us, v);
      var replica, server := ReplayAll(Broadcasts(Diffs(k, ws, v)), StateAfter(k, ws[..at], v)), StateAfter(k, ws, v);
      Fits(k, replica) && Fits(k, server) && replica.Obj? && server.Obj? && replica.fields.Keys == server.fields.Keys == k.props.Keys
      && replica.fields[p] == server.fields[p]
  {
    hide Apply, ReplayAgrees, Fits, Processed, GoodRun, ReplayAll, Broadcasts, Diffs, StateAfter, IsMachine, Typed, PropertyGood;
    MachineParts(k);
    PropertyGoodRun(k, us, v, p);
    var ws := Processed(k, us, v);
    assert ws[..at] + ws[at..] == ws;
    PropertyConverges(k.props, v, ws[..at], ws[at..], p);
    ObjectFits(k.props, ReplayAll(Broadcasts(Diffs(k, ws, v)), StateAfter(k, ws[..at], v)));
    ObjectFits(k.props, StateAfter(k, ws, v));
  }

  /** A run is good for the whole machine exactly when it is well typed and good at each property. */
  lemma {:induction false} CallersGoodIsPerProperty(k: Kind, us: seq<Update>, v: Value)
    requires IsMachine(k) && Fits(k, v)
    ensures CallersGood(k, us, v) <==> Typed(k, us) && forall p | p in k.props :: PropertyGood(k, us, v, p)
    decreases |us|
  {
    hide Apply, Preprocessed, ReplayAgrees, Fits, FitsUpdate, IsMachine, AgreesAtProperty;
    MachineParts(k);
    if us != [] && FitsUpdate(k, us[0]) {
      ProcessedFits(k, us[0], v);
      CallersGoodIsPerProperty(k, us[1..], Committed(k, us[0], v));
      assert ReplayAgrees(k, us[0], v) <==> forall p | p in k.props :: AgreesAtProperty(k, us[0], v, p) by {
        AgreesAtEach(k, us[0], v);
      }
      assert forall p | p in k.props :: PropertyGood(k, us, v, p) <==>
        AgreesAtProperty(k, us[0], v, p) && PropertyGood(k, us[1..], Committed(k, us[0], v), p);
    }
  }

  lemma {:induction false} AgreesAtEach(k: Kind, u: Update, v: Value)
    requires IsMachine(k) && Fits(k, v) && FitsUpdate(k, u)
    ensures ReplayAgrees(k, u, v) <==> forall p | p in k.props :: AgreesAtProperty(k, u, v, p)
  {
    MachineParts(k);
    ObjectFits(k.props, v);
    AgreesIsPerProperty(k.props, u, v);
    hide ReplayAgrees, Fits, FitsUpdate, IsMachine, PartOf;
  }

  /** When every property's updates meet the condition, the whole replica equals the machine's state. */
  lemma {:induction false} SubscriberConverges(k: Kind, us: seq<Update>, v: Value, at: nat)
    requires IsMachine(k) && Fits(k, v) && at <= |us| && CallersGood(k, us, v)
    ensures var ws := Processed(k, us, v);
      ReplayAll(Broadcasts(Diffs(k, ws, v)), StateAfter(k, ws[..at], v)) == StateAfter(k, ws, v)
  {
    hide Apply, ReplayAgrees, Fits, Processed, GoodRun, ReplayAll, Broadcasts, Diffs, StateAfter, Typed, PropertyGood, CallersGood;
    CallersGoodIsPerProperty(k, us, v);
    forall p | p in k.props
      ensures var ws := Processed(k, us, v);
        var replica, server := ReplayAll(Broadcasts(Diffs(k, ws, v)), StateAfter(k, ws[..at], v)), StateAfter(k, ws, v);
        replica.Obj? && server.Obj? && replica.fields.Keys == server.fields.Keys == k.props.Keys && replica.fields[p] == server.fields[p]
    {
      SubscriberPropertyConverges(k, us, v, at, p);
    }
    assert Status in k.props;
  }

  /**
   * A job a replica does not hold never reaches it: when the snapshot was read with no value in a nested
   * property, no broadcast of any run ever gives it one.
   */
  lemma {:induction false} MissingStaysMissing(k: Kind, us: seq<Update>, v: Value, at: nat, p: Property)
    requires IsMachine(k) && Fits(k, v) && at <= |us| && p in k.props && k.props[p].Nested? && Typed(k, us)
    requires var snapshot := StateAfter(k, Processed(k, us, v)[..at], v); snapshot.Obj? && p in snapshot.fields && snapshot.fields[p] == Sub(None)
    ensures var ws := Processed(k, us, v);
      var replica := ReplayAll(Broadcasts(Diffs(k, ws, v)), StateAfter(k, ws[..at], v));
      replica.Obj? && p in replica.fields && replica.fields[p] == Sub(None)
  {
    hide Apply, Fits, FitsUpdate, Processed, ReplayAll, Broadcasts, Diffs, StateAfter, IsMachine, Typed, Proj;
    MachineParts(k);
    TypedRun(k, us, v);
    var ws := Processed(k, us, v);
    assert ws[..at] + ws[at..] == ws;
    TypedAppend(k, ws[..at], ws[at..]);
    var snapshot := StateAfter(k, ws[..at], v);
    StateAfterField(k.props, ws[..at], v, p);
    FieldFits(k.props, v, p);
    ReplayAllField(k.props, ws, v, snapshot, p);
    FieldFits(k.props, ReplayAll(Diffs(k, ws, v), snapshot), p);
    assert k.props[p] == Nested(k.props[p].inner, k.props[p].mandatory);
    SilentDiffsDoNotMatter(Diffs(k, ws, v), snapshot);
    NullStaysNull(k.props[p].inner, k.props[p].mandatory, Proj(ws, p), Field(v, p));
  }

  /** Preprocessing keeps a run well typed. */
  lemma {:induction false} TypedRun(k: Kind, us: seq<Update>, v: Value)
    requires IsMachine(k) && Fits(k, v) && Typed(k, us)
    ensures Typed(k, Processed(k, us, v))
    decreases |us|
  {
    hide Apply, Preprocessed, Fits, FitsUpdate, IsMachine;
    if us != [] {
      ProcessedFits(k, us[0], v);
      TypedRun(k, us[1..], Committed(k, us[0], v));
      var ws := Processed(k, us, v);
      assert ws[0] == Preprocessed(us[0], v) && ws[1..] == Processed(k, us[1..], Committed(k, us[0], v));
    }
  }
}
