/** MachineConnection: PreprocessState, CommitState, and the notifications. */
module Connection {
  import opened Optional
  import opened Schema
  import opened DiffEngine
  import opened ReplayExact
  import opened EmittedCode
  import opened Effects
  import opened Replica

  /** The properties CommitState reads by name; MACHINE_STATE is such a kind. */
  predicate IsMachine(k: Kind) {
    && k.Object? && WellFormed(k)
    && Status in k.props && k.props[Status] == Scalar(true, false, StatusAtom(Disconnected))
    && Notifications in k.props && k.props[Notifications].DictOf? && k.props[Notifications].keyProp == None
    && IsNotification(k.props[Notifications].entry)
    && LocalJobs in k.props && k.props[LocalJobs] == Set
    && ScheduledPrints in k.props && k.props[ScheduledPrints] == Set
  }

  predicate IsNotification(k: Kind) {
    && k.Object? && k.props.Keys == {Message, IssuedAt, LastSeenAt}
    && k.props[Message] == Scalar(true, false, Null)
    && k.props[IssuedAt] == Scalar(true, true, Time(0))
    && k.props[LastSeenAt] == Scalar(true, false, Time(0))
  }

  /** The type of the values of the Notifications dictionary. */
  function NotificationKind(k: Kind): (n: Kind)
    requires IsMachine(k)
    ensures IsNotification(n)
  {
    k.props[Notifications].entry
  }

  // ---------------------------------------------------------------- reading a state

  function StatusOf(v: Value): MachineStatus {
    if Member(v, Status).StatusAtom? then Member(v, Status).status else Disconnected
  }

  function NotificationsOf(v: Value): map<Atom, Value> {
    if v.Obj? && Notifications in v.fields && v.fields[Notifications].Entries? then v.fields[Notifications].e else map[]
  }

  function ElemsOf(v: Value, p: Property): set<Atom> {
    if v.Obj? && p in v.fields && v.fields[p].Elems? then v.fields[p].s else {}
  }

  /** A scalar property of an object. */
  function Member(n: Value, p: Property): Atom {
    if n.Obj? && p in n.fields && n.fields[p].One? then n.fields[p].a else Null
  }

  // ---------------------------------------------------------------- PreprocessState

  /** The auto-resolve rule: first WhenPrinting, then WhenStatus, then WhenConnected. */
  predicate Resolves(status: MachineStatus, r: AutoResolve) {
    if r.whenPrinting == Some(true) && (status == Printing || status == Printed) then true
    else if r.whenStatus == Some(status) then true
    else r.whenConnected == Some(true) && status != Disconnected
  }

  predicate ResolvesNow(status: MachineStatus, n: Value) {
    Member(n, Message).MessageAtom? && Resolves(status, Member(n, Message).autoResolve)
  }

  /** The notifications whose condition holds in the state before the commit. */
  function Resolved(v: Value): set<Atom> {
    set id | id in NotificationsOf(v) && ResolvesNow(StatusOf(v), NotificationsOf(v)[id])
  }

  predicate PrintsFile(sp: Atom, job: Atom) {
    sp.PrintAtom? && job.JobAtom? && sp.jobFile == job.file
  }

  /** The scheduled prints of a removed job's file. */
  function Orphans(removedJobs: set<Atom>, v: Value): set<Atom> {
    set sp | sp in ElemsOf(v, ScheduledPrints) && exists job | job in removedJobs :: PrintsFile(sp, job)
  }

  function RemovedJobs(parts: map<Property, Update>): set<Atom> {
    if Part(parts, LocalJobs).UpdElems? then parts[LocalJobs].del else {}
  }

  /** Further removals in one property of an update. */
  function AlsoRemove(u: Update, xs: set<Atom>): Update {
    match u
    case UpdEntries(upd, rem) => UpdEntries(upd, rem + xs)
    case UpdElems(add, del) => UpdElems(add, del + xs)
    case other => other
  }

  /** Remove...(x) for each x; the property's ToRemove is only allocated when there is something to remove. */
  function Dropping(parts: map<Property, Update>, p: Property, xs: set<Atom>, empty: Update): map<Property, Update> {
    if xs == {} then parts else parts[p := AlsoRemove(if p in parts && !parts[p].Keep? then parts[p] else empty, xs)]
  }

  /** The update PreprocessState leaves. */
  function Preprocessed(u: Update, v: Value): (w: Update)
    ensures w.UpdObj? <==> u.UpdObj?
  {
    if u.UpdObj? then
      var resolved := Dropping(u.parts, Notifications, Resolved(v), UpdEntries(map[], {}));
      UpdObj(Dropping(resolved, ScheduledPrints, Orphans(RemovedJobs(u.parts), v), UpdElems({}, {})))
    else u
  }

  /** The state after a commit. */
  function Committed(k: Kind, u: Update, v: Value): Value {
    Apply(k, Preprocessed(u, v), v)
  }

  /** PreprocessState keeps the caller's update well typed and keeps its replay condition. */
  lemma {:induction false} PreprocessKeepsReplay(k: Kind, u: Update, v: Value)
    requires IsMachine(k) && Fits(k, v) && FitsUpdate(k, u) && ReplayAgrees(k, u, v)
    ensures FitsUpdate(k, Preprocessed(u, v)) && ReplayAgrees(k, Preprocessed(u, v), v)
  {
    var resolved := Dropping(u.parts, Notifications, Resolved(v), UpdEntries(map[], {}));
    DropFits(k, u.parts, Notifications, Resolved(v), UpdEntries(map[], {}), v);
    DropFits(k, resolved, ScheduledPrints, Orphans(RemovedJobs(u.parts), v), UpdElems({}, {}), v);
  }

  /** Removing further keys or elements that are present keeps typing and the replay condition. */
  lemma {:induction false} DropFits(k: Kind, parts: map<Property, Update>, p: Property, xs: set<Atom>, empty: Update, v: Value)
    requires k.Object? && p in k.props && Fits(k, v) && FitsUpdate(k, UpdObj(parts)) && ReplayAgrees(k, UpdObj(parts), v)
    requires (k.props[p].DictOf? && empty == UpdEntries(map[], {}) && v.fields[p].Entries? && xs <= v.fields[p].e.Keys)
          || (k.props[p].Set? && empty == UpdElems({}, {}) && v.fields[p].Elems? && xs <= v.fields[p].s)
    ensures FitsUpdate(k, UpdObj(Dropping(parts, p, xs, empty))) && ReplayAgrees(k, UpdObj(Dropping(parts, p, xs, empty)), v)
  {
    hide ReplayAgrees, FitsUpdate;
    if xs != {} {
      var was := Part(parts, p);
      var now := AlsoRemove(if was.Keep? then empty else was, xs);
      OneProperty(k, parts, p, v);
      DropOne(k.props[p], was, now, xs, v.fields[p]);
      ReplaceOne(k, parts, p, now, v);
    }
  }

  lemma {:induction false} OneProperty(k: Kind, parts: map<Property, Update>, p: Property, v: Value)
    requires k.Object? && p in k.props && !k.props[p].Object? && Fits(k, v)
    requires FitsUpdate(k, UpdObj(parts)) && ReplayAgrees(k, UpdObj(parts), v)
    ensures FitsUpdate(k.props[p], Part(parts, p)) && ReplayAgrees(k.props[p], Part(parts, p), v.fields[p])
  {
  }

  lemma {:induction false} DropOne(k: Kind, was: Update, now: Update, xs: set<Atom>, v: Value)
    requires FitsUpdate(k, was) && ReplayAgrees(k, was, v)
    requires (k.DictOf? && v.Entries? && xs <= v.e.Keys && now == AlsoRemove(if was.Keep? then UpdEntries(map[], {}) else was, xs))
          || (k.Set? && v.Elems? && xs <= v.s && now == AlsoRemove(if was.Keep? then UpdElems({}, {}) else was, xs))
    ensures FitsUpdate(k, now) && ReplayAgrees(k, now, v)
  {
  }

  lemma {:induction false} ReplaceOne(k: Kind, parts: map<Property, Update>, p: Property, now: Update, v: Value)
    requires k.Object? && p in k.props && Fits(k, v) && FitsUpdate(k, UpdObj(parts)) && ReplayAgrees(k, UpdObj(parts), v)
    requires FitsUpdate(k.props[p], now) && ReplayAgrees(k.props[p], now, v.fields[p])
    ensures FitsUpdate(k, UpdObj(parts[p := now])) && ReplayAgrees(k, UpdObj(parts[p := now]), v)
  {
    forall q | q in k.props ensures ReplayAgrees(k.props[q], Part(parts[p := now], q), v.fields[q]) {
      assert ReplayAgrees(k.props[q], Part(parts, q), v.fields[q]);
    }
  }

  /** A commit is broadcast exactly when it altered the state, so the suppressed ones lose nothing. */
  lemma {:induction false} CommitReportedIffAltered(k: Kind, u: Update, v: Value)
    requires IsMachine(k) && Fits(k, v) && FitsUpdate(k, u) && ReplayAgrees(k, u, v)
    ensures HasChanged(Changes(k, Preprocessed(u, v), v)) <==> Committed(k, u, v) != v
  {
    PreprocessKeepsReplay(k, u, v);
    ReportedIffAltered(k, Preprocessed(u, v), v);
  }

  // ---------------------------------------------------------------- the lifetime of a notification

  /** AppendUpdate never touches an init-only property. */
  lemma {:induction false} InitOnlyKept(entry: Kind, p: Property, u: Update, v: Value)
    requires entry.Object? && p in entry.props && entry.props[p].Scalar? && entry.props[p].initOnly
    requires v.Obj? && p in v.fields
    ensures Apply(entry, u, v).Obj? && p in Apply(entry, u, v).fields && Apply(entry, u, v).fields[p] == v.fields[p]
  {
  }

  /** One notification across a commit, in terms of the updater for it. */
  lemma {:induction false} NotificationAfter(k: Kind, u: Update, v: Value, id: Atom)
    requires IsMachine(k) && Fits(k, v) && u.UpdObj?
    ensures var w := Preprocessed(u, v).parts;
      At(NotificationsOf(Committed(k, u, v)), id) ==
        if Part(w, Notifications).UpdEntries? then AppliedEntry(NotificationKind(k), None, w[Notifications], NotificationsOf(v), id)
        else At(NotificationsOf(v), id)
  {
    var w := Preprocessed(u, v).parts;
    assert Committed(k, u, v).fields[Notifications] == Apply(DictOf(NotificationKind(k), None), Part(w, Notifications), v.fields[Notifications]);
    if Part(w, Notifications).UpdEntries? {
      var b := EntriesApply(NotificationKind(k), None, w[Notifications], NotificationsOf(v));
    }
  }

  /** What PreprocessState leaves of the notification part of an update. */
  lemma {:induction false} NotificationUpdate(k: Kind, u: Update, v: Value)
    requires IsMachine(k) && FitsUpdate(k, u) && Fits(k, v)
    ensures var n, w := Part(u.parts, Notifications), Part(Preprocessed(u, v).parts, Notifications);
      && (n.UpdEntries? ==> w.UpdEntries? && w.upd == n.upd && w.rem == n.rem + Resolved(v))
      && (n.Keep? ==> w.UpdEntries? ==> w.upd == map[] && w.rem == Resolved(v))
      && (n.Keep? || n.UpdEntries?)
      && (Resolved(v) != {} ==> w.UpdEntries?)
  {
    assert FitsUpdate(k.props[Notifications], Part(u.parts, Notifications));
    hide Resolved, Orphans, RemovedJobs, FitsUpdate, Fits;
    assert Part(Preprocessed(u, v).parts, Notifications)
        == Part(Dropping(u.parts, Notifications, Resolved(v), UpdEntries(map[], {})), Notifications);
    if Resolved(v) == {} { assert Part(u.parts, Notifications).UpdEntries? ==> Part(u.parts, Notifications).rem + {} == Part(u.parts, Notifications).rem; }
  }

  /** No notification survives a commit that found its condition met, even one set again by that commit. */
  lemma {:induction false} ResolvedDoesNotSurvive(k: Kind, u: Update, v: Value, id: Atom)
    requires IsMachine(k) && Fits(k, v) && FitsUpdate(k, u) && id in Resolved(v)
    ensures id !in NotificationsOf(Committed(k, u, v))
  {
    hide Committed, Resolved, Preprocessed;
    NotificationUpdate(k, u, v);
    NotificationAfter(k, u, v, id);
  }

  /** While a notification stays present its IssuedAt does not change. */
  lemma {:induction false} IssuedAtKept(k: Kind, u: Update, v: Value, id: Atom)
    requires IsMachine(k) && Fits(k, v) && FitsUpdate(k, u)
    requires id in NotificationsOf(v) && id in NotificationsOf(Committed(k, u, v))
    ensures Member(NotificationsOf(Committed(k, u, v))[id], IssuedAt) == Member(NotificationsOf(v)[id], IssuedAt)
  {
    hide Committed, Resolved, Preprocessed, Apply;
    NotificationUpdate(k, u, v);
    NotificationAfter(k, u, v, id);
    assert Fits(NotificationKind(k), NotificationsOf(v)[id]);
    var w := Part(Preprocessed(u, v).parts, Notifications);
    if w.UpdEntries? && id in w.upd {
      InitOnlyKept(NotificationKind(k), IssuedAt, Keyed(None, id, w.upd[id]), NotificationsOf(v)[id]);
    }
  }

  /** The SetNotifications extension: every notification set carries one reading of the clock in both times. */
  predicate Stamped(n: Update, from: int, to: int) {
    n.UpdEntries? ==> forall id | id in n.upd ::
      && n.upd[id].UpdObj? && IssuedAt in n.upd[id].parts && LastSeenAt in n.upd[id].parts
      && n.upd[id].parts[IssuedAt] == n.upd[id].parts[LastSeenAt]
      && n.upd[id].parts[IssuedAt].SetOne? && n.upd[id].parts[IssuedAt].a.Time?
      && from <= n.upd[id].parts[IssuedAt].a.at <= to
  }

  predicate SeenAfterIssued(n: Value, clock: int) {
    Member(n, IssuedAt).Time? && Member(n, LastSeenAt).Time? && Member(n, IssuedAt).at <= Member(n, LastSeenAt).at <= clock
  }

  predicate AllSeenAfterIssued(v: Value, clock: int) {
    forall id | id in NotificationsOf(v) :: SeenAfterIssued(NotificationsOf(v)[id], clock)
  }

  lemma {:induction false} StampedEntry(n: Kind, u: Update, v: Value, from: int, to: int)
    requires IsNotification(n) && from <= to && Stamped(UpdEntries(map[Null := u], {}), from, to)
    ensures CanCreate(n, u) ==> SeenAfterIssued(Create(n, u), to)
    ensures Fits(n, v) && SeenAfterIssued(v, from) ==> SeenAfterIssued(Apply(n, u, v), to)
  {
    assert u == map[Null := u][Null];
    if CanCreate(n, u) {
      ObjectCreate(n.props, u);
      assert Create(n.props[IssuedAt], Part(u.parts, IssuedAt)) == One(u.parts[IssuedAt].a);
      assert Create(n.props[LastSeenAt], Part(u.parts, LastSeenAt)) == One(u.parts[LastSeenAt].a);
    }
  }

  /** One commit at clock reading `to`, the previous one having been made by `from`. */
  lemma {:induction false} SeenAfterIssuedKept(k: Kind, u: Update, v: Value, from: int, to: int)
    requires IsMachine(k) && Fits(k, v) && FitsUpdate(k, u)
    requires from <= to && Stamped(Part(u.parts, Notifications), from, to) && AllSeenAfterIssued(v, from)
    ensures AllSeenAfterIssued(Committed(k, u, v), to)
  {
    hide Committed, Resolved, Apply, Create, CanCreate, Member;
    NotificationUpdate(k, u, v);
    var w := Part(Preprocessed(u, v).parts, Notifications);
    forall id | id in NotificationsOf(Committed(k, u, v))
      ensures SeenAfterIssued(NotificationsOf(Committed(k, u, v))[id], to)
    {
      NotificationAfter(k, u, v, id);
      if w.UpdEntries? && id in w.upd {
        assert Stamped(UpdEntries(map[Null := w.upd[id]], {}), from, to);
        StampedEntry(NotificationKind(k), w.upd[id], if id in NotificationsOf(v) then NotificationsOf(v)[id] else v, from, to);
        if id in NotificationsOf(v) { assert Fits(NotificationKind(k), NotificationsOf(v)[id]); }
      }
    }
  }

  // ---------------------------------------------------------------- runs of commits

  /** The updates as applied, after PreprocessState, in a run of the callers' updates. */
  function Processed(k: Kind, us: seq<Update>, v: Value): (ws: seq<Update>)
    ensures |ws| == |us|
    decreases |us|
  {
    if us == [] then [] else [Preprocessed(us[0], v)] + Processed(k, us[1..], Committed(k, us[0], v))
  }

  lemma {:induction false} ProcessedFits(k: Kind, u: Update, v: Value)
    requires IsMachine(k) && Fits(k, v) && FitsUpdate(k, u)
    ensures FitsUpdate(k, Preprocessed(u, v)) && Fits(k, Committed(k, u, v))
  {
    var resolved := Dropping(u.parts, Notifications, Resolved(v), UpdEntries(map[], {}));
    DroppingFits(k, u.parts, Notifications, Resolved(v), UpdEntries(map[], {}));
    DroppingFits(k, resolved, ScheduledPrints, Orphans(RemovedJobs(u.parts), v), UpdElems({}, {}));
    ApplyFits(k, Preprocessed(u, v), v);
  }

  lemma {:induction false} DroppingFits(k: Kind, parts: map<Property, Update>, p: Property, xs: set<Atom>, empty: Update)
    requires k.Object? && p in k.props && FitsUpdate(k, UpdObj(parts))
    requires (k.props[p].DictOf? && empty == UpdEntries(map[], {})) || (k.props[p].Set? && empty == UpdElems({}, {}))
    ensures FitsUpdate(k, UpdObj(Dropping(parts, p, xs, empty)))
  {
  }

  /** Each caller's update is well typed and meets the replay condition in the state its commit finds. */
  ghost predicate CallersGood(k: Kind, us: seq<Update>, v: Value)
    decreases |us|
  {
    us == [] || (FitsUpdate(k, us[0]) && ReplayAgrees(k, us[0], v) && CallersGood(k, us[1..], Committed(k, us[0], v)))
  }

  lemma {:induction false} CallersGoodRun(k: Kind, us: seq<Update>, v: Value)
    requires IsMachine(k) && Fits(k, v) && CallersGood(k, us, v)
    ensures GoodRun(k, Processed(k, us, v), v)
    decreases |us|
  {
    hide Apply, Preprocessed, ReplayAgrees, Fits, FitsUpdate, IsMachine;
    if us != [] {
      ProcessedFits(k, us[0], v);
      PreprocessKeepsReplay(k, us[0], v);
      CallersGoodRun(k, us[1..], Committed(k, us[0], v));
      assert Processed(k, us, v)[1..] == Processed(k, us[1..], Committed(k, us[0], v));
    }
  }

  lemma {:induction false} FirstCommit(k: Kind, us: seq<Update>, v: Value)
    requires us != []
    ensures var next := Committed(k, us[0], v);
      StateAfter(k, Processed(k, us, v), v) == StateAfter(k, Processed(k, us[1..], next), next)
  {
    hide Apply, Preprocessed;
    var ws := Processed(k, us, v);
    assert ws[0] == Preprocessed(us[0], v) && ws[1..] == Processed(k, us[1..], Committed(k, us[0], v));
  }

  /** Well-typed updates whose notifications were stamped since the commit before, under a clock that never goes back. */
  ghost predicate StampedRun(k: Kind, us: seq<Update>, clock: seq<int>)
    requires |clock| == |us| + 1
    decreases |us|
  {
    us == [] || (
      && FitsUpdate(k, us[0]) && us[0].UpdObj? && clock[0] <= clock[1] && Stamped(Part(us[0].parts, Notifications), clock[0], clock[1])
      && StampedRun(k, us[1..], clock[1..]))
  }

  /** Over a whole run with a non-decreasing clock every notification is seen no earlier than issued. */
  lemma {:induction false} SeenAfterIssuedOverRuns(k: Kind, us: seq<Update>, clock: seq<int>, v: Value)
    requires IsMachine(k) && Fits(k, v) && |clock| == |us| + 1
    requires StampedRun(k, us, clock) && AllSeenAfterIssued(v, clock[0])
    ensures AllSeenAfterIssued(StateAfter(k, Processed(k, us, v), v), clock[|us|])
    decreases |us|
  {
    if us != [] {
      hide AllSeenAfterIssued, Stamped, Apply, Preprocessed, Fits, FitsUpdate, IsMachine;
      ProcessedFits(k, us[0], v);
      SeenAfterIssuedKept(k, us[0], v, clock[0], clock[1]);
      var next := Committed(k, us[0], v);
      FirstCommit(k, us, v);
      hide Processed, StateAfter, Committed;
      SeenAfterIssuedOverRuns(k, us[1..], clock[1..], next);
    }
  }

  /** id is in the state before and after every commit of the run. */
  predicate StaysPresent(k: Kind, us: seq<Update>, v: Value, id: Atom)
    decreases |us|
  {
    id in NotificationsOf(v) && (us == [] || StaysPresent(k, us[1..], Committed(k, us[0], v), id))
  }

  /** Over a whole run, while a notification stays present it keeps the time it was issued. */
  lemma {:induction false} IssuedAtKeptOverRuns(k: Kind, us: seq<Update>, v: Value, id: Atom)
    requires IsMachine(k) && Fits(k, v) && forall i | 0 <= i < |us| :: FitsUpdate(k, us[i])
    requires StaysPresent(k, us, v, id)
    ensures var last := StateAfter(k, Processed(k, us, v), v);
      id in NotificationsOf(last) && Member(NotificationsOf(last)[id], IssuedAt) == Member(NotificationsOf(v)[id], IssuedAt)
    decreases |us|
  {
    if us != [] {
      hide NotificationsOf, Member, Apply, Preprocessed, IsMachine, Fits, FitsUpdate, Committed;
      ProcessedFits(k, us[0], v);
      var next := Committed(k, us[0], v);
      FirstCommit(k, us, v);
      hide Processed, StateAfter;
      assert StaysPresent(k, us[1..], next, id) && id in NotificationsOf(next);
      IssuedAtKept(k, us[0], v, id);
      hide StaysPresent;
      IssuedAtKeptOverRuns(k, us[1..], next, id);
    }
  }

  // ---------------------------------------------------------------- the objects

  /** Removing more of the same property adds up. */
  lemma {:induction false} DroppingMore(parts: map<Property, Update>, p: Property, xs: set<Atom>, ys: set<Atom>, empty: Update)
    requires empty == UpdEntries(map[], {}) || empty == UpdElems({}, {})
    ensures Dropping(Dropping(parts, p, xs, empty), p, ys, empty) == Dropping(parts, p, xs + ys, empty)
  {
    if xs == {} { assert xs + ys == ys; }
    else if ys == {} { assert xs + ys == xs; }
    else {
      var u := if p in parts && !parts[p].Keep? then parts[p] else empty;
      assert AlsoRemove(AlsoRemove(u, xs), ys) == AlsoRemove(u, xs + ys) by {
        if u.UpdEntries? { assert (u.rem + xs) + ys == u.rem + (xs + ys); }
        if u.UpdElems? { assert (u.del + xs) + ys == u.del + (xs + ys); }
      }
    }
  }

  /** A MachineStateUpdate under construction. */
  class Updater {
    var u: Update

    constructor ()
      ensures u == UpdObj(map[])
    {
      u := UpdObj(map[]);
    }

    /** RemoveNotifications(id) */
    method RemoveNotifications(id: Atom)
      requires u.UpdObj?
      modifies this
      ensures u == UpdObj(Dropping(old(u).parts, Notifications, {id}, UpdEntries(map[], {})))
    {
      var was := if Notifications in u.parts && !u.parts[Notifications].Keep? then u.parts[Notifications] else UpdEntries(map[], {});
      u := UpdObj(u.parts[Notifications := AlsoRemove(was, {id})]);
    }

    /** RemoveScheduledPrints(print) */
    method RemoveScheduledPrints(scheduled: Atom)
      requires u.UpdObj?
      modifies this
      ensures u == UpdObj(Dropping(old(u).parts, ScheduledPrints, {scheduled}, UpdElems({}, {})))
    {
      var was := if ScheduledPrints in u.parts && !u.parts[ScheduledPrints].Keep? then u.parts[ScheduledPrints] else UpdElems({}, {});
      u := UpdObj(u.parts[ScheduledPrints := AlsoRemove(was, {scheduled})]);
    }

    /** The SetNotifications(message) extension, at clock reading `now`. */
    method SetNotifications(message: Atom, now: int)
      requires message.MessageAtom? && u.UpdObj?
      modifies this
      ensures u == UpdObj(old(u).parts[Notifications := WithNotification(Part(old(u).parts, Notifications), message, now)])
      ensures SetsNotification(Part(old(u).parts, Notifications), Part(u.parts, Notifications), message, now)
    {
      WithNotificationSets(Part(u.parts, Notifications), message, now);
      var was := Part(u.parts, Notifications);
      var put := if was.UpdEntries? then was.upd else map[];
      ghost var before := put;
      var id := Text(message.id);
      if id !in put { put := put[id := UpdObj(map[])]; }
      var n := if put[id].UpdObj? then put[id].parts else map[];
      n := n[Message := SetOne(message)];
      n := n[IssuedAt := SetOne(Time(now))];
      n := n[LastSeenAt := SetOne(Time(now))];
      assert put[id := UpdObj(n)] == before[id := UpdObj(n)];
      u := UpdObj(u.parts[Notifications := UpdEntries(put[id := UpdObj(n)], if was.UpdEntries? then was.rem else {})]);
    }
  }

  /** The notification part of an update after UpdateNotifications(message.Id, ...) by SetNotifications. */
  function WithNotification(was: Update, message: Atom, now: int): Update
    requires message.MessageAtom?
  {
    var put := if was.UpdEntries? then was.upd else map[];
    var id := Text(message.id);
    var n := if id in put && put[id].UpdObj? then put[id].parts else map[];
    UpdEntries(put[id := UpdObj(n[Message := SetOne(message)][IssuedAt := SetOne(Time(now))][LastSeenAt := SetOne(Time(now))])],
               if was.UpdEntries? then was.rem else {})
  }

  /** From was to n, the message's notification is set to the message at one reading, and nothing else changes. */
  predicate SetsNotification(was: Update, n: Update, message: Atom, now: int)
    requires message.MessageAtom?
  {
    var id, before := Text(message.id), if was.UpdEntries? then was.upd else map[];
    && n.UpdEntries? && n.rem == (if was.UpdEntries? then was.rem else {})
    && id in n.upd && n.upd - {id} == before - {id}
    && n.upd[id].UpdObj? && Part(n.upd[id].parts, Message) == SetOne(message)
    && Part(n.upd[id].parts, IssuedAt) == SetOne(Time(now)) && Part(n.upd[id].parts, LastSeenAt) == SetOne(Time(now))
    && n.upd[id].parts - {Message, IssuedAt, LastSeenAt}
       == (if id in before && before[id].UpdObj? then before[id].parts else map[]) - {Message, IssuedAt, LastSeenAt}
  }

  lemma {:induction false} WithNotificationSets(was: Update, message: Atom, now: int)
    requires message.MessageAtom?
    ensures SetsNotification(was, WithNotification(was, message, now), message, now)
  {
  }

  /** Updates built with SetNotifications satisfy the stamping that the lifetime results assume. */
  lemma {:induction false} SetNotificationsStamps(was: Update, message: Atom, now: int, from: int, to: int)
    requires message.MessageAtom? && from <= now <= to && Stamped(was, from, to)
    ensures Stamped(WithNotification(was, message, now), from, to)
  {
  }

  /** A notification set that way can always be created. */
  lemma {:induction false} SetNotificationsCreates(n: Kind, was: Update, message: Atom, now: int)
    requires IsNotification(n) && message.MessageAtom?
    ensures CanCreate(n, WithNotification(was, message, now).upd[Text(message.id)])
  {
    var u := WithNotification(was, message, now).upd[Text(message.id)];
    assert u.parts[Message].SetOne? && u.parts[IssuedAt].SetOne? && u.parts[LastSeenAt].SetOne?;
  }

  class MachineConnection {
    const kind: Kind
    const state: Target
    /** The diffs raised through OnChanges, oldest first. */
    var raised: seq<Diff>

    constructor (kind: Kind, initial: Value)
      requires IsMachine(kind) && Fits(kind, initial)
      ensures Valid() && fresh(state) && this.kind == kind && state.value == initial && raised == []
    {
      this.kind := kind;
      state := new Target(initial);
      raised := [];
    }

    predicate Valid()
      reads this, state
    {
      IsMachine(kind) && Fits(kind, state.value)
    }

    /** The loops of PreprocessState: auto-resolved notifications, then orphaned scheduled prints. */
    method PreprocessState(updated: Updater)
      requires Valid() && updated.u.UpdObj?
      modifies updated
      ensures updated.u == Preprocessed(old(updated.u), state.value)
    {
      var v := state.value;
      ghost var parts := updated.u.parts;
      var removedJobs := RemovedJobs(updated.u.parts);
      var todo := NotificationsOf(v).Keys;
      ghost var dropped: set<Atom> := {};
      while todo != {}
        invariant todo <= NotificationsOf(v).Keys && dropped == Resolved(v) - todo
        invariant updated.u == UpdObj(Dropping(parts, Notifications, dropped, UpdEntries(map[], {})))
        decreases todo
      {
        var id :| id in todo;
        if ResolvesNow(StatusOf(v), NotificationsOf(v)[id]) {
          updated.RemoveNotifications(id);
          DroppingMore(parts, Notifications, dropped, {id}, UpdEntries(map[], {}));
          dropped := dropped + {id};
        }
        todo := todo - {id};
      }
      assert dropped == Resolved(v);
      RemoveOrphans(updated, removedJobs);
    }

    /** For every removed local job: the scheduled prints of its file go too. */
    method RemoveOrphans(updated: Updater, removedJobs: set<Atom>)
      requires Valid() && updated.u.UpdObj?
      modifies updated
      ensures updated.u == UpdObj(Dropping(old(updated.u).parts, ScheduledPrints, Orphans(removedJobs, state.value), UpdElems({}, {})))
    {
      var v := state.value;
      ghost var parts := updated.u.parts;
      var jobs := removedJobs;
      ghost var dropped: set<Atom> := {};
      while jobs != {}
        invariant jobs <= removedJobs && dropped == Orphans(removedJobs - jobs, v)
        invariant updated.u == UpdObj(Dropping(parts, ScheduledPrints, dropped, UpdElems({}, {})))
        decreases jobs
      {
        var job :| job in jobs;
        var prints := ElemsOf(v, ScheduledPrints);
        while prints != {}
          invariant prints <= ElemsOf(v, ScheduledPrints)
          invariant dropped == Orphans(removedJobs - jobs, v) + (Orphans({job}, v) - prints)
          invariant updated.u == UpdObj(Dropping(parts, ScheduledPrints, dropped, UpdElems({}, {})))
          decreases prints
        {
          var sp :| sp in prints;
          if PrintsFile(sp, job) {
            updated.RemoveScheduledPrints(sp);
            DroppingMore(parts, ScheduledPrints, dropped, {sp}, UpdElems({}, {}));
            dropped := dropped + {sp};
          }
          prints := prints - {sp};
        }
        assert Orphans(removedJobs - (jobs - {job}), v) == Orphans(removedJobs - jobs, v) + Orphans({job}, v);
        jobs := jobs - {job};
      }
      assert removedJobs - jobs == removedJobs;
    }

    /** CommitState: preprocess, apply in place, raise OnChanges when something changed. */
    method CommitState(updated: Updater)
      requires Valid() && FitsUpdate(kind, updated.u)
      modifies this`raised, state, updated
      ensures Valid()
      ensures state.value == Committed(kind, old(updated.u), old(state.value))
      ensures raised == old(raised) + Broadcasts([Changes(kind, Preprocessed(old(updated.u), old(state.value)), old(state.value))])
      ensures ReplayAgrees(kind, old(updated.u), old(state.value)) ==>
        (raised != old(raised) <==> state.value != old(state.value))
    {
      hide Apply, Changes, Preprocessed, ReplayAgrees, FitsUpdate, Fits, Effect, Reported, HasChanged;
      ghost var was, u := state.value, updated.u;
      ProcessedFits(kind, updated.u, state.value);
      PreprocessState(updated);
      var changes := state.AppendUpdate(kind, updated.u);
      if HasChanged(changes) { raised := raised + [changes]; }
      if ReplayAgrees(kind, u, was) { CommitReportedIffAltered(kind, u, was); }
    }
  }
}
