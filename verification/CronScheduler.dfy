/** CronScheduler: the task list, the due-task check, and which occurrences are collected over a run. */
module CronScheduler {
  import opened Optional

  type Guid(==, !new)
  type Instant = int

  /**
   * A cron expression in its time zone, by its answers: the next occurrence after each clock reading at
   * which a run asks for one.  An answer that is absent, or not later than the reading, is no occurrence.
   */
  datatype Cron = Cron(answers: map<Instant, Instant>)

  /** GetNextOccurrence: strictly later than the given instant, or none. */
  function NextOccurrence(expression: Cron, now: Instant): (r: Option<Instant>)
    ensures r.Some? ==> now < r.value
  {
    if now in expression.answers && now < expression.answers[now] then Some(expression.answers[now]) else None
  }

  /** Any later instant can be the next occurrence, and there may be none. */
  lemma {:induction false} EveryAnswerIsPossible(now: Instant, next: Instant)
    requires now < next
    ensures NextOccurrence(Cron(map[now := next]), now) == Some(next) && NextOccurrence(Cron(map[]), now) == None
  {
  }

  datatype ScheduledTask = ScheduledTask(id: Guid, expression: Cron, nextRun: Option<Instant>)

  /** A task taken for execution: for which occurrence, and at which clock reading. */
  datatype Collected = Collected(id: Guid, occurrence: Instant, now: Instant)

  datatype State = State(tasks: seq<ScheduledTask>, disposed: bool, log: seq<Collected>)

  const STARTED := State([], false, [])

  // ---------------------------------------------------------------- one check

  predicate Due(t: ScheduledTask, now: Instant) {
    t.nextRun.Some? && t.nextRun.value <= now
  }

  /** A due task is advanced past now; any other is left alone. */
  function Advanced(t: ScheduledTask, now: Instant): (r: ScheduledTask)
    ensures r.id == t.id && !Due(r, now)
  {
    if Due(t, now) then t.(nextRun := NextOccurrence(t.expression, now)) else t
  }

  /** One turn of the loop: a due task is taken for its occurrence and advanced past now. */
  function CheckOne(s: State, now: Instant, i: nat): (r: State)
    requires i < |s.tasks|
    ensures |r.tasks| == |s.tasks|
  {
    var t := s.tasks[i];
    if Due(t, now) then
      State(s.tasks[i := Advanced(t, now)], s.disposed, s.log + [Collected(t.id, t.nextRun.value, now)])
    else s
  }

  /** The loop from task i on. */
  function CheckFrom(s: State, now: Instant, i: nat): State
    requires i <= |s.tasks|
    decreases |s.tasks| - i
  {
    if i == |s.tasks| then s else CheckFrom(CheckOne(s, now, i), now, i + 1)
  }

  function RemoveTask(ts: seq<ScheduledTask>, id: Guid): seq<ScheduledTask> {
    if ts == [] then [] else if ts[0].id == id then ts[1..] else [ts[0]] + RemoveTask(ts[1..], id)
  }

  // ---------------------------------------------------------------- runs

  datatype Event =
    | Schedule(id: Guid, expression: Cron, now: Instant)
    | End(id: Guid)
    | Check(now: Instant, sawDisposed: bool) // the flag is read before the lock is taken
    | Dispose

  function Step(s: State, e: Event): State {
    match e
    case Schedule(id, expression, now) =>
      s.(tasks := s.tasks + [ScheduledTask(id, expression, NextOccurrence(expression, now))])
    case End(id) => s.(tasks := RemoveTask(s.tasks, id))
    case Check(now, sawDisposed) => if sawDisposed then s else CheckFrom(s, now, 0)
    case Dispose => s.(tasks := [], disposed := true)
  }

  function Run(events: seq<Event>): State {
    if events == [] then STARTED else Step(Run(events[..|events| - 1]), events[|events| - 1])
  }

  /** Guid.NewGuid never repeats. */
  ghost predicate FreshIds(events: seq<Event>) {
    forall i, j | 0 <= i < j < |events| && events[i].Schedule? && events[j].Schedule? :: events[i].id != events[j].id
  }

  ghost predicate Scheduled(events: seq<Event>, id: Guid) {
    exists i | 0 <= i < |events| :: events[i].Schedule? && events[i].id == id
  }

  ghost predicate HasTask(ts: seq<ScheduledTask>, id: Guid) {
    exists i | 0 <= i < |ts| :: ts[i].id == id
  }

  /** id is not collected at or after place n of the log. */
  ghost predicate NotSince(log: seq<Collected>, n: nat, id: Guid) {
    forall j | n <= j < |log| :: log[j].id != id
  }

  ghost predicate DistinctIds(ts: seq<ScheduledTask>) {
    forall i, j | 0 <= i < j < |ts| :: ts[i].id != ts[j].id
  }

  /** No occurrence is collected twice: for one task they strictly increase. */
  ghost predicate Increasing(log: seq<Collected>) {
    forall i, j | 0 <= i < j < |log| && log[i].id == log[j].id :: log[i].occurrence < log[j].occurrence
  }

  /** What is still to come for a task is later than everything collected for it. */
  ghost predicate Ahead(t: ScheduledTask, log: seq<Collected>) {
    t.nextRun.Some? ==> forall j | 0 <= j < |log| && log[j].id == t.id :: log[j].occurrence < t.nextRun.value
  }

  ghost predicate Inv(s: State) {
    && DistinctIds(s.tasks)
    && Increasing(s.log)
    && (forall i | 0 <= i < |s.tasks| :: Ahead(s.tasks[i], s.log))
    && (forall i | 0 <= i < |s.log| :: s.log[i].occurrence <= s.log[i].now) // nothing is collected early
  }

  // ---------------------------------------------------------------- a check

  lemma {:induction false} CheckOneKeepsInv(s: State, now: Instant, i: nat)
    requires i < |s.tasks| && Inv(s)
    ensures Inv(CheckOne(s, now, i))
  {
    hide NextOccurrence;
    var t, s' := s.tasks[i], CheckOne(s, now, i);
    if Due(t, now) {
      assert Ahead(t, s.log);
      forall k | 0 <= k < |s'.tasks| ensures Ahead(s'.tasks[k], s'.log) {
        assert Ahead(s.tasks[k], s.log);
      }
    }
  }

  lemma {:induction false} CheckKeepsInv(s: State, now: Instant, i: nat)
    requires i <= |s.tasks| && Inv(s)
    ensures Inv(CheckFrom(s, now, i))
    decreases |s.tasks| - i
  {
    hide Inv, CheckOne;
    if i < |s.tasks| {
      CheckOneKeepsInv(s, now, i);
      CheckKeepsInv(CheckOne(s, now, i), now, i + 1);
    }
  }

  /** What the rest of the loop does to the tasks: earlier ones stay, later ones are advanced. */
  lemma {:induction false} CheckTasks(s: State, now: Instant, i: nat)
    requires i <= |s.tasks|
    ensures var r := CheckFrom(s, now, i);
      && |r.tasks| == |s.tasks|
      && (forall k | 0 <= k < i :: r.tasks[k] == s.tasks[k])
      && (forall k | i <= k < |s.tasks| :: r.tasks[k] == Advanced(s.tasks[k], now))
    decreases |s.tasks| - i
  {
    hide Advanced;
    if i < |s.tasks| {
      var s1 := CheckOne(s, now, i);
      AdvancedIfDue(s.tasks[i], now);
      assert CheckFrom(s, now, i) == CheckFrom(s1, now, i + 1) && s1.tasks == s.tasks[i := Advanced(s.tasks[i], now)];
      hide CheckFrom, CheckOne;
      CheckTasks(s1, now, i + 1);
      forall k | i <= k < |s.tasks| ensures CheckFrom(s, now, i).tasks[k] == Advanced(s.tasks[k], now) {
        if k > i { assert s1.tasks[k] == s.tasks[k]; }
      }
    }
  }

  lemma {:induction false} AdvancedIfDue(t: ScheduledTask, now: Instant)
    ensures !Due(t, now) ==> Advanced(t, now) == t
  {
  }

  /** The log only grows, by entries of listed tasks, one for every due task. */
  lemma {:induction false} CheckLog(s: State, now: Instant, i: nat)
    requires i <= |s.tasks|
    ensures s.log <= CheckFrom(s, now, i).log
    ensures forall j | |s.log| <= j < |CheckFrom(s, now, i).log| :: HasTask(s.tasks, CheckFrom(s, now, i).log[j].id)
    ensures forall k | i <= k < |s.tasks| && Due(s.tasks[k], now) ::
      Collected(s.tasks[k].id, s.tasks[k].nextRun.value, now) in CheckFrom(s, now, i).log
    decreases |s.tasks| - i
  {
    hide Advanced;
    if i < |s.tasks| {
      var s1, r := CheckOne(s, now, i), CheckFrom(s, now, i);
      CheckLog(s1, now, i + 1);
      forall k | i <= k < |s.tasks| && Due(s.tasks[k], now)
        ensures Collected(s.tasks[k].id, s.tasks[k].nextRun.value, now) in r.log
      {
        if k == i { assert r.log[|s.log|] == s1.log[|s.log|]; } else { assert s1.tasks[k] == s.tasks[k]; }
      }
      forall j | |s.log| <= j < |r.log| ensures HasTask(s.tasks, r.log[j].id) {
        if j >= |s1.log| {
          var k :| 0 <= k < |s1.tasks| && s1.tasks[k].id == r.log[j].id;
          assert s.tasks[k].id == r.log[j].id;
        } else {
          assert s.tasks[i].id == r.log[j].id;
        }
      }
    }
  }

  /** Every new entry of the log is a due task, for its occurrence and at this reading. */
  lemma {:induction false} NewAreDue(s: State, now: Instant, i: nat)
    requires i <= |s.tasks|
    ensures s.log <= CheckFrom(s, now, i).log
    ensures forall j | |s.log| <= j < |CheckFrom(s, now, i).log| :: IsDueEntry(s.tasks, i, now, CheckFrom(s, now, i).log[j])
    decreases |s.tasks| - i
  {
    if i < |s.tasks| {
      var s1, r := CheckOne(s, now, i), CheckFrom(s, now, i);
      NewAreDue(s1, now, i + 1);
      hide Advanced, CheckFrom;
      forall j | |s.log| <= j < |r.log| ensures IsDueEntry(s.tasks, i, now, r.log[j]) {
        if j >= |s1.log| {
          assert IsDueEntry(s1.tasks, i + 1, now, r.log[j]);
          var k :| i + 1 <= k < |s1.tasks| && s1.tasks[k].nextRun.Some? && s1.tasks[k].nextRun.value <= now
            && r.log[j] == Collected(s1.tasks[k].id, s1.tasks[k].nextRun.value, now);
          assert s.tasks[k] == s1.tasks[k];
        } else {
          assert r.log[j] == s1.log[j] == Collected(s.tasks[i].id, s.tasks[i].nextRun.value, now);
        }
      }
    }
  }

  ghost predicate IsDueEntry(tasks: seq<ScheduledTask>, from: nat, now: Instant, c: Collected) {
    exists k | from <= k < |tasks| ::
      tasks[k].nextRun.Some? && tasks[k].nextRun.value <= now && c == Collected(tasks[k].id, tasks[k].nextRun.value, now)
  }

  lemma {:induction false} DueAreNew(s: State, now: Instant, i: nat, k: nat)
    requires i <= k < |s.tasks| && s.tasks[k].nextRun.Some? && s.tasks[k].nextRun.value <= now
    ensures s.log <= CheckFrom(s, now, i).log
    ensures Collected(s.tasks[k].id, s.tasks[k].nextRun.value, now) in CheckFrom(s, now, i).log[|s.log|..]
    decreases k - i
  {
    var s1, r := CheckOne(s, now, i), CheckFrom(s, now, i);
    if i == k {
      NewAreDue(s1, now, i + 1);
      hide CheckFrom;
      assert r.log[|s.log|] == s1.log[|s.log|] && r.log[|s.log|] == r.log[|s.log|..][0];
    } else {
      assert s1.tasks[k] == s.tasks[k];
      DueAreNew(s1, now, i + 1, k);
      hide CheckFrom;
      assert s.log <= s1.log && r.log[|s.log|..] == r.log[|s.log|..|s1.log|] + r.log[|s1.log|..];
    }
  }

  /** A check sets each due task to its expression's next occurrence after the reading, and no other task. */
  lemma {:induction false} CheckAdvancesDue(s: State, now: Instant)
    ensures var s' := Step(s, Check(now, false));
      && |s'.tasks| == |s.tasks| && s'.disposed == s.disposed
      && forall i | 0 <= i < |s.tasks| ::
           s'.tasks[i] == if s.tasks[i].nextRun.Some? && s.tasks[i].nextRun.value <= now
                          then s.tasks[i].(nextRun := NextOccurrence(s.tasks[i].expression, now)) else s.tasks[i]
  {
    hide CheckFrom, NextOccurrence;
    CheckTasks(s, now, 0);
    CheckDisposed(s, now, 0);
  }

  lemma {:induction false} CheckDisposed(s: State, now: Instant, i: nat)
    requires i <= |s.tasks|
    ensures CheckFrom(s, now, i).disposed == s.disposed
    decreases |s.tasks| - i
  {
    if i < |s.tasks| { CheckDisposed(CheckOne(s, now, i), now, i + 1); }
  }

  /**
   * Each check collects every due task for its occurrence, nothing else, and leaves no task due at its own
   * clock reading.
   */
  lemma {:induction false} CheckIsComplete(s: State, now: Instant)
    ensures var s' := Step(s, Check(now, false));
      && (forall i | 0 <= i < |s'.tasks| :: !(s'.tasks[i].nextRun.Some? && s'.tasks[i].nextRun.value <= now))
      && s.log <= s'.log
      && (forall i | 0 <= i < |s.tasks| && s.tasks[i].nextRun.Some? && s.tasks[i].nextRun.value <= now ::
            Collected(s.tasks[i].id, s.tasks[i].nextRun.value, now) in s'.log[|s.log|..])
      && forall j | |s.log| <= j < |s'.log| :: IsDueEntry(s.tasks, 0, now, s'.log[j])
  {
    NewAreDue(s, now, 0);
    CheckTasks(s, now, 0);
    forall i | 0 <= i < |s.tasks| && s.tasks[i].nextRun.Some? && s.tasks[i].nextRun.value <= now
      ensures Collected(s.tasks[i].id, s.tasks[i].nextRun.value, now) in CheckFrom(s, now, 0).log[|s.log|..]
    {
      DueAreNew(s, now, 0, i);
    }
    hide CheckFrom, Advanced, IsDueEntry;
  }

  lemma {:induction false} RemoveTaskAt(ts: seq<ScheduledTask>, id: Guid) returns (at: nat)
    ensures at <= |ts| && (forall i | 0 <= i < at :: ts[i].id != id)
    ensures at < |ts| ==> ts[at].id == id && RemoveTask(ts, id) == ts[..at] + ts[at + 1..]
    ensures at == |ts| ==> RemoveTask(ts, id) == ts
    decreases |ts|
  {
    if ts == [] || ts[0].id == id { at := 0; }
    else {
      at := RemoveTaskAt(ts[1..], id);
      at := at + 1;
    }
  }

  lemma {:induction false} RemoveTaskFacts(ts: seq<ScheduledTask>, id: Guid)
    ensures forall i | 0 <= i < |RemoveTask(ts, id)| :: RemoveTask(ts, id)[i] in ts
    ensures DistinctIds(ts) ==> DistinctIds(RemoveTask(ts, id)) && !HasTask(RemoveTask(ts, id), id)
  {
    var at := RemoveTaskAt(ts, id);
    hide RemoveTask;
    var r := RemoveTask(ts, id);
    if at < |ts| {
      assert forall i | 0 <= i < |r| :: r[i] == ts[if i < at then i else i + 1];
    }
  }

  lemma {:induction false} StepKeepsInv(s: State, e: Event)
    requires Inv(s)
    requires e.Schedule? ==> !HasTask(s.tasks, e.id) && NotSince(s.log, 0, e.id)
    ensures Inv(Step(s, e))
  {
    match e {
      case Schedule(id, _, now) => assert forall i | 0 <= i < |s.tasks| :: Ahead(s.tasks[i], s.log);
      case End(id) =>
        RemoveTaskFacts(s.tasks, id);
        var r := RemoveTask(s.tasks, id);
        forall i | 0 <= i < |r| ensures Ahead(r[i], s.log) {
          var k :| 0 <= k < |s.tasks| && s.tasks[k] == r[i];
          assert Ahead(s.tasks[k], s.log);
        }
      case Check(now, sawDisposed) => if !sawDisposed { CheckKeepsInv(s, now, 0); }
      case Dispose =>
    }
  }

  /** A step other than its own scheduling neither lists nor collects an id that is not listed. */
  lemma {:induction false} StepLeavesAbsent(s: State, e: Event, id: Guid)
    requires !HasTask(s.tasks, id) && !(e.Schedule? && e.id == id)
    ensures !HasTask(Step(s, e).tasks, id) && s.log <= Step(s, e).log && NotSince(Step(s, e).log, |s.log|, id)
  {
    match e {
      case Schedule(_, _, _) =>
      case End(other) => RemoveTaskFacts(s.tasks, other);
      case Check(now, sawDisposed) =>
        if !sawDisposed {
          hide CheckFrom, Advanced;
          CheckTasks(s, now, 0);
          CheckLog(s, now, 0);
        }
      case Dispose =>
    }
  }

  /** Before it is scheduled an id is neither listed nor collected. */
  lemma {:induction false} UnscheduledIsAbsent(events: seq<Event>, id: Guid)
    requires !Scheduled(events, id)
    ensures !HasTask(Run(events).tasks, id) && NotSince(Run(events).log, 0, id)
  {
    if events != [] {
      var init := events[..|events| - 1];
      assert forall i | 0 <= i < |init| :: init[i] == events[i];
      UnscheduledIsAbsent(init, id);
      StepLeavesAbsent(Run(init), events[|events| - 1], id);
    }
  }

  lemma {:induction false} FreshPrefix(events: seq<Event>)
    requires events != [] && FreshIds(events)
    ensures var init, e := events[..|events| - 1], events[|events| - 1];
      FreshIds(init) && (e.Schedule? ==> !Scheduled(init, e.id))
  {
    var init := events[..|events| - 1];
    assert forall i | 0 <= i < |init| :: init[i] == events[i];
  }

  /**
   * Over any interleaving of schedules, ends, timer callbacks and disposal, with any clock readings,
   * even backwards: for each task the collected occurrences strictly increase, so none is collected
   * twice, and none is collected before its time.
   */
  lemma {:induction false} OccurrencesIncrease(events: seq<Event>)
    requires FreshIds(events)
    ensures Inv(Run(events))
  {
    hide Inv, Step;
    if events != [] {
      var init, e := events[..|events| - 1], events[|events| - 1];
      FreshPrefix(events);
      OccurrencesIncrease(init);
      if e.Schedule? { UnscheduledIsAbsent(init, e.id); }
      StepKeepsInv(Run(init), e);
    } else {
      assert Inv(STARTED) by { EmptyInv(); }
    }
  }

  lemma {:induction false} EmptyInv()
    ensures Inv(STARTED)
  {
  }

  /** A task that was ended is never collected by a later check, whatever happens afterwards. */
  lemma {:induction false} EndedIsNeverCollected(before: seq<Event>, id: Guid, after: seq<Event>)
    requires FreshIds(before + [End(id)] + after) && Scheduled(before, id)
    ensures !HasTask(Run(before + [End(id)] + after).tasks, id)
    ensures |Run(before).log| <= |Run(before + [End(id)] + after).log|
    ensures NotSince(Run(before + [End(id)] + after).log, |Run(before).log|, id)
    decreases |after|
  {
    hide Inv, Step, DistinctIds, FreshIds;
    var all := before + [End(id)] + after;
    var init, e := all[..|all| - 1], all[|all| - 1];
    FreshPrefix(all);
    if after == [] {
      assert init == before && e == End(id);
      OccurrencesIncrease(before);
      EndRemoves(Run(before), id);
    } else {
      assert init == before + [End(id)] + after[..|after| - 1];
      EndedIsNeverCollected(before, id, after[..|after| - 1]);
      ScheduledStays(before, [End(id)] + after[..|after| - 1], id);
      assert before + ([End(id)] + after[..|after| - 1]) == init;
      StepLeavesAbsent(Run(init), e, id);
    }
  }

  lemma {:induction false} ScheduledStays(before: seq<Event>, more: seq<Event>, id: Guid)
    requires Scheduled(before, id)
    ensures Scheduled(before + more, id)
  {
    var k :| 0 <= k < |before| && before[k].Schedule? && before[k].id == id;
    assert (before + more)[k] == before[k];
  }

  lemma {:induction false} EndRemoves(s: State, id: Guid)
    requires Inv(s)
    ensures !HasTask(Step(s, End(id)).tasks, id) && Step(s, End(id)).log == s.log
  {
    RemoveTaskFacts(s.tasks, id);
  }

  // ---------------------------------------------------------------- when a task runs next

  /** The clock reading of the last collection of a task, if there was one. */
  function LastReading(log: seq<Collected>, id: Guid): Option<Instant> {
    if log == [] then None
    else if log[|log| - 1].id == id then Some(log[|log| - 1].now) else LastReading(log[..|log| - 1], id)
  }

  lemma {:induction false} LastReadingFrom(log: seq<Collected>, n: nat, id: Guid, now: Instant)
    requires n <= |log| && forall j | n <= j < |log| :: log[j].now == now
    ensures LastReading(log, id) == if exists j | n <= j < |log| :: log[j].id == id then Some(now) else LastReading(log[..n], id)
    decreases |log|
  {
    if |log| > n {
      var init := log[..|log| - 1];
      LastReadingFrom(init, n, id, now);
      assert init[..n] == log[..n];
      if j :| n <= j < |log| && log[j].id == id { if j < |init| { assert init[j].id == id; } }
      if j :| n <= j < |init| && init[j].id == id { assert log[j].id == id; }
    } else {
      assert log[..n] == log;
    }
  }

  /** How and when a task was scheduled. */
  function ScheduledAs(events: seq<Event>, id: Guid): Option<(Cron, Instant)> {
    if events == [] then None
    else
      var e := events[|events| - 1];
      if e.Schedule? && e.id == id then Some((e.expression, e.now)) else ScheduledAs(events[..|events| - 1], id)
  }

  /** The task has the expression it was scheduled with, and its next run is that expression's next occurrence after `reading`. */
  predicate RunsNext(t: ScheduledTask, scheduled: Option<(Cron, Instant)>, last: Option<Instant>) {
    scheduled.Some? && t.expression == scheduled.value.0 && t.nextRun == NextOccurrence(scheduled.value.0, if last.Some? then last.value else scheduled.value.1)
  }

  /**
   * Over every run, a listed task runs next at the next occurrence of its expression after the clock
   * reading of its last collection, or of its scheduling when it was never collected.
   */
  lemma {:induction false} NextRunFollowsLastReading(events: seq<Event>)
    requires FreshIds(events)
    ensures forall i | 0 <= i < |Run(events).tasks| ::
      var t := Run(events).tasks[i]; RunsNext(t, ScheduledAs(events, t.id), LastReading(Run(events).log, t.id))
  {
    if events != [] {
      var init, e := events[..|events| - 1], events[|events| - 1];
      var s := Run(init);
      FreshPrefix(events);
      NextRunFollowsLastReading(init);
      OccurrencesIncrease(init);
      if e.Schedule? { UnscheduledIsAbsent(init, e.id); }
      hide Inv, FreshIds, RunsNext;
      forall i | 0 <= i < |Step(s, e).tasks|
        ensures var t := Step(s, e).tasks[i]; RunsNext(t, ScheduledAs(events, t.id), LastReading(Step(s, e).log, t.id))
      {
        NextRunStep(init, s, e, i);
      }
    }
  }

  lemma {:induction false} NextRunStep(init: seq<Event>, s: State, e: Event, i: nat)
    requires i < |Step(s, e).tasks| && DistinctIds(s.tasks)
    requires forall i | 0 <= i < |s.tasks| :: RunsNext(s.tasks[i], ScheduledAs(init, s.tasks[i].id), LastReading(s.log, s.tasks[i].id))
    requires e.Schedule? ==> !HasTask(s.tasks, e.id) && NotSince(s.log, 0, e.id)
    ensures var t := Step(s, e).tasks[i]; RunsNext(t, ScheduledAs(init + [e], t.id), LastReading(Step(s, e).log, t.id))
  {
    assert (init + [e])[..|init + [e]| - 1] == init;
    match e {
      case Schedule(id, _, _) =>
        NeverRead(s.log, id);
        assert forall k | 0 <= k < |s.tasks| :: s.tasks[k].id != id;
      case End(id) =>
        RemoveTaskFacts(s.tasks, id);
        var r := RemoveTask(s.tasks, id);
        var k :| 0 <= k < |s.tasks| && s.tasks[k] == r[i];
      case Check(now, sawDisposed) =>
        if !sawDisposed {
          CheckAdvancesDue(s, now);
          CheckedRunsNext(init, s, now, i);
        }
      case Dispose =>
    }
  }

  lemma {:induction false} NeverRead(log: seq<Collected>, id: Guid)
    requires NotSince(log, 0, id)
    ensures LastReading(log, id) == None
  {
    if log != [] { NeverRead(log[..|log| - 1], id); }
  }

  lemma {:induction false} CheckedRunsNext(init: seq<Event>, s: State, now: Instant, i: nat)
    requires i < |s.tasks| && DistinctIds(s.tasks)
    requires RunsNext(s.tasks[i], ScheduledAs(init, s.tasks[i].id), LastReading(s.log, s.tasks[i].id))
    ensures var s' := Step(s, Check(now, false));
      |s'.tasks| == |s.tasks| && s'.tasks[i].id == s.tasks[i].id
      && RunsNext(s'.tasks[i], ScheduledAs(init, s.tasks[i].id), LastReading(s'.log, s.tasks[i].id))
  {
    var s', t := Step(s, Check(now, false)), s.tasks[i];
    CheckAdvancesDue(s, now);
    CheckIsComplete(s, now);
    hide Step, NextOccurrence;
    forall j | |s.log| <= j < |s'.log| ensures s'.log[j].now == now {
      assert IsDueEntry(s.tasks, 0, now, s'.log[j]);
    }
    LastReadingFrom(s'.log, |s.log|, t.id, now);
    assert s'.log[..|s.log|] == s.log;
    if t.nextRun.Some? && t.nextRun.value <= now {
      var c := Collected(t.id, t.nextRun.value, now);
      var j :| 0 <= j < |s'.log[|s.log|..]| && s'.log[|s.log|..][j] == c;
      assert s'.log[|s.log| + j].id == t.id;
    } else {
      forall j | |s.log| <= j < |s'.log| ensures s'.log[j].id != t.id {
        assert IsDueEntry(s.tasks, 0, now, s'.log[j]);
      }
    }
  }

  /** A task that has a next run is collected for it by the first check at or after that instant. */
  lemma {:induction false} RecurringRunsAgain(events: seq<Event>, i: nat, now: Instant)
    requires FreshIds(events) && i < |Run(events).tasks|
    requires var t := Run(events).tasks[i]; t.nextRun.Some? && t.nextRun.value <= now
    ensures var s, s' := Run(events), Run(events + [Check(now, false)]);
      var t := s.tasks[i];
      && s.log <= s'.log && Collected(t.id, t.nextRun.value, now) in s'.log[|s.log|..]
      && i < |s'.tasks| && s'.tasks[i] == t.(nextRun := NextOccurrence(t.expression, now))
  {
    assert (events + [Check(now, false)])[..|events + [Check(now, false)]| - 1] == events;
    CheckIsComplete(Run(events), now);
    CheckAdvancesDue(Run(events), now);
  }

  // ---------------------------------------------------------------- the scheduler object

  predicate IsFirstWith(ts: seq<ScheduledTask>, id: Guid, at: nat) {
    at < |ts| && ts[at].id == id && forall k | 0 <= k < at :: ts[k].id != id
  }

  class Scheduler {
    var tasks: seq<ScheduledTask>
    var disposed: bool
    var log: seq<Collected>

    constructor ()
      ensures View() == STARTED
    {
      tasks, disposed, log := [], false, [];
    }

    function View(): State
      reads this
    {
      State(tasks, disposed, log)
    }

    /** ScheduleAsync; false when it throws because there is no next occurrence to trace, with the task already listed. */
    method ScheduleAsync(id: Guid, expression: Cron, utcNow: Instant) returns (returned: bool)
      modifies this`tasks
      ensures View() == Step(old(View()), Schedule(id, expression, utcNow))
      ensures tasks == old(tasks) + [ScheduledTask(id, expression, NextOccurrence(expression, utcNow))]
      ensures returned <==> NextOccurrence(expression, utcNow).Some?
    {
      var task := ScheduledTask(id, expression, NextOccurrence(expression, utcNow));
      tasks := tasks + [task];
      returned := task.nextRun.Some?;
    }

    /** End: remove the first task of that id. */
    method End(taskId: Guid) returns (found: bool)
      modifies this`tasks
      ensures View() == Step(old(View()), Event.End(taskId))
      ensures found <==> HasTask(old(tasks), taskId)
      ensures !found ==> tasks == old(tasks)
      ensures found ==> exists at | 0 <= at < |old(tasks)| :: IsFirstWith(old(tasks), taskId, at) && tasks == old(tasks)[..at] + old(tasks)[at + 1..]
    {
      ghost var at := RemoveTaskAt(tasks, taskId);
      hide RemoveTask;
      var i := 0;
      while i < |tasks| && tasks[i].id != taskId
        invariant i <= at && tasks == old(tasks)
      {
        i := i + 1;
      }
      found := i < |tasks|;
      if found {
        assert IsFirstWith(old(tasks), taskId, i);
        tasks := tasks[..i] + tasks[i + 1..];
      }
    }

    /** CheckScheduledTasks up to the end of the lock: collect what is due and advance it. */
    method CheckScheduledTasks(now: Instant) returns (tasksToRun: seq<Collected>)
      modifies this`tasks, this`log
      ensures View() == Step(old(View()), Check(now, disposed))
      ensures log == old(log) + tasksToRun
      ensures |tasks| == |old(tasks)| && forall i | 0 <= i < |tasks| ::
        tasks[i] == if !disposed && old(tasks)[i].nextRun.Some? && old(tasks)[i].nextRun.value <= now
                    then old(tasks)[i].(nextRun := NextOccurrence(old(tasks)[i].expression, now)) else old(tasks)[i]
    {
      tasksToRun := [];
      if disposed { return; }
      ghost var end := CheckFrom(View(), now, 0);
      CheckAdvancesDue(View(), now);
      hide NextOccurrence;
      var i := 0;
      while i < |tasks|
        invariant i <= |tasks| && !disposed && log == old(log) + tasksToRun
        invariant CheckFrom(View(), now, i) == end
      {
        var t := tasks[i];
        if t.nextRun.Some? && t.nextRun.value <= now {
          var taken := Collected(t.id, t.nextRun.value, now);
          tasksToRun := tasksToRun + [taken];
          log := log + [taken];
          tasks := tasks[i := t.(nextRun := NextOccurrence(t.expression, now))];
        }
        i := i + 1;
      }
    }

    method Dispose()
      modifies this
      ensures View() == if old(disposed) then old(View()) else Step(old(View()), Event.Dispose)
    {
      if disposed { return; }
      disposed := true;
      tasks := [];
    }
  }
}
