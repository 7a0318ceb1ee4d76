/**
 * MonoMachine.MutateUntil: one semaphore and one stopwatch shared by every operation on a machine.
 * The state machine interleaves any number of operations; the class runs one of them.
 */
module MonoMachine {

  type Tid = nat

  const POLL_DELAY := 250

  /** How an operation ended: only the first of these releases the semaphore. */
  datatype Outcome = Success | TimedOut | InvokeThrew | PredicateThrew

  /**
   * Where an operation stands.  `began` is the clock reading of its own Stopwatch.Restart, `polls` the
   * number of predicate evaluations so far.  `spent` is the time the result tells, `took` the time from
   * `began` to the reading that ended the poll loop.
   */
  datatype Pc =
    | Waiting(timeout: int)
    | Invoking(timeout: int)
    | Polling(timeout: int, began: int, polls: nat)              // about to evaluate the predicate
    | Judged(timeout: int, began: int, polls: nat)               // it was false; about to read Elapsed
    | Sleeping(timeout: int, began: int, polls: nat, until: int) // in Task.Delay
    | Passed(timeout: int, began: int, polls: nat)               // it was true; about to stop the stopwatch
    | Releasing(timeout: int, polls: nat, spent: int, took: int) // about to release the semaphore
    | Finished(timeout: int, outcome: Outcome, polls: nat, spent: int, took: int)

  /** `answers` is what the predicate of each operation answered, in order. */
  datatype State = State(free: bool, clock: int, startedAt: int, ops: map<Tid, Pc>, answers: map<Tid, seq<bool>>)

  datatype Event =
    | Arrive(t: Tid, timeout: int)
    | Acquire(t: Tid)
    | Invoked(t: Tid, threw: bool)
    | Evaluate(t: Tid, answer: bool)
    | PredicateThrows(t: Tid)
    | ReadElapsed(t: Tid)
    | Wake(t: Tid)
    | StopWatch(t: Tid)
    | Release(t: Tid)
    | Tick(ms: nat)

  function Init(now: int): State { State(true, now, now, map[], map[]) }

  function Elapsed(s: State): int { s.clock - s.startedAt }

  function Answers(s: State, t: Tid): seq<bool> {
    if t in s.answers then s.answers[t] else []
  }

  /** One step; an event that does not fit the operation's place does not happen. */
  function Step(s: State, e: Event): State {
    if e.Tick? then s.(clock := s.clock + e.ms)
    else if e.Arrive? then if e.t in s.ops then s else s.(ops := s.ops[e.t := Waiting(e.timeout)])
    else if e.t !in s.ops then s
    else
      match (e, s.ops[e.t])
      case (Acquire(t), Waiting(timeout)) => if s.free then s.(free := false, ops := s.ops[t := Invoking(timeout)]) else s
      case (Invoked(t, threw), Invoking(timeout)) =>
        if threw then s.(ops := s.ops[t := Finished(timeout, InvokeThrew, 0, 0, 0)])
        else s.(startedAt := s.clock, ops := s.ops[t := Polling(timeout, s.clock, 0)])
      case (Evaluate(t, answer), Polling(timeout, began, polls)) =>
        s.(ops := s.ops[t := if answer then Passed(timeout, began, polls + 1) else Judged(timeout, began, polls + 1)],
           answers := s.answers[t := Answers(s, t) + [answer]])
      case (PredicateThrows(t), Polling(timeout, began, polls)) =>
        s.(ops := s.ops[t := Finished(timeout, PredicateThrew, polls + 1, 0, s.clock - began)])
      case (ReadElapsed(t), Judged(timeout, began, polls)) =>
        s.(ops := s.ops[t :=
          if Elapsed(s) <= timeout then Sleeping(timeout, began, polls, s.clock + POLL_DELAY)
          else Finished(timeout, TimedOut, polls, timeout, s.clock - began)])
      case (Wake(t), Sleeping(timeout, began, polls, until)) =>
        if until <= s.clock then s.(ops := s.ops[t := Polling(timeout, began, polls)]) else s
      case (StopWatch(t), Passed(timeout, began, polls)) => s.(ops := s.ops[t := Releasing(timeout, polls, Elapsed(s), s.clock - began)])
      case (Release(t), Releasing(timeout, polls, spent, took)) =>
        s.(free := true, ops := s.ops[t := Finished(timeout, Success, polls, spent, took)])
      case _ => s
  }

  function Run(now: int, events: seq<Event>): State {
    if events == [] then Init(now) else Step(Run(now, events[..|events| - 1]), events[|events| - 1])
  }

  /** Between acquiring the semaphore and returning. */
  predicate Inside(pc: Pc) { !pc.Waiting? && !pc.Finished? }

  predicate Failed(pc: Pc) { pc.Finished? && pc.outcome != Success }

  /** In the poll loop: the operation relies on the stopwatch. */
  predicate UsesStopwatch(pc: Pc) { pc.Polling? || pc.Judged? || pc.Sleeping? || pc.Passed? }

  /** What holds of one operation whatever the others do. */
  predicate OpInv(pc: Pc, clock: int) {
    match pc
    case Polling(timeout, began, polls) => began + POLL_DELAY * polls <= clock && (polls > 0 ==> POLL_DELAY * (polls - 1) <= timeout)
    case Judged(timeout, began, polls) => began + POLL_DELAY * (polls - 1) <= clock && PollBound(polls, timeout)
    case Sleeping(timeout, began, polls, until) =>
      polls > 0 && began + POLL_DELAY * polls <= until && POLL_DELAY * (polls - 1) <= timeout
    case Passed(timeout, began, polls) => began + POLL_DELAY * (polls - 1) <= clock && PollBound(polls, timeout)
    case Releasing(timeout, polls, spent, took) => PollBound(polls, timeout) && POLL_DELAY * (polls - 1) <= spent == took
    case Finished(timeout, outcome, polls, spent, took) =>
      && (outcome.InvokeThrew? || PollBound(polls, timeout))
      && (outcome.Success? ==> POLL_DELAY * (polls - 1) <= spent == took)
      && (outcome.TimedOut? ==> spent == timeout < took)
    case _ => true
  }

  /** At most timeout / 250 ms plus two evaluations. */
  predicate PollBound(polls: nat, timeout: int) {
    1 <= polls && (polls == 1 || POLL_DELAY * (polls - 2) <= timeout)
  }

  /** n answers, all of them false. */
  predicate AllFalse(answers: seq<bool>, n: int) {
    |answers| == n && forall i | 0 <= i < n :: !answers[i]
  }

  /** n answers, of which the last and only the last is true. */
  predicate TrueAtLast(answers: seq<bool>, n: int) {
    n >= 1 && |answers| == n && forall i | 0 <= i < n :: answers[i] <==> i == n - 1
  }

  /** What the answers of an operation say of where it stands. */
  predicate AnswersInv(pc: Pc, answers: seq<bool>) {
    match pc
    case Waiting(_) => answers == []
    case Invoking(_) => answers == []
    case Polling(_, _, polls) => AllFalse(answers, polls)
    case Judged(_, _, polls) => AllFalse(answers, polls)
    case Sleeping(_, _, polls, _) => AllFalse(answers, polls)
    case Passed(_, _, polls) => TrueAtLast(answers, polls)
    case Releasing(_, polls, _, _) => TrueAtLast(answers, polls)
    case Finished(_, outcome, polls, _, _) =>
      match outcome
      case Success => TrueAtLast(answers, polls)
      case TimedOut => AllFalse(answers, polls)
      case PredicateThrew => AllFalse(answers, polls - 1)
      case InvokeThrew => answers == []
  }

  /** The operation keeps the semaphore: it is inside, or it failed and never released. */
  predicate Keeps(pc: Pc) { Inside(pc) || Failed(pc) }

  ghost predicate LockInv(s: State) {
    && (forall t, t' | t in s.ops && t' in s.ops && Keeps(s.ops[t]) && Keeps(s.ops[t']) :: t == t')
    && (s.free ==> forall t | t in s.ops :: !Keeps(s.ops[t]))
    && (!s.free ==> exists t | t in s.ops :: Keeps(s.ops[t]))
  }

  /** The stopwatch a poll loop reads was started by itself and not restarted since. */
  ghost predicate StopwatchInv(s: State) {
    forall t | t in s.ops && UsesStopwatch(s.ops[t]) :: s.ops[t].began == s.startedAt
  }

  ghost predicate Inv(s: State) {
    && LockInv(s) && StopwatchInv(s) && (forall t | t in s.ops :: OpInv(s.ops[t], s.clock) && AnswersInv(s.ops[t], Answers(s, t)))
    && s.answers.Keys <= s.ops.Keys
  }

  lemma {:induction false} StepKeepsAnswers(s: State, e: Event, t: Tid)
    requires s.answers.Keys <= s.ops.Keys && (t in s.ops ==> AnswersInv(s.ops[t], Answers(s, t))) && t in Step(s, e).ops
    ensures Step(s, e).answers.Keys <= Step(s, e).ops.Keys && AnswersInv(Step(s, e).ops[t], Answers(Step(s, e), t))
  {
  }

  lemma {:induction false} StepKeepsOpInv(s: State, e: Event, t: Tid)
    requires t in s.ops && OpInv(s.ops[t], s.clock)
    requires UsesStopwatch(s.ops[t]) ==> s.ops[t].began == s.startedAt
    ensures t in Step(s, e).ops && OpInv(Step(s, e).ops[t], Step(s, e).clock)
  {
    if e.Tick? || e.t != t {
      StepEffect(s, e);
      hide Step;
      OpInvLater(s.ops[t], s.clock, Step(s, e).clock);
    } else {
      OwnStepKeepsOpInv(s, e);
      hide Step, OpInv;
    }
  }

  /** Nothing becomes untrue of an operation by waiting. */
  lemma {:induction false} OpInvLater(pc: Pc, clock: int, later: int)
    requires OpInv(pc, clock) && clock <= later
    ensures OpInv(pc, later)
  {
  }

  lemma {:induction false} OwnStepKeepsOpInv(s: State, e: Event)
    requires !e.Tick? && e.t in s.ops && OpInv(s.ops[e.t], s.clock)
    requires UsesStopwatch(s.ops[e.t]) ==> s.ops[e.t].began == s.startedAt
    ensures e.t in Step(s, e).ops && OpInv(Step(s, e).ops[e.t], Step(s, e).clock)
  {
  }

  /** What a step does to the operation it concerns, and to the shared lock and stopwatch. */
  lemma {:induction false} StepEffect(s: State, e: Event)
    ensures var s' := Step(s, e);
      && (forall t | t in s.ops && (e.Tick? || t != e.t) :: t in s'.ops && s'.ops[t] == s.ops[t])
      && (forall t | t in s'.ops && t !in s.ops :: s'.ops[t].Waiting?)
      && s'.clock >= s.clock
      && (s'.startedAt != s.startedAt ==> e.Invoked? && e.t in s.ops && s.ops[e.t].Invoking?)
  {
  }

  /** The ways an operation moves. */
  lemma {:induction false} OwnEffect(s: State, e: Event)
    requires !e.Tick? && e.t in s.ops && (Keeps(s.ops[e.t]) ==> !s.free)
    ensures var s', before := Step(s, e), s.ops[e.t];
      && e.t in s'.ops && s'.ops == s.ops[e.t := s'.ops[e.t]]
      && var after := s'.ops[e.t];
        && (Keeps(after) <==> (Keeps(before) && !(s'.free && !s.free)) || (before.Waiting? && s.free && !s'.free))
        && (s'.free && !s.free ==> Keeps(before))
        && (!s'.free && s.free ==> before.Waiting? && Keeps(after))
        && (UsesStopwatch(after) ==> after.began == (if UsesStopwatch(before) then before.began else s'.startedAt))
        && (s'.startedAt != s.startedAt || (UsesStopwatch(after) && !UsesStopwatch(before)) ==> Inside(before) && !UsesStopwatch(before))
  {
  }

  lemma {:induction false} StepKeepsLock(s: State, e: Event)
    requires LockInv(s)
    ensures LockInv(Step(s, e))
  {
    var s' := Step(s, e);
    StepEffect(s, e);
    if !e.Tick? && e.t in s.ops {
      OwnEffect(s, e);
      hide Step;
      if !s'.free {
        if s.free { assert Keeps(s'.ops[e.t]); }
        else {
          var t :| t in s.ops && Keeps(s.ops[t]);
          assert t in s'.ops && Keeps(s'.ops[t]);
        }
      }
    } else {
      assert s'.free == s.free;
      hide Step;
      if !s.free {
        var t :| t in s.ops && Keeps(s.ops[t]);
        assert t in s'.ops && Keeps(s'.ops[t]);
      }
    }
  }

  lemma {:induction false} StepKeepsStopwatch(s: State, e: Event)
    requires LockInv(s) && StopwatchInv(s)
    ensures StopwatchInv(Step(s, e))
  {
    var s' := Step(s, e);
    StepEffect(s, e);
    if !e.Tick? && e.t in s.ops { OwnEffect(s, e); }
    else { assert s'.startedAt == s.startedAt; }
    hide Step;
    forall t | t in s'.ops && UsesStopwatch(s'.ops[t]) ensures s'.ops[t].began == s'.startedAt {
      if e.Tick? || t != e.t {
        assert t in s.ops && s'.ops[t] == s.ops[t] && Keeps(s.ops[t]);
      }
    }
  }

  lemma {:induction false} StepKeepsInv(s: State, e: Event)
    requires Inv(s)
    ensures Inv(Step(s, e))
  {
    StepKeepsLock(s, e);
    StepKeepsStopwatch(s, e);
    StepEffect(s, e);
    var s' := Step(s, e);
    assert s'.answers.Keys <= s'.ops.Keys;
    forall t | t in s'.ops ensures OpInv(s'.ops[t], s'.clock) && AnswersInv(s'.ops[t], Answers(s', t)) {
      if t in s.ops { StepKeepsOpInv(s, e, t); }
      StepKeepsAnswers(s, e, t);
    }
    hide Step;
  }

  lemma {:induction false} RunKeepsInv(now: int, events: seq<Event>)
    ensures Inv(Run(now, events))
  {
    if events != [] {
      RunKeepsInv(now, events[..|events| - 1]);
      StepKeepsInv(Run(now, events[..|events| - 1]), events[|events| - 1]);
    } else {
      assert Run(now, events) == Init(now);
    }
  }

  /**
   * One operation at a time, over every interleaving: at most one is between acquire and return; the lock
   * is free exactly when nobody is inside and every finished operation succeeded; a running poll loop
   * reads the stopwatch it started itself; an operation succeeds after answers of which the last and only
   * the last was true, telling the time that took, and times out after false ones alone and more than its
   * timeout; polls are bounded.
   */
  lemma {:induction false} OneAtATime(now: int, events: seq<Event>)
    ensures var s := Run(now, events);
      && (forall t, t' | t in s.ops && t' in s.ops && Inside(s.ops[t]) && Inside(s.ops[t']) :: t == t')
      && (s.free <==> forall t | t in s.ops :: !Inside(s.ops[t]) && !Failed(s.ops[t]))
      && (forall t | t in s.ops && UsesStopwatch(s.ops[t]) :: s.ops[t].began == s.startedAt)
      && (forall t | t in s.ops && s.ops[t].Finished? && s.ops[t].outcome.Success? :: TrueAtLast(Answers(s, t), s.ops[t].polls))
      && (forall t | t in s.ops && s.ops[t].Finished? && s.ops[t].outcome.TimedOut? :: AllFalse(Answers(s, t), s.ops[t].polls))
      && (forall t | t in s.ops && s.ops[t].Finished? && !s.ops[t].outcome.InvokeThrew? ::
            s.ops[t].polls == 1 || 250 * (s.ops[t].polls - 2) <= s.ops[t].timeout)
      && (forall t | t in s.ops && s.ops[t].Finished? && s.ops[t].outcome.Success? :: s.ops[t].spent == s.ops[t].took)
      && (forall t | t in s.ops && s.ops[t].Finished? && s.ops[t].outcome.TimedOut? :: s.ops[t].spent == s.ops[t].timeout < s.ops[t].took)
  {
    RunKeepsInv(now, events);
    hide Run;
    var s := Run(now, events);
    assert forall t | t in s.ops :: OpInv(s.ops[t], s.clock) && AnswersInv(s.ops[t], Answers(s, t));
  }

  /** The state after some further events. */
  function Continue(s: State, events: seq<Event>): State
    decreases |events|
  {
    if events == [] then s else Continue(Step(s, events[0]), events[1..])
  }

  /**
   * No operation is stuck except behind the lock or in its delay: whoever finds the lock free gets it, a
   * true answer leads to success and frees the lock, a false one to another delay as long as no more than
   * the timeout has passed, and to a timeout otherwise.
   */
  lemma {:induction false} EachPlaceMoves(now: int, events: seq<Event>, t: Tid)
    requires t in Run(now, events).ops
    ensures Moves(Run(now, events), t)
  {
    RunKeepsInv(now, events);
    hide Run, Moves;
    MovesFrom(Run(now, events), t);
  }

  predicate Moves(s: State, t: Tid)
    requires t in s.ops
  {
    match s.ops[t]
    case Waiting(timeout) => s.free ==> After(s, Acquire(t), t, Invoking(timeout)) && !Step(s, Acquire(t)).free
    case Invoking(timeout) => After(s, Invoked(t, false), t, Polling(timeout, s.clock, 0)) && After(s, Invoked(t, true), t, Finished(timeout, InvokeThrew, 0, 0, 0))
    case Polling(timeout, began, polls) => After(s, Evaluate(t, false), t, Judged(timeout, began, polls + 1)) && SucceedsOnTrue(s, t)
    case Judged(timeout, began, polls) =>
      After(s, ReadElapsed(t), t, if s.clock - began <= timeout then Sleeping(timeout, began, polls, s.clock + 250)
                                  else Finished(timeout, TimedOut, polls, timeout, s.clock - began))
    case Sleeping(timeout, began, polls, until) => until <= s.clock ==> After(s, Wake(t), t, Polling(timeout, began, polls))
    case Passed(timeout, began, polls) => After(s, StopWatch(t), t, Releasing(timeout, polls, s.clock - began, s.clock - began))
    case Releasing(timeout, polls, spent, took) => After(s, Release(t), t, Finished(timeout, Success, polls, spent, took)) && Step(s, Release(t)).free
    case Finished(_, _, _, _, _) => true
  }

  /** The event takes the operation there. */
  predicate After(s: State, e: Event, t: Tid, pc: Pc) {
    t in Step(s, e).ops && Step(s, e).ops[t] == pc
  }

  /** A true answer, and the operation's own next steps, end it with success at this reading and free the lock. */
  predicate SucceedsOnTrue(s: State, t: Tid)
    requires t in s.ops && s.ops[t].Polling?
  {
    var s', took := Continue(s, [Evaluate(t, true), StopWatch(t), Release(t)]), s.clock - s.ops[t].began;
    t in s'.ops && s'.ops[t] == Finished(s.ops[t].timeout, Success, s.ops[t].polls + 1, took, took) && s'.free
  }

  lemma {:induction false} MovesFrom(s: State, t: Tid)
    requires t in s.ops && (UsesStopwatch(s.ops[t]) ==> s.ops[t].began == s.startedAt)
    ensures Moves(s, t)
  {
    if s.ops[t].Polling? { TrueSucceeds(s, t); }
    hide SucceedsOnTrue;
  }

  lemma {:induction false} TrueSucceeds(s: State, t: Tid)
    requires t in s.ops && s.ops[t].Polling? && s.ops[t].began == s.startedAt
    ensures SucceedsOnTrue(s, t)
  {
    var s1 := Step(s, Evaluate(t, true));
    var s2 := Step(s1, StopWatch(t));
    var s3 := Step(s2, Release(t));
    var es := [Evaluate(t, true), StopWatch(t), Release(t)];
    assert es[1..] == [StopWatch(t), Release(t)] && es[1..][1..] == [Release(t)] && es[1..][1..][1..] == [];
    assert Continue(s3, []) == s3 && Continue(s2, [Release(t)]) == Continue(s3, [Release(t)][1..]);
    assert Continue(s1, es[1..]) == Continue(s2, es[1..][1..]);
  }

  /**
   * A failed operation never gives the semaphore back: whatever happens afterwards, every operation
   * that was waiting, or arrives later, waits forever.
   */
  lemma {:induction false} FailureBlocksForever(s: State, events: seq<Event>, failed: Tid)
    requires Inv(s) && failed in s.ops && Failed(s.ops[failed])
    ensures var s' := Continue(s, events);
      && !s'.free && failed in s'.ops && s'.ops[failed] == s.ops[failed]
      && forall t | t in s'.ops :: if t in s.ops then s'.ops[t] == s.ops[t] else s'.ops[t].Waiting?
    decreases |events|
  {
    if events != [] {
      StepKeepsInv(s, events[0]);
      StepWhileFailed(s, events[0], failed);
      hide Step, Inv;
      FailureBlocksForever(Step(s, events[0]), events[1..], failed);
    }
  }

  /** Behind a failed operation a step changes nobody, and newcomers wait. */
  lemma {:induction false} StepWhileFailed(s: State, e: Event, failed: Tid)
    requires LockInv(s) && failed in s.ops && Failed(s.ops[failed])
    ensures var s1 := Step(s, e);
      && !s1.free && (forall t | t in s.ops :: t in s1.ops && s1.ops[t] == s.ops[t])
      && forall t | t in s1.ops && t !in s.ops :: s1.ops[t].Waiting?
  {
    StepEffect(s, e);
    assert Keeps(s.ops[failed]) && !s.free;
    if !e.Tick? && e.t in s.ops {
      assert Keeps(s.ops[e.t]) ==> e.t == failed;
    }
  }

  // ---------------------------------------------------------------- one operation, as the method runs it

  datatype Answer = True | False | Throws

  datatype MutationResult = MutationResult(timeSpent: int, timedOut: bool, threw: bool)

  /** The operation polls k times without an answer or a timeout. */
  predicate Polls(answers: seq<Answer>, elapsed: seq<int>, timeout: int, k: nat)
    requires k <= |answers| && k <= |elapsed|
  {
    forall i | 0 <= i < k :: answers[i] == False && elapsed[i] <= timeout
  }

  class Machine {
    var free: bool

    constructor ()
      ensures free
    {
      free := true;
    }

    /**
     * MutateUntil for an operation that gets the semaphore.  answers[i] is the predicate's i-th answer and
     * elapsed[i] the stopwatch right after it, at least 250 ms later each time.
     */
    method MutateUntil(invokeThrows: bool, answers: seq<Answer>, elapsed: seq<int>, timeout: int)
      returns (result: MutationResult, polls: nat)
      requires free && |answers| == |elapsed| && (timeout < 0 ==> |elapsed| > 0) && (timeout >= 0 ==> |elapsed| > timeout / POLL_DELAY + 1)
      requires forall i | 0 <= i < |elapsed| :: POLL_DELAY * i <= elapsed[i]
      modifies this
      ensures invokeThrows ==> !free && polls == 0 && result == MutationResult(0, false, true)
      ensures !invokeThrows ==> 0 < polls <= |answers| && Polls(answers, elapsed, timeout, polls - 1) && PollBound(polls, timeout)
      ensures !invokeThrows && answers[polls - 1] == True ==> free && result == MutationResult(elapsed[polls - 1], false, false)
      ensures !invokeThrows && answers[polls - 1] == False ==>
        !free && elapsed[polls - 1] > timeout && result == MutationResult(timeout, true, false)
      ensures !invokeThrows && answers[polls - 1] == Throws ==> !free && result.threw
    {
      free, polls := false, 0;
      if invokeThrows { return MutationResult(0, false, true), 0; }
      while true
        invariant !free && polls < |answers| && Polls(answers, elapsed, timeout, polls)
        decreases |answers| - polls
      {
        var answer, now := answers[polls], elapsed[polls];
        polls := polls + 1;
        if polls >= 2 { assert elapsed[polls - 2] <= timeout && POLL_DELAY * (polls - 2) <= elapsed[polls - 2]; }
        if answer == Throws { return MutationResult(0, false, true), polls; }
        if answer == True { break; }
        if now > timeout { return MutationResult(timeout, true, false), polls; }
        assert POLL_DELAY * (polls - 1) <= timeout;
      }
      result := MutationResult(elapsed[polls - 1], false, false);
      free := true;
    }
  }
}
