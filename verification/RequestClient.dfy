/**
 * Request/response correlation in the TypeScript client: `_request`, `_handleMessage`, the timeout
 * timers, the socket's close handler and `disconnect`.  JavaScript runs one handler at a time, so
 * each is one step.
 */
module RequestClient {
  import opened Optional

  type Id(==, !new)

  datatype Reason = NotOpen | SendFailed | TimedOut | SocketClosed | Disconnected

  /** One call of a promise's resolve or reject. */
  datatype Outcome = Resolved(id: Id, messageId: Option<Id>, data: int) | Rejected(id: Id, reason: Reason)

  /** pending is the map in insertion order; timers the armed timeouts; settled and dispatched are logs. */
  datatype State = State(pending: seq<Id>, timers: set<Id>, sent: seq<Id>, settled: seq<Outcome>, dispatched: seq<int>)

  datatype Event =
    | Request(id: Id, open: bool, sendSucceeds: bool) // id: the correlation id generated for it
    | Inbound(messageId: Option<Id>, data: int)       // a parsed message; unparsable ones change nothing
    | Timeout(id: Id)                                 // fires only while armed
    | SocketCloses
    | Disconnect

  const FRESH := State([], {}, [], [], [])

  /** Map.delete */
  function Without(ids: seq<Id>, id: Id): (r: seq<Id>)
    ensures forall x :: x in r <==> x in ids && x != id
  {
    if ids == [] then [] else
      var rest := Without(ids[..|ids| - 1], id);
      assert ids == ids[..|ids| - 1] + [ids[|ids| - 1]];
      if ids[|ids| - 1] == id then rest else rest + [ids[|ids| - 1]]
  }

  function Rejections(ids: seq<Id>, reason: Reason): seq<Outcome> {
    seq(|ids|, i requires 0 <= i < |ids| => Rejected(ids[i], reason))
  }

  /** _rejectAllPending */
  function RejectAll(s: State, reason: Reason): State {
    s.(pending := [], timers := s.timers - (set id | id in s.pending), settled := s.settled + Rejections(s.pending, reason))
  }

  function Step(s: State, e: Event): State {
    match e
    case Request(id, open, sendSucceeds) =>
      if !open then s.(settled := s.settled + [Rejected(id, NotOpen)])
      else if sendSucceeds then s.(pending := s.pending + [id], timers := s.timers + {id}, sent := s.sent + [id])
      else s.(settled := s.settled + [Rejected(id, SendFailed)])
    case Inbound(messageId, data) =>
      if messageId.Some? && messageId.value in s.pending then
        s.(pending := Without(s.pending, messageId.value), timers := s.timers - {messageId.value},
           settled := s.settled + [Resolved(messageId.value, messageId, data)])
      else s.(dispatched := s.dispatched + [data])
    case Timeout(id) =>
      if id in s.timers then
        s.(pending := Without(s.pending, id), timers := s.timers - {id}, settled := s.settled + [Rejected(id, TimedOut)])
      else s
    case SocketCloses => RejectAll(s, SocketClosed)
    case Disconnect => RejectAll(s, Disconnected)
  }

  function Run(events: seq<Event>): State {
    if events == [] then FRESH else Step(Run(events[..|events| - 1]), events[|events| - 1])
  }

  /** generateId never repeats itself. */
  ghost predicate FreshIds(events: seq<Event>) {
    forall i, j | 0 <= i < j < |events| && events[i].Request? && events[j].Request? :: events[i].id != events[j].id
  }

  ghost predicate Requested(events: seq<Event>, id: Id) {
    exists i | 0 <= i < |events| :: events[i].Request? && events[i].id == id
  }

  ghost predicate Settled(s: State, id: Id) {
    exists i | 0 <= i < |s.settled| :: s.settled[i].id == id
  }

  predicate Distinct(ids: seq<Id>) {
    forall i, j | 0 <= i < j < |ids| :: ids[i] != ids[j]
  }

  ghost predicate Inv(s: State) {
    // each promise is settled at most once
    && (forall i, j | 0 <= i < j < |s.settled| :: s.settled[i].id != s.settled[j].id)
    // resolved only by a message bearing its own id, and only if it was sent
    && (forall i | 0 <= i < |s.settled| && s.settled[i].Resolved? :: s.settled[i].messageId == Some(s.settled[i].id) && s.settled[i].id in s.sent)
    // the pending map is the sent and unsettled requests, each with its timer
    && (forall id :: id in s.pending <==> id in s.sent && !Settled(s, id))
    && (forall id :: id in s.timers <==> id in s.pending)
    && Distinct(s.pending)
  }

  // ---------------------------------------------------------------- proofs

  lemma {:induction false} WithoutDistinct(ids: seq<Id>, id: Id)
    requires Distinct(ids)
    ensures Distinct(Without(ids, id))
  {
    if ids != [] {
      WithoutDistinct(ids[..|ids| - 1], id);
      assert ids[|ids| - 1] !in ids[..|ids| - 1];
    }
  }

  /** Settling one more request. */
  lemma {:induction false} SettleOne(s: State, s': State, o: Outcome)
    requires Inv(s) && !Settled(s, o.id) && s'.settled == s.settled + [o]
    requires s'.sent == s.sent && s'.pending == Without(s.pending, o.id) && s'.timers == s.timers - {o.id}
    requires o.Resolved? ==> o.messageId == Some(o.id) && o.id in s.sent
    ensures Inv(s')
  {
    WithoutDistinct(s.pending, o.id);
    forall id ensures Settled(s', id) <==> Settled(s, id) || id == o.id {
      SettledAppend(s, s', [o], id);
      assert [o][0].id == o.id;
    }
    assert forall i | 0 <= i < |s.settled| :: Settled(s, s.settled[i].id);
  }

  lemma {:induction false} SettledAppend(s: State, s': State, more: seq<Outcome>, id: Id)
    requires s'.settled == s.settled + more
    ensures Settled(s', id) <==> Settled(s, id) || exists i | 0 <= i < |more| :: more[i].id == id
  {
    if Settled(s, id) { var i :| 0 <= i < |s.settled| && s.settled[i].id == id; assert s'.settled[i].id == id; }
    if i :| 0 <= i < |more| && more[i].id == id { assert s'.settled[|s.settled| + i].id == id; }
    if Settled(s', id) {
      var i :| 0 <= i < |s'.settled| && s'.settled[i].id == id;
      if i >= |s.settled| { assert more[i - |s.settled|].id == id; } else { assert s.settled[i].id == id; }
    }
  }

  lemma {:induction false} RejectAllKeepsInv(s: State, reason: Reason)
    requires Inv(s)
    ensures Inv(RejectAll(s, reason)) && RejectAll(s, reason).pending == [] && RejectAll(s, reason).timers == {}
  {
    var s', more := RejectAll(s, reason), Rejections(s.pending, reason);
    forall id ensures Settled(s', id) <==> Settled(s, id) || id in s.pending {
      SettledAppend(s, s', more, id);
      if id in s.pending { var i :| 0 <= i < |s.pending| && s.pending[i] == id; assert more[i].id == id; }
    }
    forall i, j | 0 <= i < j < |s'.settled| ensures s'.settled[i].id != s'.settled[j].id {
      if j >= |s.settled| && i < |s.settled| {
        assert s'.settled[j].id == s.pending[j - |s.settled|];
        assert Settled(s, s.settled[i].id);
      }
    }
  }

  lemma {:induction false} StepKeepsInv(s: State, e: Event)
    requires Inv(s)
    requires e.Request? ==> e.id !in s.sent && !Settled(s, e.id)
    ensures Inv(Step(s, e))
  {
    var s' := Step(s, e);
    match e {
      case Request(id, open, sendSucceeds) =>
        if open && sendSucceeds {
          assert forall x :: Settled(s', x) <==> Settled(s, x);
        } else {
          WithoutAbsent(s.pending, id);
          SettleOne(s, s', s'.settled[|s.settled|]);
        }
      case Inbound(messageId, data) =>
        if messageId.Some? && messageId.value in s.pending { SettleOne(s, s', Resolved(messageId.value, messageId, data)); }
        else { assert forall x :: Settled(s', x) <==> Settled(s, x); }
      case Timeout(id) => if id in s.timers { SettleOne(s, s', Rejected(id, TimedOut)); }
      case SocketCloses => RejectAllKeepsInv(s, SocketClosed);
      case Disconnect => RejectAllKeepsInv(s, Disconnected);
    }
  }

  lemma {:induction false} WithoutAbsent(ids: seq<Id>, id: Id)
    requires id !in ids
    ensures Without(ids, id) == ids
  {
    if ids != [] {
      assert ids == ids[..|ids| - 1] + [ids[|ids| - 1]];
      WithoutAbsent(ids[..|ids| - 1], id);
    }
  }

  /** What was sent or settled was requested. */
  lemma {:induction false} OnlyRequested(events: seq<Event>, id: Id)
    requires id in Run(events).sent || Settled(Run(events), id) || id in Run(events).pending || id in Run(events).timers
    ensures Requested(events, id)
  {
    if events != [] {
      var init, e := events[..|events| - 1], events[|events| - 1];
      if e.Request? && e.id == id {
        assert events[|events| - 1].id == id;
      } else {
        NoneFromNothing(Run(init), e, id);
        hide Step;
        OnlyRequested(init, id);
        var i :| 0 <= i < |init| && init[i].Request? && init[i].id == id;
        assert events[i].id == id;
      }
    }
  }

  /** A step other than its own request brings up no id that was not there. */
  lemma {:induction false} NoneFromNothing(s: State, e: Event, id: Id)
    requires !(e.Request? && e.id == id)
    requires var s' := Step(s, e); id in s'.sent || Settled(s', id) || id in s'.pending || id in s'.timers
    ensures id in s.sent || Settled(s, id) || id in s.pending || id in s.timers
  {
    var s' := Step(s, e);
    if Settled(s', id) {
      var i :| 0 <= i < |s'.settled| && s'.settled[i].id == id;
      if i < |s.settled| { assert s.settled[i].id == id; }
    }
  }

  lemma {:induction false} FreshPrefix(events: seq<Event>)
    requires events != [] && FreshIds(events)
    ensures var init, e := events[..|events| - 1], events[|events| - 1];
      FreshIds(init) && (e.Request? ==> !Requested(init, e.id))
  {
    var init, e := events[..|events| - 1], events[|events| - 1];
    assert forall i | 0 <= i < |init| :: init[i] == events[i];
  }

  /**
   * Over every interleaving of sends, send failures, replies (duplicate, late or foreign), timeouts,
   * closes and disconnects: each request settles at most once and resolves only with its own reply, and
   * the pending map is exactly the sent and unsettled requests, each with an armed timer.
   */
  lemma {:induction false} Correlation(events: seq<Event>)
    requires FreshIds(events)
    ensures Inv(Run(events))
  {
    if events != [] {
      var init, e := events[..|events| - 1], events[|events| - 1];
      FreshPrefix(events);
      Correlation(init);
      if e.Request? {
        if e.id in Run(init).sent || Settled(Run(init), e.id) { OnlyRequested(init, e.id); }
      }
      StepKeepsInv(Run(init), e);
    }
  }

  /** After a close or a disconnect nothing is pending, no timer is armed, and every sent request is settled. */
  lemma {:induction false} NothingPendingAfterClose(events: seq<Event>, e: Event)
    requires FreshIds(events + [e]) && (e.SocketCloses? || e.Disconnect?)
    ensures var s := Run(events + [e]); s.pending == [] && s.timers == {} && forall id | id in s.sent :: Settled(s, id)
  {
    var all := events + [e];
    assert all[..|all| - 1] == events;
    Correlation(all);
    FreshPrefix(all);
    Correlation(events);
    RejectAllKeepsInv(Run(events), if e.SocketCloses? then SocketClosed else Disconnected);
  }

  // ---------------------------------------------------------------- what each event brings about

  lemma {:induction false} RunStep(events: seq<Event>, e: Event)
    ensures Run(events + [e]) == Step(Run(events), e)
  {
    assert (events + [e])[..|events + [e]| - 1] == events;
  }

  /** A reply resolves its own pending request with its data, clears the timer, and reaches no topic handler. */
  lemma {:induction false} ReplyResolves(events: seq<Event>, id: Id, data: int)
    requires id in Run(events).pending
    ensures var s, s' := Run(events), Run(events + [Inbound(Some(id), data)]);
      && s'.settled == s.settled + [Resolved(id, Some(id), data)]
      && (forall x :: x in s'.pending <==> x in s.pending && x != id) && s'.timers == s.timers - {id}
      && s'.sent == s.sent && s'.dispatched == s.dispatched
  {
    RunStep(events, Inbound(Some(id), data));
  }

  /** Any other message goes to the topic handlers and settles nothing. */
  lemma {:induction false} StrayIsDispatched(events: seq<Event>, messageId: Option<Id>, data: int)
    requires messageId.Some? ==> messageId.value !in Run(events).pending
    ensures var s, s' := Run(events), Run(events + [Inbound(messageId, data)]);
      && s'.dispatched == s.dispatched + [data]
      && s'.settled == s.settled && s'.pending == s.pending && s'.timers == s.timers && s'.sent == s.sent
  {
    RunStep(events, Inbound(messageId, data));
  }

  /** A timer that fires rejects its request and forgets it; one that was cleared does nothing. */
  lemma {:induction false} TimeoutRejects(events: seq<Event>, id: Id)
    ensures var s, s' := Run(events), Run(events + [Timeout(id)]);
      if id in s.timers then
        && s'.settled == s.settled + [Rejected(id, TimedOut)] && s'.timers == s.timers - {id}
        && (forall x :: x in s'.pending <==> x in s.pending && x != id) && s'.sent == s.sent && s'.dispatched == s.dispatched
      else s' == s
  {
    RunStep(events, Timeout(id));
  }

  /** A request on an open socket waits with a timer; on a closed one, or when sending throws, it is rejected at once. */
  lemma {:induction false} RequestWaitsOrIsRejected(events: seq<Event>, id: Id, open: bool, sendSucceeds: bool)
    ensures var s, s' := Run(events), Run(events + [Request(id, open, sendSucceeds)]);
      && s'.dispatched == s.dispatched
      && if open && sendSucceeds then
           s'.pending == s.pending + [id] && s'.timers == s.timers + {id} && s'.sent == s.sent + [id] && s'.settled == s.settled
         else
           && s'.pending == s.pending && s'.timers == s.timers && s'.sent == s.sent
           && s'.settled == s.settled + [Rejected(id, if open then SendFailed else NotOpen)]
  {
    RunStep(events, Request(id, open, sendSucceeds));
  }

  /** A close or a disconnect rejects what is pending, in the order it was sent, and nothing else. */
  lemma {:induction false} CloseRejectsInOrder(events: seq<Event>, e: Event)
    requires FreshIds(events) && (e.SocketCloses? || e.Disconnect?)
    ensures var s, s' := Run(events), Run(events + [e]);
      && |s'.settled| == |s.settled| + |s.pending| && s'.settled[..|s.settled|] == s.settled
      && (forall i | 0 <= i < |s.pending| ::
            s'.settled[|s.settled| + i] == Rejected(s.pending[i], if e.SocketCloses? then SocketClosed else Disconnected))
      && s'.pending == [] && s'.timers == {} && s'.sent == s.sent && s'.dispatched == s.dispatched
  {
    RunStep(events, e);
    Correlation(events);
    var s, reason := Run(events), if e.SocketCloses? then SocketClosed else Disconnected;
    RejectAllKeepsInv(s, reason);
    assert Step(s, e) == RejectAll(s, reason);
    hide Run, Step, Inv;
  }

  /** Every request ever made is waiting for its reply or settled. */
  lemma {:induction false} EveryRequestIsAccounted(events: seq<Event>, id: Id)
    requires Requested(events, id)
    ensures id in Run(events).pending || Settled(Run(events), id)
  {
    var init, e := events[..|events| - 1], events[|events| - 1];
    var s, s' := Run(init), Run(events);
    if e.Request? && e.id == id {
      if id !in s'.pending { assert s'.settled[|s.settled|].id == id; }
    } else {
      var i :| 0 <= i < |events| && events[i].Request? && events[i].id == id;
      assert init[i] == events[i];
      EveryRequestIsAccounted(init, id);
      SettledStays(s, e, id);
    }
  }

  lemma {:induction false} SettledStays(s: State, e: Event, id: Id)
    requires id in s.pending || Settled(s, id)
    ensures id in Step(s, e).pending || Settled(Step(s, e), id)
  {
    var s' := Step(s, e);
    assert s.settled <= s'.settled;
    if Settled(s, id) {
      var i :| 0 <= i < |s.settled| && s.settled[i].id == id;
      assert s'.settled[i].id == id;
    } else if id !in s'.pending {
      if e.SocketCloses? || e.Disconnect? {
        var i :| 0 <= i < |s.pending| && s.pending[i] == id;
        assert s'.settled[|s.settled| + i].id == id;
      } else {
        assert s'.settled[|s.settled|].id == id;
      }
    }
  }

  // ---------------------------------------------------------------- the client object

  class Connect3DpClient {
    var open: bool
    var pending: seq<Id>
    var timers: set<Id>
    var sent: seq<Id>
    var settled: seq<Outcome>
    var dispatched: seq<int>

    constructor ()
      ensures View() == FRESH && !open
    {
      open, pending, timers, sent, settled, dispatched := false, [], {}, [], [], [];
    }

    function View(): State
      reads this
    {
      State(pending, timers, sent, settled, dispatched)
    }

    method OnOpen()
      modifies this`open
      ensures open
    {
      open := true;
    }

    method Settle(o: Outcome)
      modifies this`settled
      ensures settled == old(settled) + [o]
    {
      settled := settled + [o];
    }

    /** _request: arm the timer, remember the request, send; a throwing send undoes both. */
    method Request(correlationId: Id, sendSucceeds: bool)
      requires correlationId !in pending && correlationId !in timers
      modifies this`pending, this`timers, this`sent, this`settled
      ensures View() == Step(old(View()), Event.Request(correlationId, open, sendSucceeds))
    {
      if !open {
        Settle(Rejected(correlationId, NotOpen));
        return;
      }
      timers := timers + {correlationId};
      pending := pending + [correlationId];
      if sendSucceeds {
        sent := sent + [correlationId];
      } else {
        ghost var before := pending[..|pending| - 1];
        timers := timers - {correlationId};
        pending := Without(pending, correlationId);
        WithoutAbsent(before, correlationId);
        assert timers == old(timers);
        Settle(Rejected(correlationId, SendFailed));
      }
    }

    /** The callback of a request's timer. */
    method TimerFires(correlationId: Id)
      requires correlationId in timers
      modifies this`pending, this`timers, this`settled
      ensures View() == Step(old(View()), Timeout(correlationId))
    {
      timers := timers - {correlationId};
      pending := Without(pending, correlationId);
      Settle(Rejected(correlationId, TimedOut));
    }

    /** _handleMessage for a message that parsed: a correlated response, or a broadcast. */
    method HandleMessage(messageId: Option<Id>, data: int)
      modifies this`pending, this`timers, this`settled, this`dispatched
      ensures View() == Step(old(View()), Inbound(messageId, data))
    {
      if messageId.Some? {
        var id := messageId.value;
        if id in pending {
          timers := timers - {id};
          pending := Without(pending, id);
          Settle(Resolved(id, messageId, data));
          return;
        }
      }
      dispatched := dispatched + [data];
    }

    /** _rejectAllPending: clear each timer, reject each promise, then clear the map. */
    method RejectAllPending(reason: Reason)
      modifies this`pending, this`timers, this`settled
      ensures View() == RejectAll(old(View()), reason)
    {
      var i := 0;
      while i < |pending|
        invariant i <= |pending| && pending == old(pending)
        invariant timers == old(timers) - (set id | id in pending[..i])
        invariant settled == old(settled) + Rejections(pending[..i], reason)
      {
        assert pending[..i + 1] == pending[..i] + [pending[i]];
        timers := timers - {pending[i]};
        Settle(Rejected(pending[i], reason));
        i := i + 1;
      }
      assert pending[..i] == pending;
      pending := [];
    }

    /** The socket's close handler. */
    method OnClose()
      modifies this
      ensures View() == Step(old(View()), SocketCloses) && !open
    {
      open := false;
      RejectAllPending(SocketClosed);
    }

    method Disconnect()
      modifies this
      ensures View() == Step(old(View()), Event.Disconnect) && !open
    {
      open := false;
      RejectAllPending(Disconnected);
    }
  }
}
