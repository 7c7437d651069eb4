/** The registry that matches delivered reception statuses to the coroutines
    waiting for them. asyncio scheduling is cooperative and the waiting call
    suspends at a single point, so every piece of code between suspensions runs
    atomically; each such piece is one pure transition below. */
module ReceptionStatusAwaiter {
  import opened Types

  /** The awaiter's state. `received` holds statuses delivered but not yet
      claimed, `awaiting` the event each waited-for id is registered under,
      `signalled` the events that have been set (events are never cleared), and
      `nextHandle` the number of the next event to be created. */
  datatype Awaiter = Awaiter(
    received: map<Id, ReceptionStatus>,
    awaiting: map<Id, Handle>,
    signalled: set<Handle>,
    nextHandle: Handle)

  /** The state after a transition, together with what the caller observes. */
  datatype Transition<+T> = Transition(state: Awaiter, outcome: T)

  /** What the first atomic part of a wait yields: a status claimed at once, or
      the event the coroutine then suspends on. */
  datatype Start = Claimed(status: ReceptionStatus) | Waiting(handle: Handle)

  // ---------------------------------------------------------------------------
  // Invariants

  /** No id is both parked in `received` and registered in `awaiting`. */
  ghost predicate Disjoint(s: Awaiter) {
    s.received.Keys !! s.awaiting.Keys
  }

  /** A parked status is filed under the id of the message it acknowledges. */
  ghost predicate WellKeyed(s: Awaiter) {
    forall id :: id in s.received ==> s.received[id].subjectMessageId == id
  }

  /** Every event mentioned has been created. */
  ghost predicate Allocated(s: Awaiter) {
    && (forall id :: id in s.awaiting ==> s.awaiting[id] < s.nextHandle)
    && (forall h :: h in s.signalled ==> h < s.nextHandle)
  }

  /** A registered event has not been set yet, and no two ids share one. */
  ghost predicate PendingDistinct(s: Awaiter) {
    && (forall id :: id in s.awaiting ==> s.awaiting[id] !in s.signalled)
    && (forall i, j :: i in s.awaiting && j in s.awaiting && s.awaiting[i] == s.awaiting[j] ==> i == j)
  }

  ghost predicate Valid(s: Awaiter) {
    Disjoint(s) && WellKeyed(s) && Allocated(s) && PendingDistinct(s)
  }

  /** `s` and `s'` agree on what they hold for `k` in both maps. */
  ghost predicate SameAt(s: Awaiter, s': Awaiter, k: Id) {
    && (k in s.received <==> k in s'.received)
    && (k in s.received ==> s.received[k] == s'.received[k])
    && (k in s.awaiting <==> k in s'.awaiting)
    && (k in s.awaiting ==> s.awaiting[k] == s'.awaiting[k])
  }

  // ---------------------------------------------------------------------------
  // Transitions

  /** A new awaiter: nothing parked, nobody waiting. */
  function Init(): (s: Awaiter)
    ensures Valid(s)
    ensures forall id :: id !in s.received && id !in s.awaiting
  {
    Awaiter(map[], map[], {}, 0)
  }

  /** The part of `wait_for_reception_status` before it suspends: claim a parked
      status if there is one, otherwise register (or join) an event for `id`. */
  function WaitStart(s: Awaiter, id: Id): (t: Transition<Start>)
    ensures t.outcome.Claimed? <==> id in s.received
    // fast path: the parked status is handed over and nothing else changes
    ensures id in s.received ==>
      && t.outcome.status == s.received[id]
      && id !in t.state.received
      && t.state.awaiting == s.awaiting
      && t.state.signalled == s.signalled
      && t.state.nextHandle == s.nextHandle
    // slow path: afterwards the coroutine's event is registered under `id`
    ensures id !in s.received ==>
      && t.state.received == s.received
      && t.state.signalled == s.signalled
      && id in t.state.awaiting
      && t.state.awaiting[id] == t.outcome.handle
    // an event already registered for `id` is joined, not replaced
    ensures id !in s.received && id in s.awaiting ==>
      t.outcome.handle == s.awaiting[id] && t.state == s
    // otherwise a new event is created
    ensures id !in s.received && id !in s.awaiting ==>
      t.outcome.handle == s.nextHandle && t.state.nextHandle == s.nextHandle + 1
    ensures forall k :: k != id ==> SameAt(s, t.state, k)
    ensures Valid(s) ==> Valid(t.state)
  {
    if id in s.received then
      Transition(s.(received := s.received - {id}), Claimed(s.received[id]))
    else if id in s.awaiting then
      Transition(s, Waiting(s.awaiting[id]))
    else
      var h := s.nextHandle;
      Transition(s.(awaiting := s.awaiting[id := h], nextHandle := h + 1), Waiting(h))
  }

  /** `receive_reception_status`: reject anything but a reception status, reject
      a second status for an id whose first one is still unclaimed, and otherwise
      park the status, set the event waiting for it and unregister that event. */
  function Deliver(s: Awaiter, m: Message): (t: Transition<Result<()>>)
    // the type guard raises and changes nothing
    ensures m.Other? ==> t.state == s && t.outcome == Err(NotAReceptionStatus(m.kind))
    // a duplicate raises and changes nothing, so the first status stays parked
    ensures m.Status? && m.status.subjectMessageId in s.received ==>
      t.state == s && t.outcome == Err(AlreadyReceived(m.status.subjectMessageId))
    ensures m.Status? && m.status.subjectMessageId !in s.received ==>
      var mid := m.status.subjectMessageId;
      && t.outcome.Ok?
      && mid in t.state.received && t.state.received[mid] == m.status
      && mid !in t.state.awaiting
      && t.state.nextHandle == s.nextHandle
      && (mid in s.awaiting ==> t.state.signalled == s.signalled + {s.awaiting[mid]})
      && (mid !in s.awaiting ==> t.state.signalled == s.signalled)
    ensures m.Status? ==> forall k :: k != m.status.subjectMessageId ==> SameAt(s, t.state, k)
    ensures Valid(s) ==> Valid(t.state)
  {
    match m
    case Other(kind) => Transition(s, Err(NotAReceptionStatus(kind)))
    case Status(r) =>
      var mid := r.subjectMessageId;
      if mid in s.received then
        Transition(s, Err(AlreadyReceived(mid)))
      else
        var signalled := if mid in s.awaiting then s.signalled + {s.awaiting[mid]} else s.signalled;
        Transition(Awaiter(s.received[mid := r], s.awaiting - {mid}, signalled, s.nextHandle), Ok(()))
  }

  /** The waiting coroutine wakes after its event was set: it pops the status
      parked for `id` (raising if there is none), and its `finally` block then
      unregisters `id`. */
  function Resume(s: Awaiter, id: Id): (t: Transition<Result<ReceptionStatus>>)
    ensures t.outcome.Ok? <==> id in s.received
    ensures id in s.received ==> t.outcome.value == s.received[id]
    ensures id !in s.received ==> t.outcome == Err(MissingStatus(id))
    ensures id !in t.state.received && id !in t.state.awaiting
    ensures t.state.signalled == s.signalled && t.state.nextHandle == s.nextHandle
    ensures forall k :: k != id ==> SameAt(s, t.state, k)
    ensures Valid(s) ==> Valid(t.state)
  {
    var outcome := if id in s.received then Ok(s.received[id]) else Err(MissingStatus(id));
    Transition(s.(received := s.received - {id}, awaiting := s.awaiting - {id}), outcome)
  }

  /** The wait timed out: only the `finally` block runs, unregistering `id`. */
  function Timeout(s: Awaiter, id: Id): (t: Transition<Result<ReceptionStatus>>)
    ensures t.outcome == Err(TimedOut)
    ensures t.state.received == s.received
    ensures id !in t.state.awaiting
    ensures t.state.signalled == s.signalled && t.state.nextHandle == s.nextHandle
    ensures forall k :: k != id ==> SameAt(s, t.state, k)
    ensures Valid(s) ==> Valid(t.state)
  {
    Transition(s.(awaiting := s.awaiting - {id}), Err(TimedOut))
  }

  // ---------------------------------------------------------------------------
  // Properties relating several transitions

  /** A newly created event is not shared with any other id and is not set. */
  lemma FreshEvent(s: Awaiter, id: Id)
    requires Valid(s) && id !in s.received && id !in s.awaiting
    ensures var h := WaitStart(s, id).outcome.handle;
      && h !in s.signalled
      && forall k :: k in s.awaiting ==> s.awaiting[k] != h
  {
  }

  /** The status is stored before the event is set: a coroutine woken by a
      delivery finds exactly the delivered status, and leaves `id` in neither map. */
  lemma StoreBeforeSignal(s: Awaiter, r: ReceptionStatus)
    requires r.subjectMessageId !in s.received && r.subjectMessageId in s.awaiting
    ensures var id := r.subjectMessageId;
      var d := Deliver(s, Status(r));
      var w := Resume(d.state, id);
      && s.awaiting[id] in d.state.signalled
      && w.outcome == Ok(r)
      && id !in w.state.received && id !in w.state.awaiting
  {
  }

  /** A status parked before anyone waits is claimed by the next wait at once. */
  lemma DeliverThenWait(s: Awaiter, r: ReceptionStatus)
    requires r.subjectMessageId !in s.received
    ensures var d := Deliver(s, Status(r));
      var w := WaitStart(d.state, r.subjectMessageId);
      && w.outcome == Claimed(r)
      && r.subjectMessageId !in w.state.received
      && r.subjectMessageId !in w.state.awaiting
  {
  }

  /** A second delivery for an unclaimed id fails, and the first status is the
      one the next wait claims. */
  lemma DuplicateKeepsFirst(s: Awaiter, r1: ReceptionStatus, r2: ReceptionStatus)
    requires r1.subjectMessageId !in s.received
    requires r2.subjectMessageId == r1.subjectMessageId
    ensures var d1 := Deliver(s, Status(r1));
      var d2 := Deliver(d1.state, Status(r2));
      && d2.outcome == Err(AlreadyReceived(r1.subjectMessageId))
      && WaitStart(d2.state, r1.subjectMessageId).outcome == Claimed(r1)
  {
  }

  /** After a claim, by either path, the status is gone: the next wait for the
      same id suspends, and a fresh delivery for it is not a duplicate. */
  lemma ClaimedOnce(s: Awaiter, id: Id, m: ReceptionStatus, fast: bool)
    requires m.subjectMessageId == id
    requires fast ==> id in s.received
    ensures var c := if fast then WaitStart(s, id).state else Resume(s, id).state;
      && WaitStart(c, id).outcome.Waiting?
      && Deliver(c, Status(m)).outcome.Ok?
  {
  }

  /** After a timeout nothing remembers the waiter: a delivery for `id` parks the
      status and sets no event, exactly as if nobody had waited. */
  lemma TimeoutForgetsWaiter(s: Awaiter, r: ReceptionStatus)
    requires r.subjectMessageId !in s.received
    ensures var id := r.subjectMessageId;
      Deliver(Timeout(s, id).state, Status(r))
        == Transition(Awaiter(s.received[id := r], s.awaiting - {id}, s.signalled, s.nextHandle), Ok(()))
  {
  }

  /** A status delivered while its waiter was timing out stays parked, and the
      next wait claims it. */
  lemma TimeoutKeepsParked(s: Awaiter, id: Id)
    requires id in s.received
    ensures WaitStart(Timeout(s, id).state, id).outcome == Claimed(s.received[id])
  {
  }

  /** Two coroutines waiting for the same id share one event. A delivery sets it
      and wakes both; the first to resume claims the status and the second's
      `pop` raises, because the status is already gone. */
  lemma SharedEvent(s: Awaiter, r: ReceptionStatus)
    requires r.subjectMessageId !in s.received
    ensures var id := r.subjectMessageId;
      var w1 := WaitStart(s, id);
      var w2 := WaitStart(w1.state, id);
      var d := Deliver(w2.state, Status(r));
      var first := Resume(d.state, id);
      var second := Resume(first.state, id);
      && w1.outcome == w2.outcome
      && w1.outcome.handle in d.state.signalled
      && first.outcome == Ok(r)
      && second.outcome == Err(MissingStatus(id))
  {
  }

  /** The cleanup of a waiter that lost the race for a shared event removes
      whatever event is registered for its id, even one a later waiter created.
      Here the first waiter's event is set by `r1`, a second wait claims `r1` on
      the fast path, a third wait registers a new event, and the first waiter
      then resumes: its `pop` raises and its `finally` unregisters the third
      waiter's event. A later status `r2` for the id is parked but sets no
      event, so the third waiter can only time out. */
  lemma StrandedWaiter(s: Awaiter, r1: ReceptionStatus, r2: ReceptionStatus)
    requires Valid(s)
    requires r1.subjectMessageId == r2.subjectMessageId
    requires r1.subjectMessageId !in s.received && r1.subjectMessageId !in s.awaiting
    ensures var id := r1.subjectMessageId;
      var w1 := WaitStart(s, id);
      var d1 := Deliver(w1.state, Status(r1));
      var w2 := WaitStart(d1.state, id);
      var w3 := WaitStart(w2.state, id);
      var first := Resume(w3.state, id);
      var d2 := Deliver(first.state, Status(r2));
      && w2.outcome == Claimed(r1)
      && w3.outcome.Waiting? && w3.outcome.handle != w1.outcome.handle
      && first.outcome == Err(MissingStatus(id))
      && d2.outcome.Ok?
      && w3.outcome.handle !in d2.state.signalled
      && id in d2.state.received && id !in d2.state.awaiting
  {
  }
}
