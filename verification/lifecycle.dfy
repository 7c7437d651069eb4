/** An independent reference for the awaiter: the life of a single id as a
    three-state machine. An id is idle, has a parked status, or has a pending
    waiter; the two maps of the awaiter are a packed representation of one such
    slot per id, which is only sound because they never share a key. */
module Lifecycle {
  import opened Types
  import opened ReceptionStatusAwaiter

  /** What the awaiter holds for one id. */
  datatype Slot =
    | Idle
    | Parked(status: ReceptionStatus)
    | Pending(handle: Handle)

  /** A step of the one-id machine: the new slot and what the caller observes. */
  datatype SlotStep<+T> = SlotStep(slot: Slot, outcome: T)

  /** The slot the awaiter holds for `id`. */
  function View(s: Awaiter, id: Id): Slot {
    if id in s.received then Parked(s.received[id])
    else if id in s.awaiting then Pending(s.awaiting[id])
    else Idle
  }

  /** The events a delivery into `slot` sets. */
  function Woken(slot: Slot): set<Handle> {
    if slot.Pending? then {slot.handle} else {}
  }

  /** Starting a wait: take a parked status, join a pending event, or create
      the event `next`. */
  function SlotWait(slot: Slot, next: Handle): SlotStep<Start> {
    match slot
    case Parked(r) => SlotStep(Idle, Claimed(r))
    case Pending(h) => SlotStep(Pending(h), Waiting(h))
    case Idle => SlotStep(Pending(next), Waiting(next))
  }

  /** Delivering status `r` for this slot's id: a parked slot refuses it, any
      other slot parks it. */
  function SlotDeliver(slot: Slot, r: ReceptionStatus): SlotStep<Result<()>> {
    match slot
    case Parked(_) => SlotStep(slot, Err(AlreadyReceived(r.subjectMessageId)))
    case _ => SlotStep(Parked(r), Ok(()))
  }

  /** A woken waiter takes what is parked; whatever happens the slot is idle. */
  function SlotResume(slot: Slot, id: Id): SlotStep<Result<ReceptionStatus>> {
    match slot
    case Parked(r) => SlotStep(Idle, Ok(r))
    case _ => SlotStep(Idle, Err(MissingStatus(id)))
  }

  /** A timed-out waiter withdraws its event; a parked status is left alone. */
  function SlotTimeout(slot: Slot): SlotStep<Result<ReceptionStatus>> {
    match slot
    case Pending(_) => SlotStep(Idle, Err(TimedOut))
    case _ => SlotStep(slot, Err(TimedOut))
  }

  // ---------------------------------------------------------------------------
  // The awaiter refines the one-id machine, id by id

  /** With disjoint maps the slot is an exact account of both maps at `id`. */
  lemma ViewExact(s: Awaiter, id: Id)
    requires Disjoint(s)
    ensures View(s, id).Parked? <==> id in s.received
    ensures View(s, id).Pending? <==> id in s.awaiting
    ensures View(s, id).Parked? ==> View(s, id).status == s.received[id]
    ensures View(s, id).Pending? ==> View(s, id).handle == s.awaiting[id]
  {
  }

  /** Two disjoint states with the same slots, events and counter are equal:
      the slots lose nothing. */
  lemma ViewDetermines(s: Awaiter, s': Awaiter)
    requires Disjoint(s) && Disjoint(s')
    requires forall k :: View(s, k) == View(s', k)
    requires s.signalled == s'.signalled && s.nextHandle == s'.nextHandle
    ensures s == s'
  {
    forall k
      ensures k in s.received <==> k in s'.received
      ensures k in s.received ==> s.received[k] == s'.received[k]
      ensures k in s.awaiting <==> k in s'.awaiting
      ensures k in s.awaiting ==> s.awaiting[k] == s'.awaiting[k]
    {
      ViewExact(s, k);
      ViewExact(s', k);
    }
    assert s.received == s'.received;
    assert s.awaiting == s'.awaiting;
  }

  /** Starting a wait is `SlotWait` at `id`, with the next event number as the
      fresh event, and leaves every other slot as it was. */
  lemma WaitStartRefines(s: Awaiter, id: Id)
    requires Disjoint(s)
    ensures var t := WaitStart(s, id);
      var ref := SlotWait(View(s, id), s.nextHandle);
      && View(t.state, id) == ref.slot
      && t.outcome == ref.outcome
      && forall k :: k != id ==> View(t.state, k) == View(s, k)
  {
  }

  /** A delivery of something other than a reception status changes no slot; a
      delivery of `r` is `SlotDeliver` at its id, sets exactly the events
      `Woken` names, and leaves every other slot as it was. */
  lemma DeliverRefines(s: Awaiter, m: Message)
    requires Disjoint(s)
    ensures m.Other? ==> forall k :: View(Deliver(s, m).state, k) == View(s, k)
    ensures m.Status? ==>
      var t := Deliver(s, m);
      var mid := m.status.subjectMessageId;
      var ref := SlotDeliver(View(s, mid), m.status);
      && View(t.state, mid) == ref.slot
      && t.outcome == ref.outcome
      && t.state.signalled == s.signalled + (if ref.outcome.Ok? then Woken(View(s, mid)) else {})
      && forall k :: k != mid ==> View(t.state, k) == View(s, k)
  {
  }

  /** Waking up is `SlotResume` at `id`, and leaves every other slot as it was. */
  lemma ResumeRefines(s: Awaiter, id: Id)
    requires Disjoint(s)
    ensures var t := Resume(s, id);
      var ref := SlotResume(View(s, id), id);
      && View(t.state, id) == ref.slot
      && t.outcome == ref.outcome
      && forall k :: k != id ==> View(t.state, k) == View(s, k)
  {
  }

  /** Timing out is `SlotTimeout` at `id`, and leaves every other slot as it was. */
  lemma TimeoutRefines(s: Awaiter, id: Id)
    requires Disjoint(s)
    ensures var t := Timeout(s, id);
      var ref := SlotTimeout(View(s, id));
      && View(t.state, id) == ref.slot
      && t.outcome == ref.outcome
      && forall k :: k != id ==> View(t.state, k) == View(s, k)
  {
  }
}
