# ReceptionStatusAwaiter, as a verified state machine

`ReceptionStatusAwaiter` (s2-python) matches reception statuses — the
acknowledgments an S2 peer sends for each message — to the coroutines waiting
for them, keyed by the id of the acknowledged message. It keeps two maps:
`received`, statuses delivered but not yet claimed, and `awaiting`, the
`asyncio.Event` a waiter for an id is suspended on.

asyncio is cooperative and `wait_for_reception_status` suspends at one point
only, so every stretch of code between suspensions runs atomically. The model
makes each stretch one pure transition over an immutable `Awaiter` record
(`received`, `awaiting`, the set of events that have been set, and a counter
that numbers new events):

- `WaitStart` — the fast-path claim, or registering / joining an event;
- `Deliver` — `receive_reception_status`: type guard, duplicate check, store,
  set the waiter's event, unregister it;
- `Resume` — a woken waiter pops the parked status; its `finally` unregisters
  the id;
- `Timeout` — only the `finally` cleanup runs.

Files:

- `types.dfy` — ids, events, reception statuses, messages, errors.
- `awaiter.dfy` — the state, its invariant (`Valid`: the two maps never share
  a key, parked statuses are filed under their own id, registered events are
  unset, distinct and allocated), the transitions and the properties that
  relate them.
- `lifecycle.dfy` — an independent reference: one id's life as a three-state
  machine (`Idle`, `Parked`, `Pending`), and proofs that every transition acts
  on each id exactly as that machine says and leaves all other ids alone.
- `traces.dfy` — arbitrary interleavings of the transitions: the invariant
  holds for every schedule, every status is handed to at most one waiter, and
  every status a waiter gets was delivered for its id.

No precondition restricts when a transition may fire: `Resume` and `Timeout`
are defined in every state, so the trace properties cover every schedule the
event loop can produce and more.

## Model

| member | source | states |
|---|---|---|
| ReceptionStatusAwaiter.Init | src/s2python/reception_status_awaiter.py:19-21 | A new awaiter has no id in either map and satisfies the invariant. |
| ReceptionStatusAwaiter.WaitStart | src/s2python/reception_status_awaiter.py:27-34 | Fast path exactly when a status is parked for the id: that status is returned, the id leaves `received`, and `awaiting`, the events and the counter are untouched. Otherwise the id ends up in `awaiting` under the returned event; an existing event is joined with the state unchanged, else a new one is numbered. Other ids are unchanged; the invariant is preserved. |
| ReceptionStatusAwaiter.Deliver | src/s2python/reception_status_awaiter.py:42-60 | A non-status raises and changes nothing; a status whose id is already parked raises and changes nothing. Otherwise the status is parked under its id, the event registered for that id (if any) is set and no other, the id leaves `awaiting`, other ids are unchanged, and the invariant is preserved. |
| ReceptionStatusAwaiter.Resume | src/s2python/reception_status_awaiter.py:36-40 | Succeeds exactly when a status is parked for the id and returns it; otherwise raises the `KeyError` of `pop`. Either way the id ends in neither map, nothing else changes, and the invariant is preserved. |
| ReceptionStatusAwaiter.Timeout | src/s2python/reception_status_awaiter.py:36-40 | Raises the timeout, removes the id from `awaiting` unconditionally, leaves `received` and every other id unchanged, and preserves the invariant. |
| ReceptionStatusAwaiter.FreshEvent | src/s2python/reception_status_awaiter.py:31-34 | An event created for an id nobody waits on is unset and registered under no other id. |
| ReceptionStatusAwaiter.StoreBeforeSignal | src/s2python/reception_status_awaiter.py:55-60 | A delivery to a waiting id sets that id's event, and the woken waiter's resume returns exactly the delivered status and leaves the id in neither map. |
| ReceptionStatusAwaiter.DeliverThenWait | src/s2python/reception_status_awaiter.py:27-29 | A status delivered before anyone waits is returned by the next wait at once, leaving the id in neither map. |
| ReceptionStatusAwaiter.DuplicateKeepsFirst | src/s2python/reception_status_awaiter.py:50-53 | A second delivery for an unclaimed id raises, and the next wait still claims the first status. |
| ReceptionStatusAwaiter.ClaimedOnce | src/s2python/reception_status_awaiter.py:27-38 | After a claim by either path, the next wait for the id suspends and a new delivery for it is not a duplicate. |
| ReceptionStatusAwaiter.TimeoutForgetsWaiter | src/s2python/reception_status_awaiter.py:36-40 | After a timeout, a delivery for the id parks the status and sets no event: the resulting state is the one with nobody ever waiting. |
| ReceptionStatusAwaiter.TimeoutKeepsParked | src/s2python/reception_status_awaiter.py:36-40 | A status parked while its waiter times out survives the cleanup and is claimed by the next wait. |
| ReceptionStatusAwaiter.SharedEvent | src/s2python/reception_status_awaiter.py:31-38 | Two waits on one id share one event; a delivery sets it; the first resume returns the status and the second raises `KeyError`. |
| ReceptionStatusAwaiter.StrandedWaiter | src/s2python/reception_status_awaiter.py:27-60 | Wait, deliver `r1`, wait, wait, resume the first waiter, deliver `r2` for the same id: the second wait claims `r1`, the third registers a new event, the first waiter's resume raises `KeyError` and unregisters that new event, and `r2` is parked without setting it. |
| Lifecycle.ViewExact | src/s2python/reception_status_awaiter.py:16-17 | With disjoint maps, an id's slot is parked exactly when it is in `received` and pending exactly when it is in `awaiting`, with the same contents. |
| Lifecycle.ViewDetermines | src/s2python/reception_status_awaiter.py:16-17 | Two disjoint states with the same slot for every id, the same set events and the same counter are equal. |
| Lifecycle.WaitStartRefines | src/s2python/reception_status_awaiter.py:27-34 | Starting a wait changes the id's slot and answers as the one-id machine does, and leaves every other slot alone. |
| Lifecycle.DeliverRefines | src/s2python/reception_status_awaiter.py:42-60 | A rejected non-status changes no slot; a status is delivered as the one-id machine does, setting exactly the pending event of its id, and leaves every other slot alone. |
| Lifecycle.ResumeRefines | src/s2python/reception_status_awaiter.py:36-40 | A resume takes what the slot holds, leaves it idle, and leaves every other slot alone. |
| Lifecycle.TimeoutRefines | src/s2python/reception_status_awaiter.py:36-40 | A timeout withdraws a pending event, keeps a parked status, and leaves every other slot alone. |
| Traces.Step | src/s2python/reception_status_awaiter.py:23-60 | Per id, a status is parked or handed out only with a matching store or claim observation; everything parked afterwards was parked before or was just stored; a claimed status is the one parked for that id; events are never unset; the invariant is preserved. |
| Traces.Run | src/s2python/reception_status_awaiter.py:23-60 | Any schedule of transitions preserves the invariant (in particular disjointness of the two maps), never unsets an event and never reuses an event number. |
| Traces.Conservation | src/s2python/reception_status_awaiter.py:27-60 | Over any schedule and for each id, statuses parked at the end plus statuses claimed equal statuses parked at the start plus statuses stored. |
| Traces.NoDoubleClaim | src/s2python/reception_status_awaiter.py:27-60 | From a new awaiter, claims plus the status still parked equal the successful deliveries, for every id: no status is handed out twice. |
| Traces.ClaimsWereDelivered | src/s2python/reception_status_awaiter.py:27-60 | Every status a waiter receives was parked for that id before the schedule or stored for it by an earlier delivery in it. |
| Traces.WaitFirst | src/s2python/reception_status_awaiter.py:23-60 | Wait, deliver, resume: the wait suspends on event 0, the delivery sets it, the resume returns the status, and no entry remains. |
| Traces.DeliverFirst | src/s2python/reception_status_awaiter.py:23-60 | Deliver, then wait: the wait returns the status at once, creates no event, and no entry remains. |
| Traces.NoDelivery | src/s2python/reception_status_awaiter.py:23-40 | Wait with no delivery, then time out: the caller gets the timeout and no entry remains. |

## Left out

- asyncio itself (`asyncio.Event` internals, `asyncio.wait_for`, the scheduler): each suspension is modelled only by which transition runs next, so `Resume` and `Timeout` may fire in any state.
- Cancellation of a waiting task: its `finally` block has exactly the effect of `Timeout` on the state; only the exception the caller sees differs, and the model names only the timeout.
- The timeout duration (a float) and all timing: the model says what happens when a timeout fires, not when.
- The `ReceptionStatus` schema from `s2python.common`, which is not part of this model: a status is its `subject_message_id` plus an opaque body, and any other message is a variant the type guard rejects.
- UUIDs: ids are an abstract type with equality.
- Exception messages: errors carry the offending id or message kind but not the formatted text.
- Several coroutines waiting on one id: the model does what the code does and nothing more. They share one event; a delivery wakes all of them, and the later resumes raise `KeyError` (`SharedEvent`). One might expect a losing waiter to block again until its timeout; instead its `finally` removes whatever event is registered for the id, even one a later waiter created, so that later waiter is never woken and can only time out (`StrandedWaiter`). The model makes no promise about what several waiters on one id should observe.
