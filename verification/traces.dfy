/** Interleavings of the awaiter's atomic transitions. Any schedule the event
    loop can produce is a sequence of actions; a run records what every caller
    observes, and the properties below hold for every such sequence. */
module Traces {
  import opened Types
  import opened ReceptionStatusAwaiter

  /** One atomic piece of some coroutine: a wait starting, a delivery, a woken
      waiter resuming, or a waiter timing out. */
  datatype Action =
    | Wait(id: Id)
    | Receive(message: Message)
    | Wake(id: Id)
    | Expire(id: Id)

  /** What the coroutine performing an action observes. */
  datatype Observation =
    | Claim(id: Id, status: ReceptionStatus)  // a wait returned this status
    | Suspend(id: Id, handle: Handle)         // a wait suspended on this event
    | Store(id: Id, status: ReceptionStatus)  // a delivery parked this status
    | Raise(error: Error)                     // an exception was raised

  /** 1 if a status for `id` is parked, else 0. */
  function ParkedCount(s: Awaiter, id: Id): nat {
    if id in s.received then 1 else 0
  }

  function ClaimOf(o: Observation, id: Id): nat {
    if o.Claim? && o.id == id then 1 else 0
  }

  function StoreOf(o: Observation, id: Id): nat {
    if o.Store? && o.id == id then 1 else 0
  }

  /** The number of statuses for `id` handed to waiters in `obs`. */
  function Claims(obs: seq<Observation>, id: Id): nat {
    if obs == [] then 0 else ClaimOf(obs[0], id) + Claims(obs[1..], id)
  }

  /** The number of statuses for `id` parked by deliveries in `obs`. */
  function Stores(obs: seq<Observation>, id: Id): nat {
    if obs == [] then 0 else StoreOf(obs[0], id) + Stores(obs[1..], id)
  }

  /** `status` was parked for `id` by one of the first `n` observations. */
  ghost predicate StoredBefore(obs: seq<Observation>, n: int, id: Id, status: ReceptionStatus) {
    exists j :: 0 <= j < n && j < |obs| && obs[j] == Store(id, status)
  }

  /** Perform one action. */
  function Step(s: Awaiter, a: Action): (t: Transition<Observation>)
    // a status is parked or handed out only together with the matching observation
    ensures forall k :: ParkedCount(t.state, k) + ClaimOf(t.outcome, k) == ParkedCount(s, k) + StoreOf(t.outcome, k)
    // whatever is parked afterwards was parked before or was stored just now
    ensures forall k :: k in t.state.received ==>
      (k in s.received && s.received[k] == t.state.received[k]) || t.outcome == Store(k, t.state.received[k])
    // a claimed status is the one that was parked for that id
    ensures t.outcome.Claim? ==> t.outcome.id in s.received && s.received[t.outcome.id] == t.outcome.status
    ensures s.signalled <= t.state.signalled && s.nextHandle <= t.state.nextHandle
    ensures Valid(s) ==> Valid(t.state)
  {
    match a
    case Wait(id) =>
      var w := WaitStart(s, id);
      Transition(w.state, if w.outcome.Claimed? then Claim(id, w.outcome.status) else Suspend(id, w.outcome.handle))
    case Receive(m) =>
      var d := Deliver(s, m);
      Transition(d.state, if d.outcome.Ok? then Store(m.status.subjectMessageId, m.status) else Raise(d.outcome.error))
    case Wake(id) =>
      var r := Resume(s, id);
      Transition(r.state, if r.outcome.Ok? then Claim(id, r.outcome.value) else Raise(r.outcome.error))
    case Expire(id) =>
      var e := Timeout(s, id);
      Transition(e.state, Raise(e.outcome.error))
  }

  /** Perform the actions of `tr` in order, recording one observation each. */
  function Run(s: Awaiter, tr: seq<Action>): (t: Transition<seq<Observation>>)
    ensures |t.outcome| == |tr|
    ensures Valid(s) ==> Valid(t.state)
    // events are never cleared, and event numbers are never reused
    ensures s.signalled <= t.state.signalled && s.nextHandle <= t.state.nextHandle
    decreases |tr|
  {
    if tr == [] then Transition(s, [])
    else
      var first := Step(s, tr[0]);
      var rest := Run(first.state, tr[1..]);
      Transition(rest.state, [first.outcome] + rest.outcome)
  }

  // ---------------------------------------------------------------------------
  // Exactly-once hand-over

  /** Conservation, per id: statuses parked at the end plus statuses handed to
      waiters equal statuses parked at the start plus statuses stored. */
  lemma {:induction false} Conservation(s: Awaiter, tr: seq<Action>, id: Id)
    ensures var t := Run(s, tr);
      ParkedCount(t.state, id) + Claims(t.outcome, id) == ParkedCount(s, id) + Stores(t.outcome, id)
    decreases |tr|
  {
    if tr != [] {
      var first := Step(s, tr[0]);
      var rest := Run(first.state, tr[1..]);
      Conservation(first.state, tr[1..], id);
      var obs := [first.outcome] + rest.outcome;
      assert obs[1..] == rest.outcome;
    }
  }

  /** Starting from a new awaiter, no schedule hands out more statuses for an id
      than deliveries stored for it: each status is claimed at most once. */
  lemma NoDoubleClaim(tr: seq<Action>, id: Id)
    ensures var t := Run(Init(), tr);
      Claims(t.outcome, id) + ParkedCount(t.state, id) == Stores(t.outcome, id)
  {
    Conservation(Init(), tr, id);
  }

  /** The claim recorded at position `i` of `obs` hands out a status that was
      parked in `s` for that id, or that an earlier observation stored. */
  ghost predicate Backed(s: Awaiter, obs: seq<Observation>, i: nat)
    requires i < |obs| && obs[i].Claim?
  {
    var o := obs[i];
    (o.id in s.received && s.received[o.id] == o.status) || StoredBefore(obs, i, o.id, o.status)
  }

  /** Every status a waiter receives was parked for the id it waited on, either
      before the run or by an earlier delivery in it. */
  lemma {:induction false} ClaimsWereDelivered(s: Awaiter, tr: seq<Action>)
    ensures var obs := Run(s, tr).outcome;
      forall i :: 0 <= i < |obs| && obs[i].Claim? ==> Backed(s, obs, i)
    decreases |tr|
  {
    if tr != [] {
      var first := Step(s, tr[0]);
      var rest := Run(first.state, tr[1..]);
      ClaimsWereDelivered(first.state, tr[1..]);
      // the induction hypothesis, restated so that it is instantiated below
      assert var o2 := Run(first.state, tr[1..]).outcome;
        forall k :: 0 <= k < |o2| && o2[k].Claim? ==> Backed(first.state, o2, k);
      var obs := [first.outcome] + rest.outcome;
      assert Run(s, tr).outcome == obs;
      forall i | 0 <= i < |obs| && obs[i].Claim?
        ensures Backed(s, obs, i)
      {
        if i > 0 {
          var o := obs[i];
          assert o == rest.outcome[i - 1];
          assert Backed(first.state, rest.outcome, i - 1);
          if o.id in first.state.received && first.state.received[o.id] == o.status {
            if first.outcome == Store(o.id, o.status) {
              assert obs[0] == Store(o.id, o.status);
            }
          } else {
            var j :| 0 <= j < i - 1 && j < |rest.outcome| && rest.outcome[j] == Store(o.id, o.status);
            assert obs[j + 1] == Store(o.id, o.status);
          }
        }
      }
    }
  }

  // ---------------------------------------------------------------------------
  // The three basic schedules, for any id and status

  /** The waiter arrives first: it suspends on a new event, the delivery sets
      it, and the woken waiter returns the delivered status. Nothing is left. */
  lemma WaitFirst(r: ReceptionStatus)
    ensures var id := r.subjectMessageId;
      var t := Run(Init(), [Wait(id), Receive(Status(r)), Wake(id)]);
      && t.outcome == [Suspend(id, 0), Store(id, r), Claim(id, r)]
      && (forall k :: k !in t.state.received && k !in t.state.awaiting)
      && 0 in t.state.signalled
  {
    var id := r.subjectMessageId;
    var s0 := Init();
    var s1 := Step(s0, Wait(id));
    var s2 := Step(s1.state, Receive(Status(r)));
    var s3 := Step(s2.state, Wake(id));
    assert Run(s2.state, [Wake(id)]).outcome == [s3.outcome];
    assert Run(s2.state, [Wake(id)]).state == s3.state;
    assert [Receive(Status(r)), Wake(id)][1..] == [Wake(id)];
    assert [Wait(id), Receive(Status(r)), Wake(id)][1..] == [Receive(Status(r)), Wake(id)];
  }

  /** The status arrives first: it is parked, and the later wait returns it at
      once without creating an event. Nothing is left. */
  lemma DeliverFirst(r: ReceptionStatus)
    ensures var id := r.subjectMessageId;
      var t := Run(Init(), [Receive(Status(r)), Wait(id)]);
      && t.outcome == [Store(id, r), Claim(id, r)]
      && (forall k :: k !in t.state.received && k !in t.state.awaiting)
      && t.state.nextHandle == 0
  {
    var id := r.subjectMessageId;
    var s1 := Step(Init(), Receive(Status(r)));
    var s2 := Step(s1.state, Wait(id));
    assert [Wait(id)][1..] == [];
    assert Run(s1.state, [Wait(id)]).outcome == [s2.outcome];
    assert Run(s1.state, [Wait(id)]).state == s2.state;
    assert [Receive(Status(r)), Wait(id)][1..] == [Wait(id)];
  }

  /** Nobody delivers: the wait suspends, then times out, and no entry for the
      id remains. */
  lemma NoDelivery(id: Id)
    ensures var t := Run(Init(), [Wait(id), Expire(id)]);
      && t.outcome == [Suspend(id, 0), Raise(TimedOut)]
      && (forall k :: k !in t.state.received && k !in t.state.awaiting)
  {
    var s1 := Step(Init(), Wait(id));
    var s2 := Step(s1.state, Expire(id));
    assert [Expire(id)][1..] == [];
    assert Run(s1.state, [Expire(id)]).outcome == [s2.outcome];
    assert Run(s1.state, [Expire(id)]).state == s2.state;
    assert [Wait(id), Expire(id)][1..] == [Expire(id)];
  }
}
