/** The tile admission gate: a bounded-concurrency FIFO semaphore with timeouts, aborts and idempotent releases. */
module AdmissionGate {

  datatype Waiter = Waiter(ticket: nat, queuedAt: int)

  datatype Verdict = Admitted | Aborted | QueueFull | TimedOut

  datatype Counters = Counters(admitted: nat, aborted: nat, queueFull: nat, timedOut: nat,
                               maxObservedActive: int, maxObservedQueued: int, maxWaitMs: int)

  const ZERO_COUNTERS := Counters(0, 0, 0, 0, 0, 0, 0)

  /** The n-th acquire call holds ticket n. `verdicts` are the calls whose promise has settled, `outstanding` the
      permits whose release closure has not run, `admissions` the admitted tickets in order, `reported` the calls
      counted by counters that a snapshot has since reset. */
  datatype Gate = Gate(
    maxActive: int,
    maxQueued: int,
    active: int,
    queue: seq<Waiter>,
    counters: Counters,
    calls: nat,
    verdicts: map<nat, Verdict>,
    outstanding: set<nat>,
    admissions: seq<nat>,
    reported: nat)

  function Max(a: int, b: int): int {
    if a >= b then a else b
  }

  function Create(maxActive: int, maxQueued: int): Gate {
    Gate(maxActive, maxQueued, 0, [], ZERO_COUNTERS, 0, map[], {}, [], 0)
  }

  /** A permit changes hands: on the fast path (waited 0) or for a dispatched waiter. */
  function Admit(g: Gate, ticket: nat, waited: int): Gate {
    g.(active := g.active + 1,
       counters := g.counters.(admitted := g.counters.admitted + 1,
                               maxObservedActive := Max(g.counters.maxObservedActive, g.active + 1),
                               maxWaitMs := Max(g.counters.maxWaitMs, waited)),
       verdicts := g.verdicts[ticket := Admitted],
       outstanding := g.outstanding + {ticket},
       admissions := g.admissions + [ticket])
  }

  function Dispatch(g: Gate, now: int): Gate
    decreases |g.queue|
  {
    if g.active < g.maxActive && |g.queue| > 0 then
      var waiter := g.queue[0];
      var shifted := g.(queue := g.queue[1..]);
      if waiter.ticket in g.verdicts then Dispatch(shifted, now)
      else Dispatch(Admit(shifted, waiter.ticket, Max(0, now - waiter.queuedAt)), now)
    else g
  }

  /** acquire: `g.calls` is the new call's ticket. */
  function Acquire(g: Gate, aborted: bool, now: int): Gate {
    var called := g.(calls := g.calls + 1);
    if aborted then
      called.(counters := g.counters.(aborted := g.counters.aborted + 1), verdicts := g.verdicts[g.calls := Aborted])
    else if g.active < g.maxActive && |g.queue| == 0 then Admit(called, g.calls, 0)
    else if |g.queue| >= g.maxQueued then
      called.(counters := g.counters.(queueFull := g.counters.queueFull + 1),
              verdicts := g.verdicts[g.calls := QueueFull])
    else
      var queue := g.queue + [Waiter(g.calls, now)];
      called.(queue := queue,
              counters := g.counters.(maxObservedQueued := Max(g.counters.maxObservedQueued, |queue|)))
  }

  /** queue.indexOf, or |queue| when absent. */
  function IndexOf(queue: seq<Waiter>, ticket: nat): (i: nat)
    ensures i <= |queue| && (i < |queue| ==> queue[i].ticket == ticket)
    ensures forall j | 0 <= j < i :: queue[j].ticket != ticket
  {
    if queue == [] then 0 else if queue[0].ticket == ticket then 0 else 1 + IndexOf(queue[1..], ticket)
  }

  predicate Waiting(g: Gate, ticket: nat) {
    ticket !in g.verdicts && IndexOf(g.queue, ticket) < |g.queue|
  }

  function Removed(g: Gate, ticket: nat, verdict: Verdict): Gate
    requires Waiting(g, ticket)
  {
    var i := IndexOf(g.queue, ticket);
    g.(queue := g.queue[..i] + g.queue[i + 1..], verdicts := g.verdicts[ticket := verdict])
  }

  /** The wait timer of a queued call. */
  function FireTimeout(g: Gate, ticket: nat): Gate {
    if !Waiting(g, ticket) then g
    else Removed(g, ticket, TimedOut).(counters := g.counters.(timedOut := g.counters.timedOut + 1))
  }

  /** The abort listener of a queued call. */
  function FireAbort(g: Gate, ticket: nat): Gate {
    if !Waiting(g, ticket) then g
    else Removed(g, ticket, Aborted).(counters := g.counters.(aborted := g.counters.aborted + 1))
  }

  /** A release closure; running it again does nothing. */
  function Release(g: Gate, ticket: nat, now: int): Gate {
    if ticket !in g.outstanding then g
    else Dispatch(g.(active := Max(0, g.active - 1), outstanding := g.outstanding - {ticket}), now)
  }

  function Settlements(c: Counters): nat {
    c.admitted + c.aborted + c.queueFull + c.timedOut
  }

  function Snapshot(g: Gate, resetCounters: bool): Gate {
    if !resetCounters then g
    else g.(counters := Counters(0, 0, 0, 0, g.active, |g.queue|, 0), reported := g.reported + Settlements(g.counters))
  }

  // ---- What every operation keeps ----

  ghost predicate Ascending(tickets: seq<nat>) {
    forall i, j | 0 <= i < j < |tickets| :: tickets[i] < tickets[j]
  }

  /** Permits: the count is exact and bounded, and nobody waits while a permit is free. */
  ghost predicate PermitsSound(g: Gate) {
    0 < g.maxActive && 0 < g.maxQueued && g.active == |g.outstanding| <= g.maxActive && |g.queue| <= g.maxQueued
  }

  /** Order: tickets wait in calling order, were admitted in calling order, and no admitted ticket is later than a
      waiting one. */
  ghost predicate OrderSound(g: Gate) {
    (forall i, j | 0 <= i < j < |g.queue| :: g.queue[i].ticket < g.queue[j].ticket) &&
    (forall i | 0 <= i < |g.queue| :: g.queue[i].ticket < g.calls) &&
    Ascending(g.admissions) &&
    (forall i | 0 <= i < |g.admissions| :: g.admissions[i] < g.calls) &&
    (forall i, j | 0 <= i < |g.admissions| && 0 <= j < |g.queue| :: g.admissions[i] < g.queue[j].ticket)
  }

  /** Every call so far waits or has settled. */
  ghost predicate NoCallForgotten(g: Gate) {
    forall t: nat {:trigger InQueue(g.queue, t)} | t < g.calls && t !in g.verdicts :: InQueue(g.queue, t)
  }

  /** Settlement: no call both waits and has settled, and the counters count every call. */
  ghost predicate SettlementSound(g: Gate) {
    (forall i | 0 <= i < |g.queue| :: g.queue[i].ticket !in g.verdicts) &&
    (forall t | t in g.verdicts :: t < g.calls) &&
    (forall t | t in g.outstanding :: t in g.verdicts && g.verdicts[t] == Admitted) &&
    g.calls == g.reported + Settlements(g.counters) + |g.queue|
  }

  ghost predicate InQueue(queue: seq<Waiter>, ticket: nat) {
    exists i :: 0 <= i < |queue| && queue[i].ticket == ticket
  }

  ghost predicate Sound(g: Gate) {
    PermitsSound(g) && OrderSound(g) && SettlementSound(g) && NoCallForgotten(g)
  }

  ghost predicate Settled(g: Gate) {
    Sound(g) && (g.queue == [] || g.active == g.maxActive)
  }

  lemma AdmittingKeeps(g: Gate, waiter: Waiter, rest: seq<Waiter>, waited: int)
    requires Sound(g) && g.queue == [waiter] + rest && g.active < g.maxActive
    ensures waiter.ticket !in g.verdicts
    ensures Sound(Admit(g.(queue := rest), waiter.ticket, waited))
  {
    AdmittingKeepsOrder(g, waiter, rest, waited);
    AdmittingKeepsCounts(g, waiter, rest, waited);
    ShiftForgetsNoCall(g, waiter, rest, waited);
  }

  lemma AdmittingKeepsOrder(g: Gate, waiter: Waiter, rest: seq<Waiter>, waited: int)
    requires OrderSound(g) && g.queue == [waiter] + rest
    ensures OrderSound(Admit(g.(queue := rest), waiter.ticket, waited))
  {
    assert waiter == g.queue[0];
    forall i | 0 <= i < |rest| ensures waiter.ticket < rest[i].ticket < g.calls { assert rest[i] == g.queue[i + 1]; }
    forall i, j | 0 <= i < j < |rest| ensures rest[i].ticket < rest[j].ticket {
      assert rest[i] == g.queue[i + 1] && rest[j] == g.queue[j + 1];
    }
    var admitted := g.admissions + [waiter.ticket];
    forall i | 0 <= i < |g.admissions| ensures g.admissions[i] < waiter.ticket {
      assert g.admissions[i] < g.queue[0].ticket;
    }
    assert Ascending(admitted);
  }

  lemma AdmittingKeepsCounts(g: Gate, waiter: Waiter, rest: seq<Waiter>, waited: int)
    requires PermitsSound(g) && OrderSound(g) && SettlementSound(g)
    requires g.queue == [waiter] + rest && g.active < g.maxActive
    ensures waiter.ticket !in g.verdicts
    ensures var after := Admit(g.(queue := rest), waiter.ticket, waited);
            PermitsSound(after) && SettlementSound(after)
  {
    assert waiter == g.queue[0] && waiter.ticket !in g.verdicts && waiter.ticket !in g.outstanding;
    forall i | 0 <= i < |rest| ensures rest[i].ticket != waiter.ticket && rest[i].ticket !in g.verdicts {
      assert rest[i] == g.queue[i + 1];
    }
    assert waiter.ticket < g.calls;
    hide OrderSound;
  }

  lemma ShiftForgetsNoCall(g: Gate, waiter: Waiter, rest: seq<Waiter>, waited: int)
    requires NoCallForgotten(g) && g.queue == [waiter] + rest
    ensures NoCallForgotten(Admit(g.(queue := rest), waiter.ticket, waited))
  {
    forall t: nat | t < g.calls && t !in g.verdicts && t != waiter.ticket ensures InQueue(rest, t) {
      assert InQueue(g.queue, t);
      var i :| 0 <= i < |g.queue| && g.queue[i].ticket == t;
      assert rest[i - 1].ticket == t;
    }
  }

  lemma {:induction false} DispatchingKeeps(g: Gate, now: int)
    requires Sound(g)
    ensures Settled(Dispatch(g, now))
    ensures forall t | t in g.verdicts :: t in Dispatch(g, now).verdicts && Dispatch(g, now).verdicts[t] == g.verdicts[t]
    ensures g.admissions <= Dispatch(g, now).admissions
    decreases |g.queue|
  {
    if g.active < g.maxActive && |g.queue| > 0 {
      var waiter := g.queue[0];
      assert g.queue == [waiter] + g.queue[1..];
      AdmittingKeeps(g, waiter, g.queue[1..], Max(0, now - waiter.queuedAt));
      hide Sound;
      DispatchingKeeps(Admit(g.(queue := g.queue[1..]), waiter.ticket, Max(0, now - waiter.queuedAt)), now);
    }
  }

  /** A settled call never settles again: verdicts are only added. */
  ghost predicate VerdictsStand(before: Gate, after: Gate) {
    forall t | t in before.verdicts :: t in after.verdicts && after.verdicts[t] == before.verdicts[t]
  }

  lemma AcquiringKeeps(g: Gate, aborted: bool, now: int)
    requires Settled(g)
    ensures Settled(Acquire(g, aborted, now)) && VerdictsStand(g, Acquire(g, aborted, now))
  {
    AcquiringForgetsNoCall(g, aborted, now);
    AcquiringKeepsOrder(g, aborted, now);
    hide NoCallForgotten, OrderSound;
  }

  predicate SettlesAtOnce(g: Gate, aborted: bool) {
    aborted || (g.active < g.maxActive && g.queue == []) || |g.queue| >= g.maxQueued
  }

  lemma SettledBounds(g: Gate)
    requires Settled(g)
    ensures g.active <= g.maxActive && |g.queue| <= g.maxQueued && g.calls !in g.outstanding
    ensures g.active < g.maxActive ==> g.queue == []
  {}

  lemma AcquiringSettles(g: Gate, aborted: bool, now: int)
    requires Settled(g)
    ensures g.calls in Acquire(g, aborted, now).verdicts <==> SettlesAtOnce(g, aborted)
  {
    assert g.calls !in g.verdicts;
    hide Settled;
  }

  lemma AcquiringKeepsOrder(g: Gate, aborted: bool, now: int)
    requires OrderSound(g)
    ensures OrderSound(Acquire(g, aborted, now))
  {}

  lemma AcquiringForgetsNoCall(g: Gate, aborted: bool, now: int)
    requires NoCallForgotten(g)
    ensures NoCallForgotten(Acquire(g, aborted, now))
  {
    var after := Acquire(g, aborted, now);
    forall t: nat | t < after.calls && t !in after.verdicts ensures InQueue(after.queue, t) {
      if t < g.calls {
        assert InQueue(g.queue, t);
        var i :| 0 <= i < |g.queue| && g.queue[i].ticket == t;
        assert after.queue[i].ticket == t;
      } else {
        assert after.queue[|g.queue|].ticket == t;
      }
    }
  }

  lemma RemovedIsOrdered(g: Gate, ticket: nat, verdict: Verdict)
    requires OrderSound(g) && SettlementSound(g) && Waiting(g, ticket)
    ensures var after := Removed(g, ticket, verdict);
            && OrderSound(after) && |after.queue| == |g.queue| - 1
            && (forall i | 0 <= i < |after.queue| :: after.queue[i].ticket !in after.verdicts)
            && ticket < g.calls && ticket !in g.outstanding
  {
    RemovedStays(g, ticket, verdict);
    hide Removed;
  }

  lemma RemovedStays(g: Gate, ticket: nat, verdict: Verdict)
    requires Waiting(g, ticket)
    ensures var i, after := IndexOf(g.queue, ticket), Removed(g, ticket, verdict);
            && g.queue[i].ticket == ticket && |after.queue| == |g.queue| - 1
            && after.verdicts == g.verdicts[ticket := verdict]
            && after == g.(queue := after.queue, verdicts := after.verdicts)
            && forall j | 0 <= j < |after.queue| :: after.queue[j] == g.queue[if j < i then j else j + 1]
  {}

  lemma RemovingForgetsNoCall(g: Gate, ticket: nat, verdict: Verdict)
    requires NoCallForgotten(g) && Waiting(g, ticket)
    ensures NoCallForgotten(Removed(g, ticket, verdict))
  {
    var i, after := IndexOf(g.queue, ticket), Removed(g, ticket, verdict);
    forall t: nat | t < g.calls && t !in after.verdicts ensures InQueue(after.queue, t) {
      assert InQueue(g.queue, t);
      var j :| 0 <= j < |g.queue| && g.queue[j].ticket == t;
      assert after.queue[if j < i then j else j - 1].ticket == t;
    }
  }

  lemma TimingOutKeeps(g: Gate, ticket: nat)
    requires Settled(g)
    ensures Settled(FireTimeout(g, ticket)) && VerdictsStand(g, FireTimeout(g, ticket))
  {
    if Waiting(g, ticket) {
      RemovedIsOrdered(g, ticket, TimedOut);
      RemovingForgetsNoCall(g, ticket, TimedOut);
    }
  }

  lemma AbortingKeeps(g: Gate, ticket: nat)
    requires Settled(g)
    ensures Settled(FireAbort(g, ticket)) && VerdictsStand(g, FireAbort(g, ticket))
  {
    if Waiting(g, ticket) {
      RemovedIsOrdered(g, ticket, Aborted);
      RemovingForgetsNoCall(g, ticket, Aborted);
    }
  }

  /** An effective release finds the count positive: the clamp at zero never acts. */
  lemma ReleasingKeeps(g: Gate, ticket: nat, now: int)
    requires Settled(g)
    ensures ticket in g.outstanding ==> g.active >= 1
    ensures Settled(Release(g, ticket, now)) && VerdictsStand(g, Release(g, ticket, now))
    ensures ticket !in Release(g, ticket, now).outstanding
  {
    if ticket in g.outstanding {
      assert |g.outstanding - {ticket}| == |g.outstanding| - 1;
      var freed := g.(active := Max(0, g.active - 1), outstanding := g.outstanding - {ticket});
      DispatchingKeeps(freed, now);
      DispatchingAddsWaiters(freed, now, ticket);
    }
  }

  lemma {:induction false} DispatchingAddsWaiters(g: Gate, now: int, ticket: nat)
    requires Sound(g) && ticket in g.verdicts && ticket !in g.outstanding
    ensures ticket !in Dispatch(g, now).outstanding
    decreases |g.queue|
  {
    if g.active < g.maxActive && |g.queue| > 0 {
      var waiter := g.queue[0];
      assert g.queue == [waiter] + g.queue[1..];
      AdmittingKeeps(g, waiter, g.queue[1..], Max(0, now - waiter.queuedAt));
      DispatchingAddsWaiters(Admit(g.(queue := g.queue[1..]), waiter.ticket, Max(0, now - waiter.queuedAt)), now,
                             ticket);
    }
  }

  // ---- Runs ----

  datatype Event =
    | AcquireCall(aborted: bool, now: int)
    | TimeoutFires(ticket: nat)
    | AbortFires(ticket: nat)
    | ReleaseCall(ticket: nat, now: int)
    | SnapshotCall(resetCounters: bool)

  ghost function Next(g: Gate, e: Event): (next: Gate)
    requires Settled(g)
    ensures Settled(next) && VerdictsStand(g, next)
  {
    match e
    case AcquireCall(aborted, now) => AcquiringKeeps(g, aborted, now); Acquire(g, aborted, now)
    case TimeoutFires(t) => TimingOutKeeps(g, t); FireTimeout(g, t)
    case AbortFires(t) => AbortingKeeps(g, t); FireAbort(g, t)
    case ReleaseCall(t, now) => ReleasingKeeps(g, t, now); Release(g, t, now)
    case SnapshotCall(reset) => Snapshot(g, reset)
  }

  ghost function RunFrom(g: Gate, events: seq<Event>): (end: Gate)
    requires Settled(g)
    ensures Settled(end) && VerdictsStand(g, end)
    decreases |events|
  {
    if events == [] then g else RunFrom(Next(g, events[0]), events[1..])
  }

  /** Exact bounded permits, no idle permit beside a waiter, admission in calling order with no waiter overtaken, one
      settlement per call, and no call lost across counter resets. */
  ghost predicate Orderly(g: Gate) {
    && g.active == |g.outstanding| <= g.maxActive && |g.queue| <= g.maxQueued
    && (g.queue != [] ==> g.active == g.maxActive)
    && Ascending(g.admissions)
    && (forall i, j | 0 <= i < |g.admissions| && 0 <= j < |g.queue| :: g.admissions[i] < g.queue[j].ticket)
    && (forall t: nat {:trigger InQueue(g.queue, t)} | t < g.calls :: InQueue(g.queue, t) <==> t !in g.verdicts)
    && g.calls == g.reported + Settlements(g.counters) + |g.queue|
  }

  lemma SettledIsOrderly(g: Gate)
    requires Settled(g)
    ensures Orderly(g)
  {}

  lemma CreateIsSettled(maxActive: int, maxQueued: int)
    requires maxActive > 0 && maxQueued > 0
    ensures Settled(Create(maxActive, maxQueued))
  {
    CreateHasPermits(maxActive, maxQueued);
    CreateHasNothing(maxActive, maxQueued);
    hide PermitsSound, OrderSound, SettlementSound, NoCallForgotten;
  }

  lemma CreateHasPermits(maxActive: int, maxQueued: int)
    requires maxActive > 0 && maxQueued > 0
    ensures PermitsSound(Create(maxActive, maxQueued))
  {}

  lemma CreateHasNothing(maxActive: int, maxQueued: int)
    ensures var g := Create(maxActive, maxQueued);
            OrderSound(g) && SettlementSound(g) && NoCallForgotten(g)
  {
    var g := Create(maxActive, maxQueued);
    NothingIsOrdered(g);
    NothingIsSettled(g);
    NothingIsForgotten(g);
    hide OrderSound, SettlementSound, NoCallForgotten;
  }

  lemma NothingIsOrdered(g: Gate)
    requires |g.queue| == 0 && |g.admissions| == 0
    ensures OrderSound(g)
  {}

  lemma NothingIsSettled(g: Gate)
    requires |g.queue| == 0 && (forall t :: t !in g.verdicts) && forall t :: t !in g.outstanding
    requires g.calls == 0 == g.reported + Settlements(g.counters)
    ensures SettlementSound(g)
  {}

  lemma NothingIsForgotten(g: Gate)
    requires g.calls == 0
    ensures NoCallForgotten(g)
  {}

  /** Every run of a gate is orderly. */
  lemma GateHolds(maxActive: int, maxQueued: int, events: seq<Event>)
    requires maxActive > 0 && maxQueued > 0
    ensures Settled(Create(maxActive, maxQueued)) && Orderly(RunFrom(Create(maxActive, maxQueued), events))
  {
    CreateIsSettled(maxActive, maxQueued);
    hide Settled;
    SettledIsOrderly(RunFrom(Create(maxActive, maxQueued), events));
  }

  /** A call that has settled after some events keeps that settlement after any further events. */
  lemma SettledOnce(g: Gate, events: seq<Event>, more: seq<Event>, ticket: nat)
    requires Settled(g) && ticket in RunFrom(g, events).verdicts
    ensures ticket in RunFrom(RunFrom(g, events), more).verdicts
    ensures RunFrom(RunFrom(g, events), more).verdicts[ticket] == RunFrom(g, events).verdicts[ticket]
  {}

  /** A waiting call is admitted, in order, by the first releases that free a permit. */
  lemma ReleaseAdmitsHead(g: Gate, ticket: nat, now: int)
    requires Settled(g) && ticket in g.outstanding && g.queue != []
    ensures var after := Release(g, ticket, now);
            && after.admissions == g.admissions + [g.queue[0].ticket]
            && after.queue == g.queue[1..] && after.active == g.active
            && after.outstanding == g.outstanding - {ticket} + {g.queue[0].ticket}
            && after.verdicts == g.verdicts[g.queue[0].ticket := Admitted]
            && AdmissionCounted(g.counters, after.counters, g.active,
                                if now < g.queue[0].queuedAt then 0 else now - g.queue[0].queuedAt)
  {
    assert g.queue[0].ticket !in g.verdicts;
    ReleasingKeeps(g, ticket, now);
    var freed := g.(active := g.active - 1, outstanding := g.outstanding - {ticket});
    var waited := Max(0, now - g.queue[0].queuedAt);
    var admitted := Admit(freed.(queue := g.queue[1..]), g.queue[0].ticket, waited);
    assert Dispatch(freed, now) == Dispatch(admitted, now) == admitted;
  }

  // ---- Which verdict a call gets, and when ----

  /** acquire, in the gate's own fields: Aborted exactly when the signal was, Admitted with its permit out exactly when
      a permit was free, QueueFull exactly when none was and the queue was full; otherwise the call waits last. Nothing
      else changes but the counter of that verdict. */
  lemma AcquireVerdict(g: Gate, aborted: bool, now: int)
    requires Settled(g)
    ensures var after := Acquire(g, aborted, now);
            && after.calls == g.calls + 1 && g.calls !in g.verdicts && g.calls !in g.outstanding
            && (aborted ==>
                  && after.verdicts == g.verdicts[g.calls := Aborted]
                  && after.queue == g.queue && after.outstanding == g.outstanding && after.active == g.active
                  && after.counters == g.counters.(aborted := g.counters.aborted + 1))
            && (!aborted && g.active < g.maxActive ==>
                  && after.verdicts == g.verdicts[g.calls := Admitted]
                  && after.queue == [] == g.queue
                  && after.outstanding == g.outstanding + {g.calls} && after.active == g.active + 1
                  && after.admissions == g.admissions + [g.calls]
                  && AdmissionCounted(g.counters, after.counters, g.active + 1, 0))
            && (!aborted && g.active == g.maxActive && |g.queue| == g.maxQueued ==>
                  && after.verdicts == g.verdicts[g.calls := QueueFull]
                  && after.queue == g.queue && after.outstanding == g.outstanding && after.active == g.active
                  && after.counters == g.counters.(queueFull := g.counters.queueFull + 1))
            && (!aborted && g.active == g.maxActive && |g.queue| < g.maxQueued ==>
                  && after.verdicts == g.verdicts
                  && after.queue == g.queue + [Waiter(g.calls, now)]
                  && after.outstanding == g.outstanding && after.active == g.active
                  && after.counters == g.counters.(maxObservedQueued :=
                       if g.counters.maxObservedQueued < |g.queue| + 1 then |g.queue| + 1
                       else g.counters.maxObservedQueued))
  {
    hide OrderSound, NoCallForgotten;
  }

  /** One more admission, with that many permits then out, after that wait; the maxima rise to them. */
  predicate AdmissionCounted(before: Counters, after: Counters, active: int, waited: int) {
    && after.admitted == before.admitted + 1
    && after.maxObservedActive == (if before.maxObservedActive < active then active else before.maxObservedActive)
    && after.maxWaitMs == (if before.maxWaitMs < waited then waited else before.maxWaitMs)
    && after.maxObservedQueued == before.maxObservedQueued
    && after.aborted == before.aborted && after.queueFull == before.queueFull && after.timedOut == before.timedOut
  }

  /** The wait timer, in the gate's own fields: a waiting call leaves the queue with TimedOut; any other is left alone. */
  lemma TimeoutVerdict(g: Gate, ticket: nat)
    requires Settled(g)
    ensures var after := FireTimeout(g, ticket);
            && (InQueue(g.queue, ticket) ==>
                  && after.verdicts == g.verdicts[ticket := TimedOut]
                  && LeavesQueue(g.queue, after.queue, ticket)
                  && after.counters == g.counters.(timedOut := g.counters.timedOut + 1)
                  && after.active == g.active && after.outstanding == g.outstanding)
            && (!InQueue(g.queue, ticket) ==> after == g)
  {
    LeavingQueue(g, ticket);
    hide OrderSound, NoCallForgotten, InQueue, LeavesQueue;
  }

  /** The abort listener likewise, with Aborted. */
  lemma AbortVerdict(g: Gate, ticket: nat)
    requires Settled(g)
    ensures var after := FireAbort(g, ticket);
            && (InQueue(g.queue, ticket) ==>
                  && after.verdicts == g.verdicts[ticket := Aborted]
                  && LeavesQueue(g.queue, after.queue, ticket)
                  && after.counters == g.counters.(aborted := g.counters.aborted + 1)
                  && after.active == g.active && after.outstanding == g.outstanding)
            && (!InQueue(g.queue, ticket) ==> after == g)
  {
    LeavingQueue(g, ticket);
    hide OrderSound, NoCallForgotten, InQueue, LeavesQueue;
  }

  /** The queue without that ticket, in the same order. */
  ghost predicate LeavesQueue(before: seq<Waiter>, after: seq<Waiter>, ticket: nat) {
    !InQueue(after, ticket) &&
    exists i :: 0 <= i < |before| && before[i].ticket == ticket && after == before[..i] + before[i + 1..]
  }

  lemma LeavingQueue(g: Gate, ticket: nat)
    requires OrderSound(g) && SettlementSound(g)
    ensures InQueue(g.queue, ticket) <==> Waiting(g, ticket)
    ensures Waiting(g, ticket) ==>
              var i := IndexOf(g.queue, ticket);
              LeavesQueue(g.queue, g.queue[..i] + g.queue[i + 1..], ticket)
  {
    var i := IndexOf(g.queue, ticket);
    if i < |g.queue| {
      var after := g.queue[..i] + g.queue[i + 1..];
      assert g.queue[i].ticket !in g.verdicts;
      forall j | 0 <= j < |after| ensures after[j].ticket != ticket {
        assert after[j] == if j < i then g.queue[j] else g.queue[j + 1];
      }
    }
  }

  /** A release closure, in the gate's own fields: the first run frees the permit or hands it to the head of the queue,
      any further one does nothing. */
  lemma ReleaseFrees(g: Gate, ticket: nat, now: int)
    requires Settled(g)
    ensures var after := Release(g, ticket, now);
            && (ticket !in g.outstanding ==> after == g)
            && (ticket in g.outstanding && g.queue == [] ==>
                  after == g.(active := g.active - 1, outstanding := g.outstanding - {ticket}))
            && (ticket in g.outstanding && g.queue != [] ==>
                  && after.queue == g.queue[1..] && after.active == g.active
                  && after.outstanding == g.outstanding - {ticket} + {g.queue[0].ticket}
                  && after.verdicts == g.verdicts[g.queue[0].ticket := Admitted]
                  && AdmissionCounted(g.counters, after.counters, g.active,
                                      if now < g.queue[0].queuedAt then 0 else now - g.queue[0].queuedAt))
  {
    if ticket in g.outstanding {
      ReleasingKeeps(g, ticket, now);
      if g.queue != [] { ReleaseAdmitsHead(g, ticket, now); }
      hide OrderSound, NoCallForgotten, SettlementSound;
    }
  }

  /** In every run, a call was turned away for a full queue only when all permits were out and the queue was full. */
  lemma {:induction false} QueueFullOnlyWhenFull(g: Gate, events: seq<Event>, ticket: nat) returns (n: nat)
    requires Settled(g) && ticket !in g.verdicts
    requires ticket in RunFrom(g, events).verdicts && RunFrom(g, events).verdicts[ticket] == QueueFull
    ensures n < |events| && events[n].AcquireCall? && !events[n].aborted
    ensures var before := RunFrom(g, events[..n]);
            before.calls == ticket && before.active == before.maxActive && |before.queue| == before.maxQueued
    decreases |events|
  {
    var next := Next(g, events[0]);
    RunUnfolds(g, events);
    if ticket in next.verdicts {
      n := 0;
      OnlyAcquireSaysFull(g, events[0], ticket);
    } else {
      var m := QueueFullOnlyWhenFull(next, events[1..], ticket);
      n := m + 1;
      PrefixUnfolds(g, events, m);
    }
    hide RunFrom, Next, Settled;
  }

  lemma RunUnfolds(g: Gate, events: seq<Event>)
    requires Settled(g)
    ensures RunFrom(g, []) == g && events[..0] == []
    ensures events == [] ==> RunFrom(g, events) == g
    ensures events != [] ==> RunFrom(g, events) == RunFrom(Next(g, events[0]), events[1..])
    ensures events != [] ==> VerdictsStand(Next(g, events[0]), RunFrom(g, events))
  {}

  lemma PrefixUnfolds(g: Gate, events: seq<Event>, m: nat)
    requires Settled(g) && m < |events|
    ensures RunFrom(g, events[..m + 1]) == RunFrom(Next(g, events[0]), events[1..][..m])
  {
    var prefix := events[..m + 1];
    assert prefix[0] == events[0] && prefix[1..] == events[1..][..m];
    RunUnfolds(g, prefix);
  }

  lemma OnlyAcquireSaysFull(g: Gate, e: Event, ticket: nat)
    requires Settled(g) && ticket !in g.verdicts && ticket in Next(g, e).verdicts
    requires Next(g, e).verdicts[ticket] == QueueFull
    ensures e.AcquireCall? && !e.aborted
    ensures g.calls == ticket && g.active == g.maxActive && |g.queue| == g.maxQueued
  {
    match e
    case AcquireCall(aborted, now) => AcquireVerdict(g, aborted, now);
    case TimeoutFires(t) => TimeoutVerdict(g, t);
    case AbortFires(t) => AbortVerdict(g, t);
    case ReleaseCall(t, now) => ReleaseFrees(g, t, now);
    case SnapshotCall(_) =>
  }

  // ---- The gate as the middleware holds it ----

  class TileGate {
    const maxActive: int
    const maxQueued: int
    var active: int
    var queue: seq<Waiter>
    var counters: Counters
    var calls: nat
    var verdicts: map<nat, Verdict>
    var outstanding: set<nat>
    ghost var admissions: seq<nat>
    ghost var reported: nat

    ghost function View(): Gate
      reads this
    {
      Gate(maxActive, maxQueued, active, queue, counters, calls, verdicts, outstanding, admissions, reported)
    }

    constructor (maxActive: int, maxQueued: int)
      ensures View() == Create(maxActive, maxQueued)
    {
      this.maxActive, this.maxQueued := maxActive, maxQueued;
      active, queue, counters := 0, [], ZERO_COUNTERS;
      calls, verdicts, outstanding, admissions, reported := 0, map[], {}, [], 0;
    }

    method Grant(ticket: nat, waited: int)
      modifies this
      ensures View() == Admit(old(View()), ticket, waited)
    {
      active := active + 1;
      counters := counters.(admitted := counters.admitted + 1,
                            maxObservedActive := Max(counters.maxObservedActive, active),
                            maxWaitMs := Max(counters.maxWaitMs, waited));
      verdicts, outstanding, admissions := verdicts[ticket := Admitted], outstanding + {ticket}, admissions + [ticket];
    }

    method DispatchWaiters(now: int)
      modifies this
      ensures View() == Dispatch(old(View()), now)
    {
      while active < maxActive && |queue| > 0
        invariant Dispatch(View(), now) == Dispatch(old(View()), now)
        decreases |queue|
      {
        var waiter := queue[0];
        queue := queue[1..];
        if waiter.ticket in verdicts { continue; }
        Grant(waiter.ticket, Max(0, now - waiter.queuedAt));
      }
    }

    /** A call that has not settled waits. */
    method AcquirePermit(aborted: bool, now: int) returns (ticket: nat, settled: bool)
      requires Settled(View())
      modifies this
      ensures View() == Acquire(old(View()), aborted, now) && Settled(View())
      ensures ticket == old(calls) && (settled <==> ticket in verdicts)
      ensures ticket in verdicts && verdicts[ticket] == Aborted <==> aborted
      ensures ticket in verdicts && verdicts[ticket] == Admitted <==> !aborted && old(active) < maxActive
      ensures ticket in outstanding <==> !aborted && old(active) < maxActive
      ensures ticket in verdicts && verdicts[ticket] == QueueFull <==>
                !aborted && old(active) >= maxActive && |old(queue)| >= maxQueued
      ensures queue == if !aborted && old(active) >= maxActive && |old(queue)| < maxQueued
                       then old(queue) + [Waiter(ticket, now)] else old(queue)
    {
      AcquiringKeeps(View(), aborted, now);
      AcquiringSettles(View(), aborted, now);
      AcquireVerdict(View(), aborted, now);
      SettledBounds(View());
      hide Settled, Acquire;
      ticket, settled := Enter(aborted, now);
    }

    method Enter(aborted: bool, now: int) returns (ticket: nat, settled: bool)
      modifies this
      ensures View() == Acquire(old(View()), aborted, now)
      ensures ticket == old(calls) && settled == SettlesAtOnce(old(View()), aborted)
    {
      ticket, settled := calls, true;
      calls := calls + 1;
      if aborted {
        counters, verdicts := counters.(aborted := counters.aborted + 1), verdicts[ticket := Aborted];
      } else if active < maxActive && |queue| == 0 {
        Grant(ticket, 0);
      } else if |queue| >= maxQueued {
        counters, verdicts := counters.(queueFull := counters.queueFull + 1), verdicts[ticket := QueueFull];
      } else {
        queue := queue + [Waiter(ticket, now)];
        counters := counters.(maxObservedQueued := Max(counters.maxObservedQueued, |queue|));
        settled := false;
      }
    }

    method ReleasePermit(ticket: nat, now: int)
      requires Settled(View())
      modifies this
      ensures View() == Release(old(View()), ticket, now) && Settled(View())
      ensures ticket !in outstanding && (ticket !in old(outstanding) ==> View() == old(View()))
      ensures ticket in old(outstanding) && old(queue) == [] ==>
                outstanding == old(outstanding) - {ticket} && active == old(active) - 1
      ensures ticket in old(outstanding) && old(queue) != [] ==>
                outstanding == old(outstanding) - {ticket} + {old(queue)[0].ticket} && queue == old(queue)[1..]
    {
      ReleasingKeeps(View(), ticket, now);
      ReleaseFrees(View(), ticket, now);
      if ticket !in outstanding { return; }
      outstanding := outstanding - {ticket};
      active := Max(0, active - 1);
      DispatchWaiters(now);
    }

    method TimeOut(ticket: nat)
      requires Settled(View())
      modifies this
      ensures View() == FireTimeout(old(View()), ticket) && Settled(View())
      ensures InQueue(old(queue), ticket) ==>
                verdicts == old(verdicts)[ticket := TimedOut] && LeavesQueue(old(queue), queue, ticket)
      ensures !InQueue(old(queue), ticket) ==> View() == old(View())
    {
      TimingOutKeeps(View(), ticket);
      TimeoutVerdict(View(), ticket);
      hide Settled, InQueue, LeavesQueue, FireTimeout;
      ExpireWait(ticket);
    }

    method ExpireWait(ticket: nat)
      modifies this
      ensures View() == FireTimeout(old(View()), ticket)
    {
      var i := IndexOf(queue, ticket);
      if ticket in verdicts || i == |queue| { return; }
      queue, verdicts := queue[..i] + queue[i + 1..], verdicts[ticket := TimedOut];
      counters := counters.(timedOut := counters.timedOut + 1);
    }

    method AbortWait(ticket: nat)
      requires Settled(View())
      modifies this
      ensures View() == FireAbort(old(View()), ticket) && Settled(View())
      ensures InQueue(old(queue), ticket) ==>
                verdicts == old(verdicts)[ticket := Aborted] && LeavesQueue(old(queue), queue, ticket)
      ensures !InQueue(old(queue), ticket) ==> View() == old(View())
    {
      AbortingKeeps(View(), ticket);
      AbortVerdict(View(), ticket);
      hide Settled, InQueue, LeavesQueue, FireAbort;
      DropWait(ticket);
    }

    method DropWait(ticket: nat)
      modifies this
      ensures View() == FireAbort(old(View()), ticket)
    {
      var i := IndexOf(queue, ticket);
      if ticket in verdicts || i == |queue| { return; }
      queue, verdicts := queue[..i] + queue[i + 1..], verdicts[ticket := Aborted];
      counters := counters.(aborted := counters.aborted + 1);
    }

    method TakeSnapshot(resetCounters: bool) returns (inUse: int, queued: nat, taken: Counters)
      requires Settled(View())
      modifies this
      ensures View() == Snapshot(old(View()), resetCounters) && Settled(View())
      ensures inUse == active && queued == |queue| && taken == old(counters)
      ensures counters == if resetCounters then Counters(0, 0, 0, 0, active, |queue|, 0) else old(counters)
      ensures active == old(active) && queue == old(queue) && verdicts == old(verdicts) && outstanding == old(outstanding)
    {
      inUse, queued, taken := active, |queue|, counters;
      if resetCounters {
        reported := reported + Settlements(counters);
        counters := Counters(0, 0, 0, 0, active, |queue|, 0);
      }
    }
  }
}
