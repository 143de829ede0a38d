/** The Express middleware around the gate: each request returns its permit exactly once, in every interleaving. */
module TileAdmission {
  import opened AdmissionGate

  /** `Awaiting` until the middleware continues after its acquire call, `Serving` while the route may run. */
  datatype Phase = Awaiting | Serving | Done

  /** `listening`: the abort listeners on the request and the response are installed; `finisher`: the finish closure is
      installed on the response's finish and close events and in its locals; `returned` counts calls of the release
      closure; `busy` says whether a 503 was sent. */
  datatype Request = Request(phase: Phase, listening: bool, controllerAborted: bool, requestAborted: bool,
                             responseClosed: bool, finisher: bool, released: bool, returned: nat, busy: bool)

  /** A request is known by the ticket of its one acquire call. */
  datatype World = World(gate: Gate, requests: map<nat, Request>)

  datatype Event =
    | Arrives(alreadyAborted: bool, now: int)
    | TimesOut(t: nat)
    | RequestAborts(t: nat)
    | ResponseFinishes(t: nat, now: int)
    | ResponseCloses(t: nat, now: int)
    | Continues(t: nat, nextThrows: bool, now: int)
    | ReleasesEarly(t: nat, now: int)

  /** The finish closure. */
  function Finish(w: World, t: nat, now: int): World
    requires t in w.requests
  {
    var r := w.requests[t];
    if r.released then w
    else World(Release(w.gate, t, now),
               w.requests[t := r.(phase := Done, released := true, finisher := false, listening := false,
                                  returned := r.returned + 1)])
  }

  /** controller.abort(): the signal fires once, and only its first firing reaches the gate. */
  function AbortController(w: World, t: nat): World
    requires t in w.requests
  {
    var r := w.requests[t];
    if !r.listening || r.controllerAborted then w
    else World(FireAbort(w.gate, t), w.requests[t := r.(controllerAborted := true)])
  }

  function ContinueAdmitted(w: World, t: nat, nextThrows: bool, now: int): World
    requires t in w.requests
  {
    var r := w.requests[t];
    if r.controllerAborted || r.requestAborted || r.responseClosed then
      World(Release(w.gate, t, now), w.requests[t := r.(phase := Done, listening := false, returned := r.returned + 1)])
    else
      var serving := w.(requests := w.requests[t := r.(phase := Serving, finisher := true)]);
      if nextThrows then Finish(serving, t, now) else serving
  }

  function Step(w: World, e: Event): World {
    match e
    case Arrives(alreadyAborted, now) =>
      World(Acquire(w.gate, false, now),
            w.requests[w.gate.calls := Request(Awaiting, true, false, alreadyAborted, false, false, false, 0, false)])
    case TimesOut(t) => w.(gate := FireTimeout(w.gate, t))
    case RequestAborts(t) =>
      if t !in w.requests then w
      else AbortController(w.(requests := w.requests[t := w.requests[t].(requestAborted := true)]), t)
    case ResponseFinishes(t, now) =>
      if t in w.requests && w.requests[t].finisher then Finish(w, t, now) else w
    case ResponseCloses(t, now) =>
      if t !in w.requests then w
      else
        var aborted := AbortController(w.(requests := w.requests[t := w.requests[t].(responseClosed := true)]), t);
        if w.requests[t].finisher then Finish(aborted, t, now) else aborted
    case Continues(t, nextThrows, now) =>
      if t !in w.requests || w.requests[t].phase != Awaiting || t !in w.gate.verdicts then w
      else if w.gate.verdicts[t] == Admitted then ContinueAdmitted(w, t, nextThrows, now)
      else w.(requests := w.requests[t := w.requests[t].(phase := Done, listening := false,
                                                         busy := w.gate.verdicts[t] != Aborted)])
    case ReleasesEarly(t, now) =>
      if t in w.requests && w.requests[t].finisher then Finish(w, t, now) else w
  }

  function Init(maxActive: int, maxQueued: int): World {
    World(Create(maxActive, maxQueued), map[])
  }

  // ---- Permits held by requests ----

  predicate WasAdmitted(w: World, t: nat) {
    t in w.gate.verdicts && w.gate.verdicts[t] == Admitted
  }

  /** What one request's record says about the gate. */
  ghost predicate RequestSound(w: World, t: nat)
    requires t in w.requests
  {
    var r := w.requests[t];
    (t in w.gate.outstanding <==> WasAdmitted(w, t) && r.phase != Done) &&
    (r.phase != Awaiting ==> t in w.gate.verdicts) &&
    (r.phase == Serving ==> WasAdmitted(w, t) && !r.responseClosed) &&
    (r.finisher <==> r.phase == Serving) && (r.finisher ==> !r.released) && (r.released ==> r.phase == Done) &&
    (r.phase != Done ==> r.listening) &&
    (r.returned == if WasAdmitted(w, t) && r.phase == Done then 1 else 0) &&
    (r.phase == Awaiting && r.controllerAborted ==> t in w.gate.verdicts)
  }

  ghost predicate Consistent(w: World) {
    Settled(w.gate) &&
    (forall t: nat :: t in w.requests <==> t < w.gate.calls) &&
    forall t | t in w.requests :: RequestSound(w, t)
  }

  /** A dispatch grants permits to waiting calls only, and settles exactly those it grants. */
  lemma {:induction false} DispatchGrants(g: Gate, now: int, t: nat)
    requires Sound(g)
    ensures var d := Dispatch(g, now);
            && d.calls == g.calls
            && (t in d.outstanding <==> t in g.outstanding || (t !in g.verdicts && t in d.verdicts))
            && (t in g.verdicts ==> t in d.verdicts && d.verdicts[t] == g.verdicts[t])
            && (t !in g.verdicts && t in d.verdicts ==> d.verdicts[t] == Admitted)
    decreases |g.queue|
  {
    if g.active < g.maxActive && |g.queue| > 0 {
      var waiter := g.queue[0];
      var waited := Max(0, now - waiter.queuedAt);
      assert g.queue == [waiter] + g.queue[1..];
      AdmittingKeeps(g, waiter, g.queue[1..], waited);
      DispatchGrants(Admit(g.(queue := g.queue[1..]), waiter.ticket, waited), now, t);
    }
  }

  lemma ReleaseGrants(g: Gate, ticket: nat, now: int, t: nat)
    requires Settled(g) && ticket in g.outstanding
    ensures var after := Release(g, ticket, now);
            && Settled(after) && after.calls == g.calls
            && (t in after.outstanding <==>
                  (t in g.outstanding && t != ticket) || (t !in g.verdicts && t in after.verdicts))
            && (t in g.verdicts ==> t in after.verdicts && after.verdicts[t] == g.verdicts[t])
            && (t !in g.verdicts && t in after.verdicts ==> after.verdicts[t] == Admitted)
  {
    ReleasingKeeps(g, ticket, now);
    var freed := g.(active := Max(0, g.active - 1), outstanding := g.outstanding - {ticket});
    assert |g.outstanding - {ticket}| == |g.outstanding| - 1;
    DispatchGrants(freed, now, t);
  }

  /** Returning the permit of a request that holds one, and marking that request done, keeps every request sound. */
  lemma ReturningKeeps(w: World, t: nat, now: int, done: Request)
    requires Consistent(w) && t in w.requests && t in w.gate.outstanding
    requires done.phase == Done && !done.finisher && done.returned == w.requests[t].returned + 1
    ensures Consistent(World(Release(w.gate, t, now), w.requests[t := done]))
  {
    var after := World(Release(w.gate, t, now), w.requests[t := done]);
    forall u | u in after.requests ensures RequestSound(after, u) {
      assert RequestSound(w, u) && RequestSound(w, t);
      ReleaseGrants(w.gate, t, now, u);
    }
    ReleasingKeeps(w.gate, t, now);
    ReleaseGrants(w.gate, t, now, t);
  }

  lemma FinishingKeeps(w: World, t: nat, now: int)
    requires Consistent(w) && t in w.requests && w.requests[t].finisher
    ensures Consistent(Finish(w, t, now))
    ensures t !in Finish(w, t, now).gate.outstanding && Finish(w, t, now).requests[t].returned == 1
  {
    var r := w.requests[t];
    assert RequestSound(w, t);
    ReturningKeeps(w, t, now, r.(phase := Done, released := true, finisher := false, listening := false,
                                 returned := r.returned + 1));
    ReleasingKeeps(w.gate, t, now);
  }

  /** Changing flags of one request that its soundness does not mention. */
  lemma FlaggingKeeps(w: World, t: nat, r: Request)
    requires Consistent(w) && t in w.requests
    requires r == w.requests[t].(requestAborted := r.requestAborted, responseClosed := r.responseClosed)
    requires r.phase == Serving ==> r.responseClosed == w.requests[t].responseClosed
    ensures Consistent(w.(requests := w.requests[t := r]))
  {
    var after := w.(requests := w.requests[t := r]);
    forall u | u in after.requests ensures RequestSound(after, u) { assert RequestSound(w, u); }
  }

  lemma AbortGrants(g: Gate, t: nat, u: nat)
    requires Settled(g)
    ensures FireAbort(g, t).calls == g.calls && FireAbort(g, t).outstanding == g.outstanding
    ensures u != t || !Waiting(g, t) ==> (u in FireAbort(g, t).verdicts <==> u in g.verdicts)
    ensures u in g.verdicts ==> FireAbort(g, t).verdicts[u] == g.verdicts[u]
    ensures Waiting(g, t) ==> FireAbort(g, t).verdicts[t] == Aborted
  {}

  lemma AbortingControllerKeeps(w: World, t: nat)
    requires Consistent(w) && t in w.requests && w.requests[t].phase != Serving
    ensures Consistent(AbortController(w, t))
  {
    var after := AbortController(w, t);
    AbortingKeeps(w.gate, t);
    forall u | u in after.requests ensures RequestSound(after, u) {
      assert RequestSound(w, u) && RequestSound(w, t);
      assert t in w.gate.verdicts || InQueue(w.gate.queue, t);
      AbortGrants(w.gate, t, u);
    }
  }

  lemma ArrivingKeeps(w: World, alreadyAborted: bool, now: int)
    requires Consistent(w)
    ensures Consistent(Step(w, Arrives(alreadyAborted, now)))
  {
    var after := Step(w, Arrives(alreadyAborted, now));
    AcquiringKeeps(w.gate, false, now);
    forall u | u in after.requests ensures RequestSound(after, u) {
      if u in w.requests { assert RequestSound(w, u); }
    }
  }

  lemma TimingOutKeepsRequests(w: World, t: nat)
    requires Consistent(w)
    ensures Consistent(Step(w, TimesOut(t)))
  {
    var after := Step(w, TimesOut(t));
    TimingOutKeeps(w.gate, t);
    forall u | u in after.requests ensures RequestSound(after, u) { assert RequestSound(w, u); }
  }

  lemma ClosingKeeps(w: World, t: nat, now: int)
    requires Consistent(w) && t in w.requests
    ensures Consistent(Step(w, ResponseCloses(t, now)))
  {
    var r := w.requests[t];
    assert RequestSound(w, t);
    if r.finisher {
      // Aborting the controller of a request that is being served reaches no waiter.
      var closed := r.(responseClosed := true);
      var aborted := AbortController(w.(requests := w.requests[t := closed]), t);
      assert aborted.gate == w.gate;
      ReturningKeeps(w, t, now, Finish(aborted, t, now).requests[t]);
      assert Step(w, ResponseCloses(t, now)) == World(Release(w.gate, t, now),
                                                      w.requests[t := Finish(aborted, t, now).requests[t]]);
    } else {
      FlaggingKeeps(w, t, r.(responseClosed := true));
      AbortingControllerKeeps(w.(requests := w.requests[t := r.(responseClosed := true)]), t);
    }
  }

  lemma RequestAbortKeeps(w: World, t: nat)
    requires Consistent(w) && t in w.requests
    ensures Consistent(Step(w, RequestAborts(t)))
  {
    var r := w.requests[t].(requestAborted := true);
    var flagged := w.(requests := w.requests[t := r]);
    FlaggingKeeps(w, t, r);
    assert RequestSound(w, t);
    if r.phase != Serving {
      AbortingControllerKeeps(flagged, t);
    } else if r.listening && !r.controllerAborted {
      var after := Step(w, RequestAborts(t));
      assert after.gate == w.gate;
      forall u | u in after.requests ensures RequestSound(after, u) { assert RequestSound(flagged, u); }
    }
  }

  lemma ContinuingKeeps(w: World, t: nat, nextThrows: bool, now: int)
    requires Consistent(w)
    ensures Consistent(Step(w, Continues(t, nextThrows, now)))
  {
    if t in w.requests && w.requests[t].phase == Awaiting && t in w.gate.verdicts {
      var r := w.requests[t];
      assert RequestSound(w, t);
      if w.gate.verdicts[t] != Admitted {
        var after := Step(w, Continues(t, nextThrows, now));
        forall u | u in after.requests ensures RequestSound(after, u) { assert RequestSound(w, u); }
      } else if r.controllerAborted || r.requestAborted || r.responseClosed {
        ReturningKeeps(w, t, now, r.(phase := Done, listening := false, returned := r.returned + 1));
      } else {
        var serving := w.(requests := w.requests[t := r.(phase := Serving, finisher := true)]);
        forall u | u in serving.requests ensures RequestSound(serving, u) { assert RequestSound(w, u); }
        assert Consistent(serving);
        if nextThrows { FinishingKeeps(serving, t, now); }
      }
    }
  }

  lemma EventKeeps(w: World, e: Event)
    requires Consistent(w)
    ensures Consistent(Step(w, e))
  {
    match e
    case Arrives(alreadyAborted, now) => ArrivingKeeps(w, alreadyAborted, now);
    case TimesOut(t) => TimingOutKeepsRequests(w, t);
    case RequestAborts(t) => if t in w.requests { RequestAbortKeeps(w, t); }
    case ResponseFinishes(t, now) => if t in w.requests && w.requests[t].finisher { FinishingKeeps(w, t, now); }
    case ResponseCloses(t, now) => if t in w.requests { ClosingKeeps(w, t, now); }
    case Continues(t, nextThrows, now) => ContinuingKeeps(w, t, nextThrows, now);
    case ReleasesEarly(t, now) => if t in w.requests && w.requests[t].finisher { FinishingKeeps(w, t, now); }
  }

  ghost function RunFrom(w: World, events: seq<Event>): (end: World)
    requires Consistent(w)
    ensures Consistent(end)
    decreases |events|
  {
    if events == [] then w else EventKeeps(w, events[0]); RunFrom(Step(w, events[0]), events[1..])
  }

  lemma InitIsConsistent(maxActive: int, maxQueued: int)
    requires maxActive > 0 && maxQueued > 0
    ensures Consistent(Init(maxActive, maxQueued))
  {
    CreateIsSettled(maxActive, maxQueued);
    hide Settled;
  }

  ghost function Run(maxActive: int, maxQueued: int, events: seq<Event>): (end: World)
    requires maxActive > 0 && maxQueued > 0
    ensures Consistent(end)
  {
    InitIsConsistent(maxActive, maxQueued);
    RunFrom(Init(maxActive, maxQueued), events)
  }

  /** A request's permit is out exactly while it is admitted and not done, and comes back once. */
  ghost predicate PermitAccounted(w: World, t: nat) {
    (t in w.gate.outstanding <==> t in w.requests && WasAdmitted(w, t) && w.requests[t].phase != Done) &&
    (t in w.requests ==>
       w.requests[t].returned == (if WasAdmitted(w, t) && w.requests[t].phase == Done then 1 else 0) &&
       (w.requests[t].responseClosed && w.requests[t].phase != Awaiting ==>
          w.requests[t].phase == Done && t !in w.gate.outstanding))
  }

  lemma ConsistentAccounts(w: World, t: nat)
    requires Consistent(w)
    ensures PermitAccounted(w, t)
  {
    if t in w.requests { assert RequestSound(w, t); } else { assert t >= w.gate.calls; }
  }

  /** In every interleaving: once a request's middleware has continued and its response has closed, an admitted request
      has returned its permit exactly once and a rejected or aborted one returned none, so the gate holds nothing for
      it; and before that the gate's permits are exactly those of admitted requests not yet done. */
  lemma PermitReturnedOnce(maxActive: int, maxQueued: int, events: seq<Event>, t: nat)
    requires maxActive > 0 && maxQueued > 0
    ensures PermitAccounted(Run(maxActive, maxQueued, events), t)
  {
    ConsistentAccounts(Run(maxActive, maxQueued, events), t);
  }

  /** A served request returns its permit at the first of finish, close and early release. */
  lemma FirstEndReturns(w: World, t: nat, now: int, e: Event)
    requires Consistent(w) && t in w.requests && w.requests[t].phase == Serving
    requires e == ResponseFinishes(t, now) || e == ResponseCloses(t, now) || e == ReleasesEarly(t, now)
    ensures var after := Step(w, e);
            t !in after.gate.outstanding && after.requests[t].phase == Done && after.requests[t].returned == 1
  {
    assert RequestSound(w, t);
    ReleasingKeeps(w.gate, t, now);
  }

  /** A closed or aborted request that was granted a permit while it waited returns it as soon as it continues. */
  lemma LateGrantReturns(w: World, t: nat, nextThrows: bool, now: int)
    requires Consistent(w) && t in w.requests && w.requests[t].phase == Awaiting && WasAdmitted(w, t)
    requires w.requests[t].responseClosed || w.requests[t].requestAborted
    ensures var after := Step(w, Continues(t, nextThrows, now));
            t !in after.gate.outstanding && after.requests[t].phase == Done && after.requests[t].returned == 1
  {
    assert RequestSound(w, t);
    ReleasingKeeps(w.gate, t, now);
  }

  // ---- What becomes of a request ----

  /** Continuing after its acquire call, an admitted request is served, with its permit kept and its finisher installed,
      exactly when neither its controller nor its request aborted and its response has not closed; otherwise it is
      turned away and its permit returned. */
  lemma ServedIff(w: World, t: nat, now: int)
    requires Consistent(w) && t in w.requests && w.requests[t].phase == Awaiting
    requires t in w.gate.verdicts && w.gate.verdicts[t] == Admitted
    ensures var r, after := w.requests[t], Step(w, Continues(t, false, now));
            && t in after.requests
            && (after.requests[t].phase == Serving <==> !r.controllerAborted && !r.requestAborted && !r.responseClosed)
            && (after.requests[t].phase == Done <==> r.controllerAborted || r.requestAborted || r.responseClosed)
            && (after.requests[t].phase == Serving ==>
                  after.requests[t].finisher && t in after.gate.outstanding && after.gate == w.gate)
            && (after.requests[t].phase == Done ==> t !in after.gate.outstanding && after.requests[t].returned == 1)
  {
    assert RequestSound(w, t);
    ReleasingKeeps(w.gate, t, now);
  }

  /** A route that throws ends the request at once, its permit returned. */
  lemma ThrowingRouteReturns(w: World, t: nat, now: int)
    requires Consistent(w) && t in w.requests && w.requests[t].phase == Awaiting
    requires t in w.gate.verdicts && w.gate.verdicts[t] == Admitted
    ensures var after := Step(w, Continues(t, true, now));
            t in after.requests && after.requests[t].phase == Done && after.requests[t].returned == 1 &&
            t !in after.gate.outstanding
  {
    assert RequestSound(w, t);
    ReleasingKeeps(w.gate, t, now);
  }

  /** A call the gate turned away ends without a permit, with a 503 exactly when it was not aborted. */
  lemma RejectedIsAnswered(w: World, t: nat, nextThrows: bool, now: int)
    requires Consistent(w) && t in w.requests && w.requests[t].phase == Awaiting
    requires t in w.gate.verdicts && w.gate.verdicts[t] != Admitted
    ensures var after := Step(w, Continues(t, nextThrows, now));
            && t in after.requests && after.requests[t].phase == Done && after.requests[t].returned == 0
            && (after.requests[t].busy <==> w.gate.verdicts[t] == QueueFull || w.gate.verdicts[t] == TimedOut)
            && after.gate == w.gate
  {
    assert RequestSound(w, t);
  }

  /** The client going away while its request waits, by either sign, takes it out of the queue as aborted. */
  lemma LeavingClientAborts(w: World, t: nat, e: Event, now: int)
    requires Consistent(w) && t in w.requests && t !in w.gate.verdicts
    requires e == RequestAborts(t) || e == ResponseCloses(t, now)
    ensures var after := Step(w, e);
            && t in after.gate.verdicts && after.gate.verdicts[t] == Aborted && !InQueue(after.gate.queue, t)
            && after.gate.outstanding == w.gate.outstanding
            && t in after.requests && after.requests[t].phase == Awaiting
  {
    assert RequestSound(w, t) && InQueue(w.gate.queue, t);
    AbortVerdict(w.gate, t);
    hide InQueue;
  }

  /** The wait timer takes a waiting request out of the queue, and it is answered with a 503 when it continues. */
  lemma TimedOutIsAnswered(w: World, t: nat, now: int)
    requires Consistent(w) && t in w.requests && t !in w.gate.verdicts
    ensures var after := Step(w, TimesOut(t));
            && t in after.gate.verdicts && after.gate.verdicts[t] == TimedOut && !InQueue(after.gate.queue, t)
            && Step(after, Continues(t, false, now)).requests[t].phase == Done
            && Step(after, Continues(t, false, now)).requests[t].busy
  {
    assert RequestSound(w, t) && InQueue(w.gate.queue, t);
    EventKeeps(w, TimesOut(t));
    TimeoutVerdict(w.gate, t);
    RejectedIsAnswered(Step(w, TimesOut(t)), t, false, now);
    hide InQueue, Consistent;
  }

  predicate Ends(e: Event, t: nat) {
    match e
    case ResponseFinishes(u, _) => u == t
    case ResponseCloses(u, _) => u == t
    case ReleasesEarly(u, _) => u == t
    case _ => false
  }

  /** A request being served stays so, its permit out, over any events but its own finish, close or early release; at
      the first of those it is done, its permit returned. */
  lemma ServingUntilFirstEnd(w: World, e: Event, t: nat)
    requires Consistent(w) && t in w.requests && w.requests[t].phase == Serving
    ensures var after := Step(w, e);
            && t in after.requests
            && (!Ends(e, t) ==> after.requests[t].phase == Serving && t in after.gate.outstanding)
            && (Ends(e, t) ==> after.requests[t].phase == Done && t !in after.gate.outstanding)
  {
    EventKeeps(w, e);
    assert RequestSound(w, t);
    ServingStays(w, e, t);
    assert t in Step(w, e).requests && RequestSound(Step(w, e), t);
    EventAdmissionsStand(w, e, t);
    hide Step, Consistent;
  }

  lemma ServingStays(w: World, e: Event, t: nat)
    requires Consistent(w) && t in w.requests && w.requests[t].phase == Serving
    ensures t in Step(w, e).requests
    ensures Step(w, e).requests[t].phase == if Ends(e, t) then Done else Serving
  {
    assert RequestSound(w, t);
    hide Settled, FireAbort, FireTimeout, Release, Acquire;
  }

  lemma FinishingStands(w: World, t: nat, now: int)
    requires Settled(w.gate) && t in w.requests
    ensures VerdictsStand(w.gate, Finish(w, t, now).gate)
  {
    ReleasingKeeps(w.gate, t, now);
    hide Settled, Release;
  }

  lemma AbortingStands(w: World, t: nat)
    requires Settled(w.gate) && t in w.requests
    ensures VerdictsStand(w.gate, AbortController(w, t).gate) && Settled(AbortController(w, t).gate)
  {
    AbortingKeeps(w.gate, t);
    hide Settled, FireAbort;
  }

  lemma ClosingStands(w: World, t: nat, now: int)
    requires Settled(w.gate)
    ensures VerdictsStand(w.gate, Step(w, ResponseCloses(t, now)).gate)
  {
    if t in w.requests {
      var flagged := w.(requests := w.requests[t := w.requests[t].(responseClosed := true)]);
      AbortingStands(flagged, t);
      var aborted := AbortController(flagged, t);
      assert t in aborted.requests;
      FinishingStands(aborted, t, now);
      hide Settled, Finish, AbortController;
    }
  }

  lemma ContinuingStands(w: World, t: nat, nextThrows: bool, now: int)
    requires Settled(w.gate)
    ensures VerdictsStand(w.gate, Step(w, Continues(t, nextThrows, now)).gate)
  {
    ReleasingKeeps(w.gate, t, now);
    hide Settled, Release;
  }

  lemma EventAdmissionsStand(w: World, e: Event, t: nat)
    requires Settled(w.gate) && WasAdmitted(w, t)
    ensures WasAdmitted(Step(w, e), t)
  {
    hide Settled, FireAbort, FireTimeout, Release, Acquire, Finish, AbortController, ContinueAdmitted;
    match e
    case Arrives(_, now) => AcquiringKeeps(w.gate, false, now);
    case TimesOut(u) => TimingOutKeeps(w.gate, u);
    case RequestAborts(u) =>
      if u in w.requests {
        AbortingStands(w.(requests := w.requests[u := w.requests[u].(requestAborted := true)]), u);
      }
    case ResponseFinishes(u, now) => if u in w.requests { FinishingStands(w, u, now); }
    case ResponseCloses(u, now) => ClosingStands(w, u, now); hide Step;
    case Continues(u, nextThrows, now) => ContinuingStands(w, u, nextThrows, now); hide Step;
    case ReleasesEarly(u, now) => if u in w.requests { FinishingStands(w, u, now); }
  }

  lemma ContinuationOutcome(w: World, t: nat, nextThrows: bool, now: int)
    requires Consistent(w) && t in w.requests && w.requests[t].phase == Awaiting && t in w.gate.verdicts
    ensures var r, after := w.requests[t], Step(w, Continues(t, nextThrows, now));
            && t in after.requests && t in after.gate.verdicts && after.gate.verdicts[t] == w.gate.verdicts[t]
            && (after.requests[t].phase == Serving <==>
                w.gate.verdicts[t] == Admitted && !nextThrows && !r.controllerAborted && !r.requestAborted &&
                !r.responseClosed)
            && (after.requests[t].phase == Serving ==> t in after.gate.outstanding && after.requests[t].finisher)
            && (after.requests[t].phase != Serving ==>
                  after.requests[t].phase == Done && t !in after.gate.outstanding)
  {
    assert RequestSound(w, t);
    ReleasingKeeps(w.gate, t, now);
    hide Settled, Release;
  }

  /** A request that meets a free permit is served as soon as it continues, unless its client is already gone. */
  lemma FreePermitServes(w: World, alreadyAborted: bool, now: int, later: int)
    requires Consistent(w) && w.gate.active < w.gate.maxActive
    ensures var t, arrived := w.gate.calls, Step(w, Arrives(alreadyAborted, now));
            var after := Step(arrived, Continues(t, false, later));
            t in after.requests && after.requests[t].phase == if alreadyAborted then Done else Serving
  {
    var t, arrived := w.gate.calls, Step(w, Arrives(alreadyAborted, now));
    AcquireVerdict(w.gate, false, now);
    EventKeeps(w, Arrives(alreadyAborted, now));
    ServedIff(arrived, t, later);
    hide Consistent, Acquire, ContinueAdmitted;
  }

  // ---- The middleware as the server runs it ----

  class TileMiddleware {
    const gate: TileGate
    var requests: map<nat, Request>

    ghost function View(): World
      reads this, gate
    {
      World(gate.View(), requests)
    }

    constructor (maxActive: int, maxQueued: int)
      requires maxActive > 0 && maxQueued > 0
      ensures View() == Init(maxActive, maxQueued) && Consistent(View()) && fresh(gate)
    {
      gate := new TileGate(maxActive, maxQueued);
      requests := map[];
      new;
      InitIsConsistent(maxActive, maxQueued);
    }

    method Arrive(alreadyAborted: bool, now: int) returns (t: nat)
      requires Consistent(View())
      modifies this, gate
      ensures View() == Step(old(View()), Arrives(alreadyAborted, now)) && Consistent(View())
    {
      ArrivingKeeps(View(), alreadyAborted, now);
      var settled;
      t, settled := gate.AcquirePermit(false, now);
      requests := requests[t := Request(Awaiting, true, false, alreadyAborted, false, false, false, 0, false)];
    }

    method FinishRequest(t: nat, now: int)
      requires Settled(gate.View()) && t in requests
      modifies this, gate
      ensures View() == Finish(old(View()), t, now)
    {
      if requests[t].released { return; }
      requests := requests[t := requests[t].(phase := Done, released := true, finisher := false, listening := false,
                                             returned := requests[t].returned + 1)];
      gate.ReleasePermit(t, now);
    }

    method AbortQueuedRequest(t: nat)
      requires Settled(gate.View()) && t in requests
      modifies this, gate
      ensures View() == AbortController(old(View()), t) && Settled(gate.View())
    {
      if !requests[t].listening || requests[t].controllerAborted { return; }
      requests := requests[t := requests[t].(controllerAborted := true)];
      gate.AbortWait(t);
    }

    method RequestAborted(t: nat)
      requires Consistent(View()) && t in requests
      modifies this, gate
      ensures View() == Step(old(View()), RequestAborts(t)) && Consistent(View())
    {
      EventKeeps(View(), RequestAborts(t));
      requests := requests[t := requests[t].(requestAborted := true)];
      AbortQueuedRequest(t);
    }

    method ResponseClosed(t: nat, now: int)
      requires Consistent(View()) && t in requests
      modifies this, gate
      ensures View() == Step(old(View()), ResponseCloses(t, now)) && Consistent(View())
    {
      EventKeeps(View(), ResponseCloses(t, now));
      var finisher := requests[t].finisher;
      requests := requests[t := requests[t].(responseClosed := true)];
      AbortQueuedRequest(t);
      if finisher { FinishRequest(t, now); }
    }

    /** The response's finish event and releaseClassPilotTileAdmission reach the same closure. */
    method ResponseFinished(t: nat, now: int)
      requires Consistent(View()) && t in requests
      modifies this, gate
      ensures View() == Step(old(View()), ResponseFinishes(t, now)) && Consistent(View())
      ensures View() == Step(old(View()), ReleasesEarly(t, now))
    {
      EventKeeps(View(), ResponseFinishes(t, now));
      if requests[t].finisher { FinishRequest(t, now); }
    }

    /** The handler after its await; `nextThrows` says whether the route throws synchronously. */
    method Continue(t: nat, nextThrows: bool, now: int)
      requires Consistent(View()) && t in requests && requests[t].phase == Awaiting && t in gate.verdicts
      modifies this, gate
      ensures View() == Step(old(View()), Continues(t, nextThrows, now)) && Consistent(View())
      ensures t in requests
      ensures requests[t].phase == Serving <==>
                gate.verdicts[t] == Admitted && !nextThrows && !old(requests)[t].controllerAborted &&
                !old(requests)[t].requestAborted && !old(requests)[t].responseClosed
      ensures requests[t].phase == Serving ==> t in gate.outstanding && requests[t].finisher
      ensures requests[t].phase != Serving ==> requests[t].phase == Done && t !in gate.outstanding
    {
      ContinuationOutcome(View(), t, nextThrows, now);
      hide Consistent;
      ContinueAfterWait(t, nextThrows, now);
    }

    method ContinueAfterWait(t: nat, nextThrows: bool, now: int)
      requires Consistent(View()) && t in requests && requests[t].phase == Awaiting && t in gate.verdicts
      modifies this, gate
      ensures View() == Step(old(View()), Continues(t, nextThrows, now)) && Consistent(View())
    {
      EventKeeps(View(), Continues(t, nextThrows, now));
      var r := requests[t];
      if gate.verdicts[t] != Admitted {
        requests := requests[t := r.(phase := Done, listening := false, busy := gate.verdicts[t] != Aborted)];
      } else if r.controllerAborted || r.requestAborted || r.responseClosed {
        requests := requests[t := r.(phase := Done, listening := false, returned := r.returned + 1)];
        gate.ReleasePermit(t, now);
      } else {
        requests := requests[t := r.(phase := Serving, finisher := true)];
        if nextThrows { FinishRequest(t, now); }
      }
    }
  }
}
