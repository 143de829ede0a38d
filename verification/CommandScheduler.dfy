/** The per-process scheduler of command-update publications: coalescing, a FIFO, two in flight, bounded retries. */
module CommandScheduler {

  const MAX_CONCURRENT_COMMAND_UPDATE_PUBLICATIONS := 2
  const MAX_RETRIES := 3

  datatype Command = Command(timer: bool, queued: bool, inFlight: bool, dirty: bool, retryCount: nat)

  /** How a publication's promise settles. `CommandGone`: no snapshot exists, so it resolves without publishing. */
  datatype Outcome = Published | CommandGone | Failed

  datatype Entry = Scheduled(key: string) | Started(key: string)

  /** `running` holds the publications whose promise is still pending. The last three fields are history: schedule
      calls and publication starts, and the keys queued and started in order. */
  datatype Scheduler = Scheduler(
    states: map<string, Command>,
    queue: seq<string>,
    active: int,
    closed: bool,
    running: set<string>,
    log: seq<Entry>,
    enqueued: seq<string>,
    started: seq<string>)

  const INITIAL := Scheduler(map[], [], 0, false, {}, [], [], [])

  const FRESH := Command(true, false, false, false, 0)

  function Schedule(s: Scheduler, key: string): Scheduler {
    s.(states := s.states[key := if key in s.states then s.states[key].(dirty := true) else FRESH],
       log := s.log + [Scheduled(key)])
  }

  /** One turn of the drain loop. */
  function StartNext(s: Scheduler): Scheduler
    requires s.queue != [] && s.queue[0] in s.states
  {
    var key := s.queue[0];
    s.(states := s.states[key := s.states[key].(queued := false, inFlight := true, dirty := false)],
       queue := s.queue[1..],
       active := s.active + 1,
       running := s.running + {key},
       log := s.log + [Started(key)],
       started := s.started + [key])
  }

  predicate CanStart(s: Scheduler) {
    !s.closed && s.active < MAX_CONCURRENT_COMMAND_UPDATE_PUBLICATIONS && |s.queue| > 0
  }

  predicate QueueKnown(s: Scheduler) {
    forall i | 0 <= i < |s.queue| :: s.queue[i] in s.states
  }

  function Drain(s: Scheduler): Scheduler
    requires QueueKnown(s)
    decreases |s.queue|
  {
    if CanStart(s) then Drain(StartNext(s)) else s
  }

  function FireTimer(s: Scheduler, key: string): Scheduler
    requires QueueKnown(s) && key in s.states
  {
    var disarmed := s.(states := s.states[key := s.states[key].(timer := false)]);
    if s.closed || s.states[key].queued || s.states[key].inFlight then disarmed
    else Drain(disarmed.(states := s.states[key := s.states[key].(timer := false, queued := true)],
                         queue := s.queue + [key],
                         enqueued := s.enqueued + [key]))
  }

  /** The state as the catch handler and the retry reset leave it. */
  function Concluded(c: Command, outcome: Outcome): Command {
    match outcome
    case Published => c.(retryCount := 0)
    case CommandGone => c
    case Failed => if c.retryCount < MAX_RETRIES then c.(retryCount := c.retryCount + 1, dirty := true) else c
  }

  /** The finally handler. After a close the state object is no longer reachable from the map. */
  function Settle(s: Scheduler, key: string, outcome: Outcome): Scheduler
    requires QueueKnown(s) && (key in s.states || s.closed) && key !in s.queue
  {
    var released := s.(active := s.active - 1, running := s.running - {key});
    if s.closed then Drain(released.(states := s.states - {key}))
    else
      var c := Concluded(s.states[key], outcome);
      Drain(released.(states := if c.dirty then s.states[key := c.(inFlight := false, timer := true)]
                                else s.states - {key}))
  }

  function Close(s: Scheduler): Scheduler {
    s.(states := map[], queue := [], closed := true)
  }

  // ---- What every operation keeps ----

  predicate OnePhase(c: Command) {
    (c.timer && !c.queued && !c.inFlight) || (!c.timer && c.queued && !c.inFlight) ||
    (!c.timer && !c.queued && c.inFlight)
  }

  /** A schedule call for the key has had no later publication start. */
  ghost predicate Owed(log: seq<Entry>, key: string) {
    exists i :: 0 <= i < |log| && log[i] == Scheduled(key) && forall j | i < j < |log| :: log[j] != Started(key)
  }

  /** The key's next publication is certain: it is armed, queued, or in flight and dirty. */
  predicate WillPublish(s: Scheduler, key: string) {
    key in s.states && (s.states[key].timer || s.states[key].queued || (s.states[key].inFlight && s.states[key].dirty))
  }

  /** The queue holds exactly the queued states, once each, in the order they were queued. */
  ghost predicate QueueSound(s: Scheduler) {
    QueueKnown(s) &&
    (forall k | k in s.states && s.states[k].queued :: k in s.queue) &&
    (forall i | 0 <= i < |s.queue| :: s.states[s.queue[i]].queued) &&
    (forall i, j | 0 <= i < j < |s.queue| :: s.queue[i] != s.queue[j]) &&
    (s.closed ==> s.states == map[] && s.queue == [])
  }

  /** Publications start in the order in which they were queued. */
  ghost predicate Fifo(s: Scheduler) {
    !s.closed ==> s.enqueued == s.started + s.queue
  }

  /** Each state is in one phase; the active count is the number of pending publications, never above two. */
  ghost predicate RunningSound(s: Scheduler) {
    (forall k | k in s.states :: OnePhase(s.states[k]) && s.states[k].retryCount <= MAX_RETRIES) &&
    (forall k | k in s.states && s.states[k].inFlight :: k in s.running) &&
    (!s.closed ==> forall k | k in s.running :: k in s.states && s.states[k].inFlight) &&
    s.active == |s.running| && s.active <= MAX_CONCURRENT_COMMAND_UPDATE_PUBLICATIONS
  }

  ghost predicate Sound(s: Scheduler) {
    QueueSound(s) && RunningSound(s) && Fifo(s)
  }

  ghost predicate NothingLost(s: Scheduler) {
    !s.closed ==> forall k | Owed(s.log, k) :: WillPublish(s, k)
  }

  /** Between events no publication could start: the queue is empty or both slots are taken. */
  ghost predicate Settled(s: Scheduler) {
    Sound(s) && NothingLost(s) && !CanStart(s)
  }

  lemma OwedAfter(log: seq<Entry>, entry: Entry, key: string)
    ensures Owed(log + [entry], key) <==> entry == Scheduled(key) || (Owed(log, key) && entry != Started(key))
  {
    var next := log + [entry];
    assert next[|log|] == entry;
    if i :| 0 <= i < |next| && next[i] == Scheduled(key) && forall j | i < j < |next| :: next[j] != Started(key) {
      assert i < |log| ==> log[i] == Scheduled(key) && forall j | i < j < |log| :: log[j] == next[j];
    }
    if i :| 0 <= i < |log| && log[i] == Scheduled(key) && forall j | i < j < |log| :: log[j] != Started(key) {
      assert next[i] == Scheduled(key);
    }
  }

  lemma SchedulingKeeps(s: Scheduler, key: string)
    requires Settled(s) && !s.closed
    ensures Settled(Schedule(s, key))
  {
    forall k | Owed(Schedule(s, key).log, k) ensures WillPublish(Schedule(s, key), k) {
      OwedAfter(s.log, Scheduled(key), k);
    }
  }

  lemma StartingKeeps(s: Scheduler)
    requires Sound(s) && NothingLost(s) && CanStart(s)
    ensures Sound(StartNext(s)) && NothingLost(StartNext(s))
  {
    var after, key := StartNext(s), s.queue[0];
    StartingKeepsQueue(s);
    StartingKeepsRunning(s);
    forall k | Owed(after.log, k) ensures WillPublish(after, k) {
      OwedAfter(s.log, Started(key), k);
    }
  }

  lemma StartingKeepsQueue(s: Scheduler)
    requires QueueSound(s) && CanStart(s)
    ensures QueueSound(StartNext(s))
  {
    var after := StartNext(s);
    forall k | k in after.states && after.states[k].queued ensures k in after.queue {
      var i :| 0 <= i < |s.queue| && s.queue[i] == k;
      assert after.queue[i - 1] == k;
    }
  }

  lemma StartingKeepsRunning(s: Scheduler)
    requires Sound(s) && CanStart(s)
    ensures RunningSound(StartNext(s)) && Fifo(StartNext(s))
  {
    assert s.queue == [s.queue[0]] + s.queue[1..];
    StartingKeepsPhases(s, s.queue[0]);
    hide QueueSound, RunningSound;
  }

  lemma StartingKeepsPhases(s: Scheduler, key: string)
    requires RunningSound(s) && CanStart(s) && s.queue[0] == key && key in s.states && s.states[key].queued
    ensures RunningSound(StartNext(s))
  {
    assert key !in s.running;
    hide QueueSound, Fifo;
  }

  lemma StartingDrains(s: Scheduler)
    requires Sound(s) && NothingLost(s) && CanStart(s)
    ensures Sound(StartNext(s)) && NothingLost(StartNext(s)) && Drain(s) == Drain(StartNext(s))
  {
    StartingKeeps(s);
  }

  lemma {:induction false} DrainingKeeps(s: Scheduler)
    requires Sound(s) && NothingLost(s)
    ensures Settled(Drain(s))
    decreases |s.queue|
  {
    if CanStart(s) {
      StartingKeeps(s);
      DrainingKeeps(StartNext(s));
    }
  }

  lemma FiringKeeps(s: Scheduler, key: string)
    requires Settled(s) && key in s.states && s.states[key].timer
    ensures Settled(FireTimer(s, key))
  {
    FiringIsSound(s, key);
    DrainingKeeps(s.(states := s.states[key := s.states[key].(timer := false, queued := true)],
                     queue := s.queue + [key], enqueued := s.enqueued + [key]));
  }

  lemma FiringIsSound(s: Scheduler, key: string)
    requires Settled(s) && key in s.states && s.states[key].timer
    ensures var queued := s.(states := s.states[key := s.states[key].(timer := false, queued := true)],
                             queue := s.queue + [key], enqueued := s.enqueued + [key]);
            Sound(queued) && NothingLost(queued)
  {
    var queued := s.(states := s.states[key := s.states[key].(timer := false, queued := true)],
                     queue := s.queue + [key], enqueued := s.enqueued + [key]);
    assert key !in s.queue;
    assert queued.enqueued == queued.started + queued.queue;
    forall k | k in queued.states && queued.states[k].queued ensures k in queued.queue {
      assert k == key || k in s.queue;
    }
    assert forall k | Owed(s.log, k) :: WillPublish(s, k);
  }

  lemma SettlingKeeps(s: Scheduler, key: string, outcome: Outcome)
    requires Settled(s) && key in s.running
    ensures key !in s.queue && Settled(Settle(s, key, outcome))
  {
    SettlingIsSound(s, key, outcome);
    var released := s.(active := s.active - 1, running := s.running - {key});
    if s.closed {
      DrainingKeeps(released.(states := s.states - {key}));
    } else {
      var c := Concluded(s.states[key], outcome);
      DrainingKeeps(released.(states := if c.dirty then s.states[key := c.(inFlight := false, timer := true)]
                                        else s.states - {key}));
    }
  }

  lemma SettlingIsSound(s: Scheduler, key: string, outcome: Outcome)
    requires Settled(s) && key in s.running
    ensures var released := s.(active := s.active - 1, running := s.running - {key});
            if s.closed then Sound(released.(states := s.states - {key}))
            else
              var c := Concluded(s.states[key], outcome);
              var concluded := released.(states := if c.dirty then s.states[key := c.(inFlight := false, timer := true)]
                                                   else s.states - {key});
              key !in s.queue && Sound(concluded) && NothingLost(concluded)
  {
    if s.closed {
      assert s.states - {key} == map[];
    } else {
      forall k | Owed(s.log, k) ensures WillPublish(s, k) {}
    }
  }

  // ---- Runs ----

  /** Closing deregisters the schedule entry point, so no call arrives afterwards. */
  datatype Event = ScheduleCall(key: string) | TimerFires(key: string) | Settles(key: string, outcome: Outcome) | Closing

  predicate Enabled(s: Scheduler, e: Event) {
    match e
    case ScheduleCall(_) => !s.closed
    case TimerFires(k) => k in s.states && s.states[k].timer
    case Settles(k, _) => k in s.running
    case Closing => !s.closed
  }

  ghost function Next(s: Scheduler, e: Event): (next: Scheduler)
    requires Settled(s)
    ensures Settled(next)
  {
    if !Enabled(s, e) then s else
    match e
    case ScheduleCall(k) => SchedulingKeeps(s, k); Schedule(s, k)
    case TimerFires(k) => FiringKeeps(s, k); FireTimer(s, k)
    case Settles(k, outcome) => SettlingKeeps(s, k, outcome); Settle(s, k, outcome)
    case Closing => Close(s)
  }

  ghost function RunFrom(s: Scheduler, events: seq<Event>): (end: Scheduler)
    requires Settled(s)
    ensures Settled(end)
    decreases |events|
  {
    if events == [] then s else RunFrom(Next(s, events[0]), events[1..])
  }

  /** After every run that has not closed: a schedule call with no later publication start is still going to be
      served, every key is in one phase, and the queue is exactly the queued states in queueing order. */
  lemma NoUpdateIsLost(events: seq<Event>, key: string)
    ensures var s := RunFrom(INITIAL, events);
            && (!s.closed && Owed(s.log, key) ==> WillPublish(s, key))
            && (key in s.states ==> OnePhase(s.states[key]) && (s.states[key].queued <==> key in s.queue))
            && (!s.closed ==> s.enqueued == s.started + s.queue)
            && s.active == |s.running| <= 2
            && (s.queue == [] || s.active == 2)
  {
    var s := RunFrom(INITIAL, events);
    if key in s.queue {
      var i :| 0 <= i < |s.queue| && s.queue[i] == key;
    }
  }

  // ---- Retrying terminates ----

  /** Publications a state can still start if no schedule call arrives. */
  function Attempts(c: Command): nat {
    if c.retryCount > MAX_RETRIES then 0
    else if c.timer || c.queued then 1 + MAX_RETRIES - c.retryCount
    else if c.dirty then 1 + MAX_RETRIES
    else MAX_RETRIES - c.retryCount
  }

  function AttemptsOf(s: Scheduler, key: string): nat {
    if key in s.states then Attempts(s.states[key]) else 0
  }

  function Starts(log: seq<Entry>, key: string): nat {
    if log == [] then 0
    else Starts(log[..|log| - 1], key) + if log[|log| - 1] == Started(key) then 1 else 0
  }

  lemma StartsAfter(log: seq<Entry>, entry: Entry, key: string)
    ensures Starts(log + [entry], key) == Starts(log, key) + if entry == Started(key) then 1 else 0
  {
    assert (log + [entry])[..|log|] == log;
  }

  /** Remaining attempts, then the phase: in flight, armed, queued. */
  function Weight(c: Command): nat {
    4 * Attempts(c) + if c.inFlight then 3 else if c.timer then 2 else 1
  }

  ghost function Total(states: map<string, Command>): nat {
    if states == map[] then 0
    else
      var k :| k in states;
      Weight(states[k]) + Total(states - {k})
  }

  lemma {:induction false} TotalSplits(states: map<string, Command>, key: string)
    requires key in states
    ensures Total(states) == Weight(states[key]) + Total(states - {key})
    decreases |states|
  {
    var k :| k in states && Total(states) == Weight(states[k]) + Total(states - {k});
    hide Weight, Total;
    if k != key {
      RemovingShrinks(states, k);
      RemovingShrinks(states, key);
      TotalSplits(states - {k}, key);
      TotalSplits(states - {key}, k);
      assert states - {k} - {key} == states - {key} - {k};
    }
  }

  lemma RemovingShrinks(states: map<string, Command>, key: string)
    requires key in states
    ensures |states - {key}| < |states|
  {
    assert (states - {key}).Keys == states.Keys - {key};
  }

  lemma TotalUpdated(states: map<string, Command>, key: string, c: Command)
    requires key in states
    ensures Total(states[key := c]) + Weight(states[key]) == Total(states) + Weight(c)
  {
    TotalSplits(states, key);
    TotalSplits(states[key := c], key);
    assert states[key := c] - {key} == states - {key};
  }

  /** Draining consumes: the total never grows, and each publication started uses up one of its key's attempts. */
  lemma {:induction false} DrainingConsumes(s: Scheduler, key: string)
    requires Sound(s) && NothingLost(s)
    ensures Total(Drain(s).states) <= Total(s.states)
    ensures Starts(Drain(s).log, key) + AttemptsOf(Drain(s), key) <= Starts(s.log, key) + AttemptsOf(s, key)
    ensures Drain(s).closed == s.closed
    decreases |s.queue|
  {
    if CanStart(s) {
      var k := s.queue[0];
      StartingKeeps(s);
      assert s.states[k].queued && OnePhase(s.states[k]);
      TotalUpdated(s.states, k, StartNext(s).states[k]);
      StartsAfter(s.log, Started(k), key);
      DrainingConsumes(StartNext(s), key);
    }
  }

  lemma FiringConsumes(s: Scheduler, k: string, key: string)
    requires Settled(s) && !s.closed && k in s.states && s.states[k].timer
    ensures var after := FireTimer(s, k);
            && !after.closed && Total(after.states) < Total(s.states)
            && Starts(after.log, key) + AttemptsOf(after, key) <= Starts(s.log, key) + AttemptsOf(s, key)
  {
    var c := s.states[k].(timer := false, queued := true);
    var queued := s.(states := s.states[k := c], queue := s.queue + [k], enqueued := s.enqueued + [k]);
    assert OnePhase(s.states[k]);
    FiringIsSound(s, k);
    TotalUpdated(s.states, k, c);
    DrainingConsumes(queued, key);
  }

  function AfterConclusion(s: Scheduler, k: string, outcome: Outcome): Scheduler
    requires k in s.states
  {
    var c := Concluded(s.states[k], outcome);
    s.(active := s.active - 1, running := s.running - {k},
       states := if c.dirty then s.states[k := c.(inFlight := false, timer := true)] else s.states - {k})
  }

  /** An outcome lowers the total and raises nobody's attempts. */
  lemma ConcludingConsumes(s: Scheduler, k: string, outcome: Outcome, key: string)
    requires k in s.states && s.states[k].inFlight && OnePhase(s.states[k]) && s.states[k].retryCount <= MAX_RETRIES
    ensures var after := AfterConclusion(s, k, outcome);
            Total(after.states) < Total(s.states) && AttemptsOf(after, key) <= AttemptsOf(s, key)
  {
    var c := Concluded(s.states[k], outcome);
    if c.dirty { TotalUpdated(s.states, k, c.(inFlight := false, timer := true)); } else { TotalSplits(s.states, k); }
    hide Total;
  }

  lemma SettlingConsumes(s: Scheduler, k: string, outcome: Outcome, key: string)
    requires Settled(s) && !s.closed && k in s.running && k !in s.queue
    ensures var after := Settle(s, k, outcome);
            && !after.closed && Total(after.states) < Total(s.states)
            && Starts(after.log, key) + AttemptsOf(after, key) <= Starts(s.log, key) + AttemptsOf(s, key)
  {
    assert OnePhase(s.states[k]) && s.states[k].retryCount <= MAX_RETRIES;
    SettlingIsSound(s, k, outcome);
    ConcludingConsumes(s, k, outcome, key);
    DrainingConsumes(AfterConclusion(s, k, outcome), key);
    hide Settled, Sound, NothingLost, Drain, Total, Starts, AttemptsOf, Concluded;
  }

  lemma EventConsumes(s: Scheduler, e: Event, key: string)
    requires Settled(s) && !s.closed && Enabled(s, e) && (e.TimerFires? || e.Settles?)
    ensures !Next(s, e).closed && Total(Next(s, e).states) < Total(s.states)
    ensures Starts(Next(s, e).log, key) + AttemptsOf(Next(s, e), key) <= Starts(s.log, key) + AttemptsOf(s, key)
  {
    match e
    case TimerFires(k) => FiringConsumes(s, k, key);
    case Settles(k, outcome) => SettlingKeeps(s, k, outcome); SettlingConsumes(s, k, outcome, key);
  }

  /** A sequence of timer and settlement events, each enabled when its turn comes. */
  ghost predicate Unprompted(s: Scheduler, events: seq<Event>)
    requires Settled(s)
    decreases |events|
  {
    events == [] ||
    ((events[0].TimerFires? || events[0].Settles?) && Enabled(s, events[0]) &&
     Unprompted(Next(s, events[0]), events[1..]))
  }

  /** Without schedule calls at most Total(s) events can happen, whatever the outcomes, and no key is published more
      often than its attempts allow: four times from a fresh state. */
  lemma {:induction false} RetryingIsBounded(s: Scheduler, events: seq<Event>, key: string)
    requires Settled(s) && !s.closed && Unprompted(s, events)
    ensures !RunFrom(s, events).closed && |events| + Total(RunFrom(s, events).states) <= Total(s.states)
    ensures Starts(RunFrom(s, events).log, key) + AttemptsOf(RunFrom(s, events), key)
            <= Starts(s.log, key) + AttemptsOf(s, key) <= Starts(s.log, key) + 4
    decreases |events|
  {
    if events != [] {
      EventConsumes(s, events[0], key);
      RetryingIsBounded(Next(s, events[0]), events[1..], key);
    }
  }

  /** While any state is left some timer can fire or some publication can settle. */
  lemma SomethingCanHappen(s: Scheduler, key: string) returns (e: Event)
    requires Settled(s) && key in s.states
    ensures (e.TimerFires? || e.Settles?) && Enabled(s, e)
  {
    if s.states[key].timer {
      e := TimerFires(key);
    } else if s.states[key].inFlight {
      e := Settles(key, Failed);
    } else {
      assert OnePhase(s.states[key]) && key in s.queue;
      assert |s.running| > 0;
      var k :| k in s.running;
      e := Settles(k, Failed);
    }
  }

  /** A run without schedule calls that has come to rest, no timer armed and no publication under way, has removed every
      state; and it came to rest within the bound. */
  lemma RetryingEnds(s: Scheduler, events: seq<Event>)
    requires Settled(s) && !s.closed && Unprompted(s, events)
    requires forall e: Event | e.TimerFires? || e.Settles? :: !Enabled(RunFrom(s, events), e)
    ensures RunFrom(s, events).states == map[] && |events| <= Total(s.states)
  {
    var end := RunFrom(s, events);
    RetryingIsBounded(s, events, "");
    hide RunFrom, Unprompted, Settled, Total;
    if key :| key in end.states {
      var e := SomethingCanHappen(end, key);
      assert false;
    }
  }

  // ---- What becomes of each key ----

  /** Draining touches queued keys only. */
  lemma {:induction false} DrainLeavesOthers(s: Scheduler, k: string)
    requires QueueKnown(s) && k !in s.queue
    ensures k in Drain(s).states <==> k in s.states
    ensures k in s.states ==> Drain(s).states[k] == s.states[k]
    ensures Drain(s).closed == s.closed
    decreases |s.queue|
  {
    if CanStart(s) { DrainLeavesOthers(StartNext(s), k); }
  }

  /** The end of a publication, in the state's own fields. A failure is retried, up to three times: the key is armed
      again with one more retry counted. A success restores the retries. The key is dropped exactly when no call came
      in meanwhile and it did not fail, or had been retried three times already. */
  lemma SettlementOutcome(s: Scheduler, key: string, outcome: Outcome)
    requires Settled(s) && !s.closed && key in s.running
    ensures key in s.states
    ensures var c, after := s.states[key], Next(s, Settles(key, outcome));
            && (key !in after.states <==> !c.dirty && (outcome != Failed || c.retryCount >= 3))
            && (key in after.states ==>
                  && after.states[key].timer && !after.states[key].queued && !after.states[key].inFlight
                  && after.states[key].dirty
                  && after.states[key].retryCount ==
                     (if outcome == Failed && c.retryCount < 3 then c.retryCount + 1
                      else if outcome == Published then 0 else c.retryCount))
  {
    assert s.states[key].inFlight && OnePhase(s.states[key]) && s.states[key].retryCount <= MAX_RETRIES;
    SettlingIsSound(s, key, outcome);
    SettlingIs(s, key, outcome);
    DrainLeavesOthers(AfterConclusion(s, key, outcome), key);
    hide Settled, Sound, NothingLost, Drain, Next, QueueKnown;
  }

  /** A timer sends its key on: it is queued, or in flight with nothing dirty, its retries as they were. */
  lemma TimerOutcome(s: Scheduler, key: string)
    requires Settled(s) && !s.closed && key in s.states && s.states[key].timer
    ensures var c, after := s.states[key], Next(s, TimerFires(key));
            && key in after.states && !after.states[key].timer && after.states[key].retryCount == c.retryCount
            && (after.states[key].queued || (after.states[key].inFlight && !after.states[key].dirty))
  {
    assert OnePhase(s.states[key]);
    FiringKeeps(s, key);
    FiringIsSound(s, key);
    var queued := s.(states := s.states[key := s.states[key].(timer := false, queued := true)],
                     queue := s.queue + [key], enqueued := s.enqueued + [key]);
    DrainStartsOrKeeps(queued, key);
    hide Settled, Sound, NothingLost, Drain;
  }

  lemma {:induction false} DrainStartsOrKeeps(s: Scheduler, key: string)
    requires Sound(s) && NothingLost(s) && key in s.states && s.states[key].queued
    ensures var c, after := s.states[key], Drain(s);
            && key in after.states && !after.states[key].timer && after.states[key].retryCount == c.retryCount
            && (after.states[key].queued || (after.states[key].inFlight && !after.states[key].dirty))
    decreases |s.queue|
  {
    assert OnePhase(s.states[key]);
    if CanStart(s) {
      StartingKeeps(s);
      if s.queue[0] == key {
        assert QueueSound(StartNext(s));
        DrainLeavesOthers(StartNext(s), key);
      } else {
        DrainStartsOrKeeps(StartNext(s), key);
      }
    }
  }

  /** A schedule call arms a new key with no retries counted, and marks a known one dirty. */
  lemma ScheduleOutcome(s: Scheduler, key: string)
    requires Settled(s) && !s.closed
    ensures var after := Next(s, ScheduleCall(key));
            && key in after.states
            && (key !in s.states ==> after.states[key] == Command(true, false, false, false, 0))
            && (key in s.states ==> after.states[key] == s.states[key].(dirty := true))
            && forall k | k != key :: (k in after.states <==> k in s.states) &&
                                      (k in s.states ==> after.states[k] == s.states[k])
  {}

  /** Starts still to come for a key that only fails and gets no calls: four from a new state. */
  function FailuresLeft(s: Scheduler, key: string): int {
    if key !in s.states then 0
    else if s.states[key].inFlight then 3 - s.states[key].retryCount
    else 4 - s.states[key].retryCount
  }

  ghost predicate Undisturbed(s: Scheduler, key: string) {
    key in s.states && s.states[key].inFlight ==> !s.states[key].dirty
  }

  /** No schedule calls, and every publication of the key fails. */
  predicate OnlyFails(events: seq<Event>, key: string) {
    forall i | 0 <= i < |events| && events[i].Settles? && events[i].key == key :: events[i].outcome == Failed
  }

  lemma {:induction false} DrainingCounts(s: Scheduler, key: string)
    requires Sound(s) && NothingLost(s) && Undisturbed(s, key)
    ensures Undisturbed(Drain(s), key)
    ensures Starts(Drain(s).log, key) + FailuresLeft(Drain(s), key) == Starts(s.log, key) + FailuresLeft(s, key)
    decreases |s.queue|
  {
    if CanStart(s) {
      StartingKeeps(s);
      StartsAfter(s.log, Started(s.queue[0]), key);
      assert s.states[s.queue[0]].queued && OnePhase(s.states[s.queue[0]]);
      DrainingCounts(StartNext(s), key);
      hide Sound, NothingLost, Starts;
    }
  }

  lemma EventCounts(s: Scheduler, e: Event, key: string)
    requires Settled(s) && !s.closed && Enabled(s, e) && (e.TimerFires? || e.Settles?) && Undisturbed(s, key)
    requires e.Settles? && e.key == key ==> e.outcome == Failed
    ensures Undisturbed(Next(s, e), key) && !Next(s, e).closed
    ensures Starts(Next(s, e).log, key) + FailuresLeft(Next(s, e), key) == Starts(s.log, key) + FailuresLeft(s, key)
  {
    EventConsumes(s, e, key);
    match e
    case TimerFires(k) => TimerCounts(s, k, key);
    case Settles(k, outcome) => SettlingCounts(s, k, outcome, key);
  }

  lemma TimerCounts(s: Scheduler, k: string, key: string)
    requires Settled(s) && !s.closed && k in s.states && s.states[k].timer && Undisturbed(s, key)
    ensures var after := Next(s, TimerFires(k));
            && Undisturbed(after, key)
            && Starts(after.log, key) + FailuresLeft(after, key) == Starts(s.log, key) + FailuresLeft(s, key)
  {
    assert OnePhase(s.states[k]);
    FiringKeeps(s, k);
    FiringIsSound(s, k);
    var queued := s.(states := s.states[k := s.states[k].(timer := false, queued := true)],
                     queue := s.queue + [k], enqueued := s.enqueued + [k]);
    assert Next(s, TimerFires(k)) == Drain(queued);
    DrainingCounts(queued, key);
    hide Settled, Sound, NothingLost, Drain, Starts, Next;
  }

  lemma ConcludingCounts(s: Scheduler, k: string, outcome: Outcome, key: string)
    requires k in s.states && s.states[k].inFlight && s.states[k].retryCount <= MAX_RETRIES
    requires Undisturbed(s, key) && (k == key ==> outcome == Failed)
    ensures var after := AfterConclusion(s, k, outcome);
            Undisturbed(after, key) && FailuresLeft(after, key) == FailuresLeft(s, key) && after.log == s.log
  {}

  lemma SettlingCounts(s: Scheduler, k: string, outcome: Outcome, key: string)
    requires Settled(s) && !s.closed && k in s.running && Undisturbed(s, key) && (k == key ==> outcome == Failed)
    ensures var after := Next(s, Settles(k, outcome));
            && Undisturbed(after, key)
            && Starts(after.log, key) + FailuresLeft(after, key) == Starts(s.log, key) + FailuresLeft(s, key)
  {
    assert s.states[k].inFlight && OnePhase(s.states[k]) && s.states[k].retryCount <= MAX_RETRIES;
    SettlingIs(s, k, outcome);
    SettlingIsSound(s, k, outcome);
    ConcludingCounts(s, k, outcome, key);
    DrainingCounts(AfterConclusion(s, k, outcome), key);
    hide Settled, Sound, NothingLost, Drain, Starts, Next, Undisturbed, FailuresLeft;
  }

  lemma SettlingIs(s: Scheduler, k: string, outcome: Outcome)
    requires Settled(s) && !s.closed && k in s.running
    ensures k in s.states && QueueKnown(AfterConclusion(s, k, outcome))
    ensures Next(s, Settles(k, outcome)) == Drain(AfterConclusion(s, k, outcome))
  {
    SettlingKeeps(s, k, outcome);
    SettlingIsSound(s, k, outcome);
    hide Drain;
  }

  lemma {:induction false} FailingRunCounts(s: Scheduler, events: seq<Event>, key: string)
    requires Settled(s) && !s.closed && Unprompted(s, events) && OnlyFails(events, key) && Undisturbed(s, key)
    ensures var end := RunFrom(s, events);
            Starts(end.log, key) + FailuresLeft(end, key) == Starts(s.log, key) + FailuresLeft(s, key)
    decreases |events|
  {
    if events != [] {
      EventCounts(s, events[0], key);
      FailingRunCounts(Next(s, events[0]), events[1..], key);
      hide Next, Starts, FailuresLeft, Settled, Undisturbed;
    }
  }

  /** A new key whose publications all fail, and for which no call comes, has been started exactly four times when the
      run has come to rest. */
  lemma FailingKeyIsStartedFourTimes(s: Scheduler, events: seq<Event>, key: string)
    requires Settled(s) && !s.closed && key in s.states && s.states[key].timer && s.states[key].retryCount == 0
    requires Unprompted(s, events) && OnlyFails(events, key)
    requires forall e: Event | e.TimerFires? || e.Settles? :: !Enabled(RunFrom(s, events), e)
    ensures Starts(RunFrom(s, events).log, key) == Starts(s.log, key) + 4
  {
    assert OnePhase(s.states[key]);
    FailingRunCounts(s, events, key);
    RetryingEnds(s, events);
    hide RunFrom, Settled, Unprompted, Starts;
  }

  // ---- The scheduler as the server holds it ----

  class CommandUpdateScheduler {
    var states: map<string, Command>
    var queue: seq<string>
    var active: int
    var closed: bool
    ghost var running: set<string>
    ghost var log: seq<Entry>
    ghost var enqueued: seq<string>
    ghost var started: seq<string>

    ghost function View(): Scheduler
      reads this
    {
      Scheduler(states, queue, active, closed, running, log, enqueued, started)
    }

    constructor ()
      ensures View() == INITIAL
    {
      states, queue, active, closed := map[], [], 0, false;
      running, log, enqueued, started := {}, [], [], [];
    }

    method ScheduleCommandUpdate(schoolId: string, commandId: string)
      requires Settled(View()) && !closed
      modifies this
      ensures View() == Schedule(old(View()), schoolId + ":" + commandId) && Settled(View())
      ensures var key := schoolId + ":" + commandId;
              && key in states
              && states[key] == if key in old(states) then old(states)[key].(dirty := true)
                                else Command(true, false, false, false, 0)
    {
      var key := schoolId + ":" + commandId;
      SchedulingKeeps(View(), key);
      if key in states {
        states := states[key := states[key].(dirty := true)];
      } else {
        states := states[key := FRESH];
      }
      log := log + [Scheduled(key)];
    }

    /** The oldest queued key begins its publication. */
    method StartOldest()
      requires queue != [] && queue[0] in states
      modifies this
      ensures View() == StartNext(old(View()))
    {
      var key := queue[0];
      queue := queue[1..];
      states := states[key := states[key].(queued := false, inFlight := true, dirty := false)];
      active := active + 1;
      running, log, started := running + {key}, log + [Started(key)], started + [key];
    }

    method DrainCommandUpdates()
      requires Sound(View()) && NothingLost(View())
      modifies this
      ensures View() == Drain(old(View())) && Settled(View())
    {
      while !closed && active < MAX_CONCURRENT_COMMAND_UPDATE_PUBLICATIONS && |queue| > 0
        invariant Sound(View()) && NothingLost(View()) && Drain(View()) == Drain(old(View()))
        decreases |queue|
      {
        StartingDrains(View());
        hide Sound, NothingLost, Drain;
        StartOldest();
      }
    }

    /** The 50 ms timer of one state. */
    method TimerFired(key: string)
      requires Settled(View()) && key in states && states[key].timer
      modifies this
      ensures View() == FireTimer(old(View()), key) && Settled(View())
    {
      ghost var s := View();
      assert OnePhase(states[key]);
      FiringIsSound(s, key);
      hide Sound, NothingLost, Drain;
      states := states[key := states[key].(timer := false)];
      if closed || states[key].queued || states[key].inFlight { return; }
      Enqueue(s, key);
      DrainCommandUpdates();
    }

    method Enqueue(ghost s: Scheduler, key: string)
      requires key in s.states && View() == s.(states := s.states[key := s.states[key].(timer := false)])
      modifies this`states, this`queue, this`enqueued
      ensures View() == s.(states := s.states[key := s.states[key].(timer := false, queued := true)],
                           queue := s.queue + [key], enqueued := s.enqueued + [key])
    {
      states := states[key := states[key].(queued := true)];
      queue := queue + [key];
      enqueued := enqueued + [key];
    }

    /** The catch and finally handlers of one publication. */
    method PublicationSettled(key: string, outcome: Outcome)
      requires Settled(View()) && key in running
      modifies this
      ensures key !in old(queue) && View() == Settle(old(View()), key, outcome) && Settled(View())
      ensures !closed ==> key in old(states)
      ensures !closed ==> (key !in states <==> !old(states)[key].dirty &&
                                               (outcome != Failed || old(states)[key].retryCount >= 3))
      ensures !closed && key in states ==>
                && states[key].timer && !states[key].queued && !states[key].inFlight
                && states[key].retryCount == (if outcome == Failed && old(states)[key].retryCount < 3
                                              then old(states)[key].retryCount + 1
                                              else if outcome == Published then 0 else old(states)[key].retryCount)
    {
      SettlingKeeps(View(), key, outcome);
      if !closed { SettlementOutcome(View(), key, outcome); }
      hide Settled, Settle;
      FinishPublication(key, outcome);
    }

    method FinishPublication(key: string, outcome: Outcome)
      requires Settled(View()) && key in running
      modifies this
      ensures key !in old(queue) && View() == Settle(old(View()), key, outcome) && Settled(View())
    {
      ghost var s := View();
      SettlingKeeps(s, key, outcome);
      SettlingIsSound(s, key, outcome);
      hide Sound, NothingLost, Drain;
      active, running := active - 1, running - {key};
      if closed {
        states := states - {key};
        assert View() == s.(active := s.active - 1, running := s.running - {key}, states := s.states - {key});
      } else {
        Conclude(s, key, Concluded(states[key], outcome).(inFlight := false));
      }
      DrainCommandUpdates();
    }

    /** A state that is dirty is armed again, another one is dropped. */
    method Conclude(ghost s: Scheduler, key: string, c: Command)
      requires View() == s.(active := s.active - 1, running := s.running - {key})
      modifies this`states
      ensures View() == s.(active := s.active - 1, running := s.running - {key},
                           states := if c.dirty then s.states[key := c.(timer := true)] else s.states - {key})
    {
      if c.dirty {
        states := states[key := c.(timer := true)];
      } else {
        states := states - {key};
      }
    }

    method CloseServer()
      requires Settled(View())
      modifies this
      ensures View() == Close(old(View())) && Settled(View())
    {
      closed := true;
      queue := [];
      states := map[];
    }
  }
}
