/** Ordered publication over any number of tasks: one Redis register, a FIFO channel per task, and delayed replies. */
module OrderedPublication {
  import opened Wrappers
  import opened Watermarks
  import opened OrderedDelivery

  datatype Envelope = Envelope(source: int, includeSource: bool, key: string, rev: nat)

  /** An "accepted" reply on its way back to the task that published. */
  datatype Reply = Reply(task: int, key: string, rev: nat)

  /** `decisions` logs what Redis accepted and expired; `fanouts[t]` what task t delivered and evicted. */
  datatype State = State(
    register: map<string, int>,
    decisions: seq<Mark>,
    ledgers: seq<Ledger>,
    inbox: seq<seq<Envelope>>,
    replies: multiset<Reply>,
    fanouts: seq<seq<Mark>>)

  function Init(tasks: nat): State {
    State(map[], [], seq(tasks, _ => EMPTY_LEDGER), seq(tasks, _ => []), multiset{}, seq(tasks, _ => []))
  }

  /** One atomic event. A stale reply, and a "failed" reply to a command update that Redis never accepted, change
      nothing here and need no step. */
  datatype Step =
    | Publish(task: int, key: string, rev: nat, includeSource: bool, listeners: set<int>)
    | Receive(task: int)                      // the subscriber callback runs on the oldest message
    | Lose(task: int, position: int)          // pub/sub drops a message
    | Settle(reply: Reply)                    // the accepted reply arrives and the source fans out locally
    | Fail(reply: Reply, gone: bool)          // Redis accepted, but the caller sees "failed", or had given up (`gone`)
    | GiveUp(task: int, key: string, rev: nat) // the caller sees "failed" before, or without, acceptance
    | Expire(key: string)                     // the register's 24 h time to live elapses

  /** Publishers' keys are never empty. */
  predicate Enabled(s: State, step: Step) {
    match step
    case Publish(t, key, _, _, _) => 0 <= t < |s.ledgers| && key != ""
    case Receive(t) => 0 <= t < |s.ledgers| && t < |s.inbox| && s.inbox[t] != []
    case Lose(t, p) => 0 <= t < |s.inbox| && 0 <= p < |s.inbox[t]|
    case Settle(r) => r in s.replies && 0 <= r.task < |s.ledgers|
    case Fail(r, _) => r in s.replies && 0 <= r.task < |s.ledgers|
    case GiveUp(t, key, _) => 0 <= t < |s.ledgers| && key != ""
    case Expire(k) => k in s.register
  }

  predicate SameTasks(s: State, after: State) {
    |after.fanouts| == |s.fanouts| && |after.ledgers| == |s.ledgers| && |after.inbox| == |s.inbox|
  }

  /** recordOrderedDelivery and, when it advances, the fan-out to the task's own sockets. */
  function Delivered(s: State, t: int, key: string, rev: nat, origin: int): (after: State)
    requires 0 <= t < |s.ledgers| && t < |s.fanouts|
    ensures SameTasks(s, after)
  {
    var ledger := s.ledgers[t];
    if !IsNewer(ledger.marks, key, rev) then s
    else
      var log := s.fanouts[t] + [Rise(key, rev, origin)];
      s.(ledgers := s.ledgers[t := Recorded(ledger, key, rev)],
         fanouts := s.fanouts[t := if Evicted(ledger, key).Some? then log + [Forget(Evicted(ledger, key).value)]
                                   else log])
  }

  function Published(s: State, t: int, key: string, rev: nat, includeSource: bool, listeners: set<int>): (after: State)
    ensures SameTasks(s, after)
  {
    if !IsNewer(s.register, key, rev) then s
    else
      var envelope := Envelope(t, includeSource, key, rev);
      s.(register := Reserved(s.register, key, rev),
         decisions := s.decisions + [Rise(key, rev, t)],
         inbox := seq(|s.inbox|, i requires 0 <= i < |s.inbox| =>
                    if i in listeners then s.inbox[i] + [envelope] else s.inbox[i]),
         replies := s.replies + multiset{Reply(t, key, rev)})
  }

  function Popped(s: State, t: int): State
    requires 0 <= t < |s.inbox| && s.inbox[t] != []
  {
    s.(inbox := s.inbox[t := s.inbox[t][1..]])
  }

  /** The subscriber skips an envelope of its own task that does not include its source. */
  function Received(s: State, t: int): (after: State)
    requires 0 <= t < |s.ledgers| && t < |s.inbox| && s.inbox[t] != [] && |s.fanouts| == |s.ledgers|
    ensures SameTasks(s, after)
  {
    var envelope := s.inbox[t][0];
    if envelope.source == t && !envelope.includeSource then Popped(s, t)
    else Delivered(Popped(s, t), t, envelope.key, envelope.rev, envelope.source)
  }

  function Lost(s: State, t: int, p: int): State
    requires 0 <= t < |s.inbox| && 0 <= p < |s.inbox[t]|
  {
    s.(inbox := s.inbox[t := s.inbox[t][..p] + s.inbox[t][p + 1..]])
  }

  function Taken(s: State, r: Reply): State {
    s.(replies := s.replies - multiset{r})
  }

  function Settled(s: State, r: Reply): (after: State)
    requires 0 <= r.task < |s.ledgers| && |s.fanouts| == |s.ledgers|
    ensures SameTasks(s, after)
  {
    Delivered(Taken(s, r), r.task, r.key, r.rev, r.task)
  }

  /** Only a status update is delivered on failure, while its caller still waits. */
  function Failed(s: State, r: Reply, gone: bool): (after: State)
    requires 0 <= r.task < |s.ledgers| && |s.fanouts| == |s.ledgers|
    ensures SameTasks(s, after)
  {
    if IsStatusKey(r.key) && !gone then Settled(s, r) else Taken(s, r)
  }

  function GivenUp(s: State, t: int, key: string, rev: nat): (after: State)
    requires 0 <= t < |s.ledgers| && |s.fanouts| == |s.ledgers|
    ensures SameTasks(s, after)
  {
    if IsStatusKey(key) then Delivered(s, t, key, rev, t) else s
  }

  function Expired(s: State, key: string): State {
    s.(register := s.register - {key}, decisions := s.decisions + [Forget(key)])
  }

  function Next(s: State, step: Step): (after: State)
    requires |s.fanouts| == |s.ledgers|
    ensures SameTasks(s, after)
  {
    if !Enabled(s, step) then s else
    match step
    case Publish(t, key, rev, includeSource, listeners) => Published(s, t, key, rev, includeSource, listeners)
    case Receive(t) => Received(s, t)
    case Lose(t, p) => Lost(s, t, p)
    case Settle(r) => Settled(s, r)
    case Fail(r, gone) => Failed(s, r, gone)
    case GiveUp(t, key, rev) => GivenUp(s, t, key, rev)
    case Expire(k) => Expired(s, k)
  }

  function Run(tasks: nat, steps: seq<Step>): (s: State)
    ensures |s.fanouts| == |s.ledgers| == |s.inbox| == tasks
  {
    if steps == [] then Init(tasks) else Next(Run(tasks, steps[..|steps| - 1]), steps[|steps| - 1])
  }

  // ---- Safety: every run ----

  /** Redis's log justifies its register, each task's log justifies its ledger, nothing travels that Redis did not
      accept from the source it names, and nothing else was delivered but a task's own status updates. */
  ghost predicate Safe(s: State) {
    |s.fanouts| == |s.ledgers| == |s.inbox| &&
    Faithful(s.decisions, s.register) &&
    (forall t | 0 <= t < |s.ledgers| :: Faithful(s.fanouts[t], s.ledgers[t].marks)) &&
    (forall t | 0 <= t < |s.fanouts| :: Justified(s.fanouts[t], t, s.decisions)) &&
    (forall t | 0 <= t < |s.inbox| :: Announced(s.inbox[t], s.decisions)) &&
    (forall r | r in s.replies :: Rise(r.key, r.rev, r.task) in s.decisions)
  }

  ghost predicate Justified(log: seq<Mark>, t: int, decisions: seq<Mark>) {
    forall i | 0 <= i < |log| && log[i].Rise? :: MayDeliver(log[i], t, decisions)
  }

  predicate MayDeliver(mark: Mark, t: int, decisions: seq<Mark>) {
    mark in decisions || (mark.Rise? && mark.task == t && IsStatusKey(mark.key))
  }

  ghost predicate Announced(queue: seq<Envelope>, decisions: seq<Mark>) {
    forall i | 0 <= i < |queue| :: Rise(queue[i].key, queue[i].rev, queue[i].source) in decisions
  }

  lemma DeliveringIsSafe(s: State, t: int, key: string, rev: nat, origin: int)
    requires Safe(s) && 0 <= t < |s.ledgers| && MayDeliver(Rise(key, rev, origin), t, s.decisions)
    ensures Safe(Delivered(s, t, key, rev, origin))
  {
    hide Faithful, Announced, IsStatusKey;
    var ledger := s.ledgers[t];
    if IsNewer(ledger.marks, key, rev) {
      RiseIsFaithful(s.fanouts[t], ledger.marks, key, rev, origin);
      if Evicted(ledger, key).Some? {
        ForgetIsFaithful(s.fanouts[t] + [Rise(key, rev, origin)], ledger.marks[key := rev], Evicted(ledger, key).value);
      }
    }
  }

  lemma DecidingIsSafe(s: State, register: map<string, int>, mark: Mark)
    requires Safe(s) && Faithful(s.decisions + [mark], register)
    ensures Safe(s.(register := register, decisions := s.decisions + [mark]))
  {
    hide Faithful, IsStatusKey;
  }

  lemma PublishingIsSafe(s: State, t: int, key: string, rev: nat, includeSource: bool, listeners: set<int>)
    requires Safe(s)
    ensures Safe(Published(s, t, key, rev, includeSource, listeners))
  {
    if IsNewer(s.register, key, rev) {
      RiseIsFaithful(s.decisions, s.register, key, rev, t);
      DecidingIsSafe(s, s.register[key := rev], Rise(key, rev, t));
      hide Faithful, Justified;
    }
  }

  lemma ReceivingIsSafe(s: State, t: int)
    requires Safe(s) && 0 <= t < |s.inbox| && s.inbox[t] != []
    ensures Safe(Received(s, t))
  {
    var envelope := s.inbox[t][0];
    assert Safe(Popped(s, t)) by { hide Faithful, Justified; }
    if !(envelope.source == t && !envelope.includeSource) {
      DeliveringIsSafe(Popped(s, t), t, envelope.key, envelope.rev, envelope.source);
    }
    hide Safe, Delivered;
  }

  lemma LosingIsSafe(s: State, t: int, p: int)
    requires Safe(s) && 0 <= t < |s.inbox| && 0 <= p < |s.inbox[t]|
    ensures Safe(Lost(s, t, p))
  {
    hide Faithful, Justified;
  }

  lemma TakingIsSafe(s: State, r: Reply)
    requires Safe(s) && r in s.replies && 0 <= r.task < |s.ledgers|
    ensures Safe(Taken(s, r)) && Safe(Settled(s, r))
  {
    assert Safe(Taken(s, r)) by { hide Faithful, Justified, Announced; }
    DeliveringIsSafe(Taken(s, r), r.task, r.key, r.rev, r.task);
    hide Safe, Delivered;
  }

  lemma ExpiringIsSafe(s: State, key: string)
    requires Safe(s)
    ensures Safe(Expired(s, key))
  {
    ForgetIsFaithful(s.decisions, s.register, key);
    DecidingIsSafe(s, s.register - {key}, Forget(key));
    hide Safe;
  }

  /** What each enabled step does. */
  lemma NextIs(s: State, step: Step)
    requires |s.fanouts| == |s.ledgers| == |s.inbox|
    ensures !Enabled(s, step) ==> Next(s, step) == s
    ensures Enabled(s, step) ==>
              match step
              case Publish(t, key, rev, includeSource, listeners) =>
                Next(s, step) == Published(s, t, key, rev, includeSource, listeners)
              case Receive(t) => Next(s, step) == Received(s, t)
              case Lose(t, p) => Next(s, step) == Lost(s, t, p)
              case Settle(r) => Next(s, step) == Settled(s, r)
              case Fail(r, gone) =>
                Next(s, step) == if IsStatusKey(r.key) && !gone then Settled(s, r) else Taken(s, r)
              case GiveUp(t, key, rev) =>
                Next(s, step) == if IsStatusKey(key) then Delivered(s, t, key, rev, t) else s
              case Expire(k) => Next(s, step) == Expired(s, k)
  {
    hide Published, Received, Lost, Settled, Taken, Delivered, Expired, IsStatusKey;
  }

  lemma StepIsSafe(s: State, step: Step)
    requires Safe(s)
    ensures Safe(Next(s, step))
  {
    NextIs(s, step);
    hide Next, Safe, Published, Received, Lost, Taken, Settled, Delivered, Expired, IsStatusKey;
    if Enabled(s, step) {
      match step
      case Publish(t, key, rev, includeSource, listeners) => PublishingIsSafe(s, t, key, rev, includeSource, listeners);
      case Receive(t) => ReceivingIsSafe(s, t);
      case Lose(t, p) => LosingIsSafe(s, t, p);
      case Settle(r) => TakingIsSafe(s, r);
      case Fail(r, _) => TakingIsSafe(s, r);
      case GiveUp(t, key, rev) => if IsStatusKey(key) { DeliveringIsSafe(s, t, key, rev, t); }
      case Expire(k) => ExpiringIsSafe(s, k);
    }
  }

  lemma {:induction false} RunIsSafe(tasks: nat, steps: seq<Step>)
    ensures Safe(Run(tasks, steps))
  {
    if steps != [] {
      RunIsSafe(tasks, steps[..|steps| - 1]);
      StepIsSafe(Run(tasks, steps[..|steps| - 1]), steps[|steps| - 1]);
    }
  }

  /** In every run, a task's deliveries of one key strictly increase unless its ledger evicted the key in between,
      and each was accepted by Redis from the source it names, but for the task's own status updates. */
  lemma DeliveriesIncrease(tasks: nat, steps: seq<Step>, t: int, i: int, j: int)
    requires 0 <= t < tasks
    requires var log := Run(tasks, steps).fanouts[t];
             && 0 <= i < j < |log| && log[i].Rise? && log[j].Rise? && log[i].key == log[j].key
             && forall e | i < e < j :: log[e] != Forget(log[i].key)
    ensures var s := Run(tasks, steps);
            && s.fanouts[t][i].rev < s.fanouts[t][j].rev
            && forall e | e == i || e == j ::
                 !IsStatusKey(s.fanouts[t][e].key) || s.fanouts[t][e].task != t ==> s.fanouts[t][e] in s.decisions
  {
    RunIsSafe(tasks, steps);
    var s := Run(tasks, steps);
    hide Run, Next;
    RisesIncrease(s.fanouts[t], s.ledgers[t].marks, i, j);
  }

  /** The exception is real: Redis unreachable, a task delivers its own status update that Redis never saw. */
  lemma StatusUpdateNeedsNoAcceptance(tasks: nat, t: int, key: string, rev: nat)
    requires 0 <= t < tasks && IsStatusKey(key)
    ensures var s := Run(tasks, [GiveUp(t, key, rev)]);
            s.fanouts[t] == [Rise(key, rev, t)] && s.decisions == []
  {
    var steps := [GiveUp(t, key, rev)];
    assert steps[..0] == [] && key != "" && Run(tasks, []) == Init(tasks);
    assert Run(tasks, steps) == Next(Init(tasks), steps[0]);
  }

  /** In every run, Redis accepts strictly increasing revisions of a key unless the key expired in between, and
      the register holds the last one. */
  lemma AcceptancesIncrease(tasks: nat, steps: seq<Step>, i: int, j: int)
    requires var log := Run(tasks, steps).decisions;
             && 0 <= i < j < |log| && log[i].Rise? && log[j].Rise? && log[i].key == log[j].key
             && forall e | i < e < j :: log[e] != Forget(log[i].key)
    ensures var s := Run(tasks, steps);
            && s.decisions[i].rev < s.decisions[j].rev
            && ((forall e | j < e < |s.decisions| :: s.decisions[e].key != s.decisions[j].key) ==>
                s.decisions[j].key in s.register && s.register[s.decisions[j].key] == s.decisions[j].rev)
  {
    RunIsSafe(tasks, steps);
    var s := Run(tasks, steps);
    hide Run, Next;
    RisesIncrease(s.decisions, s.register, i, j);
    if forall e | j < e < |s.decisions| :: s.decisions[e].key != s.decisions[j].key {
      LastRiseIsMark(s.decisions, s.register, j);
    }
  }

  /** The step on which task t may deliver the mark as its own. */
  ghost predicate Releases(s: State, step: Step, t: int, mark: Mark)
    requires mark.Rise? && |s.inbox| == |s.ledgers|
  {
    mark.rev >= 0 && Enabled(s, step) &&
    var own := Reply(t, mark.key, mark.rev);
    || step == Settle(own)
    || (step == Receive(t) && s.inbox[t][0] == Envelope(t, true, mark.key, mark.rev))
    || (IsStatusKey(mark.key) && (step == Fail(own, false) || step == GiveUp(t, mark.key, mark.rev)))
  }

  /** But for status updates, what is released was accepted. */
  lemma ReleasedIsAccepted(s: State, step: Step, t: int, mark: Mark)
    requires Safe(s) && mark.Rise? && mark.task == t && Releases(s, step, t, mark) && !IsStatusKey(mark.key)
    ensures mark in s.decisions
  {
    hide Faithful, Justified, IsStatusKey;
  }

  lemma DeliveringFansOut(s: State, u: int, key: string, rev: nat, origin: int, t: int)
    requires 0 <= u < |s.ledgers| && |s.fanouts| == |s.ledgers| && 0 <= t < |s.fanouts|
    ensures var log, next := s.fanouts[t], Delivered(s, u, key, rev, origin).fanouts[t];
            && log <= next && (u != t ==> next == log)
            && forall i | |log| <= i < |next| && next[i].Rise? :: next[i] == Rise(key, rev, origin)
  {
    hide Recorded;
  }

  /** Fan-outs are never withdrawn, and each new one of a task's own is released by the step. */
  lemma NewFanOutIsReleased(s: State, step: Step, t: int)
    requires |s.fanouts| == |s.ledgers| == |s.inbox| && 0 <= t < |s.fanouts|
    ensures var log, next := s.fanouts[t], Next(s, step).fanouts[t];
            && log <= next
            && forall i | |log| <= i < |next| && next[i].Rise? && next[i].task == t :: Releases(s, step, t, next[i])
  {
    hide Delivered, IsStatusKey;
    if Enabled(s, step) {
      match step
      case Receive(u) =>
        var e := s.inbox[u][0];
        DeliveringFansOut(Popped(s, u), u, e.key, e.rev, e.source, t);
      case Settle(r) => DeliveringFansOut(Taken(s, r), r.task, r.key, r.rev, r.task, t);
      case Fail(r, _) => DeliveringFansOut(Taken(s, r), r.task, r.key, r.rev, r.task, t);
      case GiveUp(u, key, rev) => DeliveringFansOut(s, u, key, rev, u, t);
      case _ =>
    }
  }

  /** In every run, a task that delivered a publication of its own had its accepted reply, or had asked to be included
      and received it; a status update alone may also follow a failure. But for that, Redis had accepted it before. */
  lemma {:induction false} OwnFanOutNeedsReply(tasks: nat, steps: seq<Step>, t: int, i: int) returns (n: nat)
    requires 0 <= t < tasks && 0 <= i < |Run(tasks, steps).fanouts[t]|
    requires Run(tasks, steps).fanouts[t][i].Rise? && Run(tasks, steps).fanouts[t][i].task == t
    ensures n < |steps|
    ensures var mark, before := Run(tasks, steps).fanouts[t][i], Run(tasks, steps[..n]);
            Releases(before, steps[n], t, mark) && (!IsStatusKey(mark.key) ==> mark in before.decisions)
  {
    var earlier, step := steps[..|steps| - 1], steps[|steps| - 1];
    var before := Run(tasks, earlier);
    assert Run(tasks, steps) == Next(before, step);
    hide Run, Next, IsStatusKey, Faithful;
    NewFanOutIsReleased(before, step, t);
    if i < |before.fanouts[t]| {
      n := OwnFanOutNeedsReply(tasks, earlier, t, i);
      assert earlier[..n] == steps[..n];
    } else {
      n := |steps| - 1;
      RunIsSafe(tasks, earlier);
      hide Safe, Releases;
      if !IsStatusKey(Run(tasks, steps).fanouts[t][i].key) {
        ReleasedIsAccepted(before, step, t, Run(tasks, steps).fanouts[t][i]);
      }
    }
  }

  /** Once its register has expired a key starts anew: whatever revision comes next is accepted. */
  lemma ExpiredKeyStartsAnew(s: State, key: string, task: int, rev: nat)
    requires |s.fanouts| == |s.ledgers| == |s.inbox| && key in s.register && key != "" && 0 <= task < |s.ledgers|
    ensures var after := Next(Next(s, Expire(key)), Publish(task, key, rev, false, {}));
            && key in after.register && after.register[key] == rev
            && after.decisions == s.decisions + [Forget(key), Rise(key, rev, task)]
  {
    assert s.decisions + [Forget(key)] + [Rise(key, rev, task)] == s.decisions + [Forget(key), Rise(key, rev, task)];
  }

  // ---- The ledgers' limit ----

  ghost predicate Small(s: State) {
    |s.fanouts| == |s.ledgers| == |s.inbox| &&
    (forall t | 0 <= t < |s.ledgers| :: Limited(s.ledgers[t])) &&
    (forall t, i | 0 <= t < |s.inbox| && 0 <= i < |s.inbox[t]| :: s.inbox[t][i].key != "") &&
    (forall r | r in s.replies :: r.key != "")
  }

  lemma DeliveringStaysSmall(s: State, t: int, key: string, rev: nat, origin: int)
    requires Small(s) && 0 <= t < |s.ledgers| && key != ""
    ensures Small(Delivered(s, t, key, rev, origin))
  {
    RecordingKeepsLimit(s.ledgers[t], key, rev);
    hide Limited, Recorded, Evicted;
  }

  lemma PublishingStaysSmall(s: State, t: int, key: string, rev: nat, includeSource: bool, listeners: set<int>)
    requires Small(s) && key != ""
    ensures Small(Published(s, t, key, rev, includeSource, listeners))
  {
    hide Limited;
  }

  lemma ReceivingStaysSmall(s: State, t: int)
    requires Small(s) && 0 <= t < |s.inbox| && s.inbox[t] != []
    ensures Small(Received(s, t))
  {
    var envelope := s.inbox[t][0];
    assert Small(Popped(s, t)) by { hide Limited; }
    DeliveringStaysSmall(Popped(s, t), t, envelope.key, envelope.rev, envelope.source);
    hide Small, Delivered;
  }

  lemma LosingStaysSmall(s: State, t: int, p: int)
    requires Small(s) && 0 <= t < |s.inbox| && 0 <= p < |s.inbox[t]|
    ensures Small(Lost(s, t, p))
  {
    hide Limited;
  }

  lemma TakingStaysSmall(s: State, r: Reply)
    requires Small(s) && r in s.replies && 0 <= r.task < |s.ledgers|
    ensures Small(Taken(s, r)) && Small(Settled(s, r))
  {
    assert Small(Taken(s, r)) by { hide Limited; }
    DeliveringStaysSmall(Taken(s, r), r.task, r.key, r.rev, r.task);
    hide Small, Delivered;
  }

  lemma ExpiringStaysSmall(s: State, key: string)
    requires Small(s)
    ensures Small(Expired(s, key))
  {
    hide Limited;
  }

  lemma StepStaysSmall(s: State, step: Step)
    requires Small(s)
    ensures Small(Next(s, step))
  {
    NextIs(s, step);
    hide Next, Small, Published, Received, Lost, Taken, Settled, Delivered, IsStatusKey;
    if Enabled(s, step) {
      match step
      case Publish(t, key, rev, includeSource, listeners) =>
        PublishingStaysSmall(s, t, key, rev, includeSource, listeners);
      case Receive(t) => ReceivingStaysSmall(s, t);
      case Lose(t, p) => LosingStaysSmall(s, t, p);
      case Settle(r) => TakingStaysSmall(s, r);
      case Fail(r, _) => TakingStaysSmall(s, r);
      case GiveUp(t, key, rev) => if IsStatusKey(key) { DeliveringStaysSmall(s, t, key, rev, t); }
      case Expire(k) => ExpiringStaysSmall(s, k);
    }
  }

  /** In every run, no task's ledger ever holds more than 10 000 keys. */
  lemma {:induction false} LedgersStayLimited(tasks: nat, steps: seq<Step>)
    ensures Small(Run(tasks, steps))
    ensures forall t | 0 <= t < tasks :: |Run(tasks, steps).ledgers[t].order| <= 10_000
  {
    if steps != [] {
      LedgersStayLimited(tasks, steps[..|steps| - 1]);
      StepStaysSmall(Run(tasks, steps[..|steps| - 1]), steps[|steps| - 1]);
    }
  }
}
