/** When a task's watermark for a key agrees with Redis's, once everything in flight has arrived: exactly when the key's
    last accepted publication was not missed, on any run in which the key does not expire. */
module OrderedAgreement {
  import opened Wrappers
  import opened Watermarks
  import opened OrderedDelivery
  import opened OrderedPublication

  // ---- What became of the last accepted publication ----

  predicate Accepts(s: State, step: Step, k: string) {
    step.Publish? && Enabled(s, step) && step.key == k && IsNewer(s.register, k, step.rev)
  }

  /** The highest revision accepted so far, or -1. */
  function Top(s: State, k: string): int {
    if k in s.register then s.register[k] else -1
  }

  /** A message that task t delivers when it arrives. */
  predicate Concerns(e: Envelope, t: int, k: string, rev: int) {
    e.key == k && e.rev == rev && (e.source != t || e.includeSource)
  }

  /** The step evicts the key from task t's ledger, to keep it within its limit. */
  predicate Evicts(s: State, step: Step, t: int, k: string)
    requires |s.fanouts| == |s.ledgers| && 0 <= t < |s.ledgers|
  {
    Drops(s.ledgers[t], Next(s, step).ledgers[t], k)
  }

  predicate Drops(before: Ledger, after: Ledger, k: string) {
    k in before.marks && k !in after.marks
  }

  /** Task t neither has the last accepted publication by pub/sub nor will: it was not listening, or is the source and
      not included, or the message was lost, or arrived before the task evicted the key. */
  function ChannelMissed(tasks: nat, steps: seq<Step>, t: int, k: string): bool
    requires 0 <= t < tasks
  {
    if steps == [] then true
    else
      var before, step := steps[..|steps| - 1], steps[|steps| - 1];
      ChannelMissedAfter(Run(tasks, before), step, t, k, ChannelMissed(tasks, before, t, k))
  }

  function ChannelMissedAfter(s: State, step: Step, t: int, k: string, missed: bool): bool
    requires |s.fanouts| == |s.ledgers| == |s.inbox| && 0 <= t < |s.ledgers|
  {
    if Accepts(s, step, k) then !(t in step.listeners && (t != step.task || step.includeSource))
    else
      || missed
      || (step.Lose? && step.task == t && Enabled(s, step) && Concerns(s.inbox[t][step.position], t, k, Top(s, k)))
      || (Evicts(s, step, t, k) && !Approaching(Next(s, step).inbox[t], t, k, Top(s, k)))
  }

  /** Nor by its reply: it is not the source, or the reply failed without a local delivery, or came before the task
      evicted the key. */
  function ReplyMissed(tasks: nat, steps: seq<Step>, t: int, k: string): bool
    requires 0 <= t < tasks
  {
    if steps == [] then true
    else
      var before, step := steps[..|steps| - 1], steps[|steps| - 1];
      ReplyMissedAfter(Run(tasks, before), step, t, k, ReplyMissed(tasks, before, t, k))
  }

  function ReplyMissedAfter(s: State, step: Step, t: int, k: string, missed: bool): bool
    requires |s.fanouts| == |s.ledgers| == |s.inbox| && 0 <= t < |s.ledgers|
  {
    if Accepts(s, step, k) then t != step.task
    else
      || missed
      || (step.Fail? && Enabled(s, step) && Owes(step.reply, t, k, Top(s, k)) && !(IsStatusKey(k) && !step.gone))
      || (Evicts(s, step, t, k) && !Replying(Next(s, step), t, k, Top(s, k)))
  }

  predicate Owes(r: Reply, t: int, k: string, rev: int) {
    r.task == t && r.key == k && r.rev == rev
  }

  predicate Missed(tasks: nat, steps: seq<Step>, t: int, k: string)
    requires 0 <= t < tasks
  {
    ChannelMissed(tasks, steps, t, k) && ReplyMissed(tasks, steps, t, k)
  }

  /** The highest revision task t delivered on its own account after giving up on a status update, since it last
      evicted the key; or -1. */
  function GivenUpTo(tasks: nat, steps: seq<Step>, t: int, k: string): int
    requires 0 <= t < tasks
  {
    if steps == [] then -1
    else
      var before, step := steps[..|steps| - 1], steps[|steps| - 1];
      GivenUpAfter(Run(tasks, before), step, t, k, GivenUpTo(tasks, before, t, k))
  }

  function GivenUpAfter(s: State, step: Step, t: int, k: string, rev: int): int
    requires |s.fanouts| == |s.ledgers| && 0 <= t < |s.ledgers|
  {
    if Evicts(s, step, t, k) then -1
    else if step.GiveUp? && step.task == t && step.key == k && k != "" && IsStatusKey(k) then Max(rev, step.rev)
    else rev
  }

  function Max(a: int, b: int): int {
    if a < b then b else a
  }

  // ---- The invariant ----

  /** Task t's watermark, or -1. */
  function MarkOf(l: Ledger, k: string): int {
    if k in l.marks then l.marks[k] else -1
  }

  predicate Approaching(queue: seq<Envelope>, t: int, k: string, rev: int) {
    exists i :: 0 <= i < |queue| && Concerns(queue[i], t, k, rev)
  }

  predicate Replying(s: State, t: int, k: string, rev: int) {
    rev >= 0 && Reply(t, k, rev) in s.replies
  }

  /** A key's revisions ascend in a queue and do not exceed the register's. */
  predicate QueueAscends(queue: seq<Envelope>, k: string, top: int) {
    (forall i | 0 <= i < |queue| && queue[i].key == k :: queue[i].rev <= top) &&
    forall i, j | 0 <= i < j < |queue| && queue[i].key == k && queue[j].key == k :: queue[i].rev < queue[j].rev
  }

  predicate RepliesBounded(replies: multiset<Reply>, k: string, top: int) {
    forall r | r in replies && r.key == k :: r.rev <= top && replies[r] <= 1
  }

  /** The revision came by one of the two ways: neither pending nor missed. */
  predicate Arrived(coming: bool, channelMissed: bool, replying: bool, replyMissed: bool) {
    (!coming && !channelMissed) || (!replying && !replyMissed)
  }

  /** The task holds the last accepted revision exactly when it arrived, or when it had given up on that very one. */
  predicate Accounted(mark: int, top: int, given: int, coming: bool, channelMissed: bool, replying: bool,
                      replyMissed: bool) {
    given <= mark <= Max(given, top) && !(coming && channelMissed) && !(replying && replyMissed) &&
    (given < top ==> (mark == top <==> Arrived(coming, channelMissed, replying, replyMissed)))
  }

  ghost predicate Held(s: State, t: int, k: string, given: int, channelMissed: bool, replyMissed: bool)
    requires 0 <= t < |s.ledgers| && t < |s.inbox|
  {
    var top := Top(s, k);
    && QueueAscends(s.inbox[t], k, top) && RepliesBounded(s.replies, k, top)
    && (k in s.register ==> top >= 0)
    && Accounted(MarkOf(s.ledgers[t], k), top, given, Approaching(s.inbox[t], t, k, top), channelMissed,
                 Replying(s, t, k, top), replyMissed)
  }

  ghost predicate HeldAfter(s: State, step: Step, t: int, k: string, given: int, channelMissed: bool, replyMissed: bool)
    requires |s.fanouts| == |s.ledgers| == |s.inbox| && 0 <= t < |s.ledgers|
  {
    Held(Next(s, step), t, k, GivenUpAfter(s, step, t, k, given), ChannelMissedAfter(s, step, t, k, channelMissed),
         ReplyMissedAfter(s, step, t, k, replyMissed))
  }

  /** What a change of state leaves that accepts, loses and gives up nothing, but may evict the key. */
  ghost predicate HeldIn(s: State, after: State, t: int, k: string, given: int, channelMissed: bool, replyMissed: bool)
    requires 0 <= t < |s.ledgers| && t < |after.ledgers| && t < |after.inbox|
  {
    var drops, top := Drops(s.ledgers[t], after.ledgers[t], k), Top(s, k);
    Held(after, t, k, if drops then -1 else given,
         channelMissed || (drops && !Approaching(after.inbox[t], t, k, top)),
         replyMissed || (drops && !Replying(after, t, k, top)))
  }

  // ---- One delivery ----

  lemma RecordingMarks(l: Ledger, key: string, rev: nat, k: string)
    requires Limited(l)
    ensures var after := Recorded(l, key, rev);
            && (k == key ==> !Drops(l, after, k) && MarkOf(after, k) == Max(MarkOf(l, k), rev))
            && (k != key ==> MarkOf(after, k) == if Drops(l, after, k) then -1 else MarkOf(l, k))
  {
    assert l.order != [] ==> l.order[0] in l.marks;
    assert key in l.marks ==> |l.order| <= MAX_ORDERED_DELIVERY_REVISIONS;
    hide WellOrdered;
  }

  lemma DeliveringRecords(s: State, t: int, key: string, rev: nat, origin: int)
    requires 0 <= t < |s.ledgers| && t < |s.fanouts|
    ensures var after := Delivered(s, t, key, rev, origin);
            && after.ledgers == s.ledgers[t := Recorded(s.ledgers[t], key, rev)]
            && after.inbox == s.inbox && after.replies == s.replies && after.register == s.register
  {
    hide Evicted, IsNewer;
  }

  /** A delivery to task u, seen from task t's watermark for k. */
  lemma DeliveringMarks(s: State, u: int, key: string, rev: nat, origin: int, t: int, k: string)
    requires Small(s) && 0 <= u < |s.ledgers| && 0 <= t < |s.ledgers|
    ensures var after := Delivered(s, u, key, rev, origin);
            var drops := Drops(s.ledgers[t], after.ledgers[t], k);
            && after.inbox == s.inbox && after.replies == s.replies && after.register == s.register
            && MarkOf(after.ledgers[t], k)
               == (if drops then -1
                   else if u == t && key == k then Max(MarkOf(s.ledgers[t], k), rev) else MarkOf(s.ledgers[t], k))
            && (drops ==> u == t && key != k)
  {
    RecordingMarks(s.ledgers[u], key, rev, k);
    DeliveringRecords(s, u, key, rev, origin);
    hide Small, Delivered, Recorded, Evicted, MarkOf, Max;
  }

  /** A delivery of an older revision changes no account; one of the last revision ends the way it came; an eviction
      makes both ways missed that are not pending. */
  lemma DeliveringAccounts(mark: int, top: int, given: int, coming: bool, cm: bool, replying: bool, rm: bool, rev: int)
    requires Accounted(mark, top, given, coming, cm, replying, rm)
    ensures rev < top ==> Accounted(Max(mark, rev), top, given, coming, cm, replying, rm)
    ensures rev == top && coming ==> Accounted(Max(mark, rev), top, given, false, cm, replying, rm)
    ensures rev == top && replying ==> Accounted(Max(mark, rev), top, given, coming, cm, false, rm)
    ensures coming ==> Accounted(mark, top, given, false, true, replying, rm)
    ensures replying ==> Accounted(mark, top, given, coming, cm, false, true)
    ensures Accounted(Max(mark, rev), top, Max(given, rev), coming, cm, replying, rm)
    ensures top >= -1 ==> Accounted(-1, top, -1, coming, cm || !coming, replying, rm || !replying)
  {}

  // ---- One step ----

  lemma RemovingAscends(queue: seq<Envelope>, p: int, t: int, k: string, top: int)
    requires 0 <= p < |queue| && QueueAscends(queue, k, top)
    ensures var rest := queue[..p] + queue[p + 1..];
            && QueueAscends(rest, k, top)
            && (Approaching(rest, t, k, top) <==> Approaching(queue, t, k, top) && !Concerns(queue[p], t, k, top))
  {
    var rest := queue[..p] + queue[p + 1..];
    assert forall i | 0 <= i < |rest| :: rest[i] == queue[if i < p then i else i + 1];
    if i :| 0 <= i < |queue| && Concerns(queue[i], t, k, top) && i != p {
      assert rest[if i < p then i else i - 1] == queue[i];
    }
  }

  lemma AppendingAscends(queue: seq<Envelope>, e: Envelope, t: int, k: string, top: int)
    requires QueueAscends(queue, k, top)
    ensures e.key == k && e.rev > top ==>
              && QueueAscends(queue, k, e.rev) && !Approaching(queue, t, k, e.rev)
              && QueueAscends(queue + [e], k, e.rev)
              && (Approaching(queue + [e], t, k, e.rev) <==> Concerns(e, t, k, e.rev))
    ensures e.key != k ==>
              && QueueAscends(queue + [e], k, top)
              && (Approaching(queue + [e], t, k, top) <==> Approaching(queue, t, k, top))
  {
    var next := queue + [e];
    assert next[|queue|] == e && forall i | 0 <= i < |queue| :: next[i] == queue[i];
    if e.key != k {
      if i :| 0 <= i < |queue| && Concerns(queue[i], t, k, top) { assert Concerns(next[i], t, k, top); }
    }
  }

  lemma AddingReplies(replies: multiset<Reply>, r: Reply, k: string, top: int)
    requires RepliesBounded(replies, k, top)
    ensures r.key == k && r.rev > top ==> r !in replies && RepliesBounded(replies + multiset{r}, k, r.rev)
    ensures r.key != k ==> RepliesBounded(replies + multiset{r}, k, top)
  {}

  /** A publication gives the last accepted revision its two ways to each task. */
  lemma PublishingHolds(s: State, step: Step, t: int, k: string, given: int, cm: bool, rm: bool)
    requires |s.fanouts| == |s.ledgers| == |s.inbox| && 0 <= t < |s.ledgers| && Accepts(s, step, k)
    requires Held(s, t, k, given, cm, rm)
    ensures Held(Next(s, step), t, k, given, !(t in step.listeners && (t != step.task || step.includeSource)),
                 t != step.task)
  {
    var after, top := Next(s, step), Top(s, k);
    var envelope := Envelope(step.task, step.includeSource, step.key, step.rev);
    var reply := Reply(step.task, step.key, step.rev);
    PublishedIs(s, step, t);
    AppendingAscends(s.inbox[t], envelope, t, k, top);
    AddingReplies(s.replies, reply, k, top);
    assert Top(after, k) == step.rev;
    assert forall r | r in s.replies && r.key == k :: r.rev < step.rev;
    hide QueueAscends, RepliesBounded, Approaching, MarkOf, Next, Published, Top;
  }

  lemma PublishedIs(s: State, step: Step, t: int)
    requires |s.fanouts| == |s.ledgers| == |s.inbox| && 0 <= t < |s.ledgers| && step.Publish? && Enabled(s, step)
    requires IsNewer(s.register, step.key, step.rev)
    ensures var after := Next(s, step);
            && after.register == s.register[step.key := step.rev] && after.ledgers == s.ledgers
            && after.replies == s.replies + multiset{Reply(step.task, step.key, step.rev)}
            && after.inbox[t] == if t in step.listeners
                                 then s.inbox[t] + [Envelope(step.task, step.includeSource, step.key, step.rev)]
                                 else s.inbox[t]
  {}

  lemma PublishingElsewhereHolds(s: State, step: Step, t: int, k: string, given: int, cm: bool, rm: bool)
    requires |s.fanouts| == |s.ledgers| == |s.inbox| && 0 <= t < |s.ledgers| && step.Publish? && Enabled(s, step)
    requires step.key != k && IsNewer(s.register, step.key, step.rev) && Held(s, t, k, given, cm, rm)
    ensures Held(Next(s, step), t, k, given, cm, rm)
  {
    var after, top := Next(s, step), Top(s, k);
    PublishedIs(s, step, t);
    AppendingAscends(s.inbox[t], Envelope(step.task, step.includeSource, step.key, step.rev), t, k, top);
    AddingReplies(s.replies, Reply(step.task, step.key, step.rev), k, top);
    assert Top(after, k) == top && Replying(after, t, k, top) == Replying(s, t, k, top);
    hide QueueAscends, RepliesBounded, Approaching, MarkOf, Next, Published, Top, Replying, Accounted;
  }

  lemma PublishHolds(s: State, step: Step, t: int, k: string, given: int, cm: bool, rm: bool)
    requires |s.fanouts| == |s.ledgers| == |s.inbox| && 0 <= t < |s.ledgers| && step.Publish? && Enabled(s, step)
    requires Held(s, t, k, given, cm, rm)
    ensures HeldAfter(s, step, t, k, given, cm, rm)
  {
    assert Next(s, step).ledgers == s.ledgers && (!IsNewer(s.register, step.key, step.rev) ==> Next(s, step) == s);
    if Accepts(s, step, k) {
      PublishingHolds(s, step, t, k, given, cm, rm);
    } else if IsNewer(s.register, step.key, step.rev) {
      PublishingElsewhereHolds(s, step, t, k, given, cm, rm);
    }
    hide Held, Next, Approaching, Replying, Top;
  }

  lemma ReceivingMarks(s: State, u: int, t: int, k: string)
    requires Small(s) && 0 <= t < |s.ledgers| && 0 <= u < |s.inbox| && s.inbox[u] != []
    ensures var after, e := Received(s, u), s.inbox[u][0];
            var drops := Drops(s.ledgers[t], after.ledgers[t], k);
            && after.replies == s.replies && after.register == s.register
            && after.inbox[t] == (if u == t then s.inbox[t][1..] else s.inbox[t])
            && MarkOf(after.ledgers[t], k)
               == (if drops then -1
                   else if u == t && Concerns(e, t, k, e.rev) then Max(MarkOf(s.ledgers[t], k), e.rev)
                   else MarkOf(s.ledgers[t], k))
            && (drops ==> u == t && e.key != k)
  {
    var e := s.inbox[u][0];
    assert Small(Popped(s, u)) by { hide Limited; }
    DeliveringMarks(Popped(s, u), u, e.key, e.rev, e.source, t, k);
    hide Small, Delivered, MarkOf, Max;
  }

  lemma PoppingHolds(s: State, t: int, k: string, given: int, cm: bool, rm: bool)
    requires 0 <= t < |s.inbox| && t < |s.ledgers| && s.inbox[t] != [] && Held(s, t, k, given, cm, rm)
    ensures var e, top, rest := s.inbox[t][0], Top(s, k), s.inbox[t][1..];
            && QueueAscends(rest, k, top)
            && (e.key != k ==> Approaching(rest, t, k, top) == Approaching(s.inbox[t], t, k, top))
            && var mark := MarkOf(s.ledgers[t], k);
               Accounted(if Concerns(e, t, k, e.rev) then Max(mark, e.rev) else mark, top, given,
                         Approaching(rest, t, k, top), cm, Replying(s, t, k, top), rm)
  {
    var e, top := s.inbox[t][0], Top(s, k);
    RemovingAscends(s.inbox[t], 0, t, k, top);
    assert s.inbox[t][..0] + s.inbox[t][1..] == s.inbox[t][1..];
    assert e.key == k ==> e.rev <= top;
    assert Concerns(e, t, k, top) ==> Approaching(s.inbox[t], t, k, top);
    assert Concerns(e, t, k, top) <==> Concerns(e, t, k, e.rev) && e.rev == top;
    assert Concerns(e, t, k, e.rev) ==> e.key == k;
    DeliveringAccounts(MarkOf(s.ledgers[t], k), top, given, Approaching(s.inbox[t], t, k, top), cm,
                       Replying(s, t, k, top), rm, e.rev);
    hide QueueAscends, RepliesBounded, Approaching, MarkOf, Accounted, Replying, Top, Max, Concerns;
  }

  /** Evicting the key at any moment. */
  lemma DroppingHolds(s: State, after: State, t: int, k: string, given: int, cm: bool, rm: bool)
    requires 0 <= t < |s.ledgers| && t < |s.inbox| && t < |after.ledgers| && t < |after.inbox|
    requires Held(s, t, k, given, cm, rm) && Drops(s.ledgers[t], after.ledgers[t], k)
    requires after.replies == s.replies && after.register == s.register
    requires QueueAscends(after.inbox[t], k, Top(s, k))
    requires Approaching(after.inbox[t], t, k, Top(s, k)) == Approaching(s.inbox[t], t, k, Top(s, k))
    ensures HeldIn(s, after, t, k, given, cm, rm)
  {
    var top := Top(s, k);
    assert top >= -1;
    DeliveringAccounts(MarkOf(s.ledgers[t], k), top, given, Approaching(s.inbox[t], t, k, top), cm,
                       Replying(s, t, k, top), rm, -1);
    assert MarkOf(after.ledgers[t], k) == -1;
    hide QueueAscends, RepliesBounded, Approaching, MarkOf;
  }

  lemma ReceivingHolds(s: State, u: int, t: int, k: string, given: int, cm: bool, rm: bool)
    requires Small(s) && 0 <= t < |s.ledgers| && 0 <= u < |s.inbox| && s.inbox[u] != []
    requires Held(s, t, k, given, cm, rm)
    ensures HeldIn(s, Received(s, u), t, k, given, cm, rm)
  {
    ReceivingMarks(s, u, t, k);
    if u == t { PoppingHolds(s, t, k, given, cm, rm); }
    if Drops(s.ledgers[t], Received(s, u).ledgers[t], k) {
      DroppingHolds(s, Received(s, u), t, k, given, cm, rm);
    }
    hide Small, Received, QueueAscends, RepliesBounded, Approaching, MarkOf, Accounted, Concerns, Max, Drops;
  }

  lemma ReceiveHolds(s: State, u: int, t: int, k: string, given: int, cm: bool, rm: bool)
    requires Small(s) && 0 <= t < |s.ledgers| && Enabled(s, Receive(u)) && Held(s, t, k, given, cm, rm)
    ensures HeldAfter(s, Receive(u), t, k, given, cm, rm)
  {
    ReceivingHolds(s, u, t, k, given, cm, rm);
    assert Next(s, Receive(u)) == Received(s, u);
    hide Held, Small, Received, Next, Drops, Approaching, Replying, Top;
  }

  lemma LoseHolds(s: State, u: int, p: int, t: int, k: string, given: int, cm: bool, rm: bool)
    requires |s.fanouts| == |s.ledgers| == |s.inbox| && 0 <= t < |s.ledgers| && Enabled(s, Lose(u, p))
    requires Held(s, t, k, given, cm, rm)
    ensures HeldAfter(s, Lose(u, p), t, k, given, cm, rm)
  {
    if u == t { RemovingAscends(s.inbox[t], p, t, k, Top(s, k)); }
    assert Next(s, Lose(u, p)) == Lost(s, u, p);
    hide QueueAscends, RepliesBounded, Approaching, MarkOf, Next;
  }

  lemma TakingReplies(replies: multiset<Reply>, r: Reply, k: string, top: int)
    requires RepliesBounded(replies, k, top) && r in replies
    ensures RepliesBounded(replies - multiset{r}, k, top)
    ensures r.key == k ==> r !in replies - multiset{r}
    ensures forall q | q != r :: q in replies - multiset{r} <==> q in replies
  {}

  /** The reply leaves: lost if it brought nothing. */
  lemma TakingHolds(s: State, r: Reply, t: int, k: string, given: int, cm: bool, rm: bool)
    requires 0 <= t < |s.ledgers| && t < |s.inbox| && r in s.replies && Held(s, t, k, given, cm, rm)
    ensures Held(Taken(s, r), t, k, given, cm, rm || Owes(r, t, k, Top(s, k)))
    ensures var top, mark := Top(s, k), MarkOf(s.ledgers[t], k);
            && RepliesBounded(Taken(s, r).replies, k, top)
            && (!(r.task == t && r.key == k) ==> Replying(Taken(s, r), t, k, top) == Replying(s, t, k, top))
            && (r.task == t && r.key == k ==>
                  Accounted(Max(mark, r.rev), top, given, Approaching(s.inbox[t], t, k, top), cm,
                            Replying(Taken(s, r), t, k, top), rm))
  {
    var taken, top := Taken(s, r), Top(s, k);
    TakingReplies(s.replies, r, k, top);
    assert Replying(taken, t, k, top) <==> Replying(s, t, k, top) && !Owes(r, t, k, top);
    assert r.key == k ==> r.rev <= top;
    assert Owes(r, t, k, top) ==> Replying(s, t, k, top);
    DeliveringAccounts(MarkOf(s.ledgers[t], k), top, given, Approaching(s.inbox[t], t, k, top), cm,
                       Replying(s, t, k, top), rm, r.rev);
    hide QueueAscends, RepliesBounded, Approaching, MarkOf, Accounted, Replying, Top, Max;
  }

  lemma SettlingHolds(s: State, r: Reply, t: int, k: string, given: int, cm: bool, rm: bool)
    requires Small(s) && 0 <= t < |s.ledgers| && r in s.replies && 0 <= r.task < |s.ledgers|
    requires Held(s, t, k, given, cm, rm)
    ensures HeldIn(s, Settled(s, r), t, k, given, cm, rm)
  {
    var taken, after := Taken(s, r), Settled(s, r);
    TakingHolds(s, r, t, k, given, cm, rm);
    assert Small(taken) by { hide Limited; }
    DeliveringMarks(taken, r.task, r.key, r.rev, r.task, t, k);
    assert Top(after, k) == Top(taken, k) == Top(s, k);
    assert Replying(after, t, k, Top(s, k)) == Replying(taken, t, k, Top(s, k));
    if Drops(s.ledgers[t], after.ledgers[t], k) { DroppingHolds(taken, after, t, k, given, cm, rm); }
    hide Small, Delivered, QueueAscends, RepliesBounded, Approaching, MarkOf, Accounted, Replying, Top, Max, Drops;
  }

  lemma SettleHolds(s: State, r: Reply, t: int, k: string, given: int, cm: bool, rm: bool)
    requires Small(s) && 0 <= t < |s.ledgers| && Enabled(s, Settle(r)) && Held(s, t, k, given, cm, rm)
    ensures HeldAfter(s, Settle(r), t, k, given, cm, rm)
  {
    SettlingHolds(s, r, t, k, given, cm, rm);
    assert Next(s, Settle(r)) == Settled(s, r);
    hide Held, Small, Settled, Next, Drops, Approaching, Replying, Top;
  }

  lemma FailHolds(s: State, r: Reply, gone: bool, t: int, k: string, given: int, cm: bool, rm: bool)
    requires Small(s) && 0 <= t < |s.ledgers| && Enabled(s, Fail(r, gone)) && Held(s, t, k, given, cm, rm)
    ensures HeldAfter(s, Fail(r, gone), t, k, given, cm, rm)
  {
    if IsStatusKey(r.key) && !gone {
      FailDelivers(s, r, t, k, given, cm, rm);
    } else {
      FailLoses(s, r, gone, t, k, given, cm, rm);
    }
  }

  lemma FailDelivers(s: State, r: Reply, t: int, k: string, given: int, cm: bool, rm: bool)
    requires Small(s) && 0 <= t < |s.ledgers| && Enabled(s, Fail(r, false)) && IsStatusKey(r.key)
    requires Held(s, t, k, given, cm, rm)
    ensures HeldAfter(s, Fail(r, false), t, k, given, cm, rm)
  {
    SettlingHolds(s, r, t, k, given, cm, rm);
    FailingTakes(s, r, false);
    hide Held, Small, Settled, Next, Enabled, Drops, Approaching, Replying, Top, IsStatusKey, Max;
  }

  lemma FailLoses(s: State, r: Reply, gone: bool, t: int, k: string, given: int, cm: bool, rm: bool)
    requires Small(s) && 0 <= t < |s.ledgers| && Enabled(s, Fail(r, gone)) && (gone || !IsStatusKey(r.key))
    requires Held(s, t, k, given, cm, rm)
    ensures HeldAfter(s, Fail(r, gone), t, k, given, cm, rm)
  {
    TakingHolds(s, r, t, k, given, cm, rm);
    FailingTakes(s, r, gone);
    assert !Drops(s.ledgers[t], Taken(s, r).ledgers[t], k);
    hide Held, Small, Taken, Next, Enabled, Drops, Approaching, Replying, Top, IsStatusKey, Max, Accounted, MarkOf,
      RepliesBounded;
  }

  lemma FailingTakes(s: State, r: Reply, gone: bool)
    requires |s.fanouts| == |s.ledgers| && Enabled(s, Fail(r, gone))
    ensures Next(s, Fail(r, gone)) == if IsStatusKey(r.key) && !gone then Settled(s, r) else Taken(s, r)
  {
    hide IsStatusKey, Settled, Taken;
  }

  lemma GiveUpHolds(s: State, u: int, key: string, rev: nat, t: int, k: string, given: int, cm: bool, rm: bool)
    requires Small(s) && 0 <= t < |s.ledgers| && Enabled(s, GiveUp(u, key, rev)) && Held(s, t, k, given, cm, rm)
    ensures HeldAfter(s, GiveUp(u, key, rev), t, k, given, cm, rm)
  {
    var step, after := GiveUp(u, key, rev), GivenUp(s, u, key, rev);
    assert Next(s, step) == after;
    if IsStatusKey(key) {
      DeliveringMarks(s, u, key, rev, u, t, k);
      DeliveringAccounts(MarkOf(s.ledgers[t], k), Top(s, k), given, Approaching(s.inbox[t], t, k, Top(s, k)), cm,
                         Replying(s, t, k, Top(s, k)), rm, rev);
      if Drops(s.ledgers[t], after.ledgers[t], k) { DroppingHolds(s, after, t, k, given, cm, rm); }
    }
    hide Small, Delivered, QueueAscends, RepliesBounded, Approaching, MarkOf, IsStatusKey, Accounted, Max, Next, Drops;
  }

  lemma IdleHolds(s: State, step: Step, t: int, k: string, given: int, cm: bool, rm: bool)
    requires |s.fanouts| == |s.ledgers| == |s.inbox| && 0 <= t < |s.ledgers| && Held(s, t, k, given, cm, rm)
    requires !Enabled(s, step) || (step.Expire? && step.key != k)
    ensures HeldAfter(s, step, t, k, given, cm, rm)
  {}

  lemma StepHolds(s: State, step: Step, t: int, k: string, given: int, cm: bool, rm: bool)
    requires Small(s) && step != Expire(k) && 0 <= t < |s.ledgers| && Held(s, t, k, given, cm, rm)
    ensures HeldAfter(s, step, t, k, given, cm, rm)
  {
    assert |s.fanouts| == |s.ledgers| == |s.inbox|;
    hide Held, HeldAfter, Small;
    if Enabled(s, step) {
      hide Enabled;
      match step
      case Publish(_, _, _, _, _) => PublishHolds(s, step, t, k, given, cm, rm);
      case Receive(u) => ReceiveHolds(s, u, t, k, given, cm, rm);
      case Lose(u, p) => LoseHolds(s, u, p, t, k, given, cm, rm);
      case Settle(r) => SettleHolds(s, r, t, k, given, cm, rm);
      case Fail(r, gone) => FailHolds(s, r, gone, t, k, given, cm, rm);
      case GiveUp(u, key, rev) => GiveUpHolds(s, u, key, rev, t, k, given, cm, rm);
      case Expire(_) => IdleHolds(s, step, t, k, given, cm, rm);
    } else {
      IdleHolds(s, step, t, k, given, cm, rm);
    }
  }

  // ---- Runs ----

  /** All that is assumed about a run: the register of the key of interest does not reach its time to live. */
  predicate NeverExpires(steps: seq<Step>, k: string) {
    forall i | 0 <= i < |steps| :: steps[i] != Expire(k)
  }

  lemma {:induction false} RunHolds(tasks: nat, steps: seq<Step>, t: int, k: string)
    requires NeverExpires(steps, k) && 0 <= t < tasks
    ensures Held(Run(tasks, steps), t, k, GivenUpTo(tasks, steps, t, k), ChannelMissed(tasks, steps, t, k),
                 ReplyMissed(tasks, steps, t, k))
  {
    if steps != [] {
      var earlier, step := steps[..|steps| - 1], steps[|steps| - 1];
      RunHolds(tasks, earlier, t, k);
      LedgersStayLimited(tasks, earlier);
      StepHolds(Run(tasks, earlier), step, t, k, GivenUpTo(tasks, earlier, t, k), ChannelMissed(tasks, earlier, t, k),
                ReplyMissed(tasks, earlier, t, k));
      hide Held, Small, Next, ChannelMissedAfter, ReplyMissedAfter, GivenUpAfter;
    }
  }

  /** Nothing is under way to task t any more. */
  ghost predicate Drained(s: State, t: int)
    requires 0 <= t < |s.inbox|
  {
    s.inbox[t] == [] && forall r | r in s.replies :: r.task != t
  }

  /** Any run, any number of tasks and keys, messages and replies lost or not, keys evicted or not: once drained, task
      t's watermark for an accepted key is the register's exactly when t did not miss the key's last accepted
      publication and had not given up on a higher revision, or had given up on that very one. */
  lemma DrainedTaskAgrees(tasks: nat, steps: seq<Step>, t: int, k: string)
    requires NeverExpires(steps, k) && 0 <= t < tasks
    requires Drained(Run(tasks, steps), t) && k in Run(tasks, steps).register
    ensures var s, given := Run(tasks, steps), GivenUpTo(tasks, steps, t, k);
            (k in s.ledgers[t].marks && s.ledgers[t].marks[k] == s.register[k]) <==>
            given == s.register[k] || (given < s.register[k] && !Missed(tasks, steps, t, k))
  {
    RunHolds(tasks, steps, t, k);
    hide Run, GivenUpTo, ChannelMissed, ReplyMissed;
  }

  /** Command updates never give up into a local delivery, so for them missing it is all that matters. */
  lemma {:induction false} CommandsAreNotGivenUp(tasks: nat, steps: seq<Step>, t: int, k: string)
    requires !IsStatusKey(k) && 0 <= t < tasks
    ensures GivenUpTo(tasks, steps, t, k) == -1
  {
    if steps != [] {
      CommandsAreNotGivenUp(tasks, steps[..|steps| - 1], t, k);
      hide Next, Run, IsStatusKey;
    }
  }

  lemma DrainedTaskAgreesOnCommand(tasks: nat, steps: seq<Step>, t: int, k: string)
    requires NeverExpires(steps, k) && 0 <= t < tasks && !IsStatusKey(k)
    requires Drained(Run(tasks, steps), t) && k in Run(tasks, steps).register
    ensures var s := Run(tasks, steps);
            (k in s.ledgers[t].marks && s.ledgers[t].marks[k] == s.register[k]) <==> !Missed(tasks, steps, t, k)
  {
    DrainedTaskAgrees(tasks, steps, t, k);
    CommandsAreNotGivenUp(tasks, steps, t, k);
    RunHolds(tasks, steps, t, k);
    hide Run, Missed, GivenUpTo, ChannelMissed, ReplyMissed;
  }

  // ---- Runs that lose nothing ----

  /** Every task listens, and no message or reply is lost or given up. */
  predicate Lossless(step: Step, tasks: nat) {
    match step
    case Publish(_, _, _, _, listeners) => forall t | 0 <= t < tasks :: t in listeners
    case Receive(_) => true
    case Settle(_) => true
    case _ => false
  }

  /** An eviction is logged among the task's fan-outs. */
  lemma EvictionIsLogged(s: State, step: Step, t: int, k: string)
    requires |s.fanouts| == |s.ledgers| == |s.inbox| && 0 <= t < |s.ledgers|
    ensures s.fanouts[t] <= Next(s, step).fanouts[t]
    ensures Evicts(s, step, t, k) ==> Forget(k) in Next(s, step).fanouts[t]
  {
    NewFanOutIsReleased(s, step, t);
    hide Delivered, IsStatusKey;
    if Enabled(s, step) {
      match step
      case Receive(u) =>
        var e := s.inbox[u][0];
        DeliveryLogsEviction(Popped(s, u), u, e.key, e.rev, e.source, t, k);
      case Settle(r) => DeliveryLogsEviction(Taken(s, r), r.task, r.key, r.rev, r.task, t, k);
      case Fail(r, _) => DeliveryLogsEviction(Taken(s, r), r.task, r.key, r.rev, r.task, t, k);
      case GiveUp(u, key, rev) => DeliveryLogsEviction(s, u, key, rev, u, t, k);
      case _ =>
    }
  }

  lemma DeliveryLogsEviction(s: State, u: int, key: string, rev: nat, origin: int, t: int, k: string)
    requires 0 <= u < |s.ledgers| && |s.fanouts| == |s.ledgers| && 0 <= t < |s.ledgers|
    ensures var after := Delivered(s, u, key, rev, origin);
            Drops(s.ledgers[t], after.ledgers[t], k) ==> Forget(k) in after.fanouts[t]
  {
    var after := Delivered(s, u, key, rev, origin);
    DeliveringRecords(s, u, key, rev, origin);
    DroppedIsEvicted(s.ledgers[u], key, rev, k);
    if Drops(s.ledgers[t], after.ledgers[t], k) {
      assert u == t;
      assert after.fanouts[t] == s.fanouts[t] + [Rise(key, rev, origin)] + [Forget(k)];
    }
  }

  lemma DroppedIsEvicted(l: Ledger, key: string, rev: int, k: string)
    ensures Drops(l, Recorded(l, key, rev), k) ==> IsNewer(l.marks, key, rev) && Evicted(l, key) == Some(k)
  {}

  /** In a lossless run a task misses nothing but what it evicted itself. */
  lemma {:induction false} LosslessMissesNothing(tasks: nat, steps: seq<Step>, t: int, k: string)
    requires 0 <= t < tasks && forall i | 0 <= i < |steps| :: Lossless(steps[i], tasks)
    ensures GivenUpTo(tasks, steps, t, k) == -1
    ensures k in Run(tasks, steps).register && Forget(k) !in Run(tasks, steps).fanouts[t] ==>
              !Missed(tasks, steps, t, k)
  {
    if steps != [] {
      var earlier, step := steps[..|steps| - 1], steps[|steps| - 1];
      LosslessMissesNothing(tasks, earlier, t, k);
      EvictionIsLogged(Run(tasks, earlier), step, t, k);
      LosslessStepMissesNothing(Run(tasks, earlier), step, t, k);
      hide Next, Evicts, Accepts, Approaching, Replying, Lossless;
    }
  }

  lemma LosslessStepMissesNothing(s: State, step: Step, t: int, k: string)
    requires |s.fanouts| == |s.ledgers| == |s.inbox| && 0 <= t < |s.ledgers| && Lossless(step, |s.ledgers|)
    ensures !step.Lose? && !step.Fail? && !step.GiveUp?
    ensures Accepts(s, step, k) ==> t in step.listeners
    ensures !Accepts(s, step, k) && k in Next(s, step).register ==> k in s.register
  {
    hide Delivered, IsStatusKey;
    if Enabled(s, step) {
      match step
      case Receive(u) =>
        var e := s.inbox[u][0];
        DeliveringRecords(Popped(s, u), u, e.key, e.rev, e.source);
      case Settle(r) => DeliveringRecords(Taken(s, r), r.task, r.key, r.rev, r.task);
      case _ =>
    }
  }

  /** In a lossless run each task that has not evicted the key has the last accepted revision, or a message or a reply
      is bringing it. */
  lemma LosslessRunConverges(tasks: nat, steps: seq<Step>, t: int, k: string)
    requires 0 <= t < tasks && forall i | 0 <= i < |steps| :: Lossless(steps[i], tasks)
    requires k in Run(tasks, steps).register && Forget(k) !in Run(tasks, steps).fanouts[t]
    ensures var s, top := Run(tasks, steps), Run(tasks, steps).register[k];
            || (k in s.ledgers[t].marks && s.ledgers[t].marks[k] == top)
            || Approaching(s.inbox[t], t, k, top)
            || Replying(s, t, k, top)
  {
    RunHolds(tasks, steps, t, k);
    LosslessMissesNothing(tasks, steps, t, k);
    hide Run, GivenUpTo, ChannelMissed, ReplyMissed;
  }

  /** Once a lossless run has drained, in whatever interleaving, the watermark of every task for every key it has not
      evicted is the register's, which is the last revision Redis accepted for it. */
  lemma DrainedRunAgrees(tasks: nat, steps: seq<Step>, t: int, k: string)
    requires 0 <= t < tasks && forall i | 0 <= i < |steps| :: Lossless(steps[i], tasks)
    requires Drained(Run(tasks, steps), t) && Forget(k) !in Run(tasks, steps).fanouts[t]
    ensures var s := Run(tasks, steps);
            && (k in s.ledgers[t].marks <==> k in s.register)
            && (k in s.register ==>
                s.ledgers[t].marks[k] == s.register[k] && LastRoseTo(s.decisions, k, s.register[k]))
  {
    RunHolds(tasks, steps, t, k);
    LosslessMissesNothing(tasks, steps, t, k);
    LedgersStayLimited(tasks, steps);
    RunIsSafe(tasks, steps);
    if k in Run(tasks, steps).register { DrainedTaskAgrees(tasks, steps, t, k); }
    hide Run, GivenUpTo, Missed, ChannelMissed, ReplyMissed, LastRoseTo;
  }

  /** A publication that nobody hears and whose reply fails leaves every task behind, however many there are; that
      revision is then stale, so only a fresh one can repair it. Hence the scheduler's retries. */
  lemma FailedReplyLeavesTasksBehind(tasks: nat, source: int, key: string, rev: nat, t: int)
    requires 0 <= source < tasks && 0 <= t < tasks && key != "" && !IsStatusKey(key)
    ensures var s := Run(tasks, [Publish(source, key, rev, false, {}), Fail(Reply(source, key, rev), false)]);
            && Drained(s, t) && key in s.register && key !in s.ledgers[t].marks
            && forall listeners :: Next(s, Publish(source, key, rev, false, listeners)) == s
  {
    var publish, fail := Publish(source, key, rev, false, {}), Fail(Reply(source, key, rev), false);
    assert [publish, fail][..1] == [publish] && [publish][..0] == [];
    var first := Next(Init(tasks), publish);
    assert Run(tasks, []) == Init(tasks) && Run(tasks, [publish]) == first;
    assert first.inbox[t] == [] && first.replies == multiset{Reply(source, key, rev)};
    assert Run(tasks, [publish, fail]) == Next(first, fail);
    assert Next(first, fail) == Taken(first, Reply(source, key, rev));
  }
}
