/** Staff presence shared by all API processes: one sorted set per (school, user) in Redis, holding for each connection
    the instant at which its latest touch stops counting. */
module StaffPresence {
  import opened Wrappers

  const PRESENCE_TTL_MS := 90_000

  /** EXPIRE takes seconds: twice the presence time, rounded up, is 180 s. */
  const KEY_TTL_MS := (PRESENCE_TTL_MS * 2 + 999) / 1_000 * 1_000

  datatype Scope = Scope(schoolId: string, userId: string)

  datatype Entry = Entry(scores: map<string, int>, expiresAt: int)

  type Store = map<Scope, Entry>

  /** A script that Redis executes. `at` is the caller's observation time, `clock` is the time in Redis. */
  datatype Op =
    | Touch(scope: Scope, connection: string, at: int, clock: int)
    | Remove(scope: Scope, connection: string, clock: int)
    | Read(scope: Scope, at: int, clock: int)

  /** The sorted set that a script finds; an expired key is gone. */
  function Current(store: Store, scope: Scope, clock: int): map<string, int> {
    if scope in store && clock < store[scope].expiresAt then store[scope].scores else map[]
  }

  /** ZREMRANGEBYSCORE from minus infinity to `at`. */
  function Pruned(scores: map<string, int>, at: int): map<string, int> {
    map c | c in scores && at < scores[c] :: scores[c]
  }

  /** A sorted set without members is no key; otherwise the key keeps its expiry. */
  function Kept(store: Store, scope: Scope, scores: map<string, int>): Store {
    if scores == map[] || scope !in store then store - {scope} else store[scope := store[scope].(scores := scores)]
  }

  function Apply(store: Store, op: Op): Store {
    match op
    case Touch(scope, c, at, clock) =>
      store[scope := Entry(Pruned(Current(store, scope, clock), at)[c := at + PRESENCE_TTL_MS], clock + KEY_TTL_MS)]
    case Remove(scope, c, clock) => Kept(store, scope, Current(store, scope, clock) - {c})
    case Read(scope, at, clock) => Kept(store, scope, Pruned(Current(store, scope, clock), at))
  }

  function Fresh(store: Store, scope: Scope, at: int, clock: int): bool {
    Pruned(Current(store, scope, clock), at) != map[]
  }

  function Run(log: seq<Op>): Store {
    if log == [] then map[] else Apply(Run(log[..|log| - 1]), log[|log| - 1])
  }

  // ---- The meaning of a log, without sorted sets ----

  /** A touch no removal has followed; `seen` is the latest observation of its scope from then on, `expires` the end of
      the key's life as later touches in the scope have extended it. */
  datatype Presence = Presence(at: int, seen: int, expires: int)

  /** A later operation on the scope, by someone else: it may come after the key has expired, observe, and extend. */
  function Aged(p: Option<Presence>, op: Op): Option<Presence> {
    if p.None? || op.clock >= p.value.expires then None
    else
      match op
      case Touch(_, _, at, clock) => Some(Presence(p.value.at, Later(p.value.seen, at), clock + 180_000))
      case Read(_, at, _) => Some(p.value.(seen := Later(p.value.seen, at)))
      case Remove(_, _, _) => p
  }

  function Later(a: int, b: int): int {
    if a < b then b else a
  }

  function Latest(log: seq<Op>, scope: Scope, connection: string): Option<Presence> {
    if log == [] then None
    else After(Latest(log[..|log| - 1], scope, connection), log[|log| - 1], scope, connection)
  }

  function After(before: Option<Presence>, op: Op, scope: Scope, connection: string): Option<Presence> {
    if op.scope != scope then before
    else if op.Touch? && op.connection == connection then Some(Presence(op.at, op.at, op.clock + 180_000))
    else if op.Remove? && op.connection == connection then None
    else Aged(before, op)
  }

  /** A presence counts until an observation reaches the end of its 90 s. */
  predicate Counts(p: Option<Presence>) {
    p.Some? && p.value.seen < p.value.at + 90_000
  }

  predicate Holds(store: Store, scope: Scope, connection: string) {
    scope in store && connection in store[scope].scores
  }

  /** The store holds exactly what counts. */
  ghost predicate FaithfulFor(store: Store, p: Option<Presence>, scope: Scope, connection: string) {
    && (Holds(store, scope, connection) <==> Counts(p))
    && (Counts(p) ==> store[scope].scores[connection] == p.value.at + PRESENCE_TTL_MS &&
                      store[scope].expiresAt == p.value.expires)
  }

  lemma ApplyIsFaithful(store: Store, p: Option<Presence>, op: Op, scope: Scope, connection: string)
    requires FaithfulFor(store, p, scope, connection)
    ensures FaithfulFor(Apply(store, op), After(p, op, scope, connection), scope, connection)
  {
    var found := Current(store, op.scope, op.clock);
    match op
    case Touch(_, _, _, _) =>
    case Remove(_, c, _) => assert connection in found - {c} ==> found - {c} != map[];
    case Read(_, at, _) => assert connection in Pruned(found, at) ==> Pruned(found, at) != map[];
  }

  lemma {:induction false} RunIsFaithful(log: seq<Op>, scope: Scope, connection: string)
    ensures FaithfulFor(Run(log), Latest(log, scope, connection), scope, connection)
  {
    if log != [] {
      var before, op := log[..|log| - 1], log[|log| - 1];
      RunIsFaithful(before, scope, connection);
      ApplyIsFaithful(Run(before), Latest(before, scope, connection), op, scope, connection);
    }
  }

  predicate CountsAt(log: seq<Op>, scope: Scope, connection: string, at: int, clock: int) {
    Counts(Aged(Latest(log, scope, connection), Read(scope, at, clock)))
  }

  /** For any log, clocks and observers in any order: a read finds someone exactly when some connection's latest touch,
      not removed, is younger than 90 s both for this observer and for every observer of the scope since, and no
      operation on the scope since, this read included, came 180 s or more after the scope's last touch before it. */
  lemma ReadIsExact(log: seq<Op>, scope: Scope, at: int, clock: int)
    ensures Fresh(Run(log), scope, at, clock) <==> exists c :: CountsAt(log, scope, c, at, clock)
  {
    var found := Pruned(Current(Run(log), scope, clock), at);
    forall c ensures c in found <==> CountsAt(log, scope, c, at, clock) {
      RunIsFaithful(log, scope, c);
    }
    SomeKey(found);
  }

  lemma SomeKey(scores: map<string, int>)
    ensures scores == map[] || exists c :: c in scores
  {
    if forall c :: c !in scores { assert scores == map[]; }
  }

  // ---- Logs in order ----

  /** When a connection's latest touch of the scope, not removed since, was observed and executed. */
  datatype Stamp = Stamp(at: int, clock: int)

  function LastTouch(log: seq<Op>, scope: Scope, connection: string): Option<Stamp> {
    if log == [] then None
    else
      var before, op := LastTouch(log[..|log| - 1], scope, connection), log[|log| - 1];
      if op.scope != scope then before
      else if op.Touch? && op.connection == connection then Some(Stamp(op.at, op.clock))
      else if op.Remove? && op.connection == connection then None
      else before
  }

  predicate Observes(op: Op) {
    op.Touch? || op.Read?
  }

  ghost predicate ObservationsAscend(log: seq<Op>, at: int) {
    && (forall i, j | 0 <= i < j < |log| && Observes(log[i]) && Observes(log[j]) :: log[i].at <= log[j].at)
    && (forall i | 0 <= i < |log| && Observes(log[i]) :: log[i].at <= at)
  }

  ghost predicate ClocksAscend(log: seq<Op>, clock: int) {
    && (forall i, j | 0 <= i < j < |log| :: log[i].clock <= log[j].clock)
    && (forall i | 0 <= i < |log| :: log[i].clock <= clock)
  }

  /** Since each latest touch the clock in Redis has gained less than 90 s on the observers' clocks. */
  ghost predicate ClocksAgree(log: seq<Op>, scope: Scope, at: int, clock: int) {
    forall c :: LastTouch(log, scope, c).Some? ==>
      clock - LastTouch(log, scope, c).value.clock <= at - LastTouch(log, scope, c).value.at + PRESENCE_TTL_MS
  }

  ghost predicate InOrder(log: seq<Op>, scope: Scope, at: int, clock: int) {
    ClocksAscend(log, clock) && ClocksAgree(log, scope, at, clock) && ObservationsAscend(log, at)
  }

  predicate TouchedRecently(log: seq<Op>, scope: Scope, connection: string, at: int) {
    var touch := LastTouch(log, scope, connection);
    touch.Some? && at < touch.value.at + 90_000
  }

  /** In order, a presence is its last touch, seen by nobody later than now, and it lives 180 s of Redis's clock. */
  lemma {:induction false} PresenceIsLastTouch(log: seq<Op>, scope: Scope, connection: string, at: int, clock: int)
    requires ClocksAscend(log, clock) && ObservationsAscend(log, at)
    ensures var p, touch := Latest(log, scope, connection), LastTouch(log, scope, connection);
            && (p.Some? ==> touch.Some? && p.value.at == touch.value.at && p.value.seen <= at)
            && (touch.Some? && clock < touch.value.clock + KEY_TTL_MS ==>
                  p.Some? && touch.value.clock + KEY_TTL_MS <= p.value.expires)
  {
    if log != [] {
      PresenceIsLastTouch(log[..|log| - 1], scope, connection, at, clock);
      LastTouchIsPast(log[..|log| - 1], scope, connection, log[|log| - 1].clock);
    }
  }

  lemma {:induction false} LastTouchIsPast(log: seq<Op>, scope: Scope, connection: string, clock: int)
    requires ClocksAscend(log, clock)
    ensures LastTouch(log, scope, connection).Some? ==> LastTouch(log, scope, connection).value.clock <= clock
  {
    if log != [] { LastTouchIsPast(log[..|log| - 1], scope, connection, clock); }
  }

  /** With observation times in order across processes, and Redis's clock gaining less than 90 s on them since each
      touch, neither pruning nor key expiry hides a connection touched less than 90 s ago; nothing else is found. */
  lemma FreshMeansTouchedRecently(log: seq<Op>, scope: Scope, at: int, clock: int)
    requires InOrder(log, scope, at, clock)
    ensures Fresh(Run(log), scope, at, clock) <==> exists c :: TouchedRecently(log, scope, c, at)
  {
    ReadIsExact(log, scope, at, clock);
    forall c ensures CountsAt(log, scope, c, at, clock) <==> TouchedRecently(log, scope, c, at) {
      PresenceIsLastTouch(log, scope, c, at, clock);
    }
  }

  /** One observer 90 s ahead of a touch hides it from every later reader. */
  lemma FastObserverHides(scope: Scope, c: string, at: int, clock: int)
    ensures var log := [Touch(scope, c, at, clock), Read(scope, at + 90_000, clock)];
            LastTouch(log, scope, c).Some? && !Fresh(Run(log), scope, at, clock)
  {
    var touch, read := Touch(scope, c, at, clock), Read(scope, at + PRESENCE_TTL_MS, clock);
    assert [touch, read][..1] == [touch] && [touch][..0] == [];
    var store := Run([touch]);
    assert store == Apply(Run([]), touch);
    assert Pruned(Current(store, scope, clock), at + PRESENCE_TTL_MS) == map[];
    assert Run([touch, read]) == Apply(store, read);
    assert LastTouch([touch], scope, c) == Some(Stamp(at, clock));
  }

  // ---- The store as the scripts change it ----

  /** What becomes of a command: executed and answered, executed without an answer, or never executed. */
  datatype Delivery = Answered | Unanswered | Lost

  predicate Named(scope: Scope) {
    scope.schoolId != "" && scope.userId != ""
  }

  lemma RunExtends(log: seq<Op>, op: Op)
    ensures Run(log + [op]) == Apply(Run(log), op)
  {
    assert (log + [op])[..|log|] == log;
  }

  class PresenceStore {
    var keys: Store
    ghost var log: seq<Op>

    ghost predicate Valid()
      reads this
    {
      keys == Run(log)
    }

    constructor ()
      ensures Valid() && log == [] && keys == map[]
    {
      keys, log := map[], [];
    }

    method EvalTouch(scope: Scope, c: string, at: int, clock: int)
      requires Valid()
      modifies this
      ensures Valid() && log == old(log) + [Op.Touch(scope, c, at, clock)]
    {
      RunExtends(log, Op.Touch(scope, c, at, clock));
      hide Run, Current, Pruned;
      var scores := Pruned(Current(keys, scope, clock), at);
      scores := scores[c := at + PRESENCE_TTL_MS];
      keys := keys[scope := Entry(scores, clock + KEY_TTL_MS)];
      log := log + [Op.Touch(scope, c, at, clock)];
    }

    method EvalRemove(scope: Scope, c: string, clock: int)
      requires Valid()
      modifies this
      ensures Valid() && log == old(log) + [Op.Remove(scope, c, clock)]
    {
      RunExtends(log, Op.Remove(scope, c, clock));
      hide Run, Current, Kept;
      var scores := Current(keys, scope, clock) - {c};
      keys := Kept(keys, scope, scores);
      log := log + [Op.Remove(scope, c, clock)];
    }

    method EvalRead(scope: Scope, at: int, clock: int) returns (remaining: nat)
      requires Valid()
      modifies this
      ensures Valid() && log == old(log) + [Read(scope, at, clock)]
      ensures remaining > 0 <==> Fresh(old(keys), scope, at, clock)
    {
      RunExtends(log, Read(scope, at, clock));
      hide Run, Current, Pruned, Kept;
      var scores := Pruned(Current(keys, scope, clock), at);
      remaining := |scores|;
      keys := Kept(keys, scope, scores);
      log := log + [Read(scope, at, clock)];
    }

    /** A time that is no instant is None. */
    method Touch(scope: Scope, c: string, at: Option<int>, clock: int, delivery: Delivery) returns (ok: bool)
      requires Valid()
      modifies this
      ensures Valid()
      ensures ok <==> Named(scope) && c != "" && at.Some? && delivery.Answered?
      ensures log == if Named(scope) && c != "" && at.Some? && !delivery.Lost?
                     then old(log) + [Op.Touch(scope, c, at.value, clock)] else old(log)
    {
      if !Named(scope) || c == "" || at.None? { return false; }
      if !delivery.Lost? { EvalTouch(scope, c, at.value, clock); }
      return delivery.Answered?;
    }

    method Remove(scope: Scope, c: string, clock: int, delivery: Delivery) returns (ok: bool)
      requires Valid()
      modifies this
      ensures Valid()
      ensures ok <==> Named(scope) && c != "" && delivery.Answered?
      ensures log == if Named(scope) && c != "" && !delivery.Lost?
                     then old(log) + [Op.Remove(scope, c, clock)] else old(log)
    {
      if !Named(scope) || c == "" { return false; }
      if !delivery.Lost? { EvalRemove(scope, c, clock); }
      return delivery.Answered?;
    }

    /** None when the store is unavailable: callers then take the user to be absent. */
    method IsFresh(scope: Scope, at: Option<int>, clock: int, delivery: Delivery) returns (answer: Option<bool>)
      requires Valid()
      modifies this
      ensures Valid()
      ensures !Named(scope) || at.None? ==> answer == Some(false) && log == old(log)
      ensures Named(scope) && at.Some? ==>
                && log == (if delivery.Lost? then old(log) else old(log) + [Read(scope, at.value, clock)])
                && (!delivery.Answered? ==> answer == None)
                && (delivery.Answered? ==> answer == Some(exists c :: CountsAt(old(log), scope, c, at.value, clock)))
      ensures Named(scope) && at.Some? && delivery.Answered? && InOrder(old(log), scope, at.value, clock) ==>
                answer == Some(exists c :: TouchedRecently(old(log), scope, c, at.value))
    {
      if !Named(scope) || at.None? { return Some(false); }
      ReadIsExact(log, scope, at.value, clock);
      if InOrder(log, scope, at.value, clock) { FreshMeansTouchedRecently(log, scope, at.value, clock); }
      var remaining := 0;
      if !delivery.Lost? { remaining := EvalRead(scope, at.value, clock); }
      return if delivery.Answered? then Some(remaining > 0) else None;
    }
  }
}
