/** The presence of one staff connection: what it has recorded, and the serial queue of store mutations behind it. */
module PresenceQueue {
  import opened Wrappers
  import opened StaffPresence

  /** A store operation awaited inside a queued mutation. */
  datatype Command = Join(scope: Scope) | Leave(scope: Scope)

  datatype Connection = Connection(recorded: Option<Scope>, pending: seq<Command>)

  /** Moving to another scope leaves the previous one first. */
  function Record(c: Connection, scope: Scope): Connection {
    var leaving := if c.recorded.Some? && c.recorded.value != scope then [Leave(c.recorded.value)] else [];
    Connection(Some(scope), c.pending + leaving + [Join(scope)])
  }

  function Refresh(c: Connection): Connection {
    if c.recorded.None? then c else c.(pending := c.pending + [Join(c.recorded.value)])
  }

  function Clear(c: Connection): Connection {
    if c.recorded.None? then c else Connection(None, c.pending + [Leave(c.recorded.value)])
  }

  /** The connection beside the operations that Redis has executed for it and for everyone else. */
  datatype State = State(connection: Connection, log: seq<Op>)

  datatype Event =
    | Records(scope: Scope)
    | Refreshes
    | Clears
    | Performs(at: int, clock: int, lost: bool)   // the oldest pending command; a lost one never executes
    | Others(op: Op)                              // another connection, or a reader

  function Executed(command: Command, me: string, at: int, clock: int): Op {
    match command
    case Join(scope) => Touch(scope, me, at, clock)
    case Leave(scope) => Remove(scope, me, clock)
  }

  function Next(s: State, me: string, e: Event): State {
    match e
    case Records(scope) => s.(connection := Record(s.connection, scope))
    case Refreshes => s.(connection := Refresh(s.connection))
    case Clears => s.(connection := Clear(s.connection))
    case Others(op) => s.(log := s.log + [op])
    case Performs(at, clock, lost) =>
      if s.connection.pending == [] then s
      else
        var head := s.connection.pending[0];
        State(s.connection.(pending := s.connection.pending[1..]),
              if lost || !Named(head.scope) then s.log else s.log + [Executed(head, me, at, clock)])
  }

  /** Connection ids are unique, and here every command reaches Redis. */
  predicate Delivered(e: Event, me: string) {
    match e
    case Performs(_, _, lost) => !lost
    case Others(Touch(_, c, _, _)) => c != me
    case Others(Remove(_, c, _)) => c != me
    case _ => true
  }

  function Run(events: seq<Event>, me: string): State {
    if events == [] then State(Connection(None, []), [])
    else Next(Run(events[..|events| - 1], me), me, events[|events| - 1])
  }

  /** Whether the connection is in the scope once the pending commands have been applied, if it is `here` now. */
  predicate Destined(pending: seq<Command>, scope: Scope, here: bool) {
    if pending == [] then here
    else if pending[|pending| - 1].scope == scope then pending[|pending| - 1].Join?
    else Destined(pending[..|pending| - 1], scope, here)
  }

  predicate Present(s: State, me: string, scope: Scope) {
    LastTouch(s.log, scope, me).Some?
  }

  ghost predicate Foreseen(s: State, me: string) {
    forall scope | Named(scope) ::
      Destined(s.connection.pending, scope, Present(s, me, scope)) <==> s.connection.recorded == Some(scope)
  }

  lemma QueueingDecides(pending: seq<Command>, command: Command, scope: Scope, here: bool)
    ensures Destined(pending + [command], scope, here)
            <==> if command.scope == scope then command.Join? else Destined(pending, scope, here)
  {
    assert (pending + [command])[..|pending|] == pending;
  }

  lemma {:induction false} ApplyingTheHeadDecides(pending: seq<Command>, scope: Scope, here: bool)
    requires pending != []
    ensures Destined(pending, scope, here)
            <==> Destined(pending[1..], scope, if pending[0].scope == scope then pending[0].Join? else here)
  {
    if |pending| > 1 {
      ApplyingTheHeadDecides(pending[..|pending| - 1], scope, here);
      assert pending[..|pending| - 1][1..] == pending[1..][..|pending| - 2];
    }
  }

  lemma EventForesees(s: State, me: string, e: Event)
    requires Foreseen(s, me) && Delivered(e, me)
    ensures Foreseen(Next(s, me, e), me)
  {
    var pending, recorded := s.connection.pending, s.connection.recorded;
    var after := Next(s, me, e);
    forall scope | Named(scope)
      ensures Destined(after.connection.pending, scope, Present(after, me, scope)) <==>
              after.connection.recorded == Some(scope)
    {
      var here := Present(s, me, scope);
      match e
      case Records(next) =>
        if recorded.Some? && recorded.value != next {
          QueueingDecides(pending, Leave(recorded.value), scope, here);
          QueueingDecides(pending + [Leave(recorded.value)], Join(next), scope, here);
        } else {
          assert pending + [] == pending;
          QueueingDecides(pending, Join(next), scope, here);
        }
      case Refreshes => if recorded.Some? { QueueingDecides(pending, Join(recorded.value), scope, here); }
      case Clears => if recorded.Some? { QueueingDecides(pending, Leave(recorded.value), scope, here); }
      case Others(op) => assert after.log[..|s.log|] == s.log;
      case Performs(_, _, _) =>
        if pending != [] {
          ApplyingTheHeadDecides(pending, scope, here);
          if Named(pending[0].scope) { assert after.log[..|s.log|] == s.log; }
        }
    }
  }

  /** At every moment, applying the pending mutations leaves the connection in exactly the scope it has recorded. */
  lemma {:induction false} RunForesees(events: seq<Event>, me: string)
    requires forall i | 0 <= i < |events| :: Delivered(events[i], me)
    ensures Foreseen(Run(events, me), me)
  {
    if events != [] {
      RunForesees(events[..|events| - 1], me);
      EventForesees(Run(events[..|events| - 1], me), me, events[|events| - 1]);
    }
  }

  function LastRecorded(events: seq<Event>): Option<Scope> {
    if events == [] then None
    else if events[|events| - 1].Records? then Some(events[|events| - 1].scope)
    else LastRecorded(events[..|events| - 1])
  }

  lemma {:induction false} RecordedSince(before: seq<Event>, after: seq<Event>, me: string)
    requires forall i | 0 <= i < |after| :: !after[i].Clears?
    ensures Run(before + [Clears] + after, me).connection.recorded == LastRecorded(after)
  {
    var all := before + [Clears] + after;
    if after == [] {
      assert all[..|all| - 1] == before;
    } else {
      RecordedSince(before, after[..|after| - 1], me);
      assert all[..|all| - 1] == before + [Clears] + after[..|after| - 1];
    }
  }

  /** Once its queue has drained, a connection cleared on closing is present exactly where a role check that was still
      under way at that moment has recorded it since: nowhere, when there was none. Refreshes do not matter. */
  lemma ClosedConnectionIsPresent(before: seq<Event>, after: seq<Event>, me: string, scope: Scope)
    requires forall i | 0 <= i < |before| :: Delivered(before[i], me)
    requires forall i | 0 <= i < |after| :: Delivered(after[i], me) && !after[i].Clears?
    requires Run(before + [Clears] + after, me).connection.pending == [] && Named(scope)
    ensures Present(Run(before + [Clears] + after, me), me, scope) <==> LastRecorded(after) == Some(scope)
  {
    RunForesees(before + [Clears] + after, me);
    RecordedSince(before, after, me);
  }

  /** The connection can make its user appear connected only in the scope it has recorded. */
  lemma DrainedPresenceIsRecorded(events: seq<Event>, me: string, scope: Scope, at: int)
    requires forall i | 0 <= i < |events| :: Delivered(events[i], me)
    requires Run(events, me).connection.pending == [] && Named(scope)
    ensures TouchedRecently(Run(events, me).log, scope, me, at) ==> Run(events, me).connection.recorded == Some(scope)
  {
    RunForesees(events, me);
  }

  /** A closed connection that stays present: the role check of its authentication ended after the close. */
  lemma LateRoleCheckLeavesPresence(me: string, scope: Scope, at: int, clock: int)
    requires Named(scope)
    ensures var s := Run([Clears, Records(scope), Performs(at, clock, false)], me);
            s.connection.pending == [] && Present(s, me, scope)
  {
    var after := [Records(scope), Performs(at, clock, false)];
    var all := [Clears, Records(scope), Performs(at, clock, false)];
    assert all == [] + [Clears] + after && after[..1] == [Records(scope)];
    RunExtends([], Clears, me);
    RunExtends([] + [Clears], Records(scope), me);
    RunExtends([] + [Clears] + [Records(scope)], Performs(at, clock, false), me);
    assert [] + [Clears] + [Records(scope)] + [Performs(at, clock, false)] == all;
    assert LastRecorded([Records(scope)]) == Some(scope);
    assert Run([] + [Clears] + [Records(scope)], me).connection.pending == [Join(scope)];
    ClosedConnectionIsPresent([], after, me, scope);
  }

  lemma RunExtends(events: seq<Event>, e: Event, me: string)
    ensures Run(events + [e], me) == Next(Run(events, me), me, e)
  {
    assert (events + [e])[..|events|] == events;
  }

  // ---- Refreshing keeps the presence alive ----

  /** The observation times of the commands performed, in order. */
  function Performed(events: seq<Event>): seq<int> {
    if events == [] then []
    else
      var before, e := Performed(events[..|events| - 1]), events[|events| - 1];
      if e.Performs? then before + [e.at] else before
  }

  /** The connection neither leaves nor moves. */
  predicate StaysIn(e: Event, scope: Scope) {
    !e.Clears? && (e.Records? ==> e.scope == scope)
  }

  predicate AllJoin(commands: seq<Command>, scope: Scope) {
    forall i | 0 <= i < |commands| :: commands[i] == Join(scope)
  }

  /** Where a joining command that was the m-th pending one stands after some events: still pending with only joins
      behind it, or performed, and then the scope's latest touch is no older. */
  ghost predicate Renewing(s: State, me: string, scope: Scope, m: nat, times: seq<int>) {
    && s.connection.recorded == Some(scope)
    && (|times| <= m ==>
          m - |times| < |s.connection.pending| && AllJoin(s.connection.pending[m - |times|..], scope))
    && (|times| > m ==>
          && AllJoin(s.connection.pending, scope)
          && LastTouch(s.log, scope, me).Some? && times[m] <= LastTouch(s.log, scope, me).value.at)
  }

  lemma EventRenews(s: State, me: string, e: Event, scope: Scope, m: nat, times: seq<int>)
    requires Named(scope) && Renewing(s, me, scope, m, times) && Delivered(e, me) && StaysIn(e, scope)
    requires e.Performs? && |times| > m ==> times[m] <= e.at
    ensures Renewing(Next(s, me, e), me, scope, m, if e.Performs? then times + [e.at] else times)
  {
    assert s.connection.recorded == Some(scope);
    hide Renewing;
    match e
    case Records(_) =>
      RecordingAgain(s.connection, scope);
      QueueingRenews(s, Next(s, me, e), me, scope, m, times);
    case Refreshes => QueueingRenews(s, Next(s, me, e), me, scope, m, times);
    case Others(op) => OthersRenew(s, me, op, scope, m, times);
    case Performs(at, clock, lost) => PerformingRenews(s, me, at, clock, scope, m, times);
  }

  lemma RecordingAgain(c: Connection, scope: Scope)
    requires c.recorded == Some(scope)
    ensures Record(c, scope) == Connection(Some(scope), c.pending + [Join(scope)])
  {
    assert c.pending + [] == c.pending;
  }

  lemma OthersRenew(s: State, me: string, op: Op, scope: Scope, m: nat, times: seq<int>)
    requires Renewing(s, me, scope, m, times) && Delivered(Others(op), me)
    ensures Renewing(Next(s, me, Others(op)), me, scope, m, times)
  {
    assert (s.log + [op])[..|s.log|] == s.log;
  }

  lemma QueueingRenews(s: State, after: State, me: string, scope: Scope, m: nat, times: seq<int>)
    requires Renewing(s, me, scope, m, times) && after.log == s.log
    requires after.connection == Connection(Some(scope), s.connection.pending + [Join(scope)])
    ensures Renewing(after, me, scope, m, times)
  {
    if |times| <= m { AppendingJoins(s.connection.pending, m - |times|, scope); }
  }

  lemma PerformingRenews(s: State, me: string, at: int, clock: int, scope: Scope, m: nat, times: seq<int>)
    requires Named(scope) && Renewing(s, me, scope, m, times)
    requires |times| > m ==> times[m] <= at
    ensures Renewing(Next(s, me, Performs(at, clock, false)), me, scope, m, times + [at])
  {
    var after, pending := Next(s, me, Performs(at, clock, false)), s.connection.pending;
    if |times| < m {
      assert pending[1..][m - |times| - 1..] == pending[m - |times|..];
    } else if |times| == m {
      assert pending[0..] == pending && pending[0] == Join(scope);
      assert after.log == s.log + [Touch(scope, me, at, clock)];
      assert after.log[..|s.log|] == s.log;
    } else if pending != [] {
      assert pending[0] == Join(scope);
      assert after.log == s.log + [Touch(scope, me, at, clock)];
      assert after.log[..|s.log|] == s.log;
    }
  }

  lemma AppendingJoins(pending: seq<Command>, i: nat, scope: Scope)
    requires i < |pending| && AllJoin(pending[i..], scope)
    ensures AllJoin((pending + [Join(scope)])[i..], scope)
  {
    assert (pending + [Join(scope)])[i..] == pending[i..] + [Join(scope)];
  }

  lemma {:induction false} RefreshIsRenewing(before: seq<Event>, after: seq<Event>, me: string, scope: Scope)
    requires Run(before, me).connection.recorded == Some(scope) && Named(scope)
    requires forall i | 0 <= i < |after| :: Delivered(after[i], me) && StaysIn(after[i], scope)
    requires forall i, j | 0 <= i < j < |Performed(after)| :: Performed(after)[i] <= Performed(after)[j]
    ensures Renewing(Run(before + [Refreshes] + after, me), me, scope, |Run(before, me).connection.pending|,
                     Performed(after))
  {
    var m := |Run(before, me).connection.pending|;
    if after == [] {
      assert before + [Refreshes] + after == before + [Refreshes];
      RunExtends(before, Refreshes, me);
      var pending := Run(before + [Refreshes], me).connection.pending;
      assert pending == Run(before, me).connection.pending + [Join(scope)];
      assert pending[m..] == [Join(scope)];
    } else {
      var earlier, e := after[..|after| - 1], after[|after| - 1];
      assert Performed(after) == if e.Performs? then Performed(earlier) + [e.at] else Performed(earlier);
      assert forall i | 0 <= i < |Performed(earlier)| :: Performed(earlier)[i] == Performed(after)[i];
      RefreshIsRenewing(before, earlier, me, scope);
      if e.Performs? {
        assert Performed(after)[|Performed(earlier)|] == e.at;
        assert |Performed(earlier)| > m ==> Performed(after)[m] <= Performed(after)[|Performed(earlier)|];
      }
      assert before + [Refreshes] + after == before + [Refreshes] + earlier + [e];
      RunExtends(before + [Refreshes] + earlier, e, me);
      assert StaysIn(after[|after| - 1], scope) && Delivered(after[|after| - 1], me);
      hide Run, Next, Renewing, LastTouch;
      EventRenews(Run(before + [Refreshes] + earlier, me), me, e, scope, m, Performed(earlier));
    }
  }

  /** A refresh of a recorded connection renews its presence: once as many commands have been performed as were pending,
      and one more, the latest touch is no older than that last one, so the user reads as present for 90 s from it,
      until the connection leaves or moves. */
  lemma RefreshRenewsPresence(before: seq<Event>, after: seq<Event>, me: string, scope: Scope, at: int)
    requires Run(before, me).connection.recorded == Some(scope) && Named(scope)
    requires forall i | 0 <= i < |after| :: Delivered(after[i], me) && StaysIn(after[i], scope)
    requires forall i, j | 0 <= i < j < |Performed(after)| :: Performed(after)[i] <= Performed(after)[j]
    requires |Run(before, me).connection.pending| < |Performed(after)|
    ensures var log, performed := Run(before + [Refreshes] + after, me).log, Performed(after);
            var renewed := performed[|Run(before, me).connection.pending|];
            && LastTouch(log, scope, me).Some? && renewed <= LastTouch(log, scope, me).value.at
            && (at < renewed + 90_000 ==> TouchedRecently(log, scope, me, at))
  {
    RefreshIsRenewing(before, after, me, scope);
  }

  // ---- The connection handler ----

  class PresenceConnection {
    var recorded: Option<Scope>
    var pending: seq<Command>

    function View(): Connection
      reads this
    {
      Connection(recorded, pending)
    }

    constructor ()
      ensures View() == Connection(None, [])
    {
      recorded, pending := None, [];
    }

    method RecordStaffPresence(scope: Scope)
      modifies this
      ensures View() == Record(old(View()), scope)
      ensures recorded == Some(scope) && |pending| > 0 && pending[|pending| - 1] == Join(scope)
      ensures pending == old(pending) + (if old(recorded).Some? && old(recorded).value != scope
                                         then [Leave(old(recorded).value), Join(scope)] else [Join(scope)])
    {
      var previous := recorded;
      recorded := Some(scope);
      if previous.Some? && previous.value != scope { pending := pending + [Leave(previous.value)]; }
      pending := pending + [Join(scope)];
    }

    method RefreshStaffPresence()
      modifies this
      ensures View() == Refresh(old(View()))
      ensures recorded == old(recorded)
      ensures pending == if recorded.Some? then old(pending) + [Join(recorded.value)] else old(pending)
    {
      if recorded.None? { return; }
      pending := pending + [Join(recorded.value)];
    }

    method ClearStaffPresence()
      modifies this
      ensures View() == Clear(old(View()))
      ensures recorded == None
      ensures pending == if old(recorded).Some? then old(pending) + [Leave(old(recorded).value)] else old(pending)
    {
      if recorded.None? { return; }
      var current := recorded.value;
      recorded := None;
      pending := pending + [Leave(current)];
    }

    /** The oldest command, carried out in the shared store. */
    method PerformNext(store: PresenceStore, me: string, at: int, clock: int, delivery: Delivery)
      requires store.Valid() && me != ""
      modifies this, store
      ensures store.Valid() && recorded == old(recorded)
      ensures State(View(), store.log)
              == Next(State(old(View()), old(store.log)), me, Performs(at, clock, delivery.Lost?))
    {
      if pending == [] { return; }
      var head := pending[0];
      pending := pending[1..];
      match head
      case Join(scope) => var _ := store.Touch(scope, me, Some(at), clock, delivery);
      case Leave(scope) => var _ := store.Remove(scope, me, clock, delivery);
    }
  }
}
