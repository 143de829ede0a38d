/** The idle clock of signed-in sessions: activity is stored once a minute, administrators expire after an hour. */
module SessionIdle {
  import opened Wrappers

  const ADMIN_IDLE_TIMEOUT_MS := 60 * 60 * 1000
  const ACTIVITY_PERSIST_INTERVAL_MS := 60 * 1000
  const ELEVATED_ROLES := {"admin", "school_admin", "super_admin"}

  const SESSION_BOOTSTRAP_ROUTES := {
    "GET /auth/google", "GET /auth/google/callback", "POST /auth/exchange-code", "POST /auth/login",
    "POST /auth/logout", "POST /auth/register", "POST /auth/register/parent", "POST /login", "POST /logout"
  }

  /** A session without user, role or activity has the empty text or zero there, which the source treats alike. */
  datatype Session = Session(userId: string, role: string, lastActivityAt: int)

  datatype Request = Request(verb: string, path: string, now: int)

  /** A refused request has its session destroyed. */
  datatype Outcome = Passed(session: Session) | Refused

  function Upper(c: char): char {
    if 'a' <= c <= 'z' then c - 'a' + 'A' else c
  }

  function UpperCase(text: string): string {
    seq(|text|, i requires 0 <= i < |text| => Upper(text[i]))
  }

  predicate BypassesSessionIdleTimeout(verb: string, path: string) {
    UpperCase(if verb == "" then "GET" else verb) + " " + path in SESSION_BOOTSTRAP_ROUTES
  }

  predicate SignedIn(session: Session) {
    session.userId != "" && session.role != ""
  }

  predicate Elevated(session: Session) {
    session.role in ELEVATED_ROLES
  }

  predicate Expired(session: Session, now: int) {
    Elevated(session) && session.lastActivityAt != 0 && now - session.lastActivityAt > ADMIN_IDLE_TIMEOUT_MS
  }

  predicate Persists(session: Session, now: int) {
    session.lastActivityAt == 0 || now - session.lastActivityAt >= ACTIVITY_PERSIST_INTERVAL_MS
  }

  predicate Counts(session: Session, request: Request) {
    !BypassesSessionIdleTimeout(request.verb, request.path) && SignedIn(session)
  }

  function Handle(session: Session, request: Request): Outcome {
    if !Counts(session, request) then Passed(session)
    else if Expired(session, request.now) then Refused
    else if Persists(session, request.now) then Passed(session.(lastActivityAt := request.now))
    else Passed(session)
  }

  /** The session after some requests when the store never destroys it: a refused request leaves it as it is. */
  function Undestroyed(session: Session, requests: seq<Request>): Session {
    if requests == [] then session
    else
      var before := Undestroyed(session, requests[..|requests| - 1]);
      var outcome := Handle(before, requests[|requests| - 1]);
      if outcome.Refused? then before else outcome.session
  }

  /** A session refused once is refused for good, and is not written to again, should destroying it fail. */
  lemma {:induction false} ExpiryIsFinal(session: Session, first: Request, later: seq<Request>)
    requires Handle(session, first).Refused? && forall i | 0 <= i < |later| :: first.now <= later[i].now
    ensures Undestroyed(session, later) == session
    ensures forall i | 0 <= i < |later| && Counts(session, later[i]) :: Handle(session, later[i]).Refused?
  {
    if later != [] { ExpiryIsFinal(session, first, later[..|later| - 1]); }
  }

  // ---- The middleware in the request's and the session's own fields ----

  /** Exactly administrators of the three kinds are refused, an hour after the stored activity; everybody else's activity
      is stored once it is a minute old; a bypassed or anonymous request changes nothing. */
  lemma HandleInFields(session: Session, request: Request)
    ensures var bypassed := BypassesSessionIdleTimeout(request.verb, request.path);
            var idle := request.now - session.lastActivityAt;
            var refused := !bypassed && session.userId != "" && session.lastActivityAt != 0 && idle > 3_600_000 &&
                           (session.role == "admin" || session.role == "school_admin" || session.role == "super_admin");
            var stored := !bypassed && !refused && session.userId != "" && session.role != "" &&
                          (session.lastActivityAt == 0 || idle >= 60_000);
            Handle(session, request)
            == if refused then Refused
               else if stored then Passed(Session(session.userId, session.role, request.now)) else Passed(session)
  {}

  predicate NoSpace(text: string) {
    forall i | 0 <= i < |text| :: text[i] != ' '
  }

  function FirstSpace(text: string): nat {
    if text == "" || text[0] == ' ' then 0 else 1 + FirstSpace(text[1..])
  }

  lemma {:induction false} FirstSpaceAfter(a: string, p: string)
    requires NoSpace(a)
    ensures FirstSpace(a + " " + p) == |a|
  {
    if a != "" {
      assert (a + " " + p)[1..] == a[1..] + " " + p;
      FirstSpaceAfter(a[1..], p);
    }
  }

  lemma RouteIs(verb: string, path: string, x: string, y: string)
    requires NoSpace(verb) && NoSpace(x)
    ensures verb + " " + path == x + " " + y <==> verb == x && path == y
  {
    FirstSpaceAfter(verb, path);
    FirstSpaceAfter(x, y);
    if verb + " " + path == x + " " + y {
      assert verb == (verb + " " + path)[..|verb|] && x == (x + " " + y)[..|x|];
      assert path == (verb + " " + path)[|verb| + 1..] && y == (x + " " + y)[|x| + 1..];
    }
  }

  /** A request is let past the clock exactly when it signs in, out or up, or exchanges a code: a missing verb is GET. */
  lemma BypassedRoutes(verb: string, path: string)
    requires NoSpace(UpperCase(verb))
    ensures var v := if verb == "" then "GET" else UpperCase(verb);
            BypassesSessionIdleTimeout(verb, path) <==>
            || (v == "GET" && (path == "/auth/google" || path == "/auth/google/callback"))
            || (v == "POST" &&
                (path == "/auth/exchange-code" || path == "/auth/login" || path == "/auth/logout" ||
                 path == "/auth/register" || path == "/auth/register/parent" || path == "/login" || path == "/logout"))
  {
    assert UpperCase("GET") == "GET";
    var v := UpperCase(if verb == "" then "GET" else verb);
    assert NoSpace(v) && NoSpace("GET") && NoSpace("POST");
    RouteSpelled(v + " " + path);
    hide UpperCase, NoSpace, SESSION_BOOTSTRAP_ROUTES;
    RouteIs(v, path, "GET", "/auth/google");
    RouteIs(v, path, "GET", "/auth/google/callback");
    RouteIs(v, path, "POST", "/auth/exchange-code");
    RouteIs(v, path, "POST", "/auth/login");
    RouteIs(v, path, "POST", "/auth/logout");
    RouteIs(v, path, "POST", "/auth/register");
    RouteIs(v, path, "POST", "/auth/register/parent");
    RouteIs(v, path, "POST", "/login");
    RouteIs(v, path, "POST", "/logout");
  }

  lemma RouteSpelled(route: string)
    ensures route in SESSION_BOOTSTRAP_ROUTES <==>
            || route == "GET" + " " + "/auth/google"
            || route == "GET" + " " + "/auth/google/callback"
            || route == "POST" + " " + "/auth/exchange-code"
            || route == "POST" + " " + "/auth/login"
            || route == "POST" + " " + "/auth/logout"
            || route == "POST" + " " + "/auth/register"
            || route == "POST" + " " + "/auth/register/parent"
            || route == "POST" + " " + "/login"
            || route == "POST" + " " + "/logout"
  {
    RoutesListed(route);
    JoinedBySpace("GET", "/auth/google", "GET /auth/google");
    JoinedBySpace("GET", "/auth/google/callback", "GET /auth/google/callback");
    JoinedBySpace("POST", "/auth/exchange-code", "POST /auth/exchange-code");
    JoinedBySpace("POST", "/auth/login", "POST /auth/login");
    JoinedBySpace("POST", "/auth/logout", "POST /auth/logout");
    JoinedBySpace("POST", "/auth/register", "POST /auth/register");
    JoinedBySpace("POST", "/auth/register/parent", "POST /auth/register/parent");
    JoinedBySpace("POST", "/login", "POST /login");
    JoinedBySpace("POST", "/logout", "POST /logout");
    hide SESSION_BOOTSTRAP_ROUTES;
  }

  lemma RoutesListed(route: string)
    ensures route in SESSION_BOOTSTRAP_ROUTES <==>
            || route == "GET /auth/google"
            || route == "GET /auth/google/callback"
            || route == "POST /auth/exchange-code"
            || route == "POST /auth/login"
            || route == "POST /auth/logout"
            || route == "POST /auth/register"
            || route == "POST /auth/register/parent"
            || route == "POST /login"
            || route == "POST /logout"
  {}

  lemma JoinedBySpace(verb: string, path: string, route: string)
    requires |route| == |verb| + 1 + |path| && route[..|verb|] == verb && route[|verb|] == ' '
    requires route[|verb| + 1..] == path
    ensures verb + " " + path == route
  {
    assert route == route[..|verb|] + [route[|verb|]] + route[|verb| + 1..];
  }

  /** In particular a stale administrator session never blocks signing in again or out. */
  lemma StaleSessionMaySignInAndOut(session: Session, now: int)
    ensures Handle(session, Request("POST", "/auth/login", now)) == Passed(session)
    ensures Handle(session, Request("POST", "/auth/logout", now)) == Passed(session)
    ensures Handle(session, Request("POST", "/login", now)) == Passed(session)
    ensures Handle(session, Request("POST", "/logout", now)) == Passed(session)
  {
    assert UpperCase("POST") == "POST";
    RouteSpelled("POST" + " " + "/auth/login");
    RouteSpelled("POST" + " " + "/auth/logout");
    RouteSpelled("POST" + " " + "/login");
    RouteSpelled("POST" + " " + "/logout");
  }

  // ---- Runs ----

  /** The outcome of the last request, all of them sent with the cookie of one session. */
  function Run(start: Session, requests: seq<Request>): Outcome {
    if requests == [] then Passed(start)
    else
      var before := Run(start, requests[..|requests| - 1]);
      if before.Refused? then Refused else Handle(before.session, requests[|requests| - 1])
  }

  /** When the latest request that concerns the clock was made; signing in may have been the first. */
  function LastCounted(start: Session, requests: seq<Request>): Option<int> {
    if requests == [] then if start.lastActivityAt == 0 then None else Some(start.lastActivityAt)
    else
      var request := requests[|requests| - 1];
      if Counts(start, request) then Some(request.now) else LastCounted(start, requests[..|requests| - 1])
  }

  /** Two successive counted requests are never further apart than that. */
  predicate GapsAtMost(start: Session, requests: seq<Request>, gap: int) {
    requests == [] ||
    var before, request := requests[..|requests| - 1], requests[|requests| - 1];
    && GapsAtMost(start, before, gap)
    && (Counts(start, request) && LastCounted(start, before).Some? ==>
          request.now - LastCounted(start, before).value <= gap)
  }

  ghost predicate InOrder(start: Session, requests: seq<Request>) {
    (forall i | 0 <= i < |requests| :: 0 < requests[i].now && start.lastActivityAt <= requests[i].now) &&
    forall i, j | 0 <= i < j < |requests| :: requests[i].now <= requests[j].now
  }

  predicate Begun(start: Session) {
    SignedIn(start) && start.lastActivityAt >= 0
  }

  lemma {:induction false} CountedIsPast(start: Session, requests: seq<Request>)
    requires Begun(start) && InOrder(start, requests)
    ensures var last := LastCounted(start, requests);
            last.Some? ==> 0 < last.value && (requests == [] || last.value <= requests[|requests| - 1].now)
  {
    if requests != [] { CountedIsPast(start, requests[..|requests| - 1]); }
  }

  /** While the session lives, the stored activity lags the last counted request by less than a minute. */
  lemma {:induction false} LagIsBounded(start: Session, requests: seq<Request>)
    requires Begun(start) && InOrder(start, requests) && Run(start, requests).Passed?
    ensures var session, last := Run(start, requests).session, LastCounted(start, requests);
            && session == start.(lastActivityAt := session.lastActivityAt)
            && (last.None? ==> session.lastActivityAt == 0)
            && (last.Some? ==> 0 < session.lastActivityAt <= last.value &&
                               last.value - session.lastActivityAt < ACTIVITY_PERSIST_INTERVAL_MS)
  {
    if requests != [] {
      var before := requests[..|requests| - 1];
      LagIsBounded(start, before);
      CountedIsPast(start, before);
    }
  }

  /** A gap of more than an hour ends an administrator's session, wherever in the run it is. */
  lemma {:induction false} LongGapExpires(start: Session, requests: seq<Request>)
    requires Begun(start) && Elevated(start) && InOrder(start, requests)
    ensures Run(start, requests).Passed? ==> GapsAtMost(start, requests, ADMIN_IDLE_TIMEOUT_MS)
  {
    if requests != [] && Run(start, requests).Passed? {
      var before := requests[..|requests| - 1];
      LongGapExpires(start, before);
      LagIsBounded(start, before);
    }
  }

  /** The longest gap that no session can expire in: 59 minutes and a millisecond. */
  const SAFE_GAP_MS := ADMIN_IDLE_TIMEOUT_MS - ACTIVITY_PERSIST_INTERVAL_MS + 1

  lemma {:induction false} ShortGapsNeverExpire(start: Session, requests: seq<Request>)
    requires Begun(start) && InOrder(start, requests)
    requires Elevated(start) ==> GapsAtMost(start, requests, SAFE_GAP_MS)
    ensures Run(start, requests).Passed?
  {
    if requests != [] {
      var before := requests[..|requests| - 1];
      ShortGapsNeverExpire(start, before);
      LagIsBounded(start, before);
    }
  }

  /** One millisecond more, after a request just too early to be stored, and the session is gone within the hour. */
  lemma SafeGapIsLargest(start: Session, t: int, verb: string, path: string)
    requires SignedIn(start) && start.lastActivityAt == 0 && Elevated(start)
    requires t > 0 && !BypassesSessionIdleTimeout(verb, path)
    ensures var second := t + ACTIVITY_PERSIST_INTERVAL_MS - 1;
            Run(start, [Request(verb, path, t), Request(verb, path, second),
                        Request(verb, path, second + SAFE_GAP_MS + 1)]).Refused?
  {
    var second := t + ACTIVITY_PERSIST_INTERVAL_MS - 1;
    var a, b, c := Request(verb, path, t), Request(verb, path, second), Request(verb, path, second + SAFE_GAP_MS + 1);
    assert [a, b, c][..2] == [a, b] && [a, b][..1] == [a] && [a][..0] == [];
    assert Run(start, []) == Passed(start);
    assert Run(start, [a]) == Passed(start.(lastActivityAt := t));
    assert Run(start, [a, b]) == Passed(start.(lastActivityAt := t));
  }

  // ---- Stored activity ----

  /** The times at which the session's activity was stored. */
  function Writes(start: Session, requests: seq<Request>): seq<int> {
    if requests == [] then if start.lastActivityAt == 0 then [] else [start.lastActivityAt]
    else
      var earlier, request := requests[..|requests| - 1], requests[|requests| - 1];
      var before := Run(start, earlier);
      if before.Passed? && Counts(before.session, request) && !Expired(before.session, request.now) &&
         Persists(before.session, request.now)
      then Writes(start, earlier) + [request.now]
      else Writes(start, earlier)
  }

  predicate Spaced(times: seq<int>) {
    forall i, j | 0 <= i < j < |times| :: times[j] - times[i] >= ACTIVITY_PERSIST_INTERVAL_MS
  }

  /** Any two writes are at least a minute apart. */
  lemma {:induction false} WritesAreApart(start: Session, requests: seq<Request>)
    requires Begun(start) && InOrder(start, requests)
    ensures var writes := Writes(start, requests);
            && (Run(start, requests).Passed? ==>
                  Run(start, requests).session.lastActivityAt == if writes == [] then 0 else writes[|writes| - 1])
            && (forall i | 0 <= i < |writes| :: 0 < writes[i])
            && Spaced(writes)
  {
    hide BypassesSessionIdleTimeout, Elevated;
    if requests != [] {
      var before := requests[..|requests| - 1];
      WritesAreApart(start, before);
    }
  }

  /** The session object that the middleware reads and updates. */
  class SessionRecord {
    var userId: string
    var role: string
    var lastActivityAt: int
    var destroyed: bool

    function View(): Session
      reads this
    {
      Session(userId, role, lastActivityAt)
    }

    constructor (userId: string, role: string)
      ensures !destroyed && View() == Session(userId, role, 0)
    {
      this.userId, this.role, lastActivityAt, destroyed := userId, role, 0, false;
    }

    method SessionIdleTimeout(request: Request) returns (refused: bool)
      requires !destroyed
      modifies this
      ensures refused == destroyed
      ensures Handle(old(View()), request) == if refused then Refused else Passed(View())
      ensures refused ==> View() == old(View())
    {
      if BypassesSessionIdleTimeout(request.verb, request.path) { return false; }
      if userId == "" || role == "" { return false; }
      if role in ELEVATED_ROLES && lastActivityAt != 0 && request.now - lastActivityAt > ADMIN_IDLE_TIMEOUT_MS {
        destroyed := true;
        return true;
      }
      if lastActivityAt == 0 || request.now - lastActivityAt >= ACTIVITY_PERSIST_INTERVAL_MS {
        lastActivityAt := request.now;
      }
      return false;
    }
  }
}
