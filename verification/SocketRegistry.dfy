/** The WebSocket registry of one process: the primary map of clients and the two per-school socket indexes. */
module SocketRegistry {
  import opened Wrappers

  datatype Role = Teacher | OfficeStaff | SchoolAdmin | SuperAdmin | Student

  datatype Client = Client(role: Role, schoolId: Option<string>, deviceId: Option<string>, studentId: Option<string>,
                           userId: Option<string>, sessions: set<string>, authenticated: bool)

  datatype Auth = Auth(role: Role, schoolId: string, deviceId: Option<string>, studentId: Option<string>,
                       userId: Option<string>)

  type Index = map<string, set<int>>

  /** Sockets are numbers; `open` are those whose readyState is OPEN. */
  datatype Registry = Registry(clients: map<int, Client>, staff: Index, students: Index, open: set<int>)

  const EMPTY_REGISTRY := Registry(map[], map[], map[], {})

  predicate Truthy(text: Option<string>) {
    text.Some? && text.value != ""
  }

  function Sockets(index: Index, school: string): set<int> {
    if school in index then index[school] else {}
  }

  function AddSocket(index: Index, school: string, ws: int): Index {
    index[school := Sockets(index, school) + {ws}]
  }

  function RemoveSocket(index: Index, school: string, ws: int): Index {
    if school !in index then index
    else if index[school] - {ws} == {} then index - {school}
    else index[school := index[school] - {ws}]
  }

  function Register(r: Registry, ws: int): Registry {
    r.(clients := r.clients[ws := Client(Student, None, None, None, None, {}, false)])
  }

  /** The index entry of the client's current school goes; an empty school id is falsy and is not looked up. */
  function Unindexed(r: Registry, ws: int): Registry
    requires ws in r.clients
  {
    var c := r.clients[ws];
    if !Truthy(c.schoolId) then r
    else if c.role.Student? then r.(students := RemoveSocket(r.students, c.schoolId.value, ws))
    else r.(staff := RemoveSocket(r.staff, c.schoolId.value, ws))
  }

  function Authenticate(r: Registry, ws: int, auth: Auth): Registry {
    if ws !in r.clients then r
    else
      var u := Unindexed(r, ws);
      var c := Client(auth.role, Some(auth.schoolId), auth.deviceId, auth.studentId, auth.userId, {}, true);
      var listed := u.(clients := u.clients[ws := c]);
      if auth.role.Student? then listed.(students := AddSocket(listed.students, auth.schoolId, ws))
      else listed.(staff := AddSocket(listed.staff, auth.schoolId, ws))
  }

  function Remove(r: Registry, ws: int): Registry {
    if ws !in r.clients then r
    else
      var u := Unindexed(r, ws);
      u.(clients := u.clients - {ws})
  }

  function SetSubscription(r: Registry, ws: int, session: string, subscribed: bool): Registry {
    if ws !in r.clients || !r.clients[ws].authenticated || r.clients[ws].role.Student? then r
    else
      var c := r.clients[ws];
      var sessions := if subscribed then c.sessions + {session} else c.sessions - {session};
      r.(clients := r.clients[ws := c.(sessions := sessions)])
  }

  function CloseSchool(r: Registry, school: string): Registry {
    r.(open := r.open - Sockets(r.staff, school) - Sockets(r.students, school),
       staff := r.staff - {school}, students := r.students - {school})
  }

  predicate Revoked(r: Registry, ws: int, targets: set<string>) {
    ws in r.clients && r.clients[ws].authenticated && r.clients[ws].role.Student? &&
    Truthy(r.clients[ws].studentId) && r.clients[ws].studentId.value in targets
  }

  function RevokedIn(r: Registry, sockets: set<int>, targets: set<string>): set<int> {
    set ws | ws in sockets && Revoked(r, ws, targets)
  }

  /** Those sockets lose their authority and close; the school's index may be left empty. */
  function Without(r: Registry, school: string, gone: set<int>): Registry {
    r.(clients := r.clients - gone, open := r.open - gone,
       students := r.students[school := Sockets(r.students, school) - gone])
  }

  function Pruned(index: Index, school: string): Index {
    if Sockets(index, school) == {} then index - {school} else index
  }

  /** closeStudentSocketsLocal for the non-empty ids among those given. */
  function CloseStudents(r: Registry, school: string, targets: set<string>): Registry {
    if school !in r.students || targets == {} then r
    else
      var after := Without(r, school, RevokedIn(r, r.students[school], targets));
      after.(students := Pruned(after.students, school))
  }

  // ---- Agreement of the indexes with the primary map ----

  ghost predicate Indexed(r: Registry, index: Index, students: bool) {
    forall s, ws | s in index && ws in index[s] ::
      ws in r.clients && r.clients[ws].schoolId == Some(s) && r.clients[ws].role.Student? == students
  }

  function OwnSockets(r: Registry, c: Client): set<int> {
    if c.schoolId.None? then {}
    else if c.role.Student? then Sockets(r.students, c.schoolId.value)
    else Sockets(r.staff, c.schoolId.value)
  }

  ghost predicate Agrees(r: Registry) {
    Indexed(r, r.staff, false) && Indexed(r, r.students, true) &&
    (forall s | s in r.staff :: r.staff[s] != {}) && (forall s | s in r.students :: r.students[s] != {}) &&
    (forall ws | ws in r.clients && r.clients[ws].authenticated && ws in r.open :: ws in OwnSockets(r, r.clients[ws]))
  }

  /** The client is indexed under the empty school id, where neither re-authentication nor removal looks. */
  predicate Stranded(r: Registry, ws: int) {
    ws in r.clients && r.clients[ws].schoolId == Some("") && ws in OwnSockets(r, r.clients[ws])
  }

  lemma UnindexingKeeps(r: Registry, ws: int)
    requires Agrees(r) && ws in r.clients
    ensures var u := Unindexed(r, ws);
            && u.clients == r.clients && u.open == r.open
            && Indexed(u, u.staff, false) && Indexed(u, u.students, true)
            && (forall s | s in u.staff :: u.staff[s] != {}) && (forall s | s in u.students :: u.students[s] != {})
            && (forall x, s | x != ws :: (x in Sockets(u.staff, s) <==> x in Sockets(r.staff, s)) &&
                                         (x in Sockets(u.students, s) <==> x in Sockets(r.students, s)))
            && (!Stranded(r, ws) ==> forall s :: ws !in Sockets(u.staff, s) && ws !in Sockets(u.students, s))
            && (Stranded(r, ws) ==> u == r)
  {}

  lemma AuthenticatingAgrees(r: Registry, ws: int, auth: Auth)
    requires Agrees(r) && ws in r.clients
    requires Stranded(r, ws) ==> auth.schoolId == "" && auth.role.Student? == r.clients[ws].role.Student?
    ensures Agrees(Authenticate(r, ws, auth))
  {
    AuthenticatingIndexes(r, ws, auth);
    var u, after := Unindexed(r, ws), Authenticate(r, ws, auth);
    UnindexingKeeps(r, ws);
    hide Indexed, Unindexed, Stranded;
    forall x | x in after.clients && after.clients[x].authenticated && x in after.open
      ensures x in OwnSockets(after, after.clients[x])
    {
      if x != ws {
        assert x in OwnSockets(r, r.clients[x]);
        assert x in OwnSockets(u, r.clients[x]);
      }
    }
  }

  lemma AuthenticatingIndexes(r: Registry, ws: int, auth: Auth)
    requires Agrees(r) && ws in r.clients
    requires Stranded(r, ws) ==> auth.schoolId == "" && auth.role.Student? == r.clients[ws].role.Student?
    ensures var after := Authenticate(r, ws, auth);
            Indexed(after, after.staff, false) && Indexed(after, after.students, true)
  {
    UnindexingKeeps(r, ws);
    var u, after := Unindexed(r, ws), Authenticate(r, ws, auth);
    forall s, x | s in after.staff && x in after.staff[s]
      ensures x in after.clients && after.clients[x].schoolId == Some(s) && !after.clients[x].role.Student?
    {
      if x != ws { assert s in u.staff && x in Sockets(u.staff, s); }
    }
    forall s, x | s in after.students && x in after.students[s]
      ensures x in after.clients && after.clients[x].schoolId == Some(s) && after.clients[x].role.Student?
    {
      if x != ws { assert s in u.students && x in Sockets(u.students, s); }
    }
  }

  /** Authentication keeps the agreement unless it moves a client out of the empty school's index. */
  lemma AuthenticatingKeeps(r: Registry, ws: int, auth: Auth)
    requires Agrees(r)
    ensures Agrees(Authenticate(r, ws, auth)) <==>
            !(Stranded(r, ws) && (auth.schoolId != "" || auth.role.Student? != r.clients[ws].role.Student?))
  {
    if ws in r.clients {
      var c := r.clients[ws];
      if Stranded(r, ws) && (auth.schoolId != "" || auth.role.Student? != c.role.Student?) {
        var after := Authenticate(r, ws, auth);
        var index, kind := if c.role.Student? then after.students else after.staff, c.role.Student?;
        assert "" in index && ws in index[""];
        assert after.clients[ws].schoolId != Some("") || after.clients[ws].role.Student? != kind;
        assert !Indexed(after, index, kind);
      } else {
        AuthenticatingAgrees(r, ws, auth);
      }
    }
  }

  /** Removal keeps it unless the client is indexed under the empty school id. */
  lemma RemovingKeeps(r: Registry, ws: int)
    requires Agrees(r)
    ensures Agrees(Remove(r, ws)) <==> !Stranded(r, ws)
  {
    if ws in r.clients {
      UnindexingKeeps(r, ws);
      var after, c := Remove(r, ws), r.clients[ws];
      if Stranded(r, ws) {
        var index := if c.role.Student? then after.students else after.staff;
        assert "" in index && ws in index[""];
      }
    }
  }

  lemma RevokingKeeps(r: Registry, school: string, targets: set<string>)
    requires Agrees(r)
    ensures Agrees(CloseStudents(r, school, targets))
  {
    var gone := RevokedIn(r, Sockets(r.students, school), targets);
    var after := CloseStudents(r, school, targets);
    assert forall s, ws | s in r.staff && ws in r.staff[s] :: ws !in gone;
    assert forall s, ws | s in r.students && ws in r.students[s] && s != school :: ws !in gone;
  }

  /** After a revocation none of those students' open sockets in that school is authenticated any more. */
  lemma RevokedAreGone(r: Registry, school: string, targets: set<string>, ws: int)
    requires Agrees(r)
    ensures var after := CloseStudents(r, school, targets);
            !(Revoked(after, ws, targets) && after.clients[ws].schoolId == Some(school) && ws in after.open)
  {}

  lemma ClosingSchoolKeeps(r: Registry, school: string)
    requires Agrees(r)
    ensures Agrees(CloseSchool(r, school))
    ensures forall ws | ws in r.clients && r.clients[ws].authenticated && r.clients[ws].schoolId == Some(school) ::
              ws !in CloseSchool(r, school).open
  {}

  // ---- Runs ----

  datatype Event =
    | Connects(ws: int)                 // a new socket, registered once
    | Authenticates(ws: int, auth: Auth)
    | LosesAuthority(ws: int)           // the connection handler clears `authenticated`
    | Disconnects(ws: int)
    | Subscribes(ws: int, session: string, on: bool)
    | SocketCloses(ws: int)             // readyState leaves OPEN
    | SchoolCloses(school: string)
    | StudentsRevoked(school: string, targets: set<string>)
    | Resets

  function Next(r: Registry, e: Event): Registry {
    match e
    case Connects(ws) => if ws in r.clients then r else Register(r, ws).(open := r.open + {ws})
    case Authenticates(ws, auth) => Authenticate(r, ws, auth)
    case LosesAuthority(ws) =>
      if ws in r.clients then r.(clients := r.clients[ws := r.clients[ws].(authenticated := false)]) else r
    case Disconnects(ws) => Remove(r, ws)
    case Subscribes(ws, session, on) => SetSubscription(r, ws, session, on)
    case SocketCloses(ws) => r.(open := r.open - {ws})
    case SchoolCloses(school) => CloseSchool(r, school)
    case StudentsRevoked(school, targets) => CloseStudents(r, school, targets)
    case Resets => r.(clients := map[], staff := map[], students := map[])
  }

  /** The callers reject an empty school id before they authenticate a client. */
  predicate Admissible(e: Event) {
    e.Authenticates? ==> e.auth.schoolId != ""
  }

  ghost predicate Sound(r: Registry) {
    Agrees(r) && forall ws | ws in r.clients :: r.clients[ws].schoolId != Some("")
  }

  lemma EventKeeps(r: Registry, e: Event)
    requires Sound(r) && Admissible(e)
    ensures Sound(Next(r, e))
  {
    match e
    case Authenticates(ws, auth) => AuthenticatingKeeps(r, ws, auth);
    case Disconnects(ws) => RemovingKeeps(r, ws);
    case StudentsRevoked(school, targets) => RevokingKeeps(r, school, targets);
    case SchoolCloses(school) => ClosingSchoolKeeps(r, school);
    case LosesAuthority(ws) => UpdatingKeeps(r, ws, if ws in r.clients then r.clients[ws].sessions else {}, false);
    case Subscribes(ws, session, on) =>
      if ws in r.clients {
        var sessions := r.clients[ws].sessions;
        UpdatingKeeps(r, ws, if on then sessions + {session} else sessions - {session}, r.clients[ws].authenticated);
      }
    case Connects(ws) => if ws !in r.clients { ConnectingKeeps(r, ws); }
    case _ =>
  }

  lemma UpdatingKeeps(r: Registry, ws: int, sessions: set<string>, authenticated: bool)
    requires Sound(r) && (ws in r.clients && authenticated ==> r.clients[ws].authenticated)
    ensures ws in r.clients ==>
              Sound(r.(clients := r.clients[ws := r.clients[ws].(sessions := sessions, authenticated := authenticated)]))
  {
    if ws in r.clients {
      var after := r.(clients := r.clients[ws := r.clients[ws].(sessions := sessions, authenticated := authenticated)]);
      forall x | x in after.clients && after.clients[x].authenticated && x in after.open
        ensures x in OwnSockets(after, after.clients[x])
      {
        assert x in OwnSockets(r, r.clients[x]);
      }
    }
  }

  lemma ConnectingKeeps(r: Registry, ws: int)
    requires Sound(r) && ws !in r.clients
    ensures Sound(Register(r, ws).(open := r.open + {ws}))
  {
    var after := Register(r, ws).(open := r.open + {ws});
    forall x | x in after.clients && after.clients[x].authenticated && x in after.open
      ensures x in OwnSockets(after, after.clients[x])
    {
      assert x in OwnSockets(r, r.clients[x]);
    }
  }

  function Run(events: seq<Event>): Registry {
    if events == [] then EMPTY_REGISTRY else Next(Run(events[..|events| - 1]), events[|events| - 1])
  }

  lemma {:induction false} RunAgrees(events: seq<Event>)
    requires forall i | 0 <= i < |events| :: Admissible(events[i])
    ensures Sound(Run(events))
  {
    if events != [] {
      RunAgrees(events[..|events| - 1]);
      EventKeeps(Run(events[..|events| - 1]), events[|events| - 1]);
    }
  }

  // ---- Who receives a message ----

  /** What a send filters on besides role kind, school, authentication and openness. */
  datatype Audience = AllStaff | StaffUser(userId: string) | StaffSession(sessionId: string)

  predicate Matches(c: Client, audience: Audience) {
    match audience
    case AllStaff => true
    case StaffUser(u) => c.userId == Some(u)
    case StaffSession(s) => s in c.sessions
  }

  predicate Receives(r: Registry, ws: int, audience: Audience) {
    ws in r.clients && r.clients[ws].authenticated && !r.clients[ws].role.Student? && ws in r.open &&
    Matches(r.clients[ws], audience)
  }

  /** The clients a scan of the whole registry would select. */
  function WholeRegistry(r: Registry, school: string, audience: Audience): set<int> {
    set ws | ws in r.clients && r.clients[ws].schoolId == Some(school) && Receives(r, ws, audience)
  }

  lemma IndexSelectsAll(r: Registry, school: string, audience: Audience)
    requires Agrees(r)
    ensures (set ws | ws in Sockets(r.staff, school) && Receives(r, ws, audience)) == WholeRegistry(r, school, audience)
  {
    forall ws | ws in WholeRegistry(r, school, audience) ensures ws in Sockets(r.staff, school) {
      assert ws in OwnSockets(r, r.clients[ws]);
    }
  }

  /** Students a message for some devices (all of them when none is named) is meant for. */
  predicate Targeted(r: Registry, ws: int, devices: set<string>) {
    ws in r.clients && r.clients[ws].authenticated && r.clients[ws].role.Student? &&
    (devices == {} || Device(r, ws) in devices)
  }

  function Device(r: Registry, ws: int): string {
    if ws in r.clients then r.clients[ws].deviceId.Else("") else ""
  }

  /** A message with an id goes to each device once: it is suppressed for a device that has `seen` it, and after the
      first targeted socket of that device, sent to or not. */
  predicate Suppressed(r: Registry, order: seq<int>, i: nat, devices: set<string>, tagged: bool, seen: set<string>)
    requires i < |order|
  {
    tagged && Device(r, order[i]) != "" &&
    (Device(r, order[i]) in seen ||
     exists j :: 0 <= j < i && Targeted(r, order[j], devices) && Device(r, order[j]) == Device(r, order[i]))
  }

  /** The i-th socket of the index is sent the message; `accepted` are the clients the caller's filter lets pass. */
  predicate IsSent(r: Registry, order: seq<int>, i: nat, devices: set<string>, accepted: set<int>, tagged: bool,
                   seen: set<string>)
    requires i < |order|
  {
    Targeted(r, order[i], devices) && !Suppressed(r, order, i, devices, tagged, seen) &&
    order[i] in accepted && order[i] in r.open
  }

  /** The order in which the school's student sockets are visited. */
  ghost predicate Lists(order: seq<int>, sockets: set<int>) {
    (forall ws :: ws in sockets <==> ws in order) &&
    forall i, j | 0 <= i < j < |order| :: order[i] != order[j]
  }

  /** The clients a scan of the whole registry would send to. */
  predicate WouldReach(r: Registry, school: string, ws: int, devices: set<string>, accepted: set<int>) {
    Targeted(r, ws, devices) && r.clients[ws].schoolId == Some(school) && ws in accepted && ws in r.open
  }

  /** Without a message id, the students sent to are exactly those a scan of the whole registry would select; with one,
      they are among them. */
  lemma StudentIndexSelectsAll(r: Registry, school: string, order: seq<int>, devices: set<string>, accepted: set<int>,
                               tagged: bool, seen: set<string>, ws: int)
    requires Agrees(r) && Lists(order, Sockets(r.students, school))
    ensures (exists i: nat :: i < |order| && order[i] == ws && IsSent(r, order, i, devices, accepted, tagged, seen)) ==>
              WouldReach(r, school, ws, devices, accepted)
    ensures !tagged && WouldReach(r, school, ws, devices, accepted) ==>
              exists i: nat :: i < |order| && order[i] == ws && IsSent(r, order, i, devices, accepted, tagged, seen)
  {
    if ws in order {
      assert ws in Sockets(r.students, school);
      assert school in r.students && ws in r.students[school];
    }
    if WouldReach(r, school, ws, devices, accepted) {
      assert ws in OwnSockets(r, r.clients[ws]);
      var i :| 0 <= i < |order| && order[i] == ws;
      assert tagged || IsSent(r, order, i, devices, accepted, tagged, seen);
    }
  }

  /** With a message id a device is sent to at most once, and exactly when it has not seen the message and the first of
      its targeted sockets passes the filter and is open: a stale socket of the device in front swallows the message. */
  lemma DeviceIsReachedIff(r: Registry, order: seq<int>, devices: set<string>, accepted: set<int>, seen: set<string>,
                           first: nat)
    requires first < |order| && Targeted(r, order[first], devices) && Device(r, order[first]) != ""
    requires forall j | 0 <= j < first && Targeted(r, order[j], devices) ::
               Device(r, order[j]) != Device(r, order[first])
    ensures (exists i: nat :: i < |order| && Device(r, order[i]) == Device(r, order[first]) &&
                              IsSent(r, order, i, devices, accepted, true, seen)) <==>
            Device(r, order[first]) !in seen && order[first] in accepted && order[first] in r.open
    ensures forall i: nat | i < |order| && i != first && Device(r, order[i]) == Device(r, order[first]) ::
              !IsSent(r, order, i, devices, accepted, true, seen)
  {
    forall i: nat | i < |order| && i != first && Device(r, order[i]) == Device(r, order[first])
      ensures !IsSent(r, order, i, devices, accepted, true, seen)
    {
      if i > first { assert Suppressed(r, order, i, devices, true, seen); }
    }
    assert IsSent(r, order, first, devices, accepted, true, seen) <==>
           Device(r, order[first]) !in seen && order[first] in accepted && order[first] in r.open;
  }

  /** That happens: a device's first socket closes, it connects and authenticates anew before the old socket has left
      the registry, and the message reaches nobody although the new socket is open. */
  lemma StaleSocketSwallowsMessage(school: string, student: Auth, device: string)
    requires school != "" && device != "" && student.schoolId == school && student.role.Student?
    requires student.deviceId == Some(device)
    ensures var run := [Connects(1), Authenticates(1, student), SocketCloses(1), Connects(2), Authenticates(2, student)];
            var r, order := Run(run), [1, 2];
            && (forall i | 0 <= i < |run| :: Admissible(run[i]))
            && Lists(order, Sockets(r.students, school))
            && WouldReach(r, school, 2, {}, {1, 2})
            && !IsSent(r, order, 0, {}, {1, 2}, true, {}) && !IsSent(r, order, 1, {}, {1, 2}, true, {})
  {
    var run := [Connects(1), Authenticates(1, student), SocketCloses(1), Connects(2), Authenticates(2, student)];
    StaleRun(school, student, device);
    hide Run;
    var r, order := Run(run), [1, 2];
    assert order[0] == 1 && order[1] == 2;
    assert Suppressed(r, order, 1, {}, true, {});
  }

  lemma StaleRun(school: string, student: Auth, device: string)
    requires student.schoolId == school && student.role.Student? && student.deviceId == Some(device)
    ensures var client := Client(student.role, Some(school), Some(device), student.studentId, student.userId, {}, true);
            Run([Connects(1), Authenticates(1, student), SocketCloses(1), Connects(2), Authenticates(2, student)])
            == Registry(map[1 := client, 2 := client], map[], map[school := {1, 2}], {2})
  {
    var a, b, c := Connects(1), Authenticates(1, student), SocketCloses(1);
    var d, e := Connects(2), Authenticates(2, student);
    RunExtends([], a);
    RunExtends([a], b);
    RunExtends([a, b], c);
    RunExtends([a, b, c], d);
    RunExtends([a, b, c, d], e);
    assert [] + [a] == [a] && [a] + [b] == [a, b] && [a, b] + [c] == [a, b, c];
    assert [a, b, c] + [d] == [a, b, c, d] && [a, b, c, d] + [e] == [a, b, c, d, e];
    assert Run([]) == EMPTY_REGISTRY;
    hide Run;
    StaleSteps(school, student, device);
    hide Next;
  }

  lemma StaleSteps(school: string, student: Auth, device: string)
    requires student.schoolId == school && student.role.Student? && student.deviceId == Some(device)
    ensures var client := Client(student.role, Some(school), Some(device), student.studentId, student.userId, {}, true);
            Next(Next(Next(Next(Next(EMPTY_REGISTRY, Connects(1)), Authenticates(1, student)), SocketCloses(1)),
                      Connects(2)), Authenticates(2, student))
            == Registry(map[1 := client, 2 := client], map[], map[school := {1, 2}], {2})
  {
    var unknown := Client(Student, None, None, None, None, {}, false);
    var client := Client(student.role, Some(school), Some(device), student.studentId, student.userId, {}, true);
    var r1 := Registry(map[1 := unknown], map[], map[], {1});
    var r2 := Registry(map[1 := client], map[], map[school := {1}], {1});
    var r3 := Registry(map[1 := client], map[], map[school := {1}], {});
    var r4 := Registry(map[1 := client, 2 := unknown], map[], map[school := {1}], {2});
    var r5 := Registry(map[1 := client, 2 := client], map[], map[school := {1, 2}], {2});
    Connecting(EMPTY_REGISTRY, 1);
    Authenticating(r1, 1, student);
    assert Next(r2, SocketCloses(1)) == r3 by { assert {1} - {1} == {}; }
    Connecting(r3, 2);
    Authenticating(r4, 2, student);
    hide Next;
    assert {} + {1} == {1} && {} + {2} == {2} && {1} + {2} == {1, 2};
    assert Next(EMPTY_REGISTRY, Connects(1)) == r1;
    assert r2.clients == r1.clients[1 := client] && r2.students == AddSocket(r1.students, school, 1);
    assert r4.clients == r3.clients[2 := unknown];
    assert r5.clients == r4.clients[2 := client] && r5.students == AddSocket(r4.students, school, 2);
  }

  lemma Connecting(r: Registry, ws: int)
    requires ws !in r.clients
    ensures Next(r, Connects(ws)) == r.(clients := r.clients[ws := Client(Student, None, None, None, None, {}, false)],
                                        open := r.open + {ws})
  {}

  lemma Authenticating(r: Registry, ws: int, auth: Auth)
    requires ws in r.clients && r.clients[ws].schoolId.None? && auth.role.Student?
    ensures Next(r, Authenticates(ws, auth))
            == r.(clients := r.clients[ws := Client(auth.role, Some(auth.schoolId), auth.deviceId, auth.studentId,
                                                    auth.userId, {}, true)],
                  students := AddSocket(r.students, auth.schoolId, ws))
  {}

  lemma RunExtends(events: seq<Event>, e: Event)
    ensures Run(events + [e]) == Next(Run(events), e)
  {
    assert (events + [e])[..|events|] == events;
  }

  // ---- Each operation in the clients' own fields ----

  /** Authentication gives the client exactly the given identity, no subscriptions, and touches no other client. */
  lemma AuthenticatedClient(r: Registry, ws: int, auth: Auth)
    ensures var after := Authenticate(r, ws, auth);
            && after.open == r.open && after.clients.Keys == r.clients.Keys
            && (ws in r.clients ==>
                  after.clients[ws] == Client(auth.role, Some(auth.schoolId), auth.deviceId, auth.studentId,
                                              auth.userId, {}, true))
            && (forall x | x in r.clients && x != ws :: after.clients[x] == r.clients[x])
  {}

  /** Revocation removes and closes exactly the school's indexed sockets that are authenticated students among the ids,
      the empty id meaning nobody; every other client keeps its state. */
  lemma RevocationInFields(r: Registry, school: string, ids: set<string>, ws: int)
    requires Agrees(r) && ws in r.clients
    ensures var c, after := r.clients[ws], CloseStudents(r, school, ids - {""});
            && (ws !in after.clients <==>
                && school in r.students && ws in r.students[school]
                && c.authenticated && c.role == Student && c.studentId.Some? && c.studentId.value != ""
                && c.studentId.value in ids)
            && (ws in after.clients ==> after.clients[ws] == c && (ws in after.open <==> ws in r.open))
            && (ws !in after.clients ==> ws !in after.open)
    ensures var c := r.clients[ws];
            && c.authenticated && c.role == Student && c.schoolId == Some(school) && ws in r.open
            && c.studentId.Some? && c.studentId.value != "" && c.studentId.value in ids ==>
              ws !in CloseStudents(r, school, ids - {""}).clients
  {
    var c, targets := r.clients[ws], ids - {""};
    if c.authenticated && ws in r.open { assert ws in OwnSockets(r, c); }
    assert c.studentId.Some? && c.studentId.value != "" && c.studentId.value in ids ==> c.studentId.value in targets;
    if school in r.students && targets != {} {
      var gone := RevokedIn(r, r.students[school], targets);
      assert CloseStudents(r, school, targets).clients == r.clients - gone;
      assert ws in gone <==> ws in r.students[school] && Revoked(r, ws, targets);
    }
  }

  /** A school's closing closes its indexed sockets and nobody else's, and leaves all clients registered. */
  lemma ClosingSchoolInFields(r: Registry, school: string, ws: int)
    requires Agrees(r) && ws in r.clients
    ensures var c, after := r.clients[ws], CloseSchool(r, school);
            && after.clients == r.clients
            && (c.authenticated && c.schoolId == Some(school) ==> ws !in after.open)
            && (c.schoolId != Some(school) ==> (ws in after.open <==> ws in r.open))
  {
    var c := r.clients[ws];
    if c.authenticated && ws in r.open { assert ws in OwnSockets(r, c); }
  }

  /** What a scan of the registry selects for a staff send, in the clients' fields. */
  lemma StaffSendInFields(r: Registry, school: string, audience: Audience, ws: int)
    ensures ws in WholeRegistry(r, school, audience) <==>
            && ws in r.clients && ws in r.open && r.clients[ws].authenticated && r.clients[ws].role != Student
            && r.clients[ws].schoolId == Some(school)
            && match audience
               case AllStaff => true
               case StaffUser(userId) => r.clients[ws].userId == Some(userId)
               case StaffSession(sessionId) => sessionId in r.clients[ws].sessions
  {}

  /** And for a student broadcast. */
  lemma StudentSendInFields(r: Registry, school: string, ws: int, devices: set<string>, accepted: set<int>)
    ensures WouldReach(r, school, ws, devices, accepted) <==>
            && ws in r.clients && ws in r.open && ws in accepted && r.clients[ws].authenticated
            && r.clients[ws].role == Student && r.clients[ws].schoolId == Some(school)
            && (devices == {} || (if r.clients[ws].deviceId.Some? then r.clients[ws].deviceId.value else "") in devices)
  {}

  predicate EndsSubscription(e: Event, ws: int, session: string) {
    match e
    case Subscribes(x, s, on) => x == ws && s == session && !on
    case Authenticates(x, _) => x == ws
    case LosesAuthority(x) => x == ws
    case Disconnects(x) => x == ws
    case Resets => true
    case _ => false
  }

  /** A staff client that is authenticated and subscribed. */
  predicate Subscribed(r: Registry, ws: int, session: string) {
    ws in r.clients && r.clients[ws].authenticated && r.clients[ws].role != Student &&
    session in r.clients[ws].sessions
  }

  /** One event changes a subscription only by subscribing, unsubscribing, or ending the client's authority. */
  lemma SubscriptionChanges(r: Registry, e: Event, ws: int, session: string)
    requires Sound(r)
    ensures Subscribed(Next(r, e), ws, session) <==>
            || (e == Subscribes(ws, session, true) && ws in r.clients && r.clients[ws].authenticated &&
                r.clients[ws].role != Student)
            || (Subscribed(r, ws, session) && !EndsSubscription(e, ws, session))
  {
    hide Agrees, Sound;
  }

  /** From a subscription on, and until an unsubscription, a new authentication or the loss of authority, the client is
      among those a message to that session reaches, as long as its socket is open. */
  lemma {:induction false} SubscriptionLasts(before: seq<Event>, later: seq<Event>, ws: int, session: string)
    requires forall i | 0 <= i < |before| :: Admissible(before[i])
    requires forall i | 0 <= i < |later| :: Admissible(later[i]) && !EndsSubscription(later[i], ws, session)
    requires var r := Run(before); ws in r.clients && r.clients[ws].authenticated && r.clients[ws].role != Student
    ensures var r := Run(before + [Subscribes(ws, session, true)] + later);
            && Subscribed(r, ws, session)
            && (ws in r.open ==> Receives(r, ws, StaffSession(session)))
  {
    var start := before + [Subscribes(ws, session, true)];
    RunAgrees(before);
    RunExtends(before, Subscribes(ws, session, true));
    if later == [] {
      assert start + later == start;
      SubscriptionChanges(Run(before), Subscribes(ws, session, true), ws, session);
    } else {
      var earlier, e := later[..|later| - 1], later[|later| - 1];
      SubscriptionLasts(before, earlier, ws, session);
      assert start + later == start + earlier + [e];
      RunExtends(start + earlier, e);
      assert forall i | 0 <= i < |start + earlier| :: Admissible((start + earlier)[i]);
      RunAgrees(start + earlier);
      SubscriptionChanges(Run(start + earlier), e, ws, session);
    }
    hide Run, Next, Sound, EndsSubscription;
  }

  // ---- The registry as the process holds it ----

  class WsRegistry {
    var clients: map<int, Client>
    var staff: Index
    var students: Index
    var open: set<int>

    function View(): Registry
      reads this
    {
      Registry(clients, staff, students, open)
    }

    constructor ()
      ensures View() == EMPTY_REGISTRY && Sound(View())
    {
      clients, staff, students, open := map[], map[], map[], {};
    }

    method RegisterWsClient(ws: int)
      requires Sound(View()) && ws !in clients
      modifies this
      ensures View() == Next(old(View()), Connects(ws)) && Sound(View())
    {
      ConnectingKeeps(View(), ws);
      clients := clients[ws := Client(Student, None, None, None, None, {}, false)];
      open := open + {ws};
    }

    method Unindex(ws: int)
      requires ws in clients
      modifies this`staff, this`students
      ensures View() == Unindexed(old(View()), ws)
    {
      var c := clients[ws];
      if !Truthy(c.schoolId) { return; }
      if c.role.Student? {
        students := RemoveSocket(students, c.schoolId.value, ws);
      } else {
        staff := RemoveSocket(staff, c.schoolId.value, ws);
      }
    }

    method AuthenticateWsClient(ws: int, auth: Auth) returns (found: bool)
      modifies this
      ensures View() == Authenticate(old(View()), ws, auth) && found == (ws in old(clients))
    {
      if ws !in clients { return false; }
      Unindex(ws);
      clients := clients[ws := Client(auth.role, Some(auth.schoolId), auth.deviceId, auth.studentId, auth.userId, {},
                                      true)];
      if auth.role.Student? {
        students := AddSocket(students, auth.schoolId, ws);
      } else {
        staff := AddSocket(staff, auth.schoolId, ws);
      }
      return true;
    }

    method RemoveWsClient(ws: int)
      modifies this
      ensures View() == Remove(old(View()), ws)
    {
      if ws !in clients { return; }
      Unindex(ws);
      clients := clients - {ws};
    }

    /** Subscribe when `on`, unsubscribe otherwise. */
    method SetSessionSubscription(ws: int, session: string, on: bool) returns (done: bool)
      modifies this`clients
      ensures View() == SetSubscription(old(View()), ws, session, on)
      ensures done <==> ws in old(clients) && old(clients)[ws].authenticated && !old(clients)[ws].role.Student?
    {
      if ws !in clients || !clients[ws].authenticated || clients[ws].role.Student? { return false; }
      var c := clients[ws];
      clients := clients[ws := c.(sessions := if on then c.sessions + {session} else c.sessions - {session})];
      return true;
    }

    /** The staff sends walk the school's index once, in any order. */
    method SendToStaff(school: string, audience: Audience) returns (sent: set<int>, sentCount: nat)
      requires Agrees(View())
      ensures sent == WholeRegistry(View(), school, audience) && sentCount == |sent|
      ensures forall ws :: ws in sent <==>
                && ws in clients && ws in open && clients[ws].authenticated && clients[ws].role != Student
                && clients[ws].schoolId == Some(school)
                && (audience.StaffUser? ==> clients[ws].userId == Some(audience.userId))
                && (audience.StaffSession? ==> audience.sessionId in clients[ws].sessions)
    {
      forall ws { StaffSendInFields(View(), school, audience, ws); }
      IndexSelectsAll(View(), school, audience);
      sent, sentCount := {}, 0;
      if school !in staff { return; }
      var rest := staff[school];
      while rest != {}
        invariant rest <= staff[school] && sent !! rest && sentCount == |sent|
        invariant sent == set ws | ws in staff[school] - rest && Receives(View(), ws, audience)
        decreases rest
      {
        SomeMember(rest);
        var ws :| ws in rest;
        rest := rest - {ws};
        if ws in clients && clients[ws].authenticated && !clients[ws].role.Student? && Matches(clients[ws], audience) {
          if ws in open { sent, sentCount := sent + {ws}, sentCount + 1; }
        }
      }
    }

    /** The student broadcast; `seen` are the devices that saw the message's id in the last ten seconds. */
    method BroadcastToStudents(school: string, order: seq<int>, devices: set<string>, accepted: set<int>, tagged: bool,
                               seen: set<string>) returns (sent: seq<int>, nowSeen: set<string>)
      requires Lists(order, Sockets(students, school))
      ensures forall ws :: ws in sent <==>
                exists i: nat :: i < |order| && order[i] == ws &&
                                 IsSent(View(), order, i, devices, accepted, tagged, seen)
      ensures forall d :: d in nowSeen <==>
                d in seen || (tagged && d != "" && exists i: nat ::
                                i < |order| && Targeted(View(), order[i], devices) && Device(View(), order[i]) == d)
    {
      sent, nowSeen := [], seen;
      for i := 0 to |order|
        invariant forall ws :: ws in sent <==>
                    exists j: nat :: j < i && order[j] == ws && IsSent(View(), order, j, devices, accepted, tagged, seen)
        invariant forall d :: d in nowSeen <==>
                    d in seen || (tagged && d != "" && exists j: nat ::
                                    j < i && Targeted(View(), order[j], devices) && Device(View(), order[j]) == d)
      {
        var ws := order[i];
        if !Targeted(View(), ws, devices) { continue; }
        var device := Device(View(), ws);
        if tagged && device != "" {
          if device in nowSeen { continue; }
          nowSeen := nowSeen + {device};
        }
        if ws in accepted && ws in open { sent := sent + [ws]; }
      }
    }

    method CloseSocketsForSchool(school: string)
      requires Sound(View())
      modifies this`staff, this`students, this`open
      ensures View() == CloseSchool(old(View()), school) && Sound(View())
    {
      ClosingSchoolKeeps(View(), school);
      if school in staff {
        open, staff := open - staff[school], staff - {school};
      }
      if school in students {
        open, students := open - students[school], students - {school};
      }
    }

    /** The loop over a copy of the school's student sockets. */
    method RevokeSockets(school: string, targets: set<string>) returns (closed: nat)
      requires school in students
      modifies this`clients, this`students, this`open
      ensures View() == Without(old(View()), school, RevokedIn(old(View()), old(students)[school], targets))
      ensures closed == |RevokedIn(old(View()), old(students)[school], targets)|
    {
      ghost var r := View();
      var rest := students[school];
      ghost var seen: set<int> := {};
      NobodyRevokedYet(r, school, targets);
      closed := 0;
      hide *;
      while rest != {}
        invariant rest !! seen && rest + seen == r.students[school]
        invariant RevokedSoFar(r, View(), school, targets, seen, closed)
        decreases rest
      {
        SomeMember(rest);
        var ws :| ws in rest;
        OneMoreSeen(r, View(), school, targets, seen, closed, ws);
        if Revoked(View(), ws, targets) {
          RevokeSocket(school, ws);
          closed := closed + 1;
        }
        rest, seen := rest - {ws}, seen + {ws};
      }
      assert seen == r.students[school];
      RevokedSoFarIs(r, View(), school, targets, seen, closed);
    }

    method RevokeSocket(school: string, ws: int)
      modifies this`clients, this`students, this`open
      ensures View() == Without(old(View()), school, {ws})
    {
      students := students[school := Sockets(students, school) - {ws}];
      clients, open := clients - {ws}, open - {ws};
    }

    /** `ids` as given; empty ones select nobody. */
    method CloseStudentSockets(school: string, ids: set<string>) returns (closed: nat)
      requires Sound(View())
      modifies this`clients, this`students, this`open
      ensures View() == CloseStudents(old(View()), school, ids - {""}) && Sound(View())
      ensures closed == |old(clients)| - |clients|
      ensures forall ws | ws in old(clients) ::
                && (ws !in clients <==>
                    && school in old(students) && ws in old(students)[school]
                    && old(clients)[ws].authenticated && old(clients)[ws].role == Student
                    && old(clients)[ws].studentId.Some? && old(clients)[ws].studentId.value != ""
                    && old(clients)[ws].studentId.value in ids)
                && (ws in clients ==> clients[ws] == old(clients)[ws])
    {
      RevocationOfAll(View(), school, ids);
      hide Sound, CloseStudents, RevokedIn;
      var targets := ids - {""};
      ClosingStudents(View(), school, targets);
      if school !in students || targets == {} { return 0; }
      closed := RevokeStudents(school, targets);
    }

    method RevokeStudents(school: string, targets: set<string>) returns (closed: nat)
      requires school in students && targets != {}
      modifies this`clients, this`students, this`open
      ensures View() == CloseStudents(old(View()), school, targets)
      ensures closed == |RevokedIn(old(View()), old(students)[school], targets)|
    {
      hide RevokedIn, Revoked, Sockets, Pruned;
      closed := RevokeSockets(school, targets);
      students := Pruned(students, school);
    }
  }

  lemma RevocationOfAll(r: Registry, school: string, ids: set<string>)
    requires Sound(r)
    ensures var after := CloseStudents(r, school, ids - {""});
            forall ws | ws in r.clients ::
              && (ws !in after.clients <==>
                  && school in r.students && ws in r.students[school]
                  && r.clients[ws].authenticated && r.clients[ws].role == Student
                  && r.clients[ws].studentId.Some? && r.clients[ws].studentId.value != ""
                  && r.clients[ws].studentId.value in ids)
              && (ws in after.clients ==> after.clients[ws] == r.clients[ws])
  {
    hide CloseStudents, Agrees;
    forall ws | ws in r.clients { RevocationInFields(r, school, ids, ws); }
  }

  lemma ClosingStudents(r: Registry, school: string, targets: set<string>)
    requires Sound(r)
    ensures Sound(CloseStudents(r, school, targets))
    ensures school !in r.students || targets == {} ==> CloseStudents(r, school, targets) == r
    ensures school in r.students && targets != {} ==>
              |RevokedIn(r, r.students[school], targets)| == |r.clients| - |CloseStudents(r, school, targets).clients|
  {
    hide Sound, RevokedIn;
    EventKeeps(r, StudentsRevoked(school, targets));
    if school in r.students { RevokedAreCounted(r, school, targets); }
  }

  /** The state of the loop once it has seen some of the school's sockets. */
  ghost predicate RevokedSoFar(r: Registry, now: Registry, school: string, targets: set<string>, seen: set<int>,
                               closed: nat)
  {
    now == Without(r, school, RevokedIn(r, seen, targets)) && closed == |RevokedIn(r, seen, targets)|
  }

  lemma RevokedSoFarIs(r: Registry, now: Registry, school: string, targets: set<string>, seen: set<int>, closed: nat)
    requires RevokedSoFar(r, now, school, targets, seen, closed)
    ensures now == Without(r, school, RevokedIn(r, seen, targets)) && closed == |RevokedIn(r, seen, targets)|
  {}

  lemma OneMoreSeen(r: Registry, now: Registry, school: string, targets: set<string>, seen: set<int>, closed: nat,
                    ws: int)
    requires RevokedSoFar(r, now, school, targets, seen, closed) && ws !in seen
    ensures if Revoked(now, ws, targets)
            then RevokedSoFar(r, Without(now, school, {ws}), school, targets, seen + {ws}, closed + 1)
            else RevokedSoFar(r, now, school, targets, seen + {ws}, closed)
  {
    OneMoreRevoked(r, school, seen, targets, ws);
    hide Without, RevokedIn, Revoked;
  }

  lemma NobodyRevokedYet(r: Registry, school: string, targets: set<string>)
    requires school in r.students
    ensures RevokedSoFar(r, r, school, targets, {}, 0)
  {
    var after := Without(r, school, {});
    assert RevokedIn(r, {}, targets) == {};
    assert after.clients == r.clients && after.open == r.open;
    assert r.students[school] - {} == r.students[school];
    assert after.students == r.students;
  }

  lemma OneMoreRevoked(r: Registry, school: string, seen: set<int>, targets: set<string>, ws: int)
    requires ws !in seen
    ensures var gone := RevokedIn(r, seen, targets);
            && ws !in gone
            && Revoked(Without(r, school, gone), ws, targets) == Revoked(r, ws, targets)
            && RevokedIn(r, seen + {ws}, targets) == (if Revoked(r, ws, targets) then gone + {ws} else gone)
            && Without(Without(r, school, gone), school, {ws}) == Without(r, school, gone + {ws})
  {
    var gone := RevokedIn(r, seen, targets);
    var once, twice := Without(r, school, gone + {ws}), Without(Without(r, school, gone), school, {ws});
    assert once.clients == twice.clients && once.open == twice.open;
    assert Sockets(r.students, school) - (gone + {ws}) == Sockets(r.students, school) - gone - {ws};
    assert once.students == twice.students;
  }

  lemma RevokedAreCounted(r: Registry, school: string, targets: set<string>)
    requires school in r.students
    ensures var gone := RevokedIn(r, r.students[school], targets);
            |gone| == |r.clients| - |r.clients - gone| &&
            (targets != {} ==> CloseStudents(r, school, targets).clients == r.clients - gone)
  {
    var gone := RevokedIn(r, r.students[school], targets);
    assert (r.clients - gone).Keys == r.clients.Keys - gone;
    assert gone <= r.clients.Keys;
  }
}
