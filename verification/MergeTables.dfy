/** The tables the duplicate-student cleanup touches, their constraints, and its statements as functions on tables. */
module MergeTables {
  import opened Wrappers
  import opened Ranking
  import opened Consolidation

  datatype Student = Student(school: int, emailLc: Option<string>, gradeId: Option<int>, createdAt: int)
  datatype Heartbeat = Heartbeat(student: Option<int>, device: int)
  datatype DeviceLink = DeviceLink(student: int, device: int, firstSeen: int, lastSeen: int)
  datatype Session = Session(student: int, device: int, startedAt: int, lastSeenAt: int,
                             endedAt: Option<int>, isActive: bool)
  datatype Hand = Hand(school: int, session: int, student: int, device: int, raisedAt: int,
                       clearedAt: Option<int>, updatedAt: int)
  datatype Answer = Answer(school: int, poll: int, student: int, device: Option<int>, selected: int, createdAt: int,
                           updatedAt: int, supersededAt: Option<int>, supersededBy: Option<int>)
  datatype Message = Message(school: int, session: int, student: Option<int>, content: string)
  datatype Delivery = Delivery(school: int, message: int, session: int, student: int, updatedAt: int)

  /** Tables are maps from row id to row; `devices`, `teaching` and `polls` keep only the row's school. */
  datatype Db = Db(
    students: map<int, Student>,
    immutableHistory: set<int>, // students named by one of the seven history tables
    devices: map<int, int>,
    teaching: map<int, int>,
    polls: map<int, int>,
    heartbeats: map<int, Heartbeat>,
    links: map<int, DeviceLink>,
    sessions: map<int, Session>,
    hands: map<int, Hand>,
    answers: map<int, Answer>,
    messages: map<int, Message>,
    deliveries: map<int, Delivery>)

  // ---- The temporary mapping table ----

  predicate Mergeable(db: Db, keeper: int, duplicate: int) {
    keeper in db.students && duplicate in db.students && keeper != duplicate &&
    db.students[keeper].emailLc.Some? && db.students[keeper].emailLc == db.students[duplicate].emailLc &&
    db.students[keeper].school == db.students[duplicate].school &&
    db.students[keeper].gradeId.Some? && db.students[duplicate].gradeId.None? &&
    duplicate !in db.immutableHistory
  }

  function KeeperKeys(db: Db, duplicate: int): map<int, SortKey> {
    map k | k in db.students && Mergeable(db, k, duplicate) :: (db.students[k].createdAt, k, 0)
  }

  /** SELECT DISTINCT ON (duplicate.id) ... ORDER BY duplicate.id, keeper.created_at, keeper.id. */
  function CleanupMapping(db: Db): Mapping {
    map d | d in db.students && exists k :: k in KeeperKeys(db, d) :: Earliest(KeeperKeys(db, d))
  }

  // ---- Indexed views of the active rows ----

  function ActiveSessions(sessions: map<int, Session>): map<int, Ranked> {
    map i | i in sessions && sessions[i].isActive ::
      Ranked(sessions[i].student, 0, (-sessions[i].lastSeenAt, -sessions[i].startedAt, -i))
  }

  function SessionsByDevice(sessions: map<int, Session>): map<int, Ranked> {
    map i | i in sessions && sessions[i].isActive :: Ranked(sessions[i].device, 0, (i, 0, 0))
  }

  function RaisedHands(hands: map<int, Hand>): map<int, Ranked> {
    map i | i in hands && hands[i].clearedAt.None? ::
      Ranked(hands[i].student, hands[i].session, (hands[i].raisedAt, i, 0))
  }

  function StandingAnswers(answers: map<int, Answer>): map<int, Ranked> {
    map i | i in answers && answers[i].supersededAt.None? ::
      Ranked(answers[i].student, answers[i].poll, (answers[i].createdAt, i, 0))
  }

  // ---- Constraints ----

  predicate SessionIndexes(sessions: map<int, Session>) {
    OnePerSlot(ActiveSessions(sessions)) && OnePerSlot(SessionsByDevice(sessions))
  }

  predicate LinkUnique(links: map<int, DeviceLink>) {
    forall i, j | i in links && j in links && i != j ::
      links[i].student != links[j].student || links[i].device != links[j].device
  }

  predicate StudentOf(students: map<int, Student>, student: int, school: int) {
    student in students && students[student].school == school
  }

  /** classpilot_validate_active_hand_parents, for an UPDATE of one row. */
  predicate HandTrigger(students: map<int, Student>, teaching: map<int, int>, devices: map<int, int>,
                        before: Hand, after: Hand) {
    (after.session in teaching && teaching[after.session] == after.school &&
     StudentOf(students, after.student, after.school)) &&
    (after.clearedAt.None? || after.device != before.device || after.school != before.school ==>
       after.device in devices && devices[after.device] == after.school) &&
    (after.clearedAt.Some? && after.device in devices ==> devices[after.device] == after.school)
  }

  /** classpilot_bind_poll_response_school. */
  predicate AnswerTrigger(students: map<int, Student>, polls: map<int, int>, devices: map<int, int>, after: Answer) {
    after.poll in polls && polls[after.poll] == after.school &&
    StudentOf(students, after.student, after.school) &&
    (after.device.Some? ==> after.device.value in devices && devices[after.device.value] == after.school)
  }

  /** classpilot_validate_chat_delivery_parents. */
  predicate DeliveryTrigger(students: map<int, Student>, teaching: map<int, int>, messages: map<int, Message>,
                            after: Delivery) {
    after.message in messages && messages[after.message].school == after.school &&
    messages[after.message].session == after.session && messages[after.message].student == Some(after.student) &&
    after.session in teaching && teaching[after.session] == after.school &&
    StudentOf(students, after.student, after.school)
  }

  /** What the unique indexes, the triggers and the parent audits before the cleanup guarantee of the tables. */
  ghost predicate Valid(db: Db) {
    SessionIndexes(db.sessions) && LinkUnique(db.links) &&
    OnePerSlot(RaisedHands(db.hands)) && OnePerSlot(StandingAnswers(db.answers)) &&
    (forall i | i in db.hands :: HandTrigger(db.students, db.teaching, db.devices, db.hands[i], db.hands[i])) &&
    (forall i | i in db.answers :: AnswerTrigger(db.students, db.polls, db.devices, db.answers[i])) &&
    (forall i | i in db.deliveries :: DeliveryTrigger(db.students, db.teaching, db.messages, db.deliveries[i]))
  }

  // ---- Statements ----

  function ReassignedHeartbeats(t: map<int, Heartbeat>, m: Mapping): map<int, Heartbeat> {
    map i | i in t ::
      if t[i].student.Some? && t[i].student.value in m then t[i].(student := Some(m[t[i].student.value])) else t[i]
  }

  /** The duplicate rows behind one (keeper, device) group. */
  function GroupOf(t: map<int, DeviceLink>, m: Mapping, pair: (int, int)): set<int> {
    set i | i in t && t[i].student in m && (m[t[i].student], t[i].device) == pair
  }

  /** The groups that no existing row conflicts with. */
  function InsertablePairs(t: map<int, DeviceLink>, m: Mapping): (pairs: set<(int, int)>)
    ensures forall p | p in pairs :: exists i :: i in GroupOf(t, m, p)
  {
    var grouped := set i | i in t && t[i].student in m :: (m[t[i].student], t[i].device);
    var present := set i | i in t :: (t[i].student, t[i].device);
    assert forall i | i in t && t[i].student in m :: i in GroupOf(t, m, (m[t[i].student], t[i].device));
    grouped - present
  }

  /** MIN(first_seen_at) and MAX(last_seen_at) over a group. */
  function GroupedLink(t: map<int, DeviceLink>, m: Mapping, pair: (int, int)): DeviceLink
    requires exists i :: i in GroupOf(t, m, pair)
  {
    var oldest := map j | j in GroupOf(t, m, pair) :: (t[j].firstSeen, j, 0);
    var newest := map j | j in GroupOf(t, m, pair) :: (-t[j].lastSeen, j, 0);
    assert forall j | j in GroupOf(t, m, pair) :: j in oldest && j in newest;
    DeviceLink(pair.0, pair.1, t[Earliest(oldest)].firstSeen, t[Earliest(newest)].lastSeen)
  }

  /** gen_random_uuid(): one new id per inserted pair, none of them in use. */
  ghost predicate FreshIds(t: map<int, DeviceLink>, m: Mapping, ids: map<(int, int), int>) {
    (forall p | p in InsertablePairs(t, m) :: p in ids && ids[p] !in t) &&
    (forall p, q | p in InsertablePairs(t, m) && q in InsertablePairs(t, m) && p != q :: ids[p] != ids[q])
  }

  /** INSERT ... GROUP BY ... ON CONFLICT (student_id, device_id) DO NOTHING. */
  function WithKeeperLinks(t: map<int, DeviceLink>, m: Mapping, ids: map<(int, int), int>): map<int, DeviceLink>
    requires FreshIds(t, m, ids)
  {
    t + map p | p in InsertablePairs(t, m) ::
      ids[p] := GroupedLink(t, m, p)
  }

  function WithoutDuplicateLinks(t: map<int, DeviceLink>, m: Mapping): map<int, DeviceLink> {
    map i | i in t && t[i].student !in m :: t[i]
  }

  function RetiredSessions(t: map<int, Session>, losers: set<int>, now: int): map<int, Session> {
    map i | i in t ::
      if i in losers then t[i].(isActive := false, endedAt := Some(t[i].endedAt.Else(now))) else t[i]
  }

  /** The re-parenting UPDATE once the rows of `done` have been visited; all of t.Keys is the whole statement. */
  function ReparentedSessions(t: map<int, Session>, m: Mapping, done: set<int>): map<int, Session> {
    map i | i in t :: if i in done && t[i].student in m then t[i].(student := m[t[i].student]) else t[i]
  }

  function RetiredHands(t: map<int, Hand>, losers: set<int>, now: int): map<int, Hand> {
    map i | i in t :: if i in losers then t[i].(clearedAt := Some(now), updatedAt := now) else t[i]
  }

  function ReparentedHands(t: map<int, Hand>, m: Mapping, done: set<int>, now: int): map<int, Hand> {
    map i | i in t ::
      if i in done && t[i].student in m then t[i].(student := m[t[i].student], updatedAt := now) else t[i]
  }

  /** The answer each loser points at. */
  function Supersessors(t: map<int, Answer>, m: Mapping): map<int, int> {
    map i | i in Losers(StandingAnswers(t), m) :: Winner(StandingAnswers(t), m, i)
  }

  function RetiredAnswers(t: map<int, Answer>, winners: map<int, int>, now: int): map<int, Answer> {
    map i | i in t ::
      if i in winners then t[i].(supersededAt := Some(now), supersededBy := Some(winners[i]), updatedAt := now)
      else t[i]
  }

  function ReparentedAnswers(t: map<int, Answer>, m: Mapping, done: set<int>, now: int): map<int, Answer> {
    map i | i in t ::
      if i in done && t[i].student in m then t[i].(student := m[t[i].student], updatedAt := now) else t[i]
  }

  function ReparentedMessages(t: map<int, Message>, m: Mapping): map<int, Message> {
    map i | i in t ::
      if t[i].student.Some? && t[i].student.value in m then t[i].(student := Some(m[t[i].student.value])) else t[i]
  }

  function ReparentedDeliveries(t: map<int, Delivery>, m: Mapping, now: int): map<int, Delivery> {
    map i | i in t :: if t[i].student in m then t[i].(student := m[t[i].student], updatedAt := now) else t[i]
  }

  function WithoutDuplicates(t: map<int, Student>, m: Mapping): map<int, Student> {
    map i | i in t && i !in m :: t[i]
  }

  function MergedLinks(t: map<int, DeviceLink>, m: Mapping, ids: map<(int, int), int>): map<int, DeviceLink>
    requires FreshIds(t, m, ids)
  {
    WithoutDuplicateLinks(WithKeeperLinks(t, m, ids), m)
  }

  function MergedSessions(t: map<int, Session>, m: Mapping, now: int): map<int, Session> {
    ReparentedSessions(RetiredSessions(t, Losers(ActiveSessions(t), m), now), m, t.Keys)
  }

  function MergedHands(t: map<int, Hand>, m: Mapping, now: int): map<int, Hand> {
    ReparentedHands(RetiredHands(t, Losers(RaisedHands(t), m), now), m, t.Keys, now)
  }

  function MergedAnswers(t: map<int, Answer>, m: Mapping, now: int): map<int, Answer> {
    ReparentedAnswers(RetiredAnswers(t, Supersessors(t, m), now), m, t.Keys, now)
  }

  /** Every statement of the transaction, in order, under one mapping. */
  function MergedUnder(db: Db, m: Mapping, now: int, ids: map<(int, int), int>): Db
    requires FreshIds(db.links, m, ids)
  {
    db.(heartbeats := ReassignedHeartbeats(db.heartbeats, m),
        links := MergedLinks(db.links, m, ids),
        sessions := MergedSessions(db.sessions, m, now),
        hands := MergedHands(db.hands, m, now),
        answers := MergedAnswers(db.answers, m, now),
        messages := ReparentedMessages(db.messages, m),
        deliveries := ReparentedDeliveries(db.deliveries, m, now),
        students := WithoutDuplicates(db.students, m))
  }

  function Merged(db: Db, now: int, ids: map<(int, int), int>): Db
    requires FreshIds(db.links, CleanupMapping(db), ids)
  {
    MergedUnder(db, CleanupMapping(db), now, ids)
  }
}
