/** The cleanup as a whole: accepted by every trigger, orphan-free, lossless and idempotent. */
module MergeOutcome {
  import opened Wrappers
  import opened Ranking
  import opened Consolidation
  import opened MergeTables
  import opened MergeProofs

  // ---- Device links ----

  ghost predicate Linked(t: map<int, DeviceLink>, student: int, device: int) {
    exists i :: i in t && t[i].student == student && t[i].device == device
  }

  /** The unique constraint holds after both link statements. */
  lemma LinksStayUnique(t: map<int, DeviceLink>, m: Mapping, ids: map<(int, int), int>)
    requires LinkUnique(t) && FreshIds(t, m, ids)
    ensures LinkUnique(WithKeeperLinks(t, m, ids)) && LinkUnique(MergedLinks(t, m, ids))
  {
    var after := WithKeeperLinks(t, m, ids);
    forall i, j | i in after && j in after && i != j
      ensures after[i].student != after[j].student || after[i].device != after[j].device
    {
      if i !in t { assert exists p :: p in InsertablePairs(t, m) && ids[p] == i; }
      if j !in t { assert exists p :: p in InsertablePairs(t, m) && ids[p] == j; }
    }
  }

  /** A student's devices afterwards are the union over the identities folded into that student. */
  lemma DevicesAreUnited(t: map<int, DeviceLink>, m: Mapping, ids: map<(int, int), int>, student: int, device: int)
    requires Separated(m) && FreshIds(t, m, ids)
    ensures Linked(MergedLinks(t, m, ids), student, device) <==>
            exists i :: i in t && Canon(m, t[i].student) == student && t[i].device == device
  {
    if Linked(MergedLinks(t, m, ids), student, device) { LinkHasOrigin(t, m, ids, student, device); }
    if i :| i in t && Canon(m, t[i].student) == student && t[i].device == device {
      OriginIsLinked(t, m, ids, i);
    }
  }

  lemma LinkHasOrigin(t: map<int, DeviceLink>, m: Mapping, ids: map<(int, int), int>, student: int, device: int)
    requires FreshIds(t, m, ids) && Linked(MergedLinks(t, m, ids), student, device)
    ensures exists i :: i in t && Canon(m, t[i].student) == student && t[i].device == device
  {
    var after := MergedLinks(t, m, ids);
    var i :| i in after && after[i].student == student && after[i].device == device;
    if i !in t {
      assert (student, device) in InsertablePairs(t, m);
      var j :| j in GroupOf(t, m, (student, device));
      assert Canon(m, t[j].student) == student;
    }
  }

  lemma OriginIsLinked(t: map<int, DeviceLink>, m: Mapping, ids: map<(int, int), int>, i: int)
    requires Separated(m) && FreshIds(t, m, ids) && i in t
    ensures Linked(MergedLinks(t, m, ids), Canon(m, t[i].student), t[i].device)
  {
    var student, device := Canon(m, t[i].student), t[i].device;
    var after, pair := MergedLinks(t, m, ids), (student, device);
    CanonTwice(m, t[i].student);
    assert student !in m;
    if Linked(t, student, device) {
      var j :| j in t && t[j].student == student && t[j].device == device;
      assert j in after && after[j] == t[j];
    } else {
      assert pair in InsertablePairs(t, m);
      assert ids[pair] in after && after[ids[pair]] == GroupedLink(t, m, pair);
    }
  }

  lemma GroupSpan(t: map<int, DeviceLink>, m: Mapping, pair: (int, int))
    requires exists i :: i in GroupOf(t, m, pair)
    ensures var row, group := GroupedLink(t, m, pair), GroupOf(t, m, pair);
            && row.student == pair.0 && row.device == pair.1
            && (exists j :: j in group && t[j].firstSeen == row.firstSeen)
            && (exists j :: j in group && t[j].lastSeen == row.lastSeen)
            && forall j | j in group :: row.firstSeen <= t[j].firstSeen && t[j].lastSeen <= row.lastSeen
  {
    var group := GroupOf(t, m, pair);
    var oldest := map j | j in group :: (t[j].firstSeen, j, 0);
    var newest := map j | j in group :: (-t[j].lastSeen, j, 0);
    assert forall j | j in group :: j in oldest && j in newest;
    assert Earliest(oldest) in group && Earliest(newest) in group;
  }

  /** Kept rows are untouched; a new row spans exactly the earliest and latest sighting of its group. */
  lemma LinkRows(t: map<int, DeviceLink>, m: Mapping, ids: map<(int, int), int>, i: int)
    requires Separated(m) && FreshIds(t, m, ids)
    ensures i in t ==> (i in MergedLinks(t, m, ids) <==> t[i].student !in m)
    ensures i in t && t[i].student !in m ==> MergedLinks(t, m, ids)[i] == t[i]
    ensures i in MergedLinks(t, m, ids) && i !in t ==>
              var row := MergedLinks(t, m, ids)[i];
              var group := GroupOf(t, m, (row.student, row.device));
              && (exists j :: j in group && t[j].firstSeen == row.firstSeen)
              && (exists j :: j in group && t[j].lastSeen == row.lastSeen)
              && forall j | j in group :: row.firstSeen <= t[j].firstSeen && t[j].lastSeen <= row.lastSeen
  {
    var inserted := WithKeeperLinks(t, m, ids);
    if i in inserted && i !in t {
      var pair :| pair in InsertablePairs(t, m) && ids[pair] == i;
      assert inserted[i] == GroupedLink(t, m, pair);
      GroupSpan(t, m, pair);
    }
  }

  // ---- Triggers and foreign keys ----

  /** A keeper takes its duplicate's place in any parent check. */
  lemma KeeperStandsIn(db: Db, student: int, school: int)
    requires StudentOf(db.students, student, school)
    ensures StudentOf(db.students, Canon(CleanupMapping(db), student), school)
    ensures StudentOf(WithoutDuplicates(db.students, CleanupMapping(db)), Canon(CleanupMapping(db), student), school)
  {
    MappingIsSound(db);
    var m := CleanupMapping(db);
    if student in m { assert Mergeable(db, m[student], student) && m[student] in m.Values; }
  }

  /** Both hand statements pass the parent trigger on every row. */
  lemma HandTriggersPass(db: Db, now: int, i: int)
    requires Valid(db) && i in db.hands
    ensures var m := CleanupMapping(db);
            var retired := RetiredHands(db.hands, Losers(RaisedHands(db.hands), m), now);
            var after := ReparentedHands(retired, m, db.hands.Keys, now);
            && HandTrigger(db.students, db.teaching, db.devices, db.hands[i], retired[i])
            && HandTrigger(db.students, db.teaching, db.devices, retired[i], after[i])
            && HandTrigger(WithoutDuplicates(db.students, m), db.teaching, db.devices, after[i], after[i])
  {
    var hand := db.hands[i];
    assert HandTrigger(db.students, db.teaching, db.devices, hand, hand);
    KeeperStandsIn(db, hand.student, hand.school);
  }

  /** The answer statements pass the parent trigger, and afterwards no answer holds back the student delete. */
  lemma AnswerTriggersPass(db: Db, now: int, i: int)
    requires Valid(db) && i in db.answers
    ensures var m := CleanupMapping(db);
            var after := MergedAnswers(db.answers, m, now)[i];
            && AnswerTrigger(db.students, db.polls, db.devices, after)
            && AnswerTrigger(WithoutDuplicates(db.students, m), db.polls, db.devices, after)
  {
    var answer := db.answers[i];
    assert AnswerTrigger(db.students, db.polls, db.devices, answer);
    KeeperStandsIn(db, answer.student, answer.school);
    MergedAnswerKeeps(db.answers, CleanupMapping(db), now, i);
    hide MergedAnswers, CleanupMapping, WithoutDuplicates, StudentOf;
  }

  lemma MergedAnswerKeeps(t: map<int, Answer>, m: Mapping, now: int, i: int)
    requires i in t
    ensures i in MergedAnswers(t, m, now)
    ensures var after := MergedAnswers(t, m, now)[i];
            && after.student == Canon(m, t[i].student) && after.school == t[i].school && after.poll == t[i].poll
            && after.device == t[i].device
  {
    hide Supersessors;
  }

  /** Re-parenting the message first lets its delivery follow: the delivery names its message's student again. */
  lemma DeliveryTriggersPass(db: Db, now: int, i: int)
    requires Valid(db) && i in db.deliveries
    ensures var m := CleanupMapping(db);
            var messages := ReparentedMessages(db.messages, m);
            var after := ReparentedDeliveries(db.deliveries, m, now)[i];
            && after == db.deliveries[i].(student := Canon(m, db.deliveries[i].student), updatedAt := after.updatedAt)
            && DeliveryTrigger(db.students, db.teaching, messages, after)
            && DeliveryTrigger(WithoutDuplicates(db.students, m), db.teaching, messages, after)
  {
    var delivery := db.deliveries[i];
    assert DeliveryTrigger(db.students, db.teaching, db.messages, delivery);
    KeeperStandsIn(db, delivery.student, delivery.school);
  }

  /** In the opposite order the trigger would reject the delivery of any duplicate. */
  lemma DeliveryFirstIsRejected(db: Db, now: int, i: int)
    requires Valid(db) && i in db.deliveries && db.deliveries[i].student in CleanupMapping(db)
    ensures !DeliveryTrigger(db.students, db.teaching, db.messages,
                             ReparentedDeliveries(db.deliveries, CleanupMapping(db), now)[i])
  {
    MappingIsSound(db);
    var m, delivery := CleanupMapping(db), db.deliveries[i];
    assert DeliveryTrigger(db.students, db.teaching, db.messages, delivery);
    assert m[delivery.student] in m.Values;
  }

  /** Every constraint the tables had before the cleanup they have after it. */
  lemma MergePreservesConstraints(db: Db, now: int, ids: map<(int, int), int>)
    requires Valid(db) && FreshIds(db.links, CleanupMapping(db), ids)
    ensures Valid(Merged(db, now, ids))
  {
    var m, after := CleanupMapping(db), Merged(db, now, ids);
    MappingIsSound(db);
    SessionIndexesHold(db.sessions, m, now, db.sessions.Keys);
    HandIndexHolds(db.hands, m, now, db.hands.Keys);
    AnswerIndexHolds(db.answers, m, now, db.answers.Keys);
    LinksStayUnique(db.links, m, ids);
    forall i | i in after.hands
      ensures HandTrigger(after.students, after.teaching, after.devices, after.hands[i], after.hands[i])
    { HandTriggersPass(db, now, i); }
    forall i | i in after.answers
      ensures AnswerTrigger(after.students, after.polls, after.devices, after.answers[i])
    { AnswerTriggersPass(db, now, i); }
    forall i | i in after.deliveries
      ensures DeliveryTrigger(after.students, after.teaching, after.messages, after.deliveries[i])
    { DeliveryTriggersPass(db, now, i); }
  }

  // ---- Orphans, losses, repetition ----

  ghost predicate Unreferenced(db: Db, student: int) {
    (forall i | i in db.heartbeats :: db.heartbeats[i].student != Some(student)) &&
    (forall i | i in db.links :: db.links[i].student != student) &&
    (forall i | i in db.sessions :: db.sessions[i].student != student) &&
    (forall i | i in db.hands :: db.hands[i].student != student) &&
    (forall i | i in db.answers :: db.answers[i].student != student) &&
    (forall i | i in db.messages :: db.messages[i].student != Some(student)) &&
    (forall i | i in db.deliveries :: db.deliveries[i].student != student)
  }

  lemma SessionOwners(t: map<int, Session>, m: Mapping, losers: set<int>, now: int)
    ensures var after := ReparentedSessions(RetiredSessions(t, losers, now), m, t.Keys);
            after.Keys == t.Keys && forall i | i in t :: after[i].student == Canon(m, t[i].student)
  {}

  lemma HandOwners(t: map<int, Hand>, m: Mapping, losers: set<int>, now: int)
    ensures var after := ReparentedHands(RetiredHands(t, losers, now), m, t.Keys, now);
            after.Keys == t.Keys && forall i | i in t :: after[i].student == Canon(m, t[i].student)
  {}

  lemma AnswerOwners(t: map<int, Answer>, m: Mapping, winners: map<int, int>, now: int)
    ensures var after := ReparentedAnswers(RetiredAnswers(t, winners, now), m, t.Keys, now);
            after.Keys == t.Keys && forall i | i in t :: after[i].student == Canon(m, t[i].student)
  {}

  lemma OwnersMove(db: Db, m: Mapping, now: int, ids: map<(int, int), int>, duplicate: int)
    requires Separated(m) && FreshIds(db.links, m, ids) && duplicate in m
    ensures Unreferenced(MergedUnder(db, m, now, ids), duplicate)
  {
    assert forall s :: Canon(m, s) != duplicate by {
      assert forall s | s in m :: m[s] in m.Values;
    }
    SessionOwners(db.sessions, m, Losers(ActiveSessions(db.sessions), m), now);
    HandOwners(db.hands, m, Losers(RaisedHands(db.hands), m), now);
    AnswerOwners(db.answers, m, Supersessors(db.answers, m), now);
  }

  /** No child row names a student the last statement deleted. */
  lemma NoOrphans(db: Db, now: int, ids: map<(int, int), int>, duplicate: int)
    requires FreshIds(db.links, CleanupMapping(db), ids) && duplicate in CleanupMapping(db)
    ensures duplicate !in Merged(db, now, ids).students && Unreferenced(Merged(db, now, ids), duplicate)
  {
    MappingIsSound(db);
    OwnersMove(db, CleanupMapping(db), now, ids, duplicate);
  }

  function MovedOwner(m: Mapping, owner: Option<int>): Option<int> {
    if owner.Some? then Some(Canon(m, owner.value)) else None
  }

  /** Nullable owners move with the mapping and nothing else of the row changes. */
  lemma NullableOwnersMove(heartbeats: map<int, Heartbeat>, messages: map<int, Message>, m: Mapping)
    ensures var after := ReassignedHeartbeats(heartbeats, m);
            && after.Keys == heartbeats.Keys
            && forall i | i in after :: after[i] == Heartbeat(MovedOwner(m, heartbeats[i].student), heartbeats[i].device)
    ensures var after := ReparentedMessages(messages, m);
            && after.Keys == messages.Keys
            && forall i | i in after :: after[i] == messages[i].(student := MovedOwner(m, messages[i].student))
  {}

  /** No table but students and device links loses or gains a row. */
  lemma RowsAreKept(db: Db, m: Mapping, now: int, ids: map<(int, int), int>)
    requires FreshIds(db.links, m, ids)
    ensures var after := MergedUnder(db, m, now, ids);
            && after.sessions.Keys == db.sessions.Keys && after.hands.Keys == db.hands.Keys
            && after.answers.Keys == db.answers.Keys && after.deliveries.Keys == db.deliveries.Keys
            && after.heartbeats.Keys == db.heartbeats.Keys && after.messages.Keys == db.messages.Keys
  {
    SessionOwners(db.sessions, m, Losers(ActiveSessions(db.sessions), m), now);
    HandOwners(db.hands, m, Losers(RaisedHands(db.hands), m), now);
    AnswerOwners(db.answers, m, Supersessors(db.answers, m), now);
    NullableOwnersMove(db.heartbeats, db.messages, m);
    assert ReparentedDeliveries(db.deliveries, m, now).Keys == db.deliveries.Keys;
  }

  /** The students that disappear are exactly the mergeable duplicates; the others are untouched. */
  lemma OnlyDuplicatesDisappear(db: Db, now: int, ids: map<(int, int), int>, s: int)
    requires FreshIds(db.links, CleanupMapping(db), ids) && s in db.students
    ensures s in Merged(db, now, ids).students <==> !exists k :: Mergeable(db, k, s)
    ensures s in Merged(db, now, ids).students ==> Merged(db, now, ids).students[s] == db.students[s]
  {
    MappingIsSound(db);
  }

  lemma NothingToRank(active: map<int, Ranked>)
    ensures Losers(active, map[]) == {}
  {
    var m: Mapping := map[];
    assert m.Values == {};
    assert forall i | i in active :: !Affected(m, active[i].owner);
    assert RankInput(active, m) == map[];
  }

  lemma EmptyMappingChangesNothing(db: Db, now: int, ids: map<(int, int), int>)
    ensures FreshIds(db.links, map[], ids) && MergedUnder(db, map[], now, ids) == db
  {
    NothingToRank(ActiveSessions(db.sessions));
    NothingToRank(RaisedHands(db.hands));
    NothingToRank(StandingAnswers(db.answers));
    assert Supersessors(db.answers, map[]) == map[];
    IdleSessions(db.sessions, now);
    IdleHands(db.hands, now);
    IdleAnswers(db.answers, now);
    IdleLinks(db.links, ids);
    IdleOthers(db, now);
  }

  lemma IdleSessions(t: map<int, Session>, now: int)
    ensures ReparentedSessions(RetiredSessions(t, {}, now), map[], t.Keys) == t
  {}

  lemma IdleHands(t: map<int, Hand>, now: int)
    ensures ReparentedHands(RetiredHands(t, {}, now), map[], t.Keys, now) == t
  {}

  lemma IdleAnswers(t: map<int, Answer>, now: int)
    ensures ReparentedAnswers(RetiredAnswers(t, map[], now), map[], t.Keys, now) == t
  {}

  lemma IdleLinks(t: map<int, DeviceLink>, ids: map<(int, int), int>)
    ensures FreshIds(t, map[], ids) && MergedLinks(t, map[], ids) == t
  {
    assert InsertablePairs(t, map[]) == {};
  }

  lemma IdleOthers(db: Db, now: int)
    ensures ReassignedHeartbeats(db.heartbeats, map[]) == db.heartbeats
    ensures ReparentedMessages(db.messages, map[]) == db.messages
    ensures ReparentedDeliveries(db.deliveries, map[], now) == db.deliveries
    ensures WithoutDuplicates(db.students, map[]) == db.students
  {}

  /** A second run, at any later time and with any generated ids, finds nothing to merge and changes nothing. */
  lemma MergeIsIdempotent(db: Db, now: int, ids: map<(int, int), int>, later: int, moreIds: map<(int, int), int>)
    requires FreshIds(db.links, CleanupMapping(db), ids)
    ensures var after := Merged(db, now, ids);
            FreshIds(after.links, CleanupMapping(after), moreIds) && Merged(after, later, moreIds) == after
  {
    var after := Merged(db, now, ids);
    MappingIsSound(db);
    MappingIsSound(after);
    forall d ensures d !in CleanupMapping(after) {
      assert forall k :: Mergeable(after, k, d) ==> Mergeable(db, k, d);
    }
    assert CleanupMapping(after) == map[];
    EmptyMappingChangesNothing(after, later, moreIds);
  }
}
