/** Whom the cleanup folds into whom, and what it asks of rows, in the columns of the tables themselves. */
module MergeIdentity {
  import opened Wrappers
  import opened Ranking
  import opened Consolidation
  import opened MergeTables
  import opened MergeProofs
  import opened MergeOutcome

  /** A duplicate is folded into a keeper exactly when both have the same address in the same school, the keeper has a
      grade, the duplicate has neither a grade nor immutable history, and the keeper is the oldest such student. */
  lemma MappingInColumns(db: Db, d: int, k: int)
    ensures d in CleanupMapping(db) && CleanupMapping(db)[d] == k <==>
            && d in db.students && k in db.students && k != d
            && db.students[d].emailLc.Some? && db.students[k].emailLc == db.students[d].emailLc
            && db.students[k].school == db.students[d].school
            && db.students[k].gradeId.Some? && db.students[d].gradeId.None? && d !in db.immutableHistory
            && forall o | o in db.students && o != k && o != d && db.students[o].emailLc == db.students[d].emailLc &&
                          db.students[o].school == db.students[d].school && db.students[o].gradeId.Some? ::
                 db.students[k].createdAt < db.students[o].createdAt ||
                 (db.students[k].createdAt == db.students[o].createdAt && k < o)
  {
    MappingIsSound(db);
    hide CleanupMapping;
    var m := CleanupMapping(db);
    if d in m && m[d] == k {
      assert Mergeable(db, k, d);
      forall o | o in db.students && o != k && o != d && db.students[o].emailLc == db.students[d].emailLc &&
                 db.students[o].school == db.students[d].school && db.students[o].gradeId.Some?
        ensures db.students[k].createdAt < db.students[o].createdAt ||
                (db.students[k].createdAt == db.students[o].createdAt && k < o)
      {
        assert Mergeable(db, o, d);
      }
    }
    if Mergeable(db, k, d) {
      assert d in m && Mergeable(db, m[d], d);
    }
  }

  /** A student whose address no other student of the school has, or who has no address, or has a grade, or has
      immutable history, stays as it is. */
  lemma OthersAreUntouched(db: Db, now: int, ids: map<(int, int), int>, s: int)
    requires FreshIds(db.links, CleanupMapping(db), ids) && s in db.students
    requires || db.students[s].emailLc.None? || db.students[s].gradeId.Some? || s in db.immutableHistory
             || forall o | o in db.students && o != s ::
                  db.students[o].school != db.students[s].school || db.students[o].emailLc != db.students[s].emailLc
    ensures s in Merged(db, now, ids).students && Merged(db, now, ids).students[s] == db.students[s]
  {
    if s in CleanupMapping(db) { MappingInColumns(db, s, CleanupMapping(db)[s]); }
    OnlyDuplicatesDisappear(db, now, ids, s);
    MappingIsSound(db);
    hide CleanupMapping, Merged;
  }

  /** And a student that does disappear leaves another one with the same address in the same school. */
  lemma DisappearedHasKeeper(db: Db, now: int, ids: map<(int, int), int>, s: int) returns (k: int)
    requires FreshIds(db.links, CleanupMapping(db), ids) && s in db.students && s !in Merged(db, now, ids).students
    ensures k in Merged(db, now, ids).students && k in db.students && k != s
    ensures Merged(db, now, ids).students[k] == db.students[k]
    ensures db.students[k].emailLc.Some? && db.students[k].emailLc == db.students[s].emailLc
    ensures db.students[k].school == db.students[s].school
  {
    OnlyDuplicatesDisappear(db, now, ids, s);
    MappingIsSound(db);
    k := CleanupMapping(db)[s];
    MappingInColumns(db, s, k);
    OthersAreUntouched(db, now, ids, k);
  }

  // ---- Child rows keep their person ----

  /** The row's owner exists before only as the same person, by address and school, as after. */
  ghost predicate SamePerson(before: map<int, Student>, after: map<int, Student>, owner: int, newOwner: int) {
    owner in before ==>
      newOwner in after && after[newOwner].emailLc == before[owner].emailLc &&
      after[newOwner].school == before[owner].school
  }

  lemma CanonIsSamePerson(db: Db, now: int, ids: map<(int, int), int>, owner: int)
    requires FreshIds(db.links, CleanupMapping(db), ids)
    ensures SamePerson(db.students, Merged(db, now, ids).students, owner, Canon(CleanupMapping(db), owner))
  {
    var m := CleanupMapping(db);
    if owner in db.students {
      if owner in m {
        MappingInColumns(db, owner, m[owner]);
        OthersAreUntouched(db, now, ids, m[owner]);
      } else {
        MappingIsSound(db);
        OnlyDuplicatesDisappear(db, now, ids, owner);
      }
    }
    hide CleanupMapping, Merged, Mergeable;
  }

  /** Every row of every child table keeps an owner with the same address in the same school. */
  lemma ChildrenKeepTheirPerson(db: Db, now: int, ids: map<(int, int), int>)
    requires FreshIds(db.links, CleanupMapping(db), ids)
    ensures var after := Merged(db, now, ids);
            && (forall i | i in db.sessions :: i in after.sessions &&
                  SamePerson(db.students, after.students, db.sessions[i].student, after.sessions[i].student))
            && (forall i | i in db.hands :: i in after.hands &&
                  SamePerson(db.students, after.students, db.hands[i].student, after.hands[i].student))
            && (forall i | i in db.answers :: i in after.answers &&
                  SamePerson(db.students, after.students, db.answers[i].student, after.answers[i].student))
            && (forall i | i in db.deliveries :: i in after.deliveries &&
                  SamePerson(db.students, after.students, db.deliveries[i].student, after.deliveries[i].student))
  {
    var m := CleanupMapping(db);
    OwnersInMerged(db, now, ids);
    hide CleanupMapping, Merged, SamePerson, Canon;
    forall owner ensures SamePerson(db.students, Merged(db, now, ids).students, owner, Canon(m, owner)) {
      CanonIsSamePerson(db, now, ids, owner);
    }
  }

  lemma OwnersInMerged(db: Db, now: int, ids: map<(int, int), int>)
    requires FreshIds(db.links, CleanupMapping(db), ids)
    ensures var m, after := CleanupMapping(db), Merged(db, now, ids);
            && (forall i | i in db.sessions :: i in after.sessions &&
                  after.sessions[i].student == Canon(m, db.sessions[i].student))
            && (forall i | i in db.hands :: i in after.hands &&
                  after.hands[i].student == Canon(m, db.hands[i].student))
            && (forall i | i in db.answers :: i in after.answers &&
                  after.answers[i].student == Canon(m, db.answers[i].student))
            && (forall i | i in db.deliveries :: i in after.deliveries &&
                  after.deliveries[i].student == Canon(m, db.deliveries[i].student))
  {
    var m := CleanupMapping(db);
    SessionOwners(db.sessions, m, Losers(ActiveSessions(db.sessions), m), now);
    HandOwners(db.hands, m, Losers(RaisedHands(db.hands), m), now);
    AnswerOwners(db.answers, m, Supersessors(db.answers, m), now);
    DeliveryOwners(db.deliveries, m, now);
    hide CleanupMapping, ReparentedSessions, ReparentedHands, ReparentedAnswers, RetiredSessions, RetiredHands,
      RetiredAnswers, Canon, ReparentedDeliveries;
  }

  lemma DeliveryOwners(t: map<int, Delivery>, m: Mapping, now: int)
    ensures var after := ReparentedDeliveries(t, m, now);
            && after.Keys == t.Keys
            && forall i | i in t ::
                 after[i] == t[i].(student := Canon(m, t[i].student),
                                   updatedAt := if t[i].student in m then now else t[i].updatedAt)
  {}

  /** The same for rows whose owner may be missing. */
  lemma NullableChildrenKeepTheirPerson(db: Db, now: int, ids: map<(int, int), int>)
    requires FreshIds(db.links, CleanupMapping(db), ids)
    ensures var after := Merged(db, now, ids);
            && (forall i | i in db.heartbeats :: i in after.heartbeats &&
                  SameNullablePerson(db.students, after.students, db.heartbeats[i].student, after.heartbeats[i].student))
            && (forall i | i in db.messages :: i in after.messages &&
                  SameNullablePerson(db.students, after.students, db.messages[i].student, after.messages[i].student))
  {
    var m, after := CleanupMapping(db), Merged(db, now, ids);
    NullableOwnersMove(db.heartbeats, db.messages, m);
    assert after.heartbeats == ReassignedHeartbeats(db.heartbeats, m);
    assert after.messages == ReparentedMessages(db.messages, m);
    hide CleanupMapping, Merged, SameNullablePerson, ReassignedHeartbeats, ReparentedMessages, MovedOwner;
    forall owner ensures SameNullablePerson(db.students, after.students, owner, MovedOwner(m, owner)) {
      MovedOwnerIsSamePerson(db, now, ids, owner);
    }
  }

  lemma MovedOwnerIsSamePerson(db: Db, now: int, ids: map<(int, int), int>, owner: Option<int>)
    requires FreshIds(db.links, CleanupMapping(db), ids)
    ensures SameNullablePerson(db.students, Merged(db, now, ids).students, owner, MovedOwner(CleanupMapping(db), owner))
  {
    if owner.Some? { CanonIsSamePerson(db, now, ids, owner.value); }
    hide CleanupMapping, Merged, SamePerson, Canon;
  }

  ghost predicate SameNullablePerson(before: map<int, Student>, after: map<int, Student>, owner: Option<int>,
                                     newOwner: Option<int>)
  {
    (owner.None? <==> newOwner.None?) && (owner.Some? ==> SamePerson(before, after, owner.value, newOwner.value))
  }

  /** Each device a person was linked to, some student with the same address in the same school is linked to. */
  lemma DevicesKeepTheirPerson(db: Db, now: int, ids: map<(int, int), int>, i: int) returns (owner: int)
    requires FreshIds(db.links, CleanupMapping(db), ids) && i in db.links
    ensures Linked(Merged(db, now, ids).links, owner, db.links[i].device)
    ensures SamePerson(db.students, Merged(db, now, ids).students, db.links[i].student, owner)
  {
    var m := CleanupMapping(db);
    owner := Canon(m, db.links[i].student);
    MappingIsSound(db);
    CanonIsSamePerson(db, now, ids, db.links[i].student);
    DevicesAreUnited(db.links, m, ids, owner, db.links[i].device);
    assert Merged(db, now, ids).links == MergedLinks(db.links, m, ids);
    hide CleanupMapping, Merged, SamePerson, Canon, MergedLinks, Linked;
  }

  // ---- The constraints, in the columns ----

  /** No two active sessions share a student or a device. */
  lemma SessionIndexesInColumns(t: map<int, Session>)
    ensures SessionIndexes(t) <==>
            forall i, j | i in t && j in t && i != j && t[i].isActive && t[j].isActive ::
              t[i].student != t[j].student && t[i].device != t[j].device
  {
    var active, devices := ActiveSessions(t), SessionsByDevice(t);
    forall i, j | i in t && j in t && i != j && t[i].isActive && t[j].isActive
      ensures SamePartition(active[i], active[j]) <==> t[i].student == t[j].student
      ensures SamePartition(devices[i], devices[j]) <==> t[i].device == t[j].device
    {}
    assert forall i :: i in active <==> i in t && t[i].isActive;
    assert forall i :: i in devices <==> i in t && t[i].isActive;
  }

  lemma HandIndexInColumns(t: map<int, Hand>)
    ensures OnePerSlot(RaisedHands(t)) <==>
            forall i, j | i in t && j in t && i != j && t[i].clearedAt.None? && t[j].clearedAt.None? ::
              t[i].session != t[j].session || t[i].student != t[j].student
  {
    assert forall i :: i in RaisedHands(t) <==> i in t && t[i].clearedAt.None?;
  }

  lemma AnswerIndexInColumns(t: map<int, Answer>)
    ensures OnePerSlot(StandingAnswers(t)) <==>
            forall i, j | i in t && j in t && i != j && t[i].supersededAt.None? && t[j].supersededAt.None? ::
              t[i].poll != t[j].poll || t[i].student != t[j].student
  {
    assert forall i :: i in StandingAnswers(t) <==> i in t && t[i].supersededAt.None?;
  }

  /** After the cleanup the parents of every hand, answer and delivery exist, in the row's own school, and a delivery
      names the student and session of its message. */
  lemma ParentsAfterCleanup(db: Db, now: int, ids: map<(int, int), int>)
    requires Valid(db) && FreshIds(db.links, CleanupMapping(db), ids)
    ensures var after := Merged(db, now, ids);
            && (forall i | i in after.hands ::
                  && after.hands[i].student in after.students
                  && after.students[after.hands[i].student].school == after.hands[i].school
                  && after.hands[i].session in after.teaching
                  && after.teaching[after.hands[i].session] == after.hands[i].school
                  && (after.hands[i].clearedAt.None? ==>
                        after.hands[i].device in after.devices &&
                        after.devices[after.hands[i].device] == after.hands[i].school))
            && (forall i | i in after.answers ::
                  && after.answers[i].student in after.students
                  && after.students[after.answers[i].student].school == after.answers[i].school
                  && after.answers[i].poll in after.polls
                  && after.polls[after.answers[i].poll] == after.answers[i].school)
            && (forall i | i in after.deliveries ::
                  && after.deliveries[i].message in after.messages
                  && after.messages[after.deliveries[i].message].student == Some(after.deliveries[i].student)
                  && after.messages[after.deliveries[i].message].session == after.deliveries[i].session
                  && after.deliveries[i].student in after.students
                  && after.students[after.deliveries[i].student].school == after.deliveries[i].school)
  {
    MergePreservesConstraints(db, now, ids);
    ParentsInColumns(Merged(db, now, ids));
    hide Merged, CleanupMapping, Valid;
  }

  lemma ParentsInColumns(db: Db)
    requires Valid(db)
    ensures forall i | i in db.hands ::
              && db.hands[i].student in db.students && db.students[db.hands[i].student].school == db.hands[i].school
              && db.hands[i].session in db.teaching && db.teaching[db.hands[i].session] == db.hands[i].school
              && (db.hands[i].clearedAt.None? ==>
                    db.hands[i].device in db.devices && db.devices[db.hands[i].device] == db.hands[i].school)
    ensures forall i | i in db.answers ::
              && db.answers[i].student in db.students
              && db.students[db.answers[i].student].school == db.answers[i].school
              && db.answers[i].poll in db.polls && db.polls[db.answers[i].poll] == db.answers[i].school
    ensures forall i | i in db.deliveries ::
              && db.deliveries[i].message in db.messages
              && db.messages[db.deliveries[i].message].student == Some(db.deliveries[i].student)
              && db.messages[db.deliveries[i].message].session == db.deliveries[i].session
              && db.deliveries[i].student in db.students
              && db.students[db.deliveries[i].student].school == db.deliveries[i].school
  {
    hide SessionIndexes, LinkUnique, OnePerSlot;
  }

  /** The hand trigger: session and student in the row's school; the device too, unless the row is cleared, kept its
      device and school, and the device is gone; and a cleared row's device in no other school. */
  lemma HandTriggerInColumns(students: map<int, Student>, teaching: map<int, int>, devices: map<int, int>,
                             before: Hand, after: Hand)
    ensures HandTrigger(students, teaching, devices, before, after) <==>
            && after.session in teaching && teaching[after.session] == after.school
            && after.student in students && students[after.student].school == after.school
            && (after.device in devices ==> devices[after.device] == after.school)
            && (after.device !in devices ==>
                  after.clearedAt.Some? && after.device == before.device && after.school == before.school)
  {}

  /** The answer trigger: poll, student and any device in the row's school. */
  lemma AnswerTriggerInColumns(students: map<int, Student>, polls: map<int, int>, devices: map<int, int>, after: Answer)
    ensures AnswerTrigger(students, polls, devices, after) <==>
            && after.poll in polls && polls[after.poll] == after.school
            && after.student in students && students[after.student].school == after.school
            && (after.device == None || (after.device.value in devices && devices[after.device.value] == after.school))
  {}

  /** The delivery trigger: message, session and student in the row's school, and the row names the session and the
      student of its message. */
  lemma DeliveryTriggerInColumns(students: map<int, Student>, teaching: map<int, int>, messages: map<int, Message>,
                                 after: Delivery)
    ensures DeliveryTrigger(students, teaching, messages, after) <==>
            && after.message in messages
            && messages[after.message]
               == Message(after.school, after.session, Some(after.student), messages[after.message].content)
            && after.session in teaching && teaching[after.session] == after.school
            && after.student in students && students[after.student].school == after.school
  {}
}
