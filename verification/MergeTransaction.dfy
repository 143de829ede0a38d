/** The cleanup transaction as one database client runs it: statement by statement, all or nothing. */
module MergeTransaction {
  import opened Wrappers
  import opened Consolidation
  import opened MergeTables
  import opened MergeProofs
  import opened MergeOutcome
  import opened MergeRows

  // ---- When the row triggers and the restricting foreign key accept every row of a statement ----

  /** BEFORE UPDATE OF cleared_at, for the rows that are cleared. */
  ghost predicate HandsMayClear(students: map<int, Student>, teaching: map<int, int>, devices: map<int, int>,
                                t: map<int, Hand>, losers: set<int>, now: int)
  {
    forall i | i in t && i in losers :: HandTrigger(students, teaching, devices, t[i], Cleared(t[i], now))
  }

  ghost predicate HandsMayMove(students: map<int, Student>, teaching: map<int, int>, devices: map<int, int>,
                               t: map<int, Hand>, m: Mapping, now: int)
  {
    forall i | i in t && t[i].student in m :: HandTrigger(students, teaching, devices, t[i], MovedHand(t[i], m, now))
  }

  ghost predicate AnswersMayMove(students: map<int, Student>, polls: map<int, int>, devices: map<int, int>,
                                 t: map<int, Answer>, m: Mapping, now: int)
  {
    forall i | i in t && t[i].student in m :: AnswerTrigger(students, polls, devices, MovedAnswer(t[i], m, now))
  }

  ghost predicate DeliveriesMayMove(students: map<int, Student>, teaching: map<int, int>, messages: map<int, Message>,
                                    t: map<int, Delivery>, m: Mapping, now: int)
  {
    forall i | i in t && t[i].student in m :: DeliveryTrigger(students, teaching, messages, MovedDelivery(t[i], m, now))
  }

  ghost predicate StudentsMayGo(answers: map<int, Answer>, t: map<int, Student>, m: Mapping) {
    forall i | i in t && i in m :: !HeldBack(answers, i, t[i].school)
  }

  // ---- Tables that satisfy the constraints are accepted ----

  lemma SessionStatementsAccepted(db: Db, now: int)
    requires Valid(db)
    ensures var m := CleanupMapping(db);
            var retired := RetiredSessions(db.sessions, Losers(ActiveSessions(db.sessions), m), now);
            && Separated(m) && SessionIndexes(db.sessions)
            && SessionIndexes(retired) && OnePerPerson(ActiveSessions(retired), m)
            && ReparentedSessions(retired, m, retired.Keys) == MergedSessions(db.sessions, m, now)
  {
    var m, active := CleanupMapping(db), ActiveSessions(db.sessions);
    MappingIsSound(db);
    SessionIndexesHold(db.sessions, m, now, {});
    RetiredSessionViews(db.sessions, Losers(active, m), now);
    ReparentingKeepsIndex(active, m, {});
    assert RetiredSessions(db.sessions, Losers(active, m), now).Keys == db.sessions.Keys;
  }

  lemma HandStatementsAccepted(db: Db, now: int)
    requires Valid(db)
    ensures var m := CleanupMapping(db);
            var losers := Losers(RaisedHands(db.hands), m);
            var retired := RetiredHands(db.hands, losers, now);
            && Separated(m) && OnePerSlot(RaisedHands(db.hands))
            && HandsMayClear(db.students, db.teaching, db.devices, db.hands, losers, now)
            && OnePerSlot(RaisedHands(retired)) && OnePerPerson(RaisedHands(retired), m)
            && HandsMayMove(db.students, db.teaching, db.devices, retired, m, now)
            && ReparentedHands(retired, m, retired.Keys, now) == MergedHands(db.hands, m, now)
  {
    var m, raised := CleanupMapping(db), RaisedHands(db.hands);
    var losers := Losers(raised, m);
    MappingIsSound(db);
    HandIndexHolds(db.hands, m, now, {});
    HandViews(db.hands, m, losers, now, {});
    ReparentingKeepsIndex(raised, m, {});
    HandRowsAccepted(db, now);
    assert RetiredHands(db.hands, losers, now).Keys == db.hands.Keys;
    hide Losers, OnePerSlot, OnePerPerson, RaisedHands, Valid, HandsMayClear, HandsMayMove, RetiredHands;
  }

  lemma HandRowsAccepted(db: Db, now: int)
    requires Valid(db)
    ensures var m := CleanupMapping(db);
            var losers := Losers(RaisedHands(db.hands), m);
            && HandsMayClear(db.students, db.teaching, db.devices, db.hands, losers, now)
            && HandsMayMove(db.students, db.teaching, db.devices, RetiredHands(db.hands, losers, now), m, now)
  {
    hide Losers, RaisedHands, HandTrigger, CleanupMapping;
    forall i | i in db.hands { HandTriggersPass(db, now, i); }
  }

  lemma AnswerStatementsAccepted(db: Db, now: int)
    requires Valid(db)
    ensures var m := CleanupMapping(db);
            var retired := RetiredAnswers(db.answers, Supersessors(db.answers, m), now);
            && Separated(m) && OnePerSlot(StandingAnswers(db.answers))
            && OnePerSlot(StandingAnswers(retired)) && OnePerPerson(StandingAnswers(retired), m)
            && AnswersMayMove(db.students, db.polls, db.devices, retired, m, now)
            && ReparentedAnswers(retired, m, retired.Keys, now) == MergedAnswers(db.answers, m, now)
  {
    var m, standing := CleanupMapping(db), StandingAnswers(db.answers);
    var winners := Supersessors(db.answers, m);
    MappingIsSound(db);
    assert winners.Keys == Losers(standing, m);
    AnswerIndexHolds(db.answers, m, now, {});
    AnswerViews(db.answers, m, winners, now, {});
    ReparentingKeepsIndex(standing, m, {});
    AnswerRowsAccepted(db, now);
    assert RetiredAnswers(db.answers, winners, now).Keys == db.answers.Keys;
    hide Losers, OnePerSlot, OnePerPerson, StandingAnswers, Valid, AnswersMayMove, RetiredAnswers, Supersessors;
  }

  lemma AnswerRowsAccepted(db: Db, now: int)
    requires Valid(db)
    ensures var m := CleanupMapping(db);
            AnswersMayMove(db.students, db.polls, db.devices,
                           RetiredAnswers(db.answers, Supersessors(db.answers, m), now), m, now)
  {
    hide Supersessors, AnswerTrigger, CleanupMapping;
    forall i | i in db.answers { AnswerTriggersPass(db, now, i); }
  }

  lemma DeliveryStatementAccepted(db: Db, now: int)
    requires Valid(db)
    ensures var m := CleanupMapping(db);
            DeliveriesMayMove(db.students, db.teaching, ReparentedMessages(db.messages, m), db.deliveries, m, now)
  {
    hide DeliveryTrigger, CleanupMapping;
    forall i | i in db.deliveries { DeliveryTriggersPass(db, now, i); }
  }

  /** Each statement method reports whether the constraints accept it; `permitted` is false when one outside this
      model (an unenumerated foreign key, a lost connection) rejects it. */
  class CleanupClient {
    const immutableHistory: set<int>
    const devices: map<int, int>
    const teaching: map<int, int>
    const polls: map<int, int>
    var students: map<int, Student>
    var heartbeats: map<int, Heartbeat>
    var links: map<int, DeviceLink>
    var sessions: map<int, Session>
    var hands: map<int, Hand>
    var answers: map<int, Answer>
    var messages: map<int, Message>
    var deliveries: map<int, Delivery>

    function View(): Db
      reads this
    {
      Db(students, immutableHistory, devices, teaching, polls, heartbeats, links, sessions, hands, answers,
         messages, deliveries)
    }

    constructor (db: Db)
      ensures View() == db
    {
      immutableHistory, devices, teaching, polls := db.immutableHistory, db.devices, db.teaching, db.polls;
      students, heartbeats, links, sessions := db.students, db.heartbeats, db.links, db.sessions;
      hands, answers, messages, deliveries := db.hands, db.answers, db.messages, db.deliveries;
    }

    method ReassignHeartbeats(m: Mapping, permitted: bool) returns (ok: bool)
      modifies this`heartbeats
      ensures heartbeats == ReassignedHeartbeats(old(heartbeats), m) && ok == permitted
    {
      heartbeats := ReassignedHeartbeats(heartbeats, m);
      ok := permitted;
    }

    /** The groups come in any order; each is skipped when some row conflicts with it by then. */
    method InsertKeeperLinks(m: Mapping, ids: map<(int, int), int>, permitted: bool) returns (ok: bool)
      requires FreshIds(links, m, ids) && LinkUnique(links)
      modifies this`links
      ensures ok == permitted
      ensures ok ==> links == WithKeeperLinks(old(links), m, ids) && LinkUnique(links)
    {
      var t := links;
      var rest := Groups(t, m);
      ghost var done: set<(int, int)> := {};
      ok := permitted;
      NothingInsertedYet(t, m, ids);
      hide *;
      while ok && rest != {}
        invariant done !! rest && done + rest == Groups(t, m) && LinksInserted(t, m, ids, done, links)
        invariant ok == permitted && LinkUnique(links)
        decreases rest
      {
        SomePair(rest);
        var pair :| pair in rest;
        GroupConflicts(t, m, ids, done, links, pair);
        InsertingLink(t, m, ids, done, links, pair);
        rest, done := rest - {pair}, done + {pair};
        if !Present(links, pair) { links := links[ids[pair] := GroupedLink(t, m, pair)]; }
        InsertingKeepsUnique(t, m, ids, done, links);
        ok := LinkUnique(links);
      }
      if ok {
        assert done == Groups(t, m);
        AllLinksInserted(t, m, ids, links);
      }
    }

    method DeleteDuplicateLinks(m: Mapping, permitted: bool) returns (ok: bool)
      modifies this`links
      ensures links == WithoutDuplicateLinks(old(links), m) && ok == permitted
    {
      links := WithoutDuplicateLinks(links, m);
      ok := permitted;
    }

    /** The losers are ranked on the table as it is when the statement begins; then they are ended row by row. */
    method RetireSessions(m: Mapping, now: int, permitted: bool) returns (ok: bool)
      requires SessionIndexes(sessions)
      modifies this`sessions
      ensures ok == permitted
      ensures ok ==> sessions == RetiredSessions(old(sessions), Losers(ActiveSessions(old(sessions)), m), now)
    {
      ghost var t := sessions;
      var losers := Losers(ActiveSessions(sessions), m);
      var rest := losers;
      ghost var done: set<int> := {};
      ok := permitted;
      EndingKeepsIndexes(t, {}, now);
      assert losers <= t.Keys;
      hide *;
      while ok && rest != {}
        invariant done !! rest && done + rest == losers && sessions == RetiredSessions(t, done, now)
        invariant ok == permitted
        decreases rest
      {
        SomeMember(rest);
        var i :| i in rest;
        EndingSession(t, done, now, i);
        EndingKeepsIndexes(t, done + {i}, now);
        rest, done := rest - {i}, done + {i};
        sessions := sessions[i := Ended(sessions[i], now)];
        ok := SessionIndexes(sessions);
      }
      assert ok ==> done == losers;
    }

    /** Both indexes are checked after every row; some row fails exactly when two active sessions are one person's. */
    method ReparentSessions(m: Mapping, permitted: bool) returns (ok: bool)
      requires Separated(m) && SessionIndexes(sessions)
      modifies this`sessions
      ensures ok <==> permitted && OnePerPerson(ActiveSessions(old(sessions)), m)
      ensures ok ==> sessions == ReparentedSessions(old(sessions), m, old(sessions).Keys)
    {
      ghost var t := sessions;
      var moving := set i | i in sessions && sessions[i].student in m;
      var rest := moving;
      ghost var done: set<int> := {};
      ok := permitted;
      MovingSessionsIff(t, m, {});
      hide *;
      while ok && rest != {}
        invariant done !! rest && done + rest == moving && sessions == ReparentedSessions(t, m, done)
        invariant ok ==> permitted
        invariant !ok ==> !(permitted && OnePerPerson(ActiveSessions(t), m))
        invariant ok ==> SessionIndexes(sessions)
        decreases rest
      {
        SomeMember(rest);
        var i :| i in rest;
        MovingSession(t, m, done, i);
        MovingSessionsIff(t, m, done + {i});
        rest, done := rest - {i}, done + {i};
        sessions := sessions[i := sessions[i].(student := m[sessions[i].student])];
        ok := SessionIndexes(sessions);
      }
      if ok {
        assert done == moving;
        AllSessionsMoved(t, m, done);
        MovingSessionsIff(t, m, t.Keys);
      }
    }

    /** The trigger fires before each row is cleared. */
    method RetireHands(m: Mapping, now: int, permitted: bool) returns (ok: bool)
      requires OnePerSlot(RaisedHands(hands))
      modifies this`hands
      ensures var losers := Losers(RaisedHands(old(hands)), m);
              && (ok <==> permitted && HandsMayClear(students, teaching, devices, old(hands), losers, now))
              && (ok ==> hands == RetiredHands(old(hands), losers, now))
    {
      LosersArePresent(hands, m);
      hide *;
      ok := ClearHands(Losers(RaisedHands(hands), m), now, permitted);
    }

    method ClearHands(losers: set<int>, now: int, permitted: bool) returns (ok: bool)
      requires OnePerSlot(RaisedHands(hands)) && losers <= hands.Keys
      modifies this`hands
      ensures ok <==> permitted && HandsMayClear(students, teaching, devices, old(hands), losers, now)
      ensures ok ==> hands == RetiredHands(old(hands), losers, now)
    {
      ghost var t := hands;
      var rest := losers;
      ghost var done: set<int> := {};
      ok := permitted;
      ClearingKeepsIndex(t, {}, now);
      hide *;
      while ok && rest != {}
        invariant done !! rest && done + rest == losers && hands == RetiredHands(t, done, now)
        invariant ok ==> permitted &&
                         forall i | i in done :: HandTrigger(students, teaching, devices, t[i], Cleared(t[i], now))
        invariant !ok ==> !(permitted &&
                            forall i | i in losers :: HandTrigger(students, teaching, devices, t[i], Cleared(t[i], now)))
        decreases rest
      {
        SomeMember(rest);
        var i :| i in rest;
        ClearingHand(t, done, now, i);
        ClearingKeepsIndex(t, done + {i}, now);
        var before := hands[i];
        rest, done := rest - {i}, done + {i};
        hands := hands[i := Cleared(before, now)];
        ok := HandTrigger(students, teaching, devices, before, Cleared(before, now)) && OnePerSlot(RaisedHands(hands));
      }
      assert ok ==> done == losers;
      HandsMayClearIff(students, teaching, devices, t, losers, now);
    }

    method ReparentHands(m: Mapping, now: int, permitted: bool) returns (ok: bool)
      requires Separated(m) && OnePerSlot(RaisedHands(hands))
      modifies this`hands
      ensures ok <==> permitted && OnePerPerson(RaisedHands(old(hands)), m) &&
                      HandsMayMove(students, teaching, devices, old(hands), m, now)
      ensures ok ==> hands == ReparentedHands(old(hands), m, old(hands).Keys, now)
    {
      ghost var t := hands;
      var moving := set i | i in hands && hands[i].student in m;
      var rest := moving;
      ghost var done: set<int> := {};
      ok := permitted;
      MovingHandsIff(t, m, {}, now);
      assert HandsPass(students, teaching, devices, t, m, now, {});
      hide *;
      while ok && rest != {}
        invariant done !! rest && done + rest == moving && hands == ReparentedHands(t, m, done, now)
        invariant ok ==> permitted && OnePerSlot(RaisedHands(hands)) &&
                         HandsPass(students, teaching, devices, t, m, now, done)
        invariant !ok ==> !(permitted && OnePerPerson(RaisedHands(t), m) &&
                            HandsPass(students, teaching, devices, t, m, now, moving))
        decreases rest
      {
        SomeMember(rest);
        var i :| i in rest;
        MovingHand(t, m, done, now, i);
        MovingHandsIff(t, m, done + {i}, now);
        OneMoreHandPasses(students, teaching, devices, t, m, now, done, moving, i);
        var before := hands[i];
        rest, done := rest - {i}, done + {i};
        hands := hands[i := MovedHand(before, m, now)];
        ok := HandTrigger(students, teaching, devices, before, MovedHand(before, m, now)) &&
              OnePerSlot(RaisedHands(hands));
      }
      HandsMayMoveIff(students, teaching, devices, t, m, now);
      if ok {
        assert done == moving;
        AllHandsMoved(t, m, done, now);
        MovingHandsIff(t, m, t.Keys, now);
      }
    }

    /** superseded_at is not among the columns the trigger watches. */
    method RetireAnswers(m: Mapping, now: int, permitted: bool) returns (ok: bool)
      requires OnePerSlot(StandingAnswers(answers))
      modifies this`answers
      ensures ok == permitted
      ensures ok ==> answers == RetiredAnswers(old(answers), Supersessors(old(answers), m), now)
    {
      WinnersArePresent(answers, m);
      hide *;
      ok := SupersedeAnswers(Supersessors(answers, m), now, permitted);
    }

    method SupersedeAnswers(winners: map<int, int>, now: int, permitted: bool) returns (ok: bool)
      requires OnePerSlot(StandingAnswers(answers)) && winners.Keys <= answers.Keys
      modifies this`answers
      ensures ok == permitted
      ensures ok ==> answers == RetiredAnswers(old(answers), winners, now)
    {
      ghost var t := answers;
      var rest := winners.Keys;
      ghost var done: set<int> := {};
      ok := permitted;
      SupersedingKeepsIndex(t, winners, {}, now);
      hide *;
      while ok && rest != {}
        invariant done !! rest && done + rest == winners.Keys && answers == RetiredAnswers(t, Part(winners, done), now)
        invariant ok == permitted
        decreases rest
      {
        SomeMember(rest);
        var i :| i in rest;
        SupersedingAnswer(t, winners, done, now, i);
        SupersedingKeepsIndex(t, winners, done + {i}, now);
        rest, done := rest - {i}, done + {i};
        answers := answers[i := Superseded(answers[i], winners[i], now)];
        ok := OnePerSlot(StandingAnswers(answers));
      }
      assert ok ==> done == winners.Keys;
    }

    method ReparentAnswers(m: Mapping, now: int, permitted: bool) returns (ok: bool)
      requires Separated(m) && OnePerSlot(StandingAnswers(answers))
      modifies this`answers
      ensures ok <==> permitted && OnePerPerson(StandingAnswers(old(answers)), m) &&
                      AnswersMayMove(students, polls, devices, old(answers), m, now)
      ensures ok ==> answers == ReparentedAnswers(old(answers), m, old(answers).Keys, now)
    {
      ghost var t := answers;
      var moving := set i | i in answers && answers[i].student in m;
      var rest := moving;
      ghost var done: set<int> := {};
      ok := permitted;
      MovingAnswersIff(t, m, {}, now);
      assert AnswersPass(students, polls, devices, t, m, now, {});
      hide *;
      while ok && rest != {}
        invariant done !! rest && done + rest == moving && answers == ReparentedAnswers(t, m, done, now)
        invariant ok ==> permitted && OnePerSlot(StandingAnswers(answers)) &&
                         AnswersPass(students, polls, devices, t, m, now, done)
        invariant !ok ==> !(permitted && OnePerPerson(StandingAnswers(t), m) &&
                            AnswersPass(students, polls, devices, t, m, now, moving))
        decreases rest
      {
        SomeMember(rest);
        var i :| i in rest;
        MovingAnswer(t, m, done, now, i);
        MovingAnswersIff(t, m, done + {i}, now);
        OneMoreAnswerPasses(students, polls, devices, t, m, now, done, moving, i);
        var after := MovedAnswer(answers[i], m, now);
        rest, done := rest - {i}, done + {i};
        answers := answers[i := after];
        ok := AnswerTrigger(students, polls, devices, after) && OnePerSlot(StandingAnswers(answers));
      }
      AnswersMayMoveIff(students, polls, devices, t, m, now);
      if ok {
        assert done == moving;
        AllAnswersMoved(t, m, done, now);
        MovingAnswersIff(t, m, t.Keys, now);
      }
    }

    method ReparentMessages(m: Mapping, permitted: bool) returns (ok: bool)
      modifies this`messages
      ensures messages == ReparentedMessages(old(messages), m) && ok == permitted
    {
      messages := ReparentedMessages(messages, m);
      ok := permitted;
    }

    method ReparentDeliveries(m: Mapping, now: int, permitted: bool) returns (ok: bool)
      modifies this`deliveries
      ensures ok <==> permitted && DeliveriesMayMove(students, teaching, messages, old(deliveries), m, now)
      ensures ok ==> deliveries == ReparentedDeliveries(old(deliveries), m, now)
    {
      ghost var t := deliveries;
      var moving := set i | i in deliveries && deliveries[i].student in m;
      var rest := moving;
      ghost var done: set<int> := {};
      ok := permitted;
      NoDeliveryMoved(t, m, now);
      hide *;
      while ok && rest != {}
        invariant done !! rest && done + rest == moving && deliveries == DeliveriesMoved(t, m, done, now)
        invariant ok ==> permitted &&
                         forall i | i in done ::
                           DeliveryTrigger(students, teaching, messages, MovedDelivery(t[i], m, now))
        invariant !ok ==> !(permitted &&
                            forall i | i in moving ::
                              DeliveryTrigger(students, teaching, messages, MovedDelivery(t[i], m, now)))
        decreases rest
      {
        SomeMember(rest);
        var i :| i in rest;
        MovingDelivery(t, m, done, now, i);
        var after := MovedDelivery(deliveries[i], m, now);
        rest, done := rest - {i}, done + {i};
        deliveries := deliveries[i := after];
        ok := DeliveryTrigger(students, teaching, messages, after);
      }
      DeliveriesMayMoveIff(students, teaching, messages, t, m, now);
      if ok {
        assert done == moving;
        AllDeliveriesMoved(t, m, done, now);
      }
    }

    /** The foreign key restricts each deleted row at once. */
    method DeleteDuplicates(m: Mapping, permitted: bool) returns (ok: bool)
      modifies this`students
      ensures ok <==> permitted && StudentsMayGo(answers, old(students), m)
      ensures ok ==> students == WithoutDuplicates(old(students), m)
    {
      ghost var t := students;
      var leaving := set i | i in students && i in m;
      var rest := leaving;
      ghost var done: set<int> := {};
      ok := permitted;
      NobodyLeft(t);
      hide *;
      while ok && rest != {}
        invariant done !! rest && done + rest == leaving && students == StudentsLeft(t, done)
        invariant ok ==> permitted && forall i | i in done :: !HeldBack(answers, i, t[i].school)
        invariant !ok ==> !(permitted && forall i | i in leaving :: !HeldBack(answers, i, t[i].school))
        decreases rest
      {
        SomeMember(rest);
        var i :| i in rest;
        LeavingStudent(t, done, i);
        ok := !HeldBack(answers, i, students[i].school);
        rest, done := rest - {i}, done + {i};
        students := students - {i};
      }
      StudentsMayGoIff(answers, t, m);
      if ok {
        assert done == leaving;
        DuplicatesLeft(t, m, done);
      }
    }

    /** ROLLBACK. */
    method Restore(db: Db)
      requires db.immutableHistory == immutableHistory && db.devices == devices
      requires db.teaching == teaching && db.polls == polls
      modifies this
      ensures View() == db
    {
      students, heartbeats, links, sessions := db.students, db.heartbeats, db.links, db.sessions;
      hands, answers, messages, deliveries := db.hands, db.answers, db.messages, db.deliveries;
    }

    method SessionStatements(ghost db: Db, m: Mapping, now: int, fault: Option<int>) returns (ok: bool)
      requires Valid(db) && m == CleanupMapping(db) && sessions == db.sessions
      modifies this`sessions
      ensures ok <==> fault != Some(4) && fault != Some(5)
      ensures ok ==> sessions == MergedSessions(db.sessions, m, now)
    {
      hide *;
      SessionStatementsAccepted(db, now);
      ok := RetireSessions(m, now, fault != Some(4));
      if ok { ok := ReparentSessions(m, fault != Some(5)); }
    }

    method HandStatements(ghost db: Db, m: Mapping, now: int, fault: Option<int>) returns (ok: bool)
      requires Valid(db) && m == CleanupMapping(db) && students == db.students
      requires teaching == db.teaching && devices == db.devices && hands == db.hands
      modifies this`hands
      ensures ok <==> fault != Some(6) && fault != Some(7)
      ensures ok ==> hands == MergedHands(db.hands, m, now)
    {
      hide *;
      HandStatementsAccepted(db, now);
      ok := RetireHands(m, now, fault != Some(6));
      if ok { ok := ReparentHands(m, now, fault != Some(7)); }
    }

    method AnswerStatements(ghost db: Db, m: Mapping, now: int, fault: Option<int>) returns (ok: bool)
      requires Valid(db) && m == CleanupMapping(db) && students == db.students
      requires polls == db.polls && devices == db.devices && answers == db.answers
      modifies this`answers
      ensures ok <==> fault != Some(8) && fault != Some(9)
      ensures ok ==> answers == MergedAnswers(db.answers, m, now)
    {
      hide *;
      AnswerStatementsAccepted(db, now);
      ok := RetireAnswers(m, now, fault != Some(8));
      if ok { ok := ReparentAnswers(m, now, fault != Some(9)); }
    }

    method ChatStatements(ghost db: Db, m: Mapping, now: int, fault: Option<int>) returns (ok: bool)
      requires Valid(db) && m == CleanupMapping(db) && students == db.students && teaching == db.teaching
      requires messages == db.messages && deliveries == db.deliveries
      modifies this`messages, this`deliveries
      ensures ok <==> fault != Some(10) && fault != Some(11)
      ensures ok ==> messages == ReparentedMessages(db.messages, m)
      ensures ok ==> deliveries == ReparentedDeliveries(db.deliveries, m, now)
    {
      hide *;
      DeliveryStatementAccepted(db, now);
      ok := ReparentMessages(m, fault != Some(10));
      if ok { ok := ReparentDeliveries(m, now, fault != Some(11)); }
    }

    /** The twelve statements that write, up to the first rejected one. */
    method Statements(ghost db: Db, m: Mapping, now: int, ids: map<(int, int), int>, fault: Option<int>)
      returns (ok: bool)
      requires Valid(db) && m == CleanupMapping(db) && FreshIds(db.links, m, ids)
      requires devices == db.devices && teaching == db.teaching && polls == db.polls && students == db.students
      requires heartbeats == db.heartbeats && links == db.links && sessions == db.sessions && hands == db.hands
      requires answers == db.answers && messages == db.messages && deliveries == db.deliveries
      modifies this
      ensures ok <==> fault.None? || !(1 <= fault.value <= 12)
      ensures ok ==> heartbeats == ReassignedHeartbeats(db.heartbeats, m) && links == MergedLinks(db.links, m, ids)
      ensures ok ==> sessions == MergedSessions(db.sessions, m, now) && hands == MergedHands(db.hands, m, now)
      ensures ok ==> answers == MergedAnswers(db.answers, m, now) && messages == ReparentedMessages(db.messages, m)
      ensures ok ==> deliveries == ReparentedDeliveries(db.deliveries, m, now)
      ensures ok ==> students == WithoutDuplicates(db.students, m)
    {
      hide *;
      LinkStatementsAccepted(db, ids);
      AnswersReleaseDuplicates(db, now);
      ok := ReassignHeartbeats(m, fault != Some(1));
      if ok { ok := InsertKeeperLinks(m, ids, fault != Some(2)); }
      if ok { ok := DeleteDuplicateLinks(m, fault != Some(3)); }
      if ok { ok := SessionStatements(db, m, now, fault); }
      if ok { ok := HandStatements(db, m, now, fault); }
      if ok { ok := AnswerStatements(db, m, now, fault); }
      if ok { ok := ChatStatements(db, m, now, fault); }
      if ok { ok := DeleteDuplicates(m, fault != Some(12)); }
    }

    /** BEGIN ... COMMIT, or ROLLBACK at the first rejected statement. `fault` is the statement, if any, that a
        constraint outside this model rejects. No constraint inside it ever rejects one. */
    method Run(now: int, ids: map<(int, int), int>, fault: Option<int>) returns (committed: bool)
      requires Valid(View()) && FreshIds(links, CleanupMapping(View()), ids)
      modifies this
      ensures committed <==> fault.None? || !(1 <= fault.value <= 12)
      ensures View() == if committed then Merged(old(View()), now, ids) else old(View())
    {
      var db := View();
      hide Valid, FreshIds, CleanupMapping, MergedLinks, MergedSessions, MergedHands, MergedAnswers,
        ReassignedHeartbeats, ReparentedMessages, ReparentedDeliveries, WithoutDuplicates;
      committed := Statements(db, CleanupMapping(db), now, ids, fault);
      if !committed { Restore(db); }
    }
  }

  lemma LinkStatementsAccepted(db: Db, ids: map<(int, int), int>)
    requires Valid(db) && FreshIds(db.links, CleanupMapping(db), ids)
    ensures LinkUnique(db.links)
    ensures WithoutDuplicateLinks(WithKeeperLinks(db.links, CleanupMapping(db), ids), CleanupMapping(db))
            == MergedLinks(db.links, CleanupMapping(db), ids)
  {}

  /** Re-parented answers hold back no duplicate. */
  lemma AnswersReleaseDuplicates(db: Db, now: int)
    requires Valid(db)
    ensures StudentsMayGo(MergedAnswers(db.answers, CleanupMapping(db), now), db.students, CleanupMapping(db))
  {
    var m, after := CleanupMapping(db), MergedAnswers(db.answers, CleanupMapping(db), now);
    MappingIsSound(db);
    AnswerOwners(db.answers, m, Supersessors(db.answers, m), now);
    hide CleanupMapping, Supersessors, ReparentedAnswers, RetiredAnswers;
    forall i | i in after ensures after[i].student !in m {
      var owner := db.answers[i].student;
      if owner in m { assert m[owner] in m.Values; }
    }
  }

  // ---- Loop steps ----

  lemma HandsMayClearIff(students: map<int, Student>, teaching: map<int, int>, devices: map<int, int>,
                         t: map<int, Hand>, losers: set<int>, now: int)
    requires losers <= t.Keys
    ensures HandsMayClear(students, teaching, devices, t, losers, now) <==>
            forall i | i in losers :: HandTrigger(students, teaching, devices, t[i], Cleared(t[i], now))
  {}

  /** The trigger accepts the move of the rows of `done`. */
  ghost predicate HandsPass(students: map<int, Student>, teaching: map<int, int>, devices: map<int, int>,
                            t: map<int, Hand>, m: Mapping, now: int, done: set<int>)
  {
    forall i | i in done && i in t && t[i].student in m ::
      HandTrigger(students, teaching, devices, t[i], MovedHand(t[i], m, now))
  }

  lemma OneMoreHandPasses(students: map<int, Student>, teaching: map<int, int>, devices: map<int, int>,
                          t: map<int, Hand>, m: Mapping, now: int, done: set<int>, all: set<int>, i: int)
    requires i in all && i in t && t[i].student in m
    ensures HandsPass(students, teaching, devices, t, m, now, done + {i}) <==>
            HandsPass(students, teaching, devices, t, m, now, done) &&
            HandTrigger(students, teaching, devices, t[i], MovedHand(t[i], m, now))
    ensures HandsPass(students, teaching, devices, t, m, now, all) ==>
            HandTrigger(students, teaching, devices, t[i], MovedHand(t[i], m, now))
  {}

  lemma HandsMayMoveIff(students: map<int, Student>, teaching: map<int, int>, devices: map<int, int>,
                        t: map<int, Hand>, m: Mapping, now: int)
    ensures HandsMayMove(students, teaching, devices, t, m, now) <==>
            HandsPass(students, teaching, devices, t, m, now, set j | j in t && t[j].student in m)
  {}

  ghost predicate AnswersPass(students: map<int, Student>, polls: map<int, int>, devices: map<int, int>,
                              t: map<int, Answer>, m: Mapping, now: int, done: set<int>)
  {
    forall i | i in done && i in t && t[i].student in m ::
      AnswerTrigger(students, polls, devices, MovedAnswer(t[i], m, now))
  }

  lemma OneMoreAnswerPasses(students: map<int, Student>, polls: map<int, int>, devices: map<int, int>,
                            t: map<int, Answer>, m: Mapping, now: int, done: set<int>, all: set<int>, i: int)
    requires i in all && i in t && t[i].student in m
    ensures AnswersPass(students, polls, devices, t, m, now, done + {i}) <==>
            AnswersPass(students, polls, devices, t, m, now, done) &&
            AnswerTrigger(students, polls, devices, MovedAnswer(t[i], m, now))
    ensures AnswersPass(students, polls, devices, t, m, now, all) ==>
            AnswerTrigger(students, polls, devices, MovedAnswer(t[i], m, now))
  {}

  lemma AnswersMayMoveIff(students: map<int, Student>, polls: map<int, int>, devices: map<int, int>,
                          t: map<int, Answer>, m: Mapping, now: int)
    ensures AnswersMayMove(students, polls, devices, t, m, now) <==>
            AnswersPass(students, polls, devices, t, m, now, set j | j in t && t[j].student in m)
  {}

  lemma DeliveriesMayMoveIff(students: map<int, Student>, teaching: map<int, int>, messages: map<int, Message>,
                             t: map<int, Delivery>, m: Mapping, now: int)
    ensures DeliveriesMayMove(students, teaching, messages, t, m, now) <==>
            forall i | i in (set j | j in t && t[j].student in m) ::
              DeliveryTrigger(students, teaching, messages, MovedDelivery(t[i], m, now))
  {}

  lemma StudentsMayGoIff(answers: map<int, Answer>, t: map<int, Student>, m: Mapping)
    ensures StudentsMayGo(answers, t, m) <==>
            forall i | i in (set j | j in t && j in m) :: !HeldBack(answers, i, t[i].school)
  {}
}
