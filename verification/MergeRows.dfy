/** The cleanup's statements row by row: what each visited row leaves in its table, and when the unique indexes hold. */
module MergeRows {
  import opened Wrappers
  import opened Consolidation
  import opened MergeTables
  import opened MergeProofs

  // ---- Sessions ----

  function Ended(s: Session, now: int): Session {
    s.(isActive := false, endedAt := Some(s.endedAt.Else(now)))
  }

  lemma EndingSession(t: map<int, Session>, done: set<int>, now: int, i: int)
    requires i in t && i !in done
    ensures i in RetiredSessions(t, done, now) && RetiredSessions(t, done, now)[i] == t[i]
    ensures RetiredSessions(t, done, now)[i := Ended(t[i], now)] == RetiredSessions(t, done + {i}, now)
  {}

  lemma EndingKeepsIndexes(t: map<int, Session>, done: set<int>, now: int)
    requires SessionIndexes(t)
    ensures SessionIndexes(RetiredSessions(t, done, now)) && RetiredSessions(t, {}, now) == t
  {
    RetiredSessionViews(t, done, now);
    RetiringKeepsIndex(ActiveSessions(t), done);
    RetiringKeepsIndex(SessionsByDevice(t), done);
  }

  lemma MovingSession(t: map<int, Session>, m: Mapping, done: set<int>, i: int)
    requires i in t && t[i].student in m && i !in done
    ensures i in ReparentedSessions(t, m, done) && ReparentedSessions(t, m, done)[i] == t[i]
    ensures ReparentedSessions(t, m, done)[i := t[i].(student := m[t[i].student])]
            == ReparentedSessions(t, m, done + {i})
  {}

  lemma MovingSessionsIff(t: map<int, Session>, m: Mapping, done: set<int>)
    requires Separated(m) && SessionIndexes(t)
    ensures OnePerPerson(ActiveSessions(t), m) ==> SessionIndexes(ReparentedSessions(t, m, done))
    ensures SessionIndexes(ReparentedSessions(t, m, t.Keys)) ==> OnePerPerson(ActiveSessions(t), m)
    ensures ReparentedSessions(t, m, {}) == t
  {
    ReparentedSessionViews(t, m, done);
    ReparentingKeepsIndexIff(ActiveSessions(t), m);
    ReparentedSessionViews(t, m, t.Keys);
    assert Reparented(ActiveSessions(t), m, t.Keys) == Reparented(ActiveSessions(t), m, ActiveSessions(t).Keys);
    hide OnePerSlot, OnePerPerson, Reparented, ActiveSessions, SessionsByDevice, ReparentedSessions;
  }

  lemma AllSessionsMoved(t: map<int, Session>, m: Mapping, done: set<int>)
    requires forall i | i in t && t[i].student in m :: i in done
    ensures ReparentedSessions(t, m, done) == ReparentedSessions(t, m, t.Keys)
  {
    var some, all := ReparentedSessions(t, m, done), ReparentedSessions(t, m, t.Keys);
    assert some.Keys == t.Keys == all.Keys;
    assert forall i | i in some :: some[i] == all[i];
    assert some == all;
  }

  // ---- Hands ----

  function Cleared(h: Hand, now: int): Hand {
    h.(clearedAt := Some(now), updatedAt := now)
  }

  function MovedHand(h: Hand, m: Mapping, now: int): Hand
    requires h.student in m
  {
    h.(student := m[h.student], updatedAt := now)
  }

  lemma LosersArePresent(t: map<int, Hand>, m: Mapping)
    ensures Losers(RaisedHands(t), m) <= t.Keys
  {}

  lemma ClearingHand(t: map<int, Hand>, done: set<int>, now: int, i: int)
    requires i in t && i !in done
    ensures i in RetiredHands(t, done, now) && RetiredHands(t, done, now)[i] == t[i]
    ensures RetiredHands(t, done, now)[i := Cleared(t[i], now)] == RetiredHands(t, done + {i}, now)
  {}

  lemma ClearingKeepsIndex(t: map<int, Hand>, done: set<int>, now: int)
    requires OnePerSlot(RaisedHands(t))
    ensures OnePerSlot(RaisedHands(RetiredHands(t, done, now))) && RetiredHands(t, {}, now) == t
  {
    HandViews(t, map[], done, now, {});
    RetiringKeepsIndex(RaisedHands(t), done);
  }

  lemma MovingHand(t: map<int, Hand>, m: Mapping, done: set<int>, now: int, i: int)
    requires i in t && t[i].student in m && i !in done
    ensures i in ReparentedHands(t, m, done, now) && ReparentedHands(t, m, done, now)[i] == t[i]
    ensures ReparentedHands(t, m, done, now)[i := MovedHand(t[i], m, now)] == ReparentedHands(t, m, done + {i}, now)
  {}

  lemma MovingHandsIff(t: map<int, Hand>, m: Mapping, done: set<int>, now: int)
    requires Separated(m) && OnePerSlot(RaisedHands(t))
    ensures OnePerPerson(RaisedHands(t), m) ==> OnePerSlot(RaisedHands(ReparentedHands(t, m, done, now)))
    ensures OnePerSlot(RaisedHands(ReparentedHands(t, m, t.Keys, now))) ==> OnePerPerson(RaisedHands(t), m)
    ensures ReparentedHands(t, m, {}, now) == t
  {
    ReparentedHandView(t, m, done, now);
    ReparentedHandView(t, m, t.Keys, now);
    ReparentingKeepsIndexIff(RaisedHands(t), m);
    assert Reparented(RaisedHands(t), m, t.Keys) == Reparented(RaisedHands(t), m, RaisedHands(t).Keys);
    hide OnePerSlot, OnePerPerson, Reparented, RaisedHands;
  }

  lemma AllHandsMoved(t: map<int, Hand>, m: Mapping, done: set<int>, now: int)
    requires forall i | i in t && t[i].student in m :: i in done
    ensures ReparentedHands(t, m, done, now) == ReparentedHands(t, m, t.Keys, now)
  {
    var some, all := ReparentedHands(t, m, done, now), ReparentedHands(t, m, t.Keys, now);
    assert some.Keys == t.Keys == all.Keys;
    assert forall i | i in some :: some[i] == all[i];
    assert some == all;
  }

  lemma ReparentedHandView(t: map<int, Hand>, m: Mapping, done: set<int>, now: int)
    ensures RaisedHands(ReparentedHands(t, m, done, now)) == Reparented(RaisedHands(t), m, done)
  {
    var seen, wanted := RaisedHands(ReparentedHands(t, m, done, now)), Reparented(RaisedHands(t), m, done);
    assert seen.Keys == wanted.Keys;
    assert forall i | i in seen :: seen[i] == wanted[i];
  }

  // ---- Answers ----

  function Superseded(a: Answer, winner: int, now: int): Answer {
    a.(supersededAt := Some(now), supersededBy := Some(winner), updatedAt := now)
  }

  function MovedAnswer(a: Answer, m: Mapping, now: int): Answer
    requires a.student in m
  {
    a.(student := m[a.student], updatedAt := now)
  }

  function Part(winners: map<int, int>, done: set<int>): map<int, int> {
    map i | i in winners && i in done :: winners[i]
  }

  lemma WinnersArePresent(t: map<int, Answer>, m: Mapping)
    ensures Supersessors(t, m).Keys <= t.Keys
  {}

  lemma SupersedingAnswer(t: map<int, Answer>, winners: map<int, int>, done: set<int>, now: int, i: int)
    requires i in t && i in winners && i !in done
    ensures i in RetiredAnswers(t, Part(winners, done), now) && RetiredAnswers(t, Part(winners, done), now)[i] == t[i]
    ensures RetiredAnswers(t, Part(winners, done), now)[i := Superseded(t[i], winners[i], now)]
            == RetiredAnswers(t, Part(winners, done + {i}), now)
  {}

  lemma SupersedingKeepsIndex(t: map<int, Answer>, winners: map<int, int>, done: set<int>, now: int)
    requires OnePerSlot(StandingAnswers(t))
    ensures OnePerSlot(StandingAnswers(RetiredAnswers(t, Part(winners, done), now)))
    ensures Part(winners, winners.Keys) == winners && RetiredAnswers(t, Part(winners, {}), now) == t
  {
    AnswerViews(t, map[], Part(winners, done), now, {});
    RetiringKeepsIndex(StandingAnswers(t), Part(winners, done).Keys);
  }

  lemma MovingAnswer(t: map<int, Answer>, m: Mapping, done: set<int>, now: int, i: int)
    requires i in t && t[i].student in m && i !in done
    ensures i in ReparentedAnswers(t, m, done, now) && ReparentedAnswers(t, m, done, now)[i] == t[i]
    ensures ReparentedAnswers(t, m, done, now)[i := MovedAnswer(t[i], m, now)]
            == ReparentedAnswers(t, m, done + {i}, now)
  {}

  lemma MovingAnswersIff(t: map<int, Answer>, m: Mapping, done: set<int>, now: int)
    requires Separated(m) && OnePerSlot(StandingAnswers(t))
    ensures OnePerPerson(StandingAnswers(t), m) ==> OnePerSlot(StandingAnswers(ReparentedAnswers(t, m, done, now)))
    ensures OnePerSlot(StandingAnswers(ReparentedAnswers(t, m, t.Keys, now))) ==> OnePerPerson(StandingAnswers(t), m)
    ensures ReparentedAnswers(t, m, {}, now) == t
  {
    ReparentedAnswerView(t, m, done, now);
    ReparentedAnswerView(t, m, t.Keys, now);
    ReparentingKeepsIndexIff(StandingAnswers(t), m);
    assert Reparented(StandingAnswers(t), m, t.Keys) == Reparented(StandingAnswers(t), m, StandingAnswers(t).Keys);
    hide OnePerSlot, OnePerPerson, Reparented, StandingAnswers;
  }

  lemma AllAnswersMoved(t: map<int, Answer>, m: Mapping, done: set<int>, now: int)
    requires forall i | i in t && t[i].student in m :: i in done
    ensures ReparentedAnswers(t, m, done, now) == ReparentedAnswers(t, m, t.Keys, now)
  {
    var some, all := ReparentedAnswers(t, m, done, now), ReparentedAnswers(t, m, t.Keys, now);
    assert some.Keys == t.Keys == all.Keys;
    assert forall i | i in some :: some[i] == all[i];
    assert some == all;
  }

  lemma ReparentedAnswerView(t: map<int, Answer>, m: Mapping, done: set<int>, now: int)
    ensures StandingAnswers(ReparentedAnswers(t, m, done, now)) == Reparented(StandingAnswers(t), m, done)
  {
    var seen, wanted := StandingAnswers(ReparentedAnswers(t, m, done, now)), Reparented(StandingAnswers(t), m, done);
    assert seen.Keys == wanted.Keys;
    assert forall i | i in seen :: seen[i] == wanted[i];
  }

  // ---- Deliveries ----

  function MovedDelivery(d: Delivery, m: Mapping, now: int): Delivery
    requires d.student in m
  {
    d.(student := m[d.student], updatedAt := now)
  }

  /** The delivery UPDATE once the rows of `done` have been visited. */
  function DeliveriesMoved(t: map<int, Delivery>, m: Mapping, done: set<int>, now: int): map<int, Delivery> {
    map i | i in t :: if i in done && t[i].student in m then MovedDelivery(t[i], m, now) else t[i]
  }

  lemma MovingDelivery(t: map<int, Delivery>, m: Mapping, done: set<int>, now: int, i: int)
    requires i in t && t[i].student in m && i !in done
    ensures i in DeliveriesMoved(t, m, done, now) && DeliveriesMoved(t, m, done, now)[i] == t[i]
    ensures DeliveriesMoved(t, m, done, now)[i := MovedDelivery(t[i], m, now)] == DeliveriesMoved(t, m, done + {i}, now)
  {}

  lemma AllDeliveriesMoved(t: map<int, Delivery>, m: Mapping, done: set<int>, now: int)
    requires forall i | i in t && t[i].student in m :: i in done
    ensures DeliveriesMoved(t, m, done, now) == ReparentedDeliveries(t, m, now)
  {
    var some, all := DeliveriesMoved(t, m, done, now), ReparentedDeliveries(t, m, now);
    assert some.Keys == t.Keys == all.Keys;
    assert forall i | i in some :: some[i] == all[i];
    assert some == all;
  }

  lemma NoDeliveryMoved(t: map<int, Delivery>, m: Mapping, now: int)
    ensures DeliveriesMoved(t, m, {}, now) == t
  {}

  // ---- Device links ----

  /** The (keeper, device) pairs the INSERT selects, one row each. */
  function Groups(t: map<int, DeviceLink>, m: Mapping): set<(int, int)> {
    set i | i in t && t[i].student in m :: (m[t[i].student], t[i].device)
  }

  predicate Present(t: map<int, DeviceLink>, pair: (int, int)) {
    exists i :: i in t && t[i].student == pair.0 && t[i].device == pair.1
  }

  function NewIds(ids: map<(int, int), int>, pairs: set<(int, int)>): set<int> {
    set p | p in pairs && p in ids :: ids[p]
  }

  /** The links once the groups of `done` have been inserted or skipped. */
  ghost predicate LinksInserted(t: map<int, DeviceLink>, m: Mapping, ids: map<(int, int), int>, done: set<(int, int)>,
                                links: map<int, DeviceLink>)
  {
    && links.Keys == t.Keys + NewIds(ids, InsertablePairs(t, m) * done)
    && (forall i | i in t :: links[i] == t[i])
    && (forall p | p in InsertablePairs(t, m) && p in done ::
          p in ids && ids[p] in links && links[ids[p]] == GroupedLink(t, m, p))
  }

  lemma GroupsAreGroups(t: map<int, DeviceLink>, m: Mapping, pair: (int, int))
    ensures pair in Groups(t, m) ==> exists i :: i in GroupOf(t, m, pair)
    ensures pair in InsertablePairs(t, m) <==> pair in Groups(t, m) && !Present(t, pair)
  {
    if pair in Groups(t, m) {
      var i :| i in t && t[i].student in m && pair == (m[t[i].student], t[i].device);
      assert i in GroupOf(t, m, pair);
    }
    var present := set i | i in t :: (t[i].student, t[i].device);
    assert pair in present <==> Present(t, pair);
  }

  lemma SomePair(s: set<(int, int)>)
    ensures s == {} || exists p :: p in s
  {
    if forall p :: p !in s { assert s == {}; }
  }

  /** A group conflicts with some row present by then exactly when it did at the start. */
  lemma GroupConflicts(t: map<int, DeviceLink>, m: Mapping, ids: map<(int, int), int>, done: set<(int, int)>,
                       links: map<int, DeviceLink>, pair: (int, int))
    requires FreshIds(t, m, ids) && LinksInserted(t, m, ids, done, links) && pair in Groups(t, m) && pair !in done
    ensures exists i :: i in GroupOf(t, m, pair)
    ensures Present(links, pair) <==> pair !in InsertablePairs(t, m)
    ensures pair in InsertablePairs(t, m) ==> pair in ids && ids[pair] !in links
  {
    GroupsAreGroups(t, m, pair);
    var pairs := InsertablePairs(t, m);
    hide InsertablePairs, GroupOf, Groups;
    if Present(t, pair) {
      var i :| i in t && t[i].student == pair.0 && t[i].device == pair.1;
      assert i in links && links[i] == t[i];
    }
    if pair in pairs {
      forall i | i in links ensures links[i].student != pair.0 || links[i].device != pair.1 {
        if i in t {
          assert !Present(t, pair) && links[i] == t[i];
        } else {
          var p :| p in pairs && p in done && p in ids && ids[p] == i;
          assert links[i] == GroupedLink(t, m, p);
        }
      }
    }
  }

  lemma InsertingLink(t: map<int, DeviceLink>, m: Mapping, ids: map<(int, int), int>, done: set<(int, int)>,
                      links: map<int, DeviceLink>, pair: (int, int))
    requires FreshIds(t, m, ids) && LinksInserted(t, m, ids, done, links) && pair in Groups(t, m) && pair !in done
    requires exists i :: i in GroupOf(t, m, pair)
    ensures Present(links, pair) ==> LinksInserted(t, m, ids, done + {pair}, links)
    ensures !Present(links, pair) && pair in ids ==>
              LinksInserted(t, m, ids, done + {pair}, links[ids[pair] := GroupedLink(t, m, pair)])
  {
    GroupConflicts(t, m, ids, done, links, pair);
    var pairs := InsertablePairs(t, m);
    if pair in pairs {
      assert pairs * (done + {pair}) == pairs * done + {pair};
      assert NewIds(ids, pairs * done + {pair}) == NewIds(ids, pairs * done) + {ids[pair]};
    } else {
      assert pairs * (done + {pair}) == pairs * done;
    }
    hide InsertablePairs, GroupOf, Groups, GroupedLink, NewIds, Present;
  }

  lemma NothingInsertedYet(t: map<int, DeviceLink>, m: Mapping, ids: map<(int, int), int>)
    ensures LinksInserted(t, m, ids, {}, t)
  {
    assert InsertablePairs(t, m) * {} == {};
    assert NewIds(ids, {}) == {};
  }

  /** The unique constraint holds after every inserted row. */
  lemma InsertingKeepsUnique(t: map<int, DeviceLink>, m: Mapping, ids: map<(int, int), int>, done: set<(int, int)>,
                             links: map<int, DeviceLink>)
    requires FreshIds(t, m, ids) && LinkUnique(t) && LinksInserted(t, m, ids, done, links)
    ensures LinkUnique(links)
  {
    forall i, j | i in links && j in links && i != j
      ensures links[i].student != links[j].student || links[i].device != links[j].device
    {
      LinkOrigin(t, m, ids, done, links, i);
      LinkOrigin(t, m, ids, done, links, j);
      hide LinksInserted, InsertablePairs, GroupedLink;
    }
  }

  /** A row was there before, or is the new row of a pair that was absent before. */
  lemma LinkOrigin(t: map<int, DeviceLink>, m: Mapping, ids: map<(int, int), int>, done: set<(int, int)>,
                   links: map<int, DeviceLink>, i: int)
    requires FreshIds(t, m, ids) && LinksInserted(t, m, ids, done, links) && i in links
    ensures if i in t then links[i] == t[i]
            else var pair := (links[i].student, links[i].device);
                 pair in InsertablePairs(t, m) && !Present(t, pair) && ids[pair] == i
  {
    if i !in t {
      var p :| p in InsertablePairs(t, m) && p in done && p in ids && ids[p] == i;
      assert links[i] == GroupedLink(t, m, p);
      GroupsAreGroups(t, m, p);
    }
  }

  lemma AllLinksInserted(t: map<int, DeviceLink>, m: Mapping, ids: map<(int, int), int>, links: map<int, DeviceLink>)
    requires FreshIds(t, m, ids) && LinksInserted(t, m, ids, Groups(t, m), links)
    ensures links == WithKeeperLinks(t, m, ids)
  {
    var after, pairs := WithKeeperLinks(t, m, ids), InsertablePairs(t, m);
    forall p | p in pairs ensures p in Groups(t, m) { GroupsAreGroups(t, m, p); }
    assert pairs * Groups(t, m) == pairs;
    hide InsertablePairs, GroupedLink, Groups;
    assert after.Keys == t.Keys + NewIds(ids, pairs);
    forall i | i in after ensures after[i] == links[i] {
      if i !in t {
        var p :| p in pairs && ids[p] == i;
        assert after[i] == GroupedLink(t, m, p);
      }
    }
  }

  // ---- Students ----

  /** Some answer holds this student back: the composite foreign key, ON DELETE RESTRICT. */
  predicate HeldBack(answers: map<int, Answer>, student: int, school: int) {
    exists i :: i in answers && answers[i].student == student && answers[i].school == school
  }

  function StudentsLeft(t: map<int, Student>, done: set<int>): map<int, Student> {
    t - done
  }

  lemma LeavingStudent(t: map<int, Student>, done: set<int>, i: int)
    requires i in t && i !in done
    ensures i in StudentsLeft(t, done) && StudentsLeft(t, done)[i] == t[i]
    ensures StudentsLeft(t, done) - {i} == StudentsLeft(t, done + {i})
  {}

  lemma NobodyLeft(t: map<int, Student>)
    ensures StudentsLeft(t, {}) == t
  {}

  lemma DuplicatesLeft(t: map<int, Student>, m: Mapping, done: set<int>)
    requires forall i | i in t :: i in done <==> i in m
    ensures StudentsLeft(t, done) == WithoutDuplicates(t, m)
  {
    var left, wanted := StudentsLeft(t, done), WithoutDuplicates(t, m);
    assert forall i :: i in left <==> i in wanted;
    assert left == wanted;
  }
}
