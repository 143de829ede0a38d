/** What the duplicate-student cleanup does to every table, for every starting state its constraints allow. */
module MergeProofs {
  import opened Wrappers
  import opened Ranking
  import opened Consolidation
  import opened MergeTables

  /** The mapping pairs each mergeable duplicate with its oldest keeper; keepers are never duplicates. */
  lemma MappingIsSound(db: Db)
    ensures Separated(CleanupMapping(db))
    ensures forall d :: d in CleanupMapping(db) <==> exists k :: Mergeable(db, k, d)
    ensures forall d | d in CleanupMapping(db) :: Mergeable(db, CleanupMapping(db)[d], d)
    ensures forall d | d in CleanupMapping(db) :: forall k | Mergeable(db, k, d) ::
              var keeper := CleanupMapping(db)[d];
              k == keeper || db.students[keeper].createdAt < db.students[k].createdAt ||
              (db.students[keeper].createdAt == db.students[k].createdAt && keeper < k)
  {
    var m := CleanupMapping(db);
    forall d ensures d in m <==> exists k :: Mergeable(db, k, d) {
      assert forall k :: Mergeable(db, k, d) <==> k in KeeperKeys(db, d);
    }
    forall d | d in m
      ensures Mergeable(db, m[d], d)
      ensures forall k | Mergeable(db, k, d) :: k == m[d] || Before(KeeperKeys(db, d)[m[d]], KeeperKeys(db, d)[k])
    {
      assert forall k | Mergeable(db, k, d) :: k in KeeperKeys(db, d);
    }
    assert forall k | k in m.Values :: k !in m;
  }

  // ---- Sessions ----

  /** Session j is active and fresher than session i of the same person. */
  ghost predicate Fresher(t: map<int, Session>, m: Mapping, j: int, i: int) {
    j in t && i in t && t[j].isActive && Canon(m, t[j].student) == Canon(m, t[i].student) &&
    (t[j].lastSeenAt > t[i].lastSeenAt ||
     (t[j].lastSeenAt == t[i].lastSeenAt &&
      (t[j].startedAt > t[i].startedAt || (t[j].startedAt == t[i].startedAt && j > i))))
  }

  /** Row by row: only the owner changes, and an active row ends exactly when a fresher one of that person exists. */
  lemma SessionOutcome(t: map<int, Session>, m: Mapping, now: int, i: int)
    requires Separated(m) && i in t
    ensures MergedSessions(t, m, now).Keys == t.Keys
    ensures var after := MergedSessions(t, m, now)[i];
            && after.student == Canon(m, t[i].student) && after.device == t[i].device
            && after.startedAt == t[i].startedAt && after.lastSeenAt == t[i].lastSeenAt
            && (after.isActive <==>
                t[i].isActive && !(Affected(m, t[i].student) && exists j :: Fresher(t, m, j, i)))
            && after.endedAt == (if t[i].isActive && !after.isActive then Some(t[i].endedAt.Else(now))
                                 else t[i].endedAt)
  {
    if t[i].isActive {
      LoserIff(ActiveSessions(t), m, i);
      assert forall j :: Beats(ActiveSessions(t), m, j, i) <==> Fresher(t, m, j, i);
    }
  }

  /** The active rows the index sees: losers drop out, visited rows carry the keeper. */
  lemma SessionViews(t: map<int, Session>, m: Mapping, losers: set<int>, now: int, done: set<int>)
    ensures var retired := RetiredSessions(t, losers, now);
            && ActiveSessions(retired) == ActiveSessions(t) - losers
            && ActiveSessions(ReparentedSessions(retired, m, done)) == Reparented(ActiveSessions(t) - losers, m, done)
            && SessionsByDevice(retired) == SessionsByDevice(t) - losers
            && SessionsByDevice(ReparentedSessions(retired, m, done)) == SessionsByDevice(t) - losers
  {
    RetiredSessionViews(t, losers, now);
    ReparentedSessionViews(RetiredSessions(t, losers, now), m, done);
    hide *;
  }

  lemma RetiredSessionViews(t: map<int, Session>, losers: set<int>, now: int)
    ensures ActiveSessions(RetiredSessions(t, losers, now)) == ActiveSessions(t) - losers
    ensures SessionsByDevice(RetiredSessions(t, losers, now)) == SessionsByDevice(t) - losers
  {}

  lemma ReparentedSessionViews(t: map<int, Session>, m: Mapping, done: set<int>)
    ensures ActiveSessions(ReparentedSessions(t, m, done)) == Reparented(ActiveSessions(t), m, done)
    ensures SessionsByDevice(ReparentedSessions(t, m, done)) == SessionsByDevice(t)
  {}

  /** Of one person's active sessions exactly one survives, and it is the freshest of them. */
  lemma FreshestSessionSurvives(t: map<int, Session>, m: Mapping, now: int, i: int) returns (w: int)
    requires Separated(m) && SessionIndexes(t) && i in t && t[i].isActive && Affected(m, t[i].student)
    ensures var after := MergedSessions(t, m, now);
            && w in after && after[w].isActive && after[w].student == Canon(m, t[i].student)
            && (w == i || Fresher(t, m, w, i))
            && forall j | j in after && after[j].isActive && after[j].student == after[w].student :: j == w
  {
    var active := ActiveSessions(t);
    w := Winner(active, m, i);
    WinnerSurvives(active, m, i);
    SessionOutcome(t, m, now, w);
    SessionIndexesHold(t, m, now, t.Keys);
    AtMostOneActive(MergedSessions(t, m, now), w);
  }

  lemma AtMostOneActive(t: map<int, Session>, w: int)
    requires OnePerSlot(ActiveSessions(t)) && w in t && t[w].isActive
    ensures forall j | j in t && t[j].isActive && t[j].student == t[w].student :: j == w
  {
    assert forall j | j in t && t[j].isActive :: j in ActiveSessions(t);
    assert w in ActiveSessions(t);
  }

  /** Neither session index is violated after any prefix, in any row order, of the re-parenting UPDATE. */
  lemma SessionIndexesHold(t: map<int, Session>, m: Mapping, now: int, done: set<int>)
    requires Separated(m) && SessionIndexes(t)
    ensures var retired := RetiredSessions(t, Losers(ActiveSessions(t), m), now);
            SessionIndexes(retired) && SessionIndexes(ReparentedSessions(retired, m, done))
  {
    var losers := Losers(ActiveSessions(t), m);
    SessionViews(t, m, losers, now, done);
    ReparentingKeepsIndex(ActiveSessions(t), m, done);
    RetiringKeepsIndex(ActiveSessions(t), losers);
    RetiringKeepsIndex(SessionsByDevice(t), losers);
  }

  // ---- Raised hands ----

  /** Hand j is still up and was raised before hand i, by the same person in the same teaching session. */
  ghost predicate RaisedFirst(t: map<int, Hand>, m: Mapping, j: int, i: int) {
    j in t && i in t && t[j].clearedAt.None? && t[j].session == t[i].session &&
    Canon(m, t[j].student) == Canon(m, t[i].student) &&
    (t[j].raisedAt < t[i].raisedAt || (t[j].raisedAt == t[i].raisedAt && j < i))
  }

  /** Row by row: a hand is cleared exactly when an earlier one of that person in that session is still up. */
  lemma HandOutcome(t: map<int, Hand>, m: Mapping, now: int, i: int)
    requires Separated(m) && i in t
    ensures MergedHands(t, m, now).Keys == t.Keys
    ensures var after := MergedHands(t, m, now)[i];
            var cleared := t[i].clearedAt.None? && Affected(m, t[i].student) && exists j :: RaisedFirst(t, m, j, i);
            after == t[i].(student := Canon(m, t[i].student),
                           clearedAt := if cleared then Some(now) else t[i].clearedAt,
                           updatedAt := if cleared || t[i].student in m then now else t[i].updatedAt)
  {
    if t[i].clearedAt.None? {
      LoserIff(RaisedHands(t), m, i);
      assert forall j :: Beats(RaisedHands(t), m, j, i) <==> RaisedFirst(t, m, j, i);
    }
  }

  lemma HandViews(t: map<int, Hand>, m: Mapping, losers: set<int>, now: int, done: set<int>)
    ensures var retired := RetiredHands(t, losers, now);
            && RaisedHands(retired) == RaisedHands(t) - losers
            && RaisedHands(ReparentedHands(retired, m, done, now)) == Reparented(RaisedHands(t) - losers, m, done)
  {
    var seen := RaisedHands(ReparentedHands(RetiredHands(t, losers, now), m, done, now));
    var wanted := Reparented(RaisedHands(t) - losers, m, done);
    assert seen.Keys == wanted.Keys;
    assert forall i | i in seen :: seen[i] == wanted[i];
  }

  /** The partial unique index on raised hands holds after any prefix, in any row order, of the re-parenting UPDATE. */
  lemma HandIndexHolds(t: map<int, Hand>, m: Mapping, now: int, done: set<int>)
    requires Separated(m) && OnePerSlot(RaisedHands(t))
    ensures var retired := RetiredHands(t, Losers(RaisedHands(t), m), now);
            OnePerSlot(RaisedHands(retired)) && OnePerSlot(RaisedHands(ReparentedHands(retired, m, done, now)))
  {
    var losers := Losers(RaisedHands(t), m);
    HandViews(t, m, losers, now, done);
    ReparentingKeepsIndex(RaisedHands(t), m, done);
    RetiringKeepsIndex(RaisedHands(t), losers);
  }

  /** Of one person's raised hands in a session exactly one stays up, and it is the earliest. */
  lemma EarliestHandSurvives(t: map<int, Hand>, m: Mapping, now: int, i: int) returns (w: int)
    requires Separated(m) && OnePerSlot(RaisedHands(t)) && i in t
    requires t[i].clearedAt.None? && Affected(m, t[i].student)
    ensures var after := MergedHands(t, m, now);
            && w in after && after[w].clearedAt.None?
            && after[w].student == Canon(m, t[i].student) && after[w].session == t[i].session
            && (w == i || RaisedFirst(t, m, w, i))
            && forall j | j in after && after[j].clearedAt.None? &&
                          after[j].student == after[w].student && after[j].session == after[w].session :: j == w
  {
    w := Winner(RaisedHands(t), m, i);
    WinnerSurvives(RaisedHands(t), m, i);
    HandOutcome(t, m, now, w);
    HandIndexHolds(t, m, now, t.Keys);
    AtMostOneRaised(MergedHands(t, m, now), w);
  }

  lemma AtMostOneRaised(t: map<int, Hand>, w: int)
    requires OnePerSlot(RaisedHands(t)) && w in t && t[w].clearedAt.None?
    ensures forall j | j in t && t[j].clearedAt.None? && t[j].student == t[w].student && t[j].session == t[w].session
              :: j == w
  {
    assert forall j | j in t && t[j].clearedAt.None? :: j in RaisedHands(t);
    assert w in RaisedHands(t);
  }

  // ---- Poll answers ----

  /** Answer j stands and was given before answer i, by the same person to the same poll. */
  ghost predicate AnsweredFirst(t: map<int, Answer>, m: Mapping, j: int, i: int) {
    j in t && i in t && t[j].supersededAt.None? && t[j].poll == t[i].poll &&
    Canon(m, t[j].student) == Canon(m, t[i].student) &&
    (t[j].createdAt < t[i].createdAt || (t[j].createdAt == t[i].createdAt && j < i))
  }

  /** Row by row: an answer is superseded exactly when an earlier one stands, and then names the one that survives. */
  lemma AnswerOutcome(t: map<int, Answer>, m: Mapping, now: int, i: int)
    requires Separated(m) && i in t
    ensures MergedAnswers(t, m, now).Keys == t.Keys
    ensures var after := MergedAnswers(t, m, now)[i];
            var late := t[i].supersededAt.None? && Affected(m, t[i].student) && exists j :: AnsweredFirst(t, m, j, i);
            && (late ==> i in Supersessors(t, m))
            && after == t[i].(student := Canon(m, t[i].student),
                              supersededAt := if late then Some(now) else t[i].supersededAt,
                              supersededBy := if late then Some(Supersessors(t, m)[i]) else t[i].supersededBy,
                              updatedAt := if late || t[i].student in m then now else t[i].updatedAt)
  {
    if t[i].supersededAt.None? {
      LoserIff(StandingAnswers(t), m, i);
      assert forall j :: Beats(StandingAnswers(t), m, j, i) <==> AnsweredFirst(t, m, j, i);
    }
  }

  lemma AnswerViews(t: map<int, Answer>, m: Mapping, winners: map<int, int>, now: int, done: set<int>)
    ensures var retired := RetiredAnswers(t, winners, now);
            && StandingAnswers(retired) == StandingAnswers(t) - winners.Keys
            && StandingAnswers(ReparentedAnswers(retired, m, done, now))
               == Reparented(StandingAnswers(t) - winners.Keys, m, done)
  {
    var seen := StandingAnswers(ReparentedAnswers(RetiredAnswers(t, winners, now), m, done, now));
    var wanted := Reparented(StandingAnswers(t) - winners.Keys, m, done);
    assert seen.Keys == wanted.Keys;
    assert forall i | i in seen :: seen[i] == wanted[i];
  }

  /** The partial unique index on standing answers holds after any prefix, in any row order, of the UPDATE. */
  lemma AnswerIndexHolds(t: map<int, Answer>, m: Mapping, now: int, done: set<int>)
    requires Separated(m) && OnePerSlot(StandingAnswers(t))
    ensures var retired := RetiredAnswers(t, Supersessors(t, m), now);
            && OnePerSlot(StandingAnswers(retired))
            && OnePerSlot(StandingAnswers(ReparentedAnswers(retired, m, done, now)))
  {
    var winners := Supersessors(t, m);
    assert winners.Keys == Losers(StandingAnswers(t), m);
    AnswerViews(t, m, winners, now, done);
    ReparentingKeepsIndex(StandingAnswers(t), m, done);
    RetiringKeepsIndex(StandingAnswers(t), winners.Keys);
  }

  /** Of one person's standing answers to a poll exactly one survives: the earliest, which every loser names. */
  lemma EarliestAnswerSurvives(t: map<int, Answer>, m: Mapping, now: int, i: int) returns (w: int)
    requires Separated(m) && OnePerSlot(StandingAnswers(t)) && i in t
    requires t[i].supersededAt.None? && Affected(m, t[i].student)
    ensures var after := MergedAnswers(t, m, now);
            && w in after && after[w].supersededAt.None?
            && after[w].student == Canon(m, t[i].student) && after[w].poll == t[i].poll
            && (w == i || (AnsweredFirst(t, m, w, i) && after[i].supersededBy == Some(w)))
            && forall j | j in after && after[j].supersededAt.None? &&
                          after[j].student == after[w].student && after[j].poll == after[w].poll :: j == w
  {
    w := Winner(StandingAnswers(t), m, i);
    WinnerSurvives(StandingAnswers(t), m, i);
    AnswerOutcome(t, m, now, i);
    AnswerOutcome(t, m, now, w);
    AnswerIndexHolds(t, m, now, t.Keys);
    AtMostOneStanding(MergedAnswers(t, m, now), w);
  }

  lemma AtMostOneStanding(t: map<int, Answer>, w: int)
    requires OnePerSlot(StandingAnswers(t)) && w in t && t[w].supersededAt.None?
    ensures forall j | j in t && t[j].supersededAt.None? && t[j].student == t[w].student && t[j].poll == t[w].poll
              :: j == w
  {
    assert forall j | j in t && t[j].supersededAt.None? :: j in StandingAnswers(t);
    assert w in StandingAnswers(t);
  }
}
