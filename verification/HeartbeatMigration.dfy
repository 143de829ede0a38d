/** The migration session around both index replacements, and recovery after any number of crashed sessions. */
module HeartbeatMigration {
  import opened HeartbeatIndex

  const BUILD_TIMEOUT := "8min"

  /** `lockedHere`: the database holds the advisory lock for this client; `timeout` is its statement_timeout. */
  datatype Session = Session(world: World, lockedHere: bool, timeout: string)

  /** Whether the statement about to run takes effect in the database, reported or not. */
  predicate TakesEffect(w: World) {
    Upcoming(w).Succeeds? || Upcoming(w).FailsApplied?
  }

  function Throw(s: Session): Session {
    s.(world := s.world.(failed := true))
  }

  /** ensureHeartbeatHistoryIndexOnline; `lockFree` says whether no other session holds the advisory lock, and
      `world.failed` of the result whether the call throws. */
  function Migrate(s: Session, lockFree: bool): Session {
    var shown := s.(world := Query(s.world));
    if shown.world.failed then shown
    else if s.timeout == "" then Throw(shown)
    else
      var locked := s.(world := Query(shown.world), lockedHere := lockFree && TakesEffect(shown.world));
      if locked.world.failed then locked
      else if !lockFree then Throw(locked)
      else
        var limited := locked.(world := Query(locked.world),
                               timeout := if TakesEffect(locked.world) then BUILD_TIMEOUT else s.timeout);
        if limited.world.failed then Unlock(limited)
        else Restore(Unlock(limited.(world := Work(limited.world))), s.timeout)
  }

  /** Both replacements, then ANALYZE. */
  function Work(w: World): World {
    var first := EnsureOnline(w, HISTORY_SPEC);
    if first.failed then first
    else
      var second := EnsureOnline(first, STUDENT_HISTORY_SPEC);
      if second.failed then second else Query(second)
  }

  /** The finally block runs its statements also while an exception propagates. */
  function Unlock(s: Session): Session {
    var after := Query(s.world);
    s.(world := after.(failed := s.world.failed || after.failed), lockedHere := !TakesEffect(s.world))
  }

  function Restore(s: Session, original: string): Session {
    var after := Query(s.world);
    s.(world := after.(failed := s.world.failed || after.failed),
       timeout := if TakesEffect(s.world) then original else s.timeout)
  }

  // ---- Both replacements together ----

  const NAMES := {HISTORY_SPEC.canonicalName, HISTORY_SPEC.buildName,
                  STUDENT_HISTORY_SPEC.canonicalName, STUDENT_HISTORY_SPEC.buildName}

  /** What every catalog reached from c0 keeps. */
  ghost predicate Keeps(c0: Catalog, c: Catalog) {
    (HasAccessPath(c0, HISTORY_SPEC) ==> HasAccessPath(c, HISTORY_SPEC)) &&
    (HasAccessPath(c0, STUDENT_HISTORY_SPEC) ==> HasAccessPath(c, STUDENT_HISTORY_SPEC)) &&
    (forall n | !Replaceable(Lookup(c0, n)) || n !in NAMES :: Lookup(c, n) == Lookup(c0, n)) &&
    (forall n | Replaceable(Lookup(c0, n)) :: Replaceable(Lookup(c, n)))
  }

  predicate Completed(c: Catalog) {
    IsExpected(Lookup(c, HISTORY_SPEC.canonicalName), HISTORY_SPEC) && HISTORY_SPEC.buildName !in c &&
    IsExpected(Lookup(c, STUDENT_HISTORY_SPEC.canonicalName), STUDENT_HISTORY_SPEC) &&
    STUDENT_HISTORY_SPEC.buildName !in c
  }

  predicate NoForeignIndex(c: Catalog) {
    forall n | n in NAMES :: Replaceable(Lookup(c, n))
  }

  lemma NamesDiffer()
    ensures |NAMES| == 4
    ensures HISTORY_SPEC.canonicalName != HISTORY_SPEC.buildName
    ensures STUDENT_HISTORY_SPEC.canonicalName != STUDENT_HISTORY_SPEC.buildName
  {
    assert |HISTORY_SPEC.canonicalName| == 38 && |HISTORY_SPEC.buildName| == 49;
    assert |STUDENT_HISTORY_SPEC.canonicalName| == 46 && |STUDENT_HISTORY_SPEC.buildName| == 52;
  }

  /** While one replacement runs, everything promised about the other holds by itself. */
  lemma OneKeepsBoth(c0: Catalog, c: Catalog, spec: Spec)
    requires (spec == HISTORY_SPEC || spec == STUDENT_HISTORY_SPEC) && Safe(c0, c, spec)
    ensures Keeps(c0, c)
  {
    NamesDiffer();
    assert Lookup(c, HISTORY_SPEC.canonicalName) == Lookup(c0, HISTORY_SPEC.canonicalName) ||
           spec == HISTORY_SPEC;
    assert Lookup(c, HISTORY_SPEC.buildName) == Lookup(c0, HISTORY_SPEC.buildName) || spec == HISTORY_SPEC;
  }

  lemma KeepsTransitively(c0: Catalog, c1: Catalog, c2: Catalog)
    requires Keeps(c0, c1) && Keeps(c1, c2)
    ensures Keeps(c0, c2)
  {}

  /** Every catalog a migration passes through, and the one it leaves, keeps what c0 had. */
  ghost predicate KeepsThroughout(c0: Catalog, before: World, after: World) {
    before.history <= after.history && Keeps(c0, after.catalog) &&
    forall i | |before.history| <= i < |after.history| :: Keeps(c0, after.history[i])
  }

  lemma QueryKeeps(c0: Catalog, before: World, w: World)
    requires KeepsThroughout(c0, before, w)
    ensures KeepsThroughout(c0, before, Query(w))
  {}

  lemma EnsureKeeps(c0: Catalog, before: World, w: World, spec: Spec)
    requires spec == HISTORY_SPEC || spec == STUDENT_HISTORY_SPEC
    requires KeepsThroughout(c0, before, w)
    ensures KeepsThroughout(c0, before, EnsureOnline(w, spec))
  {
    NamesDiffer();
    EnsureOnlineIsSafe(w, spec);
    var after := EnsureOnline(w, spec);
    OneKeepsBoth(w.catalog, after.catalog, spec);
    KeepsTransitively(c0, w.catalog, after.catalog);
    forall i | |before.history| <= i < |after.history| ensures Keeps(c0, after.history[i]) {
      if i >= |w.history| {
        OneKeepsBoth(w.catalog, after.history[i], spec);
        KeepsTransitively(c0, w.catalog, after.history[i]);
      }
    }
  }

  lemma WorkOutcome(c0: Catalog, before: World, w: World)
    requires KeepsThroughout(c0, before, w)
    ensures KeepsThroughout(c0, before, Work(w))
    ensures !Work(w).failed ==> Completed(Work(w).catalog)
  {
    NamesDiffer();
    var first := EnsureOnline(w, HISTORY_SPEC);
    EnsureKeeps(c0, before, w, HISTORY_SPEC);
    EnsureOnlineIsSafe(w, HISTORY_SPEC);
    if !first.failed {
      EnsureKeeps(c0, before, first, STUDENT_HISTORY_SPEC);
      EnsureOnlineIsSafe(first, STUDENT_HISTORY_SPEC);
      var second := EnsureOnline(first, STUDENT_HISTORY_SPEC);
      assert Lookup(second.catalog, HISTORY_SPEC.canonicalName) == Lookup(first.catalog, HISTORY_SPEC.canonicalName);
      assert Lookup(second.catalog, HISTORY_SPEC.buildName) == Lookup(first.catalog, HISTORY_SPEC.buildName);
      hide EnsureOnline, Keeps, IsExpected;
      QueryKeeps(c0, before, second);
    }
  }

  lemma MigrationKeeps(s: Session, lockFree: bool)
    ensures KeepsThroughout(s.world.catalog, s.world, Migrate(s, lockFree).world)
  {
    var c0, w := s.world.catalog, s.world;
    var w1 := Query(w);
    QueryKeeps(c0, w, w);
    var w2 := Query(w1);
    QueryKeeps(c0, w, w1);
    var w3 := Query(w2);
    QueryKeeps(c0, w, w2);
    QueryKeeps(c0, w, w3);
    var w4 := Work(w3);
    WorkOutcome(c0, w, w3);
    QueryKeeps(c0, w, w4);
    var w5 := Query(w4).(failed := w4.failed || Query(w4).failed);
    QueryKeeps(c0, w, w5);
    hide Work, Keeps, Completed;
  }

  /** One session, with any effects: it keeps what the catalog had at every moment, and returns normally only with
      both indexes in place, both builds gone, the lock released and the timeout restored. */
  lemma MigrationOutcome(s: Session, lockFree: bool)
    requires !s.lockedHere
    ensures KeepsThroughout(s.world.catalog, s.world, Migrate(s, lockFree).world)
    ensures !Migrate(s, lockFree).world.failed ==>
              Completed(Migrate(s, lockFree).world.catalog) &&
              !Migrate(s, lockFree).lockedHere && Migrate(s, lockFree).timeout == s.timeout
  {
    MigrationKeeps(s, lockFree);
    var w3 := Query(Query(Query(s.world)));
    SelfKept(w3);
    WorkOutcome(w3.catalog, w3, w3);
    hide Work, Keeps, KeepsThroughout, Completed;
  }

  lemma SelfKept(w: World)
    ensures KeepsThroughout(w.catalog, w, w)
  {}

  /** A session whose statements all succeed fails only for want of the lock or for a foreign index. */
  lemma HealthySessionOutcome(s: Session)
    requires s.world.script == [] && s.timeout != ""
    ensures Migrate(s, true).world.failed <==> !NoForeignIndex(s.world.catalog)
    ensures Migrate(s, false).world.failed
  {
    NamesDiffer();
    var w := Query(Query(Query(s.world)));
    hide EnsureOnline;
    HealthyRunSucceeds(w, HISTORY_SPEC);
    EnsureOnlineIsSafe(w, HISTORY_SPEC);
    var first := EnsureOnline(w, HISTORY_SPEC);
    HealthyRunSucceeds(first, STUDENT_HISTORY_SPEC);
    assert forall n | n != HISTORY_SPEC.canonicalName && n != HISTORY_SPEC.buildName ::
        Lookup(first.catalog, n) == Lookup(w.catalog, n);
  }

  // ---- Any number of crashed sessions ----

  /** One session: what its statements did, whether the lock was free, and the client's statement_timeout. */
  datatype Attempt = Attempt(script: seq<Effect>, lockFree: bool, timeout: string)

  function Attempted(c: Catalog, a: Attempt): World {
    Migrate(Session(World(c, false, a.script, []), false, a.timeout), a.lockFree).world
  }

  function AfterSessions(c: Catalog, attempts: seq<Attempt>): Catalog
    decreases |attempts|
  {
    if attempts == [] then c else AfterSessions(Attempted(c, attempts[0]).catalog, attempts[1..])
  }

  /** Every catalog the sessions passed through, statement by statement. */
  function History(c: Catalog, attempts: seq<Attempt>): seq<Catalog>
    decreases |attempts|
  {
    if attempts == [] then []
    else Attempted(c, attempts[0]).history + History(Attempted(c, attempts[0]).catalog, attempts[1..])
  }

  lemma AttemptKeeps(c: Catalog, a: Attempt)
    ensures Keeps(c, Attempted(c, a).catalog)
    ensures forall i | 0 <= i < |Attempted(c, a).history| :: Keeps(c, Attempted(c, a).history[i])
  {
    MigrationOutcome(Session(World(c, false, a.script, []), false, a.timeout), a.lockFree);
    hide Migrate, Keeps;
  }

  /** No moment of any number of sessions lacks an access path that existed at their beginning, or finds a foreign
      index changed. */
  lemma {:induction false} SessionsKeep(c: Catalog, attempts: seq<Attempt>)
    ensures Keeps(c, AfterSessions(c, attempts))
    ensures forall i | 0 <= i < |History(c, attempts)| :: Keeps(c, History(c, attempts)[i])
    decreases |attempts|
  {
    if attempts != [] {
      var first, rest := Attempted(c, attempts[0]), attempts[1..];
      var later := History(first.catalog, rest);
      AttemptKeeps(c, attempts[0]);
      SessionsKeep(first.catalog, rest);
      KeepsTransitively(c, first.catalog, AfterSessions(first.catalog, rest));
      forall i | 0 <= i < |later| ensures Keeps(c, later[i]) { KeepsTransitively(c, first.catalog, later[i]); }
      hide Keeps, Attempted;
    }
  }

  /** Whatever any number of earlier sessions left behind, failing at whichever statements, the first healthy session
      completes both replacements, unless a foreign index stood under one of the four names from the start; and at
      every moment of the whole history the access paths of its beginning are there. */
  lemma CrashedSessionsConverge(c: Catalog, attempts: seq<Attempt>, timeout: string)
    requires timeout != ""
    ensures var healthy := Attempt([], true, timeout);
            var end := Attempted(AfterSessions(c, attempts), healthy);
            && (!end.failed <==> NoForeignIndex(c))
            && (NoForeignIndex(c) ==> Completed(end.catalog))
            && Keeps(c, end.catalog)
            && (forall i | 0 <= i < |History(c, attempts)| :: Keeps(c, History(c, attempts)[i]))
            && (forall i | 0 <= i < |end.history| :: Keeps(c, end.history[i]))
  {
    var left, healthy := AfterSessions(c, attempts), Attempt([], true, timeout);
    var end := Attempted(left, healthy);
    SessionsKeep(c, attempts);
    HealthySessionOutcome(Session(World(left, false, [], []), false, timeout));
    MigrationOutcome(Session(World(left, false, [], []), false, timeout), true);
    AttemptKeeps(left, healthy);
    assert NoForeignIndex(c) <==> NoForeignIndex(left);
    hide Migrate;
    KeepsTransitively(c, left, end.catalog);
    forall i | 0 <= i < |end.history| ensures Keeps(c, end.history[i]) { KeepsTransitively(c, left, end.history[i]); }
  }

  // ---- In the catalog's own fields ----

  /** A session that returns normally leaves both indexes under their names, live, valid and ready over their columns
      with the newest timestamp first, and neither build. */
  lemma SuccessInFields(s: Session, lockFree: bool)
    requires !s.lockedHere && !Migrate(s, lockFree).world.failed
    ensures var c := Migrate(s, lockFree).world.catalog;
            && "heartbeats_school_device_timestamp_idx" in c
            && var i := c["heartbeats_school_device_timestamp_idx"];
               && i.live && i.valid && i.ready && !i.unique && i.tableName == "heartbeats"
               && i.keyColumns == ["school_id", "device_id", "timestamp"] && i.keyDescending == [false, false, true]
    ensures var c := Migrate(s, lockFree).world.catalog;
            && "heartbeats_school_device_student_timestamp_idx" in c
            && var i := c["heartbeats_school_device_student_timestamp_idx"];
               && i.live && i.valid && i.ready && !i.unique && i.tableName == "heartbeats"
               && i.keyColumns == ["school_id", "device_id", "student_id", "timestamp"]
               && i.keyDescending == [false, false, false, true]
    ensures var c := Migrate(s, lockFree).world.catalog;
            && "heartbeats_school_device_timestamp_desc_build_idx" !in c
            && "heartbeats_school_device_student_timestamp_build_idx" !in c
  {
    MigrationOutcome(s, lockFree);
    hide Migrate, KeepsThroughout;
  }

  /** Whatever happens, an index on another table, owned by a constraint or unique is found unchanged at every moment,
      and so is any index under another name. */
  lemma ForeignIndexesStay(c: Catalog, attempts: seq<Attempt>, n: string, i: int)
    requires n in c && 0 <= i < |History(c, attempts)|
    requires || c[n].tableName != "heartbeats" || c[n].constraintOwned || c[n].unique
             || (n != "heartbeats_school_device_timestamp_idx" && n != "heartbeats_school_device_student_timestamp_idx" &&
                 n != "heartbeats_school_device_timestamp_desc_build_idx" &&
                 n != "heartbeats_school_device_student_timestamp_build_idx")
    ensures n in History(c, attempts)[i] && History(c, attempts)[i][n] == c[n]
  {
    SessionsKeep(c, attempts);
    assert Keeps(c, History(c, attempts)[i]);
    assert Lookup(History(c, attempts)[i], n) == Lookup(c, n);
  }

  /** ANALYZE runs last, also when both indexes were there already: if it fails the session fails, and the next session
      tries it again. */
  lemma AnalyzeRunsLast(s: Session)
    requires !s.lockedHere && s.timeout != "" && Completed(s.world.catalog)
    requires s.world.script == [Succeeds, Succeeds, Succeeds, Succeeds, Succeeds, Succeeds, Succeeds, FailsUnchanged]
    ensures Migrate(s, true).world.failed && Completed(Migrate(s, true).world.catalog)
    ensures !Migrate(s, true).lockedHere && Migrate(s, true).timeout == s.timeout
  {
    NamesDiffer();
    var script := s.world.script;
    var w := Query(Query(Query(s.world)));
    assert w.script == script[3..] && w.catalog == s.world.catalog && !w.failed;
    StandingIndexNeedsTwoLooks(w, HISTORY_SPEC);
    var first := EnsureOnline(w, HISTORY_SPEC);
    assert first.script == script[5..];
    StandingIndexNeedsTwoLooks(first, STUDENT_HISTORY_SPEC);
    var second := EnsureOnline(first, STUDENT_HISTORY_SPEC);
    assert second.script == script[7..];
    assert Upcoming(second) == FailsUnchanged;
    hide EnsureOnline, Completed;
  }

  lemma StandingIndexNeedsTwoLooks(w: World, spec: Spec)
    requires |w.script| >= 2 && w.script[0] == Succeeds && w.script[1] == Succeeds
    requires IsExpected(Lookup(w.catalog, spec.canonicalName), spec) && spec.buildName !in w.catalog
    ensures var after := EnsureOnline(w, spec);
            !after.failed && after.catalog == w.catalog && after.script == w.script[2..]
  {}
}
