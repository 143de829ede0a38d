/** Online replacement of the heartbeat history indexes over a catalog, where any statement may fail half-way. */
module HeartbeatIndex {
  import opened Wrappers

  /** `definitionKeys` is the column list pg_get_indexdef ends with, white space collapsed and case folded. */
  datatype IndexState = IndexState(
    accessMethod: string, definitionKeys: string, live: bool, ready: bool, unique: bool, valid: bool,
    constraintOwned: bool, plain: bool, keyColumns: seq<string>, keyDescending: seq<bool>, keyCount: int,
    totalColumnCount: int, tableName: string)

  datatype Spec = Spec(buildName: string, canonicalName: string, keyColumns: seq<string>, keyDescending: seq<bool>,
                       definitionPrefix: string)

  const HISTORY_SPEC := Spec(
    "heartbeats_school_device_timestamp_desc_build_idx", "heartbeats_school_device_timestamp_idx",
    ["school_id", "device_id", "timestamp"], [false, false, true], "school_id, device_id, ")

  const STUDENT_HISTORY_SPEC := Spec(
    "heartbeats_school_device_student_timestamp_build_idx", "heartbeats_school_device_student_timestamp_idx",
    ["school_id", "device_id", "student_id", "timestamp"], [false, false, false, true],
    "school_id, device_id, student_id, ")

  type Catalog = map<string, IndexState>

  function Lookup(c: Catalog, name: string): Option<IndexState> {
    if name in c then Some(c[name]) else None
  }

  /** One column list the definition pattern matches: each quote and the NULLS FIRST suffix are optional. */
  function Definition(spec: Spec, openQuote: bool, closeQuote: bool, nullsFirst: bool): string {
    spec.definitionPrefix + (if openQuote then "\"" else "") + "timestamp" + (if closeQuote then "\"" else "") +
    " desc" + (if nullsFirst then " nulls first" else "")
  }

  predicate IsExpected(state: Option<IndexState>, spec: Spec) {
    state.Some? &&
    var i := state.value;
    i.ready && i.valid && i.live && !i.unique && !i.constraintOwned && i.plain &&
    i.accessMethod == "btree" && i.tableName == "heartbeats" &&
    i.keyCount == |spec.keyColumns| && i.totalColumnCount == |spec.keyColumns| &&
    i.keyColumns == spec.keyColumns && i.keyDescending == spec.keyDescending &&
    exists o: bool, c: bool, n: bool :: i.definitionKeys == Definition(spec, o, c, n)
  }

  /** assertHeartbeatIndexOwnership does not throw. */
  predicate Replaceable(state: Option<IndexState>) {
    state.Some? ==> state.value.tableName == "heartbeats" && !state.value.constraintOwned && !state.value.unique
  }

  /** The index a successful CREATE INDEX CONCURRENTLY leaves. */
  function Created(spec: Spec): IndexState {
    IndexState("btree", Definition(spec, true, true, false), true, true, false, true, false, true,
               spec.keyColumns, spec.keyDescending, |spec.keyColumns|, |spec.keyColumns|, "heartbeats")
  }

  // ---- Statements that may fail ----

  /** What the database does with one statement. A failed one may have had no effect, have left an invalid index
      under the same name, or have taken effect although the client sees an error. */
  datatype Effect = Succeeds | FailsUnchanged | FailsHalfway(ready: bool, live: bool) | FailsApplied

  /** The migration's client: what it has done to the catalog so far, whether an exception is propagating, and the
      effects still to come; once the script is used up every statement succeeds. */
  datatype World = World(catalog: Catalog, failed: bool, script: seq<Effect>, history: seq<Catalog>)

  function Upcoming(w: World): Effect {
    if w.script == [] then Succeeds else w.script[0]
  }

  function Statement(w: World, applied: Catalog, halfway: Catalog): World {
    var after := match Upcoming(w)
                 case Succeeds => applied
                 case FailsUnchanged => w.catalog
                 case FailsHalfway(_, _) => halfway
                 case FailsApplied => applied;
    World(after, !Upcoming(w).Succeeds?, if w.script == [] then [] else w.script[1..], w.history + [after])
  }

  function Query(w: World): World {
    Statement(w, w.catalog, w.catalog)
  }

  function Invalidated(i: IndexState, effect: Effect): IndexState {
    if effect.FailsHalfway? then i.(valid := false, ready := effect.ready, live := effect.live) else i
  }

  /** DROP INDEX CONCURRENTLY IF EXISTS. */
  function DropIndex(w: World, name: string): World {
    Statement(w, w.catalog - {name},
              if name in w.catalog then w.catalog[name := Invalidated(w.catalog[name], Upcoming(w))] else w.catalog)
  }

  /** CREATE INDEX CONCURRENTLY; an existing relation of that name makes it fail without effect. */
  function CreateIndex(w: World, spec: Spec): World {
    if spec.buildName in w.catalog then Query(w).(failed := true)
    else Statement(w, w.catalog[spec.buildName := Created(spec)],
                   w.catalog[spec.buildName := Invalidated(Created(spec), Upcoming(w))])
  }

  /** ALTER INDEX ... RENAME: atomic; fails without effect when the source is missing or the target exists. */
  function RenameIndex(w: World, from: string, to: string): World {
    if from !in w.catalog || to in w.catalog then Query(w).(failed := true)
    else Statement(w, (w.catalog - {from})[to := w.catalog[from]], w.catalog)
  }

  // ---- ensureHeartbeatIndexOnline ----

  function EnsureOnline(w: World, spec: Spec): World {
    var w1 := Query(w);
    var canonical := Lookup(w1.catalog, spec.canonicalName);
    if w1.failed then w1
    else if !Replaceable(canonical) then w1.(failed := true)
    else if IsExpected(canonical, spec) then RemoveStaleBuild(w1, spec)
    else Rebuild(w1, spec)
  }

  function RemoveStaleBuild(w: World, spec: Spec): World {
    var w1 := Query(w);
    var stale := Lookup(w1.catalog, spec.buildName);
    if w1.failed then w1
    else if !Replaceable(stale) then w1.(failed := true)
    else if stale.Some? then DropIndex(w1, spec.buildName)
    else w1
  }

  function Rebuild(w: World, spec: Spec): World {
    var w1 := Query(w);
    var build := Lookup(w1.catalog, spec.buildName);
    if w1.failed then w1
    else if !Replaceable(build) then w1.(failed := true)
    else
      var w2 := if build.Some? && !IsExpected(build, spec) then DropIndex(w1, spec.buildName) else w1;
      if w2.failed then w2
      else if build.Some? && IsExpected(build, spec) then SwapIn(w2, spec)
      else
        var w3 := CreateIndex(w2, spec);
        if w3.failed then w3
        else
          var w4 := Query(w3);
          if w4.failed then w4
          else if !IsExpected(Lookup(w4.catalog, spec.buildName), spec) then w4.(failed := true)
          else SwapIn(w4, spec)
  }

  /** The build is expected: drop a malformed canonical index, rename, verify. */
  function SwapIn(w: World, spec: Spec): World {
    var w1 := if spec.canonicalName in w.catalog then DropIndex(w, spec.canonicalName) else w;
    if w1.failed then w1
    else
      var w2 := RenameIndex(w1, spec.buildName, spec.canonicalName);
      if w2.failed then w2
      else
        var w3 := Query(w2);
        if w3.failed then w3
        else w3.(failed := !IsExpected(Lookup(w3.catalog, spec.canonicalName), spec))
  }

  // ---- What holds at every moment ----

  predicate HasAccessPath(c: Catalog, spec: Spec) {
    IsExpected(Lookup(c, spec.canonicalName), spec) || IsExpected(Lookup(c, spec.buildName), spec)
  }

  /** A catalog this run may pass through when it started from c0. */
  ghost predicate Safe(c0: Catalog, c: Catalog, spec: Spec) {
    (HasAccessPath(c0, spec) ==> HasAccessPath(c, spec)) &&
    (Lookup(c, spec.canonicalName) == Lookup(c0, spec.canonicalName) || HasAccessPath(c, spec)) &&
    (forall n | !Replaceable(Lookup(c0, n)) || (n != spec.canonicalName && n != spec.buildName) ::
       Lookup(c, n) == Lookup(c0, n)) &&
    (forall n | Replaceable(Lookup(c0, n)) :: Replaceable(Lookup(c, n)))
  }

  /** `after` continues `before`: its new history, and its catalog, are safe with respect to c0. */
  ghost predicate Continues(c0: Catalog, before: World, after: World, spec: Spec) {
    before.history <= after.history && Safe(c0, after.catalog, spec) &&
    forall i | |before.history| <= i < |after.history| :: Safe(c0, after.history[i], spec)
  }

  lemma StatementContinues(c0: Catalog, w: World, applied: Catalog, halfway: Catalog, spec: Spec)
    requires Safe(c0, w.catalog, spec) && Safe(c0, applied, spec) && Safe(c0, halfway, spec)
    ensures Continues(c0, w, Statement(w, applied, halfway), spec)
  {}

  lemma ChainContinues(c0: Catalog, a: World, b: World, c: World, spec: Spec)
    requires Continues(c0, a, b, spec) && Continues(c0, b, c, spec)
    ensures Continues(c0, a, c, spec)
  {}

  lemma DroppingBuildContinues(c0: Catalog, w: World, spec: Spec)
    requires spec.buildName != spec.canonicalName && Safe(c0, w.catalog, spec)
    requires Lookup(w.catalog, spec.canonicalName) == Lookup(c0, spec.canonicalName)
    requires Replaceable(Lookup(c0, spec.buildName))
    requires IsExpected(Lookup(w.catalog, spec.canonicalName), spec) || !HasAccessPath(c0, spec)
    ensures Continues(c0, w, DropIndex(w, spec.buildName), spec)
    ensures Lookup(DropIndex(w, spec.buildName).catalog, spec.canonicalName) == Lookup(c0, spec.canonicalName)
  {
    var halfway := if spec.buildName in w.catalog
                   then w.catalog[spec.buildName := Invalidated(w.catalog[spec.buildName], Upcoming(w))] else w.catalog;
    assert Replaceable(Lookup(w.catalog, spec.buildName));
    StatementContinues(c0, w, w.catalog - {spec.buildName}, halfway, spec);
  }

  lemma CreatingBuildContinues(c0: Catalog, w: World, spec: Spec)
    requires spec.buildName != spec.canonicalName && Safe(c0, w.catalog, spec)
    requires Lookup(w.catalog, spec.canonicalName) == Lookup(c0, spec.canonicalName)
    requires Replaceable(Lookup(c0, spec.buildName)) && !HasAccessPath(c0, spec)
    ensures Continues(c0, w, CreateIndex(w, spec), spec)
    ensures Lookup(CreateIndex(w, spec).catalog, spec.canonicalName) == Lookup(c0, spec.canonicalName)
  {
    if spec.buildName !in w.catalog {
      StatementContinues(c0, w, w.catalog[spec.buildName := Created(spec)],
                         w.catalog[spec.buildName := Invalidated(Created(spec), Upcoming(w))], spec);
    }
  }

  /** From an expected build on, the build or the renamed canonical index is expected at every moment. */
  lemma SwappingContinues(c0: Catalog, w: World, spec: Spec)
    requires spec.buildName != spec.canonicalName && Safe(c0, w.catalog, spec)
    requires Replaceable(Lookup(c0, spec.canonicalName)) && Replaceable(Lookup(c0, spec.buildName))
    requires IsExpected(Lookup(w.catalog, spec.buildName), spec)
    ensures Continues(c0, w, SwapIn(w, spec), spec)
    ensures !SwapIn(w, spec).failed ==>
              IsExpected(Lookup(SwapIn(w, spec).catalog, spec.canonicalName), spec) &&
              spec.buildName !in SwapIn(w, spec).catalog
  {
    var name := spec.canonicalName;
    var w1 := if name in w.catalog then DropIndex(w, name) else w;
    if name in w.catalog { DroppingCanonicalContinues(c0, w, spec); }
    if !w1.failed {
      var w2 := RenameIndex(w1, spec.buildName, name);
      RenamingContinues(c0, w1, spec);
      ChainContinues(c0, w, w1, w2, spec);
      ChainContinues(c0, w, w2, Query(w2), spec);
      hide Safe;
    }
  }

  lemma DroppingCanonicalContinues(c0: Catalog, w: World, spec: Spec)
    requires spec.buildName != spec.canonicalName && Safe(c0, w.catalog, spec) && spec.canonicalName in w.catalog
    requires Replaceable(Lookup(c0, spec.canonicalName)) && IsExpected(Lookup(w.catalog, spec.buildName), spec)
    ensures var after := DropIndex(w, spec.canonicalName);
            && Continues(c0, w, after, spec) && IsExpected(Lookup(after.catalog, spec.buildName), spec)
            && (!after.failed ==> spec.canonicalName !in after.catalog)
  {
    var name := spec.canonicalName;
    assert Replaceable(Lookup(w.catalog, name));
    StatementContinues(c0, w, w.catalog - {name}, w.catalog[name := Invalidated(w.catalog[name], Upcoming(w))], spec);
  }

  lemma RenamingContinues(c0: Catalog, w: World, spec: Spec)
    requires spec.buildName != spec.canonicalName && Safe(c0, w.catalog, spec) && spec.canonicalName !in w.catalog
    requires Replaceable(Lookup(c0, spec.canonicalName)) && Replaceable(Lookup(c0, spec.buildName))
    requires IsExpected(Lookup(w.catalog, spec.buildName), spec)
    ensures var after := RenameIndex(w, spec.buildName, spec.canonicalName);
            && Continues(c0, w, after, spec)
            && (!after.failed ==> IsExpected(Lookup(after.catalog, spec.canonicalName), spec) &&
                                  spec.buildName !in after.catalog)
  {
    StatementContinues(c0, w, (w.catalog - {spec.buildName})[spec.canonicalName := w.catalog[spec.buildName]],
                       w.catalog, spec);
  }

  lemma RebuildingContinues(c0: Catalog, w: World, spec: Spec)
    requires spec.buildName != spec.canonicalName && w.catalog == c0
    requires Replaceable(Lookup(c0, spec.canonicalName)) && !IsExpected(Lookup(c0, spec.canonicalName), spec)
    ensures Continues(c0, w, Rebuild(w, spec), spec)
    ensures !Rebuild(w, spec).failed ==>
              IsExpected(Lookup(Rebuild(w, spec).catalog, spec.canonicalName), spec) &&
              spec.buildName !in Rebuild(w, spec).catalog
  {
    var w1 := Query(w);
    var build := Lookup(c0, spec.buildName);
    if !w1.failed && Replaceable(build) {
      if IsExpected(build, spec) {
        SwappingContinues(c0, w1, spec);
        ChainContinues(c0, w, w1, SwapIn(w1, spec), spec);
      } else {
        var w2 := if build.Some? then DropIndex(w1, spec.buildName) else w1;
        if build.Some? { DroppingBuildContinues(c0, w1, spec); }
        ChainContinues(c0, w, w1, w2, spec);
        if !w2.failed {
          var w3 := CreateIndex(w2, spec);
          CreatingBuildContinues(c0, w2, spec);
          ChainContinues(c0, w, w2, w3, spec);
          var w4 := Query(w3);
          ChainContinues(c0, w, w3, w4, spec);
          if !w3.failed && !w4.failed && IsExpected(Lookup(w4.catalog, spec.buildName), spec) {
            SwappingContinues(c0, w4, spec);
            ChainContinues(c0, w, w4, SwapIn(w4, spec), spec);
          }
        }
      }
    }
  }

  /** One run, with any effects: every catalog it passes through keeps an expected access path if there was one,
      touches the canonical index only while an expected one exists, leaves every index alone that is unique,
      constraint-owned, on another table or under another name, and reports success only with the canonical index
      expected and the build gone. */
  lemma EnsureOnlineIsSafe(w: World, spec: Spec)
    requires spec.buildName != spec.canonicalName
    ensures Continues(w.catalog, w, EnsureOnline(w, spec), spec)
    ensures !EnsureOnline(w, spec).failed ==>
              IsExpected(Lookup(EnsureOnline(w, spec).catalog, spec.canonicalName), spec) &&
              spec.buildName !in EnsureOnline(w, spec).catalog
  {
    var c0, w1 := w.catalog, Query(w);
    var canonical := Lookup(c0, spec.canonicalName);
    if !w1.failed && Replaceable(canonical) {
      if IsExpected(canonical, spec) {
        var w2 := Query(w1);
        ChainContinues(c0, w, w1, w2, spec);
        if !w2.failed && Replaceable(Lookup(c0, spec.buildName)) && spec.buildName in c0 {
          DroppingBuildContinues(c0, w2, spec);
          ChainContinues(c0, w, w2, DropIndex(w2, spec.buildName), spec);
        }
      } else {
        RebuildingContinues(c0, w1, spec);
        ChainContinues(c0, w, w1, Rebuild(w1, spec), spec);
      }
    }
  }

  /** With statements that all succeed, only a foreign index under one of the two names can make a run fail. */
  lemma HealthyRunSucceeds(w: World, spec: Spec)
    requires spec.buildName != spec.canonicalName && w.script == []
    ensures EnsureOnline(w, spec).script == []
    ensures EnsureOnline(w, spec).failed <==>
              !Replaceable(Lookup(w.catalog, spec.canonicalName)) || !Replaceable(Lookup(w.catalog, spec.buildName))
  {
    assert IsExpected(Some(Created(spec)), spec);
  }

  // ---- The predicates in the catalog's own fields ----

  /** An index passes for the canonical one only as a live, valid, ready, plain btree on heartbeats over exactly the
      specified columns and directions, not unique and owned by no constraint. */
  lemma ExpectedInFields(i: IndexState, spec: Spec)
    ensures IsExpected(Some(i), spec) ==>
              && i.ready && i.valid && i.live && !i.unique && !i.constraintOwned && i.plain
              && i.accessMethod == "btree" && i.tableName == "heartbeats"
              && i.keyColumns == spec.keyColumns && i.keyDescending == spec.keyDescending
              && i.keyCount == |spec.keyColumns| == i.totalColumnCount
              && spec.definitionPrefix <= i.definitionKeys
    ensures !IsExpected(None, spec)
  {}

  /** What CREATE INDEX CONCURRENTLY leaves is expected when it succeeds, and never when it fails half-way. */
  lemma HalfwayIsNeverExpected(i: IndexState, ready: bool, live: bool, spec: Spec)
    ensures !IsExpected(Some(Invalidated(i, FailsHalfway(ready, live))), spec)
    ensures IsExpected(Some(Created(spec)), spec)
  {}

  /** A DROP or CREATE that fails half-way leaves an index of that name which is not valid. */
  lemma HalfwayStatementsLeaveInvalid(w: World, spec: Spec, name: string, ready: bool, live: bool)
    requires w.script != [] && w.script[0] == FailsHalfway(ready, live)
    ensures var after := DropIndex(w, name);
            after.failed && (name in w.catalog ==> name in after.catalog && !after.catalog[name].valid)
    ensures spec.buildName !in w.catalog ==>
              var after := CreateIndex(w, spec);
              after.failed && spec.buildName in after.catalog && !after.catalog[spec.buildName].valid
  {}

  /** An index on another table, owned by a constraint or unique is never replaced, and only such a one is kept. */
  lemma ReplaceableInFields(i: IndexState)
    ensures Replaceable(Some(i)) <==> i.tableName == "heartbeats" && !i.constraintOwned && !i.unique
    ensures Replaceable(None)
  {}
}
