/** ensureHeartbeatIndexOnline as the migration's client runs it, statement by statement. */
module HeartbeatClient {
  import opened Wrappers
  import opened HeartbeatIndex

  /** A method's result is false when its statement throws. */
  class MigrationClient {
    var catalog: Catalog
    var failed: bool
    var script: seq<Effect>
    ghost var history: seq<Catalog>

    ghost function View(): World
      reads this
    {
      World(catalog, failed, script, history)
    }

    constructor (c: Catalog, effects: seq<Effect>)
      ensures View() == World(c, false, effects, [])
    {
      catalog, failed, script, history := c, false, effects, [];
    }

    method Execute(applied: Catalog, halfway: Catalog) returns (ok: bool)
      modifies this
      ensures View() == Statement(old(View()), applied, halfway) && ok == !failed
    {
      var effect := Succeeds;
      if script != [] {
        effect, script := script[0], script[1..];
      }
      match effect {
        case Succeeds => catalog := applied;
        case FailsUnchanged =>
        case FailsHalfway(_, _) => catalog := halfway;
        case FailsApplied => catalog := applied;
      }
      failed := !effect.Succeeds?;
      history := history + [catalog];
      ok := !failed;
    }

    method Inspect(name: string) returns (ok: bool, state: Option<IndexState>)
      modifies this
      ensures View() == Query(old(View())) && ok == !failed && state == Lookup(catalog, name)
    {
      ok := Execute(catalog, catalog);
      state := Lookup(catalog, name);
    }

    method Drop(name: string) returns (ok: bool)
      modifies this
      ensures View() == DropIndex(old(View()), name) && ok == !failed
    {
      var effect := if script == [] then Succeeds else script[0];
      ok := Execute(catalog - {name},
                    if name in catalog then catalog[name := Invalidated(catalog[name], effect)] else catalog);
    }

    method Create(spec: Spec) returns (ok: bool)
      modifies this
      ensures View() == CreateIndex(old(View()), spec) && ok == !failed
    {
      if spec.buildName in catalog {
        ok := Execute(catalog, catalog);
        failed, ok := true, false;
      } else {
        var effect := if script == [] then Succeeds else script[0];
        ok := Execute(catalog[spec.buildName := Created(spec)],
                      catalog[spec.buildName := Invalidated(Created(spec), effect)]);
      }
    }

    method Rename(from: string, to: string) returns (ok: bool)
      modifies this
      ensures View() == RenameIndex(old(View()), from, to) && ok == !failed
    {
      if from !in catalog || to in catalog {
        ok := Execute(catalog, catalog);
        failed, ok := true, false;
      } else {
        ok := Execute((catalog - {from})[to := catalog[from]], catalog);
      }
    }

    method Throw()
      modifies this
      ensures View() == old(View()).(failed := true)
    {
      failed := true;
    }

    /** The last part of the replacement, reached with an expected build; `canonical` is the old index, if any. */
    method SwapInBuild(spec: Spec, canonical: Option<IndexState>)
      requires !failed && (canonical.Some? <==> spec.canonicalName in catalog)
      modifies this
      ensures View() == SwapIn(old(View()), spec)
    {
      hide IsExpected;
      var ok := true;
      if canonical.Some? {
        ok := Drop(spec.canonicalName);
        if !ok { return; }
      }
      ok := Rename(spec.buildName, spec.canonicalName);
      if !ok { return; }
      var verified;
      ok, verified := Inspect(spec.canonicalName);
      if ok { failed := !IsExpected(verified, spec); }
    }

    method RebuildIndex(spec: Spec, canonical: Option<IndexState>)
      requires spec.buildName != spec.canonicalName && canonical == Lookup(catalog, spec.canonicalName)
      modifies this
      ensures View() == Rebuild(old(View()), spec)
    {
      hide IsExpected, SwapIn, Created;
      var ok, build := Inspect(spec.buildName);
      if !ok { return; }
      if !Replaceable(build) { Throw(); return; }
      if build.Some? && !IsExpected(build, spec) {
        ok := Drop(spec.buildName);
        if !ok { return; }
        build := None;
      }
      if build.None? {
        ok := Create(spec);
        if !ok { return; }
        ok, build := Inspect(spec.buildName);
        if !ok { return; }
        if !IsExpected(build, spec) { Throw(); return; }
      }
      SwapInBuild(spec, canonical);
    }

    method EnsureIndexOnline(spec: Spec)
      requires spec.buildName != spec.canonicalName
      modifies this
      ensures View() == EnsureOnline(old(View()), spec)
      ensures Continues(old(catalog), old(View()), View(), spec)
      ensures !failed ==> IsExpected(Lookup(catalog, spec.canonicalName), spec) && spec.buildName !in catalog
    {
      EnsureOnlineIsSafe(View(), spec);
      hide IsExpected, Rebuild, Continues;
      var ok, canonical := Inspect(spec.canonicalName);
      if !ok { return; }
      if !Replaceable(canonical) { Throw(); return; }
      if !IsExpected(canonical, spec) { RebuildIndex(spec, canonical); return; }
      var stale;
      ok, stale := Inspect(spec.buildName);
      if !ok { return; }
      if !Replaceable(stale) { Throw(); return; }
      if stale.Some? { ok := Drop(spec.buildName); }
    }
  }
}
