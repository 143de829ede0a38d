/** Two identities of one person are folded into one while a partial unique index over the active rows holds. */
module Consolidation {
  import opened Ranking

  /** Duplicate student id -> keeper student id. */
  type Mapping = map<int, int>

  /** COALESCE(mapping.keeper_id, owner). */
  function Canon(m: Mapping, owner: int): int {
    if owner in m then m[owner] else owner
  }

  predicate Affected(m: Mapping, owner: int) {
    owner in m || owner in m.Values
  }

  predicate Separated(m: Mapping) {
    m.Keys !! m.Values
  }

  /** The partial unique index: no two active rows share owner and slot. */
  predicate OnePerSlot(active: map<int, Ranked>) {
    forall i, j | i in active && j in active && i != j :: !SamePartition(active[i], active[j])
  }

  /** The `ranked` common table expression. */
  function RankInput(active: map<int, Ranked>, m: Mapping): map<int, Ranked> {
    map i | i in active && Affected(m, active[i].owner) :: active[i].(owner := Canon(m, active[i].owner))
  }

  /** The ids the retiring statement updates: ordinal > 1. */
  function Losers(active: map<int, Ranked>, m: Mapping): set<int> {
    var ranked := RankInput(active, m);
    set i | i in ranked && RowNumber(ranked, i) > 1
  }

  /** FIRST_VALUE(id) over a ranked row's partition. */
  function Winner(active: map<int, Ranked>, m: Mapping, i: int): (w: int)
    requires TieFree(active) && i in active && Affected(m, active[i].owner)
    ensures w in active
  {
    FirstValue(RankInput(active, m), i)
  }

  /** The active rows once a set of rows has been re-parented, in whatever order they were visited. */
  function Reparented(active: map<int, Ranked>, m: Mapping, done: set<int>): map<int, Ranked> {
    map i | i in active :: if i in done then active[i].(owner := Canon(m, active[i].owner)) else active[i]
  }

  /** Row j stands before row i when both identities are read as one. */
  predicate Beats(active: map<int, Ranked>, m: Mapping, j: int, i: int) {
    j in active && i in active &&
    Canon(m, active[j].owner) == Canon(m, active[i].owner) &&
    active[j].slot == active[i].slot && Before(active[j].key, active[i].key)
  }

  lemma CanonKeepsAffected(m: Mapping, a: int, b: int)
    requires Separated(m) && Canon(m, a) == Canon(m, b)
    ensures Affected(m, a) <==> Affected(m, b)
    ensures !Affected(m, a) ==> a == b
  {
    if a in m { assert m[a] in m.Values; }
    if b in m { assert m[b] in m.Values; }
  }

  /** A row is retired exactly when another active row of the same person and slot stands before it. */
  lemma LoserIff(active: map<int, Ranked>, m: Mapping, i: int)
    requires Separated(m) && TieFree(active) && i in active
    ensures i in Losers(active, m) <==>
            Affected(m, active[i].owner) && exists j :: Beats(active, m, j, i)
  {
    var ranked := RankInput(active, m);
    if Affected(m, active[i].owner) {
      RowNumberOne(ranked, i);
      forall j | Beats(active, m, j, i) ensures j in ranked {
        CanonKeepsAffected(m, active[j].owner, active[i].owner);
      }
      assert forall j :: Beats(active, m, j, i) <==>
          j in ranked && SamePartition(ranked[j], ranked[i]) && Before(ranked[j].key, ranked[i].key);
    }
  }

  /** The row a retired row points at survives, belongs to the same person and slot, and no row beats it. */
  lemma WinnerSurvives(active: map<int, Ranked>, m: Mapping, i: int)
    requires Separated(m) && TieFree(active) && i in active && Affected(m, active[i].owner)
    ensures var w := Winner(active, m, i);
            && w !in Losers(active, m)
            && Canon(m, active[w].owner) == Canon(m, active[i].owner)
            && active[w].slot == active[i].slot
            && (w == i || Beats(active, m, w, i))
            && forall j :: !Beats(active, m, j, w)
  {
    var ranked := RankInput(active, m);
    var w := FirstValue(ranked, i);
    assert ranked[w].owner == ranked[i].owner && ranked[w].slot == ranked[i].slot;
    assert PartitionKeys(ranked, w).Keys == PartitionKeys(ranked, i).Keys;
    assert PartitionKeys(ranked, w) == PartitionKeys(ranked, i);
    RowNumberOne(ranked, w);
    LoserIff(active, m, w);
    if w != i {
      assert i in PartitionKeys(ranked, i);
    }
    CanonKeepsAffected(m, active[i].owner, active[w].owner);
  }

  /** After the losers are retired, no two active rows of one slot belong to one person. */
  lemma SurvivorsAreDistinct(active: map<int, Ranked>, m: Mapping, i: int, j: int)
    requires Separated(m) && TieFree(active) && OnePerSlot(active)
    requires i in active && j in active && i != j && i !in Losers(active, m) && j !in Losers(active, m)
    ensures Canon(m, active[i].owner) != Canon(m, active[j].owner) || active[i].slot != active[j].slot
  {
    if Canon(m, active[i].owner) == Canon(m, active[j].owner) && active[i].slot == active[j].slot {
      assert Beats(active, m, i, j) || Beats(active, m, j, i);
      CanonKeepsAffected(m, active[i].owner, active[j].owner);
      LoserIff(active, m, i);
      LoserIff(active, m, j);
    }
  }

  /** The partial unique index is never violated, whichever rows have been retired so far. */
  lemma RetiringKeepsIndex(active: map<int, Ranked>, retired: set<int>)
    requires OnePerSlot(active)
    ensures OnePerSlot(active - retired)
  {}

  /** No two active rows of one slot belong to one person. */
  predicate OnePerPerson(active: map<int, Ranked>, m: Mapping) {
    forall i, j | i in active && j in active && i != j ::
      Canon(m, active[i].owner) != Canon(m, active[j].owner) || active[i].slot != active[j].slot
  }

  /** Re-parenting row after row keeps the index, in whatever order, exactly when no two active rows of one slot belong
      to one person; otherwise it fails at the last row at the latest. Hence the ranking. */
  lemma ReparentingKeepsIndexIff(active: map<int, Ranked>, m: Mapping)
    requires Separated(m) && OnePerSlot(active)
    ensures OnePerPerson(active, m) <==> forall done: set<int> :: OnePerSlot(Reparented(active, m, done))
    ensures OnePerPerson(active, m) <==> OnePerSlot(Reparented(active, m, active.Keys))
  {
    if OnePerPerson(active, m) {
      forall done: set<int> ensures OnePerSlot(Reparented(active, m, done)) {
        ReparentingKeepsIndexOf(active, m, done);
      }
    }
    var all := Reparented(active, m, active.Keys);
    if OnePerSlot(all) {
      forall i, j | i in active && j in active && i != j
        ensures Canon(m, active[i].owner) != Canon(m, active[j].owner) || active[i].slot != active[j].slot
      {
        assert !SamePartition(all[i], all[j]);
      }
    }
  }

  lemma ReparentingKeepsIndexOf(active: map<int, Ranked>, m: Mapping, done: set<int>)
    requires Separated(m) && OnePerSlot(active) && OnePerPerson(active, m)
    ensures OnePerSlot(Reparented(active, m, done))
  {
    var after := Reparented(active, m, done);
    forall i, j | i in after && j in after && i != j ensures !SamePartition(after[i], after[j]) {
      CanonTwice(m, active[i].owner);
      CanonTwice(m, active[j].owner);
      assert Canon(m, active[i].owner) != Canon(m, active[j].owner) || active[i].slot != active[j].slot;
    }
  }

  lemma CanonTwice(m: Mapping, owner: int)
    requires Separated(m)
    ensures Canon(m, Canon(m, owner)) == Canon(m, owner)
  {
    if owner in m { assert m[owner] in m.Values; }
  }

  /** Once the losers are retired, re-parenting the survivors is therefore safe. */
  lemma ReparentingKeepsIndex(active: map<int, Ranked>, m: Mapping, done: set<int>)
    requires Separated(m) && TieFree(active) && OnePerSlot(active)
    ensures OnePerPerson(active - Losers(active, m), m)
    ensures OnePerSlot(Reparented(active - Losers(active, m), m, done))
  {
    var left := active - Losers(active, m);
    forall i, j | i in left && j in left && i != j
      ensures Canon(m, left[i].owner) != Canon(m, left[j].owner) || left[i].slot != left[j].slot
    {
      SurvivorsAreDistinct(active, m, i, j);
    }
    RetiringKeepsIndex(active, Losers(active, m));
    ReparentingKeepsIndexOf(left, m, done);
  }
}
