/** SQL window functions over a finite table: ROW_NUMBER and FIRST_VALUE per partition. */
module Ranking {

  /** The ORDER BY columns of a window, ascending; a descending column is negated. */
  type SortKey = (int, int, int)

  predicate Before(a: SortKey, b: SortKey) {
    a.0 < b.0 || (a.0 == b.0 && (a.1 < b.1 || (a.1 == b.1 && a.2 < b.2)))
  }

  ghost predicate Injective(keys: map<int, SortKey>) {
    forall i, j | i in keys && j in keys && i != j :: keys[i] != keys[j]
  }

  /** The row that no other row precedes. */
  function Earliest(keys: map<int, SortKey>): (first: int)
    requires (exists i :: i in keys) && Injective(keys)
    ensures first in keys
    ensures forall j | j in keys && j != first :: Before(keys[first], keys[j])
  {
    EarliestExists(keys);
    var first :| first in keys && forall j | j in keys && j != first :: Before(keys[first], keys[j]);
    first
  }

  lemma {:induction false} EarliestExists(keys: map<int, SortKey>)
    requires (exists i :: i in keys) && Injective(keys)
    ensures exists f :: f in keys && forall j | j in keys && j != f :: Before(keys[f], keys[j])
    decreases |keys|
  {
    var i :| i in keys;
    var others := keys - {i};
    assert others.Keys == keys.Keys - {i};
    var g := i;
    if k :| k in others {
      EarliestExists(others);
      var f :| f in others && forall j | j in others && j != f :: Before(others[f], others[j]);
      g := if Before(keys[i], keys[f]) then i else f;
    }
    assert forall j | j in keys && j != i :: j in others;
    assert forall j | j in keys && j != g :: Before(keys[g], keys[j]);
  }

  /** One row of a ranked query: PARTITION BY (owner, slot) ORDER BY key. */
  datatype Ranked = Ranked(owner: int, slot: int, key: SortKey)

  predicate SamePartition(a: Ranked, b: Ranked) {
    a.owner == b.owner && a.slot == b.slot
  }

  /** Two rows of a partition never tie: every window here ends its ORDER BY with the primary key. */
  ghost predicate TieFree(rows: map<int, Ranked>) {
    forall i, j | i in rows && j in rows && i != j :: rows[i].key != rows[j].key
  }

  function Predecessors(rows: map<int, Ranked>, id: int): set<int>
    requires id in rows
  {
    set j | j in rows && SamePartition(rows[j], rows[id]) && Before(rows[j].key, rows[id].key)
  }

  /** ROW_NUMBER() of a row. */
  function RowNumber(rows: map<int, Ranked>, id: int): nat
    requires id in rows
  {
    1 + |Predecessors(rows, id)|
  }

  function PartitionKeys(rows: map<int, Ranked>, id: int): map<int, SortKey>
    requires id in rows
  {
    map j | j in rows && SamePartition(rows[j], rows[id]) :: rows[j].key
  }

  /** FIRST_VALUE(id) of a row's partition; RowNumberOne says it is the partition's row number one. */
  function FirstValue(rows: map<int, Ranked>, id: int): (first: int)
    requires id in rows && TieFree(rows)
    ensures first in rows && SamePartition(rows[first], rows[id])
  {
    assert id in PartitionKeys(rows, id);
    Earliest(PartitionKeys(rows, id))
  }

  lemma RowNumberOne(rows: map<int, Ranked>, id: int)
    requires id in rows && TieFree(rows)
    ensures RowNumber(rows, id) == 1 <==> id == FirstValue(rows, id)
    ensures RowNumber(rows, id) > 1 <==>
            exists j :: j in rows && SamePartition(rows[j], rows[id]) && Before(rows[j].key, rows[id].key)
  {
    var first := FirstValue(rows, id);
    if id != first {
      assert id in PartitionKeys(rows, id);
      assert first in Predecessors(rows, id);
    } else {
      forall j | j in rows && SamePartition(rows[j], rows[id]) ensures !Before(rows[j].key, rows[id].key) {
        assert j in PartitionKeys(rows, id);
      }
      assert Predecessors(rows, id) == {};
    }
  }
}
