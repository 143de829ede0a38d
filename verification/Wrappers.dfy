/** Optional values (nullable columns, absent fields), and loops over sets. */
module Wrappers {
  datatype Option<+T> = None | Some(value: T) {
    function Else(fallback: T): T {
      if Some? then value else fallback
    }
  }

  /** What a loop over a set in arbitrary order takes its next member from. */
  lemma SomeMember(s: set<int>)
    ensures s == {} || exists x :: x in s
  {
    if forall x :: x !in s { assert s == {}; }
  }
}
