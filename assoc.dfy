// Filling a dictionary in a loop, `d[k] = v` for each entry that survives a
// filter: the later of two entries with one key wins, and keys nobody writes
// keep their value.
module Assoc {
  import opened Wrappers

  /** Applies `d[k] = v` for every `Some((k, v))`, in order, starting from `init`. */
  function Fold<K(==), V>(init: map<K, V>, entries: seq<Option<(K, V)>>): map<K, V>
  {
    if |entries| == 0 then init
    else
      var m := Fold(init, entries[..|entries| - 1]);
      match entries[|entries| - 1]
      case None => m
      case Some(kv) => m[kv.0 := kv.1]
  }

  /** The entry written at position `i`, if any, has key `k`. */
  predicate WritesKey<K(==), V>(entries: seq<Option<(K, V)>>, i: int, k: K) {
    0 <= i < |entries| && entries[i].Some? && entries[i].value.0 == k
  }

  /** A key ends up present iff it was there at the start or some entry writes it. */
  lemma {:induction false} FoldKeys<K, V>(init: map<K, V>, entries: seq<Option<(K, V)>>, k: K)
    ensures k in Fold(init, entries) <==> k in init || exists i :: WritesKey(entries, i, k)
  {
    if |entries| > 0 {
      var front := entries[..|entries| - 1];
      FoldKeys(init, front, k);
      if WritesKey(entries, |entries| - 1, k) {
        assert k in Fold(init, entries);
      }
      if exists i :: WritesKey(front, i, k) {
        var i :| WritesKey(front, i, k);
        assert WritesKey(entries, i, k);
      }
      if exists i :: WritesKey(entries, i, k) {
        var i :| WritesKey(entries, i, k);
        if i < |entries| - 1 {
          assert WritesKey(front, i, k);
        }
      }
    }
  }

  /** The value of a written key is the one of the last entry that writes it. */
  lemma {:induction false} FoldLastWins<K, V>(init: map<K, V>, entries: seq<Option<(K, V)>>, i: int)
    requires 0 <= i < |entries| && entries[i].Some?
    requires forall j :: i < j < |entries| ==> !WritesKey(entries, j, entries[i].value.0)
    ensures entries[i].value.0 in Fold(init, entries)
    ensures Fold(init, entries)[entries[i].value.0] == entries[i].value.1
  {
    var front := entries[..|entries| - 1];
    if i < |entries| - 1 {
      forall j | i < j < |front| ensures !WritesKey(front, j, entries[i].value.0) {
        assert !WritesKey(entries, j, entries[i].value.0);
      }
      FoldLastWins(init, front, i);
      assert !WritesKey(entries, |entries| - 1, entries[i].value.0);
    }
  }

  /** A key that no entry writes keeps its initial value. */
  lemma {:induction false} FoldUntouched<K, V>(init: map<K, V>, entries: seq<Option<(K, V)>>, k: K)
    requires k in init
    requires forall j :: 0 <= j < |entries| ==> !WritesKey(entries, j, k)
    ensures k in Fold(init, entries) && Fold(init, entries)[k] == init[k]
  {
    if |entries| > 0 {
      var front := entries[..|entries| - 1];
      forall j | 0 <= j < |front| ensures !WritesKey(front, j, k) {
        assert !WritesKey(entries, j, k);
      }
      FoldUntouched(init, front, k);
      assert !WritesKey(entries, |entries| - 1, k);
    }
  }

  /** Folding the entries one more step: what a loop body does. */
  lemma FoldSnoc<K, V>(init: map<K, V>, entries: seq<Option<(K, V)>>, e: Option<(K, V)>)
    ensures Fold(init, entries + [e]) == (match e case None => Fold(init, entries) case Some(kv) => Fold(init, entries)[kv.0 := kv.1])
  {
    assert (entries + [e])[..|entries|] == entries;
  }
}
