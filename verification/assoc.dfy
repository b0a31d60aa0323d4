/**
 * Building a map by setting keys one after another, in order, as the
 * frontend does when it fills a lookup map or a tag object row by row:
 * a later entry for a key replaces an earlier one.
 */
module Assoc {
  import opened Wrappers

  /** Sets each pair in turn, starting from `m`. */
  function Fold<K, V>(m: map<K, V>, pairs: seq<(K, V)>): map<K, V>
    decreases |pairs|
  {
    if |pairs| == 0 then m else Fold(m[pairs[0].0 := pairs[0].1], pairs[1..])
  }

  /** The value paired with the last occurrence of `k`, if `k` occurs. */
  function LastValue<K(==), V>(pairs: seq<(K, V)>, k: K): Option<V>
    decreases |pairs|
  {
    if |pairs| == 0 then None
    else if pairs[|pairs| - 1].0 == k then Some(pairs[|pairs| - 1].1)
    else LastValue(pairs[..|pairs| - 1], k)
  }

  lemma {:induction false} FoldSnoc<K, V>(m: map<K, V>, pairs: seq<(K, V)>, p: (K, V))
    ensures Fold(m, pairs + [p]) == Fold(m, pairs)[p.0 := p.1]
    decreases |pairs|
  {
    if |pairs| == 0 {
      assert pairs + [p] == [p];
    } else {
      assert (pairs + [p])[1..] == pairs[1..] + [p];
      FoldSnoc(m[pairs[0].0 := pairs[0].1], pairs[1..], p);
    }
  }

  /**
   * Folding leaves each key bound to the value of its last occurrence; keys
   * that never occur keep their value from `m`.
   */
  lemma {:induction false} FoldLastWins<K, V>(m: map<K, V>, pairs: seq<(K, V)>, k: K)
    ensures k in Fold(m, pairs) <==> k in m || LastValue(pairs, k).Some?
    ensures LastValue(pairs, k).Some? ==> Fold(m, pairs)[k] == LastValue(pairs, k).value
    ensures LastValue(pairs, k).None? && k in m ==> Fold(m, pairs)[k] == m[k]
    decreases |pairs|
  {
    if |pairs| > 0 {
      var init := pairs[..|pairs| - 1];
      var p := pairs[|pairs| - 1];
      assert init + [p] == pairs;
      FoldSnoc(m, init, p);
      FoldLastWins(m, init, k);
    }
  }

  /** A key occurs with a last value exactly when it occurs at all. */
  lemma {:induction false} LastValueOccurs<K, V>(pairs: seq<(K, V)>, k: K)
    ensures LastValue(pairs, k).Some? <==> exists i :: 0 <= i < |pairs| && pairs[i].0 == k
    decreases |pairs|
  {
    if |pairs| > 0 {
      var init := pairs[..|pairs| - 1];
      LastValueOccurs(init, k);
      if LastValue(init, k).Some? {
        var i :| 0 <= i < |init| && init[i].0 == k;
        assert pairs[i].0 == k;
      }
      if exists i :: 0 <= i < |pairs| && pairs[i].0 == k {
        var i :| 0 <= i < |pairs| && pairs[i].0 == k;
        if i < |init| {
          assert init[i].0 == k;
        }
      }
    }
  }
}
