/**
 * Last-write-wins merge of one string-keyed dictionary into another: the
 * update that both `updateLeafset` and `langutil.extend` perform key by key.
 */
module MapMerge {

  /** `m` with every entry of `n` written over it. */
  function Overwrite<K, V>(m: map<K, V>, n: map<K, V>): (r: map<K, V>)
    ensures r.Keys == m.Keys + n.Keys
    ensures forall k :: k in n ==> r[k] == n[k]
    ensures forall k :: k in m && k !in n ==> r[k] == m[k]
  {
    m + n
  }

  /** Writing the same entries a second time changes nothing. */
  lemma OverwriteIdempotent<K, V>(m: map<K, V>, n: map<K, V>)
    ensures Overwrite(Overwrite(m, n), n) == Overwrite(m, n)
  {
  }

  /** Nothing is ever removed, and the result is at least as large as either input. */
  lemma OverwriteGrows<K, V>(m: map<K, V>, n: map<K, V>)
    ensures m.Keys <= Overwrite(m, n).Keys && n.Keys <= Overwrite(m, n).Keys
    ensures |m| <= |Overwrite(m, n)| && |n| <= |Overwrite(m, n)|
  {
    var r := Overwrite(m, n);
    SubsetSize(m.Keys, r.Keys);
    SubsetSize(n.Keys, r.Keys);
    assert |r.Keys| == |r| && |m.Keys| == |m| && |n.Keys| == |n|;
  }

  lemma {:induction false} SubsetSize<K>(a: set<K>, b: set<K>)
    requires a <= b
    ensures |a| <= |b|
    decreases |a|
  {
    if a != {} {
      var x :| x in a;
      SubsetSize(a - {x}, b - {x});
    }
  }
}
