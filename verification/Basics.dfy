// What every part of the server shares.
module Basics {

  // 0 is nobody.
  type UserId = nat

  datatype Option<T> = None | Some(value: T)

  lemma RemovedFrom<K, V>(m: map<K, V>, ks: set<K>)
    requires ks <= m.Keys
    ensures |m - ks| == |m| - |ks|
  {
    assert (m - ks).Keys == m.Keys - ks;
  }
}
