/** Small shared datatypes. */
module Common {

  datatype Option<+T> = None | Some(value: T)

  /** The value stored under a key, the way `Map.get` or `findById` reports it. */
  function Find<K, V>(m: map<K, V>, k: K): Option<V> {
    if k in m then Some(m[k]) else None
  }

  predicate IncludesAt(s: string, i: nat, sub: string) {
    i + |sub| <= |s| && s[i..i + |sub|] == sub
  }

  /** `s.includes(sub)`. */
  predicate Includes(s: string, sub: string) {
    exists i :: 0 <= i <= |s| && IncludesAt(s, i, sub)
  }

  /** That is, sub stands in s between some a and some b. */
  lemma IncludesMeaning(s: string, sub: string)
    ensures Includes(s, sub) <==> exists a, b :: s == a + sub + b
  {
    if Includes(s, sub) {
      var i :| 0 <= i <= |s| && IncludesAt(s, i, sub);
      assert s == s[..i] + sub + s[i + |sub|..];
    }
    if a, b :| s == a + sub + b {
      assert IncludesAt(s, |a|, sub);
    }
  }
}
