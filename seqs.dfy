/** Sequence and map facts shared by the queue-handling systems. */
module Seqs {

  /** The elements of a sequence, as a set. */
  function Elements<T>(s: seq<T>): set<T> {
    set x | x in s
  }

  /** No element occurs twice. */
  predicate Distinct<T(==)>(s: seq<T>) {
    forall i, j :: 0 <= i < j < |s| ==> s[i] != s[j]
  }

  lemma DistinctAppend<T>(a: seq<T>, b: seq<T>)
    requires Distinct(a) && Distinct(b)
    requires forall x :: x in a ==> x !in b
    ensures Distinct(a + b)
  {
    forall i, j | 0 <= i < j < |a + b|
      ensures (a + b)[i] != (a + b)[j]
    {
      if j < |a| {
      } else if i < |a| {
        assert (a + b)[i] in a;
        assert (a + b)[j] == b[j - |a|];
      } else {
        assert (a + b)[i] == b[i - |a|] && (a + b)[j] == b[j - |a|];
      }
    }
  }

  /** Extending a sequence by one element keeps it distinct exactly when the element is new. */
  lemma DistinctSnoc<T>(s: seq<T>, x: T)
    ensures Distinct(s + [x]) <==> Distinct(s) && x !in s
  {
    if Distinct(s) && x !in s {
      DistinctAppend(s, [x]);
    }
    if Distinct(s + [x]) {
      assert forall i :: 0 <= i < |s| ==> (s + [x])[i] == s[i];
      forall i | 0 <= i < |s|
        ensures s[i] != x
      {
        assert (s + [x])[|s|] == x;
      }
    }
  }

  lemma ElementsSnoc<T>(s: seq<T>, x: T)
    ensures Elements(s + [x]) == Elements(s) + {x}
  {
  }

  /** One more element of a prefix adds that element. */
  lemma ElementsPrefixStep<T>(s: seq<T>, i: nat)
    requires i < |s|
    ensures Elements(s[..i + 1]) == Elements(s[..i]) + {s[i]}
  {
    assert s[..i + 1] == s[..i] + [s[i]];
    ElementsSnoc(s[..i], s[i]);
  }

  /** Adding keys one at a time on top of a base map. */
  lemma UnionUpdate<K, V>(a: map<K, V>, b: map<K, V>, k: K, v: V)
    ensures (a + b)[k := v] == a + b[k := v]
  {
  }

  /** An update is a union with a one-key map. */
  lemma UpdateIsUnion<K, V>(a: map<K, V>, k: K, v: V)
    ensures a[k := v] == a + map[k := v]
  {
  }

  lemma UnionAssoc<K, V>(a: map<K, V>, b: map<K, V>, c: map<K, V>)
    ensures (a + b) + c == a + (b + c)
  {
  }

  /** Removing keys one at a time. */
  lemma MinusOneMore<K, V>(m: map<K, V>, s: set<K>, k: K)
    ensures (m - s) - {k} == m - (s + {k})
  {
  }

  /** In a distinct sequence, an element does not occur before its own position. */
  lemma DistinctFresh<T>(s: seq<T>, i: nat)
    requires Distinct(s) && i < |s|
    ensures s[i] !in s[..i]
  {
  }

  lemma AppendAssoc<T>(a: seq<T>, b: seq<T>, c: seq<T>)
    ensures a + b + c == a + (b + c)
  {
  }
}
