/**
 * Facts about the list operations every repository and the class section repeat:
 * the first-match linear search, key uniqueness, removal of one entry, and the
 * list of keys of a list of entities.
 */
module Listas {

  /** Index of the first element equal to `x`, or `|s|` when there is none. */
  function FirstIndex<T(==)>(s: seq<T>, x: T): (i: nat)
    ensures i <= |s|
    ensures i < |s| ==> s[i] == x
    ensures forall j :: 0 <= j < i ==> s[j] != x
  {
    if s == [] then 0
    else if s[0] == x then 0
    else 1 + FirstIndex(s[1..], x)
  }

  /** No two positions hold the same value. */
  predicate Distinct<T(==)>(s: seq<T>) {
    forall i, j :: 0 <= i < j < |s| ==> s[i] != s[j]
  }

  /** The list without its `i`-th entry, the rest in the same order (Java's `List.remove`). */
  function RemoveAt<T>(s: seq<T>, i: nat): (r: seq<T>)
    requires i < |s|
    ensures |r| == |s| - 1
    ensures forall j :: 0 <= j < i ==> r[j] == s[j]
    ensures forall j :: i <= j < |r| ==> r[j] == s[j + 1]
  {
    s[..i] + s[i + 1..]
  }

  /** The keys of a list of entities, position by position. */
  function Keys<T, K>(s: seq<T>, key: T -> K): (ks: seq<K>)
    ensures |ks| == |s|
    ensures forall i :: 0 <= i < |s| ==> ks[i] == key(s[i])
  {
    seq(|s|, i requires 0 <= i < |s| => key(s[i]))
  }

  lemma KeysAppend<T, K>(s: seq<T>, x: T, key: T -> K)
    ensures Keys(s + [x], key) == Keys(s, key) + [key(x)]
  {
    assert Keys(s + [x], key)[|s|] == key(x);
  }

  lemma KeysRemoveAt<T, K>(s: seq<T>, i: nat, key: T -> K)
    requires i < |s|
    ensures Keys(RemoveAt(s, i), key) == RemoveAt(Keys(s, key), i)
  {
  }

  lemma KeysUpdate<T, K>(s: seq<T>, i: nat, x: T, key: T -> K)
    requires i < |s|
    ensures Keys(s[i := x], key) == Keys(s, key)[i := key(x)]
  {
  }

  /** Appending keeps the keys distinct exactly when the new key is not there yet. */
  lemma DistinctAppend<T>(s: seq<T>, x: T)
    ensures Distinct(s + [x]) <==> Distinct(s) && x !in s
  {
    var t := s + [x];
    if x in s {
      var k :| 0 <= k < |s| && s[k] == x;
      assert t[k] == t[|s|];
    } else if Distinct(t) {
      forall i, j | 0 <= i < j < |s| ensures s[i] != s[j] {
        assert t[i] == s[i] && t[j] == s[j];
      }
    }
  }

  /** Removing an entry keeps the keys distinct, and the removed key is then gone. */
  lemma DistinctRemoveAt<T>(s: seq<T>, i: nat)
    requires i < |s| && Distinct(s)
    ensures Distinct(RemoveAt(s, i))
    ensures s[i] !in RemoveAt(s, i)
    ensures forall x :: x in RemoveAt(s, i) <==> x in s && x != s[i]
  {
    var r := RemoveAt(s, i);
    forall a, b | 0 <= a < b < |r| ensures r[a] != r[b] {
      var a' := if a < i then a else a + 1;
      var b' := if b < i then b else b + 1;
      assert r[a] == s[a'] && r[b] == s[b'] && a' < b';
    }
    forall x ensures x in r <==> x in s && x != s[i] {
      if x in s && x != s[i] {
        var k :| 0 <= k < |s| && s[k] == x;
        assert k != i;
        assert r[if k < i then k else k - 1] == x;
      }
    }
  }

  /**
   * Overwriting the key at `i` keeps the keys distinct exactly when the new key
   * is the old one or is not used anywhere.
   */
  lemma DistinctUpdate<T>(s: seq<T>, i: nat, x: T)
    requires i < |s| && Distinct(s)
    ensures Distinct(s[i := x]) <==> x == s[i] || x !in s
  {
    var t := s[i := x];
    if x != s[i] && x in s {
      var k :| 0 <= k < |s| && s[k] == x;
      assert k != i && t[k] == t[i];
      if k < i { assert !Distinct(t); } else { assert !Distinct(t); }
    }
  }

  /** After appending a fresh key, the first match of that key is the new last position. */
  lemma FirstIndexAppendFresh<T>(s: seq<T>, x: T)
    requires x !in s
    ensures FirstIndex(s + [x], x) == |s|
  {
    var t := s + [x];
    assert t[|s|] == x;
    assert forall j :: 0 <= j < |s| ==> t[j] == s[j];
  }

  /** Java's `List.remove(Object)`: drops the first element equal to `x`, if any. */
  function RemoveFirst<T(==)>(s: seq<T>, x: T): (r: seq<T>)
    ensures x in s ==> r == RemoveAt(s, FirstIndex(s, x))
    ensures x !in s ==> r == s
  {
    var i := FirstIndex(s, x);
    if i < |s| then s[..i] + s[i + 1..] else s
  }

  /**
   * The element a first-match search by key finds is also the first element equal
   * to it, so removing that element removes exactly the position the search found.
   */
  lemma RemoveFirstAtKey<T, K>(s: seq<T>, key: T -> K, k: K)
    requires FirstIndex(Keys(s, key), k) < |s|
    ensures var i := FirstIndex(Keys(s, key), k);
            FirstIndex(s, s[i]) == i && RemoveFirst(s, s[i]) == RemoveAt(s, i)
  {
  }
}
