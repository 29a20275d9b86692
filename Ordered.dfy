/**
 * Sequences whose elements are listed in strictly increasing order of a key.
 * The generator appends its optional items in a fixed order; these lemmas turn
 * "which items are present" plus "listed in key order" into the exact list.
 */
module Ordered {

  ghost predicate IncreasingBy<T>(s: seq<T>, key: T -> int) {
    forall i, j :: 0 <= i < j < |s| ==> key(s[i]) < key(s[j])
  }

  /** Two key-ordered sequences with the same members are equal. */
  lemma {:induction false} UniqueByMembers<T>(a: seq<T>, b: seq<T>, key: T -> int)
    requires IncreasingBy(a, key) && IncreasingBy(b, key)
    requires forall x :: x in a <==> x in b
    ensures a == b
    decreases |a|
  {
    if |a| == 0 || |b| == 0 {
      NoMembersEmpty(a);
      NoMembersEmpty(b);
    } else {
      assert a[0] in b;
      var j :| 0 <= j < |b| && b[j] == a[0];
      assert b[0] in a;
      var i :| 0 <= i < |a| && a[i] == b[0];
      assert key(a[i]) <= key(a[0]);
      assert i == 0;
      forall x ensures x in a[1..] <==> x in b[1..] {
        if x in a[1..] {
          var k :| 1 <= k < |a| && a[k] == x;
          assert key(a[0]) < key(a[k]);
          assert x in b;
          var m :| 0 <= m < |b| && b[m] == x;
          assert m != 0;
          assert b[1..][m - 1] == x;
        }
        if x in b[1..] {
          var k :| 1 <= k < |b| && b[k] == x;
          assert key(b[0]) < key(b[k]);
          assert x in a;
          var m :| 0 <= m < |a| && a[m] == x;
          assert m != 0;
          assert a[1..][m - 1] == x;
        }
      }
      UniqueByMembers(a[1..], b[1..], key);
      assert a == [a[0]] + a[1..];
      assert b == [b[0]] + b[1..];
    }
  }

  lemma NoMembersEmpty<T>(s: seq<T>)
    ensures (forall x :: x !in s) ==> s == []
  {
    if s != [] {
      assert s[0] in s;
    }
  }

  /** Appending an element whose key exceeds every key so far keeps the order. */
  lemma AppendIncreasing<T>(s: seq<T>, x: T, key: T -> int)
    requires IncreasingBy(s, key)
    requires forall k :: 0 <= k < |s| ==> key(s[k]) < key(x)
    ensures IncreasingBy(s + [x], key)
  {
    var t := s + [x];
    forall i, j | 0 <= i < j < |t| ensures key(t[i]) < key(t[j]) {
      if j == |s| {
        assert t[i] == s[i];
      } else {
        assert t[i] == s[i] && t[j] == s[j];
      }
    }
  }

  /** Appending up to three optional elements of increasing key keeps the order. */
  lemma {:induction false} OptionalAppendsIncreasing<T>(s: seq<T>, x1: T, b1: bool, x2: T, b2: bool, x3: T, b3: bool, key: T -> int)
    requires IncreasingBy(s, key)
    requires forall k :: 0 <= k < |s| ==> key(s[k]) < key(x1)
    requires key(x1) < key(x2) < key(x3)
    ensures IncreasingBy(s + (if b1 then [x1] else []) + (if b2 then [x2] else []) + (if b3 then [x3] else []), key)
  {
    var s1 := s + (if b1 then [x1] else []);
    var s2 := s1 + (if b2 then [x2] else []);
    if b1 { AppendIncreasing(s, x1, key); }
    assert forall k :: 0 <= k < |s1| ==> key(s1[k]) < key(x2);
    if b2 { AppendIncreasing(s1, x2, key); }
    assert forall k :: 0 <= k < |s2| ==> key(s2[k]) < key(x3);
    if b3 { AppendIncreasing(s2, x3, key); }
  }

  /** A key-ordered sequence whose keys lie in [lo, hi] has at most hi - lo + 1 elements. */
  lemma {:induction false} BoundedKeysLength<T>(s: seq<T>, key: T -> int, lo: int, hi: int)
    requires IncreasingBy(s, key)
    requires forall x :: x in s ==> lo <= key(x) <= hi
    ensures |s| <= if hi < lo then 0 else hi - lo + 1
    decreases |s|
  {
    if |s| > 0 {
      assert s[0] in s;
      forall x | x in s[1..] ensures key(s[0]) + 1 <= key(x) <= hi {
        var k :| 1 <= k < |s| && s[k] == x;
        assert key(s[0]) < key(s[k]);
      }
      assert IncreasingBy(s[1..], key) by {
        forall i, j | 0 <= i < j < |s[1..]| ensures key(s[1..][i]) < key(s[1..][j]) {
          assert s[1..][i] == s[i + 1] && s[1..][j] == s[j + 1];
        }
      }
      BoundedKeysLength(s[1..], key, key(s[0]) + 1, hi);
    }
  }
}
