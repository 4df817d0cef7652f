/**
 * Sequences used as insertion-ordered sets (Kotlin's mutableSetOf is a
 * LinkedHashSet) and as lists from which one element is removed.
 */
module Seqs {

  /** No element occurs twice. */
  predicate Distinct<T(==)>(s: seq<T>)
  {
    forall i, j :: 0 <= i < j < |s| ==> s[i] != s[j]
  }

  /** The list with every occurrence of x removed (Kotlin's `-=` on a set, `remove` on a list of distinct items). */
  function Without<T(==)>(s: seq<T>, x: T): (r: seq<T>)
    ensures forall i :: 0 <= i < |r| ==> r[i] in s && r[i] != x
    ensures forall i :: 0 <= i < |s| && s[i] != x ==> s[i] in r
    ensures |r| <= |s|
    ensures x !in s ==> r == s
  {
    if s == [] then []
    else if s[0] == x then Without(s[1..], x)
    else [s[0]] + Without(s[1..], x)
  }

  lemma {:induction false} WithoutDistinct<T>(s: seq<T>, x: T)
    requires Distinct(s)
    ensures Distinct(Without(s, x))
    ensures x in s ==> |Without(s, x)| == |s| - 1
  {
    if s != [] {
      assert Distinct(s[1..]);
      WithoutDistinct(s[1..], x);
      if s[0] != x {
        var r := [s[0]] + Without(s[1..], x);
        forall i, j | 0 <= i < j < |r|
          ensures r[i] != r[j]
        {
          if i == 0 {
            assert r[j] in Without(s[1..], x);
          }
        }
      } else {
        assert x !in s[1..];
      }
    }
  }

  lemma AppendAssoc<T>(a: seq<T>, b: seq<T>, c: seq<T>)
    ensures (a + b) + c == a + (b + c)
  {
  }

  /** Four pieces appended one after another to `x` are `x` followed by the four pieces together. */
  lemma AppendFour<T>(x: seq<T>, a: seq<T>, b: seq<T>, c: seq<T>, d: seq<T>)
    ensures x + a + b + c + d == x + (a + b + c + d)
    ensures (x + (a + b + c + d))[|x|..] == a + b + c + d
  {
  }

  lemma AppendDistinct<T>(s: seq<T>, x: T)
    requires Distinct(s) && x !in s
    ensures Distinct(s + [x])
  {
  }

  /** The position of the first occurrence of x. */
  function IndexOf<T(==)>(s: seq<T>, x: T): (i: nat)
    requires x in s
    ensures i < |s| && s[i] == x && x !in s[..i]
  {
    if s[0] == x then 0
    else
      var j := IndexOf(s[1..], x);
      assert s[..j + 1] == [s[0]] + s[1..][..j];
      j + 1
  }

  /** What Without keeps, element by element: everything but x. */
  lemma WithoutMembership<T>(s: seq<T>, x: T, y: T)
    ensures y in Without(s, x) <==> y in s && y != x
  {
    if y in Without(s, x) {
      var i :| 0 <= i < |Without(s, x)| && Without(s, x)[i] == y;
    }
    if y in s && y != x {
      var i :| 0 <= i < |s| && s[i] == y;
    }
  }

  /** Kotlin's `list - x`: the list without the first occurrence of x. */
  function RemoveFirst<T(==)>(s: seq<T>, x: T): seq<T>
  {
    if x in s then s[..IndexOf(s, x)] + s[IndexOf(s, x) + 1..] else s
  }

  /** Removing the first occurrence past the head keeps the head. */
  lemma RemoveFirstPastHead<T>(s: seq<T>, x: T)
    requires s != [] && s[0] != x && x in s[1..]
    ensures RemoveFirst(s, x) == [s[0]] + RemoveFirst(s[1..], x)
  {
    var t := s[1..];
    var j := IndexOf(t, x);
    assert IndexOf(s, x) == j + 1;
    assert s[..j + 1] == [s[0]] + t[..j];
    assert s[j + 2..] == t[j + 1..];
    AppendAssoc([s[0]], t[..j], t[j + 1..]);
  }

  /** On a duplicate-free list removing the first occurrence removes every occurrence. */
  lemma RemoveFirstDistinct<T>(s: seq<T>, x: T)
    requires Distinct(s)
    ensures RemoveFirst(s, x) == Without(s, x)
  {
    if s != [] {
      var t := s[1..];
      assert Distinct(t);
      RemoveFirstDistinct(t, x);
      if s[0] == x {
        assert x !in t;
        assert s[..0] + s[1..] == t;
      } else if x in t {
        RemoveFirstPastHead(s, x);
      }
    }
  }
}
