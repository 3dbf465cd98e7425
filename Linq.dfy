/**
 * The part of LINQ-to-Entities that the services rely on, over a table held
 * as a sequence of rows in storage order: Any, FirstOrDefault (and the row
 * position it finds), Where and Select, plus the row removal that
 * `Remove` + `SaveChanges` performs, and facts about keys that are distinct
 * across rows (primary keys and unique indexes).
 */
module Linq {

  datatype Option<T> = None | Some(value: T)

  /** Enumerable.Any: some row satisfies `p`. */
  function Any<T>(s: seq<T>, p: T -> bool): (r: bool)
    ensures r <==> exists x :: x in s && p(x)
  {
    if |s| == 0 then false
    else
      assert s == [s[0]] + s[1..];
      p(s[0]) || Any(s[1..], p)
  }

  /** Position of the first row satisfying `p`, in storage order. */
  function FirstIndex<T>(s: seq<T>, p: T -> bool): (r: Option<nat>)
    ensures r.None? <==> forall x :: x in s ==> !p(x)
    ensures r.Some? ==> r.value < |s| && p(s[r.value])
    ensures r.Some? ==> forall j :: 0 <= j < r.value ==> !p(s[j])
  {
    if |s| == 0 then None
    else if p(s[0]) then Some(0)
    else
      assert s == [s[0]] + s[1..];
      match FirstIndex(s[1..], p)
      case None => None
      case Some(i) => Some(i + 1)
  }

  /** Enumerable.FirstOrDefault: the first row satisfying `p`, or nothing. */
  function FirstOrDefault<T>(s: seq<T>, p: T -> bool): (r: Option<T>)
    ensures r.None? <==> forall x :: x in s ==> !p(x)
    ensures r.Some? ==> r.value in s && p(r.value)
    ensures r.Some? ==> exists i :: 0 <= i < |s| && s[i] == r.value && forall j :: 0 <= j < i ==> !p(s[j])
  {
    match FirstIndex(s, p)
    case None => None
    case Some(i) => Some(s[i])
  }

  /** Enumerable.Where: the rows satisfying `p`, in storage order. */
  function Where<T>(s: seq<T>, p: T -> bool): (r: seq<T>)
    ensures |r| <= |s|
    ensures forall x :: x in r ==> x in s && p(x)
    ensures forall x :: x in s && p(x) ==> x in r
  {
    if |s| == 0 then []
    else
      assert s == [s[0]] + s[1..];
      (if p(s[0]) then [s[0]] else []) + Where(s[1..], p)
  }

  /** Enumerable.Select: the projection of every row, in order. */
  function Select<T, U>(s: seq<T>, f: T -> U): (r: seq<U>)
    ensures |r| == |s|
    ensures forall x :: x in s ==> f(x) in r
    ensures forall y :: y in r ==> exists x :: x in s && y == f(x)
  {
    if |s| == 0 then []
    else
      assert s == [s[0]] + s[1..];
      [f(s[0])] + Select(s[1..], f)
  }

  /** The table left after deleting the row at position `i`. */
  function RemoveAt<T>(s: seq<T>, i: nat): (r: seq<T>)
    requires i < |s|
    ensures |r| == |s| - 1
    ensures forall j :: 0 <= j < i ==> r[j] == s[j]
    ensures forall j :: i <= j < |r| ==> r[j] == s[j + 1]
  {
    s[..i] + s[i + 1..]
  }

  /** No two rows share a key. */
  ghost predicate DistinctBy<T, K>(s: seq<T>, key: T -> K)
  {
    forall i, j :: 0 <= i < |s| && 0 <= j < |s| && i != j ==> key(s[i]) != key(s[j])
  }

  /** Under a distinct key, a row is determined by its key. */
  lemma DistinctKeyDetermines<T, K>(s: seq<T>, key: T -> K, x: T, y: T)
    requires DistinctBy(s, key)
    requires x in s && y in s && key(x) == key(y)
    ensures x == y
  {
    var i :| 0 <= i < |s| && s[i] == x;
    var j :| 0 <= j < |s| && s[j] == y;
    assert i == j;
  }

  /** Appending a row whose key is new keeps the key distinct. */
  lemma DistinctByAppend<T, K>(s: seq<T>, key: T -> K, x: T)
    requires DistinctBy(s, key)
    requires forall y :: y in s ==> key(y) != key(x)
    ensures DistinctBy(s + [x], key)
  {
    var t := s + [x];
    forall i, j | 0 <= i < |t| && 0 <= j < |t| && i != j
      ensures key(t[i]) != key(t[j])
    {
      if i == |s| {
        assert t[j] in s;
      } else if j == |s| {
        assert t[i] in s;
      }
    }
  }

  /** Replacing one row by a row whose key no other row has keeps the key distinct. */
  lemma DistinctByUpdate<T, K>(s: seq<T>, key: T -> K, i: nat, x: T)
    requires DistinctBy(s, key) && i < |s|
    requires forall j :: 0 <= j < |s| && j != i ==> key(s[j]) != key(x)
    ensures DistinctBy(s[i := x], key)
  {
  }

  /** Deleting a row keeps a key distinct; exactly the rows with another key remain. */
  lemma {:induction false} DistinctByRemoveAt<T, K>(s: seq<T>, key: T -> K, i: nat)
    requires DistinctBy(s, key) && i < |s|
    ensures DistinctBy(RemoveAt(s, i), key)
    ensures forall x :: x in RemoveAt(s, i) <==> x in s && key(x) != key(s[i])
  {
    var r := RemoveAt(s, i);
    forall a, b | 0 <= a < |r| && 0 <= b < |r| && a != b
      ensures key(r[a]) != key(r[b])
    {
      var a' := if a < i then a else a + 1;
      var b' := if b < i then b else b + 1;
      assert r[a] == s[a'] && r[b] == s[b'];
    }
    forall x
      ensures x in r <==> x in s && key(x) != key(s[i])
    {
      if x in r {
        var a :| 0 <= a < |r| && r[a] == x;
        var a' := if a < i then a else a + 1;
        assert r[a] == s[a'] && a' != i;
      }
      if x in s && key(x) != key(s[i]) {
        var a' :| 0 <= a' < |s| && s[a'] == x;
        assert a' != i;
        var a := if a' < i then a' else a' - 1;
        assert r[a] == x;
      }
    }
  }
}
