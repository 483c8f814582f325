/**
 * Python's `sorted(xs, key=key, reverse=True)`: a stable sort by descending key.
 * Ascending order on integers is the same sort with the key negated.
 */
module Sorting {

  predicate Descending<T>(s: seq<T>, key: T -> real) {
    forall i, j :: 0 <= i < j < |s| ==> key(s[i]) >= key(s[j])
  }

  /** Puts `x` in front of the first element whose key is not larger than its own. */
  function Insert<T>(x: T, s: seq<T>, key: T -> real): (r: seq<T>)
    ensures |r| == |s| + 1
    ensures multiset(r) == multiset(s) + multiset{x}
    ensures forall i :: 0 <= i < |r| ==> r[i] == x || r[i] in s
  {
    if |s| == 0 || key(s[0]) <= key(x) then [x] + s
    else
      assert s == [s[0]] + s[1..];
      [s[0]] + Insert(x, s[1..], key)
  }

  lemma {:induction false} InsertDescending<T>(x: T, s: seq<T>, key: T -> real)
    requires Descending(s, key)
    ensures Descending(Insert(x, s, key), key)
  {
    var r := Insert(x, s, key);
    if |s| == 0 || key(s[0]) <= key(x) {
      forall i, j | 0 <= i < j < |r| ensures key(r[i]) >= key(r[j]) {
        if i > 0 {
          assert r[i] == s[i - 1] && r[j] == s[j - 1];
        } else if j > 0 {
          assert r[j] == s[j - 1];
          assert key(s[0]) >= key(s[j - 1]);
        }
      }
    } else {
      var rest := Insert(x, s[1..], key);
      assert Descending(s[1..], key) by {
        forall i, j | 0 <= i < j < |s[1..]| ensures key(s[1..][i]) >= key(s[1..][j]) {
          assert s[1..][i] == s[i + 1] && s[1..][j] == s[j + 1];
        }
      }
      InsertDescending(x, s[1..], key);
      assert r == [s[0]] + rest;
      forall i, j | 0 <= i < j < |r| ensures key(r[i]) >= key(r[j]) {
        if i > 0 {
          assert r[i] == rest[i - 1] && r[j] == rest[j - 1];
        } else {
          assert r[j] == rest[j - 1];
          if rest[j - 1] != x {
            assert rest[j - 1] in s;
            var m :| 0 <= m < |s| && s[m] == rest[j - 1];
            if m > 0 {
              assert key(s[0]) >= key(s[m]);
            }
          }
        }
      }
    }
  }

  /** The result holds the same elements, ordered by descending key. */
  function SortDesc<T>(xs: seq<T>, key: T -> real): (r: seq<T>)
    ensures |r| == |xs|
    ensures multiset(r) == multiset(xs)
    ensures Descending(r, key)
  {
    if |xs| == 0 then []
    else
      assert xs == [xs[0]] + xs[1..];
      var rest := SortDesc(xs[1..], key);
      InsertDescending(xs[0], rest, key);
      Insert(xs[0], rest, key)
  }

  /** The first element of a non-empty sorted result has the largest key of the input. */
  lemma SortDescHeadIsMax<T>(xs: seq<T>, key: T -> real)
    requires |xs| > 0
    ensures forall x :: x in xs ==> key(x) <= key(SortDesc(xs, key)[0])
  {
    var r := SortDesc(xs, key);
    forall x | x in xs ensures key(x) <= key(r[0]) {
      assert x in multiset(r);
      var j :| 0 <= j < |r| && r[j] == x;
      if j > 0 {
        assert key(r[0]) >= key(r[j]);
      }
    }
  }
}
