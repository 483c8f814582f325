/** Values shared by every part of the model: optional values, errors, sums and flattening. */
module Common {

  datatype Option<T> = None | Some(value: T) {
    function GetOr(default: T): T {
      if Some? then value else default
    }
  }

  /** A Python call that either returns a value or raises an exception with a message. */
  datatype Result<T> = Ok(value: T) | Err(message: string)

  /** `sum(xs)` over integers. */
  function Sum(xs: seq<int>): int {
    if |xs| == 0 then 0 else Sum(xs[..|xs| - 1]) + xs[|xs| - 1]
  }

  /** `sum(xs)` over reals. */
  function SumReal(xs: seq<real>): real {
    if |xs| == 0 then 0.0 else SumReal(xs[..|xs| - 1]) + xs[|xs| - 1]
  }

  /** `sum(xs) / len(xs)`: only defined where Python would not divide by zero. */
  function Mean(xs: seq<real>): real
    requires |xs| > 0
  {
    SumReal(xs) / (|xs| as real)
  }

  lemma {:induction false} SumAppend(xs: seq<int>, ys: seq<int>)
    ensures Sum(xs + ys) == Sum(xs) + Sum(ys)
  {
    if |ys| > 0 {
      SumAppend(xs, ys[..|ys| - 1]);
      assert (xs + ys)[..|xs + ys| - 1] == xs + ys[..|ys| - 1];
    } else {
      assert xs + ys == xs;
    }
  }

  lemma {:induction false} SumRealAppend(xs: seq<real>, ys: seq<real>)
    ensures SumReal(xs + ys) == SumReal(xs) + SumReal(ys)
  {
    if |ys| > 0 {
      SumRealAppend(xs, ys[..|ys| - 1]);
      assert (xs + ys)[..|xs + ys| - 1] == xs + ys[..|ys| - 1];
    } else {
      assert xs + ys == xs;
    }
  }

  /** Every element lies between the lowest and the highest one, so the mean does too. */
  lemma {:induction false} SumRealBounds(xs: seq<real>, lo: real, hi: real)
    requires forall i :: 0 <= i < |xs| ==> lo <= xs[i] <= hi
    ensures (|xs| as real) * lo <= SumReal(xs) <= (|xs| as real) * hi
  {
    if |xs| > 0 {
      SumRealBounds(xs[..|xs| - 1], lo, hi);
    }
  }

  /** Dividing a sum bounded by `n * lo` and `n * hi` by `n` lands between `lo` and `hi`. */
  lemma DivBounds(s: real, n: real, lo: real, hi: real)
    requires n > 0.0 && n * lo <= s <= n * hi
    ensures lo <= s / n <= hi
  {
    assert s / n * n == s;
  }

  /** All elements equal to `c` sum to `|xs| * c`. */
  lemma {:induction false} SumRealConstant(xs: seq<real>, c: real)
    requires forall i :: 0 <= i < |xs| ==> xs[i] == c
    ensures SumReal(xs) == (|xs| as real) * c
  {
    if |xs| > 0 {
      SumRealConstant(xs[..|xs| - 1], c);
    }
  }

  /** A sum of non-negative terms is zero exactly when every term is zero. */
  lemma {:induction false} SumRealZero(xs: seq<real>)
    requires forall i :: 0 <= i < |xs| ==> xs[i] >= 0.0
    ensures SumReal(xs) >= 0.0
    ensures SumReal(xs) == 0.0 <==> forall i :: 0 <= i < |xs| ==> xs[i] == 0.0
  {
    if |xs| > 0 {
      SumRealZero(xs[..|xs| - 1]);
      if SumReal(xs) == 0.0 {
        forall i | 0 <= i < |xs| ensures xs[i] == 0.0 {
          if i < |xs| - 1 {
            assert xs[..|xs| - 1][i] == xs[i];
          }
        }
      }
    }
  }

  /** The concatenation of a list of lists, as the nested `for ... append` loops build it. */
  function Flatten<T>(xss: seq<seq<T>>): seq<T> {
    if |xss| == 0 then [] else Flatten(xss[..|xss| - 1]) + xss[|xss| - 1]
  }

  lemma {:induction false} FlattenAppend<T>(xss: seq<seq<T>>, yss: seq<seq<T>>)
    ensures Flatten(xss + yss) == Flatten(xss) + Flatten(yss)
  {
    if |yss| > 0 {
      FlattenAppend(xss, yss[..|yss| - 1]);
      assert (xss + yss)[..|xss + yss| - 1] == xss + yss[..|yss| - 1];
    } else {
      assert xss + yss == xss;
    }
  }

  /** Replacing one inner list changes the flattened multiset by exactly that list's difference. */
  lemma {:induction false} FlattenUpdate<T>(xss: seq<seq<T>>, t: nat, ys: seq<T>)
    requires t < |xss|
    ensures multiset(Flatten(xss[t := ys])) + multiset(xss[t]) == multiset(Flatten(xss)) + multiset(ys)
  {
    var n := |xss|;
    var updated := xss[t := ys];
    if t == n - 1 {
      assert updated[..n - 1] == xss[..n - 1];
    } else {
      var init := xss[..n - 1];
      FlattenUpdate(init, t, ys);
      assert updated[..n - 1] == init[t := ys];
      var a := multiset(Flatten(init[t := ys]));
      var b := multiset(Flatten(init));
      var last := multiset(xss[n - 1]);
      assert multiset(Flatten(updated)) == a + last;
      assert multiset(Flatten(xss)) == b + last;
      var oldPart := multiset(xss[t]);
      var newPart := multiset(ys);
      assert a + oldPart == b + newPart by {
        assert init[t] == xss[t];
      }
      assert (a + last) + oldPart == (a + oldPart) + last;
      assert (b + last) + newPart == (b + newPart) + last;
    }
  }

  /** Multiset union cancels on the right. */
  lemma MultisetCancel<T>(a: multiset<T>, b: multiset<T>, c: multiset<T>)
    requires a + c == b + c
    ensures a == b
  {
    forall z ensures a[z] == b[z] {
      assert (a + c)[z] == (b + c)[z];
    }
  }

  /** If swapping `x` for `y` turns `part` into `newPart`, it turns `b` into `a` too. */
  lemma MultisetExchange<T>(a: multiset<T>, b: multiset<T>, part: multiset<T>, newPart: multiset<T>, x: T, y: T)
    requires a + part == b + newPart
    requires newPart + multiset{x} == part + multiset{y}
    ensures a + multiset{x} == b + multiset{y}
  {
    forall z ensures (a + multiset{x})[z] == (b + multiset{y})[z] {
      assert (a + part)[z] == (b + newPart)[z];
      assert (newPart + multiset{x})[z] == (part + multiset{y})[z];
    }
  }

  /** Appending `x` to one inner list adds `x` to the flattened multiset. */
  lemma AppendToOne<T>(xss: seq<seq<T>>, t: nat, x: T)
    requires t < |xss|
    ensures multiset(Flatten(xss[t := xss[t] + [x]])) == multiset(Flatten(xss)) + multiset{x}
  {
    FlattenUpdate(xss, t, xss[t] + [x]);
    var after := multiset(Flatten(xss[t := xss[t] + [x]]));
    var part := multiset(xss[t]);
    var whole := multiset(Flatten(xss));
    assert multiset(xss[t] + [x]) == part + multiset{x};
    assert after + part == (whole + multiset{x}) + part;
    MultisetCancel(after, whole + multiset{x}, part);
  }

  /** An element is in the concatenation exactly when it is in one of the inner lists. */
  lemma {:induction false} InFlatten<T>(xss: seq<seq<T>>, x: T)
    ensures x in Flatten(xss) <==> exists t :: 0 <= t < |xss| && x in xss[t]
  {
    if |xss| > 0 {
      var init := xss[..|xss| - 1];
      InFlatten(init, x);
      if x in Flatten(init) {
        var t :| 0 <= t < |init| && x in init[t];
        assert x in xss[t];
      }
      if exists t :: 0 <= t < |xss| && x in xss[t] {
        var t :| 0 <= t < |xss| && x in xss[t];
        if t < |xss| - 1 {
          assert x in init[t];
        }
      }
    }
  }

  /** Total length of a list of lists. */
  function TotalLength<T>(xss: seq<seq<T>>): nat {
    if |xss| == 0 then 0 else TotalLength(xss[..|xss| - 1]) + |xss[|xss| - 1]|
  }

  lemma {:induction false} FlattenLength<T>(xss: seq<seq<T>>)
    ensures |Flatten(xss)| == TotalLength(xss)
  {
    if |xss| > 0 {
      FlattenLength(xss[..|xss| - 1]);
    }
  }

  /** Position of the first element that fails `ok`, or -1 when none does: where a Python loop raises. */
  function FirstFailing<T>(xs: seq<T>, ok: T -> bool): (i: int)
    ensures -1 <= i < |xs|
    ensures i == -1 <==> forall j :: 0 <= j < |xs| ==> ok(xs[j])
    ensures i >= 0 ==> !ok(xs[i]) && forall j :: 0 <= j < i ==> ok(xs[j])
  {
    if |xs| == 0 then -1
    else if !ok(xs[0]) then 0
    else
      var i := FirstFailing(xs[1..], ok);
      assert forall j :: 1 <= j < |xs| ==> xs[j] == xs[1..][j - 1];
      if i == -1 then -1 else i + 1
  }

  /** Every element mapped through `f`, or `None` as soon as one maps to `None`. */
  function AllSome<A, B>(xs: seq<A>, f: A -> Option<B>): (r: Option<seq<B>>)
    ensures r.Some? ==> |r.value| == |xs|
  {
    if |xs| == 0 then Some([])
    else
      match f(xs[0])
      case None => None
      case Some(y) =>
        match AllSome(xs[1..], f)
        case None => None
        case Some(rest) => Some([y] + rest)
  }

  /** The list maps exactly when each element does, and then element by element. */
  lemma {:induction false} AllSomeMeaning<A, B>(xs: seq<A>, f: A -> Option<B>)
    ensures AllSome(xs, f).Some? <==> forall i :: 0 <= i < |xs| ==> f(xs[i]).Some?
    ensures AllSome(xs, f).Some? ==> forall i :: 0 <= i < |xs| ==> f(xs[i]) == Some(AllSome(xs, f).value[i])
  {
    if |xs| > 0 {
      var tail := xs[1..];
      AllSomeMeaning(tail, f);
      if f(xs[0]).Some? && AllSome(tail, f).Some? {
        var r := AllSome(xs, f).value;
        forall i | 0 < i < |xs|
          ensures f(xs[i]) == Some(r[i])
        {
          assert xs[i] == tail[i - 1];
        }
      } else if f(xs[0]).Some? {
        var j :| 0 <= j < |tail| && !f(tail[j]).Some?;
        assert xs[j + 1] == tail[j];
      }
    }
  }

  /**
   * A Python dict keyed by integers (team or user numbers) is modelled as its
   * items in insertion order; its keys are distinct.
   */
  predicate DistinctKeys<V>(d: seq<(int, V)>) {
    forall i, j :: 0 <= i < j < |d| ==> d[i].0 != d[j].0
  }

  /** Position of key `k` among the items, or -1 when it is absent. */
  function IndexOfKey<V>(d: seq<(int, V)>, k: int): (i: int)
    ensures -1 <= i < |d|
    ensures i >= 0 ==> d[i].0 == k && forall j :: 0 <= j < i ==> d[j].0 != k
    ensures i == -1 ==> forall j :: 0 <= j < |d| ==> d[j].0 != k
  {
    if |d| == 0 then -1
    else if d[0].0 == k then 0
    else
      var i := IndexOfKey(d[1..], k);
      if i == -1 then -1 else i + 1
  }

  /** `d.get(k)`. */
  function Lookup<V>(d: seq<(int, V)>, k: int): Option<V> {
    var i := IndexOfKey(d, k);
    if i == -1 then None else Some(d[i].1)
  }

  /** `d[k] = v`: an existing key keeps its place, a new key goes last. */
  function Put<V>(d: seq<(int, V)>, k: int, v: V): (r: seq<(int, V)>)
    ensures DistinctKeys(d) ==> DistinctKeys(r)
    ensures Lookup(r, k) == Some(v)
    ensures forall k' :: k' != k ==> Lookup(r, k') == Lookup(d, k')
    ensures |r| == |d| + (if Lookup(d, k).None? then 1 else 0)
  {
    var i := IndexOfKey(d, k);
    if i == -1 then
      var r := d + [(k, v)];
      assert forall j :: 0 <= j < |d| ==> r[j] == d[j];
      assert forall k' :: k' != k ==> IndexOfKey(r, k') == IndexOfKey(d, k') by {
        forall k' | k' != k ensures IndexOfKey(r, k') == IndexOfKey(d, k') {
          IndexOfKeyAppend(d, k', (k, v));
        }
      }
      IndexOfKeyAppend(d, k, (k, v));
      r
    else
      var r := d[i := (k, v)];
      assert forall k' :: k' != k ==> IndexOfKey(r, k') == IndexOfKey(d, k') by {
        forall k' | k' != k ensures IndexOfKey(r, k') == IndexOfKey(d, k') {
          IndexOfKeyUpdate(d, i, k', (k, v));
        }
      }
      IndexOfKeyUpdate(d, i, k, (k, v));
      r
  }

  lemma {:induction false} IndexOfKeyAppend<V>(d: seq<(int, V)>, k: int, item: (int, V))
    ensures IndexOfKey(d + [item], k) ==
      (if IndexOfKey(d, k) != -1 then IndexOfKey(d, k) else if item.0 == k then |d| else -1)
  {
    if |d| > 0 {
      assert (d + [item])[1..] == d[1..] + [item];
      IndexOfKeyAppend(d[1..], k, item);
    }
  }

  lemma {:induction false} IndexOfKeyUpdate<V>(d: seq<(int, V)>, i: nat, k: int, item: (int, V))
    requires i < |d| && item.0 == d[i].0
    ensures IndexOfKey(d[i := item], k) == IndexOfKey(d, k)
  {
    if i > 0 {
      assert d[i := item][1..] == d[1..][i - 1 := item];
      IndexOfKeyUpdate(d[1..], i - 1, k, item);
    }
  }

  /** With distinct keys, the item at position `i` is what looking up its key finds. */
  lemma LookupAt<V>(d: seq<(int, V)>, i: nat)
    requires DistinctKeys(d) && i < |d|
    ensures IndexOfKey(d, d[i].0) == i
    ensures Lookup(d, d[i].0) == Some(d[i].1)
  {
  }

  /** The keys of a dict, in insertion order. */
  function Keys<V>(d: seq<(int, V)>): (keys: seq<int>)
    ensures |keys| == |d| && forall i :: 0 <= i < |d| ==> keys[i] == d[i].0
  {
    seq(|d|, i requires 0 <= i < |d| => d[i].0)
  }

  /** The values of a dict, in insertion order. */
  function Values(d: seq<(int, int)>): (values: seq<int>)
    ensures |values| == |d| && forall i :: 0 <= i < |d| ==> values[i] == d[i].1
  {
    seq(|d|, i requires 0 <= i < |d| => d[i].1)
  }

  /** `set(range(1, n + 1))`. */
  function OneTo(n: nat): (s: set<int>)
    ensures forall x :: x in s <==> 1 <= x <= n
    ensures |s| == n
  {
    if n == 0 then {} else
      var s := OneTo(n - 1) + {n};
      assert n !in OneTo(n - 1);
      s
  }

  // ---------------------------------------------------------------------------
  // Sets of integers: `set(xs)` and `len(set(xs)) == len(xs)`

  /** Python's `set(xs)`. */
  function SetOf(ids: seq<int>): set<int> {
    set i | i in ids
  }

  /** No value occurs twice. */
  predicate Distinct(ids: seq<int>) {
    forall i, j :: 0 <= i < j < |ids| ==> ids[i] != ids[j]
  }

  lemma {:induction false} DistinctCard(ids: seq<int>)
    requires Distinct(ids)
    ensures |SetOf(ids)| == |ids|
  {
    if |ids| > 0 {
      var init := ids[..|ids| - 1];
      assert Distinct(init);
      DistinctCard(init);
      assert SetOf(ids) == SetOf(init) + {ids[|ids| - 1]};
      assert ids[|ids| - 1] !in SetOf(init);
    }
  }

  /** A list is at least as long as its set of elements, and as long only when it has no repeats. */
  lemma {:induction false} CardBound(ids: seq<int>)
    ensures |SetOf(ids)| <= |ids|
    ensures |SetOf(ids)| == |ids| ==> Distinct(ids)
  {
    if |ids| > 0 {
      var init := ids[..|ids| - 1];
      var last := ids[|ids| - 1];
      CardBound(init);
      assert SetOf(ids) == SetOf(init) + {last};
      if last in SetOf(init) {
        assert SetOf(ids) == SetOf(init);
      } else if |SetOf(ids)| == |ids| {
        forall i, j | 0 <= i < j < |ids| ensures ids[i] != ids[j] {
          if j < |ids| - 1 {
            assert init[i] == ids[i] && init[j] == ids[j];
          } else {
            assert ids[i] in SetOf(init);
          }
        }
      }
    }
  }

  lemma {:induction false} DistinctCount(ids: seq<int>, x: int)
    requires Distinct(ids)
    ensures multiset(ids)[x] == if x in ids then 1 else 0
  {
    if |ids| > 0 {
      var init := ids[..|ids| - 1];
      assert Distinct(init);
      DistinctCount(init, x);
      assert ids == init + [ids[|ids| - 1]];
      assert ids[|ids| - 1] !in init;
    }
  }

  /** `max(xs)` and `min(xs)`: only defined where Python would not raise on an empty sequence. */
  function MaxOf(xs: seq<int>): (m: int)
    requires |xs| > 0
    ensures m in xs && forall x :: x in xs ==> x <= m
  {
    if |xs| == 1 then xs[0]
    else
      var m := MaxOf(xs[1..]);
      assert forall x :: x in xs ==> x == xs[0] || x in xs[1..];
      if xs[0] >= m then xs[0] else m
  }

  function MinOf(xs: seq<int>): (m: int)
    requires |xs| > 0
    ensures m in xs && forall x :: x in xs ==> m <= x
  {
    if |xs| == 1 then xs[0]
    else
      var m := MinOf(xs[1..]);
      assert forall x :: x in xs ==> x == xs[0] || x in xs[1..];
      if xs[0] <= m then xs[0] else m
  }

  /** A subset is no larger than its superset. */
  lemma SubsetCard(a: set<int>, b: set<int>)
    requires a <= b
    ensures |a| <= |b|
  {
    assert b == a + (b - a);
  }

  /** A subset as large as its superset is the superset. */
  lemma SubsetSameSize(a: set<int>, b: set<int>)
    requires a <= b && |a| == |b|
    ensures a == b
  {
    assert b == a + (b - a);
    assert |b - a| == 0;
  }
}
