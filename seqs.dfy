/**
 * The array operations the screens are built from: `Array.prototype.filter`,
 * `Array.prototype.find` (as a first-index search) and a counter that the
 * filtered lengths are checked against.
 */
module Seqs {
  import opened Wrappers

  /** The elements of `s` that satisfy `p`, in their original order. */
  function Filter<T>(s: seq<T>, p: T -> bool): (r: seq<T>)
    ensures |r| <= |s|
    ensures forall x | x in r :: x in s && p(x)
    ensures forall x | x in s && p(x) :: x in r
  {
    if s == [] then []
    else
      assert s == [s[0]] + s[1..];
      if p(s[0]) then [s[0]] + Filter(s[1..], p) else Filter(s[1..], p)
  }

  /** Filtering distributes over concatenation: the filter never reorders. */
  lemma {:induction false} FilterConcat<T>(a: seq<T>, b: seq<T>, p: T -> bool)
    ensures Filter(a + b, p) == Filter(a, p) + Filter(b, p)
  {
    if a == [] {
      assert a + b == b;
    } else {
      assert (a + b)[0] == a[0];
      assert (a + b)[1..] == a[1..] + b;
      FilterConcat(a[1..], b, p);
      if p(a[0]) {
        assert Filter(a + b, p) == [a[0]] + (Filter(a[1..], p) + Filter(b, p));
      }
    }
  }

  /** A filter that every element passes returns the sequence unchanged. */
  lemma {:induction false} FilterKeepsAll<T>(s: seq<T>, p: T -> bool)
    requires forall i :: 0 <= i < |s| ==> p(s[i])
    ensures Filter(s, p) == s
  {
    if s != [] {
      FilterKeepsAll(s[1..], p);
    }
  }

  /**
   * The filter keeps the order of its input: of two kept elements, the
   * earlier one comes from an earlier position of the input.
   */
  lemma {:induction false} FilterKeepsOrder<T>(s: seq<T>, p: T -> bool, i: nat, j: nat)
    requires i < j < |Filter(s, p)|
    ensures exists k, l :: 0 <= k < l < |s| && s[k] == Filter(s, p)[i] && s[l] == Filter(s, p)[j]
  {
    var rest := Filter(s[1..], p);
    if p(s[0]) {
      assert Filter(s, p) == [s[0]] + rest;
      if i == 0 {
        var x := rest[j - 1];
        assert x in rest;
        var l' :| 0 <= l' < |s[1..]| && s[1..][l'] == x;
        assert s[0] == Filter(s, p)[i] && s[l' + 1] == Filter(s, p)[j];
      } else {
        FilterKeepsOrder(s[1..], p, i - 1, j - 1);
        var k', l' :| 0 <= k' < l' < |s[1..]| && s[1..][k'] == rest[i - 1] && s[1..][l'] == rest[j - 1];
        assert s[k' + 1] == Filter(s, p)[i] && s[l' + 1] == Filter(s, p)[j];
      }
    } else {
      assert Filter(s, p) == rest;
      FilterKeepsOrder(s[1..], p, i, j);
      var k', l' :| 0 <= k' < l' < |s[1..]| && s[1..][k'] == rest[i] && s[1..][l'] == rest[j];
      assert s[k' + 1] == Filter(s, p)[i] && s[l' + 1] == Filter(s, p)[j];
    }
  }

  /** The number of elements of `s` that satisfy `p`. */
  function Count<T>(s: seq<T>, p: T -> bool): (n: nat)
    ensures n <= |s|
  {
    if s == [] then 0 else (if p(s[0]) then 1 else 0) + Count(s[1..], p)
  }

  /** The length of a filtered list is the number of elements it keeps. */
  lemma {:induction false} FilterLength<T>(s: seq<T>, p: T -> bool)
    ensures |Filter(s, p)| == Count(s, p)
  {
    if s != [] {
      FilterLength(s[1..], p);
    }
  }

  /** A filter and its complement split a list: their lengths add up to its length. */
  lemma {:induction false} FilterPartition<T>(s: seq<T>, p: T -> bool, q: T -> bool)
    requires forall x | x in s :: q(x) <==> !p(x)
    ensures |Filter(s, p)| + |Filter(s, q)| == |s|
  {
    if s != [] {
      assert s[0] in s;
      assert forall x :: x in s[1..] ==> x in s;
      FilterPartition(s[1..], p, q);
    }
  }

  /** The index of the first element of `s` that satisfies `p`, if any. */
  function FindIndex<T>(s: seq<T>, p: T -> bool): (r: Option<nat>)
    ensures r.Some? ==> r.value < |s| && p(s[r.value])
    ensures r.Some? ==> forall j :: 0 <= j < r.value ==> !p(s[j])
    ensures r.None? ==> forall j :: 0 <= j < |s| ==> !p(s[j])
  {
    if s == [] then None
    else if p(s[0]) then Some(0)
    else match FindIndex(s[1..], p)
      case None => None
      case Some(i) => Some(i + 1)
  }

  /** `Array.prototype.find`: the first element that satisfies `p`. */
  function Find<T>(s: seq<T>, p: T -> bool): (r: Option<T>)
    ensures r.Some? <==> exists i :: 0 <= i < |s| && p(s[i])
    ensures r.Some? ==> r.value in s && p(r.value)
    ensures r.Some? ==> FindIndex(s, p).Some? && r.value == s[FindIndex(s, p).value]
    ensures r.Some? ==> exists i :: 0 <= i < |s| && s[i] == r.value && forall j :: 0 <= j < i ==> !p(s[j])
  {
    match FindIndex(s, p)
    case None => None
    case Some(i) => Some(s[i])
  }

  /**
   * The head of a filtered list is what `find` returns: `xs.filter(p)[0]`
   * exists exactly when some element satisfies `p`, and is the first one.
   */
  lemma {:induction false} FilterHeadIsFirst<T>(s: seq<T>, p: T -> bool)
    ensures |Filter(s, p)| > 0 <==> FindIndex(s, p).Some?
    ensures FindIndex(s, p).Some? ==> Filter(s, p)[0] == s[FindIndex(s, p).value]
  {
    if s != [] && !p(s[0]) {
      FilterHeadIsFirst(s[1..], p);
    }
  }

  /** `s.startsWith(x)` for a one-element prefix. */
  predicate StartsWith<T(==)>(s: seq<T>, x: T)
  {
    |s| > 0 && s[0] == x
  }
}
