/** The list operations the in-memory stores are built from: `List.FindIndex`
    and `FirstOrDefault` (first match), LINQ `Where` (keep the matches),
    `List.RemoveAll` (drop the matches), `Any`, and LINQ `Sum`. */
module Lists {

  /** LINQ `Any`: some element satisfies `p`. */
  predicate Any<T>(s: seq<T>, p: T -> bool) {
    exists i | 0 <= i < |s| :: p(s[i])
  }

  /** `List.FindIndex`: the index of the first element satisfying `p`, or -1. */
  function FirstIndex<T>(s: seq<T>, p: T -> bool): (k: int)
    ensures -1 <= k < |s|
    ensures 0 <= k ==> p(s[k])
    ensures forall j :: 0 <= j < |s| && (k < 0 || j < k) ==> !p(s[j])
  {
    if s == [] then -1
    else if p(s[0]) then 0
    else
      var k := FirstIndex(s[1..], p);
      if k < 0 then -1 else k + 1
  }

  /** LINQ `Where`: the elements satisfying `p`, in their order, with their multiplicity. */
  function Keep<T(!new)>(s: seq<T>, p: T -> bool): (r: seq<T>)
    ensures |r| <= |s|
    ensures forall x :: multiset(r)[x] == if p(x) then multiset(s)[x] else 0
    ensures forall x :: x in r <==> x in s && p(x)
  {
    if s == [] then []
    else
      assert s == [s[0]] + s[1..];
      (if p(s[0]) then [s[0]] else []) + Keep(s[1..], p)
  }

  /** `List.RemoveAll`: what is left after removing every element satisfying `p`.
      The count `RemoveAll` returns is `|s| - |Drop(s, p)|`. */
  function Drop<T(!new)>(s: seq<T>, p: T -> bool): (r: seq<T>)
    ensures |r| <= |s|
    ensures |r| < |s| <==> Any(s, p)
    ensures forall x :: multiset(r)[x] == if p(x) then 0 else multiset(s)[x]
    ensures forall x :: x in r <==> x in s && !p(x)
  {
    if s == [] then []
    else
      assert s == [s[0]] + s[1..];
      var rest := Drop(s[1..], p);
      assert Any(s[1..], p) ==> Any(s, p) by {
        if Any(s[1..], p) {
          var i :| 0 <= i < |s[1..]| && p(s[1..][i]);
          assert p(s[i + 1]);
        }
      }
      assert Any(s, p) && !p(s[0]) ==> Any(s[1..], p) by {
        if Any(s, p) && !p(s[0]) {
          var i :| 0 <= i < |s| && p(s[i]);
          assert i > 0 && p(s[1..][i - 1]);
        }
      }
      if p(s[0]) then rest else [s[0]] + rest
  }

  /** `List.Remove` of the element at `k`: the others keep their order. */
  function RemoveAt<T>(s: seq<T>, k: int): (r: seq<T>)
    requires 0 <= k < |s|
    ensures |r| == |s| - 1
    ensures forall i :: 0 <= i < k ==> r[i] == s[i]
    ensures forall i :: k <= i < |r| ==> r[i] == s[i + 1]
  {
    s[..k] + s[k + 1..]
  }

  /** Keys increase strictly along the sequence. */
  ghost predicate Increasing<T>(s: seq<T>, key: T -> int) {
    forall i, j :: 0 <= i < j < |s| ==> key(s[i]) < key(s[j])
  }

  /** Removing one element keeps the others in increasing order, and none of
      them has the removed element's key. */
  lemma RemoveAtKeepsIncreasing<T>(s: seq<T>, k: int, key: T -> int)
    requires 0 <= k < |s| && Increasing(s, key)
    ensures Increasing(RemoveAt(s, k), key)
    ensures forall x :: x in RemoveAt(s, k) ==> x in s && key(x) != key(s[k])
  {
    var r := RemoveAt(s, k);
    forall i, j | 0 <= i < j < |r|
      ensures key(r[i]) < key(r[j])
    {
      var i' := if i < k then i else i + 1;
      var j' := if j < k then j else j + 1;
      assert r[i] == s[i'] && r[j] == s[j'];
    }
    forall x | x in r
      ensures x in s && key(x) != key(s[k])
    {
      var i :| 0 <= i < |r| && r[i] == x;
      var i' := if i < k then i else i + 1;
      assert x == s[i'] && i' != k;
    }
  }

  /** The least key at or above `floor` that is greater than every element's key. */
  function KeyAbove<T>(s: seq<T>, key: T -> int, floor: int): (m: int)
    ensures m >= floor
    ensures forall i :: 0 <= i < |s| ==> key(s[i]) < m
    ensures m == floor || exists i :: 0 <= i < |s| && m == key(s[i]) + 1
  {
    if s == [] then floor
    else
      var m := KeyAbove(s[1..], key, floor);
      if key(s[0]) < m then
        assert m == floor || exists i :: 1 <= i < |s| && m == key(s[i]) + 1 by {
          if m != floor {
            var j :| 0 <= j < |s[1..]| && m == key(s[1..][j]) + 1;
            assert s[1..][j] == s[j + 1];
          }
        }
        m
      else key(s[0]) + 1
  }

  /** LINQ `Sum` of `f` over the elements. */
  function SumOf<T>(s: seq<T>, f: T -> int): int {
    if s == [] then 0 else f(s[0]) + SumOf(s[1..], f)
  }

  /** Replacing one element changes the sum by exactly the difference of the two terms. */
  lemma {:induction false} SumOfReplace<T>(s: seq<T>, k: int, x: T, f: T -> int)
    requires 0 <= k < |s|
    ensures SumOf(s[k := x], f) == SumOf(s, f) - f(s[k]) + f(x)
  {
    if k > 0 {
      assert s[k := x][1..] == s[1..][k - 1 := x];
      SumOfReplace(s[1..], k - 1, x, f);
    } else {
      assert s[k := x][1..] == s[1..];
    }
  }

  /** Appending one element adds its term to the sum. */
  lemma {:induction false} SumOfAppend<T>(s: seq<T>, x: T, f: T -> int)
    ensures SumOf(s + [x], f) == SumOf(s, f) + f(x)
  {
    if s != [] {
      assert (s + [x])[1..] == s[1..] + [x];
      SumOfAppend(s[1..], x, f);
    }
  }

  /** Terms of elements that `Keep` filters out do not contribute: the sum over
      the kept elements equals the sum of the terms guarded by `p`. */
  lemma {:induction false} SumOfKeep<T(!new)>(s: seq<T>, p: T -> bool, f: T -> int, g: T -> int)
    requires forall x :: g(x) == if p(x) then f(x) else 0
    ensures SumOf(Keep(s, p), f) == SumOf(s, g)
  {
    if s != [] {
      SumOfKeep(s[1..], p, f, g);
      var head := if p(s[0]) then [s[0]] else [];
      SumOfConcat(head, Keep(s[1..], p), f);
    }
  }

  /** A sum of terms that are each no larger is no larger. */
  lemma {:induction false} SumOfMono<T>(s: seq<T>, f: T -> int, g: T -> int)
    requires forall i :: 0 <= i < |s| ==> f(s[i]) <= g(s[i])
    ensures SumOf(s, f) <= SumOf(s, g)
  {
    if s != [] {
      assert forall i :: 0 <= i < |s[1..]| ==> s[1..][i] == s[i + 1];
      SumOfMono(s[1..], f, g);
    }
  }

  lemma {:induction false} SumOfConcat<T>(a: seq<T>, b: seq<T>, f: T -> int)
    ensures SumOf(a + b, f) == SumOf(a, f) + SumOf(b, f)
  {
    if a == [] {
      assert a + b == b;
    } else {
      assert (a + b)[1..] == a[1..] + b;
      SumOfConcat(a[1..], b, f);
    }
  }

  /** After appending an element that is the only one satisfying `p`, the first
      match is that element: a record stored under a fresh key is found again. */
  lemma FirstIndexAppend<T>(s: seq<T>, x: T, p: T -> bool)
    requires !Any(s, p) && p(x)
    ensures FirstIndex(s + [x], p) == |s|
  {
    assert forall j :: 0 <= j < |s| ==> (s + [x])[j] == s[j];
    assert p((s + [x])[|s|]);
  }

  /** Replacing an element by one that `p` judges the same way leaves the
      first match where it was: rewriting a stored record without changing
      its key keeps every lookup by key pointing at the same place. */
  lemma {:induction false} FirstIndexUpdate<T>(s: seq<T>, k: int, x: T, p: T -> bool)
    requires 0 <= k < |s| && p(x) == p(s[k])
    ensures FirstIndex(s[k := x], p) == FirstIndex(s, p)
  {
    if k > 0 {
      assert s[k := x][1..] == s[1..][k - 1 := x];
      FirstIndexUpdate(s[1..], k - 1, x, p);
    } else {
      assert s[k := x][1..] == s[1..];
    }
  }
}
