/**
  Sequence vocabulary shared by the components: an optional value, the
  order-preserving `filter` of JavaScript arrays, removal by position, and
  pairing of two parallel lists.
 */
module Common {

  /** A value that may be absent (`undefined`, or a falsy fetch payload). */
  datatype Option<+T> = None | Some(value: T)

  /** `a` can be obtained from `b` by deleting elements, keeping the order of the rest. */
  ghost predicate Subseq<T>(a: seq<T>, b: seq<T>)
    decreases |b|
  {
    if |a| == 0 then true
    else if |b| == 0 then false
    else (a[0] == b[0] && Subseq(a[1..], b[1..])) || Subseq(a, b[1..])
  }

  /** `Array.prototype.filter`: the elements of `s` satisfying `keep`, in their original order. */
  function Filter<T(!new)>(s: seq<T>, keep: T -> bool): (r: seq<T>)
    ensures |r| <= |s|
    ensures forall x :: x in r <==> x in s && keep(x)
    ensures forall x :: multiset(r)[x] == if keep(x) then multiset(s)[x] else 0
    ensures Subseq(r, s)
    decreases |s|
  {
    if |s| == 0 then []
    else
      var rest := Filter(s[1..], keep);
      assert s == [s[0]] + s[1..];
      assert multiset(s) == multiset([s[0]]) + multiset(s[1..]);
      if keep(s[0]) then [s[0]] + rest else rest
  }

  /** Filtering distributes over concatenation. */
  lemma {:induction false} FilterAppend<T(!new)>(a: seq<T>, b: seq<T>, keep: T -> bool)
    ensures Filter(a + b, keep) == Filter(a, keep) + Filter(b, keep)
    decreases |a|
  {
    if |a| == 0 {
      assert a + b == b;
    } else {
      assert (a + b)[1..] == a[1..] + b;
      FilterAppend(a[1..], b, keep);
    }
  }

  /** A filter that keeps every element returns its input unchanged. */
  lemma {:induction false} FilterKeepsAll<T(!new)>(s: seq<T>, keep: T -> bool)
    requires forall x :: x in s ==> keep(x)
    ensures Filter(s, keep) == s
    decreases |s|
  {
    if |s| > 0 {
      var tail := s[1..];
      assert keep(s[0]) by {
        assert s[0] in s;
      }
      assert forall x :: x in tail ==> keep(x) by {
        forall x | x in tail ensures keep(x) {
          assert x in s;
        }
      }
      FilterKeepsAll(tail, keep);
      assert Filter(s, keep) == [s[0]] + Filter(tail, keep);
      assert s == [s[0]] + tail;
    }
  }

  /** Two predicates that agree on the elements of `s` filter it alike. */
  lemma {:induction false} FilterCongruent<T(!new)>(s: seq<T>, k1: T -> bool, k2: T -> bool)
    requires forall x :: x in s ==> k1(x) == k2(x)
    ensures Filter(s, k1) == Filter(s, k2)
    decreases |s|
  {
    if |s| > 0 {
      assert forall x :: x in s[1..] ==> x in s;
      FilterCongruent(s[1..], k1, k2);
    }
  }

  /** Filtering twice with the same predicate is filtering once. */
  lemma FilterIdempotent<T(!new)>(s: seq<T>, keep: T -> bool)
    ensures Filter(Filter(s, keep), keep) == Filter(s, keep)
  {
    FilterKeepsAll(Filter(s, keep), keep);
  }

  /**
    `s.filter((_, j) => j !== i)`: every element except the one at position
    `i`, written as the component's index filter (walking the list and
    shifting the index).
   */
  function RemoveAt<T>(s: seq<T>, i: int): (r: seq<T>)
    ensures 0 <= i < |s| ==> r == s[..i] + s[i + 1..]
    ensures !(0 <= i < |s|) ==> r == s
    decreases |s|
  {
    if |s| == 0 then []
    else
      var rest := RemoveAt(s[1..], i - 1);
      assert s == [s[0]] + s[1..];
      if i == 0 then rest else [s[0]] + rest
  }

  /** Pairs two lists position by position, up to the shorter one. */
  function Zip<A, B>(a: seq<A>, b: seq<B>): (r: seq<(A, B)>)
    ensures |r| == if |a| <= |b| then |a| else |b|
    ensures forall k :: 0 <= k < |r| ==> r[k] == (a[k], b[k])
  {
    seq(if |a| <= |b| then |a| else |b|, k requires 0 <= k < |a| && k < |b| => (a[k], b[k]))
  }

  /** Removing position `i` from two parallel lists removes position `i` from their pairing. */
  lemma ZipRemoveAt<A, B>(a: seq<A>, b: seq<B>, i: int)
    requires |a| == |b|
    ensures Zip(RemoveAt(a, i), RemoveAt(b, i)) == RemoveAt(Zip(a, b), i)
  {
    var l, r := Zip(RemoveAt(a, i), RemoveAt(b, i)), RemoveAt(Zip(a, b), i);
    if 0 <= i < |a| {
      assert |l| == |r|;
      forall k | 0 <= k < |l| ensures l[k] == r[k] {
        if k < i {
          assert r[k] == Zip(a, b)[k];
        } else {
          assert r[k] == Zip(a, b)[k + 1];
        }
      }
    }
  }

  /** Appending a parallel batch to two parallel lists appends its pairing. */
  lemma ZipAppend<A, B>(a: seq<A>, b: seq<B>, c: seq<A>, d: seq<B>)
    requires |a| == |b| && |c| == |d|
    ensures Zip(a + c, b + d) == Zip(a, b) + Zip(c, d)
  {
    var l, r := Zip(a + c, b + d), Zip(a, b) + Zip(c, d);
    assert |l| == |r|;
    forall k | 0 <= k < |l| ensures l[k] == r[k] {
      if k >= |a| {
        assert r[k] == Zip(c, d)[k - |a|];
      }
    }
  }
}
