// The array operations the store and the dashboard are built from, as pure
// functions over sequences: `filter`, `slice(0, n)`, and the
// "replace every element that matches" form of `map`.

module ListOps {

  /** Array.prototype.filter: the elements satisfying `keep`, in order. */
  function Filter<T(==)>(s: seq<T>, keep: T -> bool): (r: seq<T>)
    ensures |r| <= |s|
    ensures forall i :: 0 <= i < |r| ==> keep(r[i]) && r[i] in s
    ensures forall i :: 0 <= i < |s| && keep(s[i]) ==> s[i] in r
  {
    if s == [] then []
    else if keep(s[0]) then [s[0]] + Filter(s[1..], keep)
    else Filter(s[1..], keep)
  }

  /** Array.prototype.slice(0, n): the first n elements, or all of them when fewer. */
  function Take<T>(s: seq<T>, n: nat): (r: seq<T>)
    ensures |r| == if |s| <= n then |s| else n
    ensures forall i :: 0 <= i < |r| ==> r[i] == s[i]
  {
    if |s| <= n then s else s[..n]
  }

  /** `s.map(x => matches(x) ? f(x) : x)`: every matching element is replaced by its image. */
  function ReplaceWhere<T>(s: seq<T>, matches: T -> bool, f: T -> T): (r: seq<T>)
    ensures |r| == |s|
    ensures forall i :: 0 <= i < |s| ==> r[i] == if matches(s[i]) then f(s[i]) else s[i]
  {
    if s == [] then []
    else [if matches(s[0]) then f(s[0]) else s[0]] + ReplaceWhere(s[1..], matches, f)
  }

  /** `a` is obtained from `b` by deleting elements: an order-preserving subsequence. */
  predicate IsSubsequence<T(==)>(a: seq<T>, b: seq<T>)
    decreases |b|
  {
    a == [] ||
    (b != [] &&
     ((a[0] == b[0] && IsSubsequence(a[1..], b[1..])) || IsSubsequence(a, b[1..])))
  }

  lemma {:induction false} FilterIsSubsequence<T>(s: seq<T>, keep: T -> bool)
    ensures IsSubsequence(Filter(s, keep), s)
  {
    if s != [] {
      FilterIsSubsequence(s[1..], keep);
      if keep(s[0]) {
        assert Filter(s, keep)[1..] == Filter(s[1..], keep);
      }
    }
  }

  lemma {:induction false} PrefixIsSubsequence<T>(a: seq<T>, b: seq<T>, n: nat)
    requires IsSubsequence(a, b)
    ensures IsSubsequence(Take(a, n), b)
    decreases |b|
  {
    var t := Take(a, n);
    if t != [] {
      if a[0] == b[0] && IsSubsequence(a[1..], b[1..]) {
        PrefixIsSubsequence(a[1..], b[1..], n - 1);
        assert t[1..] == Take(a[1..], n - 1);
      } else {
        PrefixIsSubsequence(a, b[1..], n);
      }
    }
  }

  /** When no element satisfies the predicate, nothing is kept. */
  lemma {:induction false} FilterNoneKept<T>(s: seq<T>, keep: T -> bool)
    requires forall i :: 0 <= i < |s| ==> !keep(s[i])
    ensures Filter(s, keep) == []
  {
    if s != [] {
      assert forall i :: 0 <= i < |s[1..]| ==> s[1..][i] == s[i + 1];
      FilterNoneKept(s[1..], keep);
    }
  }

  lemma FilterCons<T>(x: T, s: seq<T>, keep: T -> bool)
    ensures Filter([x] + s, keep) == (if keep(x) then [x] else []) + Filter(s, keep)
  {
    assert ([x] + s)[1..] == s;
  }

  /** Filtering distributes over concatenation. */
  lemma {:induction false} FilterAppend<T>(a: seq<T>, b: seq<T>, keep: T -> bool)
    ensures Filter(a + b, keep) == Filter(a, keep) + Filter(b, keep)
  {
    if a == [] {
      assert a + b == b;
    } else {
      assert (a + b)[1..] == a[1..] + b;
      FilterAppend(a[1..], b, keep);
    }
  }

  /**
   * Replacing one element changes the number of kept elements by exactly the
   * difference its old and new values make.
   */
  lemma {:induction false} FilterLengthAfterUpdate<T>(s: seq<T>, i: nat, x: T, keep: T -> bool)
    requires i < |s|
    ensures |Filter(s[i := x], keep)| ==
            |Filter(s, keep)| - (if keep(s[i]) then 1 else 0) + (if keep(x) then 1 else 0)
  {
    if i > 0 {
      assert s[i := x][1..] == s[1..][i - 1 := x];
      FilterLengthAfterUpdate(s[1..], i - 1, x, keep);
    } else {
      assert s[i := x][1..] == s[1..];
    }
  }

  /** The elements in the opposite order: newest first, for a list built by appending. */
  function Reversed<T>(s: seq<T>): (r: seq<T>)
    ensures |r| == |s|
    ensures forall i :: 0 <= i < |s| ==> r[i] == s[|s| - 1 - i]
  {
    if s == [] then [] else [s[|s| - 1]] + Reversed(s[..|s| - 1])
  }

  lemma ReversedOfCons<T>(x: T, s: seq<T>)
    ensures Reversed([x] + s) == Reversed(s) + [x]
  {
    var l, r := Reversed([x] + s), Reversed(s) + [x];
    assert |l| == |r|;
    forall i | 0 <= i < |l| ensures l[i] == r[i] {
      if i < |s| {
        assert ([x] + s)[|s| - i] == s[|s| - 1 - i];
      }
    }
  }

  /** Truncating the tail before truncating the whole changes nothing. */
  lemma TakeOfTakeSuffix<T>(a: seq<T>, b: seq<T>, n: nat)
    ensures Take(a + Take(b, n), n) == Take(a + b, n)
  {
    var l, r := Take(a + Take(b, n), n), Take(a + b, n);
    assert |l| == |r|;
    forall i | 0 <= i < |l| ensures l[i] == r[i] {
      if i >= |a| {
        assert (a + Take(b, n))[i] == Take(b, n)[i - |a|];
      }
    }
  }
}
