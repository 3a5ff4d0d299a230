/** Sequence folds used by the storefront: the `filter` and the
    left-to-right summing `reduce` of JavaScript arrays, and the
    subsequence relation the filter promises. */
module Seqs {

  /** The elements of `s` that satisfy `keep`, in their original order. */
  function Filter<T(==)>(s: seq<T>, keep: T -> bool): (r: seq<T>)
    ensures |r| <= |s|
    ensures forall i :: 0 <= i < |r| ==> keep(r[i])
    decreases |s|
  {
    if s == [] then []
    else (if keep(s[0]) then [s[0]] else []) + Filter(s[1..], keep)
  }

  /** `r` can be obtained from `s` by deleting elements, so `r` keeps the
      relative order of the elements it retains. */
  predicate IsSubsequence<T(==)>(r: seq<T>, s: seq<T>)
    decreases |s|
  {
    if r == [] then true
    else if s == [] then false
    else if r[0] == s[0] then IsSubsequence(r[1..], s[1..])
    else IsSubsequence(r, s[1..])
  }

  /** Sum of `f` over `s`, accumulated from the left starting at 0. */
  function Sum<T>(s: seq<T>, f: T -> int): int
    decreases |s|
  {
    if s == [] then 0 else Sum(s[..|s| - 1], f) + f(s[|s| - 1])
  }

  /** The concatenation of `f` over `s`, left to right (a `forEach` that appends). */
  function ConcatMap<T, U>(s: seq<T>, f: T -> seq<U>): seq<U>
    decreases |s|
  {
    if s == [] then [] else ConcatMap(s[..|s| - 1], f) + f(s[|s| - 1])
  }

  lemma {:induction false} FilterIsSubsequence<T>(s: seq<T>, keep: T -> bool)
    ensures IsSubsequence(Filter(s, keep), s)
    decreases |s|
  {
    if s != [] {
      FilterIsSubsequence(s[1..], keep);
      if keep(s[0]) {
        assert Filter(s, keep) == [s[0]] + Filter(s[1..], keep);
        assert Filter(s, keep)[1..] == Filter(s[1..], keep);
      } else {
        assert Filter(s, keep) == Filter(s[1..], keep);
        SubsequenceOfTail(Filter(s, keep), s);
      }
    }
  }

  lemma {:induction false} SubsequenceOfTail<T>(r: seq<T>, s: seq<T>)
    requires s != [] && IsSubsequence(r, s[1..])
    ensures IsSubsequence(r, s)
    decreases |r| + |s|
  {
    if r != [] && r[0] == s[0] {
      SubsequencePrefixDrop(r, s[1..]);
    }
  }

  /** Dropping the first element of a subsequence keeps it a subsequence. */
  lemma {:induction false} SubsequencePrefixDrop<T>(r: seq<T>, s: seq<T>)
    requires r != [] && IsSubsequence(r, s)
    ensures IsSubsequence(r[1..], s)
    decreases |r| + |s|
  {
    if s != [] {
      if r[0] == s[0] {
        SubsequenceOfTail(r[1..], s);
      } else {
        SubsequencePrefixDrop(r, s[1..]);
        SubsequenceOfTail(r[1..], s);
      }
    }
  }

  /** The filter keeps exactly the elements of `s` that satisfy `keep`. */
  lemma {:induction false} FilterMembers<T>(s: seq<T>, keep: T -> bool)
    ensures forall i :: 0 <= i < |Filter(s, keep)| ==> Filter(s, keep)[i] in s
    ensures forall i :: 0 <= i < |s| && keep(s[i]) ==> s[i] in Filter(s, keep)
    decreases |s|
  {
    if s != [] {
      FilterMembers(s[1..], keep);
      var r := Filter(s, keep);
      var t := Filter(s[1..], keep);
      assert r == (if keep(s[0]) then [s[0]] else []) + t;
      forall i | 0 <= i < |r| ensures r[i] in s {
        if !keep(s[0]) || i > 0 {
          var j := if keep(s[0]) then i - 1 else i;
          assert r[i] == t[j] && t[j] in s[1..];
        }
      }
      forall i | 0 <= i < |s| && keep(s[i]) ensures s[i] in r {
        if i > 0 {
          assert s[i] == s[1..][i - 1];
        }
      }
    }
  }

  /** A filter that keeps everything changes nothing. */
  lemma {:induction false} FilterKeepsAll<T>(s: seq<T>, keep: T -> bool)
    requires forall i :: 0 <= i < |s| ==> keep(s[i])
    ensures Filter(s, keep) == s
    decreases |s|
  {
    if s != [] {
      FilterKeepsAll(s[1..], keep);
    }
  }

  /** A filter that keeps nothing yields the empty sequence. */
  lemma {:induction false} FilterKeepsNone<T>(s: seq<T>, keep: T -> bool)
    requires forall i :: 0 <= i < |s| ==> !keep(s[i])
    ensures Filter(s, keep) == []
    decreases |s|
  {
    if s != [] {
      FilterKeepsNone(s[1..], keep);
    }
  }

  /** Filtering a concatenation filters each part. */
  lemma {:induction false} FilterAppend<T>(a: seq<T>, b: seq<T>, keep: T -> bool)
    ensures Filter(a + b, keep) == Filter(a, keep) + Filter(b, keep)
    decreases |a|
  {
    if a != [] {
      assert (a + b)[1..] == a[1..] + b;
      FilterAppend(a[1..], b, keep);
    } else {
      assert a + b == b;
    }
  }

  /** Two complementary filters split `s` between them. */
  lemma {:induction false} FilterPartition<T>(s: seq<T>, keep: T -> bool, other: T -> bool)
    requires forall i :: 0 <= i < |s| ==> other(s[i]) == !keep(s[i])
    ensures |Filter(s, keep)| + |Filter(s, other)| == |s|
    decreases |s|
  {
    if s != [] {
      FilterPartition(s[1..], keep, other);
    }
  }

  /** The sum over a concatenation is the sum of the parts. */
  lemma {:induction false} SumAppend<T>(a: seq<T>, b: seq<T>, f: T -> int)
    ensures Sum(a + b, f) == Sum(a, f) + Sum(b, f)
    decreases |b|
  {
    if b == [] {
      assert a + b == a;
    } else {
      assert (a + b)[..|a + b| - 1] == a + b[..|b| - 1];
      SumAppend(a, b[..|b| - 1], f);
    }
  }

  /** A sum of terms that are all at least 1 is at least the number of terms. */
  lemma {:induction false} SumOfPositives<T>(s: seq<T>, f: T -> int)
    requires forall i :: 0 <= i < |s| ==> f(s[i]) > 0
    ensures Sum(s, f) >= |s|
    ensures Sum(s, f) == 0 <==> s == []
    decreases |s|
  {
    if s != [] {
      SumOfPositives(s[..|s| - 1], f);
    }
  }

  /** A sum of terms that are all at least 0 is at least 0. */
  lemma {:induction false} SumOfNonNegatives<T>(s: seq<T>, f: T -> int)
    requires forall i :: 0 <= i < |s| ==> f(s[i]) >= 0
    ensures Sum(s, f) >= 0
    decreases |s|
  {
    if s != [] {
      SumOfNonNegatives(s[..|s| - 1], f);
    }
  }

  /** Replacing one element changes the sum by the difference of the terms. */
  lemma SumUpdate<T>(s: seq<T>, k: nat, x: T, f: T -> int)
    requires k < |s|
    ensures Sum(s[k := x], f) == Sum(s, f) - f(s[k]) + f(x)
  {
    SumSplit(s, k, f);
    SumSplit(s[k := x], k, f);
    assert s[k := x][..k] == s[..k];
    assert s[k := x][k + 1..] == s[k + 1..];
  }

  /** Removing one element lowers the sum by that element's term. */
  lemma SumRemove<T>(s: seq<T>, k: nat, f: T -> int)
    requires k < |s|
    ensures Sum(s[..k] + s[k + 1..], f) == Sum(s, f) - f(s[k])
  {
    SumSplit(s, k, f);
    SumAppend(s[..k], s[k + 1..], f);
  }

  lemma SumSplit<T>(s: seq<T>, k: nat, f: T -> int)
    requires k < |s|
    ensures Sum(s, f) == Sum(s[..k], f) + f(s[k]) + Sum(s[k + 1..], f)
  {
    var a, b := s[..k + 1], s[k + 1..];
    assert a[..k] == s[..k];
    assert Sum(a, f) == Sum(s[..k], f) + f(s[k]);
    assert s == a + b;
    SumAppend(a, b, f);
  }

  /** Concatenating over a concatenation concatenates the parts. */
  lemma {:induction false} ConcatMapAppend<T, U>(a: seq<T>, b: seq<T>, f: T -> seq<U>)
    ensures ConcatMap(a + b, f) == ConcatMap(a, f) + ConcatMap(b, f)
    decreases |b|
  {
    if b == [] {
      assert a + b == a;
    } else {
      assert (a + b)[..|a + b| - 1] == a + b[..|b| - 1];
      ConcatMapAppend(a, b[..|b| - 1], f);
    }
  }

  /** The piece for element `k` sits between the pieces before and after it. */
  lemma ConcatMapSplit<T, U>(s: seq<T>, k: nat, f: T -> seq<U>)
    requires k < |s|
    ensures ConcatMap(s, f) == ConcatMap(s[..k], f) + f(s[k]) + ConcatMap(s[k + 1..], f)
  {
    ConcatMapDrop(s, k + 1, f);
    ConcatMapSnoc(s, k, f);
  }

  /** Cutting `s` anywhere cuts the concatenation at the same place. */
  lemma {:induction false} ConcatMapDrop<T, U>(s: seq<T>, j: nat, f: T -> seq<U>)
    requires j <= |s|
    ensures ConcatMap(s, f) == ConcatMap(s[..j], f) + ConcatMap(s[j..], f)
    decreases |s|
  {
    if j == |s| {
      assert s[..j] == s;
      assert s[j..] == [];
    } else {
      var init := s[..|s| - 1];
      ConcatMapDrop(init, j, f);
      assert init[..j] == s[..j];
      assert s[j..][..|s[j..]| - 1] == init[j..];
      assert s[j..][|s[j..]| - 1] == s[|s| - 1];
    }
  }

  /** Concatenating over two elements joins their two pieces. */
  lemma ConcatMapPair<T, U>(x: T, y: T, f: T -> seq<U>)
    ensures ConcatMap([x, y], f) == f(x) + f(y)
  {
    assert [x, y][..1] == [x] && [x][..0] == [];
    assert ConcatMap([x], f) == ConcatMap([], f) + f(x);
  }

  /** Appending one more element appends its piece. */
  lemma ConcatMapSnoc<T, U>(s: seq<T>, k: nat, f: T -> seq<U>)
    requires k < |s|
    ensures ConcatMap(s[..k + 1], f) == ConcatMap(s[..k], f) + f(s[k])
  {
    assert s[..k + 1][..k] == s[..k];
  }

  /** Each of three concatenated pieces sits at its own offset. */
  lemma ThreePieces<U>(a: seq<U>, b: seq<U>, c: seq<U>)
    ensures var s := a + b + c;
      |s| == |a| + |b| + |c| && s[..|a|] == a && s[|a|..|a| + |b|] == b && s[|a| + |b|..] == c
  {
    var s := a + b + c;
    assert s[..|a|] == a;
    assert s[|a|..|a| + |b|] == b;
    assert s[|a| + |b|..] == c;
  }

  /** The first, second and fourth of five concatenated pieces sit at their offsets. */
  lemma FivePieces<U>(a: seq<U>, b: seq<U>, c: seq<U>, d: seq<U>, e: seq<U>)
    ensures var s := a + b + c + d + e;
      |s| == |a| + |b| + |c| + |d| + |e| && s[..|a|] == a && s[|a|..|a| + |b|] == b &&
      s[|a| + |b| + |c|..|a| + |b| + |c| + |d|] == d
  {
    var s := a + b + c + d + e;
    assert s[..|a|] == a;
    assert s[|a|..|a| + |b|] == b;
    assert s[|a| + |b| + |c|..|a| + |b| + |c| + |d|] == d;
  }

  lemma AppendAssoc<U>(a: seq<U>, b: seq<U>, c: seq<U>)
    ensures (a + b) + c == a + (b + c)
  {
  }
}
