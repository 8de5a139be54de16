/** `Array.prototype.reduce` summing an amount, and `Array.prototype.filter`,
    both walking the array from the first element to the last. */
module Seqs {

  /** `rows.reduce((sum, r) => sum + amount(r), 0)`: a left fold, so the last row is added last. */
  function Sum<T>(rows: seq<T>, amount: T -> real): real
  {
    if rows == [] then 0.0 else Sum(rows[..|rows| - 1], amount) + amount(rows[|rows| - 1])
  }

  /** The amount of a plain number is the number itself, for summing a list of amounts. */
  function Amount(x: real): real { x }

  lemma SumSingleton<T>(x: T, amount: T -> real)
    ensures Sum([x], amount) == amount(x)
  {
    assert [x][..0] == [];
  }

  lemma {:induction false} SumAppend<T>(a: seq<T>, b: seq<T>, amount: T -> real)
    ensures Sum(a + b, amount) == Sum(a, amount) + Sum(b, amount)
  {
    if b != [] {
      assert (a + b)[..|a + b| - 1] == a + b[..|b| - 1];
      assert (a + b)[|a + b| - 1] == b[|b| - 1];
      SumAppend(a, b[..|b| - 1], amount);
    } else {
      assert a + b == a;
    }
  }

  /** Two row sequences whose amounts agree position by position have the same sum. */
  lemma {:induction false} SumTransfer<A, B>(a: seq<A>, fa: A -> real, b: seq<B>, fb: B -> real)
    requires |a| == |b|
    requires forall i :: 0 <= i < |a| ==> fa(a[i]) == fb(b[i])
    ensures Sum(a, fa) == Sum(b, fb)
  {
    if a != [] {
      SumTransfer(a[..|a| - 1], fa, b[..|b| - 1], fb);
    }
  }

  lemma {:induction false} SumMonotone<T>(rows: seq<T>, f: T -> real, g: T -> real)
    requires forall i :: 0 <= i < |rows| ==> f(rows[i]) <= g(rows[i])
    ensures Sum(rows, f) <= Sum(rows, g)
  {
    if rows != [] {
      SumMonotone(rows[..|rows| - 1], f, g);
    }
  }

  lemma {:induction false} SumNonNegative<T>(rows: seq<T>, f: T -> real)
    requires forall i :: 0 <= i < |rows| ==> 0.0 <= f(rows[i])
    ensures 0.0 <= Sum(rows, f)
  {
    if rows != [] {
      SumNonNegative(rows[..|rows| - 1], f);
    }
  }

  /** Summing a difference row by row is the difference of the two sums. */
  lemma {:induction false} SumDifference<T>(rows: seq<T>, f: T -> real, g: T -> real, h: T -> real)
    requires forall i :: 0 <= i < |rows| ==> h(rows[i]) == f(rows[i]) - g(rows[i])
    ensures Sum(rows, h) == Sum(rows, f) - Sum(rows, g)
  {
    if rows != [] {
      SumDifference(rows[..|rows| - 1], f, g, h);
    }
  }

  lemma {:induction false} SumOfZeros<T>(rows: seq<T>, f: T -> real)
    requires forall i :: 0 <= i < |rows| ==> f(rows[i]) == 0.0
    ensures Sum(rows, f) == 0.0
  {
    if rows != [] {
      SumOfZeros(rows[..|rows| - 1], f);
    }
  }

  /** `s.filter(keep)`: the elements for which `keep` holds, in their original order. */
  function Filter<T>(s: seq<T>, keep: T -> bool): (r: seq<T>)
    ensures |r| <= |s|
    ensures forall i :: 0 <= i < |r| ==> keep(r[i])
  {
    if s == [] then []
    else Filter(s[..|s| - 1], keep) + (if keep(s[|s| - 1]) then [s[|s| - 1]] else [])
  }

  /** The positions of `s` that the filter keeps, in increasing order. */
  function KeptIndices<T>(s: seq<T>, keep: T -> bool): seq<nat>
  {
    if s == [] then []
    else KeptIndices(s[..|s| - 1], keep) + (if keep(s[|s| - 1]) then [|s| - 1] else [])
  }

  /** `idx` embeds `a` into `b` in order: position k of `a` is position idx[k] of `b`. */
  ghost predicate Embeds<T>(idx: seq<nat>, a: seq<T>, b: seq<T>)
  {
    && |idx| == |a|
    && (forall k :: 0 <= k < |idx| ==> idx[k] < |b| && a[k] == b[idx[k]])
    && (forall k, l :: 0 <= k < l < |idx| ==> idx[k] < idx[l])
  }

  /** `a` is an order-preserving subsequence of `b`. */
  ghost predicate IsSubsequence<T>(a: seq<T>, b: seq<T>)
  {
    exists idx :: Embeds(idx, a, b)
  }

  /** The filter result is exactly the kept positions of the input, in order:
      every kept position is used, and no other. */
  lemma {:induction false} FilterByIndices<T>(s: seq<T>, keep: T -> bool)
    ensures Embeds(KeptIndices(s, keep), Filter(s, keep), s)
    ensures forall j :: 0 <= j < |s| ==> (keep(s[j]) <==> j in KeptIndices(s, keep))
  {
    if s != [] {
      var init := s[..|s| - 1];
      FilterByIndices(init, keep);
      var k0 := KeptIndices(init, keep);
      assert forall k :: 0 <= k < |k0| ==> k0[k] < |init|;
    }
  }

  lemma FilterIsSubsequence<T>(s: seq<T>, keep: T -> bool)
    ensures IsSubsequence(Filter(s, keep), s)
  {
    FilterByIndices(s, keep);
  }

  lemma {:induction false} FilterMembership<T>(s: seq<T>, keep: T -> bool, x: T)
    ensures x in Filter(s, keep) <==> x in s && keep(x)
  {
    if s != [] {
      FilterMembership(s[..|s| - 1], keep, x);
      assert s == s[..|s| - 1] + [s[|s| - 1]];
    }
  }

  /** When every element is kept, the filter returns its input unchanged. */
  lemma {:induction false} FilterKeepsAll<T>(s: seq<T>, keep: T -> bool)
    requires forall i :: 0 <= i < |s| ==> keep(s[i])
    ensures Filter(s, keep) == s
  {
    if s != [] {
      FilterKeepsAll(s[..|s| - 1], keep);
    }
  }

  /** Filtering a filtered sequence again with the same test changes nothing. */
  lemma FilterIdempotent<T>(s: seq<T>, keep: T -> bool)
    ensures Filter(Filter(s, keep), keep) == Filter(s, keep)
  {
    FilterKeepsAll(Filter(s, keep), keep);
  }

  /** Two tests that agree on every element select the same subsequence. */
  lemma {:induction false} FilterCongruent<T>(s: seq<T>, p: T -> bool, q: T -> bool)
    requires forall i :: 0 <= i < |s| ==> p(s[i]) == q(s[i])
    ensures Filter(s, p) == Filter(s, q)
  {
    if s != [] {
      FilterCongruent(s[..|s| - 1], p, q);
    }
  }
}
