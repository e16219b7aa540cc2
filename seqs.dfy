/**
 * The array operations the pipeline builds its results with:
 * `filter`, `slice(0, n)`, `join(sep)` and `String.prototype.includes`.
 */
module Seqs {

  /** `x` occurs in `s` starting at position `i`. */
  ghost predicate OccursAt<T>(x: seq<T>, s: seq<T>, i: int)
  {
    0 <= i <= |s| - |x| && s[i..i + |x|] == x
  }

  /** `x` occurs as a contiguous block somewhere in `s`. */
  ghost predicate IsInfix<T>(x: seq<T>, s: seq<T>)
  {
    exists i :: OccursAt(x, s, i)
  }

  lemma InfixOfConcat<T>(a: seq<T>, x: seq<T>, b: seq<T>)
    ensures IsInfix(x, a + x + b)
  {
    assert (a + x + b)[|a|..|a| + |x|] == x;
    assert OccursAt(x, a + x + b, |a|);
  }

  lemma {:induction false} InfixTransitive<T>(x: seq<T>, y: seq<T>, s: seq<T>)
    requires IsInfix(x, y) && IsInfix(y, s)
    ensures IsInfix(x, s)
  {
    var i :| OccursAt(x, y, i);
    var j :| OccursAt(y, s, j);
    forall k | 0 <= k < |x|
      ensures s[j + i + k] == x[k]
    {
      assert s[j..j + |y|][i + k] == y[i + k];
      assert y[i..i + |x|][k] == x[k];
    }
    assert s[j + i..j + i + |x|] == x;
    assert OccursAt(x, s, j + i);
  }

  /** A block found in `s` or in the block after it is found at the front or further on. */
  lemma InfixStep<T>(x: seq<T>, s: seq<T>)
    requires |x| <= |s|
    ensures IsInfix(x, s) <==> s[..|x|] == x || (|s| > 0 && IsInfix(x, s[1..]))
  {
    if IsInfix(x, s) {
      var i :| OccursAt(x, s, i);
      if i > 0 {
        assert s[1..][i - 1..i - 1 + |x|] == x;
        assert OccursAt(x, s[1..], i - 1);
      }
    }
    if s[..|x|] == x {
      assert OccursAt(x, s, 0);
    }
    if |s| > 0 && IsInfix(x, s[1..]) {
      var i :| OccursAt(x, s[1..], i);
      assert s[i + 1..i + 1 + |x|] == x;
      assert OccursAt(x, s, i + 1);
    }
  }

  /** `s.includes(x)`: a left-to-right search for `x` in `s`. */
  function Contains<T(==)>(s: seq<T>, x: seq<T>): (r: bool)
    ensures r <==> IsInfix(x, s)
    decreases |s|
  {
    if |x| > |s| then false
    else
      InfixStep(x, s);
      if s[..|x|] == x then true else if |s| == 0 then false else Contains(s[1..], x)
  }

  /** `xs.filter(keep)`: the kept elements, in their original order. */
  function Filter<T(==)>(xs: seq<T>, keep: T -> bool): (r: seq<T>)
    ensures |r| <= |xs|
    ensures forall x :: x in r ==> x in xs && keep(x)
    ensures forall i :: 0 <= i < |xs| && keep(xs[i]) ==> xs[i] in r
  {
    if xs == [] then []
    else (if keep(xs[0]) then [xs[0]] else []) + Filter(xs[1..], keep)
  }

  /** Filtering distributes over concatenation, so the order of the kept elements is the input's. */
  lemma {:induction false} FilterAppend<T>(a: seq<T>, b: seq<T>, keep: T -> bool)
    ensures Filter(a + b, keep) == Filter(a, keep) + Filter(b, keep)
  {
    if a == [] {
      assert a + b == b;
    } else {
      assert (a + b)[1..] == a[1..] + b;
      FilterAppend(a[1..], b, keep);
    }
  }

  /** A filter that rejects nothing returns its input unchanged. */
  lemma {:induction false} FilterKeepsAll<T>(xs: seq<T>, keep: T -> bool)
    requires forall i :: 0 <= i < |xs| ==> keep(xs[i])
    ensures Filter(xs, keep) == xs
  {
    if xs != [] {
      FilterKeepsAll(xs[1..], keep);
    }
  }

  /** Filtering a single element keeps it exactly when `keep` accepts it. */
  lemma FilterSingle<T>(x: T, keep: T -> bool)
    ensures Filter([x], keep) == if keep(x) then [x] else []
  {
    assert [x][1..] == [];
  }

  /** A three-element filter, spelled out. */
  lemma FilterThree<T>(a: T, b: T, c: T, keep: T -> bool)
    ensures Filter([a, b, c], keep)
         == (if keep(a) then [a] else []) + (if keep(b) then [b] else []) + (if keep(c) then [c] else [])
  {
    assert [a, b, c] == [a] + [b] + [c];
    FilterAppend([a] + [b], [c], keep);
    FilterAppend([a], [b], keep);
    FilterSingle(a, keep);
    FilterSingle(b, keep);
    FilterSingle(c, keep);
  }

  /** `xs.slice(0, n)`. */
  function Take<T>(xs: seq<T>, n: nat): (r: seq<T>)
    ensures |r| == if |xs| < n then |xs| else n
    ensures r == xs[..|r|]
  {
    if |xs| <= n then xs else xs[..n]
  }

  /** Once a prefix of `xs` has `n` kept elements, the rest of `xs` does not affect the first `n`. */
  lemma FirstKeptComeFromPrefix<T>(xs: seq<T>, k: nat, n: nat, keep: T -> bool)
    requires k <= |xs|
    requires |Filter(xs[..k], keep)| >= n
    ensures Take(Filter(xs, keep), n) == Take(Filter(xs[..k], keep), n)
  {
    assert xs == xs[..k] + xs[k..];
    FilterAppend(xs[..k], xs[k..], keep);
    var front := Filter(xs[..k], keep);
    assert (front + Filter(xs[k..], keep))[..n] == front[..n];
  }

  /** `parts.join(sep)`: every part appears in the result, separated by `sep`. */
  function Join<T>(parts: seq<seq<T>>, sep: seq<T>): (r: seq<T>)
    ensures |parts| == 0 ==> r == []
    ensures forall i :: 0 <= i < |parts| ==> IsInfix(parts[i], r)
  {
    if |parts| == 0 then []
    else if |parts| == 1 then
      assert parts[0] == [] + parts[0] + [];
      InfixOfConcat([], parts[0], []);
      parts[0]
    else
      var rest := Join(parts[1..], sep);
      var r := parts[0] + sep + rest;
      assert r == [] + parts[0] + (sep + rest);
      InfixOfConcat([], parts[0], sep + rest);
      assert forall i :: 1 <= i < |parts| ==> IsInfix(parts[i], r) by {
        forall i | 1 <= i < |parts|
          ensures IsInfix(parts[i], r)
        {
          assert parts[i] == parts[1..][i - 1];
          assert r == parts[0] + sep + rest + [];
          InfixOfConcat(parts[0] + sep, rest, []);
          InfixTransitive(parts[i], rest, r);
        }
      }
      r
  }

  /** A single part is joined to itself, with no separator. */
  lemma JoinSingle<T>(x: seq<T>, sep: seq<T>)
    ensures Join([x], sep) == x
  {
  }

  /**
   * Joining two non-empty runs of parts puts exactly one separator between
   * them: the parts stay in order, and `sep` sits between neighbours only.
   */
  lemma {:induction false} JoinAppend<T>(a: seq<seq<T>>, b: seq<seq<T>>, sep: seq<T>)
    requires |a| > 0 && |b| > 0
    ensures Join(a + b, sep) == Join(a, sep) + sep + Join(b, sep)
  {
    if |a| == 1 {
      assert (a + b)[1..] == b;
    } else {
      assert (a + b)[1..] == a[1..] + b;
      JoinAppend(a[1..], b, sep);
    }
  }
}
