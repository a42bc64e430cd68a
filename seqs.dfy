/**
 * Sequence operations that the source performs with `Array.prototype`
 * methods: `filter`, `find`/`findIndex` and `splice(k, 1)`.
 */
module Seqs {
  import opened Wrappers

  /** `s.filter(keep)`: the elements satisfying `keep`, in their original order. */
  function Filter<T>(s: seq<T>, keep: T -> bool): (r: seq<T>)
    ensures |r| <= |s|
    ensures forall i :: 0 <= i < |r| ==> keep(r[i]) && r[i] in s
  {
    if s == [] then []
    else Filter(s[..|s| - 1], keep) + (if keep(s[|s| - 1]) then [s[|s| - 1]] else [])
  }

  /** An element is kept exactly when it occurs in the input and satisfies `keep`. */
  lemma {:induction false} FilterMember<T>(s: seq<T>, keep: T -> bool, x: T)
    ensures x in Filter(s, keep) <==> x in s && keep(x)
  {
    if s != [] {
      FilterMember(s[..|s| - 1], keep, x);
      assert s == s[..|s| - 1] + [s[|s| - 1]];
    }
  }

  /** `idx` lists, in increasing order, the positions of `s` at which the elements of `r` stand. */
  ghost predicate Embeds<T>(r: seq<T>, s: seq<T>, idx: seq<nat>) {
    && |idx| == |r|
    && (forall i :: 0 <= i < |idx| ==> idx[i] < |s| && r[i] == s[idx[i]])
    && (forall i, j :: 0 <= i < j < |idx| ==> idx[i] < idx[j])
  }

  /** A filter result is a subsequence of its input: it keeps the input order. */
  lemma {:induction false} FilterIsSubsequence<T>(s: seq<T>, keep: T -> bool) returns (idx: seq<nat>)
    ensures Embeds(Filter(s, keep), s, idx)
  {
    if s == [] {
      idx := [];
    } else {
      var front := s[..|s| - 1];
      var pre := FilterIsSubsequence(front, keep);
      if keep(s[|s| - 1]) {
        idx := pre + [|s| - 1];
      } else {
        idx := pre;
      }
    }
  }

  lemma {:induction false} FilterAppend<T>(a: seq<T>, b: seq<T>, keep: T -> bool)
    ensures Filter(a + b, keep) == Filter(a, keep) + Filter(b, keep)
  {
    if b == [] {
      assert a + b == a;
    } else {
      var b' := b[..|b| - 1];
      assert (a + b)[..|a + b| - 1] == a + b';
      FilterAppend(a, b', keep);
    }
  }

  /** Filtering one more element at the end. */
  lemma FilterSnoc<T>(s: seq<T>, x: T, keep: T -> bool)
    ensures Filter(s + [x], keep) == Filter(s, keep) + (if keep(x) then [x] else [])
  {
    assert (s + [x])[..|s|] == s;
  }

  /**
   * When `x` and `y` are not both kept, placing `y` after a sequence that filters like
   * `s` followed by `x` filters like `s` followed by `y`, then `x`.
   */
  lemma FilterSwapLast<T>(r: seq<T>, s: seq<T>, x: T, y: T, keep: T -> bool)
    requires Filter(r, keep) == Filter(s, keep) + (if keep(x) then [x] else [])
    requires !(keep(x) && keep(y))
    ensures Filter(r + [y], keep) == Filter(s + [y], keep) + (if keep(x) then [x] else [])
  {
    FilterSnoc(r, y, keep);
    FilterSnoc(s, y, keep);
  }

  /** Filtering with a predicate that holds everywhere returns the input itself. */
  lemma {:induction false} FilterKeepsAll<T>(s: seq<T>, keep: T -> bool)
    requires forall x :: x in s ==> keep(x)
    ensures Filter(s, keep) == s
  {
    if s != [] {
      FilterKeepsAll(s[..|s| - 1], keep);
    }
  }

  /** Filters with predicates that agree on the input give the same result. */
  lemma {:induction false} FilterCongruent<T>(s: seq<T>, f: T -> bool, g: T -> bool)
    requires forall x :: x in s ==> f(x) == g(x)
    ensures Filter(s, f) == Filter(s, g)
  {
    if s != [] {
      FilterCongruent(s[..|s| - 1], f, g);
    }
  }

  /** Overwriting a dropped element with another dropped element does not change the filter. */
  lemma {:induction false} FilterUpdateDropped<T>(s: seq<T>, k: nat, x: T, keep: T -> bool)
    requires k < |s| && !keep(s[k]) && !keep(x)
    ensures Filter(s[k := x], keep) == Filter(s, keep)
  {
    assert s == s[..k] + [s[k]] + s[k + 1..];
    assert s[k := x] == s[..k] + [x] + s[k + 1..];
    FilterSkip(s[..k], s[k], s[k + 1..], keep);
    FilterSkip(s[..k], x, s[k + 1..], keep);
  }

  /** Removing a dropped element does not change the filter. */
  lemma {:induction false} FilterRemoveDropped<T>(s: seq<T>, k: nat, keep: T -> bool)
    requires k < |s| && !keep(s[k])
    ensures Filter(RemoveAt(s, k), keep) == Filter(s, keep)
  {
    assert s == s[..k] + [s[k]] + s[k + 1..];
    FilterSkip(s[..k], s[k], s[k + 1..], keep);
  }

  /** Dropping an element the filter rejects does not change the result. */
  lemma {:induction false} FilterSkip<T>(a: seq<T>, x: T, b: seq<T>, keep: T -> bool)
    requires !keep(x)
    ensures Filter(a + [x] + b, keep) == Filter(a + b, keep)
  {
    FilterAppend(a + [x], b, keep);
    FilterAppend(a, [x], keep);
    FilterAppend(a, b, keep);
    FilterDropOne(x, keep);
  }

  /** A rejected element on its own filters to nothing. */
  lemma FilterDropOne<T>(x: T, keep: T -> bool)
    requires !keep(x)
    ensures Filter([x], keep) == []
  {
    assert [x][..0] == [];
  }

  /** No element occurs twice. */
  predicate Distinct<T(==)>(s: seq<T>) {
    forall i, j :: 0 <= i < j < |s| ==> s[i] != s[j]
  }

  /** Filtering a sequence without repetitions gives one without repetitions. */
  lemma FilterKeepsDistinct<T>(s: seq<T>, keep: T -> bool)
    requires Distinct(s)
    ensures Distinct(Filter(s, keep))
  {
    var idx := FilterIsSubsequence(s, keep);
  }

  /** The index of the first element satisfying `p` (`findIndex`, `find`). */
  function FirstIndex<T>(s: seq<T>, p: T -> bool): (r: Option<nat>)
    ensures r.Some? ==> r.value < |s| && p(s[r.value]) && forall j :: 0 <= j < r.value ==> !p(s[j])
    ensures r.None? ==> forall j :: 0 <= j < |s| ==> !p(s[j])
  {
    if s == [] then None
    else if p(s[0]) then Some(0)
    else match FirstIndex(s[1..], p)
      case None => None
      case Some(k) => Some(k + 1)
  }

  /** `s.splice(k, 1)`: position `k` removed, the rest kept in order. */
  function RemoveAt<T>(s: seq<T>, k: nat): (r: seq<T>)
    requires k < |s|
    ensures |r| == |s| - 1
    ensures forall i :: 0 <= i < k ==> r[i] == s[i]
    ensures forall i :: k <= i < |r| ==> r[i] == s[i + 1]
  {
    s[..k] + s[k + 1..]
  }
}
