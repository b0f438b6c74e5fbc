/**
 * The two array library calls the store relies on, `Array.prototype.filter`
 * and `Array.prototype.findIndex`, and the "subsequence" relation that says
 * a filter keeps the relative order of what it keeps.
 */
module Seqs {
  import opened Types

  /** `s.filter(f)`: the elements of `s` satisfying `f`, in their original order. */
  function Filter<T>(f: T -> bool, s: seq<T>): (r: seq<T>)
    ensures |r| <= |s|
    ensures forall i :: 0 <= i < |r| ==> f(r[i])
    decreases |s|
  {
    if s == [] then []
    else
      var init := Filter(f, s[..|s| - 1]);
      if f(s[|s| - 1]) then init + [s[|s| - 1]] else init
  }

  /** `s.findIndex(f)`: the first index whose element satisfies `f`, or none. */
  function FindIndex<T>(f: T -> bool, s: seq<T>): (k: Option<nat>)
    ensures k.Some? ==> k.value < |s| && f(s[k.value])
    ensures k.Some? ==> forall j :: 0 <= j < k.value ==> !f(s[j])
    ensures k.None? ==> forall j :: 0 <= j < |s| ==> !f(s[j])
    decreases |s|
  {
    if s == [] then None
    else if f(s[0]) then Some(0)
    else match FindIndex(f, s[1..])
      case None => None
      case Some(k) => Some(k + 1)
  }

  /** `a` is obtained from `b` by deleting elements, keeping the order of the rest. */
  predicate SubseqOf<T(==)>(a: seq<T>, b: seq<T>)
    decreases |b|
  {
    if b == [] then a == []
    else
      (a != [] && a[|a| - 1] == b[|b| - 1] && SubseqOf(a[..|a| - 1], b[..|b| - 1]))
      || SubseqOf(a, b[..|b| - 1])
  }

  /** A filter keeps order: its result is a subsequence of its input. */
  lemma {:induction false} FilterIsSubseq<T>(f: T -> bool, s: seq<T>)
    ensures SubseqOf(Filter(f, s), s)
    decreases |s|
  {
    if s != [] {
      var init := s[..|s| - 1];
      FilterIsSubseq(f, init);
      var r := Filter(f, s);
      if f(s[|s| - 1]) {
        assert r[..|r| - 1] == Filter(f, init);
      }
    }
  }

  /** A filter keeps exactly the elements that satisfy its predicate. */
  lemma {:induction false} FilterMembers<T>(f: T -> bool, s: seq<T>)
    ensures forall x :: x in Filter(f, s) <==> x in s && f(x)
    decreases |s|
  {
    if s != [] {
      var init := s[..|s| - 1];
      FilterMembers(f, init);
      assert s == init + [s[|s| - 1]];
    }
  }

  /** A filter that rejects nothing returns its input unchanged. */
  lemma {:induction false} FilterKeepsAll<T>(f: T -> bool, s: seq<T>)
    requires forall i :: 0 <= i < |s| ==> f(s[i])
    ensures Filter(f, s) == s
    decreases |s|
  {
    if s != [] {
      FilterKeepsAll(f, s[..|s| - 1]);
    }
  }

  /** A filter that rejects exactly one position shortens its input by one. */
  lemma {:induction false} FilterDropsOne<T>(f: T -> bool, s: seq<T>, k: nat)
    requires k < |s| && !f(s[k])
    requires forall j :: 0 <= j < |s| && j != k ==> f(s[j])
    ensures |Filter(f, s)| == |s| - 1
    decreases |s|
  {
    var init := s[..|s| - 1];
    if k == |s| - 1 {
      FilterKeepsAll(f, init);
    } else {
      FilterDropsOne(f, init, k);
    }
  }

  /** Filtering a sequence extended by one element. */
  lemma FilterSnoc<T>(f: T -> bool, s: seq<T>, x: T)
    ensures Filter(f, s + [x]) == if f(x) then Filter(f, s) + [x] else Filter(f, s)
  {
    assert (s + [x])[..|s + [x]| - 1] == s;
  }
}
