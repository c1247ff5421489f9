/**
  Order-preserving selection over sequences: every query of the store keeps the stored
  records that satisfy a predicate, in stored order, and finds the first such record.
*/
module Selection {
  import opened Results

  /** `r` is `s` with some elements deleted and the rest kept in their order. */
  predicate IsSubsequence<T(==)>(r: seq<T>, s: seq<T>)
  {
    if r == [] then true
    else if s == [] then false
    else (r[0] == s[0] && IsSubsequence(r[1..], s[1..])) || IsSubsequence(r, s[1..])
  }

  /**
    `r` holds, in the order of `s`, every occurrence in `s` of an element satisfying `p`
    and nothing else. SelectsUnique shows that this pins `r` down completely.
  */
  ghost predicate Selects<T(!new)>(r: seq<T>, s: seq<T>, p: T -> bool)
  {
    && IsSubsequence(r, s)
    && forall x {:trigger multiset(r)[x]} :: multiset(r)[x] == if p(x) then multiset(s)[x] else 0
  }

  /** The elements of `s` that satisfy `p`, in stored order. */
  function Filter<T(==, !new)>(s: seq<T>, p: T -> bool): (r: seq<T>)
    ensures Selects(r, s, p)
    ensures forall x {:trigger x in r} :: x in r <==> x in s && p(x)
  {
    if s == [] then []
    else
      assert s == [s[0]] + s[1..];
      var rest := Filter(s[1..], p);
      if p(s[0]) then [s[0]] + rest else rest
  }

  /** The position of the first element of `s` satisfying `p`, or None when there is none. */
  function FirstWhere<T>(s: seq<T>, p: T -> bool): (r: Option<nat>)
    ensures r.None? <==> forall k :: 0 <= k < |s| ==> !p(s[k])
    ensures r.Some? ==> r.value < |s| && p(s[r.value]) && forall k :: 0 <= k < r.value ==> !p(s[k])
  {
    if s == [] then None
    else if p(s[0]) then Some(0)
    else match FirstWhere(s[1..], p)
      case None => None
      case Some(i) => Some(i + 1)
  }

  /** A subsequence never holds an element more often than the sequence it is taken from. */
  lemma {:induction false} SubsequenceCount<T>(r: seq<T>, s: seq<T>, x: T)
    requires IsSubsequence(r, s)
    ensures multiset(r)[x] <= multiset(s)[x]
    decreases |s|
  {
    if r != [] {
      assert s == [s[0]] + s[1..];
      if r[0] == s[0] && IsSubsequence(r[1..], s[1..]) {
        assert r == [r[0]] + r[1..];
        SubsequenceCount(r[1..], s[1..], x);
      } else {
        SubsequenceCount(r, s[1..], x);
      }
    }
  }

  /** How a selection from a non-empty sequence decomposes at the first stored element. */
  lemma SelectsStep<T(!new)>(r: seq<T>, s: seq<T>, p: T -> bool)
    requires s != [] && Selects(r, s, p)
    ensures p(s[0]) ==> r != [] && r[0] == s[0] && Selects(r[1..], s[1..], p)
    ensures !p(s[0]) ==> Selects(r, s[1..], p)
  {
    assert s == [s[0]] + s[1..];
    if p(s[0]) {
      assert multiset(r)[s[0]] == multiset(s)[s[0]] >= 1;
      if !(r[0] == s[0] && IsSubsequence(r[1..], s[1..])) {
        SubsequenceCount(r, s[1..], s[0]);
        assert false;
      }
      assert r == [r[0]] + r[1..];
      forall x ensures multiset(r[1..])[x] == if p(x) then multiset(s[1..])[x] else 0 {
        assert multiset(r)[x] == if p(x) then multiset(s)[x] else 0;
      }
    } else {
      if r != [] {
        assert r == [r[0]] + r[1..];
        assert multiset(r)[r[0]] > 0;
      }
      forall x ensures multiset(r)[x] == if p(x) then multiset(s[1..])[x] else 0 {
        assert multiset(r)[x] == if p(x) then multiset(s)[x] else 0;
      }
    }
  }

  /** Two selections of the same elements from the same sequence are equal. */
  lemma {:induction false} SelectsUnique<T(!new)>(r1: seq<T>, r2: seq<T>, s: seq<T>, p: T -> bool)
    requires Selects(r1, s, p) && Selects(r2, s, p)
    ensures r1 == r2
    decreases |s|
  {
    if s != [] {
      SelectsStep(r1, s, p);
      SelectsStep(r2, s, p);
      if p(s[0]) {
        SelectsUnique(r1[1..], r2[1..], s[1..], p);
        assert r1 == [r1[0]] + r1[1..];
        assert r2 == [r2[0]] + r2[1..];
      } else {
        SelectsUnique(r1, r2, s[1..], p);
      }
    }
  }

  /** When no element matches, the selection is empty: absence is an empty result, not a failure. */
  lemma {:induction false} NoneSelected<T(!new)>(s: seq<T>, p: T -> bool)
    requires forall k :: 0 <= k < |s| ==> !p(s[k])
    ensures Filter(s, p) == []
    decreases |s|
  {
    if s != [] {
      NoneSelected(s[1..], p);
    }
  }

  /** Selection distributes over concatenation: appending records appends their matches. */
  lemma {:induction false} FilterAppend<T(!new)>(s: seq<T>, t: seq<T>, p: T -> bool)
    ensures Filter(s + t, p) == Filter(s, p) + Filter(t, p)
    decreases |s|
  {
    if s == [] {
      assert s + t == t;
    } else {
      assert (s + t)[1..] == s[1..] + t;
      FilterAppend(s[1..], t, p);
    }
  }

  /**
    Replacing the element at `i` by `y`, where `y` matches and nothing before `i` does,
    makes `y` the first match.
  */
  lemma {:induction false} FilterReplaceFirst<T(!new)>(s: seq<T>, i: nat, y: T, p: T -> bool)
    requires i < |s| && p(y)
    requires forall k :: 0 <= k < i ==> !p(s[k])
    ensures Filter(s[i := y], p) != [] && Filter(s[i := y], p)[0] == y
  {
    assert s[i := y] == s[..i] + ([y] + s[i + 1..]);
    FilterAppend(s[..i], [y] + s[i + 1..], p);
    FilterAppend([y], s[i + 1..], p);
    NoneSelected(s[..i], p);
  }
}
