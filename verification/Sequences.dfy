/** Order-preserving selection over sequences. */
module Sequences {

  function Not<T>(p: T -> bool): T -> bool { x => !p(x) }

  function Both<T>(p: T -> bool, q: T -> bool): T -> bool { x => p(x) && q(x) }

  /** The elements satisfying `p`, in their original order. */
  function Filter<T>(p: T -> bool, s: seq<T>): (r: seq<T>)
    ensures |r| <= |s|
  {
    if s == [] then []
    else
      var init := Filter(p, s[..|s| - 1]);
      if p(s[|s| - 1]) then init + [s[|s| - 1]] else init
  }

  lemma FilterSnoc<T>(p: T -> bool, s: seq<T>, x: T)
    ensures Filter(p, s + [x]) == Filter(p, s) + (if p(x) then [x] else [])
  {
    assert (s + [x])[..|s|] == s;
  }

  lemma {:induction false} FilterConcat<T>(p: T -> bool, s: seq<T>, t: seq<T>)
    ensures Filter(p, s + t) == Filter(p, s) + Filter(p, t)
  {
    if t == [] {
      assert s + t == s;
    } else {
      var init, last := t[..|t| - 1], t[|t| - 1];
      assert s + t == (s + init) + [last];
      FilterSnoc(p, s + init, last);
      FilterConcat(p, s, init);
    }
  }

  lemma {:induction false} FilterMembers<T>(p: T -> bool, s: seq<T>, x: T)
    ensures x in Filter(p, s) <==> x in s && p(x)
  {
    if s != [] {
      FilterMembers(p, s[..|s| - 1], x);
      assert s == s[..|s| - 1] + [s[|s| - 1]];
    }
  }

  lemma FilterIsSelection<T>(p: T -> bool, s: seq<T>)
    ensures forall x :: x in Filter(p, s) <==> x in s && p(x)
  {
    forall x ensures x in Filter(p, s) <==> x in s && p(x) {
      FilterMembers(p, s, x);
    }
  }

  lemma {:induction false} FilterAll<T>(p: T -> bool, s: seq<T>)
    requires forall x | x in s :: p(x)
    ensures Filter(p, s) == s
  {
    if s != [] {
      assert s == s[..|s| - 1] + [s[|s| - 1]];
      FilterAll(p, s[..|s| - 1]);
    }
  }

  lemma {:induction false} FilterNone<T>(p: T -> bool, s: seq<T>)
    requires forall x | x in s :: !p(x)
    ensures Filter(p, s) == []
  {
    if s != [] {
      assert s == s[..|s| - 1] + [s[|s| - 1]];
      FilterNone(p, s[..|s| - 1]);
    }
  }

  lemma {:induction false} FilterFilter<T>(p: T -> bool, q: T -> bool, s: seq<T>)
    ensures Filter(p, Filter(q, s)) == Filter(Both(p, q), s)
  {
    if s != [] {
      FilterFilter(p, q, s[..|s| - 1]);
      if q(s[|s| - 1]) {
        FilterSnoc(p, Filter(q, s[..|s| - 1]), s[|s| - 1]);
      }
    }
  }

  /** Predicates that agree on the elements select the same subsequence. */
  lemma {:induction false} FilterAgree<T>(p: T -> bool, q: T -> bool, s: seq<T>)
    requires forall x | x in s :: p(x) == q(x)
    ensures Filter(p, s) == Filter(q, s)
  {
    if s != [] {
      assert s == s[..|s| - 1] + [s[|s| - 1]];
      FilterAgree(p, q, s[..|s| - 1]);
    }
  }

  lemma {:induction false} FilterMultiset<T>(p: T -> bool, s: seq<T>)
    ensures multiset(s) == multiset(Filter(p, s)) + multiset(Filter(Not(p), s))
  {
    if s != [] {
      assert s == s[..|s| - 1] + [s[|s| - 1]];
      FilterMultiset(p, s[..|s| - 1]);
    }
  }

  ghost predicate Distinct<T>(s: seq<T>) {
    forall i, j | 0 <= i < j < |s| :: s[i] != s[j]
  }

  lemma {:induction false} FilterDistinct<T>(p: T -> bool, s: seq<T>)
    requires Distinct(s)
    ensures Distinct(Filter(p, s))
  {
    if s != [] {
      assert s == s[..|s| - 1] + [s[|s| - 1]];
      FilterDistinct(p, s[..|s| - 1]);
      FilterMembers(p, s[..|s| - 1], s[|s| - 1]);
    }
  }
}
