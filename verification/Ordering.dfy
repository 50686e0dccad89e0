/** Visiting the keys of an ordered map from the smallest up. */
module Ordering {

  ghost predicate TotalOrder<K(!new)>(le: (K, K) -> bool) {
    && (forall a, b :: le(a, b) || le(b, a))
    && (forall a, b | le(a, b) && le(b, a) :: a == b)
    && (forall a, b, c | le(a, b) && le(b, c) :: le(a, c))
  }

  ghost predicate IsFirst<K>(keys: set<K>, le: (K, K) -> bool, k: K) { k in keys && forall x | x in keys :: le(k, x) }

  lemma {:induction false} HasFirst<K(!new)>(keys: set<K>, le: (K, K) -> bool)
    requires keys != {} && TotalOrder(le)
    ensures exists k :: IsFirst(keys, le, k)
  {
    var k :| k in keys;
    assert le(k, k);
    if keys == {k} {
      assert IsFirst(keys, le, k);
    } else {
      HasFirst(keys - {k}, le);
      var y :| IsFirst(keys - {k}, le, y);
      assert forall x | x in keys :: x == k || x in keys - {k};
      assert IsFirst(keys, le, if le(k, y) then k else y);
    }
  }

  ghost function First<K(!new)>(keys: set<K>, le: (K, K) -> bool): (k: K)
    requires keys != {} && TotalOrder(le)
    ensures IsFirst(keys, le, k)
  {
    HasFirst(keys, le);
    var k :| IsFirst(keys, le, k);
    k
  }

  ghost function Sorted<K(!new)>(keys: set<K>, le: (K, K) -> bool): (s: seq<K>)
    requires TotalOrder(le)
    ensures |s| == |keys| && forall k :: k in s <==> k in keys
    ensures forall i, j | 0 <= i < j < |s| :: le(s[i], s[j]) && s[i] != s[j]
  {
    if keys == {} then [] else [First(keys, le)] + Sorted(keys - {First(keys, le)}, le)
  }

  method FindFirst<K(!new, ==)>(keys: set<K>, le: (K, K) -> bool) returns (k: K)
    requires keys != {} && TotalOrder(le)
    ensures k == First(keys, le)
  {
    k :| k in keys;
    assert le(k, k);
    var rest := keys - {k};
    while rest != {}
      invariant rest <= keys
      invariant IsFirst(keys - rest, le, k)
    {
      var x :| x in rest;
      assert keys - (rest - {x}) == (keys - rest) + {x};
      assert le(x, x);
      if !le(k, x) {
        assert forall y | y in keys - rest :: le(k, y) && le(x, y);
        k := x;
      }
      rest := rest - {x};
    }
    assert keys - {} == keys;
    assert le(k, First(keys, le)) && le(First(keys, le), k);
  }

  lemma SortedStep<K(!new)>(s: seq<K>, rest: set<K>, le: (K, K) -> bool)
    requires TotalOrder(le) && rest != {}
    ensures var k := First(rest, le); s + [k] + Sorted(rest - {k}, le) == s + Sorted(rest, le)
  {
  }

  method Sort<K(!new, ==)>(keys: set<K>, le: (K, K) -> bool) returns (s: seq<K>)
    requires TotalOrder(le)
    ensures s == Sorted(keys, le)
  {
    s := [];
    var rest := keys;
    while rest != {}
      invariant rest <= keys && s + Sorted(rest, le) == Sorted(keys, le)
    {
      var k := FindFirst(rest, le);
      SortedStep(s, rest, le);
      s := s + [k];
      rest := rest - {k};
    }
  }
}
