/** Which spaces and entities go when some entities go: removing an anchor removes the space it
    anchors, a space takes its child spaces and everything in it along. */
module Cascade {
  import opened Model
  import opened SessionGraph

  /** What is to be removed. */
  datatype Removal = Removal(entities: set<nat>, spaces: set<nat>)

  predicate Doomed(d: SpaceDescriptor, r: Removal) {
    d.parent.Some? && (d.parent.value.anchorEntity in r.entities || d.parent.value.parentSpace in r.spaces)
  }

  /** Closed under "anchor removed", "parent space removed" and "entity in removed space". */
  ghost predicate Closed(s: Session, r: Removal) {
    && (forall sp | sp in s.spaces && Doomed(s.spaces[sp], r) :: sp in r.spaces)
    && (forall e | e in s.entities && s.entities[e].space in r.spaces :: e in r.entities)
  }

  ghost predicate Contains(big: Removal, small: Removal) {
    small.entities <= big.entities && small.spaces <= big.spaces
  }

  /** The least closed removal that contains `seed`: reached from every closed one above it. */
  ghost predicate IsLeastClosed(s: Session, seed: Removal, r: Removal) {
    && Closed(s, r) && Contains(r, seed)
    && forall other: Removal | Closed(s, other) && Contains(other, seed) :: Contains(other, r)
  }

  lemma LeastClosedUnique(s: Session, seed: Removal, r1: Removal, r2: Removal)
    requires IsLeastClosed(s, seed, r1) && IsLeastClosed(s, seed, r2)
    ensures r1 == r2
  {
    assert Contains(r1, r2) && Contains(r2, r1);
  }

  // ------------------------------------------------------------------ closure by rounds

  function Round(s: Session, r: Removal): (r': Removal)
    ensures Contains(r', r)
  {
    var spaces := r.spaces + (set sp | sp in s.spaces && Doomed(s.spaces[sp], r));
    Removal(r.entities + (set e | e in s.entities && s.entities[e].space in spaces), spaces)
  }

  ghost function Left(s: Session, r: Removal): nat {
    |s.spaces.Keys - r.spaces| + |s.entities.Keys - r.entities|
  }

  lemma StrictlyLess<T>(a: set<T>, b: set<T>)
    requires a < b
    ensures |a| < |b|
  {
    assert b == a + (b - a);
  }

  lemma LeftDecreases(s: Session, r: Removal, r': Removal)
    requires Contains(r', r) && r'.spaces <= r.spaces + s.spaces.Keys && r'.entities <= r.entities + s.entities.Keys
    ensures Left(s, r') <= Left(s, r) && (r' != r ==> Left(s, r') < Left(s, r))
  {
    Shrinks(s.spaces.Keys, r.spaces, r'.spaces);
    Shrinks(s.entities.Keys, r.entities, r'.entities);
  }

  lemma Shrinks<T>(keys: set<T>, a: set<T>, b: set<T>)
    requires a <= b <= a + keys
    ensures |keys - b| <= |keys - a| && (a != b ==> |keys - b| < |keys - a|)
  {
    if a != b {
      var x :| x in b && x !in a;
      assert x in keys - a;
      StrictlyLess(keys - b, keys - a);
    }
  }

  ghost function Closure(s: Session, r: Removal): (c: Removal)
    ensures Closed(s, c) && Contains(c, r)
    ensures c.spaces <= r.spaces + s.spaces.Keys && c.entities <= r.entities + s.entities.Keys
    decreases Left(s, r)
  {
    var r' := Round(s, r);
    if r' == r then r
    else
      LeftDecreases(s, r, r');
      Closure(s, r')
  }

  /** The rounds reach the least closed removal. */
  lemma {:induction false} ClosureLeast(s: Session, r: Removal, other: Removal)
    requires Closed(s, other) && Contains(other, r)
    ensures Contains(other, Closure(s, r))
    decreases Left(s, r)
  {
    var r' := Round(s, r);
    if r' != r {
      LeftDecreases(s, r, r');
      ClosureLeast(s, r', other);
    }
  }

  lemma ClosureIsLeast(s: Session, seed: Removal)
    ensures IsLeastClosed(s, seed, Closure(s, seed))
  {
    forall other: Removal | Closed(s, other) && Contains(other, seed)
      ensures Contains(other, Closure(s, seed))
    {
      ClosureLeast(s, seed, other);
    }
  }

  // ------------------------------------------------------------------ the loop of the core

  /** Between the seed and its closure: what every intermediate state of the loop satisfies. */
  ghost predicate Between(s: Session, seed: Removal, r: Removal) {
    && Contains(r, seed) && Contains(Closure(s, seed), r)
    && r.spaces <= seed.spaces + s.spaces.Keys && r.entities <= seed.entities + s.entities.Keys
  }

  /** One pass over the spaces, in any order; spaces found early in the pass already count. */
  method SweepSpaces(s: Session, ghost seed: Removal, r: Removal) returns (r': Removal)
    requires Between(s, seed, r) && SpacesOk(s)
    ensures Between(s, seed, r') && Contains(r', r) && r'.entities == r.entities
    ensures forall sp | sp in s.spaces && Doomed(s.spaces[sp], r) :: sp in r'.spaces
  {
    r' := r;
    var rest := s.spaces.Keys;
    while rest != {}
      invariant rest <= s.spaces.Keys
      invariant Between(s, seed, r') && Contains(r', r) && r'.entities == r.entities
      invariant forall sp | sp in s.spaces && sp !in rest && Doomed(s.spaces[sp], r) :: sp in r'.spaces
    {
      var sp :| sp in rest;
      rest := rest - {sp};
      if Doomed(s.spaces[sp], r') {
        r' := r'.(spaces := r'.spaces + {s.spaces[sp].id});
      }
    }
  }

  method SweepEntities(s: Session, ghost seed: Removal, r: Removal) returns (r': Removal)
    requires Between(s, seed, r) && EntitiesOk(s)
    ensures Between(s, seed, r') && Contains(r', r) && r'.spaces == r.spaces
    ensures forall e | e in s.entities && s.entities[e].space in r.spaces :: e in r'.entities
  {
    r' := r;
    var rest := s.entities.Keys;
    while rest != {}
      invariant rest <= s.entities.Keys
      invariant Between(s, seed, r') && Contains(r', r) && r'.spaces == r.spaces
      invariant forall e | e in s.entities && e !in rest && s.entities[e].space in r.spaces :: e in r'.entities
    {
      var e :| e in rest;
      rest := rest - {e};
      if s.entities[e].space in r'.spaces {
        r' := r'.(entities := r'.entities + {s.entities[e].id});
      }
    }
  }

  /** The cascade loop: passes over spaces and entities until nothing new is found. Whatever the
      iteration order, it ends with exactly the least closed removal. */
  method ComputeCascade(s: Session, seedEntities: set<nat>) returns (r: Removal)
    requires SpacesOk(s) && EntitiesOk(s)
    ensures r == Closure(s, Removal(seedEntities, {}))
    ensures IsLeastClosed(s, Removal(seedEntities, {}), r)
  {
    ghost var seed := Removal(seedEntities, {});
    ClosureIsLeast(s, seed);
    r := Removal(seedEntities, {});
    while true
      invariant Between(s, seed, r)
      decreases Left(s, r)
    {
      var spaces := SweepSpaces(s, seed, r);
      var both := SweepEntities(s, seed, spaces);
      if |both.spaces| == |r.spaces| && |both.entities| == |r.entities| {
        Stalled(s, seed, r, both);
        return;
      }
      LeftDecreases(s, r, both);
      r := both;
    }
  }

  /** A pass that finds nothing has found everything. */
  lemma Stalled(s: Session, seed: Removal, r: Removal, both: Removal)
    requires Between(s, seed, r) && Contains(both, r)
    requires |both.spaces| == |r.spaces| && |both.entities| == |r.entities|
    requires forall sp | sp in s.spaces && Doomed(s.spaces[sp], r) :: sp in both.spaces
    requires forall e | e in s.entities && s.entities[e].space in both.spaces :: e in both.entities
    ensures r == Closure(s, seed)
  {
    SameSize(r.spaces, both.spaces);
    SameSize(r.entities, both.entities);
    assert Closed(s, r);
    ClosureLeast(s, seed, r);
  }

  lemma SameSize<T>(a: set<T>, b: set<T>)
    requires a <= b && |a| == |b|
    ensures a == b
  {
    if a != b { StrictlyLess(a, b); }
  }
}
