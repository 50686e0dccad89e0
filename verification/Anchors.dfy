/** When a space hangs on what is inside it: the exact condition under which advancing its epoch fails
    after the change. */
module Anchors {
  import opened Model
  import opened SessionGraph
  import opened Cascade
  import opened Commands
  import opened Checks
  import opened Outcomes

  /** The anchor of `q` is an entity in `space`. */
  predicate AnchoredIn(s: Session, q: nat, space: nat) {
    && q in s.spaces && s.spaces[q].parent.Some?
    && s.spaces[q].parent.value.anchorEntity in s.entities
    && s.entities[s.spaces[q].parent.value.anchorEntity].space == space
  }

  /** `q` goes when `p` goes: `p` is its parent space, or holds its anchor. */
  predicate HangsOn(s: Session, q: nat, p: nat) {
    q in s.spaces && s.spaces[q].parent.Some? && (s.spaces[q].parent.value.parentSpace == p || AnchoredIn(s, q, p))
  }

  /** A chain of spaces, each hanging on the next, whose last one is anchored in `space`. */
  ghost predicate Chain(s: Session, path: seq<nat>, space: nat) {
    && path != []
    && (forall i | 0 <= i < |path| - 1 :: HangsOn(s, path[i], path[i + 1]))
    && AnchoredIn(s, path[|path| - 1], space)
  }

  ghost predicate ChainFrom(s: Session, q: nat, space: nat) {
    exists path :: Chain(s, path, space) && path[0] == q
  }

  lemma {:induction false} ChainIsRemoved(s: Session, path: seq<nat>, space: nat, r: Removal)
    requires Chain(s, path, space) && Closed(s, r) && EntitiesIn(s, space) <= r.entities
    ensures path[0] in r.spaces
  {
    var q := path[0];
    if |path| == 1 {
      assert s.spaces[q].parent.value.anchorEntity in EntitiesIn(s, space);
      assert Doomed(s.spaces[q], r);
    } else {
      var rest := path[1..];
      assert HangsOn(s, path[0], path[0 + 1]);
      forall i | 0 <= i < |rest| - 1 ensures HangsOn(s, rest[i], rest[i + 1]) {
        assert HangsOn(s, path[i + 1], path[i + 1 + 1]);
      }
      ChainIsRemoved(s, rest, space, r);
      assert Doomed(s.spaces[q], r);
    }
  }

  /** All spaces with a chain, and all entities in them or in `space`. */
  ghost function Hanging(s: Session, space: nat): Removal {
    var spaces := set q | q in s.spaces && ChainFrom(s, q, space);
    Removal(EntitiesIn(s, space) + (set e | e in s.entities && s.entities[e].space in spaces), spaces)
  }

  lemma ChainGrows(s: Session, q: nat, p: nat, space: nat)
    requires HangsOn(s, q, p) && ChainFrom(s, p, space)
    ensures ChainFrom(s, q, space)
  {
    var path :| Chain(s, path, space) && path[0] == p;
    var longer := [q] + path;
    forall i | 0 <= i < |longer| - 1 ensures HangsOn(s, longer[i], longer[i + 1]) {
      if i > 0 { assert HangsOn(s, path[i - 1], path[i - 1 + 1]); }
    }
    assert Chain(s, longer, space);
  }

  lemma HangingClosed(s: Session, space: nat)
    ensures Closed(s, Hanging(s, space))
  {
    var r := Hanging(s, space);
    forall q | q in s.spaces && Doomed(s.spaces[q], r) ensures q in r.spaces {
      var p := s.spaces[q].parent.value;
      if p.parentSpace in r.spaces {
        ChainGrows(s, q, p.parentSpace, space);
      } else if p.anchorEntity in EntitiesIn(s, space) {
        assert Chain(s, [q], space);
      } else {
        ChainGrows(s, q, s.entities[p.anchorEntity].space, space);
      }
    }
  }

  /** Emptying a space takes exactly the spaces from which a chain leads back into it. */
  lemma RemovedExactlyByChain(s: Session, space: nat, q: nat)
    ensures q in Closure(s, Removal(EntitiesIn(s, space), {})).spaces <==> q in s.spaces && ChainFrom(s, q, space)
  {
    var seed := Removal(EntitiesIn(s, space), {});
    HangingClosed(s, space);
    ClosureLeast(s, seed, Hanging(s, space));
    if ChainFrom(s, q, space) {
      var path :| Chain(s, path, space) && path[0] == q;
      ChainIsRemoved(s, path, space, Closure(s, seed));
    }
  }

  /** An accepted advance fails, after having emptied and removed the space, if and only if a chain of
      parents and anchors leads from the space back into it. */
  lemma AdvanceFailsExactly(g: Graph, sk: SessionKey, space: nat, epoch: nat)
    requires CheckAdvance(g.sessions, sk, space, epoch).None?
    ensures AdvanceOutcome(g, sk, space, epoch).1.Some? <==> ChainFrom(g.sessions[sk], space, space)
    ensures AdvanceOutcome(g, sk, space, epoch).1.Some?
            ==> space !in AdvanceOutcome(g, sk, space, epoch).0.sessions[sk].spaces
  {
    var s := g.sessions[sk];
    RemovedExactlyByChain(s, space, space);
    assert EmptySpace(g, sk, space).sessions[sk].spaces == s.spaces - Closure(s,
        Removal(EntitiesIn(s, space), {})).spaces;
  }

  /** A space without a parent always advances. */
  lemma RootsAdvance(g: Graph, sk: SessionKey, space: nat, epoch: nat)
    requires CheckAdvance(g.sessions, sk, space, epoch).None? && g.sessions[sk].spaces[space].parent.None?
    ensures AdvanceOutcome(g, sk, space, epoch).1.None?
  {
    AdvanceFailsExactly(g, sk, space, epoch);
    var s := g.sessions[sk];
    forall path | Chain(s, path, space) ensures path[0] in s.spaces && s.spaces[path[0]].parent.Some? {
      ChainStartsNested(s, path, space);
    }
  }

  lemma ChainStartsNested(s: Session, path: seq<nat>, space: nat)
    requires Chain(s, path, space)
    ensures path[0] in s.spaces && s.spaces[path[0]].parent.Some?
  {
    if |path| > 1 { assert HangsOn(s, path[0], path[0 + 1]); }
  }

  /** A space whose own anchor has moved into it never advances. */
  lemma AnchorInsideFails(g: Graph, sk: SessionKey, space: nat, epoch: nat)
    requires CheckAdvance(g.sessions, sk, space, epoch).None? && AnchoredIn(g.sessions[sk], space, space)
    ensures AdvanceOutcome(g, sk, space, epoch).1.Some?
  {
    assert Chain(g.sessions[sk], [space], space);
    AdvanceFailsExactly(g, sk, space, epoch);
  }
}
