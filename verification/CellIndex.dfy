/** The two maps of the spatial index, updated step by step, always each other's inverse. */
module CellIndex {
  import opened Model
  import opened Spatial
  import opened SessionGraph

  type EntityCells = map<nat, CellKey>
  type CellEntities = map<CellKey, set<nat>>

  lemma UsedMeansOccupied(ec: EntityCells, k: CellKey)
    ensures k in CellsOf(ec) <==> CellMembers(ec, k) != {}
  {
    if e :| e in CellMembers(ec, k) { assert ec[e] in UsedCells(ec); }
    if k in UsedCells(ec) {
      var e :| e in ec && ec[e] == k;
      assert e in CellMembers(ec, k);
    }
  }

  /** An index that lists exactly the occupied cells with their members is the inverse. */
  lemma IsInverse(ec: EntityCells, ce: CellEntities)
    requires forall k :: k in ce <==> CellMembers(ec, k) != {}
    requires forall k | k in ce :: ce[k] == CellMembers(ec, k)
    ensures ce == CellsOf(ec)
  {
    forall k ensures k in CellsOf(ec) <==> k in ce { UsedMeansOccupied(ec, k); }
  }

  lemma CellsOfRemove(ec: EntityCells, e: nat)
    requires e in ec
    ensures ec[e] in CellsOf(ec)
    ensures var k, left := ec[e], CellsOf(ec)[ec[e]] - {e};
            CellsOf(ec - {e}) == if left == {} then CellsOf(ec) - {k} else CellsOf(ec)[k := left]
  {
    var k, ec' := ec[e], ec - {e};
    assert k in UsedCells(ec);
    var left := CellsOf(ec)[k] - {e};
    var ce' := if left == {} then CellsOf(ec) - {k} else CellsOf(ec)[k := left];
    forall c
      ensures CellMembers(ec', c) == if c == k then left else CellMembers(ec, c)
      ensures c in CellsOf(ec) <==> CellMembers(ec, c) != {}
    {
      UsedMeansOccupied(ec, c);
    }
    IsInverse(ec', ce');
  }

  lemma CellsOfInsert(ec: EntityCells, e: nat, k: CellKey)
    requires e !in ec
    ensures CellsOf(ec[e := k]) == CellsOf(ec)[k := (if k in CellsOf(ec) then CellsOf(ec)[k] else {}) + {e}]
  {
    var ec' := ec[e := k];
    forall c
      ensures CellMembers(ec', c) == if c == k then CellMembers(ec, c) + {e} else CellMembers(ec, c)
      ensures c in CellsOf(ec) <==> CellMembers(ec, c) != {}
    {
      UsedMeansOccupied(ec, c);
    }
    IsInverse(ec', CellsOf(ec)[k := (if k in CellsOf(ec) then CellsOf(ec)[k] else {}) + {e}]);
  }

  method RemoveFromCell(ec: EntityCells, ce: CellEntities, e: nat) returns (ec': EntityCells, ce': CellEntities)
    requires ce == CellsOf(ec)
    ensures ec' == ec - {e} && ce' == CellsOf(ec')
  {
    if e !in ec {
      assert ec - {e} == ec;
      return ec, ce;
    }
    CellsOfRemove(ec, e);
    var k := ec[e];
    ec' := ec - {e};
    ce' := ce[k := ce[k] - {e}];
    if ce'[k] == {} {
      ce' := ce' - {k};
      assert ce' == ce - {k};
    }
  }

  method InsertIntoCell(ec: EntityCells, ce: CellEntities, e: nat, k: CellKey)
    returns (ec': EntityCells, ce': CellEntities)
    requires ce == CellsOf(ec) && e !in ec
    ensures ec' == ec[e := k] && ce' == CellsOf(ec')
  {
    CellsOfInsert(ec, e, k);
    ec' := ec[e := k];
    ce' := ce[k := (if k in ce then ce[k] else {}) + {e}];
  }

  /** Re-indexes one entity, touching nothing when its cell has not changed. */
  method Reindex(ec: EntityCells, ce: CellEntities, e: nat, cell: Option<CellKey>)
    returns (ec': EntityCells, ce': CellEntities)
    requires ce == CellsOf(ec)
    ensures ec' == (if cell.Some? then ec[e := cell.value] else ec - {e}) && ce' == CellsOf(ec')
  {
    var current := if e in ec then Some(ec[e]) else None;
    if current == cell {
      assert ec == if cell.Some? then ec[e := cell.value] else ec - {e};
      return ec, ce;
    }
    ec', ce' := RemoveFromCell(ec, ce, e);
    if cell.Some? {
      assert (ec - {e})[e := cell.value] == ec[e := cell.value];
      ec', ce' := InsertIntoCell(ec', ce', e, cell.value);
    }
  }

  method RemoveAllFromCells(ec: EntityCells, ce: CellEntities, entities: set<nat>)
    returns (ec': EntityCells, ce': CellEntities)
    requires ce == CellsOf(ec)
    ensures ec' == ec - entities && ce' == CellsOf(ec')
  {
    ec', ce' := ec, ce;
    var rest := entities;
    assert ec - {} == ec;
    while rest != {}
      invariant rest <= entities && ec' == ec - (entities - rest) && ce' == CellsOf(ec')
    {
      var e :| e in rest;
      ec', ce' := RemoveFromCell(ec', ce', e);
      assert ec - (entities - rest) - {e} == ec - (entities - (rest - {e}));
      rest := rest - {e};
    }
    assert entities - {} == entities;
  }
}
