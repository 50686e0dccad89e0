/** Who a message is routed to, said by coordinates alone. */
module RoutingLaws {
  import opened Model
  import opened Spatial
  import opened SessionGraph
  import opened Routing

  /** Both coordinates of the plane, or all three of space, and no farther apart than the radius. */
  ghost predicate Reaches(p: Position, q: Position, radius: real) {
    || (p.Pos2D? && q.Pos2D? && (p.x - q.x) * (p.x - q.x) + (p.y - q.y) * (p.y - q.y) <= radius * radius)
    || (p.Pos3D? && q.Pos3D?
        && (p.x - q.x) * (p.x - q.x) + (p.y - q.y) * (p.y - q.y) + (p.z - q.z) * (p.z - q.z) <= radius * radius)
  }

  lemma ReachesExactly(p: Position, q: Position, radius: real)
    ensures Within(p, q, radius) <==> Reaches(p, q, radius)
  {
  }

  /** `e` is an entity of `c` in the space, at a position. */
  ghost predicate Placed(s: Session, space: nat, e: nat, c: nat) {
    e in s.entities && s.entities[e].owner == c && s.entities[e].space == space && s.entities[e].position.Some?
  }

  /** The message names a placed entity of its space and epoch. */
  ghost predicate Sent(s: Session, m: OutboundMessage) {
    && m.entity.Some? && m.entity.value in s.entities
       && Placed(s, m.space, m.entity.value, s.entities[m.entity.value].owner)
    && s.entities[m.entity.value].epoch == m.epoch
  }

  ghost predicate OwnsInRadius(s: Session, m: OutboundMessage, c: nat)
    requires m.space in s.spaces && IsGrid(s.spaces[m.space].routing)
  {
    && Sent(s, m)
    && exists e :: && Placed(s, m.space, e, c)
                   && Reaches(s.entities[m.entity.value].position.value, s.entities[e].position.value,
                              s.spaces[m.space].routing.interestRadius)
  }

  /** A subscriber of the space gets a message if and only if it is critical, or the space is not a grid, or, with
      exact distances, the subscriber owns an entity within the interest radius of the sender. */
  lemma RoutedExactly(s: Session, m: OutboundMessage, c: nat)
    requires SpacesOk(s) && s.subscribers.Keys == s.spaces.Keys
    requires m.space in s.spaces && (IsGrid(s.spaces[m.space].routing) ==> s.spaces[m.space].routing.exactDistance)
    ensures c in Recipients(s, m)
            <==> && c in s.subscribers[m.space]
                 && (|| m.delivery.ReliableOrdered? || m.delivery.ReliableUnordered?
                     || s.spaces[m.space].routing.BroadcastAll? || s.spaces[m.space].routing.TopicOnly?
                     || OwnsInRadius(s, m, c))
  {
    if IsGrid(s.spaces[m.space].routing) && HasSource(s, m) { InRadiusExactly(s, m, c); }
  }

  lemma InRadiusExactly(s: Session, m: OutboundMessage, c: nat)
    requires HasSource(s, m) && IsGrid(s.spaces[m.space].routing) && m.space in s.subscribers
    ensures c in Owners(s, s.subscribers[m.space], InRadius(s, m))
            <==> c in s.subscribers[m.space] && OwnsInRadius(s, m, c)
  {
    var p, radius := s.entities[m.entity.value].position.value, s.spaces[m.space].routing.interestRadius;
    forall e | Placed(s, m.space, e, c)
      ensures e in InRadius(s, m) <==> Reaches(p, s.entities[e].position.value, radius)
    {
      ReachesExactly(p, s.entities[e].position.value, radius);
    }
    if c in Owners(s, s.subscribers[m.space], InRadius(s, m)) {
      var e :| e in InRadius(s, m) && s.entities[e].owner == c;
      assert Placed(s, m.space, e, c);
    }
  }

  // ------------------------------------------------------------------ coarse routing

  /** Less than the radius and two cells apart on every axis. */
  ghost predicate Roughly(p: Position, q: Position, radius: real, size: real) {
    && Close(p.x, q.x, radius, size) && Close(p.y, q.y, radius, size)
    && (p.Pos2D? <==> q.Pos2D?) && (p.Pos3D? && q.Pos3D? ==> Close(p.z, q.z, radius, size))
  }

  ghost predicate Close(a: real, b: real, radius: real, size: real) {
    a - b < radius + 2.0 * size && b - a < radius + 2.0 * size
  }

  lemma Apart(a: real, b: real, ca: int, cb: int, radius: real, size: real)
    requires size > 0.0 && radius > 0.0 && cb as real * size <= b && a < (ca + 1) as real * size
    requires ca - cb <= Ceil(radius / size)
    ensures a - b < radius + 2.0 * size
  {
    var q := radius / size;
    assert q * size == radius;
    assert Ceil(q) as real < q + 1.0;
    var gap := (ca + 1 - cb) as real;
    assert gap < q + 2.0;
    StrictScale(gap, q + 2.0, size);
    assert (q + 2.0) * size == radius + 2.0 * size;
    assert gap * size == (ca + 1) as real * size - cb as real * size by { assert gap == (ca + 1) as real - cb as real; }
  }

  lemma NearIsClose(a: real, b: real, radius: real, size: real)
    requires size > 0.0 && radius > 0.0 && GridCoordinate(a, size).Ok? && GridCoordinate(b, size).Ok?
    requires AbsDiff(GridCoordinate(a, size).value, GridCoordinate(b, size).value) <= Ceil(radius / size)
    ensures Close(a, b, radius, size)
  {
    var ca, cb := GridCoordinate(a, size).value, GridCoordinate(b, size).value;
    Apart(a, b, ca, cb, radius, size);
    Apart(b, a, cb, ca, radius, size);
  }

  /** Coarse routing takes nobody whose entities are all farther than the radius and two cells from the sender. */
  lemma CoarseIsClose(s: Session, m: OutboundMessage, e: nat)
    requires Structured(s) && HasSource(s, m) && IsGrid(s.spaces[m.space].routing) && e in InNearCells(s, m)
    ensures s.entities[e].position.Some?
            && Roughly(s.entities[m.entity.value].position.value, s.entities[e].position.value,
                       s.spaces[m.space].routing.interestRadius, s.spaces[m.space].routing.cellSize)
  {
    var i, d := m.entity.value, s.spaces[m.space];
    IndexedMeansPositioned(s, e);
    IndexedWhenPositioned(s, e);
    IndexedWhenPositioned(s, i);
    CellsClose(s.entities[i].position.value, s.entities[e].position.value, d, s.entities[i].epoch, s.entities[e].epoch);
  }

  lemma CellsClose(p: Position, q: Position, d: SpaceDescriptor, epoch1: nat, epoch2: nat)
    requires d.Validate().None? && IsGrid(d.routing) && CellFor(p, d, epoch1).Ok? && CellFor(q, d, epoch2).Ok?
    requires CellsAreNear(CellFor(p, d, epoch1).value.value.cell, CellFor(q, d, epoch2).value.value.cell,
                          RadiusInCells(d.routing))
    ensures Roughly(p, q, d.routing.interestRadius, d.routing.cellSize)
  {
    var size, radius := d.routing.cellSize, d.routing.interestRadius;
    NearIsClose(p.x, q.x, radius, size);
    NearIsClose(p.y, q.y, radius, size);
    if p.Pos3D? { NearIsClose(p.z, q.z, radius, size); }
  }
}
