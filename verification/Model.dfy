/** Identifiers, delivery classes, space descriptors and messages shared by every component.
    Identifiers are plain naturals (zero is reserved), `f64` values are exact reals and instants
    and durations are naturals on one clock. */
module Model {

  datatype Option<+T> = None | Some(value: T)

  datatype Result<+T, +E> = Ok(value: T) | Err(error: E)

  type Bytes = seq<nat>

  datatype SessionKey = SessionKey(namespace: nat, session: nat)

  datatype SpaceKey = SpaceKey(session: SessionKey, space: nat)

  datatype DeliveryClass =
    | ReliableOrdered
    | ReliableUnordered
    | LatestValue
    | UnreliableSequenced
    | BestEffortEvent
  {
    predicate IsCritical() { ReliableOrdered? || ReliableUnordered? }
    predicate IsReplaceable() { LatestValue? || UnreliableSequenced? }
  }

  datatype PersistenceClass = Ephemeral | Stateful(ttl: Option<nat>) | Durable
  {
    /** Compares by variant only: the time to live is a channel setting. */
    predicate SameKind(other: PersistenceClass) {
      || (Ephemeral? && other.Ephemeral?)
      || (Stateful? && other.Stateful?)
      || (Durable? && other.Durable?)
    }
  }

  datatype CoordinateFrame =
    | Logical
    | Frame2D(metersPerUnit: real)
    | Frame3D(metersPerUnit: real)

  datatype Bounds3D = Bounds3D(minX: real, minY: real, minZ: real, maxX: real, maxY: real, maxZ: real)
  {
    predicate Contains(x: real, y: real, z: real) {
      minX <= x <= maxX && minY <= y <= maxY && minZ <= z <= maxZ
    }
    predicate IsValid() { minX < maxX && minY < maxY && minZ < maxZ }
  }

  datatype Position = Pos2D(x: real, y: real) | Pos3D(x: real, y: real, z: real)

  datatype PositionError = LogicalFrame | DimensionMismatch | OutOfBounds

  datatype ParentAnchor = ParentAnchor(parentSpace: nat, anchorEntity: nat)

  datatype RoutingPolicy =
    | BroadcastAll
    | Grid2D(cellSize: real, interestRadius: real, exactDistance: bool)
    | Grid3D(cellSize: real, interestRadius: real, exactDistance: bool)
    | TopicOnly

  datatype SpaceError =
    | ZeroSpaceId
    | ZeroEpoch
    | ZeroParentSpaceId
    | ZeroAnchorEntityId
    | SelfParent
    | InvalidScale
    | InvalidBounds
    | BoundsDimensionMismatch
    | RoutingDimensionMismatch

  datatype SpaceDescriptor = SpaceDescriptor(
    id: nat,
    frame: CoordinateFrame,
    bounds: Option<Bounds3D>,
    parent: Option<ParentAnchor>,
    epoch: nat,
    routing: RoutingPolicy)
  {
    function Validate(): Option<SpaceError> {
      if id == 0 then Some(ZeroSpaceId)
      else if epoch == 0 then Some(ZeroEpoch)
      else if parent.Some? && parent.value.parentSpace == 0 then Some(ZeroParentSpaceId)
      else if parent.Some? && parent.value.anchorEntity == 0 then Some(ZeroAnchorEntityId)
      else if parent.Some? && parent.value.parentSpace == id then Some(SelfParent)
      else if !frame.Logical? && frame.metersPerUnit <= 0.0 then Some(InvalidScale)
      else if bounds.Some? && !frame.Frame3D? then Some(BoundsDimensionMismatch)
      else if bounds.Some? && !bounds.value.IsValid() then Some(InvalidBounds)
      else if routing.Grid2D? && !frame.Frame2D? then Some(RoutingDimensionMismatch)
      else if routing.Grid3D? && !frame.Frame3D? then Some(RoutingDimensionMismatch)
      else if (routing.Grid2D? || routing.Grid3D?) && (routing.cellSize <= 0.0 || routing.interestRadius <= 0.0)
      then Some(InvalidScale)
      else None
    }

    function ValidatePosition(position: Position): Option<PositionError> {
      if frame.Logical? then Some(LogicalFrame)
      else if (position.Pos2D? && !frame.Frame2D?) || (position.Pos3D? && !frame.Frame3D?) then Some(DimensionMismatch)
      else if bounds.Some? && position.Pos3D? && !bounds.value.Contains(position.x, position.y, position.z)
      then Some(OutOfBounds)
      else None
    }
  }

  datatype CoalesceKey = CoalesceKey(channel: nat, entity: Option<nat>, component: nat)

  datatype ScopedKey = ScopedKey(namespace: nat, session: nat, space: nat, epoch: nat, application: CoalesceKey)

  datatype OutboundMessage = OutboundMessage(
    namespace: nat,
    session: nat,
    space: nat,
    epoch: nat,
    entity: Option<nat>,
    channel: nat,
    sequence: nat,
    delivery: DeliveryClass,
    persistence: PersistenceClass,
    coalesceKey: Option<CoalesceKey>,
    routingPosition: Option<Position>,
    payload: Bytes)
  {
    function Session(): SessionKey { SessionKey(namespace, session) }
    function Space(): SpaceKey { SpaceKey(Session(), space) }

    /** The coalescing key, scoped so that equal application keys of different spaces or epochs
        never replace each other. */
    function ScopedCoalesceKey(): Option<ScopedKey> {
      if coalesceKey.None? then None
      else Some(ScopedKey(namespace, session, space, epoch, coalesceKey.value))
    }
  }
}
