/** The publish command as a pipeline: spend budget, validate everything, then commit what can no
    longer fail. */
module PublishPipeline {
  import opened Model
  import opened Sequences
  import opened Spatial
  import opened Cache
  import opened SessionGraph
  import opened Commands
  import opened CommandInvariants
  import opened MemberInvariants
  import opened CellIndex
  import opened Routing
  import opened Publishing
  import opened Fanout
  import opened Epochs
  import opened Checks
  import opened CoreSteps
  import opened GraphLoops

  // ------------------------------------------------------------------ budgets

  /** Only the publish budgets of `c` may differ. */
  ghost predicate OnlyBudgets(g: Graph, g': Graph, c: nat) {
    c in g.connections && c in g'.connections
    && g'.connections[c] == g.connections[c].(limiter := g'.connections[c].limiter,
                                              sessionLimiters := g'.connections[c].sessionLimiters)
    && g'.connections[c].sessionLimiters.Keys == g.connections[c].sessionLimiters.Keys
    && g' == WithConnection(g, c, g'.connections[c])
  }

  function CheckPublishAccess(g: Graph, c: nat, m: OutboundMessage): Option<CoreError> {
    if !NonZeroSession(m.Session()) || !IdsNonZero(m) then Some(ReservedZeroId)
    else if CheckPrincipal(g.connections, c).Some? then CheckPrincipal(g.connections, c)
    else if !g.connections[c].authenticated.value.grants.CanWriteSession(m.Session())
            || !g.connections[c].authenticated.value.grants.CanWriteSpace(m.Space())
            || !g.connections[c].authenticated.value.grants.CanWriteChannel(ChannelScope(m.Session(), m.channel))
    then Some(AccessDenied)
    else if CheckMember(g.connections, c, m.Session()).Some? then CheckMember(g.connections, c, m.Session())
    else if CheckSubscriber(g.connections, c, m.Space()).Some? then CheckSubscriber(g.connections, c, m.Space())
    else if m.Session() !in g.sessions then Some(SessionNotFound(m.Session()))
    else if m.Session() !in g.connections[c].sessionLimiters then Some(SessionMembershipRequired(m.Session()))
    else None
  }

  lemma BudgetStep(g: Graph, config: CoreConfig, g': Graph, c: nat)
    requires Inv(g, config) && OnlyBudgets(g, g', c)
    ensures Advances(g, config, g')
  {
    CredentialStep(g, config, c, g'.connections[c]);
  }

  /** Charges the connection budget, checks access, charges the session budget. What has been charged stays
      charged whatever comes after. */
  function SpendOutcome(g: Graph, config: CoreConfig, c: nat, m: OutboundMessage, now: nat): (Graph, Option<CoreError>)
    requires c in g.connections
  {
    var conn := g.connections[c];
    var (limiter, refused) := conn.limiter.Admit(Some(config.publishRateLimit), now);
    var charged := WithConnection(g, c, conn.(limiter := limiter));
    if refused.Some? then (charged, Some(PublishRateLimited(refused.value)))
    else if CheckPublishAccess(charged, c, m).Some? then (charged, CheckPublishAccess(charged, c, m))
    else
      var (budget, refused2) := conn.sessionLimiters[m.Session()].Admit(g.sessions[m.Session()].rateLimit, now);
      (WithConnection(g, c, conn.(limiter := limiter, sessionLimiters := conn.sessionLimiters[m.Session() := budget])),
       if refused2.Some? then Some(PublishRateLimited(refused2.value)) else None)
  }

  lemma SpendsOnlyBudgets(g: Graph, config: CoreConfig, c: nat, m: OutboundMessage, now: nat)
    requires c in g.connections
    ensures OnlyBudgets(g, SpendOutcome(g, config, c, m, now).0, c)
  {
    var g' := SpendOutcome(g, config, c, m, now).0;
    assert g'.connections[c].sessionLimiters.Keys == g.connections[c].sessionLimiters.Keys;
  }

  lemma SpentHasAccess(g: Graph, config: CoreConfig, c: nat, m: OutboundMessage, now: nat)
    requires c in g.connections && SpendOutcome(g, config, c, m, now).1.None?
    ensures CheckPublishAccess(SpendOutcome(g, config, c, m, now).0, c, m).None?
  {
    var conn := g.connections[c];
    var charged := WithConnection(g, c, conn.(limiter := conn.limiter.Admit(Some(config.publishRateLimit), now).0));
    var g' := SpendOutcome(g, config, c, m, now).0;
    assert g'.connections[c].sessionLimiters.Keys == conn.sessionLimiters.Keys;
    assert g' == WithConnection(charged, c, g'.connections[c]);
    AccessKept(charged, g', c, m);
  }

  lemma AccessKept(g: Graph, g': Graph, c: nat, m: OutboundMessage)
    requires OnlyBudgets(g, g', c) && CheckPublishAccess(g, c, m).None?
    ensures CheckPublishAccess(g', c, m).None?
  {
  }

  // ------------------------------------------------------------------ validation

  datatype Placement = Placement(entity: nat, position: Position, cell: Option<CellKey>)

  /** Everything the commit will write. */
  datatype Plan = Plan(messages: seq<OutboundMessage>, sequences: map<SequenceKey, nat>, move: Option<Placement>)

  function EmittedMessages(sk: SessionKey, emissions: seq<Emission>): (r: seq<OutboundMessage>)
    ensures |r| == |emissions| && forall i | 0 <= i < |r| :: r[i].Session() == sk
  {
    seq(|emissions|, i requires 0 <= i < |emissions| => emissions[i].Message(sk))
  }

  /** The messages an authority lets through, with the sequence the proposal itself consumes. */
  function Authorize(config: CoreConfig, c: nat, m: OutboundMessage, verdict: Verdict):
    (r: Result<(seq<OutboundMessage>, map<SequenceKey, nat>), CoreError>)
    ensures r.Ok? ==> forall i | 0 <= i < |r.value.0| :: r.value.0[i].Session() == m.Session()
    ensures r.Ok? ==> r.value.1 == map[] || r.value.1 == map[SequenceKeyOf(c, m) := m.sequence]
  {
    match verdict
    case Accept => Ok(([m], map[]))
    case Reject(rejection) => Err(AuthorityRejected(rejection))
    case Transform(key, payload) => Ok(([m.(coalesceKey := key, payload := payload)], map[]))
    case Emit(emissions) =>
      if m.routingPosition.Some? then Err(AuthorityRejected(PolicyDenied))
      else if |emissions| > config.maxEmissions then Err(AuthorityEmissionLimitExceeded)
      else Ok((EmittedMessages(m.Session(), emissions), map[SequenceKeyOf(c, m) := m.sequence]))
  }

  function IsDurable(): OutboundMessage -> bool { (m: OutboundMessage) => m.persistence.Durable? }

  ghost predicate Placeable(s: Session) {
    forall e | e in s.entities :: s.entities[e].space in s.spaces && s.spaces[s.entities[e].space].Validate().None?
  }

  /** The position a publish carries, checked against its entity's space. */
  function PlacePublished(s: Session, c: nat, m: OutboundMessage): Result<Option<Placement>, CoreError>
    requires Placeable(s)
  {
    if m.routingPosition.None? then Ok(None)
    else if !m.routingPosition.value.Pos3D? then Err(InvalidEntityPosition(DimensionMismatch))
    else if m.entity.None? then Err(AuthorityRejected(EntityRequired))
    else if m.entity.value !in s.entities then Err(EntityNotFound(m.entity.value))
    else if s.entities[m.entity.value].owner != c then Err(EntityNotOwned(m.entity.value))
    else
      var cell := PlaceEntity(s, m.entity.value, m.routingPosition.value);
      if cell.Err? then Err(cell.error) else Ok(Some(Placement(m.entity.value, m.routingPosition.value, cell.value)))
  }

  ghost predicate CanMoveTo(s: Session, move: Option<Placement>) {
    move.Some? ==> CanMove(s, move.value.entity, move.value.position, move.value.cell)
  }

  /** A plan that the commit cannot fail on. */
  ghost predicate Committable(s: Session, sk: SessionKey, config: CoreConfig, channels: Channels, c: nat,
                              plan: Plan, now: nat, room: nat) {
    && CanCommit(s, sk, config, c, plan.sequences, channels, plan.messages, now)
    && CanMoveTo(s, plan.move)
    && |Filter(IsDurable(), plan.messages)| <= room
  }

  lemma PlanStarts(s: Session, sk: SessionKey, config: CoreConfig, channels: Channels, c: nat, m: OutboundMessage,
                   planned: map<SequenceKey, nat>)
    requires ValidateMessage(s, sk, config, channels, c, m, map[]).None?
    requires planned == map[] || planned == map[SequenceKeyOf(c, m) := m.sequence]
    ensures PlanOk(s, c, planned)
  {
  }

  /** Checks each message of the batch in order, raising the plan as it goes. */
  method PlanBatch(s: Session, sk: SessionKey, config: CoreConfig, channels: Channels, c: nat,
                   messages: seq<OutboundMessage>, planned: map<SequenceKey, nat>)
    returns (r: Result<map<SequenceKey, nat>, CoreError>)
    ensures r == PlanSequences(s, sk, config, channels, c, messages, planned)
  {
    var plan := planned;
    for i := 0 to |messages|
      invariant PlanSequences(s, sk, config, channels, c, messages[..i], planned) == Ok(plan)
    {
      assert messages[..i + 1][..i] == messages[..i];
      var e := ValidateMessage(s, sk, config, channels, c, messages[i], plan);
      if e.Some? {
        PlanFails(s, sk, config, channels, c, messages, planned, i + 1);
        return Err(e.value);
      }
      plan := plan[SequenceKeyOf(c, messages[i]) := messages[i].sequence];
    }
    assert messages[..|messages|] == messages;
    return Ok(plan);
  }

  lemma {:induction false} PlanFails(s: Session, sk: SessionKey, config: CoreConfig, channels: Channels, c: nat,
                                     messages: seq<OutboundMessage>, planned: map<SequenceKey, nat>, n: nat)
    requires n <= |messages| && PlanSequences(s, sk, config, channels, c, messages[..n], planned).Err?
    ensures PlanSequences(s, sk, config, channels, c, messages, planned) == PlanSequences(s, sk, config, channels, c,
        messages[..n], planned)
    decreases |messages|
  {
    if n == |messages| {
      assert messages[..n] == messages;
    } else {
      assert messages[..|messages| - 1][..n] == messages[..n];
      PlanFails(s, sk, config, channels, c, messages[..|messages| - 1], planned, n);
    }
  }

  /** The first check that refuses the messages: the proposal itself, the authority's verdict, the batch it lets
      through, message by message, and the sequence budget. */
  ghost function CheckMessages(s: Session, sk: SessionKey, config: CoreConfig, channels: Channels,
                               c: nat, m: OutboundMessage,
                               verdict: Verdict): Option<CoreError> {
    var invalid, batch := ValidateMessage(s, sk, config, channels, c, m, map[]), Authorize(config, c, m, verdict);
    if invalid.Some? then invalid
    else if batch.Err? then Some(batch.error)
    else
      var plan := PlanSequences(s, sk, config, channels, c, batch.value.0, batch.value.1);
      if plan.Err? then Some(plan.error)
      else if |s.sequences| + |NewKeys(s, plan.value)| > config.maxSequenceKeys then Some(SequenceKeyLimitReached)
      else None
  }

  /** The first check that refuses a valid batch once expired state is gone: entries and bytes after the commit,
      the position, the outbox. */
  ghost function CheckRoom(s: Session, config: CoreConfig, channels: Channels, room: nat, c: nat, m: OutboundMessage,
                           messages: seq<OutboundMessage>, now: nat): Option<CoreError>
    requires Placeable(s)
  {
    var state, move := PutAll(s.state, channels, messages, now), PlacePublished(s, c, m);
    if |state| > config.maxStateEntries then Some(StateEntryLimitReached)
    else if ByteLen(state) > config.maxStateBytes then Some(StateByteLimitReached)
    else if move.Err? then Some(move.error)
    else if |Filter(IsDurable(), messages)| > room then Some(JournalOutboxSaturated)
    else None
  }

  /** Why planning refuses, if it does, and the session afterwards. */
  ghost function PlanOutcome(s: Session, sk: SessionKey, config: CoreConfig, channels: Channels, room: nat,
                             c: nat, m: OutboundMessage,
                             verdict: Verdict, now: nat): (Session, Option<CoreError>)
    requires Placeable(s)
  {
    var e := CheckMessages(s, sk, config, channels, c, m, verdict);
    if e.Some? then (s, e)
    else (SweepState(s, now), CheckRoom(SweepState(s, now), config, channels, room, c, m,
                                        Authorize(config, c, m, verdict).value.0, now))
  }

  /** Planning in `s` leaves `s'` and answers `e`. The quantifier over the one session `s` keeps the checks folded in
      proofs that only pass the answer on. */
  ghost predicate PlanAnswers(s: Session, sk: SessionKey, config: CoreConfig, channels: Channels, room: nat,
                              c: nat, m: OutboundMessage,
                              verdict: Verdict, now: nat, s': Session, e: Option<CoreError>) {
    forall t {:trigger Placeable(t)} | t == s ::
      Placeable(t) && PlanOutcome(t, sk, config, channels, room, c, m, verdict, now) == (s', e)
  }

  /** The plan of a publish. */
  ghost predicate Planned(s: Session, sk: SessionKey, config: CoreConfig, channels: Channels,
                          c: nat, m: OutboundMessage,
                          verdict: Verdict, plan: Plan) {
    var batch := Authorize(config, c, m, verdict);
    && batch.Ok? && plan.messages == batch.value.0
    && PlanSequences(s, sk, config, channels, c, plan.messages, batch.value.1) == Ok(plan.sequences)
    && (m.routingPosition.None? ==> plan.move.None?)
    && (m.routingPosition.Some?
        ==> plan.move.Some? && Some(plan.move.value.entity) == m.entity
            && plan.move.value.position == m.routingPosition.value)
  }

  /** Authority verdict, message validation and the sequence budget. */
  method PlanMessages(s: Session, sk: SessionKey, config: CoreConfig, channels: Channels, c: nat,
                      m: OutboundMessage, verdict: Verdict)
    returns (r: Result<(seq<OutboundMessage>, map<SequenceKey, nat>), CoreError>)
    requires m.Session() == sk
    ensures CheckMessages(s, sk, config, channels, c, m, verdict) == ErrorOf(r)
    ensures r.Ok? ==>
              && Authorize(config, c, m, verdict).Ok? && Authorize(config, c, m, verdict).value.0 == r.value.0
              && PlanSequences(s, sk, config, channels, c, r.value.0,
                               Authorize(config, c, m, verdict).value.1) == Ok(r.value.1)
              && PlanOk(s, c, r.value.1) && (forall i | 0 <= i < |r.value.0| :: Sound(s, sk, r.value.0[i]))
              && |s.sequences| + |NewKeys(s, r.value.1)| <= config.maxSequenceKeys
  {
    var invalid := ValidateMessage(s, sk, config, channels, c, m, map[]);
    if invalid.Some? { return Err(invalid.value); }
    var batch := Authorize(config, c, m, verdict);
    if batch.Err? { return Err(batch.error); }
    var messages := batch.value.0;
    PlanStarts(s, sk, config, channels, c, m, batch.value.1);
    var plan := PlanBatch(s, sk, config, channels, c, messages, batch.value.1);
    if plan.Err? { return Err(plan.error); }
    PlannedIsOk(s, sk, config, channels, c, messages, batch.value.1);
    if |s.sequences| + |NewKeys(s, plan.value)| > config.maxSequenceKeys { return Err(SequenceKeyLimitReached); }
    return Ok((messages, plan.value));
  }

  /** All validation after access control. Nothing but expired state is touched, and a plan that comes
      out can be committed without any further failure. */
  method PlanPublish(s: Session, sk: SessionKey, config: CoreConfig, channels: Channels, room: nat,
                     c: nat, m: OutboundMessage,
                     verdict: Verdict, now: nat)
    returns (s': Session, r: Result<Plan, CoreError>)
    requires SpacesOk(s) && EntitiesOk(s) && s.stateBytes == ByteLen(s.state) && c in s.members && m.Session() == sk
    ensures PlanAnswers(s, sk, config, channels, room, c, m, verdict, now, s', ErrorOf(r))
    ensures s' == s || s' == SweepState(s, now)
    ensures r.Ok? ==> s' == SweepState(s, now)
    ensures r.Ok? ==> Committable(s', sk, config, channels, c, r.value, now, room)
    ensures r.Ok? ==> Planned(s, sk, config, channels, c, m, verdict, r.value)
  {
    s' := s;
    var batch := PlanMessages(s, sk, config, channels, c, m, verdict);
    if batch.Err? {
      MessagesAnswer(s, sk, config, channels, room, c, m, verdict, now);
      return s', Err(batch.error);
    }
    var (messages, plan) := batch.value;
    s' := SweepSession(s, now);
    SweepKeepsSound(s, sk, c, plan, messages, now);
    var move := PlanRoom(s', config, channels, room, c, m, messages, now);
    RoomAnswers(s, sk, config, channels, room, c, m, verdict, now);
    if move.Err? { return s', Err(move.error); }
    RoomSuffices(s', sk, config, channels, room, c, m, Plan(messages, plan, move.value), now);
    return s', Ok(Plan(messages, plan, move.value));
  }

  lemma RoomSuffices(s: Session, sk: SessionKey, config: CoreConfig, channels: Channels, room: nat, c: nat,
                     m: OutboundMessage, plan: Plan, now: nat)
    requires PlanOk(s, c, plan.sequences) && c in s.members && CanMoveTo(s, plan.move) && Placeable(s)
    requires forall i | 0 <= i < |plan.messages| :: Sound(s, sk, plan.messages[i])
    requires |s.sequences| + |NewKeys(s, plan.sequences)| <= config.maxSequenceKeys
    requires CheckRoom(s, config, channels, room, c, m, plan.messages, now).None?
    ensures Committable(s, sk, config, channels, c, plan, now, room)
  {
  }

  lemma MessagesAnswer(s: Session, sk: SessionKey, config: CoreConfig, channels: Channels, room: nat,
                       c: nat, m: OutboundMessage,
                       verdict: Verdict, now: nat)
    requires Placeable(s) && CheckMessages(s, sk, config, channels, c, m, verdict).Some?
    ensures PlanAnswers(s, sk, config, channels, room, c, m, verdict, now, s,
                        CheckMessages(s, sk, config, channels, c, m, verdict))
  {
  }

  lemma RoomAnswers(s: Session, sk: SessionKey, config: CoreConfig, channels: Channels, room: nat,
                    c: nat, m: OutboundMessage,
                    verdict: Verdict, now: nat)
    requires Placeable(s) && Placeable(SweepState(s, now))
    requires CheckMessages(s, sk, config, channels, c, m, verdict).None? && Authorize(config, c, m, verdict).Ok?
    ensures PlanAnswers(s, sk, config, channels, room, c, m, verdict, now, SweepState(s, now),
                        CheckRoom(SweepState(s, now), config, channels, room, c, m,
                                  Authorize(config, c, m, verdict).value.0, now))
  {
  }

  function ErrorOf<T>(r: Result<T, CoreError>): Option<CoreError> { if r.Err? then Some(r.error) else None }

  /** Entries, bytes, position and outbox, in this order. */
  method PlanRoom(s: Session, config: CoreConfig, channels: Channels, room: nat, c: nat, m: OutboundMessage,
                  messages: seq<OutboundMessage>, now: nat)
    returns (r: Result<Option<Placement>, CoreError>)
    requires Placeable(s) && s.stateBytes == ByteLen(s.state)
    ensures CheckRoom(s, config, channels, room, c, m, messages, now) == ErrorOf(r)
    ensures r.Ok? ==> r == PlacePublished(s, c, m) && CanMoveTo(s, r.value)
  {
    var entries, bytes := ProjectCapacity(s.state, s.stateBytes, channels, messages, now);
    if entries > config.maxStateEntries { return Err(StateEntryLimitReached); }
    if bytes > config.maxStateBytes { return Err(StateByteLimitReached); }
    var move := PlacePublished(s, c, m);
    if move.Err? { return Err(move.error); }
    PlacementMoves(s, c, m);
    if |Filter(IsDurable(), messages)| > room { return Err(JournalOutboxSaturated); }
    return move;
  }

  lemma PlacementMoves(s: Session, c: nat, m: OutboundMessage)
    requires Placeable(s) && PlacePublished(s, c, m).Ok?
    ensures CanMoveTo(s, PlacePublished(s, c, m).value)
  {
  }

  /** Reclaims the session's expired values; the byte counter is recomputed only if any went. */
  method SweepSession(s: Session, now: nat) returns (s': Session)
    requires s.stateBytes == ByteLen(s.state)
    ensures s' == SweepState(s, now)
  {
    var state := map k | k in s.state && !s.state[k].ExpiredAt(now) :: s.state[k];
    SweepSize(s.state, now);
    s' := s.(state := state);
    if |s.state| - |state| > 0 {
      var bytes := SumBytes(state);
      s' := s'.(stateBytes := bytes);
    }
  }

  lemma SweepKeepsSound(s: Session, sk: SessionKey, c: nat, plan: map<SequenceKey, nat>,
                        messages: seq<OutboundMessage>, now: nat)
    requires PlanOk(s, c, plan) && forall i | 0 <= i < |messages| :: Sound(s, sk, messages[i])
    ensures PlanOk(SweepState(s, now), c, plan) && forall i | 0 <= i < |messages| ::
            Sound(SweepState(s, now), sk, messages[i])
    ensures NewKeys(SweepState(s, now), plan) == NewKeys(s, plan)
  {
  }

  // ------------------------------------------------------------------ commit

  /** Appends the durable messages in order. The capacity was checked for the whole batch, so the
      outbox never refuses one halfway. */
  method AppendDurable(journal: seq<OutboundMessage>, capacity: nat, messages: seq<OutboundMessage>)
    returns (journal': seq<OutboundMessage>)
    requires |journal| + |Filter(IsDurable(), messages)| <= capacity
    ensures journal' == journal + Filter(IsDurable(), messages)
  {
    journal' := journal;
    for i := 0 to |messages|
      invariant journal' == journal + Filter(IsDurable(), messages[..i])
    {
      assert messages[..i + 1] == messages[..i] + [messages[i]];
      FilterSnoc(IsDurable(), messages[..i], messages[i]);
      if messages[i].persistence.Durable? {
        assert |journal'| < capacity by {
          assert messages == messages[..i + 1] + messages[i + 1..];
          FilterConcat(IsDurable(), messages[..i + 1], messages[i + 1..]);
        }
        journal' := journal' + [messages[i]];
      }
    }
    assert messages[..|messages|] == messages;
  }

  ghost function MoveTo(s: Session, move: Option<Placement>): Session
    requires CanMoveTo(s, move)
  {
    if move.None? then s else Move(s, move.value.entity, move.value.position, move.value.cell)
  }

  /** The session after the commit. */
  ghost function CommitPlan(s: Session, channels: Channels, plan: Plan, now: nat): Session
    requires CanMoveTo(s, plan.move)
  {
    CommitSession(MoveTo(s, plan.move), plan.sequences, channels, plan.messages, now)
  }

  lemma ExtendKeepsPlan(s: Session, s': Session, sk: SessionKey, c: nat, plan: Plan)
    requires Extends(s, s') && s'.sequences == s.sequences && PlanOk(s, c, plan.sequences)
    requires forall i | 0 <= i < |plan.messages| :: Sound(s, sk, plan.messages[i])
    ensures PlanOk(s', c, plan.sequences) && forall i | 0 <= i < |plan.messages| :: Sound(s', sk, plan.messages[i])
    ensures NewKeys(s', plan.sequences) == NewKeys(s, plan.sequences)
  {
  }

  lemma MoveToFrame(s: Session, move: Option<Placement>)
    requires CanMoveTo(s, move)
    ensures var s' := MoveTo(s, move);
            Extends(s, s') && s'.sequences == s.sequences && s'.state == s.state && s'.members == s.members
  {
    if move.Some? { MoveExtends(s, move.value.entity, move.value.position, move.value.cell); }
  }

  lemma MoveKeepsCommittable(s: Session, sk: SessionKey, config: CoreConfig, channels: Channels, c: nat,
                             plan: Plan, now: nat, room: nat)
    requires Committable(s, sk, config, channels, c, plan, now, room)
    ensures CanCommit(MoveTo(s, plan.move), sk, config, c, plan.sequences, channels, plan.messages, now)
  {
    var s' := MoveTo(s, plan.move);
    MoveToFrame(s, plan.move);
    ExtendKeepsPlan(s, s', sk, c, plan);
  }

  lemma MoveToOk(s: Session, config: CoreConfig, move: Option<Placement>)
    requires SessionOk(s, config) && CanMoveTo(s, move)
    ensures SessionOk(MoveTo(s, move), config)
  {
    if move.Some? { MoveOk(s, config, move.value.entity, move.value.position, move.value.cell); }
  }

  lemma CommitPlanOk(s: Session, sk: SessionKey, config: CoreConfig, channels: Channels, c: nat,
                     plan: Plan, now: nat, room: nat)
    requires SessionOk(s, config) && Committable(s, sk, config, channels, c, plan, now, room)
    ensures SessionOk(CommitPlan(s, channels, plan, now), config)
  {
    MoveKeepsCommittable(s, sk, config, channels, c, plan, now, room);
    MoveToOk(s, config, plan.move);
    CommitOk(MoveTo(s, plan.move), sk, config, c, plan.sequences, channels, plan.messages, now);
  }

  lemma CommitPlanExtends(s: Session, channels: Channels, plan: Plan, now: nat)
    requires CanMoveTo(s, plan.move)
    ensures var s' := CommitPlan(s, channels, plan, now);
            Extends(s, s') && s'.spaces == s.spaces && s'.tombstones == s.tombstones
  {
    if plan.move.Some? { MoveExtends(s, plan.move.value.entity, plan.move.value.position, plan.move.value.cell); }
  }

  lemma CommitStep(g: Graph, sk: SessionKey, config: CoreConfig, channels: Channels, c: nat,
                   plan: Plan, now: nat, room: nat)
    requires Inv(g, config) && sk in g.sessions && Committable(g.sessions[sk], sk, config, channels, c, plan, now, room)
    ensures Advances(g, config, WithSession(g, sk, CommitPlan(g.sessions[sk], channels, plan, now)))
  {
    SessionOf(g, config, sk);
    CommitPlanOk(g.sessions[sk], sk, config, channels, c, plan, now, room);
    CommitPlanExtends(g.sessions[sk], channels, plan, now);
    ExtendStep(g, config, sk, CommitPlan(g.sessions[sk], channels, plan, now));
  }

  lemma CommitKeepsSound(s: Session, sk: SessionKey, channels: Channels, plan: Plan, now: nat)
    requires CanMoveTo(s, plan.move) && forall i | 0 <= i < |plan.messages| :: Sound(s, sk, plan.messages[i])
    ensures forall i | 0 <= i < |plan.messages| :: Sound(CommitPlan(s, channels, plan, now), sk, plan.messages[i])
  {
    CommitPlanExtends(s, channels, plan, now);
  }

  /** Writes position, sequences and values into the session's tables. */
  method WritePlan(s: Session, channels: Channels, plan: Plan, now: nat) returns (s': Session)
    requires CanMoveTo(s, plan.move) && s.cellEntities == CellsOf(s.entityCells) && s.stateBytes == ByteLen(s.state)
    ensures s' == CommitPlan(s, channels, plan, now)
  {
    s' := s;
    if plan.move.Some? {
      var Placement(e, position, cell) := plan.move.value;
      var ec, ce := Reindex(s.entityCells, s.cellEntities, e, cell);
      s' := s.(entities := s.entities[e := s.entities[e].(position := Some(position))],
               entityCells := ec, cellEntities := ce);
    }
    assert s' == MoveTo(s, plan.move);
    var state, bytes := CommitState(s'.state, s'.stateBytes, channels, plan.messages, now);
    s' := s'.(sequences := s'.sequences + plan.sequences, state := state, stateBytes := bytes);
  }

  lemma RoutingReadyOf(g: Graph, config: CoreConfig, sk: SessionKey)
    requires SessionsOk(g, config) && sk in g.sessions
    ensures RoutingReady(g, sk) && Structured(g.sessions[sk])
  {
    assert SessionOk(g.sessions[sk], config);
  }

  /** Each committed message is routed and pushed; overflowing consumers are collected. */
  method FanoutMessages(g: Graph, config: CoreConfig, sk: SessionKey, messages: seq<OutboundMessage>)
    returns (g': Graph, dropped: set<nat>)
    requires RoutingReady(g, sk) && Structured(g.sessions[sk]) && QueuesStayOk(g, config, sk, messages)
    requires forall i | 0 <= i < |messages| :: Sound(g.sessions[sk], sk, messages[i])
    ensures (g', dropped) == FanoutAll(g, config, sk, messages)
  {
    g', dropped := g, {};
    for i := 0 to |messages|
      invariant (g', dropped) == FanoutAll(g, config, sk, messages[..i])
    {
      assert QueuesOk(g', config);
      FanoutSnoc(g, config, sk, messages, i);
      g', dropped := RouteAndPush(g', config, sk, messages[i], dropped);
    }
    assert messages[..|messages|] == messages;
  }

  lemma FanoutSnoc(g: Graph, config: CoreConfig, sk: SessionKey, messages: seq<OutboundMessage>, i: nat)
    requires i < |messages| && RoutingReady(g, sk)
    ensures var (g1, dropped) := FanoutAll(g, config, sk, messages[..i]);
            var targets := Targets(g1, messages[i], Recipients(g1.sessions[sk], messages[i]), dropped);
            FanoutAll(g, config, sk, messages[..i + 1])
            == (PushTo(g1, config, targets, messages[i]), dropped + Overflowed(g1, config, targets, messages[i]))
  {
    assert messages[..i + 1][..i] == messages[..i];
  }

  method RouteAndPush(g: Graph, config: CoreConfig, sk: SessionKey, m: OutboundMessage, dropped: set<nat>)
    returns (g': Graph, dropped': set<nat>)
    requires QueuesOk(g, config) && RoutingReady(g, sk) && Structured(g.sessions[sk]) && Sound(g.sessions[sk], sk, m)
    ensures var targets := Targets(g, m, Recipients(g.sessions[sk], m), dropped);
            g' == PushTo(g, config, targets, m) && dropped' == dropped + Overflowed(g, config, targets, m)
  {
    var recipients := RoutingRecipients(g.sessions[sk], m);
    var cs, overflowed := PushRecipients(g, config, g.sessions[sk], sk, m, recipients, dropped);
    g', dropped' := g.(connections := cs), dropped + overflowed;
  }

  /** Queues are in order at every point of the fan-out. */
  ghost predicate QueuesStayOk(g: Graph, config: CoreConfig, sk: SessionKey, messages: seq<OutboundMessage>)
    requires RoutingReady(g, sk)
  {
    forall i | 0 <= i <= |messages| :: QueuesOk(FanoutAll(g, config, sk, messages[..i]).0, config)
  }

  lemma FanoutQueues(g: Graph, config: CoreConfig, sk: SessionKey, messages: seq<OutboundMessage>)
    requires Inv(g, config) && RoutingReady(g, sk)
    requires forall i | 0 <= i < |messages| :: Sound(g.sessions[sk], sk, messages[i])
    ensures QueuesStayOk(g, config, sk, messages)
  {
    forall i | 0 <= i <= |messages| ensures QueuesOk(FanoutAll(g, config, sk, messages[..i]).0, config) {
      FanoutKeepsInv(g, config, sk, messages[..i]);
    }
  }


  // ------------------------------------------------------------------ transport loss

  lemma DetachedCascadable(g: Graph, config: CoreConfig, c: nat, order: seq<SessionKey>, sk: SessionKey)
    requires Inv(g, config) && c in g.connections && sk in g.sessions
             && forall i | 0 <= i < |order| :: order[i] in g.sessions
    ensures Cascadable(DetachAll(g, c, order), sk)
  {
    DetachAllKeepsInv(g, config, c, order);
    CascadableOf(DetachAll(g, c, order), config, sk);
  }

  lemma MembershipsExist(g: Graph, c: nat)
    requires MembershipsKnown(g) && c in g.connections
    ensures forall sk | sk in g.connections[c].memberships :: sk in g.sessions
  {
  }

  ghost predicate Known(g: Graph, order: seq<SessionKey>) {
    forall i | 0 <= i < |order| :: order[i] in g.sessions
  }

  /** However far the detaching has come, the next session can be detached. */
  ghost predicate DetachesCleanly(g: Graph, c: nat)
    requires c in g.connections
  {
    forall order, sk | Known(g, order) && sk in g.sessions :: Cascadable(DetachAll(g, c, order), sk)
  }

  lemma InvDetachesCleanly(g: Graph, config: CoreConfig, c: nat)
    requires Inv(g, config) && c in g.connections
    ensures DetachesCleanly(g, c)
  {
    forall order, sk | Known(g, order) && sk in g.sessions ensures Cascadable(DetachAll(g, c, order), sk) {
      DetachedCascadable(g, config, c, order, sk);
    }
  }

  /** Leaves every session the connection is in, in any order, then forgets the connection. */
  method LoseConnection(g: Graph, ghost config: CoreConfig, c: nat) returns (g': Graph, ghost order: seq<SessionKey>)
    requires Inv(g, config) && c in g.connections
    ensures Covers(g, c, order) && g' == Disconnect(g, c, order)
  {
    MembershipsExist(g, c);
    InvDetachesCleanly(g, config, c);
    g', order := DetachMemberships(g, c, g.connections[c].memberships);
    g' := g'.(connections := g'.connections - {c});
  }

  lemma NextCascadable(g: Graph, c: nat, order: seq<SessionKey>, sk: SessionKey)
    requires c in g.connections && sk in g.sessions && Known(g, order) && DetachesCleanly(g, c)
    ensures Cascadable(DetachAll(g, c, order), sk)
  {
  }

  lemma KnownSnoc(g: Graph, order: seq<SessionKey>, sk: SessionKey)
    requires Known(g, order) && sk in g.sessions
    ensures Known(g, order + [sk])
  {
  }

  lemma KnownInit(g: Graph, order: seq<SessionKey>)
    requires Known(g, order) && order != []
    ensures Known(g, order[..|order| - 1]) && order[|order| - 1] in g.sessions
    ensures order == order[..|order| - 1] + [order[|order| - 1]]
  {
  }

  lemma DetachAllSnoc(g: Graph, c: nat, order: seq<SessionKey>, sk: SessionKey)
    requires c in g.connections && sk in g.sessions && Known(g, order) && Known(g, order + [sk])
    ensures DetachAll(g, c, order + [sk]) == Detach(DetachAll(g, c, order), c, sk)
  {
    assert (order + [sk])[..|order|] == order;
  }

  method DetachNext(ghost g: Graph, c: nat, ghost order: seq<SessionKey>, g1: Graph, sk: SessionKey)
    returns (g2: Graph)
    requires c in g.connections && sk in g.sessions && Known(g, order) && DetachesCleanly(g, c)
    requires g1 == DetachAll(g, c, order)
    ensures Known(g, order + [sk]) && g2 == DetachAll(g, c, order + [sk])
  {
    NextCascadable(g, c, order, sk);
    g2 := DetachMember(g1, c, sk);
    KnownSnoc(g, order, sk);
    DetachAllSnoc(g, c, order, sk);
  }

  method DetachMemberships(g: Graph, c: nat, memberships: set<SessionKey>)
    returns (g': Graph, ghost order: seq<SessionKey>)
    requires c in g.connections && DetachesCleanly(g, c) && forall sk | sk in memberships :: sk in g.sessions
    ensures Known(g, order)
    ensures forall sk | sk in memberships :: sk in order
    ensures g' == DetachAll(g, c, order)
  {
    g', order := g, [];
    var rest := memberships;
    while rest != {}
      invariant rest <= memberships
      invariant Known(g, order)
      invariant forall sk | sk in memberships && sk !in rest :: sk in order
      invariant g' == DetachAll(g, c, order)
    {
      var sk :| sk in rest;
      g' := DetachNext(g, c, order, g', sk);
      rest := rest - {sk};
      order := order + [sk];
    }
  }

  method Enumerate(lost: set<nat>) returns (order: seq<nat>)
    ensures Distinct(order) && forall c :: c in order <==> c in lost
  {
    order := [];
    var rest := lost;
    while rest != {}
      invariant rest <= lost && Distinct(order)
      invariant forall c :: c in order <==> c in lost - rest
    {
      var c :| c in rest;
      assert forall i | 0 <= i < |order| :: order[i] in order;
      rest := rest - {c};
      order := order + [c];
    }
  }

  /** Loses each of the given connections in turn. */
  method LoseAll(g: Graph, config: CoreConfig, lost: seq<nat>) returns (g': Graph, ghost orders: seq<seq<SessionKey>>)
    requires Inv(g, config) && Distinct(lost) && forall c | c in lost :: c in g.connections
    ensures Loses(g, lost, orders) && g' == DisconnectAll(g, lost, orders) && Advances(g, config, g')
  {
    g', orders := g, [];
    NoStep(g, config);
    assert lost[..0] == [];
    for i := 0 to |lost|
      invariant Losing(g, config, lost[..i], orders, g')
    {
      g', orders := LoseNext(g, config, lost, i, orders, g');
    }
    assert lost[..|lost|] == lost;
  }

  ghost predicate Losing(g: Graph, config: CoreConfig, lost: seq<nat>, orders: seq<seq<SessionKey>>, g': Graph) {
    Loses(g, lost, orders) && g' == DisconnectAll(g, lost, orders) && Advances(g, config, g')
  }

  method LoseNext(ghost g: Graph, config: CoreConfig, lost: seq<nat>, i: nat,
                  ghost orders: seq<seq<SessionKey>>, g1: Graph)
    returns (g2: Graph, ghost orders': seq<seq<SessionKey>>)
    requires i < |lost| && Distinct(lost) && lost[i] in g.connections && Losing(g, config, lost[..i], orders, g1)
    ensures Losing(g, config, lost[..i + 1], orders', g2)
  {
    var c := lost[i];
    LosesExactly(g, lost[..i], orders, c);
    ghost var order;
    g2, order := LoseConnection(g1, config, c);
    DisconnectStep(g1, config, c, order);
    Chain(g, config, g1, g2);
    DisconnectSnoc(g, lost[..i], orders, c, order);
    LosesSnoc(g, lost[..i], orders, c, order);
    orders' := orders + [order];
    assert lost[..i + 1] == lost[..i] + [c];
  }

  // ------------------------------------------------------------------ the whole command

  /** Everything an accepted publish does, from the budgets spent to the consumers lost. */
  ghost predicate Published(g: Graph, journal: seq<OutboundMessage>, config: CoreConfig, channels: Channels, c: nat,
                            m: OutboundMessage, verdict: Verdict, now: nat,
                            g': Graph, journal': seq<OutboundMessage>, lost: seq<nat>) {
    exists spent, plan, orders ::
      && c in g.connections && SpendOutcome(g, config, c, m, now) == (spent, None)
      && PublishedByPlan(spent, journal, config, channels, c, m, verdict, now, plan, g', journal', lost, orders)
  }

  /** No check of the planning refused, and the plan was carried out. */
  ghost predicate PublishedByPlan(g: Graph, journal: seq<OutboundMessage>, config: CoreConfig, channels: Channels,
                                  c: nat, m: OutboundMessage,
                                  verdict: Verdict, now: nat, plan: Plan, g': Graph, journal': seq<OutboundMessage>,
                                  lost: seq<nat>, orders: seq<seq<SessionKey>>) {
    var sk := m.Session();
    && sk in g.sessions && |journal| <= config.journalCapacity
    && PlanAnswers(g.sessions[sk], sk, config, channels, config.journalCapacity - |journal|, c, m, verdict, now,
                   SweepState(g.sessions[sk], now), None)
    && Planned(g.sessions[sk], sk, config, channels, c, m, verdict, plan)
    && journal' == journal + Filter(IsDurable(), plan.messages)
    && Delivered(g, config, channels, sk, plan, now, g', lost, orders)
  }

  /** Planning refused; at most expired state is gone. */
  ghost predicate RefusedByPlan(g: Graph, journal: seq<OutboundMessage>, config: CoreConfig, channels: Channels,
                                c: nat, m: OutboundMessage,
                                verdict: Verdict, now: nat, g': Graph,
                                  journal': seq<OutboundMessage>, error: CoreError) {
    var sk := m.Session();
    && journal' == journal && |journal| <= config.journalCapacity && sk in g.sessions && sk in g'.sessions
    && PlanAnswers(g.sessions[sk], sk, config, channels, config.journalCapacity - |journal|, c, m, verdict, now,
                   g'.sessions[sk], Some(error))
    && (g' == g || g' == WithSession(g, sk, SweepState(g.sessions[sk], now)))
  }

  /** The commit of a plan, its fan-out and the loss of every consumer that overflowed. */
  ghost predicate Delivered(g: Graph, config: CoreConfig, channels: Channels, sk: SessionKey, plan: Plan, now: nat,
                            g': Graph, lost: seq<nat>, orders: seq<seq<SessionKey>>) {
    && sk in g.sessions && CanMoveTo(SweepState(g.sessions[sk], now), plan.move)
    && var committed := WithSession(g, sk, CommitPlan(SweepState(g.sessions[sk], now), channels, plan, now));
       RoutingReady(committed, sk) && FansOut(committed, config, sk, plan.messages, g', lost, orders)
  }

  ghost predicate FansOut(g: Graph, config: CoreConfig, sk: SessionKey, messages: seq<OutboundMessage>,
                          g': Graph, lost: seq<nat>, orders: seq<seq<SessionKey>>)
    requires RoutingReady(g, sk)
  {
    var (fanned, overflowed) := FanoutAll(g, config, sk, messages);
    && Distinct(lost) && (forall i :: i in lost <==> i in overflowed)
    && (forall c | c in fanned.connections :: AllStand(fanned, fanned.connections[c].outbound))
    && Loses(fanned, lost, orders) && g' == DisconnectAll(fanned, lost, orders)
  }

  /** Fan-out and the loss of overflowed consumers, from a committed graph. */
  method Deliver(g: Graph, config: CoreConfig, sk: SessionKey, messages: seq<OutboundMessage>) 
    returns (g': Graph, lost: seq<nat>, ghost orders: seq<seq<SessionKey>>)
    requires Inv(g, config) && sk in g.sessions && forall i | 0 <= i < |messages| ::
             Sound(g.sessions[sk], sk, messages[i])
    ensures RoutingReady(g, sk)
    ensures FansOut(g, config, sk, messages, g', lost, orders)
    ensures Advances(g, config, g')
  {
    RoutingReadyOf(g, config, sk);
    FanoutQueues(g, config, sk, messages);
    var fanned, overflowed := FanoutMessages(g, config, sk, messages);
    FanoutStep(g, config, sk, messages);
    DeliverableStands(fanned, config);
    lost := Enumerate(overflowed);
    g', orders := LoseAll(fanned, config, lost);
    Chain(g, config, fanned, g');
  }

  lemma FanoutStep(g: Graph, config: CoreConfig, sk: SessionKey, messages: seq<OutboundMessage>)
    requires Inv(g, config) && RoutingReady(g, sk) && forall i | 0 <= i < |messages| ::
             Sound(g.sessions[sk], sk, messages[i])
    ensures Advances(g, config, FanoutAll(g, config, sk, messages).0)
  {
    FanoutKeepsInv(g, config, sk, messages);
    SameSessionsLater(g, FanoutAll(g, config, sk, messages).0);
  }

  lemma PublishReady(g: Graph, config: CoreConfig, c: nat, sk: SessionKey)
    requires SessionsOk(g, config) && MembershipsKnown(g) && c in g.connections && sk in g.connections[c].memberships
    ensures sk in g.sessions && c in g.sessions[sk].members
    ensures SpacesOk(g.sessions[sk]) && EntitiesOk(g.sessions[sk])
            && g.sessions[sk].stateBytes == ByteLen(g.sessions[sk].state)
    ensures g.sessions[sk].cellEntities == CellsOf(g.sessions[sk].entityCells)
  {
    assert SessionOk(g.sessions[sk], config);
  }

  lemma Overwrite(g: Graph, sk: SessionKey, s1: Session, s2: Session)
    ensures WithSession(WithSession(g, sk, s1), sk, s2) == WithSession(g, sk, s2)
  {
    assert g.sessions[sk := s1][sk := s2] == g.sessions[sk := s2];
  }

  lemma Unchanged(g: Graph, sk: SessionKey)
    requires sk in g.sessions
    ensures WithSession(g, sk, g.sessions[sk]) == g
  {
    assert g.sessions[sk := g.sessions[sk]] == g.sessions;
  }

  /** Validation inside the graph: at most the session's expired state goes. */
  method PlanIn(g: Graph, config: CoreConfig, channels: Channels, journal: seq<OutboundMessage>,
                c: nat, m: OutboundMessage,
                verdict: Verdict, now: nat)
    returns (g': Graph, r: Result<Plan, CoreError>)
    requires Inv(g, config) && |journal| <= config.journalCapacity && c in g.connections
             && m.Session() in g.connections[c].memberships
    ensures Advances(g, config, g')
    ensures r.Err? ==> RefusedByPlan(g, journal, config, channels, c, m, verdict, now, g', journal, r.error)
    ensures r.Ok? ==> PlanStands(g, journal, config, channels, c, m, verdict, now, g', r.value)
  {
    PublishReady(g, config, c, m.Session());
    g', r := PlanTables(g, config, channels, journal, c, m, verdict, now);
    PlanStep(g, config, m.Session(), now, g');
  }

  lemma PlanStep(g: Graph, config: CoreConfig, sk: SessionKey, now: nat, g': Graph)
    requires Inv(g, config) && sk in g.sessions
             && (g' == g || g' == WithSession(g, sk, SweepState(g.sessions[sk], now)))
    ensures Advances(g, config, g')
  {
    NoStep(g, config);
    SweepStep(g, config, sk, now);
  }

  method PlanTables(g: Graph, config: CoreConfig, channels: Channels, journal: seq<OutboundMessage>,
                    c: nat, m: OutboundMessage,
                    verdict: Verdict, now: nat)
    returns (g': Graph, r: Result<Plan, CoreError>)
    requires |journal| <= config.journalCapacity && m.Session() in g.sessions && c in g.sessions[m.Session()].members
    requires var s := g.sessions[m.Session()]; SpacesOk(s) && EntitiesOk(s) && s.stateBytes == ByteLen(s.state)
    ensures g' == g || g' == WithSession(g, m.Session(), SweepState(g.sessions[m.Session()], now))
    ensures r.Err? ==> RefusedByPlan(g, journal, config, channels, c, m, verdict, now, g', journal, r.error)
    ensures r.Ok? ==> PlanStands(g, journal, config, channels, c, m, verdict, now, g', r.value)
  {
    var sk := m.Session();
    var s;
    s, r := PlanPublish(g.sessions[sk], sk, config, channels, config.journalCapacity - |journal|, c, m, verdict, now);
    g' := g.(sessions := g.sessions[sk := s]);
    Unchanged(g, sk);
  }

  /** The commit: the outbox and the session's tables, then the fan-out. No step of it can fail. */
  method CommitIn(g: Graph, config: CoreConfig, channels: Channels, journal: seq<OutboundMessage>,
                  sk: SessionKey, ghost c: nat,
                  plan: Plan, now: nat)
    returns (g': Graph, journal': seq<OutboundMessage>, lost: seq<nat>, ghost orders: seq<seq<SessionKey>>)
    requires Inv(g, config) && |journal| <= config.journalCapacity && sk in g.sessions
    requires Committable(g.sessions[sk], sk, config, channels, c, plan, now, config.journalCapacity - |journal|)
    ensures Advances(g, config, g')
    ensures journal' == journal + Filter(IsDurable(), plan.messages) && |journal'| <= config.journalCapacity
    ensures var committed := WithSession(g, sk, CommitPlan(g.sessions[sk], channels, plan, now));
            RoutingReady(committed, sk) && FansOut(committed, config, sk, plan.messages, g', lost, orders)
  {
    journal' := AppendDurable(journal, config.journalCapacity, plan.messages);
    TablesReady(g, config, sk);
    var s := WritePlan(g.sessions[sk], channels, plan, now);
    CommitStep(g, sk, config, channels, c, plan, now, config.journalCapacity - |journal|);
    CommitKeepsSound(g.sessions[sk], sk, channels, plan, now);
    var committed := g.(sessions := g.sessions[sk := s]);
    g', lost, orders := Deliver(committed, config, sk, plan.messages);
    Chain(g, config, committed, g');
  }

  lemma TablesReady(g: Graph, config: CoreConfig, sk: SessionKey)
    requires SessionsOk(g, config) && sk in g.sessions
    ensures g.sessions[sk].stateBytes == ByteLen(g.sessions[sk].state)
    ensures g.sessions[sk].cellEntities == CellsOf(g.sessions[sk].entityCells)
  {
    assert SessionOk(g.sessions[sk], config);
  }

  /** Why a publish is refused and what it has changed: the budgets it was charged and, once its messages were
      found valid, at most expired state. */
  ghost predicate Refused(g: Graph, journal: seq<OutboundMessage>, config: CoreConfig, channels: Channels,
                          c: nat, m: OutboundMessage,
                          verdict: Verdict, now: nat, g': Graph, journal': seq<OutboundMessage>, error: CoreError) {
    && c in g.connections
    && var (spent, e) := SpendOutcome(g, config, c, m, now);
       if e.Some? then g' == spent && journal' == journal && error == e.value
       else RefusedByPlan(spent, journal, config, channels, c, m, verdict, now, g', journal', error)
  }

  /** Nothing but the charged budgets and some session's expired state differs. */
  ghost predicate ChargedOnly(g: Graph, config: CoreConfig, c: nat, m: OutboundMessage, now: nat, g': Graph) {
    && c in g.connections
    && var spent := SpendOutcome(g, config, c, m, now).0;
       g' == spent
       || (m.Session() in spent.sessions
           && g' == WithSession(spent, m.Session(), SweepState(spent.sessions[m.Session()], now)))
  }

  lemma RefusedIsCharged(g: Graph, journal: seq<OutboundMessage>, config: CoreConfig, channels: Channels,
                         c: nat, m: OutboundMessage,
                         verdict: Verdict, now: nat, g': Graph, journal': seq<OutboundMessage>, error: CoreError)
    requires Refused(g, journal, config, channels, c, m, verdict, now, g', journal', error)
    ensures ChargedOnly(g, config, c, m, now, g')
  {
  }

  lemma SpendStep(g: Graph, config: CoreConfig, c: nat, m: OutboundMessage, now: nat)
    requires Inv(g, config) && c in g.connections
    ensures var (spent, e) := SpendOutcome(g, config, c, m, now);
            Advances(g, config, spent)
              && (e.None? ==> c in spent.connections && m.Session() in spent.connections[c].memberships)
  {
    SpendsOnlyBudgets(g, config, c, m, now);
    BudgetStep(g, config, SpendOutcome(g, config, c, m, now).0, c);
    SpentIsMember(g, config, c, m, now);
  }

  lemma SpentIsMember(g: Graph, config: CoreConfig, c: nat, m: OutboundMessage, now: nat)
    requires c in g.connections
    ensures var (spent, e) := SpendOutcome(g, config, c, m, now);
            e.None? ==> c in spent.connections && m.Session() in spent.connections[c].memberships
  {
    if SpendOutcome(g, config, c, m, now).1.None? { SpentHasAccess(g, config, c, m, now); }
  }

  /** Publish: either everything happens, or nothing but spent budget and swept expired state. */
  method PublishIn(g: Graph, config: CoreConfig, channels: Channels, journal: seq<OutboundMessage>,
                   c: nat, m: OutboundMessage,
                   verdict: Verdict, now: nat)
    returns (g': Graph, journal': seq<OutboundMessage>, r: Result<seq<nat>, CoreError>)
    requires Inv(g, config) && c in g.connections && |journal| <= config.journalCapacity
    ensures Advances(g, config, g') && |journal'| <= config.journalCapacity
    ensures r.Err? ==> Refused(g, journal, config, channels, c, m, verdict, now, g', journal', r.error)
    ensures r.Ok? ==> Published(g, journal, config, channels, c, m, verdict, now, g', journal', r.value)
  {
    var sk := m.Session();
    journal' := journal;
    var (spent, e) := SpendOutcome(g, config, c, m, now);
    SpendStep(g, config, c, m, now);
    if e.Some? {
      return spent, journal, Err(e.value);
    }
    g', journal', r := PublishSpent(spent, config, channels, journal, c, m, verdict, now);
    Chain(g, config, spent, g');
    SpentDecides(g, journal, config, channels, c, m, verdict, now, spent, g', journal', r);
  }

  /** What follows the charge: refused by planning, or planned and delivered. */
  ghost predicate Decides(spent: Graph, journal: seq<OutboundMessage>, config: CoreConfig, channels: Channels,
                          c: nat, m: OutboundMessage,
                          verdict: Verdict, now: nat, g': Graph, journal': seq<OutboundMessage>,
                            r: Result<seq<nat>, CoreError>) {
    match r
    case Err(error) => RefusedByPlan(spent, journal, config, channels, c, m, verdict, now, g', journal', error)
    case Ok(lost) => exists plan, orders ::
      PublishedByPlan(spent, journal, config, channels, c, m, verdict, now, plan, g', journal', lost, orders)
  }

  lemma SpentDecides(g: Graph, journal: seq<OutboundMessage>, config: CoreConfig, channels: Channels,
                     c: nat, m: OutboundMessage,
                     verdict: Verdict, now: nat, spent: Graph, g': Graph, journal': seq<OutboundMessage>,
                       r: Result<seq<nat>, CoreError>)
    requires c in g.connections && SpendOutcome(g, config, c, m, now) == (spent, None)
    requires Decides(spent, journal, config, channels, c, m, verdict, now, g', journal', r)
    ensures r.Err? ==> Refused(g, journal, config, channels, c, m, verdict, now, g', journal', r.error)
    ensures r.Ok? ==> Published(g, journal, config, channels, c, m, verdict, now, g', journal', r.value)
  {
  }

  /** Validation, then the commit. */
  method PublishSpent(g: Graph, config: CoreConfig, channels: Channels, journal: seq<OutboundMessage>,
                      c: nat, m: OutboundMessage,
                      verdict: Verdict, now: nat)
    returns (g': Graph, journal': seq<OutboundMessage>, r: Result<seq<nat>, CoreError>)
    requires Inv(g, config) && |journal| <= config.journalCapacity && c in g.connections
             && m.Session() in g.connections[c].memberships
    ensures Advances(g, config, g') && |journal'| <= config.journalCapacity
    ensures Decides(g, journal, config, channels, c, m, verdict, now, g', journal', r)
  {
    var ready, plan := PlanIn(g, config, channels, journal, c, m, verdict, now);
    if plan.Err? { return ready, journal, Err(plan.error); }
    var lost;
    g', journal', lost := CarryOut(g, config, channels, journal, c, m, verdict, now, ready, plan.value);
    Chain(g, config, ready, g');
    r := Ok(lost);
  }

  /** A plan is in hand. */
  ghost predicate PlanStands(g: Graph, journal: seq<OutboundMessage>, config: CoreConfig, channels: Channels,
                             c: nat, m: OutboundMessage,
                             verdict: Verdict, now: nat, ready: Graph, plan: Plan) {
    var sk := m.Session();
    && sk in g.sessions && |journal| <= config.journalCapacity
    && ready == WithSession(g, sk, SweepState(g.sessions[sk], now))
    && PlanAnswers(g.sessions[sk], sk, config, channels, config.journalCapacity - |journal|, c, m, verdict, now,
                   ready.sessions[sk], None)
    && Planned(g.sessions[sk], sk, config, channels, c, m, verdict, plan)
    && Committable(ready.sessions[sk], sk, config, channels, c, plan, now, config.journalCapacity - |journal|)
  }

  method CarryOut(ghost g: Graph, config: CoreConfig, channels: Channels, journal: seq<OutboundMessage>,
                  ghost c: nat, m: OutboundMessage,
                  ghost verdict: Verdict, now: nat, ready: Graph, plan: Plan)
    returns (g': Graph, journal': seq<OutboundMessage>, lost: seq<nat>)
    requires Inv(ready, config) && PlanStands(g, journal, config, channels, c, m, verdict, now, ready, plan)
    ensures Advances(ready, config, g') && |journal'| <= config.journalCapacity
    ensures Decides(g, journal, config, channels, c, m, verdict, now, g', journal', Ok(lost))
  {
    ghost var orders;
    g', journal', lost, orders := CommitIn(ready, config, channels, journal, m.Session(), c, plan, now);
    PlanCarriedOut(g, journal, config, channels, c, m, verdict, now, ready, plan, g', journal', lost, orders);
  }

  lemma PlanCarriedOut(g: Graph, journal: seq<OutboundMessage>, config: CoreConfig, channels: Channels,
                       c: nat, m: OutboundMessage,
                       verdict: Verdict, now: nat, ready: Graph, plan: Plan, g': Graph, journal': seq<OutboundMessage>,
                       lost: seq<nat>, orders: seq<seq<SessionKey>>)
    requires PlanStands(g, journal, config, channels, c, m, verdict, now, ready, plan)
    requires journal' == journal + Filter(IsDurable(), plan.messages)
    requires var committed := WithSession(ready, m.Session(),
                                          CommitPlan(ready.sessions[m.Session()], channels, plan, now));
             RoutingReady(committed, m.Session())
               && FansOut(committed, config, m.Session(), plan.messages, g', lost, orders)
    ensures Decides(g, journal, config, channels, c, m, verdict, now, g', journal', Ok(lost))
  {
    DeliveredFrom(g, ready, config, channels, m.Session(), plan, now, g', lost, orders);
    assert PublishedByPlan(g, journal, config, channels, c, m, verdict, now, plan, g', journal', lost, orders);
  }

  lemma DeliveredFrom(g: Graph, ready: Graph, config: CoreConfig, channels: Channels,
                      sk: SessionKey, plan: Plan, now: nat,
                      g': Graph, lost: seq<nat>, orders: seq<seq<SessionKey>>)
    requires sk in g.sessions && ready == WithSession(g, sk, SweepState(g.sessions[sk], now))
    requires CanMoveTo(ready.sessions[sk], plan.move)
    requires var committed := WithSession(ready, sk, CommitPlan(ready.sessions[sk], channels, plan, now));
             RoutingReady(committed, sk) && FansOut(committed, config, sk, plan.messages, g', lost, orders)
    ensures Delivered(g, config, channels, sk, plan, now, g', lost, orders)
  {
    Overwrite(g, sk, SweepState(g.sessions[sk], now), CommitPlan(ready.sessions[sk], channels, plan, now));
  }
}
