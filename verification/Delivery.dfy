/** What an accepted publish puts into which queue, said by the subscriptions, the positions and the four grant maps. */
module Delivery {
  import opened Model
  import opened Sequences
  import opened Queue
  import opened SessionGraph
  import opened Cascade
  import opened Removing
  import opened Commands
  import opened MemberInvariants
  import opened Routing
  import opened Publishing
  import opened Fanout
  import opened CoreSteps
  import opened PublishPipeline
  import opened PublishEffects
  import opened Cache

  // ------------------------------------------------------------------ who gets what

  predicate Readable<K>(grants: map<K, Access>, k: K) { k in grants && !grants[k].WriteAccess? }

  /** The principal may read namespace, session, space and channel of the message. */
  predicate MayRead(who: Option<Principal>, m: OutboundMessage) {
    && who.Some?
    && Readable(who.value.grants.namespaces, m.Session().namespace)
    && Readable(who.value.grants.sessions, m.Session())
    && Readable(who.value.grants.spaces, m.Space())
    && Readable(who.value.grants.channels, ChannelScope(m.Session(), m.channel))
  }

  ghost predicate IsFor(s: Session, who: Option<Principal>, c: nat, m: OutboundMessage)
    requires SpacesOk(s) && s.subscribers.Keys == s.spaces.Keys
  {
    c in Recipients(s, m) && MayRead(who, m)
  }

  /** The messages of a batch that are for `c`: routed to it, and readable by its principal. */
  ghost function Addressed(s: Session, who: Option<Principal>, c: nat,
                           messages: seq<OutboundMessage>): seq<OutboundMessage>
    requires SpacesOk(s) && s.subscribers.Keys == s.spaces.Keys
  {
    if messages == [] then []
    else
      var n := |messages| - 1;
      Addressed(s, who, c, messages[..n]) + (if IsFor(s, who, c, messages[n]) then [messages[n]] else [])
  }

  function PushAll(l: Lanes, config: Queue.Config, ms: seq<OutboundMessage>): Lanes {
    if ms == [] then l else PushAll(l, config, ms[..|ms| - 1]).Push(config, ms[|ms| - 1]).0
  }

  lemma PushAllSnoc(l: Lanes, config: Queue.Config, ms: seq<OutboundMessage>, m: OutboundMessage)
    ensures PushAll(l, config, ms + [m]) == PushAll(l, config, ms).Push(config, m).0
  {
    assert (ms + [m])[..|ms|] == ms;
  }

  function IsCritical(): OutboundMessage -> bool { (m: OutboundMessage) => m.delivery.IsCritical() }

  /** The `i`-th message of the batch is a critical one for `c` and finds its critical lane full. */
  ghost predicate Overflows(g: Graph, config: CoreConfig, s: Session, messages: seq<OutboundMessage>, c: nat, i: nat)
    requires SpacesOk(s) && s.subscribers.Keys == s.spaces.Keys
  {
    && i < |messages| && c in g.connections && messages[i].delivery.IsCritical()
    && IsFor(s, g.connections[c].authenticated, c, messages[i])
    && |QueueAt(g, config, s, messages[..i], c).critical| == config.queue.critical
  }

  /** The queue of `c` once it was offered what is for it. */
  ghost function QueueAt(g: Graph, config: CoreConfig, s: Session, messages: seq<OutboundMessage>, c: nat): Lanes
    requires SpacesOk(s) && s.subscribers.Keys == s.spaces.Keys && c in g.connections
  {
    PushAll(g.connections[c].outbound, config.queue, Addressed(s, g.connections[c].authenticated, c, messages))
  }

  lemma ReadableIsReceivable(conn: Connection, m: OutboundMessage)
    ensures CanReceive(conn, m) <==> MayRead(conn.authenticated, m)
  {
  }

  lemma ExhaustedExactly(l: Lanes, config: Queue.Config, m: OutboundMessage)
    ensures l.Push(config, m).1 == Ok(CriticalCapacityExhausted)
            <==> m.delivery.IsCritical() && |l.critical| == config.critical
  {
  }

  /** One message for one connection that was not dropped so far. */
  lemma PushedOne(g: Graph, config: CoreConfig, s: Session, messages: seq<OutboundMessage>, c: nat,
                  g1: Graph, dropped: set<nat>)
    requires SpacesOk(s) && s.subscribers.Keys == s.spaces.Keys && messages != []
    requires c in g.connections && c in g1.connections && c !in dropped
    requires g1.connections[c] == g.connections[c].(outbound := QueueAt(g, config, s, messages[..|messages| - 1], c))
    ensures var n := |messages| - 1;
            var targets := Targets(g1, messages[n], Recipients(s, messages[n]), dropped);
            && c in PushTo(g1, config, targets, messages[n]).connections
            && PushTo(g1, config, targets, messages[n]).connections[c]
               == g.connections[c].(outbound := QueueAt(g, config, s, messages, c))
            && (c in Overflowed(g1, config, targets, messages[n]) <==> Overflows(g, config, s, messages, c, n))
  {
    var n := |messages| - 1;
    var who := g.connections[c].authenticated;
    var before := Addressed(s, who, c, messages[..n]);
    ReadableIsReceivable(g1.connections[c], messages[n]);
    ExhaustedExactly(g1.connections[c].outbound, config.queue, messages[n]);
    if IsFor(s, who, c, messages[n]) {
      PushAllSnoc(g.connections[c].outbound, config.queue, before, messages[n]);
    } else {
      assert before + [] == before;
    }
  }

  ghost predicate EverOverflows(g: Graph, config: CoreConfig, s: Session, messages: seq<OutboundMessage>, c: nat)
    requires SpacesOk(s) && s.subscribers.Keys == s.spaces.Keys
  {
    exists i :: Overflows(g, config, s, messages, c, i)
  }

  lemma OverflowsLater(g: Graph, config: CoreConfig, s: Session, messages: seq<OutboundMessage>, c: nat)
    requires SpacesOk(s) && s.subscribers.Keys == s.spaces.Keys && messages != []
    ensures EverOverflows(g, config, s, messages, c)
            <==> EverOverflows(g, config, s, messages[..|messages| - 1], c)
                 || Overflows(g, config, s, messages, c, |messages| - 1)
  {
    var n := |messages| - 1;
    forall i | 0 <= i < n
      ensures Overflows(g, config, s, messages, c, i) <==> Overflows(g, config, s, messages[..n], c, i) {
      assert messages[..n][..i] == messages[..i];
    }
  }

  /** The fan-out drops exactly the connections whose critical lane was full for a message of theirs; every other
      queue is offered exactly what is for it, in order, and nothing else of a connection changes. */
  lemma {:induction false} FanoutDelivers(g: Graph, config: CoreConfig, sk: SessionKey,
                                          messages: seq<OutboundMessage>, c: nat)
    requires RoutingReady(g, sk) && c in g.connections
    ensures var (g', dropped) := FanoutAll(g, config, sk, messages);
            && (c in dropped <==> EverOverflows(g, config, g.sessions[sk], messages, c))
            && (c !in dropped ==>
                  g'.connections[c] == g.connections[c].(outbound := QueueAt(g, config, g.sessions[sk], messages, c)))
  {
    if messages != [] {
      var n := |messages| - 1;
      var (g1, dropped) := FanoutAll(g, config, sk, messages[..n]);
      FanoutDelivers(g, config, sk, messages[..n], c);
      OverflowsLater(g, config, g.sessions[sk], messages, c);
      if c !in dropped { PushedOne(g, config, g.sessions[sk], messages, c, g1, dropped); }
    }
  }

  lemma CriticalPush(l: Lanes, config: Queue.Config, m: OutboundMessage)
    requires !(m.delivery.IsCritical() && |l.critical| == config.critical)
    ensures l.Push(config, m).0.critical == l.critical + (if m.delivery.IsCritical() then [m] else [])
  {
  }

  /** Whoever is not dropped has every critical message that is for it, in order, at the end of its critical lane. */
  lemma {:induction false} CriticalArrive(g: Graph, config: CoreConfig, s: Session,
                                          messages: seq<OutboundMessage>, c: nat)
    requires SpacesOk(s) && s.subscribers.Keys == s.spaces.Keys && c in g.connections
    requires !EverOverflows(g, config, s, messages, c)
    ensures QueueAt(g, config, s, messages, c).critical
         == g.connections[c].outbound.critical
            + Filter(IsCritical(), Addressed(s, g.connections[c].authenticated, c, messages))
  {
    if messages != [] {
      var n := |messages| - 1;
      var who, l := g.connections[c].authenticated, g.connections[c].outbound;
      var before := Addressed(s, who, c, messages[..n]);
      OverflowsLater(g, config, s, messages, c);
      CriticalArrive(g, config, s, messages[..n], c);
      if IsFor(s, who, c, messages[n]) {
        PushAllSnoc(l, config.queue, before, messages[n]);
        FilterSnoc(IsCritical(), before, messages[n]);
        CriticalPush(PushAll(l, config.queue, before), config.queue, messages[n]);
      } else {
        assert before + [] == before;
      }
    }
  }

  /** To whom nothing is readable, nothing is added. */
  lemma {:induction false} UnreadableAddsNothing(s: Session, who: Option<Principal>, c: nat,
                                                 messages: seq<OutboundMessage>)
    requires SpacesOk(s) && s.subscribers.Keys == s.spaces.Keys
    requires forall i | 0 <= i < |messages| :: !MayRead(who, messages[i]) || c !in Recipients(s, messages[i])
    ensures Addressed(s, who, c, messages) == []
  {
    if messages != [] {
      var n := |messages| - 1;
      assert !MayRead(who, messages[n]) || c !in Recipients(s, messages[n]);
      forall i | 0 <= i < n ensures !MayRead(who, messages[..n][i]) || c !in Recipients(s, messages[..n][i]) {
        assert messages[..n][i] == messages[i];
      }
      UnreadableAddsNothing(s, who, c, messages[..n]);
    }
  }

  // ------------------------------------------------------------------ what the losses take

  function Standing(g: Graph): OutboundMessage -> bool { (m: OutboundMessage) => Stands(g, m) }

  /** Nothing came up again. */
  ghost predicate Shrinks(g: Graph, g': Graph) { forall m {:trigger Stands(g', m)} | Stands(g', m) :: Stands(g, m) }

  /** `c` keeps exactly the messages whose space and entity are still there. */
  ghost predicate KeepsStanding(g: Graph, g': Graph, c: nat) {
    && c in g.connections && c in g'.connections && Shrinks(g, g')
    && g'.connections[c].outbound == g.connections[c].outbound.Keep(Standing(g'))
  }

  lemma KeepAgrees(l: Lanes, p: OutboundMessage -> bool, q: OutboundMessage -> bool)
    requires forall m | l.Holds(m) :: p(m) == q(m)
    ensures l.Keep(p) == l.Keep(q)
  {
    FilterAgree(p, q, l.critical);
    FilterAgree(p, q, l.latest);
    FilterAgree(p, q, l.bestEffort);
  }

  lemma KeepTwice(l: Lanes, p: OutboundMessage -> bool, q: OutboundMessage -> bool)
    requires forall m | q(m) :: p(m)
    ensures l.Keep(p).Keep(q) == l.Keep(q)
  {
    FilterFilter(q, p, l.critical);
    FilterFilter(q, p, l.latest);
    FilterFilter(q, p, l.bestEffort);
    FilterAgree(Both(q, p), q, l.critical);
    FilterAgree(Both(q, p), q, l.latest);
    FilterAgree(Both(q, p), q, l.bestEffort);
  }

  lemma KeepStanding(l: Lanes, p: OutboundMessage -> bool)
    ensures forall m | l.Keep(p).Holds(m) :: p(m)
  {
    FilterIsSelection(p, l.critical);
    FilterIsSelection(p, l.latest);
    FilterIsSelection(p, l.bestEffort);
  }

  lemma KeepsStandingChain(g: Graph, g1: Graph, g2: Graph, c: nat)
    requires KeepsStanding(g, g1, c) && KeepsStanding(g1, g2, c)
    ensures KeepsStanding(g, g2, c)
  {
    assert forall m | Standing(g2)(m) :: Stands(g2, m) && Standing(g1)(m);
    KeepTwice(g.connections[c].outbound, Standing(g1), Standing(g2));
  }

  lemma KeepsStandingSelf(g: Graph, c: nat)
    requires c in g.connections && AllStand(g, g.connections[c].outbound)
    ensures KeepsStanding(g, g, c)
  {
    var l := g.connections[c].outbound;
    FilterAll(Standing(g), l.critical);
    FilterAll(Standing(g), l.latest);
    FilterAll(Standing(g), l.bestEffort);
  }

  lemma CascadeKeepsStanding(g: Graph, sk: SessionKey, entities: set<nat>, c: nat)
    requires sk in g.sessions && c in g.connections && AllStand(g, g.connections[c].outbound)
    ensures KeepsStanding(g, RemoveCascade(g, sk, entities), c)
  {
    RemoveKeepsStanding(g, sk, Closure(g.sessions[sk], Removal(entities, {})), c);
  }

  lemma RemoveKeepsStanding(g: Graph, sk: SessionKey, r: Removal, c: nat)
    requires sk in g.sessions && c in g.connections && AllStand(g, g.connections[c].outbound)
    ensures KeepsStanding(g, Remove(g, sk, r), c)
  {
    var l, g' := g.connections[c].outbound, Remove(g, sk, r);
    forall m ensures Stands(g', m) <==> Stands(g, m) && !GoneMessage(sk, r)(m) { RemovedStands(g, sk, r, m); }
    KeepAgrees(l, Not(GoneMessage(sk, r)), Standing(g'));
  }

  lemma RemovedStands(g: Graph, sk: SessionKey, r: Removal, m: OutboundMessage)
    requires sk in g.sessions
    ensures Stands(Remove(g, sk, r), m) <==> Stands(g, m) && !GoneMessage(sk, r)(m)
  {
  }

  lemma DetachKeepsStanding(g: Graph, i: nat, sk: SessionKey, c: nat)
    requires i in g.connections && sk in g.sessions && c in g.connections && c != i
             && AllStand(g, g.connections[c].outbound)
    ensures KeepsStanding(g, Detach(g, i, sk), c)
  {
    var g1 := RemoveCascade(g, sk, OwnedIn(g.sessions[sk], i));
    CascadeKeepsStanding(g, sk, OwnedIn(g.sessions[sk], i), c);
    UnlinkStands(g1, i, sk, c);
    KeepAgrees(g.connections[c].outbound, Standing(g1), Standing(Unlink(g1, i, sk)));
  }

  lemma UnlinkStands(g: Graph, i: nat, sk: SessionKey, c: nat)
    requires i in g.connections && sk in g.sessions && c in g.connections && c != i
    ensures forall m :: Stands(Unlink(g, i, sk), m) <==> Stands(g, m)
    ensures c in Unlink(g, i, sk).connections && Unlink(g, i, sk).connections[c] == g.connections[c]
  {
  }

  /** A step that keeps what stands leaves only what stands. */
  lemma StillAllStand(g: Graph, g': Graph, c: nat)
    requires KeepsStanding(g, g', c)
    ensures AllStand(g', g'.connections[c].outbound)
  {
    KeepStanding(g.connections[c].outbound, Standing(g'));
    assert forall m | Standing(g')(m) :: Stands(g', m);
  }

  lemma {:induction false} DetachAllKeepsStanding(g: Graph, i: nat, order: seq<SessionKey>, c: nat)
    requires i in g.connections && c in g.connections && c != i && PublishPipeline.Known(g, order)
    requires AllStand(g, g.connections[c].outbound)
    ensures KeepsStanding(g, DetachAll(g, i, order), c)
  {
    if order == [] {
      KeepsStandingSelf(g, c);
    } else {
      var init, last := order[..|order| - 1], order[|order| - 1];
      KnownInit(g, order);
      DetachAllKeepsStanding(g, i, init, c);
      DetachAllSnoc(g, i, init, last);
      OneMoreStanding(g, DetachAll(g, i, init), DetachAll(g, i, init + [last]), i, last, c);
    }
  }

  lemma OneMoreStanding(g: Graph, g1: Graph, g2: Graph, i: nat, sk: SessionKey, c: nat)
    requires KeepsStanding(g, g1, c) && i in g1.connections && sk in g1.sessions && c != i && g2 == Detach(g1, i, sk)
    ensures KeepsStanding(g, g2, c)
  {
    StillAllStand(g, g1, c);
    DetachKeepsStanding(g1, i, sk, c);
    KeepsStandingChain(g, g1, g2, c);
  }

  lemma DisconnectKeepsStanding(g: Graph, i: nat, order: seq<SessionKey>, c: nat)
    requires Covers(g, i, order) && c in g.connections && c != i && AllStand(g, g.connections[c].outbound)
    ensures KeepsStanding(g, Disconnect(g, i, order), c)
  {
    DetachAllKeepsStanding(g, i, order, c);
    var g1 := DetachAll(g, i, order);
    assert forall m :: Stands(Forget(g1, i), m) <==> Stands(g1, m);
    KeepAgrees(g.connections[c].outbound, Standing(g1), Standing(Forget(g1, i)));
  }

  lemma {:induction false} LossesKeepStanding(g: Graph, lost: seq<nat>, orders: seq<seq<SessionKey>>, c: nat)
    requires Loses(g, lost, orders) && c in g.connections && c !in lost && AllStand(g, g.connections[c].outbound)
    ensures KeepsStanding(g, DisconnectAll(g, lost, orders), c)
  {
    if lost == [] {
      KeepsStandingSelf(g, c);
    } else {
      var n := |lost| - 1;
      LosesInit(g, lost, orders);
      LossesKeepStanding(g, lost[..n], orders[..n], c);
      var g1 := DisconnectAll(g, lost[..n], orders[..n]);
      StillAllStand(g, g1, c);
      DisconnectKeepsStanding(g1, lost[n], orders[n], c);
      KeepsStandingChain(g, g1, DisconnectAll(g, lost, orders), c);
    }
  }

  // ------------------------------------------------------------------ the whole publish

  /** What an accepted batch means for one connection of the graph it was committed to: lost if and only if its
      critical lane was full for a critical message of the batch that was for it; otherwise its queue was offered
      exactly what is for it, all critical messages of that are last in its critical lane, and of all it holds exactly
      what names something that went with the lost connections is gone. */
  ghost predicate Delivers(g: Graph, config: CoreConfig, s: Session, messages: seq<OutboundMessage>, c: nat, g': Graph)
    requires SpacesOk(s) && s.subscribers.Keys == s.spaces.Keys && c in g.connections
  {
    var who := g.connections[c].authenticated;
    && (c !in g'.connections <==> EverOverflows(g, config, s, messages, c))
    && (c in g'.connections ==>
          && g'.connections[c].outbound == QueueAt(g, config, s, messages, c).Keep(Standing(g'))
          && g'.connections[c].outbound.critical
             == Filter(Standing(g'), g.connections[c].outbound.critical
                                     + Filter(IsCritical(), Addressed(s, who, c, messages))))
  }

  lemma FansOutDelivers(g: Graph, config: CoreConfig, sk: SessionKey, messages: seq<OutboundMessage>,
                      g': Graph, lost: seq<nat>, orders: seq<seq<SessionKey>>, c: nat)
    requires RoutingReady(g, sk) && FansOut(g, config, sk, messages, g', lost, orders) && c in g.connections
    ensures Delivers(g, config, g.sessions[sk], messages, c, g')
  {
    var s := g.sessions[sk];
    var (fanned, overflowed) := FanoutAll(g, config, sk, messages);
    FanoutDelivers(g, config, sk, messages, c);
    LosesExactly(fanned, lost, orders, c);
    if c !in overflowed {
      assert AllStand(fanned, fanned.connections[c].outbound);
      LossesKeepStanding(fanned, lost, orders, c);
      CriticalArrive(g, config, s, messages, c);
    }
  }

  /** The queue and the rights of every connection are the same. */
  ghost predicate SameQueues(g: Graph, g': Graph) {
    && g'.connections.Keys == g.connections.Keys
    && forall c | c in g.connections ::
         && g'.connections[c].outbound == g.connections[c].outbound
         && g'.connections[c].authenticated == g.connections[c].authenticated
  }

  lemma {:induction false} SameOverflows(g: Graph, g1: Graph, config: CoreConfig, s: Session,
                                         messages: seq<OutboundMessage>, c: nat)
    requires SpacesOk(s) && s.subscribers.Keys == s.spaces.Keys && SameQueues(g, g1) && c in g.connections
    ensures QueueAt(g1, config, s, messages, c) == QueueAt(g, config, s, messages, c)
    ensures EverOverflows(g1, config, s, messages, c) <==> EverOverflows(g, config, s, messages, c)
  {
    forall i: nat ensures Overflows(g1, config, s, messages, c, i) <==> Overflows(g, config, s, messages, c, i) {}
  }

  lemma SameDelivers(g: Graph, g1: Graph, config: CoreConfig, s: Session,
                     messages: seq<OutboundMessage>, c: nat, g': Graph)
    requires SpacesOk(s) && s.subscribers.Keys == s.spaces.Keys && SameQueues(g, g1) && c in g.connections
    requires Delivers(g1, config, s, messages, c, g')
    ensures Delivers(g, config, s, messages, c, g')
  {
    SameOverflows(g, g1, config, s, messages, c);
  }

  /** The session an accepted publish is routed in: subscriptions and spaces from before, and all positions but that
      of the entity the publish carries a position for, which is where the publish says. */
  ghost predicate Routes(s0: Session, m: OutboundMessage, s: Session) {
    && s.subscribers == s0.subscribers && s.spaces == s0.spaces && SpacesOk(s) && s.subscribers.Keys == s.spaces.Keys
    && s.entities.Keys == s0.entities.Keys
    && (forall e | e in s.entities && !(m.routingPosition.Some? && m.entity == Some(e)) ::
        s.entities[e] == s0.entities[e])
    && (m.routingPosition.Some? ==>
          && m.entity.Some? && m.entity.value in s.entities
          && s.entities[m.entity.value] == s0.entities[m.entity.value].(position := m.routingPosition))
  }

  lemma CommittedRoutes(s0: Session, m: OutboundMessage, channels: Channels, plan: Plan, now: nat)
    requires CanMoveTo(SweepState(s0, now), plan.move)
    requires var s := CommitPlan(SweepState(s0, now), channels, plan, now);
             SpacesOk(s) && s.subscribers.Keys == s.spaces.Keys
    requires m.routingPosition.None? ==> plan.move.None?
    requires m.routingPosition.Some? ==>
               plan.move.Some? && Some(plan.move.value.entity) == m.entity
                 && plan.move.value.position == m.routingPosition.value
    ensures Routes(s0, m, CommitPlan(SweepState(s0, now), channels, plan, now))
  {
  }

  /** The values that have not expired. */
  ghost predicate Swept(before: Store, now: nat, after: Store) {
    forall k :: (k in after <==> k in before && !before[k].ExpiredAt(now)) && (k in after ==> after[k] == before[k])
  }

  /** What the session holds once a publish is committed: the batch and its proposal are on record, its values are
      stored, and otherwise only expired values are gone. */
  ghost predicate Stores(s0: Session, config: CoreConfig, channels: Channels, c: nat, m: OutboundMessage,
                         verdict: Verdict, now: nat,
                         s: Session)
    requires Authorize(config, c, m, verdict).Ok?
  {
    var messages := Authorize(config, c, m, verdict).value.0;
    && Recorded(s0.sequences, c, messages,
                if verdict.Emit? then map[SequenceKeyOf(c, m) := m.sequence] else map[], s.sequences)
    && exists swept :: Swept(s0.state, now, swept) && Remembered(swept, channels, messages, now, s.state)
  }

  lemma CommittedStores(s0: Session, sk: SessionKey, config: CoreConfig, channels: Channels, c: nat, m: OutboundMessage,
                        verdict: Verdict, plan: Plan, now: nat)
    requires CanMoveTo(SweepState(s0, now), plan.move) && Planned(s0, sk, config, channels, c, m, verdict, plan)
    ensures Stores(s0, config, channels, c, m, verdict, now, CommitPlan(SweepState(s0, now), channels, plan, now))
  {
    CommitRecords(s0, sk, config, channels, c, plan.messages, Authorize(config, c, m, verdict).value.1);
    var swept := SweepState(s0, now).state;
    PutAllRemembers(swept, channels, plan.messages, now);
    assert Swept(s0.state, now, swept);
  }

  /** What an accepted publish means for every connection: the batch its authority let through is on record
      and stored, routed in the session as committed, and delivered; without losses the session is as committed. */
  ghost predicate Reaches(g: Graph, config: CoreConfig, channels: Channels, c: nat, m: OutboundMessage,
                          verdict: Verdict, now: nat,
                          g': Graph) {
    exists s: Session ::
      && m.Session() in g.sessions && Routes(g.sessions[m.Session()], m, s)
      && Authorize(config, c, m, verdict).Ok?
      && Stores(g.sessions[m.Session()], config, channels, c, m, verdict, now, s)
      && (g'.connections.Keys == g.connections.Keys ==> m.Session() in g'.sessions && g'.sessions[m.Session()] == s)
      && forall i | i in g.connections :: Delivers(g, config, s, Authorize(config, c, m, verdict).value.0, i, g')
  }

  lemma ChargedQueues(g: Graph, config: CoreConfig, c: nat, m: OutboundMessage, now: nat, sk: SessionKey, s: Session)
    requires c in g.connections && sk in g.sessions
    ensures SameQueues(g, WithSession(SpendOutcome(g, config, c, m, now).0, sk, s))
  {
    SpendsOnlyBudgets(g, config, c, m, now);
  }

  /** Every accepted publish reaches exactly whom it is for. */
  lemma PublishReaches(g: Graph, journal: seq<OutboundMessage>, config: CoreConfig, channels: Channels,
                       c: nat, m: OutboundMessage,
                       verdict: Verdict, now: nat, g': Graph, journal': seq<OutboundMessage>, lost: seq<nat>)
    requires Published(g, journal, config, channels, c, m, verdict, now, g', journal', lost)
    ensures Reaches(g, config, channels, c, m, verdict, now, g')
  {
    var spent, plan, orders :|
      && c in g.connections && SpendOutcome(g, config, c, m, now) == (spent, None)
      && PublishedByPlan(spent, journal, config, channels, c, m, verdict, now, plan, g', journal', lost, orders);
    SpendsOnlyBudgets(g, config, c, m, now);
    PlanReaches(g, config, channels, c, m, verdict, now, spent, plan, g', lost, orders);
  }

  lemma NobodyLost(g: Graph, config: CoreConfig, sk: SessionKey, messages: seq<OutboundMessage>, g': Graph,
                   lost: seq<nat>, orders: seq<seq<SessionKey>>)
    requires RoutingReady(g, sk) && FansOut(g, config, sk, messages, g', lost, orders)
    ensures g'.connections.Keys == g.connections.Keys ==> g'.sessions == g.sessions
  {
    if lost != [] {
      assert lost[0] in lost;
      LosesExactly(FanoutAll(g, config, sk, messages).0, lost, orders, lost[0]);
      assert lost[0] in g.connections && lost[0] !in g'.connections;
    }
  }

  lemma PlanReaches(g: Graph, config: CoreConfig, channels: Channels, c: nat, m: OutboundMessage,
                    verdict: Verdict, now: nat,
                    spent: Graph, plan: Plan, g': Graph, lost: seq<nat>, orders: seq<seq<SessionKey>>)
    requires c in g.connections && spent == SpendOutcome(g, config, c, m, now).0 && spent.sessions == g.sessions
    requires m.Session() in spent.sessions
    requires Planned(spent.sessions[m.Session()], m.Session(), config, channels, c, m, verdict, plan)
    requires Delivered(spent, config, channels, m.Session(), plan, now, g', lost, orders)
    ensures Reaches(g, config, channels, c, m, verdict, now, g')
  {
    var sk := m.Session();
    var s := CommitPlan(SweepState(spent.sessions[sk], now), channels, plan, now);
    var committed := WithSession(spent, sk, s);
    CommittedRoutes(g.sessions[sk], m, channels, plan, now);
    CommittedStores(g.sessions[sk], sk, config, channels, c, m, verdict, plan, now);
    NobodyLost(committed, config, sk, plan.messages, g', lost, orders);
    ChargedQueues(g, config, c, m, now, sk, s);
    forall i | i in g.connections ensures Delivers(g, config, s, plan.messages, i, g') {
      FansOutDelivers(committed, config, sk, plan.messages, g', lost, orders, i);
      SameDelivers(g, committed, config, s, plan.messages, i, g');
    }
  }

  /** The whole command with what it means. */
  method PublishReaching(g: Graph, config: CoreConfig, channels: Channels, journal: seq<OutboundMessage>,
                         c: nat, m: OutboundMessage,
                         verdict: Verdict, now: nat)
    returns (g': Graph, journal': seq<OutboundMessage>, r: Result<seq<nat>, CoreError>)
    requires Inv(g, config) && c in g.connections && |journal| <= config.journalCapacity
    ensures Advances(g, config, g') && |journal'| <= config.journalCapacity
    ensures r.Err? ==> Refused(g, journal, config, channels, c, m, verdict, now, g', journal', r.error)
    ensures r.Ok? ==> Published(g, journal, config, channels, c, m, verdict, now, g', journal', r.value)
    ensures r.Ok? ==> Reaches(g, config, channels, c, m, verdict, now, g')
  {
    g', journal', r := PublishIn(g, config, channels, journal, c, m, verdict, now);
    if r.Ok? { PublishReaches(g, journal, config, channels, c, m, verdict, now, g', journal', r.value); }
  }
}
