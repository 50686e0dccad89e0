/** Delivery of committed messages to the queues of their recipients, and the loss of consumers
    whose critical lane overflows. */
module Fanout {
  import opened Model
  import opened Queue
  import opened SessionGraph
  import opened Commands
  import opened MemberInvariants
  import opened Routing
  import opened Publishing

  predicate CanReceive(conn: Connection, m: OutboundMessage) {
    && conn.authenticated.Some?
    && conn.authenticated.value.grants.CanReadSession(m.Session())
    && conn.authenticated.value.grants.CanReadSpace(m.Space())
    && conn.authenticated.value.grants.CanReadChannel(ChannelScope(m.Session(), m.channel))
  }

  ghost function Targets(g: Graph, m: OutboundMessage, recipients: set<nat>, dropped: set<nat>): set<nat> {
    set c | c in recipients && c !in dropped && c in g.connections && CanReceive(g.connections[c], m)
  }

  ghost function Pushed(conn: Connection, config: CoreConfig, m: OutboundMessage): Connection {
    conn.(outbound := conn.outbound.Push(config.queue, m).0)
  }

  ghost function PushTo(g: Graph, config: CoreConfig, targets: set<nat>, m: OutboundMessage): Graph {
    g.(connections := (map c | c in g.connections ::
                         if c in targets then Pushed(g.connections[c], config, m) else g.connections[c]))
  }

  ghost function Overflowed(g: Graph, config: CoreConfig, targets: set<nat>, m: OutboundMessage): set<nat> {
    set c | c in targets && c in g.connections
            && g.connections[c].outbound.Push(config.queue, m).1 == Ok(CriticalCapacityExhausted)
  }

  ghost predicate RoutingReady(g: Graph, sk: SessionKey) {
    sk in g.sessions && SpacesOk(g.sessions[sk]) && g.sessions[sk].subscribers.Keys == g.sessions[sk].spaces.Keys
  }

  /** Every message of the batch goes to its recipients in turn; a recipient that overflowed gets no
      further message. */
  ghost function FanoutAll(g: Graph, config: CoreConfig, sk: SessionKey,
                           messages: seq<OutboundMessage>): (r: (Graph, set<nat>))
    requires RoutingReady(g, sk)
    ensures r.0.sessions == g.sessions && r.0.connections.Keys == g.connections.Keys && r.1 <= g.connections.Keys
    ensures r.0.nextConnection == g.nextConnection && r.0.nextEntity == g.nextEntity
  {
    if messages == [] then (g, {})
    else
      var (g1, dropped) := FanoutAll(g, config, sk, messages[..|messages| - 1]);
      var m := messages[|messages| - 1];
      var targets := Targets(g1, m, Recipients(g1.sessions[sk], m), dropped);
      (PushTo(g1, config, targets, m), dropped + Overflowed(g1, config, targets, m))
  }

  // ------------------------------------------------------------------ invariant

  lemma RecipientsSubscribe(s: Session, m: OutboundMessage)
    requires SpacesOk(s) && s.subscribers.Keys == s.spaces.Keys && m.space in s.spaces
    ensures Recipients(s, m) <= s.subscribers[m.space]
  {
  }

  lemma PushLinks(g: Graph, config: CoreConfig, targets: set<nat>, m: OutboundMessage)
    requires LinksOk(g)
    ensures LinksOk(PushTo(g, config, targets, m))
  {
    SameTiesKeepLinks(g, PushTo(g, config, targets, m));
  }

  lemma PushQueues(g: Graph, config: CoreConfig, sk: SessionKey, targets: set<nat>, m: OutboundMessage)
    requires QueuesOk(g, config) && SubscribersKnown(g) && sk in g.sessions && Sound(g.sessions[sk], sk, m)
    requires m.space in g.sessions[sk].subscribers && targets <= g.sessions[sk].subscribers[m.space]
    ensures QueuesOk(PushTo(g, config, targets, m), config)
  {
    var g' := PushTo(g, config, targets, m);
    forall c | c in g'.connections
      ensures g'.connections[c].outbound.Bounded(config.queue)
      ensures forall x | g'.connections[c].outbound.Holds(x) :: Deliverable(g', c, x)
    {
      if c in targets {
        PushKeepsBounds(g.connections[c].outbound, config.queue, m);
        assert m.Space() == SpaceKey(sk, m.space);
      }
      forall x | g'.connections[c].outbound.Holds(x) ensures Deliverable(g', c, x) {
        assert x == m || Deliverable(g, c, x);
      }
    }
  }

  lemma PushRest(g: Graph, config: CoreConfig, targets: set<nat>, m: OutboundMessage)
    requires SessionsOk(g, config) && BudgetsOk(g, config)
    ensures SessionsOk(PushTo(g, config, targets, m), config) && BudgetsOk(PushTo(g, config, targets, m), config)
  {
  }

  lemma PushKeepsInv(g: Graph, config: CoreConfig, sk: SessionKey, targets: set<nat>, m: OutboundMessage)
    requires Inv(g, config) && sk in g.sessions && Sound(g.sessions[sk], sk, m)
    requires m.space in g.sessions[sk].subscribers && targets <= g.sessions[sk].subscribers[m.space]
    ensures Inv(PushTo(g, config, targets, m), config)
  {
    PushLinks(g, config, targets, m);
    PushQueues(g, config, sk, targets, m);
    PushRest(g, config, targets, m);
  }

  lemma FanoutOne(g: Graph, config: CoreConfig, sk: SessionKey, m: OutboundMessage, dropped: set<nat>)
    requires Inv(g, config) && RoutingReady(g, sk) && Sound(g.sessions[sk], sk, m)
    ensures Inv(PushTo(g, config, Targets(g, m, Recipients(g.sessions[sk], m), dropped), m), config)
  {
    RecipientsSubscribe(g.sessions[sk], m);
    PushKeepsInv(g, config, sk, Targets(g, m, Recipients(g.sessions[sk], m), dropped), m);
  }

  lemma {:induction false} FanoutKeepsInv(g: Graph, config: CoreConfig, sk: SessionKey, messages: seq<OutboundMessage>)
    requires Inv(g, config) && RoutingReady(g, sk)
    requires forall i | 0 <= i < |messages| :: Sound(g.sessions[sk], sk, messages[i])
    ensures Inv(FanoutAll(g, config, sk, messages).0, config)
  {
    if messages != [] {
      FanoutKeepsInv(g, config, sk, messages[..|messages| - 1]);
      var (g1, dropped) := FanoutAll(g, config, sk, messages[..|messages| - 1]);
      FanoutOne(g1, config, sk, messages[|messages| - 1], dropped);
    }
  }

  /** A sound message is never refused by a queue. */
  lemma SoundNeverRefused(l: Lanes, config: CoreConfig, s: Session, sk: SessionKey, m: OutboundMessage)
    requires l.Bounded(config.queue) && Sound(s, sk, m)
    ensures l.Push(config.queue, m).1.Ok?
  {
    PushKeepsBounds(l, config.queue, m);
  }

  /** What the message names is there. */
  predicate Stands(g: Graph, m: OutboundMessage) {
    && m.Session() in g.sessions && m.space in g.sessions[m.Session()].spaces
    && (m.entity.Some? ==> m.entity.value in g.sessions[m.Session()].entities)
  }

  ghost predicate AllStand(g: Graph, l: Lanes) { forall m | l.Holds(m) :: Stands(g, m) }

  lemma DeliverableStands(g: Graph, config: CoreConfig)
    requires QueuesOk(g, config)
    ensures forall c | c in g.connections :: AllStand(g, g.connections[c].outbound)
  {
    forall c, m | c in g.connections && g.connections[c].outbound.Holds(m) ensures Stands(g, m) {
      assert Deliverable(g, c, m);
    }
  }

  // ------------------------------------------------------------------ losing the overflowed consumers

  /** An order in which a connection may be detached from all its sessions. */
  ghost predicate Covers(g: Graph, c: nat, order: seq<SessionKey>) {
    && c in g.connections && (forall i | 0 <= i < |order| :: order[i] in g.sessions)
    && forall sk | sk in g.connections[c].memberships :: sk in order
  }

  /** Losing connections one after the other, each detached from its sessions in its own order. */
  ghost function DisconnectAll(g: Graph, lost: seq<nat>, orders: seq<seq<SessionKey>>): Graph
    requires |orders| == |lost|
  {
    if lost == [] then g
    else
      var n := |lost| - 1;
      var g1 := DisconnectAll(g, lost[..n], orders[..n]);
      if Covers(g1, lost[n], orders[n]) then Disconnect(g1, lost[n], orders[n]) else g1
  }

  /** Each of the connections was there to be lost when its turn came. */
  ghost predicate Loses(g: Graph, lost: seq<nat>, orders: seq<seq<SessionKey>>) {
    |orders| == |lost| && forall i | 0 <= i < |lost| ::
      Covers(DisconnectAll(g, lost[..i], orders[..i]), lost[i], orders[i])
  }

  lemma DisconnectSnoc(g: Graph, lost: seq<nat>, orders: seq<seq<SessionKey>>, c: nat, order: seq<SessionKey>)
    requires |orders| == |lost| && Covers(DisconnectAll(g, lost, orders), c, order)
    ensures DisconnectAll(g, lost + [c], orders + [order]) == Disconnect(DisconnectAll(g, lost, orders), c, order)
  {
    assert (lost + [c])[..|lost|] == lost && (orders + [order])[..|lost|] == orders;
  }

  lemma LosesSnoc(g: Graph, lost: seq<nat>, orders: seq<seq<SessionKey>>, c: nat, order: seq<SessionKey>)
    requires Loses(g, lost, orders) && Covers(DisconnectAll(g, lost, orders), c, order)
    ensures Loses(g, lost + [c], orders + [order])
  {
    var lost', orders' := lost + [c], orders + [order];
    forall i | 0 <= i < |lost'| ensures Covers(DisconnectAll(g, lost'[..i], orders'[..i]), lost'[i], orders'[i]) {
      if i < |lost| {
        assert lost'[..i] == lost[..i] && orders'[..i] == orders[..i];
      } else {
        assert lost'[..i] == lost && orders'[..i] == orders;
      }
    }
  }

  lemma DisconnectFrame(g: Graph, c: nat, order: seq<SessionKey>)
    requires Covers(g, c, order)
    ensures Disconnect(g, c, order).connections.Keys == g.connections.Keys - {c}
    ensures Disconnect(g, c, order).sessions.Keys == g.sessions.Keys
  {
    assert DetachAll(g, c, order).connections.Keys == g.connections.Keys;
  }

  lemma DisconnectLast(g: Graph, lost: seq<nat>, orders: seq<seq<SessionKey>>, c: nat)
    requires Loses(g, lost, orders) && lost != []
    ensures var n := |lost| - 1;
            var g1, g' := DisconnectAll(g, lost[..n], orders[..n]), DisconnectAll(g, lost, orders);
            (c in g'.connections <==> c in g1.connections && c != lost[n]) && g'.sessions.Keys == g1.sessions.Keys
  {
    var n := |lost| - 1;
    DisconnectFrame(DisconnectAll(g, lost[..n], orders[..n]), lost[n], orders[n]);
  }

  /** Exactly the given connections go. */
  lemma {:induction false} LosesExactly(g: Graph, lost: seq<nat>, orders: seq<seq<SessionKey>>, c: nat)
    requires Loses(g, lost, orders)
    ensures c in DisconnectAll(g, lost, orders).connections <==> c in g.connections && c !in lost
    ensures DisconnectAll(g, lost, orders).sessions.Keys == g.sessions.Keys
  {
    if lost != [] {
      var n := |lost| - 1;
      LosesInit(g, lost, orders);
      LosesExactly(g, lost[..n], orders[..n], c);
      DisconnectLast(g, lost, orders, c);
      InInit(lost, c);
    }
  }

  lemma InInit(s: seq<nat>, c: nat)
    requires s != []
    ensures c in s <==> c in s[..|s| - 1] || c == s[|s| - 1]
  {
  }

  lemma LosesInit(g: Graph, lost: seq<nat>, orders: seq<seq<SessionKey>>)
    requires Loses(g, lost, orders) && lost != []
    ensures Loses(g, lost[..|lost| - 1], orders[..|lost| - 1])
  {
    var n := |lost| - 1;
    forall i | 0 <= i < n
      ensures Covers(DisconnectAll(g, lost[..n][..i], orders[..n][..i]), lost[..n][i], orders[..n][i]) {
      assert lost[..n][..i] == lost[..i] && orders[..n][..i] == orders[..i];
    }
  }
}
