/** Space epochs over whole runs: the epochs of a space id only ever go up, across install, advance,
    removal and reinstall. */
module Epochs {
  import opened Model
  import opened SessionGraph
  import opened Cascade
  import opened Removing
  import opened Commands
  import opened CommandInvariants
  import opened MemberInvariants
  import opened Fanout

  /** The last epoch a space id has had: its current one, or the one it was removed at. */
  function Floor(s: Session, sp: nat): Option<nat> {
    if sp in s.spaces then Some(s.spaces[sp].epoch)
    else if sp in s.tombstones then Some(s.tombstones[sp])
    else None
  }

  /** A later state: floors never fall, and a space is either the same incarnation or a newer epoch. */
  ghost predicate Later(s: Session, s': Session) {
    && (forall sp | Floor(s, sp).Some? :: Floor(s', sp).Some? && Floor(s, sp).value <= Floor(s', sp).value)
    && (forall sp | sp in s'.spaces && Floor(s, sp).Some? ::
          || (sp in s.spaces && s.spaces[sp].epoch == s'.spaces[sp].epoch)
          || Floor(s, sp).value < s'.spaces[sp].epoch)
  }

  /** Every session is later, and no identifier is handed out twice. */
  ghost predicate LaterGraph(g: Graph, g': Graph) {
    && g.nextConnection <= g'.nextConnection && g.nextEntity <= g'.nextEntity
    && forall sk | sk in g.sessions :: sk in g'.sessions && Later(g.sessions[sk], g'.sessions[sk])
  }

  /** What clients leave of a session's furniture: the limit, every space without a parent, and no other space than
      there was, each as it was. */
  ghost predicate Furnished(s: Session, s': Session) {
    && s'.rateLimit == s.rateLimit
    && (forall sp | sp in s'.spaces :: sp in s.spaces && s'.spaces[sp] == s.spaces[sp])
    && (forall sp | sp in s.spaces && s.spaces[sp].parent.None? :: sp in s'.spaces)
  }

  ghost predicate FurnishedAt(ss: map<SessionKey, Session>, ss': map<SessionKey, Session>, sk: SessionKey) {
    sk in ss && sk in ss' && Furnished(ss[sk], ss'[sk])
  }

  /** The same sessions, each with its furniture. */
  ghost predicate FurnishedAll(ss: map<SessionKey, Session>, ss': map<SessionKey, Session>) {
    ss'.Keys == ss.Keys && forall sk {:trigger FurnishedAt(ss, ss', sk)} | sk in ss :: FurnishedAt(ss, ss', sk)
  }

  lemma FurnishedSelf(ss: map<SessionKey, Session>)
    ensures FurnishedAll(ss, ss)
  {
    forall k | k in ss ensures FurnishedAt(ss, ss, k) {}
  }

  lemma FurnishedTransitive(a: map<SessionKey, Session>, b: map<SessionKey, Session>, c: map<SessionKey, Session>)
    requires FurnishedAll(a, b) && FurnishedAll(b, c)
    ensures FurnishedAll(a, c)
  {
    forall k | k in a ensures FurnishedAt(a, c, k) { assert FurnishedAt(a, b, k) && FurnishedAt(b, c, k); }
  }

  /** One session replaced by one with the same furniture. */
  lemma FurnishedOne(ss: map<SessionKey, Session>, sk: SessionKey, s': Session)
    requires sk in ss && Furnished(ss[sk], s')
    ensures FurnishedAll(ss, ss[sk := s'])
  {
    assert ss[sk := s'].Keys == ss.Keys;
    forall k | k in ss ensures FurnishedAt(ss, ss[sk := s'], k) {}
  }

  predicate Live(s: Session, sp: nat, epoch: nat) { sp in s.spaces && s.spaces[sp].epoch == epoch }

  lemma LaterTransitive(s1: Session, s2: Session, s3: Session)
    requires Later(s1, s2) && Later(s2, s3)
    ensures Later(s1, s3)
  {
    forall sp | Floor(s1, sp).Some? ensures Floor(s3, sp).Some? && Floor(s1, sp).value <= Floor(s3, sp).value {
      assert Floor(s2, sp).Some?;
    }
    forall sp | sp in s3.spaces && Floor(s1, sp).Some?
      ensures (sp in s1.spaces && s1.spaces[sp].epoch == s3.spaces[sp].epoch)
              || Floor(s1, sp).value < s3.spaces[sp].epoch
    {
      assert Floor(s2, sp).Some?;
    }
  }

  lemma LaterGraphTransitive(g1: Graph, g2: Graph, g3: Graph)
    requires LaterGraph(g1, g2) && LaterGraph(g2, g3)
    ensures LaterGraph(g1, g3)
  {
    forall sk | sk in g1.sessions ensures sk in g3.sessions && Later(g1.sessions[sk], g3.sessions[sk]) {
      LaterTransitive(g1.sessions[sk], g2.sessions[sk], g3.sessions[sk]);
    }
  }

  // ------------------------------------------------------------------ runs

  /** A step of a run: sessions may go, those that stay are later, and no identifier is handed out twice. */
  ghost predicate Onward(g: Graph, g': Graph) {
    && g.nextConnection <= g'.nextConnection && g.nextEntity <= g'.nextEntity
    && forall sk | sk in g.sessions && sk in g'.sessions :: Later(g.sessions[sk], g'.sessions[sk])
  }

  /** Commands that keep all sessions are steps, and so are those that drop one. */
  lemma LaterIsOnward(g: Graph, g': Graph, dropped: SessionKey)
    ensures LaterGraph(g, g') ==> Onward(g, g')
    ensures LaterGraph(g.(sessions := g.sessions - {dropped}), g') && dropped !in g'.sessions ==> Onward(g, g')
  {
    var rest := g.(sessions := g.sessions - {dropped});
    assert forall sk | sk in g.sessions && sk != dropped :: sk in rest.sessions && rest.sessions[sk] == g.sessions[sk];
  }

  ghost predicate OnwardRun(run: seq<Graph>) { forall n | 0 <= n < |run| - 1 :: Onward(run[n], run[n + 1]) }

  /** A session that has gone stays away. */
  ghost predicate NoReturn(run: seq<Graph>, sk: SessionKey) {
    forall a, b, c | 0 <= a <= b <= c < |run| && sk in run[a].sessions && sk in run[c].sessions :: sk in run[b].sessions
  }

  /** Over any run identifiers are never handed out twice. */
  lemma {:induction false} IdentifiersGrow(run: seq<Graph>, i: nat, j: nat)
    requires i <= j < |run| && OnwardRun(run)
    ensures run[i].nextConnection <= run[j].nextConnection && run[i].nextEntity <= run[j].nextEntity
    decreases j - i
  {
    if i < j {
      IdentifiersGrow(run, i, j - 1);
      assert Onward(run[j - 1], run[j - 1 + 1]);
    }
  }

  /** As long as a session is there, the epoch floors of its spaces never fall. */
  lemma {:induction false} LaterRun(run: seq<Graph>, sk: SessionKey, i: nat, j: nat)
    requires i <= j < |run| && OnwardRun(run) && forall n | i <= n <= j :: sk in run[n].sessions
    ensures Later(run[i].sessions[sk], run[j].sessions[sk])
    decreases j - i
  {
    if i < j {
      LaterRun(run, sk, i, j - 1);
      assert Onward(run[j - 1], run[j - 1 + 1]);
      LaterTransitive(run[i].sessions[sk], run[j - 1].sessions[sk], run[j].sessions[sk]);
    }
  }

  predicate LiveIn(g: Graph, sk: SessionKey, sp: nat, epoch: nat)
  {
    sk in g.sessions && Live(g.sessions[sk], sp, epoch)
  }

  /** Over any run, whatever sessions are dropped, a (space, epoch) pair that has gone never comes back, unless its
      session had gone and came back. */
  lemma EpochNeverReused(run: seq<Graph>, sk: SessionKey, sp: nat, epoch: nat, i: nat, j: nat, k: nat)
    requires i <= j <= k < |run| && OnwardRun(run) && NoReturn(run, sk)
    requires LiveIn(run[i], sk, sp, epoch) && !LiveIn(run[j], sk, sp, epoch)
    ensures !LiveIn(run[k], sk, sp, epoch)
  {
    if sk in run[k].sessions {
      LaterRun(run, sk, i, j);
      LaterRun(run, sk, j, k);
      assert Floor(run[i].sessions[sk], sp) == Some(epoch);
      assert Floor(run[j].sessions[sk], sp).Some?;
    }
  }

  /** Without drops no session returns, because none goes. */
  lemma {:induction false} KeptSessions(run: seq<Graph>, sk: SessionKey, i: nat, j: nat)
    requires i <= j < |run| && forall n | 0 <= n < |run| - 1 :: LaterGraph(run[n], run[n + 1])
    ensures sk in run[i].sessions ==> sk in run[j].sessions
    decreases j - i
  {
    if i < j {
      KeptSessions(run, sk, i, j - 1);
      assert LaterGraph(run[j - 1], run[j - 1 + 1]);
    }
  }

  // ------------------------------------------------------------------ every effect is later

  /** Spaces and tombstones unchanged, or only spaces with no history added. */
  lemma SameEpochs(s: Session, s': Session)
    requires s'.spaces == s.spaces && s'.tombstones == s.tombstones
    ensures Later(s, s')
  {
  }

  lemma RemoveLater(s: Session, r: Removal)
    requires SpacesOk(s)
    ensures Later(s, RemoveFromSession(s, r))
  {
  }

  lemma InstallLater(s: Session, d: SpaceDescriptor)
    requires d.id !in s.spaces && (d.id in s.tombstones ==> s.tombstones[d.id] < d.epoch)
    ensures Later(s, InstallSpace(s, d))
  {
  }

  lemma SetEpochLater(s: Session, sp: nat, epoch: nat)
    requires sp in s.spaces && s.spaces[sp].epoch < epoch
    ensures Later(s, SetEpoch(s, sp, epoch))
  {
  }

  lemma WithSessionLater(g: Graph, g': Graph, sk: SessionKey, s': Session)
    requires sk in g.sessions && g'.sessions == g.sessions[sk := s'] && Later(g.sessions[sk], s')
    requires g.nextConnection <= g'.nextConnection && g.nextEntity <= g'.nextEntity
    ensures LaterGraph(g, g')
  {
    forall k | k in g.sessions ensures k in g'.sessions && Later(g.sessions[k], g'.sessions[k]) {
      if k != sk { SameEpochs(g.sessions[k], g'.sessions[k]); }
    }
  }

  lemma SameSessionsLater(g: Graph, g': Graph)
    requires g'.sessions == g.sessions && g.nextConnection <= g'.nextConnection && g.nextEntity <= g'.nextEntity
    ensures LaterGraph(g, g')
  {
    forall k | k in g.sessions ensures Later(g.sessions[k], g'.sessions[k]) {
      SameEpochs(g.sessions[k], g'.sessions[k]);
    }
  }

  lemma CascadeLater(g: Graph, sk: SessionKey, entities: set<nat>)
    requires sk in g.sessions && SpacesOk(g.sessions[sk])
    ensures LaterGraph(g, RemoveCascade(g, sk, entities))
  {
    var r := Closure(g.sessions[sk], Removal(entities, {}));
    RemoveLater(g.sessions[sk], r);
    WithSessionLater(g, Remove(g, sk, r), sk, RemoveFromSession(g.sessions[sk], r));
  }

  lemma DetachLater(g: Graph, c: nat, sk: SessionKey)
    requires c in g.connections && sk in g.sessions && SpacesOk(g.sessions[sk])
    ensures LaterGraph(g, Detach(g, c, sk))
  {
    var g1 := RemoveCascade(g, sk, OwnedIn(g.sessions[sk], c));
    CascadeLater(g, sk, OwnedIn(g.sessions[sk], c));
    var g2 := Unlink(g1, c, sk);
    SameEpochs(g1.sessions[sk], g2.sessions[sk]);
    WithSessionLater(g1, g2, sk, g2.sessions[sk]);
    LaterGraphTransitive(g, g1, g2);
  }

  /** Advancing an epoch is later even when the cascade takes the space itself. */
  lemma AdvanceLater(g: Graph, sk: SessionKey, sp: nat, epoch: nat)
    requires sk in g.sessions && SpacesOk(g.sessions[sk]) && sp in g.sessions[sk].spaces
             && g.sessions[sk].spaces[sp].epoch < epoch
    ensures LaterGraph(g, AdvanceEpoch(g, sk, sp, epoch))
  {
    var entities := EntitiesIn(g.sessions[sk], sp);
    var g1 := PurgeAll(RemoveCascade(g, sk, entities), InSpace(sk, sp));
    CascadeLater(g, sk, entities);
    SameSessionsLater(RemoveCascade(g, sk, entities), g1);
    LaterGraphTransitive(g, RemoveCascade(g, sk, entities), g1);
    if sp in g1.sessions[sk].spaces {
      SetEpochLater(g1.sessions[sk], sp, epoch);
      var g2 := WithSession(g1, sk, SetEpoch(g1.sessions[sk], sp, epoch));
      WithSessionLater(g1, g2, sk, SetEpoch(g1.sessions[sk], sp, epoch));
      LaterGraphTransitive(g, g1, g2);
    }
  }

  lemma {:induction false} DetachAllLater(g: Graph, config: CoreConfig, c: nat, order: seq<SessionKey>)
    requires Inv(g, config) && c in g.connections && forall i | 0 <= i < |order| :: order[i] in g.sessions
    ensures LaterGraph(g, DetachAll(g, c, order))
  {
    if order == [] {
      SameSessionsLater(g, g);
    } else {
      var init, last := order[..|order| - 1], order[|order| - 1];
      DetachAllLater(g, config, c, init);
      DetachAllKeepsInv(g, config, c, init);
      SessionOf(DetachAll(g, c, init), config, last);
      DetachLater(DetachAll(g, c, init), c, last);
      LaterGraphTransitive(g, DetachAll(g, c, init), DetachAll(g, c, order));
    }
  }

  lemma DisconnectLater(g: Graph, config: CoreConfig, c: nat, order: seq<SessionKey>)
    requires Inv(g, config) && Covers(g, c, order)
    ensures LaterGraph(g, Disconnect(g, c, order))
  {
    DetachAllLater(g, config, c, order);
    SameSessionsLater(DetachAll(g, c, order), Disconnect(g, c, order));
    LaterGraphTransitive(g, DetachAll(g, c, order), Disconnect(g, c, order));
  }
}
