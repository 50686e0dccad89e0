/** What a push or a pop does to a queue and what it answers, said by what is in the lanes before and after. */
module QueueLaws {
  import opened Model
  import opened Sequences
  import opened Queue

  /** The queue as a whole has room. */
  predicate HasRoom(l: Lanes, config: Config) { |l.critical| + |l.latest| + |l.bestEffort| < config.total }

  /** A value with the key of `m` is held. */
  predicate IsHeld(l: Lanes, m: OutboundMessage)
  {
    exists x | x in l.latest :: x.ScopedCoalesceKey() == m.ScopedCoalesceKey()
  }

  predicate EndsWith(s: seq<OutboundMessage>, m: OutboundMessage) { s != [] && s[|s| - 1] == m }

  lemma HeldByIndex(l: Lanes, m: OutboundMessage)
    requires HasKey(m)
    ensures IsHeld(l, m) <==> l.HoldsKey(KeyOf(m))
  {
    if x :| x in l.latest && x.ScopedCoalesceKey() == m.ScopedCoalesceKey() {
      var i :| 0 <= i < |l.latest| && l.latest[i] == x;
      assert l.latest[i].ScopedCoalesceKey() == Some(KeyOf(m));
    }
  }

  /** Only the replaceable lane and, by its oldest message, the best-effort lane can change. */
  ghost predicate LatestOnly(l: Lanes, l': Lanes) { l'.critical == l.critical && l'.exhausted == l.exhausted }

  /** Where there is room a new value is added at the end and nothing else changes. */
  lemma LatestAdded(l: Lanes, config: Config, m: OutboundMessage)
    requires l.Bounded(config) && m.delivery.IsReplaceable() && HasKey(m) && !IsHeld(l, m)
    requires |l.latest| < config.latest && HasRoom(l, config)
    ensures l.Push(config, m) == (Lanes(l.critical, l.latest + [m], l.bestEffort, l.exhausted), Ok(Queued))
  {
    HeldByIndex(l, m);
  }

  /** A held key: the one value with that key goes, all others keep their order, the new value is last. */
  lemma LatestReplaced(l: Lanes, config: Config, m: OutboundMessage)
    requires l.Bounded(config) && m.delivery.IsReplaceable() && HasKey(m) && IsHeld(l, m)
    ensures var (l', r) := l.Push(config, m);
            && r == Ok(ReplacedLatest) && LatestOnly(l, l') && l'.bestEffort == l.bestEffort
            && exists i | 0 <= i < |l.latest| :: l.latest[i].ScopedCoalesceKey() == m.ScopedCoalesceKey()
                 && l'.latest == l.latest[..i] + l.latest[i + 1..] + [m]
  {
    HeldByIndex(l, m);
    var i := HeldOnce(l.latest, KeyOf(m));
    assert Filter(Without(KeyOf(m)), l.latest) == l.latest[..i] + l.latest[i + 1..];
  }

  lemma {:induction false} HeldOnce(s: seq<OutboundMessage>, key: ScopedKey) returns (i: nat)
    requires DistinctKeys(s) && exists i | 0 <= i < |s| :: s[i].ScopedCoalesceKey() == Some(key)
    ensures i < |s| && s[i].ScopedCoalesceKey() == Some(key) && Filter(Without(key), s) == s[..i] + s[i + 1..]
  {
    var n := |s| - 1;
    var j :| 0 <= j < |s| && s[j].ScopedCoalesceKey() == Some(key);
    if s[n].ScopedCoalesceKey() == Some(key) {
      i := n;
      FilterAll(Without(key), s[..n]);
      assert s[n + 1..] == [];
    } else {
      assert s[..n][j].ScopedCoalesceKey() == Some(key);
      i := HeldOnce(s[..n], key);
      assert s[..n][..i] + s[..n][i + 1..] + [s[n]] == s[..i] + s[i + 1..];
    }
  }

  /** Without room in the lane or in the queue exactly the oldest value makes way, or, when there is none, the
      oldest best-effort message; when there is neither, or the lane takes nothing, the new value is dropped. */
  lemma LatestCrowded(l: Lanes, config: Config, m: OutboundMessage)
    requires l.Bounded(config) && m.delivery.IsReplaceable() && HasKey(m) && !IsHeld(l, m)
    requires |l.latest| == config.latest || !HasRoom(l, config)
    ensures l.latest != [] ==>
              l.Push(config, m) == (Lanes(l.critical, l.latest[1..] + [m], l.bestEffort, l.exhausted),
                                    Ok(EvictedLatest(KeyOf(l.latest[0]))))
    ensures l.latest == [] && config.latest > 0 && l.bestEffort != [] ==>
              l.Push(config, m) == (Lanes(l.critical, [m], l.bestEffort[1..], l.exhausted),
                                    Ok(EvictedBestEffortForLatest))
    ensures l.latest == [] && (config.latest == 0 || l.bestEffort == []) ==> l.Push(config, m) == (l, Ok(DroppedLatest))
  {
    HeldByIndex(l, m);
    assert l.latest != [] ==> l.latest[0] in l.latest;
    assert l.latest == [] ==> l.latest + [m] == [m];
  }

  /** A value with a key is the newest in its lane afterwards if and only if the lane takes values at all and the
      queue has room, or a value or a best-effort message can make way. */
  lemma LatestTakenExactly(l: Lanes, config: Config, m: OutboundMessage)
    requires l.Bounded(config) && m.delivery.IsReplaceable() && HasKey(m)
    ensures EndsWith(l.Push(config, m).0.latest, m)
            <==> config.latest > 0 && (HasRoom(l, config) || l.latest != [] || l.bestEffort != [])
    ensures l.Push(config, m).1 == Ok(DroppedLatest) <==> !EndsWith(l.Push(config, m).0.latest, m)
  {
    if IsHeld(l, m) {
      LatestReplaced(l, config, m);
    } else if |l.latest| < config.latest && HasRoom(l, config) {
      LatestAdded(l, config, m);
    } else {
      LatestCrowded(l, config, m);
    }
  }

  /** A critical message is last in its lane afterwards unless the lane is full. Nothing else goes while the queue
      has room; otherwise exactly the oldest value or, when there is none, the oldest best-effort message. */
  lemma CriticalTaken(l: Lanes, config: Config, m: OutboundMessage)
    requires l.Bounded(config) && m.delivery.IsCritical() && |l.critical| < config.critical
    ensures HasRoom(l, config) ==>
              l.Push(config, m) == (Lanes(l.critical + [m], l.latest, l.bestEffort, l.exhausted), Ok(Queued))
    ensures !HasRoom(l, config) && l.latest != [] ==>
              l.Push(config, m) == (Lanes(l.critical + [m], l.latest[1..], l.bestEffort, l.exhausted),
                                    Ok(QueuedCriticalAfterEviction(LatestEviction(KeyOf(l.latest[0])))))
    ensures !HasRoom(l, config) && l.latest == [] ==>
              l.bestEffort != [] && l.Push(config, m) == (Lanes(l.critical + [m], [], l.bestEffort[1..], l.exhausted),
                                                          Ok(QueuedCriticalAfterEviction(BestEffortEviction)))
  {
    assert l.latest != [] ==> l.latest[0] in l.latest;
  }

  /** A full critical lane takes nothing, keeps everything and marks the consumer. */
  lemma CriticalRefused(l: Lanes, config: Config, m: OutboundMessage)
    requires m.delivery.IsCritical() && |l.critical| == config.critical
    ensures l.Push(config, m) == (Lanes(l.critical, l.latest, l.bestEffort, true), Ok(CriticalCapacityExhausted))
  {
  }

  /** A best-effort message is added exactly when its lane and the queue have room, and never displaces another. */
  lemma BestEffortTaken(l: Lanes, config: Config, m: OutboundMessage)
    requires l.Bounded(config) && m.delivery.BestEffortEvent?
    ensures l.Push(config, m)
         == if |l.bestEffort| < config.bestEffort && HasRoom(l, config)
            then (Lanes(l.critical, l.latest, l.bestEffort + [m], l.exhausted), Ok(Queued))
            else (l, Ok(DroppedBestEffort))
  {
  }

  /** A pop takes the first message of the first lane that has one, and answers nothing only when all are empty. */
  lemma PopTakesFirst(l: Lanes)
    ensures var (l', r) := l.Pop();
            if r.Some?
               then l.critical + l.latest + l.bestEffort == [r.value] + (l'.critical + l'.latest + l'.bestEffort)
            else l' == l && l.critical + l.latest + l.bestEffort == []
  {
    var (l', r) := l.Pop();
    if l.critical != [] {
      assert l.critical == [l.critical[0]] + l'.critical;
    } else if l.latest != [] {
      assert l.latest == [l.latest[0]] + l'.latest;
    } else if l.bestEffort != [] {
      assert l.bestEffort == [l.bestEffort[0]] + l'.bestEffort;
    }
  }
}
