/** When a managed request is carried out and when it is recognised as a repetition. */
module ManagedLaws {
  import opened Model
  import opened SessionGraph
  import opened Checks
  import opened Hex
  import opened CommandLaws
  import opened ManagedScopes

  /** The key is named, the revision counts from one, and the capacity is within both limits. */
  predicate Entitled(config: CoreConfig, sk: SessionKey, revision: nat, ccu: nat) {
    Named(sk) && revision > 0 && ccu <= MAX_CCU && ccu <= config.maxConnections
  }

  predicate RateFits(tick: Option<nat>) { tick.None? || (tick.value > 0 && tick.value <= MAX_TICK_RATE) }

  predicate Live(st: Managed, sk: SessionKey) { sk in st.scopes && !st.scopes[sk].retired }

  /** A scope is created exactly for a key that was never used and lies above the boundary with both halves, under a
      credential nobody else has, while there is room. */
  lemma PutAnswers(st: Managed, config: CoreConfig, sk: SessionKey, revision: nat, ccu: nat, tick: Option<nat>,
                   credential: Option<Verifier>)
    ensures DecidePut(st, config, sk, revision, ccu, tick, credential) == Ok(true)
            <==> && Entitled(config, sk, revision, ccu) && RateFits(tick) && credential.Some? && sk !in st.scopes
                 && (st.baseline.Some? ==>
                       st.baseline.value.closedThrough < sk.namespace && st.baseline.value.closedThrough < sk.session)
                 && credential.value != st.admin
                    && (forall k | k in st.scopes :: st.scopes[k].verifier != credential.value)
                 && |st.scopes| < MAX_HISTORY && |st.sessions| < MAX_SCOPES && |st.sessions| != config.maxSessions
    ensures DecidePut(st, config, sk, revision, ccu, tick, credential) == Ok(false)
            <==> && Entitled(config, sk, revision, ccu) && RateFits(tick) && credential.Some? && Live(st, sk)
                 && var s := st.scopes[sk];
                    && !s.last.MigrationBaseline? && s.revision == revision && s.ccu == ccu && s.tick == tick
                    && s.verifier == credential.value
  {
  }

  /** A live scope is changed exactly by a newer revision, by the next one while it still is as it was migrated. */
  lemma PatchAnswers(st: Managed, config: CoreConfig, sk: SessionKey, revision: nat, ccu: nat, tick: Option<nat>)
    ensures DecidePatch(st, config, sk, revision, ccu, tick) == Ok(true)
            <==> && Entitled(config, sk, revision, ccu) && RateFits(tick) && Live(st, sk)
                 && st.scopes[sk].revision < revision
                 && (st.scopes[sk].last.MigrationBaseline? ==> revision == st.scopes[sk].revision + 1)
    ensures DecidePatch(st, config, sk, revision, ccu, tick) == Ok(false)
            <==> && Entitled(config, sk, revision, ccu) && RateFits(tick) && Live(st, sk)
                 && st.scopes[sk].revision == revision && st.scopes[sk].last == Configuration(ccu, tick)
  {
  }

  predicate IsManagedSpace(d: SpaceDescriptor) {
    && WellFormed(d) && d.id > 2 && d.epoch == 1 && d.parent.None? && d.bounds.Some?
       && d.frame.Frame3D? && d.routing.Grid3D?
  }

  /** A live scope takes a space exactly at its next revision, under an identifier it has not used, while there is
      room and its session can install it. */
  lemma PutSpaceAnswers(st: Managed, config: CoreConfig, sk: SessionKey, revision: nat, d: SpaceDescriptor)
    ensures DecidePutSpace(st, config, sk, revision, d) == Ok(true)
            <==> && Entitled(config, sk, revision, 0) && IsManagedSpace(d) && Live(st, sk)
                 && revision == st.scopes[sk].revision + 1 && d.id !in st.scopes[sk].spaces
                 && |st.scopes[sk].spaces| != MAX_SPATIAL && CheckInstall(st.sessions, config, sk, d).None?
    ensures DecidePutSpace(st, config, sk, revision, d) == Ok(false)
            <==> && Entitled(config, sk, revision, 0) && IsManagedSpace(d) && Live(st, sk)
                 && revision == st.scopes[sk].revision && st.scopes[sk].last == SpaceMutation(d.id)
                 && d.id in st.scopes[sk].spaces && st.scopes[sk].spaces[d.id] == d
  {
    ValidatesExactly(d);
  }

  /** A deletion goes through exactly at the revision on record, again and again. */
  lemma DeleteAnswers(st: Managed, config: CoreConfig, sk: SessionKey, revision: nat)
    ensures DecideDelete(st, config, sk, revision).None?
            <==> Entitled(config, sk, revision, 0) && sk in st.scopes && st.scopes[sk].revision == revision
  {
  }
}
