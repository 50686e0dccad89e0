/** Managed scopes: revisioned configuration of sessions, with the admission controller and the session
    each live scope owns. */
module ManagedScopes {
  import opened Model
  import opened Hex
  import opened RateLimit
  import opened SessionGraph
  import opened Checks
  import opened Admission
  import opened AdmissionInvariants
  import opened AdmissionControllers
  import opened Ledgers
  import opened Epochs
  import Cache
  import Commands

  const MAX_SCOPES: nat := 1024
  const MAX_HISTORY: nat := 4096
  const MAX_CCU: nat := 4096
  const MAX_SPATIAL: nat := 64
  const SYSTEM_SPACES: nat := 2
  const MAX_TICK_RATE: nat := 120
  const MAX_MIGRATION_ID: nat := 128
  const LINEAGE_LENGTH: nat := 48

  datatype ManagedError =
    | InvalidRequest
    | ScopeNotFound
    | RevisionConflict
    | ScopeRetired
    | TokenConflict
    | CapacityExhausted
    | SpaceCapacityExhausted

  datatype Mutation =
    | MigrationBaseline
    | ProvisionMutation
    | Configuration(ccu: nat, tick: Option<nat>)
    | SpaceMutation(space: nat)

  datatype Scope = Scope(
    verifier: Verifier,
    revision: nat,
    last: Mutation,
    ccu: nat,
    tick: Option<nat>,
    spaces: map<nat, SpaceDescriptor>,
    retired: bool)

  /** A boundary below which scope history is known to be lost. */
  datatype Baseline = Baseline(version: nat, migrationId: string, lineage: string,
                               closedThrough: nat, unknownHistory: bool)
  {
    predicate Valid() {
      && version == 1
      && 1 <= |migrationId| <= MAX_MIGRATION_ID && (forall i | 0 <= i < |migrationId| :: '!' <= migrationId[i] <= '~')
      && |lineage| == LINEAGE_LENGTH && (forall i | 0 <= i < |lineage| :: Nibble(lineage[i]).Some?)
      && closedThrough > 0 && unknownHistory
    }
  }

  type Scopes = map<SessionKey, Scope>

  datatype Managed = Managed(
    admin: Verifier,
    baseline: Option<Baseline>,
    scopes: Scopes,
    sessions: Sessions,
    controllers: Controllers)

  // ------------------------------------------------------------------ invariants

  predicate TickOk(tick: Option<nat>) { tick.Some? ==> 1 <= tick.value <= MAX_TICK_RATE }

  /** A managed space: its own id, first epoch, bounded, three-dimensional grid routing. */
  predicate ManagedDescriptor(d: SpaceDescriptor) {
    && d.id > SYSTEM_SPACES && d.epoch == 1 && d.parent.None? && d.bounds.Some?
    && d.frame.Frame3D? && d.routing.Grid3D? && d.Validate().None?
  }

  predicate ValidUpdate(config: CoreConfig, sk: SessionKey, revision: nat, ccu: nat) {
    NonZeroSession(sk) && revision != 0 && ccu <= MAX_CCU && ccu <= config.maxConnections
  }

  /** Both halves of the key lie below the boundary. */
  predicate Historical(baseline: Option<Baseline>, sk: SessionKey) {
    baseline.Some? && sk.namespace <= baseline.value.closedThrough && sk.session <= baseline.value.closedThrough
  }

  predicate OneSided(baseline: Option<Baseline>, sk: SessionKey) {
    baseline.Some? && (sk.namespace <= baseline.value.closedThrough) != (sk.session <= baseline.value.closedThrough)
  }

  /** What the last mutation says about the rest of the scope. */
  predicate MutationOk(s: Scope, historical: bool) {
    match s.last
    case MigrationBaseline => historical
    case ProvisionMutation => s.spaces == map[]
    case Configuration(ccu, tick) =>
      && s.revision >= 2 && (!historical ==> s.revision > |s.spaces| + 1)
      && ccu == s.ccu && TickOk(tick) && (tick.Some? ==> tick == s.tick)
    case SpaceMutation(space) => s.revision >= 2 && space in s.spaces
  }

  ghost predicate SpacesValid(spaces: map<nat, SpaceDescriptor>) {
    |spaces| <= MAX_SPATIAL && forall id | id in spaces :: spaces[id].id == id && ManagedDescriptor(spaces[id])
  }

  ghost predicate ScopeOk(sk: SessionKey, s: Scope, baseline: Option<Baseline>, config: CoreConfig) {
    && ValidUpdate(config, sk, s.revision, s.ccu) && TickOk(s.tick) && IsVerifier(s.verifier) && SpacesValid(s.spaces)
    && !OneSided(baseline, sk)
    && (!Historical(baseline, sk) ==> s.revision > |s.spaces|)
    && MutationOk(s, Historical(baseline, sk))
  }

  ghost predicate ScopesOk(scopes: Scopes, baseline: Option<Baseline>, config: CoreConfig) {
    forall sk {:trigger ScopeOk(sk, scopes[sk], baseline, config)} | sk in scopes ::
      ScopeOk(sk, scopes[sk], baseline, config)
  }

  /** Verifiers are pairwise distinct, retired ones included, and never the administrator's. */
  ghost predicate VerifiersOk(scopes: Scopes, admin: Verifier) {
    && (forall sk | sk in scopes :: scopes[sk].verifier != admin)
    && (forall a, b | a in scopes && b in scopes && scopes[a].verifier == scopes[b].verifier :: a == b)
  }

  ghost function LiveKeys(scopes: Scopes): set<SessionKey> { set sk | sk in scopes && !scopes[sk].retired }

  ghost predicate LiveOk(st: Managed, config: CoreConfig) {
    && st.sessions.Keys == LiveKeys(st.scopes) && st.controllers.Keys == LiveKeys(st.scopes)
    && |st.sessions| <= MAX_SCOPES && |st.sessions| <= config.maxSessions && |st.scopes| <= MAX_HISTORY
  }

  /** The controller enforces the configured capacity and can never outrun the scope's revision. */
  ghost predicate LimitOk(sk: SessionKey, c: Tables, s: Scope) {
    ControllerOk(c, sk) && c.state.Limit() == s.ccu && c.state.revision <= s.revision
  }

  ghost predicate LimitsOk(st: Managed) {
    && st.controllers.Keys <= st.scopes.Keys
    && forall sk {:trigger LimitOk(sk, st.controllers[sk], st.scopes[sk])} | sk in st.controllers ::
         LimitOk(sk, st.controllers[sk], st.scopes[sk])
  }

  predicate ManagedConfig(config: CoreConfig) { config.Valid() && config.maxSpaces >= SYSTEM_SPACES + MAX_SPATIAL }

  ghost predicate ManagedOk(st: Managed, config: CoreConfig) {
    && ManagedConfig(config) && (st.baseline.Some? ==> st.baseline.value.Valid())
    && ScopesOk(st.scopes, st.baseline, config) && VerifiersOk(st.scopes, st.admin)
       && LiveOk(st, config) && LimitsOk(st) && MirrorsOk(st)
  }

  // ------------------------------------------------------------------ sessions as their scopes say

  /** A space of its own, everywhere, with nobody left out. */
  predicate IsSystemSpace(d: SpaceDescriptor, id: nat) {
    d.id == id && d.frame.Logical? && d.bounds.None? && d.parent.None? && d.epoch == 1 && d.routing.BroadcastAll?
  }

  /** The session of a scope: limited to the scope's tick per second, if it has one, with the two system spaces and
      exactly the spatial spaces of the scope. */
  ghost predicate Mirrors(x: Session, s: Scope) {
    && (s.tick.None? ==> x.rateLimit.None?)
    && (s.tick.Some? ==>
          x.rateLimit.Some? && x.rateLimit.value.maxPublishes == s.tick.value
            && x.rateLimit.value.window == 1_000_000_000)
    && x.spaces.Keys == {1, 2} + s.spaces.Keys
    && IsSystemSpace(x.spaces[1], 1) && IsSystemSpace(x.spaces[2], 2)
    && forall id | id in s.spaces :: x.spaces[id] == s.spaces[id]
  }

  ghost predicate Mirrored(sessions: Sessions, scopes: Scopes, sk: SessionKey) {
    sk in sessions && sk in scopes && Mirrors(sessions[sk], scopes[sk])
  }

  ghost predicate MirrorsOk(st: Managed) {
    forall sk {:trigger Mirrored(st.sessions, st.scopes, sk)} | sk in st.sessions ::
      Mirrored(st.sessions, st.scopes, sk)
  }

  /** One scope with its session replaced; the others are as they were. */
  lemma MirrorReplaced(st: Managed, st': Managed, sk: SessionKey, x: Session, s: Scope)
    requires MirrorsOk(st) && Mirrors(x, s)
    requires st'.sessions == st.sessions[sk := x] && st'.scopes == st.scopes[sk := s]
    ensures MirrorsOk(st')
  {
    forall k | k in st'.sessions ensures Mirrored(st'.sessions, st'.scopes, k) {
      if k != sk { assert Mirrored(st.sessions, st.scopes, k); }
    }
  }

  lemma MirrorDropped(st: Managed, st': Managed, sk: SessionKey, s: Scope)
    requires MirrorsOk(st) && st'.sessions == st.sessions - {sk} && st'.scopes == st.scopes[sk := s]
    ensures MirrorsOk(st')
  {
    forall k | k in st'.sessions ensures Mirrored(st'.sessions, st'.scopes, k) {
      assert Mirrored(st.sessions, st.scopes, k);
    }
  }

  lemma MirrorAt(st: Managed, sk: SessionKey)
    requires MirrorsOk(st) && sk in st.sessions
    ensures sk in st.scopes && Mirrors(st.sessions[sk], st.scopes[sk])
  {
    assert Mirrored(st.sessions, st.scopes, sk);
  }

  lemma NewMirrors(v: Verifier, revision: nat, ccu: nat, tick: Option<nat>)
    ensures Mirrors(NewManagedSession(tick), PutScope(v, revision, ccu, tick))
  {
  }

  lemma PatchedMirrors(x: Session, s: Scope, revision: nat, ccu: nat, tick: Option<nat>)
    requires Mirrors(x, s)
    ensures var s' := PatchScope(s, revision, ccu, tick); Mirrors(x.(rateLimit := Configured(s'.tick)), s')
  {
  }

  lemma GrownMirrors(x: Session, s: Scope, revision: nat, d: SpaceDescriptor)
    requires Mirrors(x, s) && d.id > SYSTEM_SPACES
    ensures Mirrors(Commands.InstallSpace(x, d), AddSpace(s, revision, d))
  {
    var x', s' := Commands.InstallSpace(x, d), AddSpace(s, revision, d);
    assert x'.spaces.Keys == x.spaces.Keys + {d.id} && s'.spaces.Keys == s.spaces.Keys + {d.id};
  }

  /** Scopes are never forgotten, never revived and never go back; credentials never change. */
  ghost predicate Progress(scopes: Scopes, scopes': Scopes) {
    forall sk | sk in scopes ::
      && sk in scopes' && scopes'[sk].verifier == scopes[sk].verifier && scopes[sk].revision <= scopes'[sk].revision
      && (scopes[sk].retired ==> scopes'[sk] == scopes[sk])
  }

  lemma ProgressPut(scopes: Scopes, sk: SessionKey, s: Scope)
    requires sk in scopes
             ==> !scopes[sk].retired && s.verifier == scopes[sk].verifier && scopes[sk].revision <= s.revision
    ensures Progress(scopes, scopes[sk := s])
  {
  }

  lemma ProgressTransitive(a: Scopes, b: Scopes, c: Scopes)
    requires Progress(a, b) && Progress(b, c)
    ensures Progress(a, c)
  {
  }

  lemma {:induction false} ProgressRun(run: seq<Scopes>, i: nat, j: nat)
    requires i <= j < |run| && forall n | 0 <= n < |run| - 1 :: Progress(run[n], run[n + 1])
    ensures Progress(run[i], run[j])
    decreases j - i
  {
    if i < j {
      ProgressRun(run, i, j - 1);
      assert Progress(run[j - 1], run[j - 1 + 1]);
      ProgressTransitive(run[i], run[j - 1], run[j]);
    }
  }

  // ------------------------------------------------------------------ decisions

  function Configured(tick: Option<nat>): Option<Policy> {
    if tick.None? then None else Some(Policy(tick.value, ONE_SECOND))
  }

  function SystemSpace(id: nat): SpaceDescriptor { SpaceDescriptor(id, Logical, None, None, 1, BroadcastAll) }

  /** A new session with its two system spaces. */
  function NewManagedSession(tick: Option<nat>): Session {
    Commands.InstallSpace(Commands.InstallSpace(NEW_SESSION.(rateLimit := Configured(tick)), SystemSpace(1)),
                          SystemSpace(2))
  }

  const MANAGED_POLICY := QueuePolicy(true, 1024, 900 * ONE_SECOND, 30 * ONE_SECOND, 30 * ONE_SECOND, 0)

  predicate TokenTaken(scopes: Scopes, v: Verifier) { exists sk | sk in scopes :: scopes[sk].verifier == v }

  /** A put creates a scope, repeats the last answer, or is refused. `credential` is the digest of the
      client's token, if the token was well formed. */
  function DecidePut(st: Managed, config: CoreConfig, sk: SessionKey, revision: nat, ccu: nat, tick: Option<nat>,
                     credential: Option<Verifier>):
    Result<bool, ManagedError>
  {
    if !ValidUpdate(config, sk, revision, ccu) || !TickOk(tick) || credential.None? then Err(InvalidRequest)
    else if sk in st.scopes then
      var s := st.scopes[sk];
      if s.retired then Err(ScopeRetired)
      else if s.last.MigrationBaseline? || s.revision != revision || s.ccu != ccu || s.tick != tick
              || s.verifier != credential.value
      then Err(RevisionConflict)
      else Ok(false)
    else if st.baseline.Some? && (sk.namespace <= st.baseline.value.closedThrough
                                  || sk.session <= st.baseline.value.closedThrough)
    then Err(ScopeRetired)
    else if credential.value == st.admin || TokenTaken(st.scopes, credential.value) then Err(TokenConflict)
    else if |st.scopes| >= MAX_HISTORY || |st.sessions| >= MAX_SCOPES || |st.sessions| == config.maxSessions
            then Err(CapacityExhausted)
    else Ok(true)
  }

  function DecidePatch(st: Managed, config: CoreConfig, sk: SessionKey, revision: nat, ccu: nat,
                       tick: Option<nat>): Result<bool, ManagedError> {
    if !ValidUpdate(config, sk, revision, ccu) || !TickOk(tick) then Err(InvalidRequest)
    else if sk !in st.scopes then Err(ScopeNotFound)
    else
      var s := st.scopes[sk];
      if s.retired then Err(ScopeRetired)
      else if revision == s.revision then if s.last == Configuration(ccu, tick) then Ok(false)
              else Err(RevisionConflict)
      else if revision < s.revision || (s.last.MigrationBaseline? && s.revision + 1 != revision)
              then Err(RevisionConflict)
      else Ok(true)
  }

  function DecidePutSpace(st: Managed, config: CoreConfig, sk: SessionKey, revision: nat,
                          d: SpaceDescriptor): Result<bool, ManagedError> {
    if !ValidUpdate(config, sk, revision, 0) || !ManagedDescriptor(d) then Err(InvalidRequest)
    else if sk !in st.scopes then Err(ScopeNotFound)
    else
      var s := st.scopes[sk];
      if s.retired then Err(ScopeRetired)
      else if revision == s.revision then
        if s.last == SpaceMutation(d.id) && d.id in s.spaces && s.spaces[d.id] == d then Ok(false)
           else Err(RevisionConflict)
      else if s.revision + 1 != revision || d.id in s.spaces then Err(RevisionConflict)
      else if |s.spaces| == MAX_SPATIAL then Err(SpaceCapacityExhausted)
      else if CheckInstall(st.sessions, config, sk, d).Some? then
        if CheckInstall(st.sessions, config, sk, d).value.SpaceLimitReached?
           || CheckInstall(st.sessions, config, sk, d).value.SpaceIdHistoryLimitReached?
        then Err(SpaceCapacityExhausted)
        else Err(InvalidRequest)
      else Ok(true)
  }

  function DecideDelete(st: Managed, config: CoreConfig, sk: SessionKey, revision: nat): Option<ManagedError> {
    if !ValidUpdate(config, sk, revision, 0) then Some(InvalidRequest)
    else if sk !in st.scopes then Some(ScopeNotFound)
    else if revision != st.scopes[sk].revision then Some(RevisionConflict)
    else None
  }

  // ------------------------------------------------------------------ scopes after each change

  function PutScope(v: Verifier, revision: nat, ccu: nat, tick: Option<nat>): Scope {
    Scope(v, revision, ProvisionMutation, ccu, tick, map[], false)
  }

  function PatchScope(s: Scope, revision: nat, ccu: nat, tick: Option<nat>): Scope {
    s.(revision := revision, last := Configuration(ccu, tick), ccu := ccu, tick := if tick.Some? then tick else s.tick)
  }

  function AddSpace(s: Scope, revision: nat, d: SpaceDescriptor): Scope {
    s.(revision := revision, last := SpaceMutation(d.id), spaces := s.spaces[d.id := d])
  }

  lemma PatchScopeOk(st: Managed, config: CoreConfig, sk: SessionKey, revision: nat, ccu: nat, tick: Option<nat>)
    requires DecidePatch(st, config, sk, revision, ccu, tick) == Ok(true)
             && ScopeOk(sk, st.scopes[sk], st.baseline, config)
    ensures ScopeOk(sk, PatchScope(st.scopes[sk], revision, ccu, tick), st.baseline, config)
  {
  }

  lemma AddSpaceOk(st: Managed, config: CoreConfig, sk: SessionKey, revision: nat, d: SpaceDescriptor)
    requires DecidePutSpace(st, config, sk, revision, d) == Ok(true) && ScopeOk(sk, st.scopes[sk], st.baseline, config)
    ensures ScopeOk(sk, AddSpace(st.scopes[sk], revision, d), st.baseline, config)
  {
    var s := st.scopes[sk];
    assert s.spaces[d.id := d].Keys == s.spaces.Keys + {d.id};
  }

  lemma ScopeReplaced(scopes: Scopes, baseline: Option<Baseline>, config: CoreConfig, sk: SessionKey, s: Scope)
    requires ScopesOk(scopes, baseline, config) && ScopeOk(sk, s, baseline, config)
    ensures ScopesOk(scopes[sk := s], baseline, config)
  {
    var scopes' := scopes[sk := s];
    forall k | k in scopes' ensures ScopeOk(k, scopes'[k], baseline, config) {
      if k != sk { assert ScopeOk(k, scopes[k], baseline, config); }
    }
  }

  lemma VerifierKept(scopes: Scopes, admin: Verifier, sk: SessionKey, s: Scope)
    requires VerifiersOk(scopes, admin) && sk in scopes && s.verifier == scopes[sk].verifier
    ensures VerifiersOk(scopes[sk := s], admin)
  {
  }

  lemma VerifierAdded(scopes: Scopes, admin: Verifier, sk: SessionKey, s: Scope)
    requires VerifiersOk(scopes, admin) && sk !in scopes && s.verifier != admin && !TokenTaken(scopes, s.verifier)
    ensures VerifiersOk(scopes[sk := s], admin)
  {
  }

  /** Repeating an accepted request is answered without changing anything. */
  lemma RetriesAreIdempotent(st: Managed, st': Managed, config: CoreConfig, sk: SessionKey, revision: nat,
                             ccu: nat, tick: Option<nat>,
                             v: Verifier, d: SpaceDescriptor)
    ensures DecidePut(st, config, sk, revision, ccu, tick, Some(v)) == Ok(true)
            && st'.scopes == st.scopes[sk := PutScope(v, revision, ccu, tick)]
            ==> DecidePut(st', config, sk, revision, ccu, tick, Some(v)) == Ok(false)
    ensures DecidePatch(st, config, sk, revision, ccu, tick) == Ok(true)
            && st'.scopes == st.scopes[sk := PatchScope(st.scopes[sk], revision, ccu, tick)]
            ==> DecidePatch(st', config, sk, revision, ccu, tick) == Ok(false)
    ensures DecidePutSpace(st, config, sk, revision, d) == Ok(true)
            && st'.scopes == st.scopes[sk := AddSpace(st.scopes[sk], revision, d)]
            ==> DecidePutSpace(st', config, sk, revision, d) == Ok(false)
  {
  }

  // ------------------------------------------------------------------ the live side

  lemma LimitReplaced(st: Managed, st': Managed, sk: SessionKey, c: Tables, s: Scope)
    requires LimitsOk(st) && LimitOk(sk, c, s)
    requires st'.scopes == st.scopes[sk := s] && st'.controllers == st.controllers[sk := c]
    ensures LimitsOk(st')
  {
    forall k | k in st'.controllers ensures k in st'.scopes && LimitOk(k, st'.controllers[k], st'.scopes[k]) {
      if k != sk { assert LimitOk(k, st.controllers[k], st.scopes[k]); }
    }
  }

  lemma LimitDropped(st: Managed, st': Managed, sk: SessionKey, s: Scope)
    requires LimitsOk(st) && st'.scopes == st.scopes[sk := s] && st'.controllers == st.controllers - {sk}
    ensures LimitsOk(st')
  {
    forall k | k in st'.controllers ensures k in st'.scopes && LimitOk(k, st'.controllers[k], st'.scopes[k]) {
      assert LimitOk(k, st.controllers[k], st.scopes[k]);
    }
  }

  lemma PutSize<V>(m: map<SessionKey, V>, sk: SessionKey, v: V)
    ensures m[sk := v].Keys == m.Keys + {sk} && |m[sk := v]| == |m| + if sk in m then 0 else 1
  {
    assert m[sk := v].Keys == m.Keys + {sk};
    if sk in m { assert m.Keys + {sk} == m.Keys; }
  }

  lemma DropSize<V>(m: map<SessionKey, V>, sk: SessionKey)
    ensures (m - {sk}).Keys == m.Keys - {sk} && |m - {sk}| <= |m|
  {
    Cache.SubsetSize((m - {sk}).Keys, m.Keys);
  }

  lemma LiveKeysSet(scopes: Scopes, sk: SessionKey, s: Scope)
    ensures LiveKeys(scopes[sk := s]) == if s.retired then LiveKeys(scopes) - {sk} else LiveKeys(scopes) + {sk}
  {
  }

  lemma KeysSame<V>(m: map<SessionKey, V>, m': map<SessionKey, V>)
    requires m'.Keys == m.Keys
    ensures |m'| == |m|
  {
    assert |m'.Keys| == |m.Keys|;
  }

  /** A live scope changed into a live scope. */
  lemma LiveSame(st: Managed, st': Managed, config: CoreConfig, sk: SessionKey, s: Scope)
    requires LiveOk(st, config) && sk in st.scopes && !st.scopes[sk].retired && !s.retired
             && st'.scopes == st.scopes[sk := s]
    requires st'.sessions.Keys == st.sessions.Keys && st'.controllers.Keys == st.controllers.Keys
    ensures LiveOk(st', config)
  {
    LiveKeysSet(st.scopes, sk, s);
    PutSize(st.scopes, sk, s);
    KeysSame(st.sessions, st'.sessions);
    assert LiveKeys(st.scopes) + {sk} == LiveKeys(st.scopes);
  }

  lemma LiveAdded(st: Managed, st': Managed, config: CoreConfig, sk: SessionKey, s: Scope, x: Session, c: Tables)
    requires LiveOk(st, config) && sk !in st.scopes && !s.retired
    requires |st.scopes| < MAX_HISTORY && |st.sessions| < MAX_SCOPES && |st.sessions| < config.maxSessions
    requires st'.scopes == st.scopes[sk := s] && st'.sessions == st.sessions[sk := x]
             && st'.controllers == st.controllers[sk := c]
    ensures LiveOk(st', config)
  {
    LiveKeysSet(st.scopes, sk, s);
    PutSize(st.scopes, sk, s);
    PutSize(st.sessions, sk, x);
    PutSize(st.controllers, sk, c);
  }

  lemma LiveDropped(st: Managed, st': Managed, config: CoreConfig, sk: SessionKey)
    requires LiveOk(st, config) && sk in st.scopes && st'.scopes == st.scopes[sk := st.scopes[sk].(retired := true)]
    requires st'.sessions == st.sessions - {sk} && st'.controllers == st.controllers - {sk}
    ensures LiveOk(st', config)
  {
    LiveKeysSet(st.scopes, sk, st.scopes[sk].(retired := true));
    PutSize(st.scopes, sk, st.scopes[sk].(retired := true));
    DropSize(st.sessions, sk);
    DropSize(st.controllers, sk);
  }

  /** Sessions and controllers of all other scopes are as they were. */
  ghost predicate Elsewhere(st: Managed, st': Managed, sk: SessionKey) {
    && (forall k | k != sk ::
        (k in st'.sessions <==> k in st.sessions) && (k in st.sessions ==> st'.sessions[k] == st.sessions[k]))
    && (forall k | k != sk ::
        (k in st'.controllers <==> k in st.controllers)
          && (k in st.controllers ==> st'.controllers[k] == st.controllers[k]))
  }

  lemma ElsewhereTransitive(st: Managed, st1: Managed, st': Managed, sk: SessionKey)
    requires Elsewhere(st, st1, sk) && Elsewhere(st1, st', sk)
    ensures Elsewhere(st, st', sk)
  {
  }

  lemma ElsewhereSet(st: Managed, scopes: Scopes, sk: SessionKey, x: Session, c: Tables)
    ensures Elsewhere(st, st.(scopes := scopes, sessions := st.sessions[sk := x],
                              controllers := st.controllers[sk := c]), sk)
    ensures Elsewhere(st, st.(controllers := st.controllers[sk := c]), sk)
  {
  }

  /** Reading a snapshot lets the controller catch up with the clock. */
  method Maintain(c: Tables, ghost sk: SessionKey, now: nat) returns (c': Tables)
    requires ControllerOk(c, sk)
    ensures ControllerOk(c', sk) && c'.state.Limit() == c.state.Limit() && c'.state.revision == c.state.revision
  {
    ExpireOk(c.state, now);
    c' := ExpireIn(c, now);
  }

  lemma SameMirrors(st: Managed, st': Managed)
    requires MirrorsOk(st) && st'.sessions == st.sessions && st'.scopes == st.scopes
    ensures MirrorsOk(st')
  {
    forall k | k in st'.sessions ensures Mirrored(st'.sessions, st'.scopes, k) {
      assert Mirrored(st.sessions, st.scopes, k);
    }
  }

  /** The state with one controller brought up to date. */
  method SnapshotIn(st: Managed, config: CoreConfig, sk: SessionKey, now: nat) returns (st': Managed)
    requires ManagedOk(st, config) && sk in st.controllers
    ensures ManagedOk(st', config) && st'.scopes == st.scopes && st'.sessions == st.sessions
    ensures st'.admin == st.admin && st'.baseline == st.baseline && Elsewhere(st, st', sk)
  {
    LimitAt(st, sk);
    var c := Maintain(st.controllers[sk], sk, now);
    st' := st.(controllers := st.controllers[sk := c]);
    ControllerTouched(st, st', config, sk, c);
    SameMirrors(st, st');
    if sk in st.sessions { ElsewhereSet(st, st.scopes, sk, st.sessions[sk], c); }
  }

  /** A controller moved at its limit and revision. */
  lemma ControllerTouched(st: Managed, st': Managed, config: CoreConfig, sk: SessionKey, c: Tables)
    requires LimitsOk(st) && LiveOk(st, config) && sk in st.controllers && LimitOk(sk, c, st.scopes[sk])
    requires st' == st.(controllers := st.controllers[sk := c])
    ensures LimitsOk(st') && LiveOk(st', config)
  {
    assert sk in LiveKeys(st.scopes);
    SameEntry(st.scopes, sk);
    LimitReplaced(st, st', sk, c, st.scopes[sk]);
    PutSize(st.controllers, sk, c);
    assert st.controllers.Keys + {sk} == st.controllers.Keys;
    LiveSame(st, st', config, sk, st.scopes[sk]);
  }

  lemma SameEntry<V>(m: map<SessionKey, V>, sk: SessionKey)
    requires sk in m
    ensures m[sk := m[sk]] == m
  {
  }

  lemma LimitAt(st: Managed, sk: SessionKey)
    requires LimitsOk(st) && sk in st.controllers
    ensures sk in st.scopes && LimitOk(sk, st.controllers[sk], st.scopes[sk])
  {
  }

  // ------------------------------------------------------------------ provisioning

  lemma SystemInstalls(config: CoreConfig, ss: Sessions, sk: SessionKey, tick: Option<nat>)
    requires ManagedConfig(config) && NonZeroSession(sk)
    ensures var s0 := NEW_SESSION.(rateLimit := Configured(tick));
            && CheckInstall(ss[sk := s0], config, sk, SystemSpace(1)).None?
            && CheckInstall(ss[sk := Commands.InstallSpace(s0, SystemSpace(1))], config, sk, SystemSpace(2)).None?
  {
    assert |map[][1 := SystemSpace(1)]| == 1;
  }

  /** Installs the two system spaces, neither of which can be refused. */
  method BuildSystemSession(config: CoreConfig, ghost ss: Sessions, ghost sk: SessionKey, tick: Option<nat>)
    returns (x: Session)
    requires ManagedConfig(config) && NonZeroSession(sk)
    ensures x == NewManagedSession(tick)
  {
    x := NEW_SESSION.(rateLimit := Configured(tick));
    SystemInstalls(config, ss, sk, tick);
    assert CheckInstall(ss[sk := x], config, sk, SystemSpace(1)).None?;
    x := Commands.InstallSpace(x, SystemSpace(1));
    assert CheckInstall(ss[sk := x], config, sk, SystemSpace(2)).None?;
    x := Commands.InstallSpace(x, SystemSpace(2));
  }

  /** A fresh controller for a scope. */
  function NewController(sk: SessionKey, revision: nat, ccu: nat): Tables {
    Tables(NewState(sk, MANAGED_POLICY, ccu, revision), [], map[])
  }

  lemma NewControllerOk(sk: SessionKey, revision: nat, ccu: nat)
    requires ccu <= MAX_CCU
    ensures ControllerOk(NewController(sk, revision, ccu), sk)
  {
    NewStateOk(sk, MANAGED_POLICY, ccu, revision);
  }

  /** What nobody may touch: the administrator's credential and the migration boundary. */
  ghost predicate SameFrame(st: Managed, st': Managed) { st'.admin == st.admin && st'.baseline == st.baseline }

  method CreateScope(st: Managed, config: CoreConfig, sk: SessionKey, revision: nat, ccu: nat,
                     tick: Option<nat>, v: Verifier)
    returns (st': Managed)
    requires ManagedOk(st, config) && IsVerifier(v)
             && DecidePut(st, config, sk, revision, ccu, tick, Some(v)) == Ok(true)
    ensures ManagedOk(st', config) && SameFrame(st, st')
            && st'.scopes == st.scopes[sk := PutScope(v, revision, ccu, tick)]
    ensures sk in st'.controllers && NewSessionAt(st.sessions, st'.sessions, sk)
    ensures Progress(st.scopes, st'.scopes) && Elsewhere(st, st', sk)
  {
    ProgressPut(st.scopes, sk, PutScope(v, revision, ccu, tick));
    ElsewhereSet(st, st.scopes[sk := PutScope(v, revision, ccu, tick)], sk, NewManagedSession(tick),
                 NewController(sk, revision, ccu));
    var s, c := PutScope(v, revision, ccu, tick), NewController(sk, revision, ccu);
    var x := BuildSystemSession(config, st.sessions, sk, tick);
    st' := st.(scopes := st.scopes[sk := s], sessions := st.sessions[sk := x], controllers := st.controllers[sk := c]);
    NewControllerOk(sk, revision, ccu);
    LimitReplaced(st, st', sk, c, s);
    CreateFits(st, config, sk, revision, ccu, tick, v);
    LiveAdded(st, st', config, sk, s, x, c);
    VerifierAdded(st.scopes, st.admin, sk, s);
    ScopeReplaced(st.scopes, st.baseline, config, sk, s);
    NewMirrors(v, revision, ccu, tick);
    MirrorReplaced(st, st', sk, x, s);
    NewUntouched(tick);
    NotYetLive(st, config, sk);
  }

  lemma CreateFits(st: Managed, config: CoreConfig, sk: SessionKey, revision: nat, ccu: nat,
                   tick: Option<nat>, v: Verifier)
    requires LiveOk(st, config) && IsVerifier(v) && DecidePut(st, config, sk, revision, ccu, tick, Some(v)) == Ok(true)
    ensures |st.sessions| < config.maxSessions && ScopeOk(sk, PutScope(v, revision, ccu, tick), st.baseline, config)
  {
  }

  /** One session more, in which nobody and nothing is yet. */
  ghost predicate NewSessionAt(ss: Sessions, ss': Sessions, sk: SessionKey) {
    && sk !in ss && sk in ss' && ss' == ss[sk := ss'[sk]] && Untouched(ss'[sk])
  }

  ghost predicate Untouched(x: Session) {
    && x.members == {} && x.entities == map[] && x.sequences == map[] && x.state == map[] && x.stateBytes == 0
    && x.entityCells == map[] && x.cellEntities == map[] && x.tombstones == map[]
    && x.subscribers.Keys == x.spaces.Keys && forall sp | sp in x.subscribers :: x.subscribers[sp] == {}
  }

  lemma NewUntouched(tick: Option<nat>)
    ensures Untouched(NewManagedSession(tick))
  {
  }

  lemma NotYetLive(st: Managed, config: CoreConfig, sk: SessionKey)
    requires LiveOk(st, config) && sk !in st.scopes
    ensures sk !in st.sessions
  {
  }

  method PutIn(st: Managed, config: CoreConfig, sk: SessionKey, revision: nat, ccu: nat, tick: Option<nat>,
               credential: Option<Verifier>, now: nat)
    returns (st': Managed, r: Result<bool, ManagedError>)
    requires ManagedOk(st, config) && (credential.Some? ==> IsVerifier(credential.value))
    ensures Requested(st, st', config) && r == DecidePut(st, config, sk, revision, ccu, tick, credential)
    ensures st'.scopes == if r == Ok(true)
            then st.scopes[sk := PutScope(credential.value, revision, ccu, tick)] else st.scopes
    ensures if r == Ok(true) then NewSessionAt(st.sessions, st'.sessions, sk) else st'.sessions == st.sessions
    ensures Elsewhere(st, st', sk)
  {
    r := DecidePut(st, config, sk, revision, ccu, tick, credential);
    st' := st;
    if r == Ok(true) {
      var changed := CreateScope(st, config, sk, revision, ccu, tick, credential.value);
      st' := SnapshotIn(changed, config, sk, now);
      ElsewhereTransitive(st, changed, st', sk);
    } else if r == Ok(false) {
      LiveController(st, config, sk);
      st' := SnapshotIn(st, config, sk, now);
    }
  }

  lemma LiveController(st: Managed, config: CoreConfig, sk: SessionKey)
    requires LiveOk(st, config) && sk in st.scopes && !st.scopes[sk].retired
    ensures sk in st.controllers && sk in st.sessions
  {
    assert sk in LiveKeys(st.scopes);
  }

  // ------------------------------------------------------------------ patching

  /** An accepted update is never stale for the controller: the limit becomes the configured one. */
  method Retune(c: Tables, ghost sk: SessionKey, ghost s: Scope, ccu: nat, revision: nat, now: nat) returns (c': Tables)
    requires LimitOk(sk, c, s) && s.revision < revision && ccu <= MAX_CCU
    ensures ControllerOk(c', sk) && c'.state.Limit() == ccu && c'.state.revision == revision
  {
    ApplyCapacityOk(c.state, ccu, revision, now);
    c' := ApplyCapacityIn(c, ccu, revision, now);
  }

  lemma PatchReady(st: Managed, config: CoreConfig, sk: SessionKey, revision: nat, ccu: nat, tick: Option<nat>)
    requires ScopesOk(st.scopes, st.baseline, config) && LiveOk(st, config) && LimitsOk(st)
    requires DecidePatch(st, config, sk, revision, ccu, tick) == Ok(true)
    ensures sk in st.controllers && sk in st.sessions && LimitOk(sk, st.controllers[sk], st.scopes[sk])
    ensures st.scopes[sk].revision < revision && ccu <= MAX_CCU
            && Follows(st, sk, PatchScope(st.scopes[sk], revision, ccu, tick))
    ensures ScopeOk(sk, PatchScope(st.scopes[sk], revision, ccu, tick), st.baseline, config)
  {
    LiveController(st, config, sk);
    LimitAt(st, sk);
    ScopeAt(st.scopes, st.baseline, config, sk);
    PatchScopeOk(st, config, sk, revision, ccu, tick);
  }

  method ChangeScope(st: Managed, config: CoreConfig, sk: SessionKey, revision: nat, ccu: nat,
                     tick: Option<nat>, now: nat)
    returns (st': Managed)
    requires ManagedOk(st, config) && DecidePatch(st, config, sk, revision, ccu, tick) == Ok(true)
    ensures ManagedOk(st', config) && SameFrame(st, st')
            && st'.scopes == st.scopes[sk := PatchScope(st.scopes[sk], revision, ccu, tick)]
    ensures sk in st'.controllers && st'.controllers[sk].state.Limit() == ccu
            && st'.controllers[sk].state.revision == revision
    ensures OnlyLimit(st.sessions, st'.sessions, sk)
    ensures Progress(st.scopes, st'.scopes) && Elsewhere(st, st', sk)
  {
    var s := PatchScope(st.scopes[sk], revision, ccu, tick);
    PatchReady(st, config, sk, revision, ccu, tick);
    var c := Retune(st.controllers[sk], sk, st.scopes[sk], ccu, revision, now);
    MirrorAt(st, sk);
    PatchedMirrors(st.sessions[sk], st.scopes[sk], revision, ccu, tick);
    st' := Rewrite(st, config, sk, s, c, st.sessions[sk].(rateLimit := Configured(s.tick)));
  }

  /** Nothing but the limit of one session differs. */
  ghost predicate OnlyLimit(ss: Sessions, ss': Sessions, sk: SessionKey) {
    sk in ss && sk in ss' && ss' == ss[sk := ss[sk].(rateLimit := ss'[sk].rateLimit)]
  }

  /** A live scope replaced together with its controller and session. */
  method Rewrite(st: Managed, config: CoreConfig, sk: SessionKey, s: Scope, c: Tables, x: Session)
    returns (st': Managed)
    requires ManagedOk(st, config) && Follows(st, sk, s) && ScopeOk(sk, s, st.baseline, config) && LimitOk(sk, c, s)
    requires Mirrors(x, s)
    ensures st' == st.(scopes := st.scopes[sk := s], controllers := st.controllers[sk := c],
                       sessions := st.sessions[sk := x])
    ensures ManagedOk(st', config) && Progress(st.scopes, st'.scopes) && Elsewhere(st, st', sk)
  {
    ElsewhereSet(st, st.scopes[sk := s], sk, x, c);
    st' := st.(scopes := st.scopes[sk := s], controllers := st.controllers[sk := c], sessions := st.sessions[sk := x]);
    LimitReplaced(st, st', sk, c, s);
    RewrittenLive(st, config, sk, s, c, x);
    ScopeReplaced(st.scopes, st.baseline, config, sk, s);
    VerifierKept(st.scopes, st.admin, sk, s);
    ProgressPut(st.scopes, sk, s);
    MirrorReplaced(st, st', sk, x, s);
  }

  /** `s` may succeed the live scope `sk`. */
  ghost predicate Follows(st: Managed, sk: SessionKey, s: Scope) {
    && sk in st.scopes && !st.scopes[sk].retired && !s.retired
    && s.verifier == st.scopes[sk].verifier && st.scopes[sk].revision <= s.revision
  }

  lemma RewrittenLive(st: Managed, config: CoreConfig, sk: SessionKey, s: Scope, c: Tables, x: Session)
    requires LiveOk(st, config) && Follows(st, sk, s)
    ensures LiveOk(st.(scopes := st.scopes[sk := s], controllers := st.controllers[sk := c],
                       sessions := st.sessions[sk := x]), config)
  {
    LiveController(st, config, sk);
    KeysKept(st.controllers, sk, c);
    PutSize(st.sessions, sk, x);
    assert st.sessions.Keys + {sk} == st.sessions.Keys;
    LiveSame(st, st.(scopes := st.scopes[sk := s], controllers := st.controllers[sk := c],
                     sessions := st.sessions[sk := x]), config, sk, s);
  }

  lemma ScopeAt(scopes: Scopes, baseline: Option<Baseline>, config: CoreConfig, sk: SessionKey)
    requires ScopesOk(scopes, baseline, config) && sk in scopes
    ensures ScopeOk(sk, scopes[sk], baseline, config)
  {
  }

  method PatchIn(st: Managed, config: CoreConfig, sk: SessionKey, revision: nat, ccu: nat, tick: Option<nat>, now: nat)
    returns (st': Managed, r: Result<bool, ManagedError>)
    requires ManagedOk(st, config)
    ensures Requested(st, st', config) && r == DecidePatch(st, config, sk, revision, ccu, tick)
    ensures st'.scopes == if r == Ok(true)
            then st.scopes[sk := PatchScope(st.scopes[sk], revision, ccu, tick)] else st.scopes
    ensures if r == Ok(true) then OnlyLimit(st.sessions, st'.sessions, sk) else st'.sessions == st.sessions
    ensures Elsewhere(st, st', sk)
  {
    r := DecidePatch(st, config, sk, revision, ccu, tick);
    st' := st;
    if r == Ok(true) {
      var changed := ChangeScope(st, config, sk, revision, ccu, tick, now);
      st' := SnapshotIn(changed, config, sk, now);
      ElsewhereTransitive(st, changed, st', sk);
    } else if r == Ok(false) {
      LiveController(st, config, sk);
      st' := SnapshotIn(st, config, sk, now);
    }
  }

  // ------------------------------------------------------------------ spaces and deletion

  method GrowScope(st: Managed, config: CoreConfig, sk: SessionKey, revision: nat, d: SpaceDescriptor)
    returns (st': Managed)
    requires ManagedOk(st, config) && DecidePutSpace(st, config, sk, revision, d) == Ok(true)
    ensures ManagedOk(st', config) && SameFrame(st, st')
            && st'.scopes == st.scopes[sk := AddSpace(st.scopes[sk], revision, d)]
    ensures sk in st.sessions && st'.sessions == st.sessions[sk := Commands.InstallSpace(st.sessions[sk], d)]
    ensures Progress(st.scopes, st'.scopes) && sk in st'.controllers && Elsewhere(st, st', sk)
  {
    LiveController(st, config, sk);
    LimitAt(st, sk);
    ScopeAt(st.scopes, st.baseline, config, sk);
    AddSpaceOk(st, config, sk, revision, d);
    MirrorAt(st, sk);
    GrownMirrors(st.sessions[sk], st.scopes[sk], revision, d);
    st' := Rewrite(st, config, sk, AddSpace(st.scopes[sk], revision, d), st.controllers[sk],
                   Commands.InstallSpace(st.sessions[sk], d));
  }

  /** Nothing but the space, with nobody subscribed, is added to one session. */
  ghost predicate OnlySpace(ss: Sessions, ss': Sessions, sk: SessionKey, d: SpaceDescriptor) {
    && sk in ss && sk in ss'
    && ss' == ss[sk := ss[sk].(spaces := ss[sk].spaces[d.id := d], subscribers := ss[sk].subscribers[d.id := {}],
                               tombstones := ss[sk].tombstones - {d.id})]
  }

  method PutSpaceIn(st: Managed, config: CoreConfig, sk: SessionKey, revision: nat, d: SpaceDescriptor, now: nat)
    returns (st': Managed, r: Result<bool, ManagedError>)
    requires ManagedOk(st, config)
    ensures Requested(st, st', config) && r == DecidePutSpace(st, config, sk, revision, d)
    ensures st'.scopes == if r == Ok(true) then st.scopes[sk := AddSpace(st.scopes[sk], revision, d)] else st.scopes
    ensures if r == Ok(true) then OnlySpace(st.sessions, st'.sessions, sk, d) else st'.sessions == st.sessions
    ensures Elsewhere(st, st', sk)
  {
    r := DecidePutSpace(st, config, sk, revision, d);
    st' := st;
    if r == Ok(true) {
      var changed := GrowScope(st, config, sk, revision, d);
      st' := SnapshotIn(changed, config, sk, now);
      ElsewhereTransitive(st, changed, st', sk);
    } else if r == Ok(false) {
      LiveController(st, config, sk);
      st' := SnapshotIn(st, config, sk, now);
    }
  }

  lemma RetiredOk(sk: SessionKey, s: Scope, baseline: Option<Baseline>, config: CoreConfig)
    requires ScopeOk(sk, s, baseline, config)
    ensures ScopeOk(sk, s.(retired := true), baseline, config)
  {
  }

  /** Retires the scope; its credential stays on record. */
  method DeleteIn(st: Managed, config: CoreConfig, sk: SessionKey, revision: nat)
    returns (st': Managed, e: Option<ManagedError>)
    requires ManagedOk(st, config)
    ensures Requested(st, st', config) && e == DecideDelete(st, config, sk, revision)
    ensures e.Some? ==> st' == st
    ensures e.None?
            ==> st'.scopes == st.scopes[sk := st.scopes[sk].(retired := true)] && st'.sessions == st.sessions - {sk}
                && st'.controllers == st.controllers - {sk}
  {
    e := DecideDelete(st, config, sk, revision);
    st' := st;
    if e.None? { st' := Retire(st, config, sk); }
  }

  method Retire(st: Managed, config: CoreConfig, sk: SessionKey) returns (st': Managed)
    requires ManagedOk(st, config) && sk in st.scopes
    ensures ManagedOk(st', config) && SameFrame(st, st') && Progress(st.scopes, st'.scopes)
    ensures st'.scopes == st.scopes[sk := st.scopes[sk].(retired := true)] && st'.sessions == st.sessions - {sk}
            && st'.controllers == st.controllers - {sk}
  {
    st' := st.(scopes := st.scopes[sk := st.scopes[sk].(retired := true)], sessions := st.sessions - {sk},
               controllers := st.controllers - {sk});
    RetireOk(st, st', config, sk);
  }

  lemma RetireOk(st: Managed, st': Managed, config: CoreConfig, sk: SessionKey)
    requires ManagedOk(st, config) && sk in st.scopes
    requires st' == st.(scopes := st.scopes[sk := st.scopes[sk].(retired := true)], sessions := st.sessions - {sk},
                        controllers := st.controllers - {sk})
    ensures ManagedOk(st', config) && SameFrame(st, st') && Progress(st.scopes, st'.scopes)
  {
    var s := st.scopes[sk].(retired := true);
    MirrorDropped(st, st', sk, s);
    LimitDropped(st, st', sk, s);
    LiveDropped(st, st', config, sk);
    ScopeAt(st.scopes, st.baseline, config, sk);
    RetiredOk(sk, st.scopes[sk], st.baseline, config);
    ScopeReplaced(st.scopes, st.baseline, config, sk, s);
    VerifierKept(st.scopes, st.admin, sk, s);
    ProgressRetire(st.scopes, sk);
  }

  lemma ProgressRetire(scopes: Scopes, sk: SessionKey)
    requires sk in scopes
    ensures Progress(scopes, scopes[sk := scopes[sk].(retired := true)])
  {
  }

  // ------------------------------------------------------------------ runs of requests and clients

  /** What clients do between requests: controllers evolve at their limits, sessions change inside. */
  ghost predicate ClientsMove(st: Managed, st': Managed) {
    && st' == st.(sessions := st'.sessions, controllers := st'.controllers) && st'.sessions.Keys == st.sessions.Keys
    && FurnishedAll(st.sessions, st'.sessions)
    && ControllersOk(st'.controllers) && KeepsAll(st.controllers, st'.controllers)
  }

  /** Managed spaces have no parent, so clients can never take one away. */
  lemma FurnishedMirrors(x: Session, x': Session, s: Scope)
    requires Mirrors(x, s) && SpacesValid(s.spaces) && Furnished(x, x')
    ensures Mirrors(x', s)
  {
    assert forall id | id in s.spaces :: x.spaces[id] == s.spaces[id] && x.spaces[id].parent.None?;
  }

  lemma ClientsKeepMirrors(st: Managed, st': Managed, config: CoreConfig)
    requires MirrorsOk(st) && ScopesOk(st.scopes, st.baseline, config) && st'.scopes == st.scopes
    requires FurnishedAll(st.sessions, st'.sessions)
    ensures MirrorsOk(st')
  {
    forall sk | sk in st'.sessions ensures Mirrored(st'.sessions, st'.scopes, sk) {
      assert FurnishedAt(st.sessions, st'.sessions, sk);
      MirrorAt(st, sk);
      ScopeAt(st.scopes, st.baseline, config, sk);
      FurnishedMirrors(st.sessions[sk], st'.sessions[sk], st.scopes[sk]);
    }
  }

  lemma ClientsKeepSizes(st: Managed, st': Managed, config: CoreConfig)
    requires LiveOk(st, config) && st'.scopes == st.scopes
    requires st'.sessions.Keys == st.sessions.Keys && st'.controllers.Keys == st.controllers.Keys
    ensures LiveOk(st', config)
  {
    KeysSame(st.sessions, st'.sessions);
  }

  lemma KeptLimit(st: Managed, cs: Controllers, sk: SessionKey)
    requires LimitsOk(st) && KeepsAll(st.controllers, cs) && ControllersOk(cs) && sk in st.controllers
    ensures sk in cs && sk in st.scopes && LimitOk(sk, cs[sk], st.scopes[sk])
  {
    LimitAt(st, sk);
    assert Kept(st.controllers, cs, sk);
    ControllerAt(cs, sk);
  }

  /** Whatever the clients do, capacity and revision of every controller still agree with its scope. */
  lemma ClientsKeepLimits(st: Managed, st': Managed, config: CoreConfig)
    requires ManagedOk(st, config) && ClientsMove(st, st')
    ensures ManagedOk(st', config)
  {
    ClientsKeepSizes(st, st', config);
    ClientsKeepMirrors(st, st', config);
    forall sk | sk in st'.controllers ensures sk in st'.scopes && LimitOk(sk, st'.controllers[sk], st'.scopes[sk]) {
      KeptLimit(st, st'.controllers, sk);
    }
  }

  /** What every request ensures, accepted or not. */
  ghost predicate Requested(st: Managed, st': Managed, config: CoreConfig) {
    ManagedOk(st', config) && SameFrame(st, st') && Progress(st.scopes, st'.scopes)
  }

  ghost predicate MixedRun(run: seq<Managed>, config: CoreConfig) {
    && run != [] && ManagedOk(run[0], config)
    && forall n {:trigger Stepped(run[n], run[n + 1], config)} | 0 <= n < |run| - 1 ::
       Stepped(run[n], run[n + 1], config)
  }

  ghost predicate Stepped(st: Managed, st': Managed, config: CoreConfig)
  {
    Requested(st, st', config) || ClientsMove(st, st')
  }

  lemma ProgressSame(scopes: Scopes)
    ensures Progress(scopes, scopes)
  {
  }

  /** Over any run of requests and clients the configuration stays consistent. */
  lemma {:induction false} MixedRunOk(run: seq<Managed>, config: CoreConfig, n: nat)
    requires MixedRun(run, config) && n < |run|
    ensures ManagedOk(run[n], config)
  {
    if n > 0 {
      MixedRunOk(run, config, n - 1);
      MixedStepAt(run, config, n - 1);
    }
  }

  lemma MixedStepAt(run: seq<Managed>, config: CoreConfig, n: nat)
    requires MixedRun(run, config) && n + 1 < |run| && ManagedOk(run[n], config)
    ensures ManagedOk(run[n + 1], config) && Progress(run[n].scopes, run[n + 1].scopes)
  {
    StepAt(run, config, n);
    MixedStepKeeps(run[n], run[n + 1], config);
  }

  lemma StepAt(run: seq<Managed>, config: CoreConfig, n: nat)
    requires MixedRun(run, config) && n + 1 < |run|
    ensures Stepped(run[n], run[n + 1], config)
  {
  }

  lemma ProgressAt(run: seq<Managed>, config: CoreConfig, n: nat)
    requires MixedRun(run, config) && n + 1 < |run|
    ensures Progress(run[n].scopes, run[n + 1].scopes)
  {
    MixedRunOk(run, config, n);
    MixedStepAt(run, config, n);
  }

  /** And it only progresses. */
  lemma MixedRunProgress(run: seq<Managed>, config: CoreConfig, i: nat, j: nat)
    requires MixedRun(run, config) && i <= j < |run|
    ensures Progress(run[i].scopes, run[j].scopes)
  {
    var history := seq(|run|, n requires 0 <= n < |run| => run[n].scopes);
    forall n | 0 <= n < |history| - 1 ensures Progress(history[n], history[n + 1]) { ProgressAt(run, config, n); }
    if i == j { ProgressSame(run[i].scopes); } else { ProgressRun(history, i, j); }
  }

  lemma MixedStepKeeps(st: Managed, st': Managed, config: CoreConfig)
    requires ManagedOk(st, config) && Stepped(st, st', config)
    ensures ManagedOk(st', config) && Progress(st.scopes, st'.scopes)
  {
    if !Requested(st, st', config) {
      ClientsKeepLimits(st, st', config);
      ProgressSame(st.scopes);
    }
  }

  /** At every moment of such a run each controller enforces the capacity its scope is configured with, and
      exactly the scopes that are not retired have one. */
  lemma LimitsOverRuns(run: seq<Managed>, config: CoreConfig, n: nat, sk: SessionKey)
    requires MixedRun(run, config) && n < |run|
    ensures sk in run[n].controllers <==> sk in run[n].scopes && !run[n].scopes[sk].retired
    ensures sk in run[n].controllers ==>
              run[n].controllers[sk].state.Limit() == run[n].scopes[sk].ccu
                && run[n].controllers[sk].state.revision <= run[n].scopes[sk].revision
  {
    MixedRunOk(run, config, n);
    assert sk in run[n].controllers <==> sk in LiveKeys(run[n].scopes);
    if sk in run[n].controllers { LimitAt(run[n], sk); }
  }

  lemma SessionIsLive(run: seq<Managed>, config: CoreConfig, n: nat, sk: SessionKey)
    requires MixedRun(run, config) && n < |run|
    ensures sk in run[n].sessions <==> sk in run[n].scopes && !run[n].scopes[sk].retired
  {
    MixedRunOk(run, config, n);
    assert sk in run[n].sessions <==> sk in LiveKeys(run[n].scopes);
  }

  /** Over such a run a session that has gone stays away: its scope is retired for good. */
  lemma RetiredStaysAway(run: seq<Managed>, config: CoreConfig, sk: SessionKey, a: nat, b: nat, c: nat)
    requires MixedRun(run, config) && a <= b <= c < |run| && sk in run[a].sessions && sk in run[c].sessions
    ensures sk in run[b].sessions
  {
    MixedRunProgress(run, config, a, b);
    MixedRunProgress(run, config, b, c);
    SessionIsLive(run, config, a, sk);
    SessionIsLive(run, config, b, sk);
    SessionIsLive(run, config, c, sk);
  }

  /** So on a managed core no space and epoch pair ever comes back, not even through the deletion of its scope. */
  lemma ManagedEpochNeverReused(run: seq<Managed>, config: CoreConfig, gs: seq<Graph>,
                                sk: SessionKey, sp: nat, epoch: nat,
                                i: nat, j: nat, k: nat)
    requires MixedRun(run, config) && |gs| == |run| && OnwardRun(gs)
    requires forall n | 0 <= n < |run| :: gs[n].sessions.Keys == run[n].sessions.Keys
    requires i <= j <= k < |gs| && LiveIn(gs[i], sk, sp, epoch) && !LiveIn(gs[j], sk, sp, epoch)
    ensures !LiveIn(gs[k], sk, sp, epoch)
  {
    forall a, b, c | 0 <= a <= b <= c < |gs| && sk in gs[a].sessions && sk in gs[c].sessions
      ensures sk in gs[b].sessions {
      RetiredStaysAway(run, config, sk, a, b, c);
    }
    EpochNeverReused(gs, sk, sp, epoch, i, j, k);
  }

  /** A retired key is never provisioned again, whatever is asked for. */
  lemma RetiredIsRefused(st: Managed, config: CoreConfig, sk: SessionKey, revision: nat, ccu: nat, tick: Option<nat>,
                         credential: Option<Verifier>)
    requires sk in st.scopes && st.scopes[sk].retired
    ensures DecidePut(st, config, sk, revision, ccu, tick, credential).Err?
  {
  }

  /** The deletion as the request and the core do it together. */
  lemma DeletedTogether(st: Managed, config: CoreConfig, sk: SessionKey, sessions: Sessions, controllers: Controllers)
    requires ManagedOk(st, config) && sk in st.scopes
    requires FurnishedAll(st.sessions - {sk}, sessions) && ControllersOk(controllers)
             && KeepsAll(st.controllers - {sk}, controllers)
    ensures var st' := st.(scopes := st.scopes[sk := st.scopes[sk].(retired := true)], sessions := sessions,
                           controllers := controllers);
            Requested(st, st', config)
  {
    var st1 := st.(scopes := st.scopes[sk := st.scopes[sk].(retired := true)], sessions := st.sessions - {sk},
                   controllers := st.controllers - {sk});
    RetireOk(st, st1, config, sk);
    DropSize(st.sessions, sk);
    ClientsKeepLimits(st1, st1.(sessions := sessions, controllers := controllers), config);
  }
}
