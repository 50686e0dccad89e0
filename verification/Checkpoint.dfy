/** The managed configuration as a checkpoint, and its strict restoration into a fresh core. */
module Checkpoints {
  import opened Model
  import opened Hex
  import opened Ordering
  import opened SessionGraph
  import opened Checks
  import opened AdmissionControllers
  import opened Ledgers
  import opened ManagedScopes

  const CHECKPOINT_VERSION: nat := 1

  datatype CheckpointSpace = CheckpointSpace(
    id: nat, epoch: nat, metersPerUnit: real, cellSize: real, interestRadius: real,
      exactDistance: bool, bounds: Bounds3D)

  datatype CheckpointScope = CheckpointScope(
    namespace: nat, session: nat, revision: nat, last: Mutation, ccu: nat, tick: Option<nat>,
      verifier: string, retired: bool,
    spaces: seq<CheckpointSpace>)
  {
    function Key(): SessionKey { SessionKey(namespace, session) }
  }

  datatype Checkpoint = Checkpoint(version: nat, baseline: Option<Baseline>, scopes: seq<CheckpointScope>)

  // ------------------------------------------------------------------ order of keys

  function KeyOrder(): (SessionKey, SessionKey) -> bool {
    (a: SessionKey, b: SessionKey) => a.namespace < b.namespace
      || (a.namespace == b.namespace && a.session <= b.session)
  }

  function IdOrder(): (nat, nat) -> bool { (a: nat, b: nat) => a <= b }

  lemma OrdersTotal()
    ensures TotalOrder(KeyOrder()) && TotalOrder(IdOrder())
  {
  }

  // ------------------------------------------------------------------ export

  function FromDescriptor(d: SpaceDescriptor): Result<CheckpointSpace, ManagedError> {
    if !ManagedDescriptor(d) then Err(InvalidRequest)
    else Ok(CheckpointSpace(d.id, d.epoch, d.frame.metersPerUnit, d.routing.cellSize, d.routing.interestRadius,
                            d.routing.exactDistance, d.bounds.value))
  }

  function ToDescriptor(c: CheckpointSpace): SpaceDescriptor {
    SpaceDescriptor(c.id, Frame3D(c.metersPerUnit), Some(c.bounds), None, c.epoch,
                    Grid3D(c.cellSize, c.interestRadius, c.exactDistance))
  }

  lemma DescriptorRoundTrip(d: SpaceDescriptor)
    requires ManagedDescriptor(d)
    ensures FromDescriptor(d).Ok? && ToDescriptor(FromDescriptor(d).value) == d
  {
  }

  ghost function SortedIds(spaces: map<nat, SpaceDescriptor>): (ids: seq<nat>)
    ensures |ids| == |spaces| && forall i | 0 <= i < |ids| :: ids[i] in spaces
    ensures forall i, j | 0 <= i < j < |ids| :: ids[i] != ids[j]
    ensures forall id :: id in spaces <==> id in ids
  {
    OrdersTotal();
    Sorted(spaces.Keys, IdOrder())
  }

  ghost function SpacesText(spaces: map<nat, SpaceDescriptor>, ids: seq<nat>): (r: seq<CheckpointSpace>)
    requires (forall i | 0 <= i < |ids| :: ids[i] in spaces) && SpacesValid(spaces)
    ensures |r| == |ids|
  {
    seq(|ids|, i requires 0 <= i < |ids| => FromDescriptor(spaces[ids[i]]).value)
  }

  ghost function ExportScope(sk: SessionKey, s: Scope): CheckpointScope
    requires IsVerifier(s.verifier) && SpacesValid(s.spaces)
  {
    CheckpointScope(sk.namespace, sk.session, s.revision, s.last, s.ccu, s.tick, Encode(s.verifier), s.retired,
                    SpacesText(s.spaces, SortedIds(s.spaces)))
  }

  ghost predicate Exportable(scopes: Scopes) {
    forall sk | sk in scopes :: IsVerifier(scopes[sk].verifier) && SpacesValid(scopes[sk].spaces)
  }

  ghost function ScopesText(scopes: Scopes, keys: seq<SessionKey>): (r: seq<CheckpointScope>)
    requires Exportable(scopes) && forall i | 0 <= i < |keys| :: keys[i] in scopes
    ensures |r| == |keys|
  {
    seq(|keys|, i requires 0 <= i < |keys| => ExportScope(keys[i], scopes[keys[i]]))
  }

  ghost function SortedKeys(scopes: Scopes): (keys: seq<SessionKey>)
    ensures |keys| == |scopes| && (forall i | 0 <= i < |keys| :: keys[i] in scopes)
    ensures forall i, j | 0 <= i < j < |keys| :: keys[i] != keys[j]
    ensures forall sk :: sk in scopes <==> sk in keys
  {
    OrdersTotal();
    Sorted(scopes.Keys, KeyOrder())
  }

  /** The whole configuration, scopes and spaces each in key order. */
  ghost function Export(scopes: Scopes, baseline: Option<Baseline>): Checkpoint
    requires Exportable(scopes)
  {
    Checkpoint(CHECKPOINT_VERSION, baseline, ScopesText(scopes, SortedKeys(scopes)))
  }

  lemma OkIsExportable(scopes: Scopes, baseline: Option<Baseline>, config: CoreConfig)
    requires ScopesOk(scopes, baseline, config)
    ensures Exportable(scopes)
  {
    forall sk | sk in scopes ensures IsVerifier(scopes[sk].verifier) && SpacesValid(scopes[sk].spaces) {
      assert ScopeOk(sk, scopes[sk], baseline, config);
    }
  }

  // ------------------------------------------------------------------ reading one scope

  function ReadSpaces(cs: seq<CheckpointSpace>): Result<map<nat, SpaceDescriptor>, ManagedError> {
    if cs == [] then Ok(map[])
    else
      var init, d := ReadSpaces(cs[..|cs| - 1]), ToDescriptor(cs[|cs| - 1]);
      if init.Err? then init
      else if !ManagedDescriptor(d) || d.id in init.value then Err(InvalidRequest)
      else Ok(init.value[d.id := d])
  }

  lemma {:induction false} ReadSpacesSound(cs: seq<CheckpointSpace>)
    requires ReadSpaces(cs).Ok?
    ensures var spaces := ReadSpaces(cs).value;
            |spaces| == |cs| && forall id | id in spaces :: spaces[id].id == id && ManagedDescriptor(spaces[id])
  {
    if cs != [] {
      var init, d := cs[..|cs| - 1], ToDescriptor(cs[|cs| - 1]);
      ReadSpacesSound(init);
      assert ReadSpaces(cs).value.Keys == ReadSpaces(init).value.Keys + {d.id};
    }
  }

  ghost function RestrictIds(spaces: map<nat, SpaceDescriptor>, ids: seq<nat>): map<nat, SpaceDescriptor> {
    map id | id in spaces && id in ids :: spaces[id]
  }

  lemma {:induction false} ReadSpacesComplete(spaces: map<nat, SpaceDescriptor>, ids: seq<nat>)
    requires (forall i | 0 <= i < |ids| :: ids[i] in spaces) && SpacesValid(spaces)
    requires forall i, j | 0 <= i < j < |ids| :: ids[i] != ids[j]
    ensures ReadSpaces(SpacesText(spaces, ids)) == Ok(RestrictIds(spaces, ids))
  {
    if ids == [] {
      assert RestrictIds(spaces, ids) == map[];
    } else {
      var init, last := ids[..|ids| - 1], ids[|ids| - 1];
      ReadSpacesComplete(spaces, init);
      SpacesTextSplit(spaces, ids);
      DescriptorRoundTrip(spaces[last]);
    }
  }

  lemma SpacesTextSplit(spaces: map<nat, SpaceDescriptor>, ids: seq<nat>)
    requires ids != [] && (forall i | 0 <= i < |ids| :: ids[i] in spaces) && SpacesValid(spaces)
    requires forall i, j | 0 <= i < j < |ids| :: ids[i] != ids[j]
    ensures var n := |ids| - 1;
            && SpacesText(spaces, ids)[..n] == SpacesText(spaces, ids[..n])
            && SpacesText(spaces, ids)[n] == FromDescriptor(spaces[ids[n]]).value
            && RestrictIds(spaces, ids) == RestrictIds(spaces, ids[..n])[ids[n] := spaces[ids[n]]]
            && ids[n] !in RestrictIds(spaces, ids[..n])
  {
    var n := |ids| - 1;
    assert ids == ids[..n] + [ids[n]];
  }

  /** The last mutation, if it fits the rest of the entry. */
  predicate MutationFits(e: CheckpointScope, spaces: map<nat, SpaceDescriptor>, historical: bool) {
    match e.last
    case MigrationBaseline => historical
    case ProvisionMutation => spaces == map[]
    case Configuration(ccu, tick) =>
      && TickOk(tick)
      && !(e.revision < 2 || (!historical && e.revision <= |spaces| + 1) || ccu != e.ccu
           || (tick.Some? && tick != e.tick))
    case SpaceMutation(space) => e.revision >= 2 && space in spaces
  }

  function IntoScope(e: CheckpointScope, historical: bool): Result<Scope, ManagedError> {
    if |e.spaces| > MAX_SPATIAL then Err(SpaceCapacityExhausted)
    else if !TickOk(e.tick) || Decode(e.verifier).None? then Err(InvalidRequest)
    else
      var spaces := ReadSpaces(e.spaces);
      if spaces.Err? then Err(spaces.error)
      else if (!historical && e.revision <= |spaces.value|) || !MutationFits(e, spaces.value, historical)
              then Err(InvalidRequest)
      else Ok(Scope(Decode(e.verifier).value, e.revision, e.last, e.ccu, e.tick, spaces.value, e.retired))
  }

  /** Whatever is read satisfies the invariant that every request keeps. */
  lemma IntoScopeSound(e: CheckpointScope, baseline: Option<Baseline>, config: CoreConfig)
    requires ValidUpdate(config, e.Key(), e.revision, e.ccu) && !OneSided(baseline, e.Key())
    requires IntoScope(e, Historical(baseline, e.Key())).Ok?
    ensures ScopeOk(e.Key(), IntoScope(e, Historical(baseline, e.Key())).value, baseline, config)
  {
    TextCanonical(e.verifier);
    ReadSpacesSound(e.spaces);
  }

  /** Every reachable scope is read back exactly. */
  lemma IntoScopeComplete(sk: SessionKey, s: Scope, baseline: Option<Baseline>, config: CoreConfig)
    requires ScopeOk(sk, s, baseline, config)
    ensures IntoScope(ExportScope(sk, s), Historical(baseline, sk)) == Ok(s) && ExportScope(sk, s).Key() == sk
  {
    VerifierRoundTrip(s.verifier);
    SpacesRoundTrip(s.spaces);
  }

  lemma SpacesRoundTrip(spaces: map<nat, SpaceDescriptor>)
    requires SpacesValid(spaces)
    ensures ReadSpaces(SpacesText(spaces, SortedIds(spaces))) == Ok(spaces)
  {
    ReadSpacesComplete(spaces, SortedIds(spaces));
    assert RestrictIds(spaces, SortedIds(spaces)) == spaces;
  }

  // ------------------------------------------------------------------ reading all scopes

  datatype Read = Read(scopes: Scopes, verifiers: set<Verifier>, active: nat)

  function ReadOne(read: Read, e: CheckpointScope, baseline: Option<Baseline>, admin: Verifier,
                   config: CoreConfig): Result<Read, ManagedError> {
    if !ValidUpdate(config, e.Key(), e.revision, e.ccu) || OneSided(baseline, e.Key()) then Err(InvalidRequest)
    else
      var s := IntoScope(e, Historical(baseline, e.Key()));
      if s.Err? then Err(s.error)
      else if s.value.verifier == admin || s.value.verifier in read.verifiers then Err(TokenConflict)
      else if !s.value.retired && (read.active + 1 > MAX_SCOPES || read.active + 1 > config.maxSessions)
              then Err(CapacityExhausted)
      else if e.Key() in read.scopes then Err(InvalidRequest)
      else Ok(Read(read.scopes[e.Key() := s.value], read.verifiers + {s.value.verifier}, if s.value.retired
                   then read.active else read.active + 1))
  }

  function ReadScopes(es: seq<CheckpointScope>, baseline: Option<Baseline>, admin: Verifier,
                      config: CoreConfig): Result<Read, ManagedError> {
    if es == [] then Ok(Read(map[], {}, 0))
    else
      var init := ReadScopes(es[..|es| - 1], baseline, admin, config);
      if init.Err? then init else ReadOne(init.value, es[|es| - 1], baseline, admin, config)
  }

  /** What has been read so far is reachable, within bounds and exactly counted. */
  ghost predicate ReadOk(read: Read, baseline: Option<Baseline>, admin: Verifier, config: CoreConfig) {
    && ScopesOk(read.scopes, baseline, config) && VerifiersOk(read.scopes, admin)
    && (forall sk | sk in read.scopes :: read.scopes[sk].verifier in read.verifiers)
    && read.active == |LiveKeys(read.scopes)| && read.active <= MAX_SCOPES && read.active <= config.maxSessions
  }

  lemma AddRead(read: Read, sk: SessionKey, s: Scope, baseline: Option<Baseline>, admin: Verifier, config: CoreConfig)
    requires ReadOk(read, baseline, admin, config) && ScopeOk(sk, s, baseline, config) && sk !in read.scopes
    requires s.verifier != admin && s.verifier !in read.verifiers
    requires !s.retired ==> read.active + 1 <= MAX_SCOPES && read.active + 1 <= config.maxSessions
    ensures ReadOk(Read(read.scopes[sk := s], read.verifiers + {s.verifier}, if s.retired
                        then read.active else read.active + 1),
                   baseline, admin, config)
  {
    ScopeReplaced(read.scopes, baseline, config, sk, s);
    VerifierAdded(read.scopes, admin, sk, s);
    LiveCounted(read.scopes, sk, s);
  }

  lemma ReadOneSound(read: Read, e: CheckpointScope, baseline: Option<Baseline>, admin: Verifier, config: CoreConfig)
    requires ReadOk(read, baseline, admin, config) && ReadOne(read, e, baseline, admin, config).Ok?
    ensures ReadOk(ReadOne(read, e, baseline, admin, config).value, baseline, admin, config)
    ensures |ReadOne(read, e, baseline, admin, config).value.scopes| == |read.scopes| + 1
  {
    var s := IntoScope(e, Historical(baseline, e.Key())).value;
    IntoScopeSound(e, baseline, config);
    AddRead(read, e.Key(), s, baseline, admin, config);
    PutSize(read.scopes, e.Key(), s);
  }

  lemma LiveCounted(scopes: Scopes, sk: SessionKey, s: Scope)
    requires sk !in scopes
    ensures |LiveKeys(scopes[sk := s])| == |LiveKeys(scopes)| + if s.retired then 0 else 1
  {
    LiveKeysSet(scopes, sk, s);
    assert sk !in LiveKeys(scopes);
    assert LiveKeys(scopes) - {sk} == LiveKeys(scopes);
  }

  lemma {:induction false} ReadScopesSound(es: seq<CheckpointScope>, baseline: Option<Baseline>,
                                           admin: Verifier, config: CoreConfig)
    requires ReadScopes(es, baseline, admin, config).Ok?
    ensures ReadOk(ReadScopes(es, baseline, admin, config).value, baseline, admin, config)
    ensures |ReadScopes(es, baseline, admin, config).value.scopes| == |es|
  {
    if es != [] {
      ReadScopesSound(es[..|es| - 1], baseline, admin, config);
      ReadOneSound(ReadScopes(es[..|es| - 1], baseline, admin, config).value, es[|es| - 1], baseline, admin, config);
    }
  }

  ghost function RestrictKeys(scopes: Scopes, keys: seq<SessionKey>): Scopes
  {
    map sk | sk in scopes && sk in keys :: scopes[sk]
  }

  ghost function VerifiersOf(scopes: Scopes): set<Verifier> { set sk | sk in scopes :: scopes[sk].verifier }

  ghost function ReadOf(scopes: Scopes): Read { Read(scopes, VerifiersOf(scopes), |LiveKeys(scopes)|) }

  /** One more exported scope is accepted. */
  lemma ReadOneComplete(scopes: Scopes, keys: seq<SessionKey>, sk: SessionKey, baseline: Option<Baseline>,
                        admin: Verifier, config: CoreConfig)
    requires ScopesOk(scopes, baseline, config) && VerifiersOk(scopes, admin) && sk in scopes
             && sk !in keys && Exportable(scopes)
    requires |LiveKeys(scopes)| <= MAX_SCOPES && |LiveKeys(scopes)| <= config.maxSessions
    ensures ReadOne(ReadOf(RestrictKeys(scopes, keys)), ExportScope(sk, scopes[sk]), baseline, admin, config)
         == Ok(ReadOf(RestrictKeys(scopes, keys + [sk])))
  {
    var part, s := RestrictKeys(scopes, keys), scopes[sk];
    ScopeAt(scopes, baseline, config, sk);
    IntoScopeComplete(sk, s, baseline, config);
    FreshVerifier(scopes, keys, sk, admin);
    ExtendRead(scopes, keys, sk);
    ReadAccepts(ReadOf(part), ExportScope(sk, s), s, baseline, admin, config);
  }

  /** An entry that reads as a new scope within bounds is added. */
  lemma ReadAccepts(read: Read, e: CheckpointScope, s: Scope, baseline: Option<Baseline>,
                    admin: Verifier, config: CoreConfig)
    requires ValidUpdate(config, e.Key(), e.revision, e.ccu) && !OneSided(baseline, e.Key())
    requires IntoScope(e, Historical(baseline, e.Key())) == Ok(s)
    requires s.verifier != admin && s.verifier !in read.verifiers && e.Key() !in read.scopes
    requires !s.retired ==> read.active + 1 <= MAX_SCOPES && read.active + 1 <= config.maxSessions
    ensures ReadOne(read, e, baseline, admin, config)
         == Ok(Read(read.scopes[e.Key() := s], read.verifiers + {s.verifier}, if s.retired
                    then read.active else read.active + 1))
  {
  }

  lemma ExtendRead(scopes: Scopes, keys: seq<SessionKey>, sk: SessionKey)
    requires sk in scopes && sk !in keys
    ensures var part, s := RestrictKeys(scopes, keys), scopes[sk];
            && sk !in part && (!s.retired ==> |LiveKeys(part)| + 1 <= |LiveKeys(scopes)|)
            && ReadOf(RestrictKeys(scopes, keys + [sk]))
               == Read(part[sk := s], VerifiersOf(part) + {s.verifier}, if s.retired then |LiveKeys(part)|
                       else |LiveKeys(part)| + 1)
  {
    var part, s := RestrictKeys(scopes, keys), scopes[sk];
    ExtendPart(scopes, keys, sk);
    LiveCounted(part, sk, s);
    Cache.SubsetSize(LiveKeys(part[sk := s]), LiveKeys(scopes));
  }

  lemma ExtendPart(scopes: Scopes, keys: seq<SessionKey>, sk: SessionKey)
    requires sk in scopes && sk !in keys
    ensures var part := RestrictKeys(scopes, keys);
            && RestrictKeys(scopes, keys + [sk]) == part[sk := scopes[sk]] && sk !in part
            && VerifiersOf(part[sk := scopes[sk]]) == VerifiersOf(part) + {scopes[sk].verifier}
            && LiveKeys(part[sk := scopes[sk]]) <= LiveKeys(scopes)
  {
    var part := RestrictKeys(scopes, keys);
    var more := part[sk := scopes[sk]];
    var v := scopes[sk].verifier;
    forall x ensures x in VerifiersOf(more) <==> x in VerifiersOf(part) + {v} {
      if x in VerifiersOf(part) { var k :| k in part && part[k].verifier == x; assert more[k].verifier == x; }
      assert more[sk].verifier == v;
    }
  }

  lemma FreshVerifier(scopes: Scopes, keys: seq<SessionKey>, sk: SessionKey, admin: Verifier)
    requires VerifiersOk(scopes, admin) && sk in scopes && sk !in keys
    ensures scopes[sk].verifier !in VerifiersOf(RestrictKeys(scopes, keys)) && scopes[sk].verifier != admin
  {
  }

  lemma {:induction false} ReadScopesComplete(scopes: Scopes, keys: seq<SessionKey>, baseline: Option<Baseline>,
                                              admin: Verifier, config: CoreConfig)
    requires ScopesOk(scopes, baseline, config) && VerifiersOk(scopes, admin) && Exportable(scopes)
    requires |LiveKeys(scopes)| <= MAX_SCOPES && |LiveKeys(scopes)| <= config.maxSessions
    requires forall i | 0 <= i < |keys| :: keys[i] in scopes
    requires forall i, j | 0 <= i < j < |keys| :: keys[i] != keys[j]
    ensures ReadScopes(ScopesText(scopes, keys), baseline, admin, config) == Ok(ReadOf(RestrictKeys(scopes, keys)))
  {
    if keys == [] {
      assert RestrictKeys(scopes, keys) == map[];
      assert ReadOf(map[]) == Read(map[], {}, 0);
    } else {
      var init, last := keys[..|keys| - 1], keys[|keys| - 1];
      ReadScopesComplete(scopes, init, baseline, admin, config);
      ScopesTextSplit(scopes, keys);
      ReadOneComplete(scopes, init, last, baseline, admin, config);
    }
  }

  lemma ScopesTextSplit(scopes: Scopes, keys: seq<SessionKey>)
    requires keys != [] && Exportable(scopes) && forall i | 0 <= i < |keys| :: keys[i] in scopes
    requires forall i, j | 0 <= i < j < |keys| :: keys[i] != keys[j]
    ensures var n := |keys| - 1;
            && ScopesText(scopes, keys)[..n] == ScopesText(scopes, keys[..n])
            && ScopesText(scopes, keys)[n] == ExportScope(keys[n], scopes[keys[n]])
            && keys == keys[..n] + [keys[n]] && keys[n] !in keys[..n]
  {
  }

  // ------------------------------------------------------------------ restore

  /** Which scopes a fresh core would take over. */
  function DecideRestore(cp: Checkpoint, admin: Verifier, config: CoreConfig): Result<Scopes, ManagedError> {
    if cp.version != CHECKPOINT_VERSION then Err(InvalidRequest)
    else if |cp.scopes| > MAX_HISTORY then Err(CapacityExhausted)
    else if cp.baseline.Some? && !cp.baseline.value.Valid() then Err(InvalidRequest)
    else
      var read := ReadScopes(cp.scopes, cp.baseline, admin, config);
      if read.Err? then Err(read.error) else Ok(read.value.scopes)
  }

  /** Every reachable configuration is exported as a checkpoint that a fresh core accepts, and the scopes
      it takes over are the very same, so exporting again yields the identical checkpoint. */
  lemma ExportRestores(st: Managed, config: CoreConfig)
    requires ManagedOk(st, config)
    ensures Exportable(st.scopes) && DecideRestore(Export(st.scopes, st.baseline), st.admin, config) == Ok(st.scopes)
  {
    LiveBounds(st, config);
    ExportAccepted(st.scopes, st.baseline, st.admin, config);
  }

  /** The export of scopes within the invariant is accepted and yields the same scopes. */
  lemma ExportAccepted(scopes: Scopes, baseline: Option<Baseline>, admin: Verifier, config: CoreConfig)
    requires ScopesOk(scopes, baseline, config) && VerifiersOk(scopes, admin)
             && (baseline.Some? ==> baseline.value.Valid())
    requires |LiveKeys(scopes)| <= MAX_SCOPES && |LiveKeys(scopes)| <= config.maxSessions && |scopes| <= MAX_HISTORY
    ensures Exportable(scopes) && DecideRestore(Export(scopes, baseline), admin, config) == Ok(scopes)
  {
    OkIsExportable(scopes, baseline, config);
    ReadScopesComplete(scopes, SortedKeys(scopes), baseline, admin, config);
    RestrictAll(scopes);
  }

  lemma RestrictAll(scopes: Scopes)
    ensures RestrictKeys(scopes, SortedKeys(scopes)) == scopes
  {
  }

  lemma LiveBounds(st: Managed, config: CoreConfig)
    requires LiveOk(st, config)
    ensures |LiveKeys(st.scopes)| <= MAX_SCOPES && |LiveKeys(st.scopes)| <= config.maxSessions
            && |st.scopes| <= MAX_HISTORY
  {
    assert |st.sessions.Keys| == |LiveKeys(st.scopes)|;
  }

  /** A checkpoint written by hand or damaged is still only accepted if its scopes satisfy the invariants. */
  lemma RestoreSound(cp: Checkpoint, admin: Verifier, config: CoreConfig)
    requires DecideRestore(cp, admin, config).Ok?
    ensures var scopes := DecideRestore(cp, admin, config).value;
            && ScopesOk(scopes, cp.baseline, config) && VerifiersOk(scopes, admin) && |scopes| <= MAX_HISTORY
            && |LiveKeys(scopes)| <= MAX_SCOPES && |LiveKeys(scopes)| <= config.maxSessions
  {
    ReadScopesSound(cp.scopes, cp.baseline, admin, config);
  }

  // ------------------------------------------------------------------ construction

  /** The session of a restored scope: its two system spaces and its spatial ones, nobody subscribed. */
  ghost function RestoredSession(s: Scope): Session {
    SessionWith(s.tick, s.spaces)
  }

  ghost function SessionWith(tick: Option<nat>, spaces: map<nat, SpaceDescriptor>): Session {
    WithSpaces(NewManagedSession(tick), spaces)
  }

  /** `base` with further spaces that nobody subscribes to. */
  ghost function WithSpaces(base: Session, spaces: map<nat, SpaceDescriptor>): Session {
    base.(spaces := base.spaces + spaces, subscribers := base.subscribers + Nobody(spaces))
  }

  ghost function Nobody(spaces: map<nat, SpaceDescriptor>): map<nat, set<nat>> { map id | id in spaces :: {} }

  lemma InstallFits(config: CoreConfig, ss: Sessions, sk: SessionKey, d: SpaceDescriptor)
    requires config.Valid() && NonZeroSession(sk) && sk in ss && ManagedDescriptor(d)
    requires d.id !in ss[sk].spaces && |ss[sk].spaces| < config.maxSpaces && ss[sk].tombstones == map[]
    ensures CheckInstall(ss, config, sk, d).None?
  {
  }

  /** There is always room for the next space of a scope. */
  lemma RoomForNext(config: CoreConfig, tick: Option<nat>, part: map<nat, SpaceDescriptor>, d: SpaceDescriptor)
    requires ManagedConfig(config) && ManagedDescriptor(d) && d.id !in part && |part| < MAX_SPATIAL
    ensures var x := SessionWith(tick, part);
            d.id !in x.spaces && |x.spaces| < config.maxSpaces && x.tombstones == map[]
  {
    SessionSize(tick, part);
  }

  lemma UnionSize<T>(a: set<T>, b: set<T>)
    ensures |a + b| <= |a| + |b|
  {
    assert a + b == a + (b - a);
    Cache.SubsetSize(b - a, b);
  }

  lemma SessionSize(tick: Option<nat>, part: map<nat, SpaceDescriptor>)
    ensures |SessionWith(tick, part).spaces| <= SYSTEM_SPACES + |part| && SessionWith(tick, part).tombstones == map[]
    ensures SessionWith(tick, part).spaces.Keys == {1, 2} + part.Keys
  {
    SystemKeys(tick);
    UnionSize({1, 2}, part.Keys);
  }

  lemma SystemKeys(tick: Option<nat>)
    ensures NewManagedSession(tick).spaces.Keys == {1, 2} && NewManagedSession(tick).tombstones == map[]
  {
  }

  lemma InstallExtends(tick: Option<nat>, part: map<nat, SpaceDescriptor>, d: SpaceDescriptor)
    ensures Commands.InstallSpace(SessionWith(tick, part), d) == SessionWith(tick, part[d.id := d])
  {
    SystemKeys(tick);
    WithSpacesExtends(NewManagedSession(tick), part, d);
  }

  lemma WithSpacesExtends(base: Session, part: map<nat, SpaceDescriptor>, d: SpaceDescriptor)
    requires base.tombstones == map[]
    ensures Commands.InstallSpace(WithSpaces(base, part), d) == WithSpaces(base, part[d.id := d])
  {
    UnionPut(base.spaces, part, d.id, d);
    UnionPut(base.subscribers, Nobody(part), d.id, {});
    assert Nobody(part)[d.id := {}] == Nobody(part[d.id := d]);
  }

  lemma UnionPut<V>(a: map<nat, V>, b: map<nat, V>, k: nat, v: V)
    ensures (a + b)[k := v] == a + b[k := v]
  {
  }

  /** `part` and `rest` divide `whole`. */
  ghost predicate Divides(part: map<nat, SpaceDescriptor>, rest: map<nat, SpaceDescriptor>,
                          whole: map<nat, SpaceDescriptor>) {
    part.Keys !! rest.Keys && whole == part + rest && |part| + |rest| == |whole|
  }

  lemma MoveOver(part: map<nat, SpaceDescriptor>, rest: map<nat, SpaceDescriptor>, whole: map<nat,
                 SpaceDescriptor>, id: nat)
    requires Divides(part, rest, whole) && id in rest
    ensures Divides(part[id := rest[id]], rest - {id}, whole) && |rest - {id}| < |rest| && |part| < |whole|
    ensures id !in part && id in whole && whole[id] == rest[id]
  {
    MoveSizes(part, rest, id);
    MoveUnion(part, rest, id);
  }

  lemma MoveSizes(part: map<nat, SpaceDescriptor>, rest: map<nat, SpaceDescriptor>, id: nat)
    requires part.Keys !! rest.Keys && id in rest
    ensures |part[id := rest[id]]| == |part| + 1 && |rest - {id}| == |rest| - 1
            && part[id := rest[id]].Keys !! (rest - {id}).Keys
  {
    assert part[id := rest[id]].Keys == part.Keys + {id};
    assert (rest - {id}).Keys == rest.Keys - {id};
  }

  lemma MoveUnion(part: map<nat, SpaceDescriptor>, rest: map<nat, SpaceDescriptor>, id: nat)
    requires part.Keys !! rest.Keys && id in rest
    ensures part[id := rest[id]] + (rest - {id}) == part + rest
  {
  }

  ghost predicate Building(x: Session, tick: Option<nat>, part: map<nat, SpaceDescriptor>,
                           rest: map<nat, SpaceDescriptor>,
                           whole: map<nat, SpaceDescriptor>) {
    Divides(part, rest, whole) && x == SessionWith(tick, part)
  }

  method InstallOne(config: CoreConfig, ghost ss: Sessions, sk: SessionKey, ghost tick: Option<nat>,
                    ghost part: map<nat, SpaceDescriptor>,
                    rest: map<nat, SpaceDescriptor>, ghost whole: map<nat, SpaceDescriptor>, id: nat, x: Session)
    returns (x': Session)
    requires ManagedConfig(config) && NonZeroSession(sk) && SpacesValid(whole) && id in rest
             && Building(x, tick, part, rest, whole)
    ensures Building(x', tick, part[id := rest[id]], rest - {id}, whole) && |rest - {id}| < |rest|
    ensures CheckInstall(ss[sk := x], config, sk, rest[id]).None?
  {
    var d := rest[id];
    MoveOver(part, rest, whole, id);
    assert d.id == id && ManagedDescriptor(d) by { assert whole[id] == d; }
    RoomForNext(config, tick, part, d);
    InstallFits(config, ss[sk := x], sk, d);
    InstallExtends(tick, part, d);
    x' := Commands.InstallSpace(x, d);
  }

  /** Installs the spaces one by one; every installation passes the checks of a live one. */
  method BuildSession(config: CoreConfig, ghost ss: Sessions, sk: SessionKey, s: Scope) returns (x: Session)
    requires ManagedConfig(config) && NonZeroSession(sk) && SpacesValid(s.spaces)
    ensures x == RestoredSession(s)
  {
    x := NewManagedSession(s.tick);
    var rest := s.spaces;
    ghost var part: map<nat, SpaceDescriptor> := map[];
    NothingBuilt(s.tick, s.spaces);
    while rest != map[]
      invariant Building(x, s.tick, part, rest, s.spaces)
      decreases |rest|
    {
      var id :| id in rest;
      x := InstallOne(config, ss, sk, s.tick, part, rest, s.spaces, id, x);
      part := part[id := rest[id]];
      rest := rest - {id};
    }
    AllBuilt(x, s.tick, part, s.spaces);
  }

  lemma NothingBuilt(tick: Option<nat>, whole: map<nat, SpaceDescriptor>)
    ensures Building(NewManagedSession(tick), tick, map[], whole, whole)
  {
    NothingYet(tick);
    assert map[] + whole == whole;
  }

  lemma AllBuilt(x: Session, tick: Option<nat>, part: map<nat, SpaceDescriptor>, whole: map<nat, SpaceDescriptor>)
    requires Building(x, tick, part, map[], whole)
    ensures x == SessionWith(tick, whole)
  {
    assert part + map[] == part;
  }

  lemma NothingYet(tick: Option<nat>)
    ensures SessionWith(tick, map[]) == NewManagedSession(tick)
  {
    var x, y := SessionWith(tick, map[]), NewManagedSession(tick);
    assert x.spaces == y.spaces && x.subscribers == y.subscribers;
  }

  // ------------------------------------------------------------------ the loops of export and restore

  lemma {:induction false} ReadSpacesFail(cs: seq<CheckpointSpace>, n: nat)
    requires n <= |cs| && ReadSpaces(cs[..n]).Err?
    ensures ReadSpaces(cs) == ReadSpaces(cs[..n])
    decreases |cs|
  {
    if n == |cs| {
      assert cs[..n] == cs;
    } else {
      assert cs[..|cs| - 1][..n] == cs[..n];
      ReadSpacesFail(cs[..|cs| - 1], n);
    }
  }

  method ReadSpacesIn(cs: seq<CheckpointSpace>) returns (r: Result<map<nat, SpaceDescriptor>, ManagedError>)
    ensures r == ReadSpaces(cs)
  {
    var spaces := map[];
    for i := 0 to |cs|
      invariant ReadSpaces(cs[..i]) == Ok(spaces)
    {
      var d := ToDescriptor(cs[i]);
      assert cs[..i + 1][..i] == cs[..i];
      if !ManagedDescriptor(d) || d.id in spaces {
        ReadSpacesFail(cs, i + 1);
        return Err(InvalidRequest);
      }
      spaces := spaces[d.id := d];
    }
    assert cs[..|cs|] == cs;
    return Ok(spaces);
  }

  method IntoScopeIn(e: CheckpointScope, historical: bool) returns (r: Result<Scope, ManagedError>)
    ensures r == IntoScope(e, historical)
  {
    if |e.spaces| > MAX_SPATIAL { return Err(SpaceCapacityExhausted); }
    if !TickOk(e.tick) { return Err(InvalidRequest); }
    var verifier := DecodeVerifier(e.verifier);
    if verifier.None? { return Err(InvalidRequest); }
    var spaces := ReadSpacesIn(e.spaces);
    if spaces.Err? { return Err(spaces.error); }
    if (!historical && e.revision <= |spaces.value|) || !MutationFits(e, spaces.value, historical) {
      return Err(InvalidRequest);
    }
    return Ok(Scope(verifier.value, e.revision, e.last, e.ccu, e.tick, spaces.value, e.retired));
  }

  lemma {:induction false} ReadScopesFail(es: seq<CheckpointScope>, baseline: Option<Baseline>, admin: Verifier,
                                          config: CoreConfig, n: nat)
    requires n <= |es| && ReadScopes(es[..n], baseline, admin, config).Err?
    ensures ReadScopes(es, baseline, admin, config) == ReadScopes(es[..n], baseline, admin, config)
    decreases |es|
  {
    if n == |es| {
      assert es[..n] == es;
    } else {
      assert es[..|es| - 1][..n] == es[..n];
      ReadScopesFail(es[..|es| - 1], baseline, admin, config, n);
    }
  }

  method ReadOneIn(read: Read, e: CheckpointScope, baseline: Option<Baseline>, admin: Verifier, config: CoreConfig)
    returns (r: Result<Read, ManagedError>)
    ensures r == ReadOne(read, e, baseline, admin, config)
  {
    if !ValidUpdate(config, e.Key(), e.revision, e.ccu) || OneSided(baseline, e.Key()) { return Err(InvalidRequest); }
    var s := IntoScopeIn(e, Historical(baseline, e.Key()));
    if s.Err? { return Err(s.error); }
    if s.value.verifier == admin || s.value.verifier in read.verifiers { return Err(TokenConflict); }
    var active := read.active;
    if !s.value.retired {
      active := active + 1;
      if active > MAX_SCOPES || active > config.maxSessions { return Err(CapacityExhausted); }
    }
    if e.Key() in read.scopes { return Err(InvalidRequest); }
    return Ok(Read(read.scopes[e.Key() := s.value], read.verifiers + {s.value.verifier}, active));
  }

  method ReadScopesIn(es: seq<CheckpointScope>, baseline: Option<Baseline>, admin: Verifier, config: CoreConfig)
    returns (r: Result<Read, ManagedError>)
    ensures r == ReadScopes(es, baseline, admin, config)
  {
    r := Ok(Read(map[], {}, 0));
    for i := 0 to |es|
      invariant r.Ok? && r == ReadScopes(es[..i], baseline, admin, config)
    {
      assert es[..i + 1][..i] == es[..i];
      r := ReadOneIn(r.value, es[i], baseline, admin, config);
      if r.Err? {
        ReadScopesFail(es, baseline, admin, config, i + 1);
        return;
      }
    }
    assert es[..|es|] == es;
  }

  ghost function RestoredSessions(scopes: Scopes): Sessions { BuiltSessions(scopes, LiveKeys(scopes)) }

  ghost function RestoredControllers(scopes: Scopes): Controllers { BuiltControllers(scopes, LiveKeys(scopes)) }

  /** Builds every live scope, in any order. No construction fails once the checkpoint was read. */
  method BuildAll(config: CoreConfig, scopes: Scopes, ghost baseline: Option<Baseline>)
    returns (sessions: Sessions, controllers: Controllers)
    requires ManagedConfig(config) && ScopesOk(scopes, baseline, config)
    ensures sessions == RestoredSessions(scopes) && controllers == RestoredControllers(scopes)
  {
    sessions, controllers := map[], map[];
    var rest := set sk | sk in scopes && !scopes[sk].retired;
    ghost var live := rest;
    while rest != {}
      invariant rest <= live && live == LiveKeys(scopes)
      invariant sessions == BuiltSessions(scopes, live - rest) && controllers == BuiltControllers(scopes, live - rest)
    {
      var sk :| sk in rest;
      assert live - (rest - {sk}) == (live - rest) + {sk};
      BuiltOne(scopes, live - rest, sk);
      sessions := BuildInto(config, sessions, sk, scopes, baseline);
      controllers := controllers[sk := NewController(sk, scopes[sk].revision, scopes[sk].ccu)];
      rest := rest - {sk};
    }
    assert live - {} == live;
  }

  ghost function MapOver<V>(keys: set<SessionKey>, f: SessionKey -> V): map<SessionKey, V>
  {
    map sk | sk in keys :: f(sk)
  }

  lemma MapOverOne<V>(keys: set<SessionKey>, f: SessionKey -> V, sk: SessionKey)
    ensures MapOver(keys + {sk}, f) == MapOver(keys, f)[sk := f(sk)]
  {
  }

  ghost function BuiltSessions(scopes: Scopes, keys: set<SessionKey>): Sessions {
    MapOver(keys, (sk: SessionKey) => if sk in scopes then RestoredSession(scopes[sk]) else NEW_SESSION)
  }

  ghost function BuiltControllers(scopes: Scopes, keys: set<SessionKey>): Controllers {
    map sk | sk in keys && sk in scopes :: NewController(sk, scopes[sk].revision, scopes[sk].ccu)
  }

  lemma BuiltOne(scopes: Scopes, keys: set<SessionKey>, sk: SessionKey)
    requires sk in scopes
    ensures BuiltSessions(scopes, keys + {sk}) == BuiltSessions(scopes, keys)[sk := RestoredSession(scopes[sk])]
    ensures BuiltControllers(scopes, keys + {sk})
         == BuiltControllers(scopes, keys)[sk := NewController(sk, scopes[sk].revision, scopes[sk].ccu)]
  {
    MapOverOne(keys, (k: SessionKey) => if k in scopes then RestoredSession(scopes[k]) else NEW_SESSION, sk);
  }

  method BuildInto(config: CoreConfig, sessions: Sessions, sk: SessionKey, scopes: Scopes,
                   ghost baseline: Option<Baseline>)
    returns (sessions': Sessions)
    requires ManagedConfig(config) && ScopesOk(scopes, baseline, config) && sk in scopes
    ensures sessions' == sessions[sk := RestoredSession(scopes[sk])]
  {
    ScopeAt(scopes, baseline, config, sk);
    var x := BuildSession(config, sessions, sk, scopes[sk]);
    sessions' := sessions[sk := x];
  }

  /** A controller that nobody has asked anything yet, at the capacity and revision of its scope. */
  ghost predicate Blank(c: Tables, sk: SessionKey, s: Scope) {
    && c.state.session == sk && c.state.capacity == s.ccu && c.state.pending.None? && c.state.revision == s.revision
    && c.state.active == map[] && c.state.reservations == map[] && c.state.tickets == map[]
    && c.waiting == [] && c.index == map[]
    && c.state.policy.enabled && c.state.policy.maxDepth == 1024 && c.state.policy.ticketTtl == 900_000_000_000
    && c.state.policy.offerTtl == 30_000_000_000 && c.state.policy.heartbeatTimeout == 30_000_000_000
    && c.state.policy.reconnectGrace == 0
  }

  ghost predicate AnewAt(st: Managed, sk: SessionKey) {
    && sk in st.sessions && sk in st.controllers && sk in st.scopes
    && Untouched(st.sessions[sk]) && Blank(st.controllers[sk], sk, st.scopes[sk])
  }

  /** Every live scope starts anew: its session, furnished as the scope says, holds nobody and nothing, and its
      controller is blank. */
  ghost predicate Anew(st: Managed) { forall sk {:trigger AnewAt(st, sk)} | sk in st.sessions :: AnewAt(st, sk) }

  lemma RestoredMirrors(s: Scope)
    requires SpacesValid(s.spaces) && TickOk(s.tick)
    ensures Mirrors(RestoredSession(s), s) && Untouched(RestoredSession(s))
  {
    var base := NewManagedSession(s.tick);
    NewMirrors([], 1, 0, s.tick);
    NewUntouched(s.tick);
    SessionSize(s.tick, s.spaces);
    WithSpacesKeeps(base, s.spaces);
  }

  lemma WithSpacesKeeps(base: Session, spaces: map<nat, SpaceDescriptor>)
    requires Untouched(base) && base.spaces.Keys == {1, 2} && forall id | id in spaces :: id > SYSTEM_SPACES
    ensures var x := WithSpaces(base, spaces);
            && Untouched(x) && x.rateLimit == base.rateLimit && x.spaces[1] == base.spaces[1]
               && x.spaces[2] == base.spaces[2]
            && forall id | id in spaces :: x.spaces[id] == spaces[id]
  {
  }

  lemma RestoredAnew(st: Managed, config: CoreConfig)
    requires ScopesOk(st.scopes, st.baseline, config)
    requires st.sessions == RestoredSessions(st.scopes) && st.controllers == RestoredControllers(st.scopes)
    ensures MirrorsOk(st) && Anew(st)
  {
    assert st.sessions.Keys == LiveKeys(st.scopes) && st.controllers.Keys == LiveKeys(st.scopes);
    forall sk | sk in st.sessions ensures Mirrored(st.sessions, st.scopes, sk) && AnewAt(st, sk) {
      ScopeAt(st.scopes, st.baseline, config, sk);
      RestoredMirrors(st.scopes[sk]);
    }
  }

  /** Scopes within the invariant, with their sessions and controllers built, are a whole configuration. */
  lemma RestoredOk(st: Managed, config: CoreConfig)
    requires ManagedConfig(config) && (st.baseline.Some? ==> st.baseline.value.Valid())
    requires ScopesOk(st.scopes, st.baseline, config) && VerifiersOk(st.scopes, st.admin)
    requires |LiveKeys(st.scopes)| <= MAX_SCOPES && |LiveKeys(st.scopes)| <= config.maxSessions
             && |st.scopes| <= MAX_HISTORY
    requires st.sessions == RestoredSessions(st.scopes) && st.controllers == RestoredControllers(st.scopes)
    ensures ManagedOk(st, config)
  {
    RestoredLive(st, config);
    RestoredLimits(st, config);
    RestoredAnew(st, config);
  }

  lemma RestoredLive(st: Managed, config: CoreConfig)
    requires st.sessions == RestoredSessions(st.scopes) && st.controllers == RestoredControllers(st.scopes)
    requires |LiveKeys(st.scopes)| <= MAX_SCOPES && |LiveKeys(st.scopes)| <= config.maxSessions
             && |st.scopes| <= MAX_HISTORY
    ensures LiveOk(st, config)
  {
    assert st.sessions.Keys == LiveKeys(st.scopes) && st.controllers.Keys == LiveKeys(st.scopes);
    assert |st.sessions.Keys| == |LiveKeys(st.scopes)|;
  }

  lemma RestoredLimits(st: Managed, config: CoreConfig)
    requires ScopesOk(st.scopes, st.baseline, config) && st.controllers == RestoredControllers(st.scopes)
    ensures LimitsOk(st)
  {
    forall sk | sk in st.controllers ensures sk in st.scopes && LimitOk(sk, st.controllers[sk], st.scopes[sk]) {
      ScopeAt(st.scopes, st.baseline, config, sk);
      NewControllerOk(sk, st.scopes[sk].revision, st.scopes[sk].ccu);
    }
  }

  /** A core in which nothing has happened yet. */
  predicate Fresh(st: Managed)
  {
    st.baseline.None? && st.scopes == map[] && st.sessions == map[] && st.controllers == map[]
  }

  /** Takes a checkpoint over completely, or not at all. `untouched` says that the rest of the core has no
      history and has its channels. */
  method RestoreIn(st: Managed, config: CoreConfig, untouched: bool, cp: Checkpoint)
    returns (st': Managed, e: Option<ManagedError>)
    requires ManagedOk(st, config)
    ensures ManagedOk(st', config) && st'.admin == st.admin
    ensures e.None? <==> untouched && Fresh(st) && DecideRestore(cp, st.admin, config).Ok?
    ensures e.None? ==> st'.scopes == DecideRestore(cp, st.admin, config).value && st'.baseline == cp.baseline
    ensures e.None? ==> Anew(st')
    ensures e.Some? ==> st' == st
  {
    if cp.version != CHECKPOINT_VERSION || !untouched || !Fresh(st) { return st, Some(InvalidRequest); }
    if |cp.scopes| > MAX_HISTORY { return st, Some(CapacityExhausted); }
    if cp.baseline.Some? && !cp.baseline.value.Valid() { return st, Some(InvalidRequest); }
    var read := ReadScopesIn(cp.scopes, cp.baseline, st.admin, config);
    if read.Err? { return st, Some(read.error); }
    RestoreSound(cp, st.admin, config);
    var sessions, controllers := BuildAll(config, read.value.scopes, cp.baseline);
    st' := Managed(st.admin, cp.baseline, read.value.scopes, sessions, controllers);
    RestoredOk(st', config);
    RestoredAnew(st', config);
    return st', None;
  }

  method SortIds(spaces: map<nat, SpaceDescriptor>) returns (ids: seq<nat>)
    ensures ids == SortedIds(spaces)
  {
    OrdersTotal();
    ids := Sort(spaces.Keys, IdOrder());
  }

  method SortKeys(scopes: Scopes) returns (keys: seq<SessionKey>)
    ensures keys == SortedKeys(scopes)
  {
    OrdersTotal();
    keys := Sort(scopes.Keys, KeyOrder());
  }

  lemma SpacesTextNext(spaces: map<nat, SpaceDescriptor>, ids: seq<nat>, i: nat)
    requires (forall n | 0 <= n < |ids| :: ids[n] in spaces) && SpacesValid(spaces) && i < |ids|
    ensures SpacesText(spaces, ids)[..i + 1] == SpacesText(spaces, ids)[..i] + [FromDescriptor(spaces[ids[i]]).value]
  {
  }

  method WriteSpaces(spaces: map<nat, SpaceDescriptor>, ids: seq<nat>) returns (r: seq<CheckpointSpace>)
    requires (forall n | 0 <= n < |ids| :: ids[n] in spaces) && SpacesValid(spaces)
    ensures r == SpacesText(spaces, ids)
  {
    r := [];
    for i := 0 to |ids|
      invariant r == SpacesText(spaces, ids)[..i]
    {
      SpacesTextNext(spaces, ids, i);
      var c := FromDescriptor(spaces[ids[i]]);
      r := r + [c.value];
    }
  }

  method WriteScope(sk: SessionKey, s: Scope) returns (e: CheckpointScope)
    requires IsVerifier(s.verifier) && SpacesValid(s.spaces)
    ensures e == ExportScope(sk, s)
  {
    var ids := SortIds(s.spaces);
    var spaces := WriteSpaces(s.spaces, ids);
    e := CheckpointScope(sk.namespace, sk.session, s.revision, s.last, s.ccu, s.tick,
                         Encode(s.verifier), s.retired, spaces);
  }

  lemma ScopesTextNext(scopes: Scopes, keys: seq<SessionKey>, i: nat)
    requires Exportable(scopes) && (forall n | 0 <= n < |keys| :: keys[n] in scopes) && i < |keys|
    ensures ScopesText(scopes, keys)[..i + 1] == ScopesText(scopes, keys)[..i] + [ExportScope(keys[i], scopes[keys[i]])]
  {
    TakeNext(ScopesText(scopes, keys), i);
  }

  lemma TakeNext<T>(s: seq<T>, i: nat)
    requires i < |s|
    ensures s[..i + 1] == s[..i] + [s[i]]
  {
  }

  method WriteScopes(scopes: Scopes, keys: seq<SessionKey>) returns (r: seq<CheckpointScope>)
    requires Exportable(scopes) && forall n | 0 <= n < |keys| :: keys[n] in scopes
    ensures r == ScopesText(scopes, keys)
  {
    r := [];
    for i := 0 to |keys|
      invariant r == ScopesText(scopes, keys)[..i]
    {
      ScopesTextNext(scopes, keys, i);
      var e := WriteScope(keys[i], scopes[keys[i]]);
      r := r + [e];
    }
  }

  /** Never fails: every space on record is a managed one. */
  method ExportIn(scopes: Scopes, baseline: Option<Baseline>) returns (cp: Checkpoint)
    requires Exportable(scopes)
    ensures cp == Export(scopes, baseline)
  {
    var keys := SortKeys(scopes);
    var entries := WriteScopes(scopes, keys);
    cp := Checkpoint(CHECKPOINT_VERSION, baseline, entries);
  }

  /** The managed side of a core. Every request keeps the configuration restorable. */
  class ManagedCore {
    const config: CoreConfig
    var state: Managed

    ghost predicate Valid()
      reads this
    {
      ManagedOk(state, config)
    }

    constructor (config: CoreConfig, admin: Verifier)
      requires ManagedConfig(config)
      ensures Valid() && this.config == config && Fresh(state) && state.admin == admin
    {
      this.config := config;
      state := Managed(admin, None, map[], map[], map[]);
      NoScopes(config, admin);
    }

    method Put(sk: SessionKey, revision: nat, ccu: nat, tick: Option<nat>, credential: Option<Verifier>, now: nat)
      returns (r: Result<bool, ManagedError>)
      requires Valid() && (credential.Some? ==> IsVerifier(credential.value))
      modifies this
      ensures Valid() && SameFrame(old(state), state) && Progress(old(state).scopes, state.scopes)
      ensures r == DecidePut(old(state), config, sk, revision, ccu, tick, credential)
      ensures state.scopes == if r == Ok(true)
              then old(state).scopes[sk := PutScope(credential.value, revision, ccu, tick)] else old(state).scopes
      ensures if r == Ok(true) then NewSessionAt(old(state).sessions, state.sessions, sk)
              else state.sessions == old(state).sessions
    {
      state, r := PutIn(state, config, sk, revision, ccu, tick, credential, now);
    }

    method Patch(sk: SessionKey, revision: nat, ccu: nat, tick: Option<nat>, now: nat)
      returns (r: Result<bool, ManagedError>)
      requires Valid()
      modifies this
      ensures Valid() && SameFrame(old(state), state) && Progress(old(state).scopes, state.scopes)
      ensures r == DecidePatch(old(state), config, sk, revision, ccu, tick)
      ensures state.scopes == if r == Ok(true)
              then old(state).scopes[sk := PatchScope(old(state).scopes[sk], revision, ccu, tick)]
                   else old(state).scopes
      ensures if r == Ok(true) then OnlyLimit(old(state).sessions, state.sessions, sk)
              else state.sessions == old(state).sessions
      ensures r == Ok(true) ==> sk in state.sessions && Mirrors(state.sessions[sk], state.scopes[sk])
    {
      state, r := PatchIn(state, config, sk, revision, ccu, tick, now);
      if r == Ok(true) { MirrorAt(state, sk); }
    }

    method PutSpace(sk: SessionKey, revision: nat, d: SpaceDescriptor, now: nat) returns (r: Result<bool, ManagedError>)
      requires Valid()
      modifies this
      ensures Valid() && SameFrame(old(state), state) && Progress(old(state).scopes, state.scopes)
      ensures r == DecidePutSpace(old(state), config, sk, revision, d)
      ensures state.scopes == if r == Ok(true)
              then old(state).scopes[sk := AddSpace(old(state).scopes[sk], revision, d)] else old(state).scopes
      ensures if r == Ok(true) then OnlySpace(old(state).sessions, state.sessions, sk, d)
              else state.sessions == old(state).sessions
    {
      state, r := PutSpaceIn(state, config, sk, revision, d, now);
    }

    method Delete(sk: SessionKey, revision: nat) returns (e: Option<ManagedError>)
      requires Valid()
      modifies this
      ensures Valid() && SameFrame(old(state), state) && Progress(old(state).scopes, state.scopes)
      ensures e == DecideDelete(old(state), config, sk, revision)
      ensures e.None? ==> state.scopes == old(state).scopes[sk := old(state).scopes[sk].(retired := true)]
      ensures e.Some? ==> state == old(state)
    {
      state, e := DeleteIn(state, config, sk, revision);
    }

    method ExportCheckpoint() returns (cp: Checkpoint)
      requires Valid()
      ensures Exportable(state.scopes) && cp == Export(state.scopes, state.baseline)
      ensures DecideRestore(cp, state.admin, config) == Ok(state.scopes)
    {
      ExportRestores(state, config);
      cp := ExportIn(state.scopes, state.baseline);
    }

    method RestoreCheckpoint(untouched: bool, cp: Checkpoint) returns (e: Option<ManagedError>)
      requires Valid()
      modifies this
      ensures Valid() && state.admin == old(state).admin
      ensures e.None? <==> untouched && Fresh(old(state)) && DecideRestore(cp, old(state).admin, config).Ok?
      ensures e.None?
              ==> state.scopes == DecideRestore(cp, old(state).admin, config).value && state.baseline == cp.baseline
      ensures e.None? ==> Anew(state)
      ensures e.Some? ==> state == old(state)
    {
      state, e := RestoreIn(state, config, untouched, cp);
    }
  }

  lemma NoScopes(config: CoreConfig, admin: Verifier)
    requires ManagedConfig(config)
    ensures ManagedOk(Managed(admin, None, map[], map[], map[]), config)
  {
    assert LiveKeys(map[]) == {};
  }

  /** The same limit, if any, and the same spaces. */
  ghost predicate SameFurniture(x: Session, y: Session) {
    && x.rateLimit.Some? == y.rateLimit.Some? && x.spaces.Keys == y.spaces.Keys
    && (x.rateLimit.Some? ==> x.rateLimit == y.rateLimit)
    && forall sp | sp in x.spaces :: x.spaces[sp] == y.spaces[sp]
  }

  lemma MirrorsAgree(x: Session, y: Session, s: Scope)
    requires Mirrors(x, s) && Mirrors(y, s)
    ensures SameFurniture(x, y)
  {
    forall sp | sp in x.spaces ensures x.spaces[sp] == y.spaces[sp] {
      if sp !in s.spaces { assert sp == 1 || sp == 2; }
    }
  }

  lemma SourcesAgree(st: Managed, st': Managed, config: CoreConfig)
    requires ManagedOk(st, config) && ManagedOk(st', config) && st'.scopes == st.scopes
    ensures st'.sessions.Keys == st.sessions.Keys
    ensures forall sk | sk in st.sessions :: sk in st'.sessions && SameFurniture(st.sessions[sk], st'.sessions[sk])
  {
    forall sk | sk in st.sessions ensures sk in st'.sessions && SameFurniture(st.sessions[sk], st'.sessions[sk]) {
      MirrorAt(st, sk);
      MirrorAt(st', sk);
      MirrorsAgree(st.sessions[sk], st'.sessions[sk], st.scopes[sk]);
    }
  }

  /** Export, restart, restore, export: the second checkpoint is the first, and every live scope has its session
      back with the same limit and the same spaces. */
  method RestartRoundTrip(source: ManagedCore, target: ManagedCore)
    returns (first: Checkpoint, e: Option<ManagedError>, second: Checkpoint)
    requires source != target && source.Valid() && target.Valid() && Fresh(target.state)
    requires target.config == source.config && target.state.admin == source.state.admin
    modifies target
    ensures e.None? && second == first && target.Valid() && target.state.scopes == source.state.scopes
    ensures target.state.sessions.Keys == source.state.sessions.Keys && Anew(target.state)
    ensures forall sk | sk in source.state.sessions ::
            sk in target.state.sessions && SameFurniture(source.state.sessions[sk], target.state.sessions[sk])
  {
    first := source.ExportCheckpoint();
    e := target.RestoreCheckpoint(true, first);
    SourcesAgree(source.state, target.state, source.config);
    second := target.ExportCheckpoint();
  }
}
