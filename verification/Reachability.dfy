/** The checks of a restore are exact: apart from what was lost below a migration boundary, the scopes it
    accepts are those that some sequence of accepted requests produces. */
module Reachability {
  import opened Model
  import opened Hex
  import opened SessionGraph
  import opened Checks
  import opened Ledgers
  import opened ManagedScopes
  import opened Checkpoints
  import Cache
  import Commands

  datatype Request =
    | Put(revision: nat, ccu: nat, tick: Option<nat>, verifier: Verifier)
    | Patch(revision: nat, ccu: nat, tick: Option<nat>)
    | PutSpace(revision: nat, descriptor: SpaceDescriptor)
    | Delete(revision: nat)

  /** The configuration without its controllers. */
  datatype Book = Book(admin: Verifier, baseline: Option<Baseline>, scopes: Scopes, sessions: Sessions)
  {
    ghost function With(controllers: Controllers): Managed { Managed(admin, baseline, scopes, sessions, controllers) }

    ghost function Set(sk: SessionKey, s: Scope, x: Session): Book {
      this.(scopes := scopes[sk := s], sessions := sessions[sk := x])
    }
  }

  /** The request for `sk` is accepted and changes the configuration to `b'`. */
  ghost predicate Accepts(config: CoreConfig, st: Managed, b: Book, sk: SessionKey, r: Request, b': Book) {
    match r
    case Put(revision, ccu, tick, v) =>
      && IsVerifier(v) && DecidePut(st, config, sk, revision, ccu, tick, Some(v)) == Ok(true)
      && b' == b.Set(sk, PutScope(v, revision, ccu, tick), NewManagedSession(tick))
    case Patch(revision, ccu, tick) =>
      && DecidePatch(st, config, sk, revision, ccu, tick) == Ok(true) && sk in b.sessions
      && var s := PatchScope(st.scopes[sk], revision, ccu, tick);
         b' == b.Set(sk, s, b.sessions[sk].(rateLimit := Configured(s.tick)))
    case PutSpace(revision, d) =>
      && DecidePutSpace(st, config, sk, revision, d) == Ok(true)
      && b' == b.Set(sk, AddSpace(st.scopes[sk], revision, d), Commands.InstallSpace(st.sessions[sk], d))
    case Delete(revision) =>
      && DecideDelete(st, config, sk, revision).None?
      && b' == b.(scopes := b.scopes[sk := st.scopes[sk].(retired := true)], sessions := b.sessions - {sk})
  }

  /** The same whatever the controllers hold: no decision depends on them. */
  ghost predicate Answers(config: CoreConfig, b: Book, sk: SessionKey, r: Request, b': Book) {
    forall controllers {:trigger b.With(controllers)} :: Accepts(config, b.With(controllers), b, sk, r, b')
  }

  ghost predicate RequestRun(config: CoreConfig, bs: seq<Book>, sks: seq<SessionKey>, rs: seq<Request>) {
    && |bs| == |rs| + 1 && |sks| == |rs|
    && forall n | 0 <= n < |rs| :: Answers(config, bs[n], sks[n], rs[n], bs[n + 1])
  }

  /** A sequence of accepted requests leads from `b` to `b'`. */
  ghost predicate Leads(config: CoreConfig, b: Book, b': Book) {
    exists bs, sks, rs :: RequestRun(config, bs, sks, rs) && bs[0] == b && bs[|rs|] == b'
  }

  lemma LeadsNowhere(config: CoreConfig, b: Book)
    ensures Leads(config, b, b)
  {
    assert RequestRun(config, [b], [], []);
  }

  lemma LeadsNext(config: CoreConfig, b: Book, b1: Book, sk: SessionKey, r: Request, b2: Book)
    requires Leads(config, b, b1) && Answers(config, b1, sk, r, b2)
    ensures Leads(config, b, b2)
  {
    var bs, sks, rs :| RequestRun(config, bs, sks, rs) && bs[0] == b && bs[|rs|] == b1;
    RunNext(config, bs, sks, rs, sk, r, b2);
    var bs', rs' := bs + [b2], rs + [r];
    assert RequestRun(config, bs', sks + [sk], rs') && bs'[0] == b && bs'[|rs'|] == b2;
  }

  lemma RunNext(config: CoreConfig, bs: seq<Book>, sks: seq<SessionKey>, rs: seq<Request>,
                sk: SessionKey, r: Request, b: Book)
    requires RequestRun(config, bs, sks, rs) && Answers(config, bs[|rs|], sk, r, b)
    ensures RequestRun(config, bs + [b], sks + [sk], rs + [r])
  {
    var bs', sks', rs' := bs + [b], sks + [sk], rs + [r];
    forall n | 0 <= n < |rs'| ensures Answers(config, bs'[n], sks'[n], rs'[n], bs'[n + 1]) {
      if n < |rs| { assert Answers(config, bs[n], sks[n], rs[n], bs[n + 1]); }
    }
  }

  // ------------------------------------------------------------------ one scope

  ghost predicate Above(baseline: Option<Baseline>, sk: SessionKey) {
    baseline.Some? ==> sk.namespace > baseline.value.closedThrough && sk.session > baseline.value.closedThrough
  }

  /** Room for one more scope with this credential. */
  ghost predicate RoomFor(b: Book, config: CoreConfig, sk: SessionKey, v: Verifier) {
    && Above(b.baseline, sk) && sk !in b.scopes && v != b.admin && !TokenTaken(b.scopes, v)
    && |b.scopes| < MAX_HISTORY && |b.sessions| < MAX_SCOPES && |b.sessions| < config.maxSessions
  }

  /** The scope `s` on its way: created at `first`, with the spaces `ids` so far. */
  ghost function Partly(s: Scope, first: nat, ids: seq<nat>): Scope {
    Scope(s.verifier, first + |ids|, if ids == [] then ProvisionMutation
          else SpaceMutation(ids[|ids| - 1]), s.ccu, s.tick,
          RestrictIds(s.spaces, ids), false)
  }

  /** The session of a scope as far as it decides about further spaces. */
  ghost predicate Fits(x: Session, spaces: map<nat, SpaceDescriptor>) {
    x.spaces.Keys == {1, 2} + spaces.Keys && x.tombstones == map[]
  }

  lemma PutAccepted(config: CoreConfig, b: Book, controllers: Controllers, sk: SessionKey, first: nat, ccu: nat,
                    tick: Option<nat>, v: Verifier)
    requires ValidUpdate(config, sk, first, ccu) && TickOk(tick) && RoomFor(b, config, sk, v)
    ensures DecidePut(b.With(controllers), config, sk, first, ccu, tick, Some(v)) == Ok(true)
  {
  }

  lemma PutAnswers(config: CoreConfig, b: Book, sk: SessionKey, first: nat, ccu: nat, tick: Option<nat>, v: Verifier,
                   s': Scope, x': Session)
    requires ValidUpdate(config, sk, first, ccu) && TickOk(tick) && IsVerifier(v) && RoomFor(b, config, sk, v)
    requires s' == PutScope(v, first, ccu, tick) && x' == NewManagedSession(tick)
    ensures Answers(config, b, sk, Put(first, ccu, tick, v), b.Set(sk, s', x'))
  {
    forall controllers
      ensures Accepts(config, b.With(controllers), b, sk, Put(first, ccu, tick, v), b.Set(sk, s', x')) {
      PutAccepted(config, b, controllers, sk, first, ccu, tick, v);
    }
  }

  lemma PartSize(spaces: map<nat, SpaceDescriptor>, ids: seq<nat>, id: nat)
    requires id in spaces && id !in ids
    ensures |RestrictIds(spaces, ids)| < |spaces| && id !in RestrictIds(spaces, ids)
    ensures RestrictIds(spaces, ids + [id]) == RestrictIds(spaces, ids)[id := spaces[id]]
  {
    var part := RestrictIds(spaces, ids);
    Cache.SubsetSize(part.Keys, spaces.Keys);
  }

  lemma SpaceAccepted(config: CoreConfig, st: Managed, sk: SessionKey, d: SpaceDescriptor)
    requires config.Valid() && NonZeroSession(sk) && sk in st.scopes && !st.scopes[sk].retired
             && |st.scopes[sk].spaces| < MAX_SPATIAL
    requires d.id !in st.scopes[sk].spaces && ManagedDescriptor(d) && CheckInstall(st.sessions, config, sk, d).None?
    ensures DecidePutSpace(st, config, sk, st.scopes[sk].revision + 1, d) == Ok(true)
  {
  }

  lemma SpaceAnswers(config: CoreConfig, b: Book, sk: SessionKey, d: SpaceDescriptor, s': Scope, x': Session)
    requires config.Valid() && NonZeroSession(sk) && sk in b.scopes && !b.scopes[sk].retired
             && |b.scopes[sk].spaces| < MAX_SPATIAL
    requires d.id !in b.scopes[sk].spaces && ManagedDescriptor(d) && CheckInstall(b.sessions, config, sk, d).None?
    requires AddSpace(b.scopes[sk], b.scopes[sk].revision + 1, d) == s' && sk in b.sessions
             && Commands.InstallSpace(b.sessions[sk], d) == x'
    ensures Answers(config, b, sk, PutSpace(b.scopes[sk].revision + 1, d), b.Set(sk, s', x'))
  {
    forall controllers
      ensures Accepts(config, b.With(controllers), b, sk, PutSpace(b.scopes[sk].revision + 1, d), b.Set(sk, s', x')) {
      SpaceAccepted(config, b.With(controllers), sk, d);
    }
  }

  lemma FitsNext(config: CoreConfig, x: Session, part: map<nat, SpaceDescriptor>, d: SpaceDescriptor)
    requires ManagedConfig(config) && Fits(x, part) && d.id !in part && d.id > SYSTEM_SPACES && |part| < MAX_SPATIAL
    ensures d.id !in x.spaces && |x.spaces| < config.maxSpaces
  {
    UnionSize({1, 2}, part.Keys);
  }

  lemma InstalledFits(x: Session, part: map<nat, SpaceDescriptor>, d: SpaceDescriptor)
    requires Fits(x, part)
    ensures Fits(Commands.InstallSpace(x, d), part[d.id := d])
  {
    assert part[d.id := d].Keys == part.Keys + {d.id};
    assert Commands.InstallSpace(x, d).spaces.Keys == x.spaces.Keys + {d.id};
  }

  lemma Passes(config: CoreConfig, ss: Sessions, sk: SessionKey, part: map<nat, SpaceDescriptor>, d: SpaceDescriptor)
    requires ManagedConfig(config) && NonZeroSession(sk) && sk in ss && Fits(ss[sk], part)
    requires d.id !in part && |part| < MAX_SPATIAL && ManagedDescriptor(d)
    ensures CheckInstall(ss, config, sk, d).None?
  {
    FitsNext(config, ss[sk], part, d);
    InstallFits(config, ss, sk, d);
  }

  /** One more space in a live scope. */
  lemma Growing(config: CoreConfig, b: Book, sk: SessionKey, d: SpaceDescriptor, s': Scope, x': Session)
    requires ManagedConfig(config) && NonZeroSession(sk) && sk in b.scopes && sk in b.sessions
             && Fits(b.sessions[sk], b.scopes[sk].spaces)
    requires !b.scopes[sk].retired && |b.scopes[sk].spaces| < MAX_SPATIAL && d.id !in b.scopes[sk].spaces
             && ManagedDescriptor(d)
    requires AddSpace(b.scopes[sk], b.scopes[sk].revision + 1, d) == s'
             && Commands.InstallSpace(b.sessions[sk], d) == x'
    ensures Answers(config, b, sk, PutSpace(b.scopes[sk].revision + 1, d), b.Set(sk, s', x'))
  {
    Passes(config, b.sessions, sk, b.scopes[sk].spaces, d);
    SpaceAnswers(config, b, sk, d, s', x');
  }

  lemma GrowingAt(config: CoreConfig, b: Book, sk: SessionKey, s1: Scope, x: Session, d: SpaceDescriptor,
                  s2: Scope, x': Session)
    requires ManagedConfig(config) && NonZeroSession(sk) && !s1.retired
             && |s1.spaces| < MAX_SPATIAL && d.id !in s1.spaces
    requires ManagedDescriptor(d) && Fits(x, s1.spaces) && s2 == AddSpace(s1, s1.revision + 1, d)
             && x' == Commands.InstallSpace(x, d)
    ensures Answers(config, b.Set(sk, s1, x), sk, PutSpace(s1.revision + 1, d), b.Set(sk, s2, x'))
  {
    SetAgain(b, sk, s1, x, s2, x');
    Growing(config, b.Set(sk, s1, x), sk, d, s2, x');
  }

  /** The scope before and after its next space. */
  lemma AddedSpace(s: Scope, first: nat, ids: seq<nat>, id: nat) returns (s1: Scope, s2: Scope)
    requires id in s.spaces && id !in ids && s.spaces[id].id == id
    ensures s1 == Partly(s, first, ids) && s2 == Partly(s, first, ids + [id])
    ensures s2 == AddSpace(s1, s1.revision + 1, s.spaces[id]) && s1.revision == first + |ids|
    ensures !s1.retired && |s1.spaces| < |s.spaces| && id !in s1.spaces
  {
    s1, s2 := Partly(s, first, ids), Partly(s, first, ids + [id]);
    PartSize(s.spaces, ids, id);
  }

  lemma FitsAdded(x: Session, s1: Scope, revision: nat, d: SpaceDescriptor)
    requires Fits(x, s1.spaces)
    ensures Fits(Commands.InstallSpace(x, d), AddSpace(s1, revision, d).spaces)
  {
    InstalledFits(x, s1.spaces, d);
  }

  lemma SetAgain(b: Book, sk: SessionKey, s1: Scope, x1: Session, s2: Scope, x2: Session)
    ensures b.Set(sk, s1, x1).Set(sk, s2, x2) == b.Set(sk, s2, x2)
  {
    assert b.scopes[sk := s1][sk := s2] == b.scopes[sk := s2];
    assert b.sessions[sk := x1][sk := x2] == b.sessions[sk := x2];
  }

  lemma GrowsTo(config: CoreConfig, b: Book, sk: SessionKey, s1: Scope, x: Session, d: SpaceDescriptor, s2: Scope)
    returns (x': Session)
    requires ManagedConfig(config) && NonZeroSession(sk) && !s1.retired
             && |s1.spaces| < MAX_SPATIAL && d.id !in s1.spaces
    requires ManagedDescriptor(d) && Fits(x, s1.spaces) && s2 == AddSpace(s1, s1.revision + 1, d)
    ensures Answers(config, b.Set(sk, s1, x), sk, PutSpace(s1.revision + 1, d), b.Set(sk, s2, x'))
            && Fits(x', s2.spaces)
  {
    FitsAdded(x, s1, s1.revision + 1, d);
    x' := Commands.InstallSpace(x, d);
    GrowingAt(config, b, sk, s1, x, d, s2, x');
  }

  /** Distinct ids of managed spaces of the scope. */
  ghost predicate Listed(s: Scope, ids: seq<nat>) {
    && (forall i | 0 <= i < |ids| ::
        ids[i] in s.spaces && s.spaces[ids[i]].id == ids[i] && ManagedDescriptor(s.spaces[ids[i]]))
    && (forall i, j | 0 <= i < j < |ids| :: ids[i] != ids[j])
  }

  lemma ListedInit(s: Scope, ids: seq<nat>) returns (init: seq<nat>, id: nat)
    requires Listed(s, ids) && ids != []
    ensures ids == init + [id] && Listed(s, init) && id in s.spaces && id !in init && s.spaces[id].id == id
            && ManagedDescriptor(s.spaces[id])
  {
    init, id := ids[..|ids| - 1], ids[|ids| - 1];
  }

  lemma Created(config: CoreConfig, b: Book, sk: SessionKey, s: Scope, first: nat) returns (x: Session)
    requires ValidUpdate(config, sk, first, s.ccu) && TickOk(s.tick) && IsVerifier(s.verifier)
             && RoomFor(b, config, sk, s.verifier)
    ensures Answers(config, b, sk, Put(first, s.ccu, s.tick, s.verifier), b.Set(sk, Partly(s, first, []), x))
            && Fits(x, Partly(s, first, []).spaces)
  {
    assert RestrictIds(s.spaces, []) == map[];
    x := NewManagedSession(s.tick);
    SystemKeys(s.tick);
    PutAnswers(config, b, sk, first, s.ccu, s.tick, s.verifier, Partly(s, first, []), x);
  }

  /** What every request for the scope takes for granted. */
  ghost predicate Sane(config: CoreConfig, sk: SessionKey, s: Scope) {
    ValidUpdate(config, sk, s.revision, s.ccu) && TickOk(s.tick) && IsVerifier(s.verifier) && |s.spaces| <= MAX_SPATIAL
  }

  /** A put and one request per space. */
  lemma {:induction false} Grows(config: CoreConfig, b0: Book, b: Book, sk: SessionKey, s: Scope,
                                 first: nat, ids: seq<nat>)
    returns (x: Session)
    requires Leads(config, b0, b) && ManagedConfig(config) && RoomFor(b, config, sk, s.verifier) && Listed(s, ids)
    requires Sane(config, sk, s) && first > 0
    ensures Leads(config, b0, b.Set(sk, Partly(s, first, ids), x)) && Fits(x, Partly(s, first, ids).spaces)
    decreases |ids|
  {
    if ids == [] {
      x := Created(config, b, sk, s, first);
      LeadsNext(config, b0, b, sk, Put(first, s.ccu, s.tick, s.verifier), b.Set(sk, Partly(s, first, []), x));
    } else {
      var init, id := ListedInit(s, ids);
      var x1 := Grows(config, b0, b, sk, s, first, init);
      var s1, s2 := AddedSpace(s, first, init, id);
      x := GrowsTo(config, b, sk, s1, x1, s.spaces[id], s2);
      LeadsNext(config, b0, b.Set(sk, s1, x1), sk, PutSpace(s1.revision + 1, s.spaces[id]), b.Set(sk, s2, x));
    }
  }

  lemma PatchAnswers(config: CoreConfig, b: Book, sk: SessionKey, revision: nat, ccu: nat, tick: Option<nat>,
                     s': Scope, x': Session)
    requires ValidUpdate(config, sk, revision, ccu) && TickOk(tick) && sk in b.scopes && sk in b.sessions
    requires !b.scopes[sk].retired && !b.scopes[sk].last.MigrationBaseline? && b.scopes[sk].revision < revision
    requires s' == PatchScope(b.scopes[sk], revision, ccu, tick)
             && x' == b.sessions[sk].(rateLimit := Configured(s'.tick))
    ensures Answers(config, b, sk, Patch(revision, ccu, tick), b.Set(sk, s', x'))
  {
  }

  lemma Tuned(config: CoreConfig, b: Book, sk: SessionKey, s: Scope, ids: seq<nat>, x: Session) returns (x': Session)
    requires Sane(config, sk, s) && s.last.Configuration? && MutationOk(s, false)
    requires |ids| == |s.spaces| && RestrictIds(s.spaces, ids) == s.spaces
    ensures Answers(config, b.Set(sk, Partly(s, 1, ids), x), sk, Patch(s.revision, s.ccu, s.last.tick),
                    b.Set(sk, s.(retired := false), x'))
  {
    var s1, s2 := Partly(s, 1, ids), s.(retired := false);
    x' := x.(rateLimit := Configured(s.tick));
    assert PatchScope(s1, s.revision, s.ccu, s.last.tick) == s2;
    SetAgain(b, sk, s1, x, s2, x');
    PatchAnswers(config, b.Set(sk, s1, x), sk, s.revision, s.ccu, s.last.tick, s2, x');
  }

  ghost predicate Lists(spaces: map<nat, SpaceDescriptor>, ids: seq<nat>) {
    && (forall i | 0 <= i < |ids| :: ids[i] in spaces) && (forall i, j | 0 <= i < j < |ids| :: ids[i] != ids[j])
    && (forall id | id in spaces :: id in ids)
  }

  lemma ListsLast(spaces: map<nat, SpaceDescriptor>, first: seq<nat>, last: nat)
    requires last in spaces && Lists(spaces - {last}, first)
    ensures Lists(spaces, first + [last])
  {
    var ids := first + [last];
    forall id | id in spaces ensures id in ids { assert id == last || id in spaces - {last}; }
    assert forall i | 0 <= i < |first| :: first[i] in spaces - {last};
  }

  /** All ids, with `last` at the end. */
  lemma IdsEndingIn(spaces: map<nat, SpaceDescriptor>, last: nat) returns (ids: seq<nat>)
    requires last in spaces
    ensures Lists(spaces, ids) && |ids| == |spaces| && ids[|ids| - 1] == last
  {
    var others := spaces - {last};
    assert others.Keys == spaces.Keys - {last};
    var first := SortedIds(others);
    ListsLast(spaces, first, last);
    ids := first + [last];
  }

  lemma RestrictsToAll(spaces: map<nat, SpaceDescriptor>, ids: seq<nat>)
    requires Lists(spaces, ids)
    ensures RestrictIds(spaces, ids) == spaces
  {
  }

  lemma ListedAll(s: Scope, ids: seq<nat>)
    requires SpacesValid(s.spaces) && Lists(s.spaces, ids)
    ensures Listed(s, ids)
  {
  }

  /** The scope as it is while it lives. */
  lemma LiveScopeMade(config: CoreConfig, b0: Book, b: Book, sk: SessionKey, s: Scope) returns (x: Session)
    requires Leads(config, b0, b) && ManagedConfig(config) && RoomFor(b, config, sk, s.verifier)
    requires Sane(config, sk, s) && SpacesValid(s.spaces) && s.revision > |s.spaces| && MutationOk(s, false)
    ensures Leads(config, b0, b.Set(sk, s.(retired := false), x))
  {
    match s.last
    case ProvisionMutation =>
      x := Grows(config, b0, b, sk, s, s.revision, []);
      assert RestrictIds(s.spaces, []) == s.spaces;
      assert Partly(s, s.revision, []) == s.(retired := false);
    case SpaceMutation(id) =>
      var ids := IdsOf(s);
      x := SpacedScopeMade(config, b0, b, sk, s, ids);
    case Configuration(_, _) =>
      x := PatchedScopeMade(config, b0, b, sk, s);
  }

  /** All ids of the scope, the newest space at the end. */
  lemma IdsOf(s: Scope) returns (ids: seq<nat>)
    requires SpacesValid(s.spaces) && s.last.SpaceMutation? && s.last.space in s.spaces
    ensures Listed(s, ids) && |ids| == |s.spaces| && RestrictIds(s.spaces, ids) == s.spaces && ids != []
            && ids[|ids| - 1] == s.last.space
  {
    ids := IdsEndingIn(s.spaces, s.last.space);
    RestrictsToAll(s.spaces, ids);
    ListedAll(s, ids);
  }

  lemma SpacedScopeMade(config: CoreConfig, b0: Book, b: Book, sk: SessionKey, s: Scope, ids: seq<nat>)
    returns (x: Session)
    requires Leads(config, b0, b) && ManagedConfig(config) && RoomFor(b, config, sk, s.verifier) && Sane(config, sk, s)
    requires Listed(s, ids) && RestrictIds(s.spaces, ids) == s.spaces && ids != []
             && s.last == SpaceMutation(ids[|ids| - 1])
    requires s.revision > |ids|
    ensures Leads(config, b0, b.Set(sk, s.(retired := false), x))
  {
    x := Grows(config, b0, b, sk, s, s.revision - |ids|, ids);
    WholeScope(s, ids);
  }

  lemma WholeScope(s: Scope, ids: seq<nat>)
    requires RestrictIds(s.spaces, ids) == s.spaces && ids != []
             && s.last == SpaceMutation(ids[|ids| - 1]) && |ids| <= s.revision
    ensures Partly(s, s.revision - |ids|, ids) == s.(retired := false)
  {
  }

  lemma PatchedScopeMade(config: CoreConfig, b0: Book, b: Book, sk: SessionKey, s: Scope) returns (x: Session)
    requires Leads(config, b0, b) && ManagedConfig(config) && RoomFor(b, config, sk, s.verifier)
    requires Sane(config, sk, s) && SpacesValid(s.spaces) && MutationOk(s, false) && s.last.Configuration?
    ensures Leads(config, b0, b.Set(sk, s.(retired := false), x))
  {
    var ids := SortedIds(s.spaces);
    ListedAll(s, ids);
    RestrictsToAll(s.spaces, ids);
    var x1 := Grows(config, b0, b, sk, s, 1, ids);
    x := Tuned(config, b, sk, s, ids, x1);
    LeadsNext(config, b0, b.Set(sk, Partly(s, 1, ids), x1), sk, Patch(s.revision, s.ccu, s.last.tick),
              b.Set(sk, s.(retired := false), x));
  }

  lemma Retires(config: CoreConfig, b: Book, sk: SessionKey, s: Scope, x: Session)
    requires ValidUpdate(config, sk, s.revision, s.ccu) && s.retired && sk !in b.sessions
    ensures Answers(config, b.Set(sk, s.(retired := false), x), sk, Delete(s.revision), b.(scopes := b.scopes[sk := s]))
  {
    var live := s.(retired := false);
    assert live.(retired := true) == s;
    assert b.scopes[sk := live][sk := s] == b.scopes[sk := s];
    assert b.sessions[sk := x] - {sk} == b.sessions;
  }

  /** `b'` is `b` with the scope added, and with some session if it is live. */
  ghost predicate Adds(b: Book, sk: SessionKey, s: Scope, b': Book) {
    && b' == b.(scopes := b.scopes[sk := s], sessions := b'.sessions)
    && if s.retired then b'.sessions == b.sessions
       else sk in b'.sessions && b'.sessions == b.sessions[sk := b'.sessions[sk]]
  }

  /** Every scope within the invariant is produced by accepted requests. */
  lemma ScopeMade(config: CoreConfig, b0: Book, b: Book, sk: SessionKey, s: Scope) returns (b': Book)
    requires Leads(config, b0, b) && ManagedConfig(config) && RoomFor(b, config, sk, s.verifier) && sk !in b.sessions
    requires ScopeOk(sk, s, b.baseline, config)
    ensures Leads(config, b0, b') && Adds(b, sk, s, b')
  {
    var x := LiveScopeMade(config, b0, b, sk, s);
    if s.retired {
      Retires(config, b, sk, s, x);
      b' := b.(scopes := b.scopes[sk := s]);
      LeadsNext(config, b0, b.Set(sk, s.(retired := false), x), sk, Delete(s.revision), b');
    } else {
      assert s.(retired := false) == s;
      b' := b.Set(sk, s, x);
    }
  }

  // ------------------------------------------------------------------ all scopes

  /** What a restore checks of the scopes it read. */
  ghost predicate Restorable(scopes: Scopes, baseline: Option<Baseline>, admin: Verifier, config: CoreConfig) {
    && ScopesOk(scopes, baseline, config) && VerifiersOk(scopes, admin) && |scopes| <= MAX_HISTORY
    && |LiveKeys(scopes)| <= MAX_SCOPES && |LiveKeys(scopes)| <= config.maxSessions
  }

  ghost predicate NoneHistorical(scopes: Scopes, baseline: Option<Baseline>)
  {
    forall sk | sk in scopes :: !Historical(baseline, sk)
  }

  ghost function Only(scopes: Scopes, keys: set<SessionKey>): Scopes
  {
    map sk | sk in scopes && sk in keys :: scopes[sk]
  }

  function Blank(admin: Verifier, baseline: Option<Baseline>): Book { Book(admin, baseline, map[], map[]) }

  /** The scopes in `keys` exist, and the live ones have their sessions. */
  ghost predicate Holds(b: Book, scopes: Scopes, keys: set<SessionKey>) {
    b.scopes == Only(scopes, keys) && b.sessions.Keys == LiveKeys(b.scopes)
  }

  lemma NextFits(scopes: Scopes, keys: set<SessionKey>, sk: SessionKey)
    requires keys <= scopes.Keys && sk in keys
    requires scopes[sk].retired ==> forall k | k in keys :: scopes[k].retired
    ensures var part := Only(scopes, keys - {sk});
            && sk !in part && |part| < |scopes| && Only(scopes, keys) == part[sk := scopes[sk]]
            && (if scopes[sk].retired then LiveKeys(part) == {} else |LiveKeys(part)| < |LiveKeys(scopes)|)
  {
    var part := Only(scopes, keys - {sk});
    Cache.SubsetSize(part.Keys, scopes.Keys);
    Cache.SubsetSize(LiveKeys(part), LiveKeys(scopes));
    assert scopes[sk].retired || (sk in LiveKeys(scopes) && sk !in LiveKeys(part));
  }

  lemma FreshToken(scopes: Scopes, admin: Verifier, keys: set<SessionKey>, sk: SessionKey)
    requires VerifiersOk(scopes, admin) && sk in scopes && sk !in keys
    ensures scopes[sk].verifier != admin && !TokenTaken(Only(scopes, keys), scopes[sk].verifier)
  {
  }

  lemma HoldsNext(b: Book, b': Book, scopes: Scopes, keys: set<SessionKey>, sk: SessionKey)
    requires sk in scopes && Holds(b, scopes, keys - {sk})
             && Only(scopes, keys) == b.scopes[sk := scopes[sk]] && sk !in b.scopes
    requires Adds(b, sk, scopes[sk], b')
    ensures Holds(b', scopes, keys)
  {
    LiveKeysSet(b.scopes, sk, scopes[sk]);
    assert sk !in LiveKeys(b.scopes);
  }

  lemma Next(config: CoreConfig, b0: Book, b: Book, scopes: Scopes, keys: set<SessionKey>, sk: SessionKey)
    returns (b': Book)
    requires Leads(config, b0, b) && ManagedConfig(config) && Restorable(scopes, b.baseline, b.admin, config)
    requires keys <= scopes.Keys && sk in keys && Holds(b, scopes, keys - {sk}) && !Historical(b.baseline, sk)
    requires scopes[sk].retired ==> forall k | k in keys :: scopes[k].retired
    ensures Leads(config, b0, b') && Holds(b', scopes, keys) && b'.admin == b.admin && b'.baseline == b.baseline
  {
    ScopeAt(scopes, b.baseline, config, sk);
    NextFits(scopes, keys, sk);
    FreshToken(scopes, b.admin, keys - {sk}, sk);
    HasRoom(config, b, sk, scopes[sk], LiveKeys(scopes));
    b' := ScopeMade(config, b0, b, sk, scopes[sk]);
    HoldsNext(b, b', scopes, keys, sk);
  }

  lemma HasRoom(config: CoreConfig, b: Book, sk: SessionKey, s: Scope, live: set<SessionKey>)
    requires config.Valid() && !Historical(b.baseline, sk) && !OneSided(b.baseline, sk) && sk !in b.scopes
             && |b.scopes| < MAX_HISTORY
    requires s.verifier != b.admin && !TokenTaken(b.scopes, s.verifier) && b.sessions.Keys == LiveKeys(b.scopes)
    requires |live| <= MAX_SCOPES && |live| <= config.maxSessions
    requires if s.retired then LiveKeys(b.scopes) == {} else |LiveKeys(b.scopes)| < |live|
    ensures RoomFor(b, config, sk, s.verifier) && sk !in b.sessions
  {
    assert |b.sessions| == |b.sessions.Keys|;
  }

  /** Retired scopes first, so that they never take the room of a live one. */
  lemma {:induction false} MadeUpTo(config: CoreConfig, scopes: Scopes, baseline: Option<Baseline>,
                                    admin: Verifier, keys: set<SessionKey>)
    returns (b: Book)
    requires ManagedConfig(config) && Restorable(scopes, baseline, admin, config) && NoneHistorical(scopes, baseline)
    requires keys <= scopes.Keys && ((forall k | k in keys :: scopes[k].retired)
                                     || (forall k | k in scopes && scopes[k].retired :: k in keys))
    ensures Leads(config, Blank(admin, baseline), b) && Holds(b, scopes, keys) && b.admin == admin
            && b.baseline == baseline
    decreases |keys|
  {
    b := Blank(admin, baseline);
    LeadsNowhere(config, b);
    if keys != {} {
      var sk :| sk in keys && ((exists k :: k in keys && !scopes[k].retired) ==> !scopes[sk].retired);
      var b1 := MadeUpTo(config, scopes, baseline, admin, keys - {sk});
      b := Next(config, b, b1, scopes, keys, sk);
    }
  }

  // ------------------------------------------------------------------ requests keep the checks

  /** What every sequence of requests keeps. */
  ghost predicate BookOk(config: CoreConfig, b: Book) {
    && ScopesOk(b.scopes, b.baseline, config) && VerifiersOk(b.scopes, b.admin) && NoneHistorical(b.scopes, b.baseline)
    && b.sessions.Keys == LiveKeys(b.scopes)
    && |b.sessions| <= MAX_SCOPES && |b.sessions| <= config.maxSessions && |b.scopes| <= MAX_HISTORY
  }

  lemma BookIsRestorable(config: CoreConfig, b: Book)
    requires BookOk(config, b)
    ensures Restorable(b.scopes, b.baseline, b.admin, config)
  {
    assert |b.sessions| == |b.sessions.Keys|;
  }

  lemma PutKeeps(config: CoreConfig, b: Book, sk: SessionKey, r: Request, b': Book)
    requires BookOk(config, b) && r.Put? && Accepts(config, b.With(map[]), b, sk, r, b')
    ensures BookOk(config, b') && b'.admin == b.admin && b'.baseline == b.baseline
  {
    var s := PutScope(r.verifier, r.revision, r.ccu, r.tick);
    PutScopeOk(config, b.With(map[]), sk, r.revision, r.ccu, r.tick, r.verifier);
    ScopeReplaced(b.scopes, b.baseline, config, sk, s);
    VerifierAdded(b.scopes, b.admin, sk, s);
    LiveKeysSet(b.scopes, sk, s);
    PutSize(b.scopes, sk, s);
    PutSize(b.sessions, sk, NewManagedSession(r.tick));
  }

  lemma PutScopeOk(config: CoreConfig, st: Managed, sk: SessionKey, revision: nat, ccu: nat,
                   tick: Option<nat>, v: Verifier)
    requires IsVerifier(v) && DecidePut(st, config, sk, revision, ccu, tick, Some(v)) == Ok(true)
    ensures ScopeOk(sk, PutScope(v, revision, ccu, tick), st.baseline, config) && !Historical(st.baseline, sk)
    ensures sk !in st.scopes && v != st.admin && !TokenTaken(st.scopes, v)
    ensures |st.scopes| < MAX_HISTORY && |st.sessions| < MAX_SCOPES && |st.sessions| != config.maxSessions
  {
  }

  lemma RewriteKeeps(config: CoreConfig, b: Book, sk: SessionKey, s: Scope, x: Session)
    requires BookOk(config, b) && sk in b.scopes && !b.scopes[sk].retired && !s.retired
             && s.verifier == b.scopes[sk].verifier
    requires ScopeOk(sk, s, b.baseline, config)
    ensures BookOk(config, b.Set(sk, s, x))
  {
    ScopeReplaced(b.scopes, b.baseline, config, sk, s);
    VerifierKept(b.scopes, b.admin, sk, s);
    LiveKeysSet(b.scopes, sk, s);
    PutSize(b.scopes, sk, s);
    assert sk in LiveKeys(b.scopes);
    PutSize(b.sessions, sk, x);
    assert LiveKeys(b.scopes) + {sk} == LiveKeys(b.scopes);
  }

  lemma PatchKeeps(config: CoreConfig, b: Book, sk: SessionKey, r: Request, b': Book)
    requires BookOk(config, b) && r.Patch? && Accepts(config, b.With(map[]), b, sk, r, b')
    ensures BookOk(config, b') && b'.admin == b.admin && b'.baseline == b.baseline
  {
    ScopeAt(b.scopes, b.baseline, config, sk);
    PatchScopeOk(b.With(map[]), config, sk, r.revision, r.ccu, r.tick);
    var s := PatchScope(b.scopes[sk], r.revision, r.ccu, r.tick);
    RewriteKeeps(config, b, sk, s, b.sessions[sk].(rateLimit := Configured(s.tick)));
  }

  lemma SpaceKeeps(config: CoreConfig, b: Book, sk: SessionKey, r: Request, b': Book)
    requires BookOk(config, b) && r.PutSpace? && Accepts(config, b.With(map[]), b, sk, r, b')
    ensures BookOk(config, b') && b'.admin == b.admin && b'.baseline == b.baseline
  {
    ScopeAt(b.scopes, b.baseline, config, sk);
    AddSpaceOk(b.With(map[]), config, sk, r.revision, r.descriptor);
    RewriteKeeps(config, b, sk, AddSpace(b.scopes[sk], r.revision, r.descriptor),
                 Commands.InstallSpace(b.sessions[sk], r.descriptor));
  }

  lemma DeleteKeeps(config: CoreConfig, b: Book, sk: SessionKey, r: Request, b': Book)
    requires BookOk(config, b) && r.Delete? && Accepts(config, b.With(map[]), b, sk, r, b')
    ensures BookOk(config, b') && b'.admin == b.admin && b'.baseline == b.baseline
  {
    var s := b.scopes[sk].(retired := true);
    ScopeAt(b.scopes, b.baseline, config, sk);
    RetiredOk(sk, b.scopes[sk], b.baseline, config);
    ScopeReplaced(b.scopes, b.baseline, config, sk, s);
    VerifierKept(b.scopes, b.admin, sk, s);
    LiveKeysSet(b.scopes, sk, s);
    PutSize(b.scopes, sk, s);
    DropSize(b.sessions, sk);
  }

  lemma AnswerKeeps(config: CoreConfig, b: Book, sk: SessionKey, r: Request, b': Book)
    requires BookOk(config, b) && Answers(config, b, sk, r, b')
    ensures BookOk(config, b') && b'.admin == b.admin && b'.baseline == b.baseline
  {
    var st := b.With(map[]);
    match r {
      case Put(_, _, _, _) => PutKeeps(config, b, sk, r, b');
      case Patch(_, _, _) => PatchKeeps(config, b, sk, r, b');
      case PutSpace(_, _) => SpaceKeeps(config, b, sk, r, b');
      case Delete(_) => DeleteKeeps(config, b, sk, r, b');
    }
  }

  lemma {:induction false} RunKeeps(config: CoreConfig, bs: seq<Book>, sks: seq<SessionKey>, rs: seq<Request>, n: nat)
    requires RequestRun(config, bs, sks, rs) && BookOk(config, bs[0]) && n <= |rs|
    ensures BookOk(config, bs[n]) && bs[n].admin == bs[0].admin && bs[n].baseline == bs[0].baseline
  {
    if n > 0 {
      RunKeeps(config, bs, sks, rs, n - 1);
      var i := n - 1;
      assert Answers(config, bs[i], sks[i], rs[i], bs[i + 1]);
      AnswerKeeps(config, bs[i], sks[i], rs[i], bs[i + 1]);
    }
  }

  lemma LeadsKeeps(config: CoreConfig, admin: Verifier, baseline: Option<Baseline>, b: Book)
    requires Leads(config, Blank(admin, baseline), b)
    ensures BookOk(config, b) && b.admin == admin && b.baseline == baseline
  {
    var bs, sks, rs :| RequestRun(config, bs, sks, rs) && bs[0] == Blank(admin, baseline) && bs[|rs|] == b;
    assert LiveKeys(map[]) == {};
    RunKeeps(config, bs, sks, rs, |rs|);
  }

  // ------------------------------------------------------------------ exactly the reachable scopes

  lemma RestorableReached(scopes: Scopes, baseline: Option<Baseline>, admin: Verifier, config: CoreConfig)
    returns (b: Book)
    requires ManagedConfig(config) && Restorable(scopes, baseline, admin, config) && NoneHistorical(scopes, baseline)
    ensures Leads(config, Blank(admin, baseline), b) && b.scopes == scopes
  {
    b := MadeUpTo(config, scopes, baseline, admin, scopes.Keys);
    assert Only(scopes, scopes.Keys) == scopes;
  }

  lemma RestorableExported(scopes: Scopes, baseline: Option<Baseline>, admin: Verifier, config: CoreConfig)
    returns (cp: Checkpoint)
    requires Restorable(scopes, baseline, admin, config) && (baseline.Some? ==> baseline.value.Valid())
    ensures cp.baseline == baseline && DecideRestore(cp, admin, config) == Ok(scopes)
  {
    ExportAccepted(scopes, baseline, admin, config);
    cp := Export(scopes, baseline);
  }

  /** With no scope from below a migration boundary, a restore accepts a set of scopes exactly when some
      sequence of accepted requests to a new core produces it. */
  lemma RestoresExactlyTheReachable(scopes: Scopes, baseline: Option<Baseline>, admin: Verifier, config: CoreConfig)
    requires ManagedConfig(config) && (baseline.Some? ==> baseline.value.Valid()) && NoneHistorical(scopes, baseline)
    ensures (exists cp: Checkpoint :: cp.baseline == baseline && DecideRestore(cp, admin, config) == Ok(scopes))
       <==> (exists b :: Leads(config, Blank(admin, baseline), b) && b.scopes == scopes)
  {
    if cp: Checkpoint :| cp.baseline == baseline && DecideRestore(cp, admin, config) == Ok(scopes) {
      RestoreSound(cp, admin, config);
      var b := RestorableReached(scopes, baseline, admin, config);
    }
    if b :| Leads(config, Blank(admin, baseline), b) && b.scopes == scopes {
      LeadsKeeps(config, admin, baseline, b);
      BookIsRestorable(config, b);
      var cp := RestorableExported(scopes, baseline, admin, config);
    }
  }
}
