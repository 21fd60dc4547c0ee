/** cluster/operations.py: what admitting a node does to the roles, and that a restart
    changes nothing about who can be admitted. */
module InviteRestart {
  import opened Wrappers
  import opened Dicts
  import opened ClusterModels
  import opened Roles
  import opened RoleInvariant
  import opened RoleEffects
  import opened ClusterState
  import opened ClusterCodec
  import opened ClusterInvites

  predicate AllBound(assignments: seq<RoleAssignment>) {
    forall a | a in assignments :: IsBound(a)
  }

  lemma {:induction false} FilterAll<T>(s: seq<T>, p: T -> bool)
    requires forall x | x in s :: p(x)
    ensures Filter(s, p) == s
  {
    if s != [] { FilterAll(s[1..], p); }
  }

  lemma {:induction false} FilterSame<T>(s: seq<T>, p: T -> bool, q: T -> bool)
    requires forall x | x in s :: p(x) == q(x)
    ensures Filter(s, p) == Filter(s, q)
  {
    if s != [] { FilterSame(s[1..], p, q); }
  }

  /** Admitting a node makes it a Worker that is not revoked and leaves every other
      assignment, the epoch and the cluster id alone. */
  lemma AdmittedIsWorker(hash: Hash, c: Cluster, step: InviteStep)
    requires Digests(hash) && Admits(hash, c, step) && Good(RolesAt(c.authority)) && AllBound(c.authority.assignments)
    ensures var a, a' := c.authority, Next(hash, c, step).authority;
            && Good(RolesAt(a')) && AllBound(a'.assignments)
            && var worker := AssignmentFor(a'.assignments, step.target);
            && worker.Some? && worker.value.roles == {Worker} && !worker.value.revoked
            && step.target != c.localId
            && (forall n | n != step.target :: AssignmentFor(a'.assignments, n) == AssignmentFor(a.assignments, n))
            && a'.epoch == a.epoch && a'.clusterId == a.clusterId && a'.promotionEpochs == a.promotionEpochs
  {
    var s := RolesAt(c.authority);
    AssignKeepsGood(s, Some(c.localId), step.target, {Worker});
    AssignGivesRoles(s, Some(c.localId), step.target, {Worker});
    var s' := Assign(s, Some(c.localId), step.target, {Worker}).value;
    AssignKeepsBound(s, Some(c.localId), step.target);
    FilterAll(s'.assignments, IsBound);
    assert RolesAt(Next(hash, c, step).authority) == s';
  }

  lemma AssignKeepsBound(s: RoleState, actor: Option<NodeId>, target: NodeId)
    requires AllBound(s.assignments) && Assign(s, actor, target, {Worker}).Ok?
    ensures AllBound(Assign(s, actor, target, {Worker}).value.assignments)
  {
  }

  lemma AssignableWorker(c: Cluster, target: NodeId)
    requires ActiveCoordinator(c) && Good(RolesAt(c.authority)) && target != c.localId
    requires var a := AssignmentFor(c.authority.assignments, target); a.Some? ==> !a.value.revoked
    ensures AssignWorker(c, target).Ok?
  {
    AssignKeepsGood(RolesAt(c.authority), Some(c.localId), target, {Worker});
  }

  /** An invite works: created with a fresh token, it admits exactly the node it names,
      until exactly its expiry. */
  lemma InviteWorks(hash: Hash, c: Cluster, token: string, target: NodeId, now: real,
                    node: NodeId, later: real, allowRetry: bool)
    requires Digests(hash) && TablesOk(hash, c.tables) && !IsDigest(token) && hash(token) !in c.tables.used
    requires ActiveCoordinator(c) && Good(RolesAt(c.authority)) && target != c.localId
    requires var a := AssignmentFor(c.authority.assignments, target); a.Some? ==> !a.value.revoked
    ensures CreateInvite(hash, c, token, target, now).Ok?
    ensures var created := CreateInvite(hash, c, token, target, now).value;
            ConsumeInvite(hash, created, token, node, later, allowRetry).result ==
            if node == target && later < now + INVITE_TTL_SECONDS then Ok(NewInvite(hash, c, token, target, now)) else Err(Rejected)
  {
    var created := CreateInvite(hash, c, token, target, now).value;
    FindPut(c.tables.invites, token, NewInvite(hash, c, token, target, now), token);
    FindMeans(c.tables.admissions, hash(token));
    var spent := created.(tables := created.tables.(
      invites := Drop(Drop(created.tables.invites, token), hash(token)), used := created.tables.used + {hash(token)}));
    AssignableWorker(spent, target);
  }

  // ------------------------------------------------------------------
  // Role tables that differ only in active jobs
  // ------------------------------------------------------------------

  predicate JobsAside(a: seq<RoleAssignment>, b: seq<RoleAssignment>) {
    |a| == |b| && forall i | 0 <= i < |a| :: Jobless(a[i]) == Jobless(b[i])
  }

  predicate SameAside(a: Option<RoleAssignment>, b: Option<RoleAssignment>) {
    match (a, b)
    case (None, None) => true
    case (Some(x), Some(y)) => Jobless(x) == Jobless(y)
    case _ => false
  }

  lemma {:induction false} LookupAside(a: seq<RoleAssignment>, b: seq<RoleAssignment>, node: NodeId)
    requires JobsAside(a, b)
    ensures SameAside(AssignmentFor(a, node), AssignmentFor(b, node))
  {
    if a != [] {
      assert Jobless(a[|a| - 1]) == Jobless(b[|a| - 1]);
      LookupAside(a[..|a| - 1], b[..|a| - 1], node);
    }
  }

  lemma ConsistentAside(s: RoleState, b: seq<RoleAssignment>)
    requires JobsAside(s.assignments, b) && Consistent(s)
    ensures Consistent(s.(assignments := b))
  {
    assert forall i | 0 <= i < |b| :: Jobless(b[i]) == Jobless(s.assignments[i]);
  }

  lemma PrunedAside(a: seq<RoleAssignment>, b: seq<RoleAssignment>, grants: seq<CapabilityGrant>)
    requires JobsAside(a, b)
    ensures PrunedGrants(a, grants) == PrunedGrants(b, grants)
  {
    forall g: CapabilityGrant ensures Backed(a, g) == Backed(b, g) {
      LookupAside(a, b, g.subject);
      LookupAside(a, b, g.target);
    }
    FilterSame(grants, (g: CapabilityGrant) => Backed(a, g), (g: CapabilityGrant) => Backed(b, g));
  }

  /** The assignments after `assign` has replaced or appended one. */
  lemma AssignAside(s: RoleState, b: seq<RoleAssignment>, actor: NodeId, target: NodeId)
    requires JobsAside(s.assignments, b) && Assign(s, Some(actor), target, {Worker}).Ok?
    ensures Assign(s.(assignments := b), Some(actor), target, {Worker}).Ok?
  {
    LookupAside(s.assignments, b, actor);
    LookupAside(s.assignments, b, target);
    var before, after := Assign(s, Some(actor), target, {Worker}).value, s.(assignments := b);
    var current := AssignmentFor(b, target);
    var made := MakeAssignment({Worker}, Some(target), current.Some? && current.value.paused, false,
                               current.Some? && current.value.hasActiveJob).value;
    var replaced := Replaced(b, target, made) + if current.None? then [made] else [];
    assert JobsAside(before.assignments, replaced);
    PrunedAside(before.assignments, replaced, s.capabilityGrants);
    ConsistentAside(before, replaced);
  }

  // ------------------------------------------------------------------
  // Invites across a restart
  // ------------------------------------------------------------------

  /** No two invites have the same digest: their tokens were fresh. */
  ghost predicate DistinctHashes(d: Dict<string, Invite>) {
    forall x, y | x in d && y in d && x.1.tokenHash == y.1.tokenHash :: x == y
  }

  /** No other invite has the digest of the presented string. */
  ghost predicate NoCollision(hash: Hash, d: Dict<string, Invite>, token: string) {
    forall item | item in d && item.1.tokenHash == hash(token) :: !IsDigest(token) && (IsDigest(item.0) || item.0 == token)
  }

  /** An open invite with the given digest that is still filed under its token. */
  ghost predicate UnderToken(d: Dict<string, Invite>, digest: string, item: (string, Invite)) {
    item in d && !IsDigest(item.0) && item.1.tokenHash == digest
  }

  lemma FoundIsInvite(hash: Hash, t: Tables, token: string)
    requires Found(hash, t, token).Some?
    ensures exists item :: item in t.invites && Some(item.1) == Found(hash, t, token) && item.0 in {token, hash(token)}
  {
    FindMeans(t.invites, token);
    FindMeans(t.invites, hash(token));
  }

  /** Refiled under their digests, distinct invites keep their order. */
  lemma {:induction false} RefiledMembers(d: Dict<string, Invite>)
    requires DistinctKeys(d) && DistinctHashes(d)
    ensures forall item | item in d :: (item.1.tokenHash, Erased(item.1)) in ByHash(Tokenless(Values(d)))
  {
    if d != [] {
      var before, last := d[..|d| - 1], d[|d| - 1];
      var items := Tokenless(Values(d));
      assert items[..|d| - 1] == Tokenless(Values(before));
      RefiledMembers(before);
      forall item | item in d ensures (item.1.tokenHash, Erased(item.1)) in ByHash(items) {
        PutMember(ByHash(items[..|d| - 1]), items[|d| - 1].tokenHash, items[|d| - 1], (item.1.tokenHash, Erased(item.1)));
        if item != last { assert item in before; }
        assert last in d;
      }
    }
  }

  lemma {:induction false} PutMember<K, V>(d: Dict<K, V>, key: K, value: V, item: (K, V))
    ensures item == (key, value) || (item in d && item.0 != key) ==> item in Put(d, key, value)
  {
    if d != [] && d[0].0 != key {
      PutMember(d[1..], key, value, item);
    }
  }

  /** All keys are digests after a restart. */
  lemma RefiledKeys(hash: Hash, d: Dict<string, Invite>)
    requires Digests(hash) && forall item | item in d :: FiledInvite(hash, item)
    ensures var refiled := ByHash(Tokenless(Values(d)));
            DistinctKeys(refiled) && DistinctHashes(refiled) && forall item | item in refiled :: IsDigest(item.0)
  {
    var refiled := ByHash(Tokenless(Values(d)));
    ByHashMembers(Tokenless(Values(d)));
    forall item | item in refiled ensures IsDigest(item.0) {
      RefiledFrom(d, item);
    }
    forall x, y | x in refiled && y in refiled && x.1.tokenHash == y.1.tokenHash ensures x == y {
      FindItem(refiled, x);
      FindItem(refiled, y);
    }
  }

  /** Every invite is found by its digest after a restart, and nothing else is. */
  lemma KeptByRestart(hash: Hash, c: Cluster, item: (string, Invite))
    requires Digests(hash) && TablesOk(hash, c.tables) && DistinctHashes(c.tables.invites) && Restarted(hash, c).Ok?
    requires item in c.tables.invites
    ensures Find(Restarted(hash, c).value.tables.invites, item.1.tokenHash) == Some(Erased(item.1))
  {
    RestartedTables(hash, c);
    RefiledKeys(hash, c.tables.invites);
    RefiledMembers(c.tables.invites);
    FindItem(Restarted(hash, c).value.tables.invites, (item.1.tokenHash, Erased(item.1)));
  }

  lemma NotMadeByRestart(hash: Hash, c: Cluster, key: string)
    requires Digests(hash) && TablesOk(hash, c.tables) && Restarted(hash, c).Ok?
    requires Find(Restarted(hash, c).value.tables.invites, key).Some?
    ensures IsDigest(key) && exists item :: item in c.tables.invites && item.1.tokenHash == key
  {
    RestartedTables(hash, c);
    RefiledKeys(hash, c.tables.invites);
    var refiled := Restarted(hash, c).value.tables.invites;
    FindMeans(refiled, key);
    RefiledFrom(c.tables.invites, (key, Find(refiled, key).value));
  }

  /** After a restart a presented string unlocks the same invite, without its token,
      unless it is the digest of an invite that was still filed under its token. */
  lemma FoundAfterRestart(hash: Hash, c: Cluster, token: string)
    requires Digests(hash) && TablesOk(hash, c.tables) && DistinctHashes(c.tables.invites)
    requires NoCollision(hash, c.tables.invites, token) && Restarted(hash, c).Ok?
    requires forall item | item in c.tables.invites :: !UnderToken(c.tables.invites, token, item)
    ensures var before, after := Found(hash, c.tables, token), Found(hash, Restarted(hash, c).value.tables, token);
            after == if before.Some? then Some(Erased(before.value)) else None
  {
    var d, d' := c.tables.invites, Restarted(hash, c).value.tables.invites;
    if Find(d', token).Some? { NotMadeByRestart(hash, c, token); }
    if Found(hash, c.tables, token).Some? {
      FoundIsInvite(hash, c.tables, token);
      var item :| item in d && Some(item.1) == Found(hash, c.tables, token) && item.0 in {token, hash(token)};
      KeptByRestart(hash, c, item);
    } else {
      NothingNewFound(hash, c, token);
    }
  }

  /** A key under which a restart files an invite was its key already, or the digest of its key. */
  lemma KeyBeforeRestart(hash: Hash, c: Cluster, key: string)
    requires Digests(hash) && TablesOk(hash, c.tables) && Restarted(hash, c).Ok?
    requires Find(Restarted(hash, c).value.tables.invites, key).Some? && Find(c.tables.invites, key).None?
    ensures exists item :: UnderToken(c.tables.invites, key, item) && Find(c.tables.invites, item.0).Some?
  {
    NotMadeByRestart(hash, c, key);
    var item :| item in c.tables.invites && item.1.tokenHash == key;
    FindItem(c.tables.invites, item);
    assert FiledInvite(hash, item);
    assert UnderToken(c.tables.invites, key, item);
  }

  lemma NothingNewFound(hash: Hash, c: Cluster, token: string)
    requires Digests(hash) && TablesOk(hash, c.tables) && NoCollision(hash, c.tables.invites, token) && Restarted(hash, c).Ok?
    requires forall item | item in c.tables.invites :: !UnderToken(c.tables.invites, token, item)
    requires Found(hash, c.tables, token).None?
    ensures Found(hash, Restarted(hash, c).value.tables, token).None?
  {
    var d' := Restarted(hash, c).value.tables.invites;
    if Find(d', token).Some? {
      KeyBeforeRestart(hash, c, token);
    } else if Find(d', hash(token)).Some? {
      KeyBeforeRestart(hash, c, hash(token));
    }
  }

  /** The digest of an invite that is filed under its token unlocks nothing, but unlocks
      the invite after a restart. */
  lemma DigestFoundAfterRestart(hash: Hash, c: Cluster, digest: string, item: (string, Invite))
    requires Digests(hash) && TablesOk(hash, c.tables) && DistinctHashes(c.tables.invites)
    requires NoCollision(hash, c.tables.invites, digest) && Restarted(hash, c).Ok?
    requires UnderToken(c.tables.invites, digest, item)
    ensures Found(hash, c.tables, digest).None?
    ensures Found(hash, Restarted(hash, c).value.tables, digest) == Some(Erased(item.1))
  {
    var d := c.tables.invites;
    assert FiledInvite(hash, item);
    KeptByRestart(hash, c, item);
    FindMeans(d, digest);
    FindMeans(d, hash(digest));
  }

  /** A cluster as its own objects build it: bound assignments of consistent roles, the
      local node among them. */
  ghost predicate WellBuilt(c: Cluster) {
    && Consistent(RolesAt(c.authority)) && AllBound(c.authority.assignments)
    && AssignmentFor(c.authority.assignments, c.localId).Some? && c.authority.clusterId != ""
    && EpochsCount(Values(c.tables.invites)) && EpochsCount(Values(c.tables.admissions))
  }

  /** A well-built cluster can always be restarted; only active jobs and tokens are lost. */
  lemma RestartWorks(hash: Hash, c: Cluster)
    requires Digests(hash) && InvitesOk(hash, c.tables) && WellBuilt(c)
    ensures Restarted(hash, c).Ok?
    ensures var a, c' := c.authority, Restarted(hash, c).value;
            && c'.localId == c.localId && JobsAside(a.assignments, c'.authority.assignments)
            && c'.authority == a.(assignments := c'.authority.assignments)
  {
    var s := Aggregate(c);
    MarkersAreEncodable(c);
    StoredAside(c.authority.assignments);
    LookupAside(c.authority.assignments, Stored(c.authority.assignments), c.localId);
  }

  lemma MarkersAreEncodable(c: Cluster)
    requires WellBuilt(c) && forall d | d in c.tables.used :: IsDigest(d)
    ensures Encodable(Aggregate(c))
  {
    assert !IsDigest("");
  }

  lemma StoredAside(assignments: seq<RoleAssignment>)
    requires AllBound(assignments)
    ensures JobsAside(assignments, Stored(assignments)) && Filter(Stored(assignments), IsBound) == Stored(assignments)
  {
    StoredBound(assignments);
    StoredMembers(assignments);
    FilterAll(Stored(assignments), IsBound);
  }

  lemma AssignWorkerAside(c: Cluster, d: Cluster, target: NodeId)
    requires c.localId == d.localId && d.authority == c.authority.(assignments := d.authority.assignments)
    requires JobsAside(c.authority.assignments, d.authority.assignments) && AssignWorker(c, target).Ok?
    ensures AssignWorker(d, target).Ok?
  {
    LookupAside(c.authority.assignments, d.authority.assignments, c.localId);
    ConsistentAside(RolesAt(c.authority), d.authority.assignments);
    AssignAside(RolesAt(c.authority), d.authority.assignments, c.localId, target);
  }

  /** What consuming a token yields, up to the erased token. */
  function Verdict(hash: Hash, c: Cluster, token: string, target: NodeId, now: real, allowRetry: bool): Option<Invite> {
    match ConsumeInvite(hash, c, token, target, now, allowRetry).result
    case Ok(invite) => Some(Erased(invite))
    case Err(_) => None
  }

  /** The cluster would admit the target on presentation of the string if that found the invite. */
  predicate WouldRedeem(hash: Hash, c: Cluster, token: string, invite: Invite, target: NodeId, now: real) {
    && ActiveCoordinator(c) && Find(c.tables.admissions, hash(token)).None? && hash(token) !in c.tables.used
    && Redeemable(c, invite, target, now) && AssignWorker(c, target).Ok?
  }

  /** The verdict rests on the admission of the digest, or else on the invite that is found. */
  lemma VerdictMeans(hash: Hash, c: Cluster, token: string, target: NodeId, now: real, allowRetry: bool)
    ensures var admission, invite := Find(c.tables.admissions, hash(token)), Found(hash, c.tables, token);
            Verdict(hash, c, token, target, now, allowRetry) ==
            if admission.Some? then
              (if ActiveCoordinator(c) && allowRetry && admission.value.targetNodeId == target then Some(Erased(admission.value)) else None)
            else if invite.Some? && WouldRedeem(hash, c, token, invite.value, target, now) then Some(Erased(invite.value))
            else None
  {
    var spent := c.(tables := c.tables.(
      invites := Drop(Drop(c.tables.invites, token), hash(token)), used := c.tables.used + {hash(token)}));
    assert AssignWorker(spent, target) == AssignWorker(c, target);
  }

  /** A restart changes nothing that a verdict rests on but the filing of the invites. */
  lemma RestartKeepsStanding(hash: Hash, c: Cluster, token: string, invite: Invite, target: NodeId, now: real)
    requires Digests(hash) && TablesOk(hash, c.tables) && WellBuilt(c)
    ensures Restarted(hash, c).Ok?
    ensures var d := Restarted(hash, c).value;
            && ActiveCoordinator(d) == ActiveCoordinator(c) && d.tables.admissions == c.tables.admissions
            && WouldRedeem(hash, d, token, Erased(invite), target, now) == WouldRedeem(hash, c, token, invite, target, now)
  {
    RestartWorks(hash, c);
    RestartedTables(hash, c);
    var d := Restarted(hash, c).value;
    LookupAside(c.authority.assignments, d.authority.assignments, c.localId);
    if AssignWorker(c, target).Ok? { AssignWorkerAside(c, d, target); }
    if AssignWorker(d, target).Ok? { AssignWorkerAside(d, c, target); }
  }

  /** A restart changes nothing about which consumptions succeed or whom they admit,
      whatever is presented but the digest of an invite that is still filed under its token. */
  lemma RestartChangesNoVerdict(hash: Hash, c: Cluster, token: string, target: NodeId, now: real, allowRetry: bool)
    requires Digests(hash) && TablesOk(hash, c.tables) && WellBuilt(c) && DistinctHashes(c.tables.invites)
    requires NoCollision(hash, c.tables.invites, token)
    requires forall item | item in c.tables.invites :: !UnderToken(c.tables.invites, token, item)
    ensures Reload(hash, c).Ok?
    ensures Verdict(hash, Reload(hash, c).value, token, target, now, allowRetry) == Verdict(hash, c, token, target, now, allowRetry)
  {
    ReloadIsRestarted(hash, c);
    RestartWorks(hash, c);
    FoundAfterRestart(hash, c, token);
    VerdictMeans(hash, c, token, target, now, allowRetry);
    VerdictMeans(hash, Restarted(hash, c).value, token, target, now, allowRetry);
    RestartKeepsAdmissions(hash, c);
    var invite := Found(hash, c.tables, token);
    if invite.Some? { RestartKeepsStanding(hash, c, token, invite.value, target, now); }
  }

  lemma RestartKeepsAdmissions(hash: Hash, c: Cluster)
    requires Digests(hash) && TablesOk(hash, c.tables) && WellBuilt(c)
    ensures Restarted(hash, c).Ok? && Restarted(hash, c).value.tables.admissions == c.tables.admissions
    ensures ActiveCoordinator(Restarted(hash, c).value) == ActiveCoordinator(c)
  {
    RestartWorks(hash, c);
    RestartedTables(hash, c);
    LookupAside(c.authority.assignments, Restarted(hash, c).value.authority.assignments, c.localId);
  }

  /** Exactly when a restart changes the verdict on a presented string: it is the digest of
      an invite that is still filed under its token, and redeeming that invite would go
      through. Refused before, it is redeemed after the restart. */
  lemma RestartChangesVerdictIff(hash: Hash, c: Cluster, token: string, target: NodeId, now: real, allowRetry: bool)
    requires Digests(hash) && TablesOk(hash, c.tables) && WellBuilt(c) && DistinctHashes(c.tables.invites)
    requires NoCollision(hash, c.tables.invites, token)
    ensures Reload(hash, c).Ok?
    ensures Verdict(hash, Reload(hash, c).value, token, target, now, allowRetry) != Verdict(hash, c, token, target, now, allowRetry)
            <==> exists item :: UnderToken(c.tables.invites, token, item) && WouldRedeem(hash, c, token, item.1, target, now)
  {
    ReloadIsRestarted(hash, c);
    RestartWorks(hash, c);
    if item :| UnderToken(c.tables.invites, token, item) {
      DigestVerdicts(hash, c, token, item, target, now, allowRetry);
      assert forall other | UnderToken(c.tables.invites, token, other) :: other == item;
    } else {
      RestartChangesNoVerdict(hash, c, token, target, now, allowRetry);
    }
  }

  lemma DigestVerdicts(hash: Hash, c: Cluster, digest: string, item: (string, Invite), target: NodeId, now: real, allowRetry: bool)
    requires Digests(hash) && TablesOk(hash, c.tables) && WellBuilt(c) && DistinctHashes(c.tables.invites)
    requires NoCollision(hash, c.tables.invites, digest) && UnderToken(c.tables.invites, digest, item)
    ensures Restarted(hash, c).Ok?
    ensures var before, after := Verdict(hash, c, digest, target, now, allowRetry),
                                 Verdict(hash, Restarted(hash, c).value, digest, target, now, allowRetry);
            if WouldRedeem(hash, c, digest, item.1, target, now) then before.None? && after == Some(Erased(item.1))
            else before == after
  {
    RestartKeepsStanding(hash, c, digest, item.1, target, now);
    DigestFoundAfterRestart(hash, c, digest, item);
    VerdictMeans(hash, c, digest, target, now, allowRetry);
    VerdictMeans(hash, Restarted(hash, c).value, digest, target, now, allowRetry);
  }

  // ------------------------------------------------------------------
  // Invites redeemed by their digest
  // ------------------------------------------------------------------

  const LOCAL: NodeId := "n"

  /** What `create_local` makes. */
  const FRESH: Cluster :=
    Cluster(LOCAL,
            Authority("c", RawEpoch.CoordinatorEpoch(1, LOCAL, "t", 0.0, 120.0),
                      [RawAssignment.RoleAssignment({Coordinator, Worker}, Some(LOCAL), false, false, false)], {}, []),
            Tables([], [], {}))

  /** An invite that is filed under its token and could be redeemed: its digest is refused,
      and redeemed after a restart; then the admission is not filed under that digest. */
  lemma DigestIsRedeemed(hash: Hash, c: Cluster, digest: string, item: (string, Invite), target: NodeId, now: real)
    requires Digests(hash) && TablesOk(hash, c.tables) && WellBuilt(c) && DistinctHashes(c.tables.invites)
    requires NoCollision(hash, c.tables.invites, digest) && UnderToken(c.tables.invites, digest, item)
    requires WouldRedeem(hash, c, digest, item.1, target, now) && hash(digest) != digest
    ensures Restarted(hash, c).Ok?
    ensures var restarted, redemption := Restarted(hash, c).value, Consume(digest, target, now, false);
            && !Succeeds(hash, c, redemption) && Admits(hash, restarted, redemption) && StoredDigest(restarted, digest)
            && TablesOk(hash, restarted.tables) && !TablesOk(hash, Next(hash, restarted, redemption).tables)
  {
    DigestVerdicts(hash, c, digest, item, target, now, false);
    RestartKeepsAdmissions(hash, c);
    RestartKeepsTables(hash, c);
    KeptByRestart(hash, c, item);
    var restarted := Restarted(hash, c).value;
    FindMeans(restarted.tables.invites, digest);
    ConsumeKeepsTablesIff(hash, restarted, Consume(digest, target, now, false));
  }

  function IssuedBy(hash: Hash, token: string, target: NodeId): Cluster
    requires Digests(hash)
  {
    Next(hash, FRESH, Create(token, target, 0.0))
  }

  /** There are such invites: that of a fresh cluster that has issued one. */
  lemma IssuedIsRedeemed(hash: Hash, token: string, target: NodeId)
    requires Digests(hash) && !IsDigest(token) && hash(hash(token)) != hash(token) && target != LOCAL
    ensures var c, redemption := IssuedBy(hash, token, target), Consume(hash(token), target, 0.0, false);
            && Run(hash, [FRESH, c], [Create(token, target, 0.0)])
            && Restarted(hash, c).Ok?
            && !Succeeds(hash, c, redemption) && Admits(hash, Restarted(hash, c).value, redemption)
            && TablesOk(hash, c.tables) && !TablesOk(hash, Next(hash, Restarted(hash, c).value, redemption).tables)
  {
    var c := IssuedBy(hash, token, target);
    var item := (token, NewInvite(hash, FRESH, token, target, 0.0));
    FreshIsGood();
    assert c.tables.invites == [item];
    AssignableWorker(c, target);
    DigestIsRedeemed(hash, c, hash(token), item, target, 0.0);
  }

  lemma FreshIsGood()
    ensures Good(RolesAt(FRESH.authority)) && WellBuilt(FRESH) && ActiveCoordinator(FRESH)
    ensures forall n: NodeId | n != LOCAL :: AssignmentFor(FRESH.authority.assignments, n).None?
  {
    var local := FRESH.authority.assignments[0];
    assert FRESH.authority.assignments[..0] == [];
    assert AssignmentFor(FRESH.authority.assignments, LOCAL) == Some(local);
  }

  lemma {:induction false} ByHashKeys(items: seq<Invite>, item: Invite)
    requires item in items
    ensures HasKey(ByHash(items), item.tokenHash)
  {
    var before, last := items[..|items| - 1], items[|items| - 1];
    PutHasKey(ByHash(before), last.tokenHash, last, item.tokenHash);
    if item != last { ByHashKeys(before, item); }
  }

  /** Such a redemption files the admission under the digest of the digest. */
  lemma RedeemedByDigest(hash: Hash, c: Cluster, step: InviteStep)
    requires Digests(hash) && TablesOk(hash, c.tables) && Admits(hash, c, step) && StoredDigest(c, step.token)
    ensures var t, admission := Next(hash, c, step).tables, Erased(Found(hash, c.tables, step.token).value);
            && (hash(step.token), admission) in t.admissions && admission.tokenHash == step.token
            && t.used == c.tables.used + {hash(step.token)}
  {
    var admission := Erased(Found(hash, c.tables, step.token).value);
    FoundIsFiled(hash, c, step.token);
    FindPut(c.tables.admissions, hash(step.token), admission, hash(step.token));
    FindMeans(Next(hash, c, step).tables.admissions, hash(step.token));
  }

  /** A restart files an admission under the digest of its invite. */
  lemma AdmissionRefiled(hash: Hash, c: Cluster, item: (string, Invite))
    requires Digests(hash) && InvitesOk(hash, c.tables) && Restarted(hash, c).Ok? && item in c.tables.admissions
    ensures var t := Restarted(hash, c).value.tables; HasKey(t.admissions, item.1.tokenHash) && t.used == c.tables.used
  {
    var i :| 0 <= i < |c.tables.admissions| && c.tables.admissions[i] == item;
    var items := Tokenless(Values(c.tables.admissions));
    assert items[i] == Erased(item.1);
    ByHashKeys(items, items[i]);
    DigestsStay(hash, c.tables.used);
  }

  /** What the next restart makes of such an admission: it is filed under the digest of its
      invite, which is not marked used. */
  lemma RedeemedDigestMoves(hash: Hash, c: Cluster, step: InviteStep)
    requires Digests(hash) && TablesOk(hash, c.tables) && Admits(hash, c, step) && StoredDigest(c, step.token)
    requires hash(step.token) != step.token && step.token !in c.tables.used
    requires Restarted(hash, Next(hash, c, step)).Ok?
    ensures var t := Restarted(hash, Next(hash, c, step)).value.tables;
            HasKey(t.admissions, step.token) && step.token !in t.used && !TablesOk(hash, t)
  {
    RedeemedByDigest(hash, c, step);
    ConsumeKeepsInvites(hash, c, step.token, step.target, step.now, step.allowRetry);
    AdmissionRefiled(hash, Next(hash, c, step), (hash(step.token), Erased(Found(hash, c.tables, step.token).value)));
    var t := Restarted(hash, Next(hash, c, step)).value.tables;
    var i :| 0 <= i < |t.admissions| && t.admissions[i].0 == step.token;
    assert t.admissions[i] in t.admissions && !FiledAdmission(t.used, t.admissions[i]);
  }

  /** Fresh tokens keep the digests of the invites distinct. */
  lemma CreateKeepsDistinctHashes(hash: Hash, c: Cluster, token: string, target: NodeId, now: real)
    requires Digests(hash) && InvitesOk(hash, c.tables) && DistinctHashes(c.tables.invites)
    requires forall item | item in c.tables.invites :: item.1.tokenHash != hash(token)
    ensures CreateInvite(hash, c, token, target, now).Ok? ==>
              DistinctHashes(CreateInvite(hash, c, token, target, now).value.tables.invites)
  {
    PutEffect(c.tables.invites, token, NewInvite(hash, c, token, target, now));
  }

  lemma ConsumeKeepsDistinctHashes(hash: Hash, c: Cluster, token: string, target: NodeId, now: real, allowRetry: bool)
    requires DistinctKeys(c.tables.invites) && DistinctHashes(c.tables.invites)
    ensures DistinctHashes(ConsumeInvite(hash, c, token, target, now, allowRetry).cluster.tables.invites)
  {
    DropEffect(c.tables.invites, token);
    DropEffect(Drop(c.tables.invites, token), hash(token));
  }
}
