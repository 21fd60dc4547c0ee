/** cluster/operations.py: one-time invites, their consumption and their persistence. */
module ClusterInvites {
  import opened Wrappers
  import opened Dicts
  import opened ClusterModels
  import opened Roles
  import opened ClusterState
  import opened ClusterCodec

  /** `NotSaved` is a consumption whose outcome was taken back or whose save raised. */
  datatype Refusal = NotCoordinator | Rejected | NotSaved

  /** Everything a cluster object holds besides its invites. */
  datatype Authority = Authority(
    clusterId: string,
    epoch: CoordinatorEpoch,
    assignments: seq<RoleAssignment>,
    promotionEpochs: set<nat>,
    capabilityGrants: seq<CapabilityGrant>
  )

  datatype Tables = Tables(invites: Dict<string, Invite>, admissions: Dict<string, Invite>, used: set<string>)

  datatype Cluster = Cluster(localId: NodeId, authority: Authority, tables: Tables)

  type Hash = string -> string

  /** The hash yields hexadecimal digests. Nothing is assumed about collisions. */
  ghost predicate Digests(hash: Hash) {
    forall x :: IsDigest(hash(x))
  }

  const INVITE_TTL_SECONDS: real := 300.0

  function RolesAt(a: Authority): RoleState {
    RoleState(a.assignments, Some(a.epoch), a.promotionEpochs, a.capabilityGrants)
  }

  predicate ActiveCoordinator(c: Cluster) {
    var local := AssignmentFor(c.authority.assignments, c.localId);
    && local.Some? && !local.value.paused && !local.value.revoked && Coordinator in local.value.roles
    && c.authority.epoch.coordinatorId == c.localId
  }

  // ------------------------------------------------------------------
  // Operations
  // ------------------------------------------------------------------

  function NewInvite(hash: Hash, c: Cluster, token: string, target: NodeId, now: real): Invite
    requires Digests(hash)
  {
    RawInvite.InviteRecord(hash(token), target, now + INVITE_TTL_SECONDS, token, c.authority.clusterId,
                           c.authority.epoch.coordinatorId, c.authority.epoch.epoch, c.authority.epoch.fencingToken)
  }

  function CreateInvite(hash: Hash, c: Cluster, token: string, target: NodeId, now: real): Result<Cluster, Refusal>
    requires Digests(hash)
  {
    if !ActiveCoordinator(c) then Err(NotCoordinator)
    else Ok(c.(tables := c.tables.(invites := Put(c.tables.invites, token, NewInvite(hash, c, token, target, now)))))
  }

  /** `assign` of the Worker role, applied to the cluster's own assignments. */
  function AssignWorker(c: Cluster, target: NodeId): Result<Authority, Refusal> {
    if !ActiveCoordinator(c) then Err(NotCoordinator)
    else if !Consistent(RolesAt(c.authority)) then Err(Rejected)
    else match Assign(RolesAt(c.authority), Some(c.localId), target, {Worker})
      case Err(_) => Err(Rejected)
      case Ok(s) => Ok(c.authority.(assignments := Filter(s.assignments, IsBound), capabilityGrants := s.capabilityGrants))
  }

  /** The invite that a presented string unlocks: kept under the token since its
      creation, or under its digest since a restart. */
  function Found(hash: Hash, t: Tables, token: string): Option<Invite> {
    if Find(t.invites, token).Some? then Find(t.invites, token) else Find(t.invites, hash(token))
  }

  predicate Redeemable(c: Cluster, invite: Invite, target: NodeId, now: real) {
    && now < invite.expiresAt
    && invite.targetNodeId == target && invite.clusterId == c.authority.clusterId
    && invite.epoch == c.authority.epoch.epoch
  }

  /** `replace(invite, token="")`. */
  function Erased(invite: Invite): Invite {
    invite.(token := "")
  }

  datatype Consumption = Consumption(cluster: Cluster, result: Result<Invite, Refusal>)

  /** Taking the invite: it is spent before the assignment, which can still fail. */
  function Redeem(hash: Hash, c: Cluster, token: string, invite: Invite, target: NodeId): Consumption {
    var digest := hash(token);
    var spent := c.(tables := c.tables.(
      invites := Drop(Drop(c.tables.invites, token), digest),
      used := c.tables.used + {digest}));
    match AssignWorker(spent, target)
    case Err(e) => Consumption(spent, Err(e))
    case Ok(authority) =>
      Consumption(Cluster(c.localId, authority, spent.tables.(
                    admissions := Put(spent.tables.admissions, digest, Erased(invite)))),
                  Ok(invite))
  }

  function ConsumeInvite(hash: Hash, c: Cluster, token: string, target: NodeId, now: real, allowRetry: bool): Consumption {
    if !ActiveCoordinator(c) then Consumption(c, Err(NotCoordinator))
    else
      var digest, invite := hash(token), Found(hash, c.tables, token);
      match Find(c.tables.admissions, digest)
      case Some(admission) =>
        Consumption(c, if allowRetry && admission.targetNodeId == target then Ok(admission) else Err(Rejected))
      case None =>
        if invite.None? || digest in c.tables.used || !Redeemable(c, invite.value, target, now)
        then Consumption(c, Err(Rejected))
        else Redeem(hash, c, token, invite.value, target)
  }

  // ------------------------------------------------------------------
  // Persistence
  // ------------------------------------------------------------------

  /** `to_dict`. */
  function Aggregate(c: Cluster): ClusterState {
    ClusterState(c.localId, c.authority.clusterId, c.authority.assignments, Some(c.authority.epoch),
                 Values(c.tables.invites), Values(c.tables.admissions), c.tables.used,
                 c.authority.promotionEpochs, c.authority.capabilityGrants)
  }

  /** `{item.token_hash: item for item in items}`. */
  function ByHash(items: seq<Invite>): Dict<string, Invite> {
    if items == [] then []
    else Put(ByHash(items[..|items| - 1]), items[|items| - 1].tokenHash, items[|items| - 1])
  }

  function FromState(localId: NodeId, s: ClusterState): Result<Cluster, Refusal> {
    if || s.localNodeId != localId || AssignmentFor(s.roleAssignments, localId).None? || s.coordinatorEpoch.None?
    then Err(Rejected)
    else Ok(Cluster(
      localId,
      Authority(s.clusterId, s.coordinatorEpoch.value, Filter(s.roleAssignments, IsBound), s.promotionEpochs, s.capabilityGrants),
      Tables(ByHash(s.activeInvites), ByHash(s.joinAdmissions), s.usedInvites)))
  }

  /** `save` followed by `load`. */
  function Reload(hash: Hash, c: Cluster): Result<Cluster, Refusal> {
    match ToDict(Aggregate(c))
    case None => Err(Rejected)
    case Some(document) =>
      match FromDict(hash, document)
      case Err(_) => Err(Rejected)
      case Ok(s) => FromState(c.localId, s)
  }

  /** The same, without the document in between. */
  function Restarted(hash: Hash, c: Cluster): Result<Cluster, Refusal> {
    var s := Aggregate(c);
    if !Consistent(RoleStateOf(s)) || !Encodable(s) then Err(Rejected) else FromState(c.localId, Persisted(hash, s))
  }

  lemma ReloadIsRestarted(hash: Hash, c: Cluster)
    ensures Reload(hash, c) == Restarted(hash, c)
  {
    if Consistent(RoleStateOf(Aggregate(c))) { RoundTrip(hash, Aggregate(c)); }
  }

  // ------------------------------------------------------------------
  // The invariant of the tables
  // ------------------------------------------------------------------

  /** An invite is filed under its digest, or under the token that hashes to it. */
  predicate FiledInvite(hash: Hash, item: (string, Invite)) {
    item.1.tokenHash == if IsDigest(item.0) then item.0 else hash(item.0)
  }

  predicate FiledAdmission(used: set<string>, item: (string, Invite)) {
    item.1.tokenHash == item.0 && item.0 in used && item.1.token == ""
  }

  /** What holds of the tables whatever is presented as a token. */
  ghost predicate InvitesOk(hash: Hash, t: Tables) {
    && DistinctKeys(t.invites) && DistinctKeys(t.admissions)
    && (forall item | item in t.invites :: FiledInvite(hash, item))
    && (forall d | d in t.used :: IsDigest(d))
  }

  /** And every admission is filed under the digest of its invite, which is marked used. */
  ghost predicate TablesOk(hash: Hash, t: Tables) {
    InvitesOk(hash, t) && forall item | item in t.admissions :: FiledAdmission(t.used, item)
  }

  /** The string is the digest under which an open invite is filed since a restart. The
      lookup of a token finds that invite, too. */
  predicate StoredDigest(c: Cluster, token: string) {
    IsDigest(token) && HasKey(c.tables.invites, token)
  }

  lemma FoundIsFiled(hash: Hash, c: Cluster, token: string)
    requires Digests(hash) && InvitesOk(hash, c.tables) && Found(hash, c.tables, token).Some?
    ensures Found(hash, c.tables, token).value.tokenHash == if StoredDigest(c, token) then token else hash(token)
  {
    FindMeans(c.tables.invites, token);
    FindMeans(c.tables.invites, hash(token));
  }

  lemma SpendKeepsInvites(hash: Hash, t: Tables, token: string)
    requires Digests(hash) && InvitesOk(hash, t)
    ensures InvitesOk(hash, t.(invites := Drop(Drop(t.invites, token), hash(token)), used := t.used + {hash(token)}))
  {
    DropEffect(t.invites, token);
    DropEffect(Drop(t.invites, token), hash(token));
  }

  lemma ConsumeKeepsInvites(hash: Hash, c: Cluster, token: string, target: NodeId, now: real, allowRetry: bool)
    requires Digests(hash) && InvitesOk(hash, c.tables)
    ensures InvitesOk(hash, ConsumeInvite(hash, c, token, target, now, allowRetry).cluster.tables)
  {
    SpendKeepsInvites(hash, c.tables, token);
    var invite := Found(hash, c.tables, token);
    if invite.Some? { PutEffect(c.tables.admissions, hash(token), Erased(invite.value)); }
  }

  /** Filing one more admission keeps the others filed, and is right when its key is the
      digest of its invite. */
  lemma AdmitKeepsFiled(d: Dict<string, Invite>, used: set<string>, digest: string, admission: Invite)
    requires DistinctKeys(d) && admission.token == "" && forall item | item in d :: FiledAdmission(used, item)
    ensures (forall item | item in Put(d, digest, admission) :: FiledAdmission(used + {digest}, item)) <==> admission.tokenHash == digest
  {
    PutEffect(d, digest, admission);
    FindPut(d, digest, admission, digest);
    FindMeans(Put(d, digest, admission), digest);
  }

  /** Exactly when a consumption breaks the filing of admissions: it redeems an invite by
      the digest under which it is stored. Its admission is then filed under the digest of
      that digest. */
  lemma ConsumeKeepsTablesIff(hash: Hash, c: Cluster, step: InviteStep)
    requires Digests(hash) && TablesOk(hash, c.tables) && step.Consume?
    ensures TablesOk(hash, Next(hash, c, step).tables) <==>
              !(StoredDigest(c, step.token) && Admits(hash, c, step) && hash(step.token) != step.token)
  {
    var digest, invite := hash(step.token), Found(hash, c.tables, step.token);
    ConsumeKeepsInvites(hash, c, step.token, step.target, step.now, step.allowRetry);
    if invite.Some? {
      FoundIsFiled(hash, c, step.token);
      AdmitKeepsFiled(c.tables.admissions, c.tables.used, digest, Erased(invite.value));
    }
  }

  lemma {:induction false} ByHashMembers(items: seq<Invite>)
    ensures DistinctKeys(ByHash(items))
    ensures forall item | item in ByHash(items) :: item.1 in items && item.1.tokenHash == item.0
  {
    if items != [] {
      var before, last := items[..|items| - 1], items[|items| - 1];
      ByHashMembers(before);
      PutEffect(ByHash(before), last.tokenHash, last);
    }
  }

  /** Items already filed under distinct hashes come back as they were. */
  lemma {:induction false} ByHashOfFiled(d: Dict<string, Invite>)
    requires DistinctKeys(d) && forall item | item in d :: item.1.tokenHash == item.0 && item.1.token == ""
    ensures ByHash(Tokenless(Values(d))) == d
  {
    if d != [] {
      var before, last := d[..|d| - 1], d[|d| - 1];
      assert Tokenless(Values(d))[..|d| - 1] == Tokenless(Values(before));
      assert last in d;
      ByHashOfFiled(before);
      assert !HasKey(before, last.0);
      PutNew(before, last.0, last.1);
    }
  }

  lemma RestartedTables(hash: Hash, c: Cluster)
    requires Digests(hash) && TablesOk(hash, c.tables) && Restarted(hash, c).Ok?
    ensures var t, t' := c.tables, Restarted(hash, c).value.tables;
            t'.invites == ByHash(Tokenless(Values(t.invites))) && t'.admissions == t.admissions && t'.used == t.used
  {
    ByHashOfFiled(c.tables.admissions);
    DigestsStay(hash, c.tables.used);
  }

  /** Refiling puts every item under its own digest, less its token. */
  lemma RefiledFrom(d: Dict<string, Invite>, item: (string, Invite))
    requires item in ByHash(Tokenless(Values(d)))
    ensures item.0 == item.1.tokenHash && exists was :: was in d && item.1 == Erased(was.1)
  {
    var items := Tokenless(Values(d));
    ByHashMembers(items);
    var i :| 0 <= i < |items| && items[i] == item.1;
    assert d[i] in d;
  }

  lemma RestartKeepsInvites(hash: Hash, c: Cluster)
    requires Digests(hash) && InvitesOk(hash, c.tables) && Restarted(hash, c).Ok?
    ensures InvitesOk(hash, Restarted(hash, c).value.tables)
  {
    var d := c.tables.invites;
    DigestsStay(hash, c.tables.used);
    ByHashMembers(Tokenless(Values(d)));
    ByHashMembers(Tokenless(Values(c.tables.admissions)));
    forall item | item in ByHash(Tokenless(Values(d))) ensures FiledInvite(hash, item) {
      RefiledFrom(d, item);
    }
  }

  lemma RestartKeepsTables(hash: Hash, c: Cluster)
    requires Digests(hash) && TablesOk(hash, c.tables) && Restarted(hash, c).Ok?
    ensures TablesOk(hash, Restarted(hash, c).value.tables)
  {
    RestartedTables(hash, c);
    RestartKeepsInvites(hash, c);
  }

  // ------------------------------------------------------------------
  // Runs
  // ------------------------------------------------------------------

  /** `Unsaved` is a consumption on behalf of a peer whose outcome cannot be saved; `Other`
      stands for any change that leaves the invites alone. */
  datatype InviteStep =
    | Create(token: string, target: NodeId, now: real)
    | Consume(token: string, target: NodeId, now: real, allowRetry: bool)
    | Unsaved(token: string, target: NodeId, now: real)
    | Restart
    | Other(authority: Authority)

  /** An issued token has 43 characters, so it is no digest. */
  predicate Issued(step: InviteStep) {
    step.Create? ==> !IsDigest(step.token)
  }

  /** What is presented as a token is not a stored digest. */
  predicate Presentable(c: Cluster, step: InviteStep) {
    step.Consume? ==> !StoredDigest(c, step.token)
  }

  /** A success is taken back, all but the pruning of the capability grants; a consumption
      that raised is not. */
  function RolledBack(hash: Hash, c: Cluster, token: string, target: NodeId, now: real): Cluster {
    var r := ConsumeInvite(hash, c, token, target, now, true);
    if r.result.Ok? then c.(authority := c.authority.(capabilityGrants := r.cluster.authority.capabilityGrants)) else r.cluster
  }

  function Next(hash: Hash, c: Cluster, step: InviteStep): Cluster
    requires Digests(hash)
  {
    match step
    case Create(token, target, now) =>
      var r := CreateInvite(hash, c, token, target, now); if r.Ok? then r.value else c
    case Consume(token, target, now, allowRetry) => ConsumeInvite(hash, c, token, target, now, allowRetry).cluster
    case Unsaved(token, target, now) => RolledBack(hash, c, token, target, now)
    case Restart => var r := Restarted(hash, c); if r.Ok? then r.value else c
    case Other(authority) => c.(authority := authority)
  }

  lemma RestartIsReload(hash: Hash, c: Cluster)
    requires Digests(hash)
    ensures var r := Reload(hash, c); Next(hash, c, Restart) == if r.Ok? then r.value else c
  {
    ReloadIsRestarted(hash, c);
  }

  /** Any run: whatever is presented as a token. */
  ghost predicate Run(hash: Hash, states: seq<Cluster>, steps: seq<InviteStep>)
    requires Digests(hash)
  {
    && |states| == |steps| + 1
    && states[0].tables == Tables([], [], {})
    && forall i: nat | i < |steps| :: Moves(hash, states, steps, i)
  }

  /** Step `i` of a run. */
  ghost predicate Moves(hash: Hash, states: seq<Cluster>, steps: seq<InviteStep>, i: nat)
    requires Digests(hash) && i < |steps| && |states| == |steps| + 1
  {
    Issued(steps[i]) && states[i + 1] == Next(hash, states[i], steps[i])
  }

  /** A run in which no stored digest is presented as a token. */
  ghost predicate TokenRun(hash: Hash, states: seq<Cluster>, steps: seq<InviteStep>)
    requires Digests(hash)
  {
    Run(hash, states, steps) && forall i | 0 <= i < |steps| :: Presentable(states[i], steps[i])
  }

  lemma RunExtends(hash: Hash, states: seq<Cluster>, steps: seq<InviteStep>, step: InviteStep)
    requires Digests(hash) && Run(hash, states, steps) && Issued(step)
    ensures Run(hash, states + [Next(hash, states[|steps|], step)], steps + [step])
  {
    var c := Next(hash, states[|steps|], step);
    var states', steps' := states + [c], steps + [step];
    forall i: nat | i < |steps'| ensures Moves(hash, states', steps', i) {
      if i < |steps| {
        assert Moves(hash, states, steps, i);
        assert states'[i] == states[i] && states'[i + 1] == states[i + 1] && steps'[i] == steps[i];
      } else {
        assert states'[i] == states[|steps|] && states'[i + 1] == c && steps'[i] == step;
      }
    }
  }

  predicate Succeeds(hash: Hash, c: Cluster, step: InviteStep) {
    step.Consume? && ConsumeInvite(hash, c, step.token, step.target, step.now, step.allowRetry).result.Ok?
  }

  /** A success that is not the answer to a retry. */
  predicate Admits(hash: Hash, c: Cluster, step: InviteStep) {
    Succeeds(hash, c, step) && Find(c.tables.admissions, hash(step.token)).None?
  }

  lemma StepKeepsInvites(hash: Hash, c: Cluster, step: InviteStep)
    requires Digests(hash) && InvitesOk(hash, c.tables) && Issued(step)
    ensures InvitesOk(hash, Next(hash, c, step).tables)
  {
    match step
    case Create(token, target, now) => PutEffect(c.tables.invites, token, NewInvite(hash, c, token, target, now));
    case Consume(token, target, now, allowRetry) => ConsumeKeepsInvites(hash, c, token, target, now, allowRetry);
    case Unsaved(token, target, now) => ConsumeKeepsInvites(hash, c, token, target, now, true);
    case Restart => if Restarted(hash, c).Ok? { RestartKeepsInvites(hash, c); }
    case Other(_) =>
  }

  /** In any run, whatever is presented. */
  lemma {:induction false} RunKeepsInvites(hash: Hash, states: seq<Cluster>, steps: seq<InviteStep>, n: nat)
    requires Digests(hash) && Run(hash, states, steps) && n < |states|
    ensures InvitesOk(hash, states[n].tables)
  {
    if n > 0 {
      RunKeepsInvites(hash, states, steps, n - 1);
      assert Moves(hash, states, steps, n - 1);
      StepKeepsInvites(hash, states[n - 1], steps[n - 1]);
    }
  }

  lemma StepKeepsTables(hash: Hash, c: Cluster, step: InviteStep)
    requires Digests(hash) && TablesOk(hash, c.tables) && Issued(step) && Presentable(c, step)
    ensures TablesOk(hash, Next(hash, c, step).tables)
  {
    StepKeepsInvites(hash, c, step);
    match step
    case Consume(_, _, _, _) => ConsumeKeepsTablesIff(hash, c, step);
    case Restart => if Restarted(hash, c).Ok? { RestartKeepsTables(hash, c); }
    case _ =>
  }

  lemma MoveKeepsTables(hash: Hash, states: seq<Cluster>, steps: seq<InviteStep>, i: nat)
    requires Digests(hash) && TokenRun(hash, states, steps) && i < |steps| && TablesOk(hash, states[i].tables)
    ensures TablesOk(hash, states[i + 1].tables)
  {
    var c, step := states[i], steps[i];
    assert Issued(step) && Presentable(c, step) && states[i + 1] == Next(hash, c, step) by {
      assert Moves(hash, states, steps, i);
    }
    StepKeepsTables(hash, c, step);
  }

  lemma {:induction false} RunKeepsTables(hash: Hash, states: seq<Cluster>, steps: seq<InviteStep>, n: nat)
    requires Digests(hash) && TokenRun(hash, states, steps) && n < |states|
    ensures TablesOk(hash, states[n].tables)
  {
    if n > 0 {
      RunKeepsTables(hash, states, steps, n - 1);
      MoveKeepsTables(hash, states, steps, n - 1);
    }
  }

  /** What a step does to one digest: a used marker stays, an admission stays as it is,
      and a new admission appears only by a step that admits its node. */
  ghost predicate Advances(hash: Hash, c: Cluster, step: InviteStep, c': Cluster, digest: string) {
    && (digest in c.tables.used ==> digest in c'.tables.used)
    && match Find(c.tables.admissions, digest)
       case Some(admission) => Find(c'.tables.admissions, digest) == Some(admission)
       case None =>
         var admission := Find(c'.tables.admissions, digest);
         admission.Some? ==>
           && digest !in c.tables.used && Admits(hash, c, step) && hash(step.token) == digest
           && admission.value.targetNodeId == step.target
  }

  lemma RedeemAdvances(hash: Hash, c: Cluster, step: InviteStep, digest: string)
    requires step.Consume? && ActiveCoordinator(c) && Find(c.tables.admissions, hash(step.token)).None?
    requires var invite := Found(hash, c.tables, step.token);
             invite.Some? && hash(step.token) !in c.tables.used && Redeemable(c, invite.value, step.target, step.now)
    ensures Advances(hash, c, step,
                     Redeem(hash, c, step.token, Found(hash, c.tables, step.token).value, step.target).cluster, digest)
  {
    FindPut(c.tables.admissions, hash(step.token), Erased(Found(hash, c.tables, step.token).value), digest);
  }

  lemma StepAdvances(hash: Hash, c: Cluster, step: InviteStep, digest: string)
    requires Digests(hash) && TablesOk(hash, c.tables)
    ensures Advances(hash, c, step, Next(hash, c, step), digest)
  {
    match step
    case Restart => if Restarted(hash, c).Ok? { RestartedTables(hash, c); }
    case Consume(token, target, now, allowRetry) =>
      var invite := Found(hash, c.tables, token);
      if && ActiveCoordinator(c) && Find(c.tables.admissions, hash(token)).None?
         && invite.Some? && hash(token) !in c.tables.used && Redeemable(c, invite.value, target, now)
      {
        RedeemAdvances(hash, c, step, digest);
      }
    case _ =>
  }

  lemma RunAdvances(hash: Hash, states: seq<Cluster>, steps: seq<InviteStep>, j: nat, digest: string)
    requires Digests(hash) && TokenRun(hash, states, steps) && j < |steps|
    ensures Advances(hash, states[j], steps[j], states[j + 1], digest)
  {
    RunKeepsTables(hash, states, steps, j);
    assert Moves(hash, states, steps, j);
    StepAdvances(hash, states[j], steps[j], digest);
  }

  /** A success leaves an admission of the very node that was named, and the digest used. */
  lemma SuccessIsRecorded(hash: Hash, c: Cluster, step: InviteStep)
    requires Digests(hash) && TablesOk(hash, c.tables) && Succeeds(hash, c, step)
    ensures var c', digest := Next(hash, c, step), hash(step.token);
            && digest in c'.tables.used
            && Find(c'.tables.admissions, digest).Some?
            && Find(c'.tables.admissions, digest).value.targetNodeId == step.target
            && (Admits(hash, c, step) <==> digest !in c.tables.used)
            && (!Admits(hash, c, step) ==> c' == c && step.allowRetry)
  {
    var digest, invite := hash(step.token), Found(hash, c.tables, step.token);
    FindMeans(c.tables.admissions, digest);
    if invite.Some? { FindPut(c.tables.admissions, digest, Erased(invite.value), digest); }
  }

  lemma {:induction false} AdmissionStays(hash: Hash, states: seq<Cluster>, steps: seq<InviteStep>, i: nat, j: nat, digest: string)
    requires Digests(hash) && TokenRun(hash, states, steps) && i <= j < |states|
    ensures digest in states[i].tables.used ==> digest in states[j].tables.used
    ensures Find(states[i].tables.admissions, digest).Some? ==>
              Find(states[j].tables.admissions, digest) == Find(states[i].tables.admissions, digest)
  {
    if i < j {
      AdmissionStays(hash, states, steps, i, j - 1, digest);
      RunAdvances(hash, states, steps, j - 1, digest);
    }
  }

  /** Every admission goes back to a step that admitted. */
  lemma {:induction false} AdmissionOrigin(hash: Hash, states: seq<Cluster>, steps: seq<InviteStep>, n: nat, digest: string) returns (k: nat)
    requires Digests(hash) && TokenRun(hash, states, steps) && n < |states| && Find(states[n].tables.admissions, digest).Some?
    ensures k < n && Admits(hash, states[k], steps[k]) && hash(steps[k].token) == digest
  {
    RunAdvances(hash, states, steps, n - 1, digest);
    if Find(states[n - 1].tables.admissions, digest).Some? {
      k := AdmissionOrigin(hash, states, steps, n - 1, digest);
    } else {
      k := n - 1;
    }
  }

  /** What a success leaves behind is still there at any later step. */
  lemma SuccessStaysRecorded(hash: Hash, states: seq<Cluster>, steps: seq<InviteStep>, i: nat, j: nat)
    requires Digests(hash) && TokenRun(hash, states, steps) && i < |steps| && i < j < |states|
    requires Succeeds(hash, states[i], steps[i])
    ensures var digest, t := hash(steps[i].token), states[j].tables;
            && digest in t.used
            && Find(t.admissions, digest).Some? && Find(t.admissions, digest).value.targetNodeId == steps[i].target
  {
    RunKeepsTables(hash, states, steps, i);
    assert Moves(hash, states, steps, i);
    SuccessIsRecorded(hash, states[i], steps[i]);
    AdmissionStays(hash, states, steps, i + 1, j, hash(steps[i].token));
  }

  /** With an admission on file, only a retry for its node succeeds, changing nothing. */
  lemma AdmittedOnlyRetries(hash: Hash, c: Cluster, step: InviteStep)
    requires Digests(hash) && step.Consume? && Find(c.tables.admissions, hash(step.token)).Some? && Succeeds(hash, c, step)
    ensures !Admits(hash, c, step) && Next(hash, c, step) == c
    ensures step.target == Find(c.tables.admissions, hash(step.token)).value.targetNodeId
  {
  }

  /** One invite, one node: two successful consumptions of a token name the same node,
      and only the earlier of them can have admitted it. */
  lemma OneInviteOneNode(hash: Hash, states: seq<Cluster>, steps: seq<InviteStep>, i: nat, j: nat)
    requires Digests(hash) && TokenRun(hash, states, steps) && i < j < |steps|
    requires Succeeds(hash, states[i], steps[i]) && Succeeds(hash, states[j], steps[j])
    requires hash(steps[i].token) == hash(steps[j].token)
    ensures steps[i].target == steps[j].target
    ensures !Admits(hash, states[j], steps[j]) && states[j + 1] == states[j]
  {
    SuccessStaysRecorded(hash, states, steps, i, j);
    AdmittedOnlyRetries(hash, states[j], steps[j]);
    assert Moves(hash, states, steps, j);
  }

  /** Every successful consumption has exactly one admitting step behind it, itself or
      an earlier one, also across restarts. */
  lemma ExactlyOneAdmits(hash: Hash, states: seq<Cluster>, steps: seq<InviteStep>, i: nat) returns (k: nat)
    requires Digests(hash) && TokenRun(hash, states, steps) && i < |steps| && Succeeds(hash, states[i], steps[i])
    ensures k <= i && Admits(hash, states[k], steps[k]) && hash(steps[k].token) == hash(steps[i].token)
    ensures steps[k].target == steps[i].target
    ensures forall m | 0 <= m < |steps| && Admits(hash, states[m], steps[m]) && hash(steps[m].token) == hash(steps[i].token) :: m == k
  {
    if Admits(hash, states[i], steps[i]) {
      k := i;
    } else {
      k := AdmissionOrigin(hash, states, steps, i, hash(steps[i].token));
      OneInviteOneNode(hash, states, steps, k, i);
    }
    forall m | 0 <= m < |steps| && Admits(hash, states[m], steps[m]) && hash(steps[m].token) == hash(steps[i].token)
      ensures m == k
    {
      if m < k { OneInviteOneNode(hash, states, steps, m, k); }
      if k < m { OneInviteOneNode(hash, states, steps, k, m); }
    }
  }

  /** An invite whose assignment failed is spent for good: no later consumption of its
      token succeeds. */
  lemma BurnedNeverSucceeds(hash: Hash, states: seq<Cluster>, steps: seq<InviteStep>, i: nat, j: nat)
    requires Digests(hash) && TokenRun(hash, states, steps) && i <= j < |steps| && steps[j].Consume?
    requires hash(steps[j].token) in states[i].tables.used && Find(states[i].tables.admissions, hash(steps[j].token)).None?
    ensures !Succeeds(hash, states[j], steps[j])
  {
    var digest := hash(steps[j].token);
    StaysBurned(hash, states, steps, i, j, digest);
    RunKeepsTables(hash, states, steps, j);
    if Succeeds(hash, states[j], steps[j]) { SuccessIsRecorded(hash, states[j], steps[j]); }
  }

  lemma {:induction false} StaysBurned(hash: Hash, states: seq<Cluster>, steps: seq<InviteStep>, i: nat, j: nat, digest: string)
    requires Digests(hash) && TokenRun(hash, states, steps) && i <= j < |states|
    requires digest in states[i].tables.used && Find(states[i].tables.admissions, digest).None?
    ensures digest in states[j].tables.used && Find(states[j].tables.admissions, digest).None?
  {
    if i < j {
      StaysBurned(hash, states, steps, i, j - 1, digest);
      RunAdvances(hash, states, steps, j - 1, digest);
    }
  }
}
