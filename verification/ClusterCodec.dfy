/** cluster/state.py and the codec of cluster/operations.py: cluster state as a document. */
module ClusterCodec {
  import opened Wrappers
  import opened Json
  import opened Sorting
  import opened ClusterModels
  import opened Roles
  import opened RoleInvariant
  import opened ClusterState

  /** Every exception of the decoder is the one error. */
  datatype DataError = MalformedState

  type Decoded<T> = Result<T, DataError>

  // ------------------------------------------------------------------
  // Encoding
  // ------------------------------------------------------------------

  function RoleName(role: Role): string {
    match role
    case Worker => "worker"
    case Coordinator => "coordinator"
    case Subcoordinator => "subcoordinator"
  }

  function PermissionName(p: Permission): string {
    match p
    case ReadState => "read_state"
    case RemoteManagement => "remote_management"
    case ProcessTermination => "process_termination"
    case ProcessForceTermination => "process_force_termination"
    case Cleanup => "cleanup"
  }

  function Strings(names: seq<string>): seq<Json> {
    seq(|names|, i requires 0 <= i < |names| => JStr(names[i]))
  }

  function RoleNames(roles: set<Role>): seq<string> {
    SortedStrings(set r | r in roles :: RoleName(r))
  }

  function PermissionNames(permissions: set<Permission>): seq<string> {
    SortedStrings(set p | p in permissions :: PermissionName(p))
  }

  function AssignmentObject(node: string, names: seq<string>, paused: bool, revoked: bool, job: bool): Object
    requires names != []
  {
    map[
      "node_id" := JStr(node),
      "roles" := JList(Strings(names)),
      "paused" := JBool(paused),
      "revoked" := JBool(revoked),
      "has_active_job" := JBool(job),
      "role" := JStr(names[0])
    ]
  }

  /** Unbound assignments are skipped before this is reached. */
  function EncodeAssignment(a: RoleAssignment): Json
    requires a.nodeId.Some?
  {
    RoleNamesMean(a.roles);
    JObj(AssignmentObject(a.nodeId.value, RoleNames(a.roles), a.paused, a.revoked, a.hasActiveJob))
  }

  function EncodeAssignments(assignments: seq<RoleAssignment>): seq<Json> {
    if assignments == [] then []
    else (if assignments[0].nodeId.Some? then [EncodeAssignment(assignments[0])] else []) + EncodeAssignments(assignments[1..])
  }

  function EncodeEpoch(epoch: Option<CoordinatorEpoch>): Json {
    match epoch
    case None => JNull
    case Some(e) => JObj(map[
      "epoch" := JInt(e.epoch),
      "coordinator_id" := JStr(e.coordinatorId),
      "fencing_token" := JStr(e.fencingToken),
      "issued_at" := JNum(e.issuedAt),
      "lease_expires_at" := JNum(e.leaseExpiresAt)
    ])
  }

  function EncodeGrant(g: CapabilityGrant): Json {
    JObj(map[
      "subject" := JStr(g.subject),
      "target" := JStr(g.target),
      "permissions" := JList(Strings(PermissionNames(g.permissions))),
      "issued_at" := JNum(g.issuedAt),
      "expires_at" := JNum(g.expiresAt)
    ])
  }

  /** `invite_to_dict`: everything but the token. */
  function EncodeInvite(i: Invite): Json {
    JObj(map[
      "token_hash" := JStr(i.tokenHash),
      "target_node_id" := JStr(i.targetNodeId),
      "expires_at" := JNum(i.expiresAt),
      "cluster_id" := JStr(i.clusterId),
      "coordinator_id" := JStr(i.coordinatorId),
      "epoch" := JInt(i.epoch),
      "fencing_token" := JStr(i.fencingToken)
    ])
  }

  function Each<T>(xs: seq<T>, encode: T -> Json): seq<Json> {
    seq(|xs|, i requires 0 <= i < |xs| => encode(xs[i]))
  }

  function EncodePromotions(epochs: set<nat>): seq<Json> {
    Each(SortedNats(epochs), (e: nat) => JInt(e))
  }

  /** None stands for the error of the RoleState constructor. */
  function ToDict(s: ClusterState): Option<Json> {
    if !Consistent(RoleStateOf(s)) then None
    else Some(JObj(map[
      "assignments" := JList(EncodeAssignments(s.roleAssignments)),
      "epoch" := EncodeEpoch(s.coordinatorEpoch),
      "promotion_epochs" := JList(EncodePromotions(s.promotionEpochs)),
      "capability_grants" := JList(Each(s.capabilityGrants, EncodeGrant)),
      "schema_version" := JInt(2),
      "cluster_id" := JStr(s.clusterId),
      "local_node_id" := JStr(s.localNodeId),
      "local_id" := JStr(s.localNodeId),
      "active_invites" := JList(Each(s.activeInvites, EncodeInvite)),
      "join_admissions" := JList(Each(s.joinAdmissions, EncodeInvite)),
      "used_invites" := JList(Strings(SortedStrings(s.usedInvites)))
    ]))
  }

  // ------------------------------------------------------------------
  // Decoding
  // ------------------------------------------------------------------

  function RoleNamed(name: string): Decoded<Role> {
    if name == "worker" then Ok(Worker)
    else if name == "coordinator" then Ok(Coordinator)
    else if name == "subcoordinator" then Ok(Subcoordinator)
    else Err(MalformedState)
  }

  function PermissionNamed(name: string): Decoded<Permission> {
    if name == "read_state" then Ok(ReadState)
    else if name == "remote_management" then Ok(RemoteManagement)
    else if name == "process_termination" then Ok(ProcessTermination)
    else if name == "process_force_termination" then Ok(ProcessForceTermination)
    else if name == "cleanup" then Ok(Cleanup)
    else Err(MalformedState)
  }

  /** Decode every item of a list, in order. */
  function DecodeEach<T>(raws: seq<Json>, decode: Json -> Decoded<T>): Decoded<seq<T>> {
    if raws == [] then Ok([])
    else
      var first :- decode(raws[0]);
      var rest :- DecodeEach(raws[1..], decode);
      Ok([first] + rest)
  }

  /** A field that must be a list, with its default. */
  function ListField(o: Object, key: string): Decoded<seq<Json>> {
    match Get(o, key, JList([]))
    case JList(items) => Ok(items)
    case _ => Err(MalformedState)
  }

  function StringField(o: Object, key: string): Decoded<string> {
    match Lookup(o, key)
    case JStr(s) => Ok(s)
    case _ => Err(MalformedState)
  }

  function BoolField(o: Object, key: string): Decoded<bool> {
    match Get(o, key, JBool(false))
    case JBool(b) => Ok(b)
    case _ => Err(MalformedState)
  }

  function NumberField(o: Object, key: string): Decoded<real> {
    match FiniteNumber(Lookup(o, key))
    case Some(x) => Ok(x)
    case None => Err(MalformedState)
  }

  function MakeNodeId(s: string): Decoded<NodeId> {
    if ValidNodeId(s) then Ok(s) else Err(MalformedState)
  }

  function ParseRole(raw: Json): Decoded<Role> {
    if raw.JStr? then RoleNamed(raw.str) else Err(MalformedState)
  }

  function ParsePermission(raw: Json): Decoded<Permission> {
    if raw.JStr? then PermissionNamed(raw.str) else Err(MalformedState)
  }

  function Members<T>(s: seq<T>): set<T> {
    set x | x in s
  }

  /** The former single `role` stands in for missing `roles`. */
  function RolesField(o: Object): Decoded<seq<Json>> {
    match Lookup(o, "roles")
    case JList(items) => Ok(items)
    case JNull => if Lookup(o, "role").JStr? then Ok([o["role"]]) else Err(MalformedState)
    case _ => Err(MalformedState)
  }

  function DecodeAssignment(raw: Json): Decoded<RoleAssignment> {
    if !raw.JObj? then Err(MalformedState)
    else
      var names :- RolesField(raw.fields);
      var node :- StringField(raw.fields, "node_id");
      var paused :- BoolField(raw.fields, "paused");
      var revoked :- BoolField(raw.fields, "revoked");
      var _ :- BoolField(raw.fields, "has_active_job");
      var roles :- DecodeEach(names, ParseRole);
      var nodeId :- MakeNodeId(node);
      match MakeAssignment(Members(roles), Some(nodeId), paused, revoked, false)
      case Ok(a) => Ok(a)
      case Err(_) => Err(MalformedState)
  }

  function MakeEpoch(epoch: int, coordinatorId: NodeId, token: string, issuedAt: real, leaseExpiresAt: real): Decoded<CoordinatorEpoch> {
    if epoch < 0 then Err(MalformedState)
    else
      var e := RawEpoch.CoordinatorEpoch(epoch, coordinatorId, token, issuedAt, leaseExpiresAt);
      if ValidEpoch(e) then Ok(e) else Err(MalformedState)
  }

  function DecodeEpoch(raw: Json): Decoded<Option<CoordinatorEpoch>> {
    if raw.JNull? then Ok(None)
    else if !raw.JObj? || !Lookup(raw.fields, "epoch").JInt? then Err(MalformedState)
    else
      var node :- StringField(raw.fields, "coordinator_id");
      var token :- StringField(raw.fields, "fencing_token");
      var coordinatorId :- MakeNodeId(node);
      var issuedAt :- NumberField(raw.fields, "issued_at");
      var leaseExpiresAt :- NumberField(raw.fields, "lease_expires_at");
      var epoch :- MakeEpoch(raw.fields["epoch"].integer, coordinatorId, token, issuedAt, leaseExpiresAt);
      Ok(Some(epoch))
  }

  function DecodePromotion(raw: Json): Decoded<nat> {
    if raw.JInt? && raw.integer >= 0 then Ok(raw.integer) else Err(MalformedState)
  }

  function DecodeGrant(raw: Json): Decoded<CapabilityGrant> {
    if !raw.JObj? || !Lookup(raw.fields, "permissions").JList? then Err(MalformedState)
    else
      var subjectName :- StringField(raw.fields, "subject");
      var targetName :- StringField(raw.fields, "target");
      var subject :- MakeNodeId(subjectName);
      var target :- MakeNodeId(targetName);
      var permissions :- DecodeEach(raw.fields["permissions"].items, ParsePermission);
      var issuedAt :- NumberField(raw.fields, "issued_at");
      var expiresAt :- NumberField(raw.fields, "expires_at");
      match MakeGrant(subject, target, Members(permissions), issuedAt, expiresAt)
      case Ok(g) => Ok(g)
      case Err(_) => Err(MalformedState)
  }

  function RoleStateFromDict(o: Object): Decoded<RoleState> {
    if "assignments" !in o then Err(MalformedState)
    else
      var rawAssignments :- ListField(o, "assignments");
      var assignments :- DecodeEach(rawAssignments, DecodeAssignment);
      var epoch :- DecodeEpoch(Lookup(o, "epoch"));
      var rawPromotions :- ListField(o, "promotion_epochs");
      var promotions :- DecodeEach(rawPromotions, DecodePromotion);
      var rawGrants :- ListField(o, "capability_grants");
      var grants :- DecodeEach(rawGrants, DecodeGrant);
      var s := RoleState(assignments, epoch, Members(promotions), grants);
      if Consistent(s) then Ok(s) else Err(MalformedState)
  }

  function TextOr(o: Object, key: string): Decoded<string> {
    match Get(o, key, JStr(""))
    case JStr(s) => Ok(s)
    case _ => Err(MalformedState)
  }

  function DecodeInvite(raw: Json): Decoded<Invite> {
    if !raw.JObj? || !Lookup(raw.fields, "epoch").JInt? || raw.fields["epoch"].integer < 0 then Err(MalformedState)
    else
      var tokenHash :- StringField(raw.fields, "token_hash");
      var target :- TextOr(raw.fields, "target_node_id");
      var cluster :- TextOr(raw.fields, "cluster_id");
      var coordinator :- TextOr(raw.fields, "coordinator_id");
      var fence :- TextOr(raw.fields, "fencing_token");
      var expiresAt :- NumberField(raw.fields, "expires_at");
      if tokenHash == "" then Err(MalformedState)
      else Ok(RawInvite.InviteRecord(tokenHash, target, expiresAt, "", cluster, coordinator, raw.fields["epoch"].integer, fence))
  }

  function DecodeUsed(raw: Json): Decoded<string> {
    if raw.JStr? && raw.str != "" then Ok(raw.str) else Err(MalformedState)
  }

  /** A marker that is not a digest is a token of an old version, and is hashed. */
  function Canonical(hash: string -> string, marker: string): string {
    if IsDigest(marker) then marker else hash(marker)
  }

  /** Documents of older versions: `role_assignments`, and an epoch that is a number. */
  function Modernized(o: Object): Object {
    var withAssignments :=
      if "assignments" !in o && "role_assignments" in o then o["assignments" := o["role_assignments"]] else o;
    if Lookup(withAssignments, "epoch").JInt? then
      withAssignments["epoch" := JObj(map[
        "epoch" := Lookup(withAssignments, "epoch"),
        "coordinator_id" := Lookup(withAssignments, "coordinator_id"),
        "fencing_token" := Lookup(withAssignments, "fencing_token"),
        "issued_at" := JNum(0.0),
        "lease_expires_at" := JNum(0.0)
      ])]
    else withAssignments
  }

  function Identity(o: Object, key: string, default: Json): Decoded<string> {
    match Get(o, key, default)
    case JStr(s) => if s == "" then Err(MalformedState) else Ok(s)
    case _ => Err(MalformedState)
  }

  function ListOf<T>(o: Object, key: string, decode: Json -> Decoded<T>): Decoded<seq<T>> {
    var raws :- ListField(o, key);
    DecodeEach(raws, decode)
  }

  function FromDict(hash: string -> string, document: Json): Decoded<ClusterState> {
    if !document.JObj? || !NumberEquals(Get(document.fields, "schema_version", JInt(2)), 2) then Err(MalformedState)
    else
      var o := document.fields;
      var roles :- RoleStateFromDict(Modernized(o));
      var localNodeId :- Identity(o, "local_node_id", Get(o, "local_id", JStr("local")));
      var clusterId :- Identity(o, "cluster_id", JStr("local-cluster"));
      var invites :- ListOf(o, "active_invites", DecodeInvite);
      var admissions :- ListOf(o, "join_admissions", DecodeInvite);
      var used :- ListOf(o, "used_invites", DecodeUsed);
      Ok(ClusterState(
        localNodeId, clusterId, roles.assignments, roles.epoch, invites, admissions,
        set m | m in used :: Canonical(hash, m), roles.promotionEpochs, roles.capabilityGrants))
  }

  // ------------------------------------------------------------------
  // Lists and names
  // ------------------------------------------------------------------

  lemma {:induction false} DecodeAll<T>(raws: seq<Json>, decode: Json -> Decoded<T>, xs: seq<T>)
    requires |raws| == |xs| && forall i | 0 <= i < |xs| :: decode(raws[i]) == Ok(xs[i])
    ensures DecodeEach(raws, decode) == Ok(xs)
  {
    if xs != [] {
      DecodeAll(raws[1..], decode, xs[1..]);
      assert [xs[0]] + xs[1..] == xs;
    }
  }

  lemma {:induction false} DecodeNone<T>(raws: seq<Json>, decode: Json -> Decoded<T>, i: nat)
    requires i < |raws| && decode(raws[i]).Err?
    ensures DecodeEach(raws, decode) == Err(MalformedState)
  {
    var first := decode(raws[0]);
    if i > 0 { DecodeNone(raws[1..], decode, i - 1); }
    if first.Err? { assert first.error == MalformedState; }
  }

  lemma DecodeFirst<T>(raw: Json, raws: seq<Json>, decode: Json -> Decoded<T>)
    requires decode(raw).Ok? && DecodeEach(raws, decode).Ok?
    ensures DecodeEach([raw] + raws, decode) == Ok([decode(raw).value] + DecodeEach(raws, decode).value)
  {
    assert ([raw] + raws)[1..] == raws;
  }

  /** Names that a parser takes back to the values they name give back the set. */
  lemma DecodeNames<T(!new)>(names: seq<string>, decode: Json -> Decoded<T>, wanted: set<T>, name: T -> string)
    requires forall x :: decode(JStr(name(x))) == Ok(x)
    requires forall n :: n in names <==> exists x | x in wanted :: name(x) == n
    ensures DecodeEach(Strings(names), decode).Ok? && Members(DecodeEach(Strings(names), decode).value) == wanted
  {
    forall i | 0 <= i < |names| ensures decode(JStr(names[i])).Ok? {
      assert names[i] in names;
    }
    var xs := seq(|names|, i requires 0 <= i < |names| => decode(JStr(names[i])).value);
    DecodeAll(Strings(names), decode, xs);
    forall x ensures x in xs <==> x in wanted {
      if x in wanted {
        assert name(x) in names;
        var i :| 0 <= i < |names| && names[i] == name(x);
        assert xs[i] == x;
      }
      if x in xs {
        var i :| 0 <= i < |xs| && xs[i] == x;
        assert names[i] in names;
      }
    }
  }

  lemma RoleNamesMean(roles: set<Role>)
    ensures roles != {} ==> RoleNames(roles) != []
    ensures DecodeEach(Strings(RoleNames(roles)), ParseRole).Ok?
    ensures Members(DecodeEach(Strings(RoleNames(roles)), ParseRole).value) == roles
  {
    var names := RoleNames(roles);
    forall r | r in roles ensures RoleName(r) in names {
      assert RoleName(r) in set q | q in roles :: RoleName(q);
    }
    DecodeNames(names, ParseRole, roles, RoleName);
    if r :| r in roles { assert RoleName(r) in names; }
  }

  lemma PermissionParses(p: Permission)
    ensures ParsePermission(JStr(PermissionName(p))) == Ok(p)
  {
  }

  lemma PermissionNamesMean(permissions: set<Permission>)
    ensures DecodeEach(Strings(PermissionNames(permissions)), ParsePermission).Ok?
    ensures Members(DecodeEach(Strings(PermissionNames(permissions)), ParsePermission).value) == permissions
  {
    var names := PermissionNames(permissions);
    forall p | p in permissions ensures PermissionName(p) in names {
      assert PermissionName(p) in set q | q in permissions :: PermissionName(q);
    }
    forall p ensures ParsePermission(JStr(PermissionName(p))) == Ok(p) {
      PermissionParses(p);
    }
    DecodeNames(names, ParsePermission, permissions, PermissionName);
  }

  // ------------------------------------------------------------------
  // Round trips of the parts
  // ------------------------------------------------------------------

  function Jobless(a: RoleAssignment): RoleAssignment {
    a.(hasActiveJob := false)
  }

  predicate IsBound(a: RoleAssignment) {
    a.nodeId.Some?
  }

  /** Bound assignments, without their active jobs. */
  function Stored(assignments: seq<RoleAssignment>): seq<RoleAssignment> {
    if assignments == [] then []
    else (if IsBound(assignments[0]) then [Jobless(assignments[0])] else []) + Stored(assignments[1..])
  }

  lemma AssignmentFields(node: string, names: seq<string>, paused: bool, revoked: bool, job: bool)
    requires names != []
    ensures var o := AssignmentObject(node, names, paused, revoked, job);
            && RolesField(o) == Ok(Strings(names)) && StringField(o, "node_id") == Ok(node)
            && BoolField(o, "paused") == Ok(paused) && BoolField(o, "revoked") == Ok(revoked)
            && BoolField(o, "has_active_job") == Ok(job)
  {
  }

  lemma AssignmentRemade(a: RoleAssignment)
    ensures MakeAssignment(a.roles, a.nodeId, a.paused, a.revoked, false) == Result<RoleAssignment, Error>.Ok(Jobless(a))
  {
    if Coordinator in a.roles { assert a.roles + {Worker} == a.roles; }
  }

  lemma AssignmentRoundTrip(a: RoleAssignment)
    requires a.nodeId.Some?
    ensures DecodeAssignment(EncodeAssignment(a)) == Ok(Jobless(a))
  {
    RoleNamesMean(a.roles);
    AssignmentFields(a.nodeId.value, RoleNames(a.roles), a.paused, a.revoked, a.hasActiveJob);
    AssignmentRemade(a);
  }

  lemma {:induction false} AssignmentsRoundTrip(assignments: seq<RoleAssignment>)
    ensures DecodeEach(EncodeAssignments(assignments), DecodeAssignment) == Ok(Stored(assignments))
  {
    if assignments != [] {
      AssignmentsRoundTrip(assignments[1..]);
      if IsBound(assignments[0]) {
        AssignmentRoundTrip(assignments[0]);
        DecodeFirst(EncodeAssignment(assignments[0]), EncodeAssignments(assignments[1..]), DecodeAssignment);
      } else {
        assert EncodeAssignments(assignments) == EncodeAssignments(assignments[1..]);
        assert Stored(assignments) == Stored(assignments[1..]);
      }
    }
  }

  lemma EpochRoundTrip(epoch: Option<CoordinatorEpoch>)
    ensures DecodeEpoch(EncodeEpoch(epoch)) == Ok(epoch)
  {
  }

  lemma GrantFields(g: CapabilityGrant)
    ensures EncodeGrant(g).JObj?
    ensures var o := EncodeGrant(g).fields;
            && Lookup(o, "permissions") == JList(Strings(PermissionNames(g.permissions)))
            && o["permissions"] == Lookup(o, "permissions")
            && StringField(o, "subject") == Ok(g.subject) && StringField(o, "target") == Ok(g.target)
            && NumberField(o, "issued_at") == Ok(g.issuedAt) && NumberField(o, "expires_at") == Ok(g.expiresAt)
  {
  }

  lemma GrantRoundTrip(g: CapabilityGrant)
    ensures DecodeGrant(EncodeGrant(g)) == Ok(g)
  {
    GrantFields(g);
    PermissionNamesMean(g.permissions);
  }

  lemma GrantsRoundTrip(grants: seq<CapabilityGrant>)
    ensures DecodeEach(Each(grants, EncodeGrant), DecodeGrant) == Ok(grants)
  {
    forall i | 0 <= i < |grants| ensures DecodeGrant(Each(grants, EncodeGrant)[i]) == Ok(grants[i]) {
      GrantRoundTrip(grants[i]);
    }
    DecodeAll(Each(grants, EncodeGrant), DecodeGrant, grants);
  }

  lemma PromotionsRoundTrip(epochs: set<nat>)
    ensures DecodeEach(EncodePromotions(epochs), DecodePromotion) == Ok(SortedNats(epochs))
    ensures Members(SortedNats(epochs)) == epochs
  {
    DecodeAll(EncodePromotions(epochs), DecodePromotion, SortedNats(epochs));
  }

  lemma InviteRoundTrip(i: Invite)
    ensures DecodeInvite(EncodeInvite(i)) == if i.epoch >= 0 then Ok(i.(token := "")) else Err(MalformedState)
  {
  }

  function Tokenless(invites: seq<Invite>): seq<Invite> {
    seq(|invites|, k requires 0 <= k < |invites| => invites[k].(token := ""))
  }

  predicate EpochsCount(invites: seq<Invite>) {
    forall i | i in invites :: i.epoch >= 0
  }

  lemma InvitesRoundTrip(invites: seq<Invite>)
    ensures DecodeEach(Each(invites, EncodeInvite), DecodeInvite) ==
            if EpochsCount(invites) then Ok(Tokenless(invites)) else Err(MalformedState)
  {
    forall k | 0 <= k < |invites|
      ensures DecodeInvite(Each(invites, EncodeInvite)[k]) ==
              if invites[k].epoch >= 0 then Ok(Tokenless(invites)[k]) else Err(MalformedState)
    {
      InviteRoundTrip(invites[k]);
    }
    if EpochsCount(invites) {
      DecodeAll(Each(invites, EncodeInvite), DecodeInvite, Tokenless(invites));
    } else {
      var k :| 0 <= k < |invites| && invites[k].epoch < 0;
      DecodeNone(Each(invites, EncodeInvite), DecodeInvite, k);
    }
  }

  lemma UsedRoundTrip(used: set<string>)
    ensures var r := DecodeEach(Strings(SortedStrings(used)), DecodeUsed);
            if "" in used then r == Err(MalformedState) else r == Ok(SortedStrings(used))
  {
    var names := SortedStrings(used);
    if "" in used {
      var k :| 0 <= k < |names| && names[k] == "";
      DecodeNone(Strings(names), DecodeUsed, k);
    } else {
      DecodeAll(Strings(names), DecodeUsed, names);
    }
  }

  // ------------------------------------------------------------------
  // The aggregate
  // ------------------------------------------------------------------

  /** What persisting and reloading a state makes of it. */
  function Persisted(hash: string -> string, s: ClusterState): ClusterState {
    s.(
      roleAssignments := Stored(s.roleAssignments),
      activeInvites := Tokenless(s.activeInvites),
      joinAdmissions := Tokenless(s.joinAdmissions),
      usedInvites := set m | m in s.usedInvites :: Canonical(hash, m)
    )
  }

  /** What the decoder checks beyond the constructors. */
  predicate Encodable(s: ClusterState) {
    && s.localNodeId != "" && s.clusterId != ""
    && EpochsCount(s.activeInvites) && EpochsCount(s.joinAdmissions)
    && "" !in s.usedInvites
  }

  lemma {:induction false} StoredMembers(assignments: seq<RoleAssignment>)
    ensures forall b | b in Stored(assignments) :: IsBound(b) && !b.hasActiveJob && exists a :: a in assignments && Jobless(a) == b
  {
    if assignments != [] {
      StoredMembers(assignments[1..]);
      forall b | b in Stored(assignments) ensures IsBound(b) && !b.hasActiveJob && exists a :: a in assignments && Jobless(a) == b {
        if b in Stored(assignments[1..]) {
          var a :| a in assignments[1..] && Jobless(a) == b;
          assert a in assignments;
        } else {
          assert assignments[0] in assignments;
        }
      }
    }
  }

  lemma {:induction false} StoredCompatible(assignments: seq<RoleAssignment>)
    requires AllCompatible(assignments)
    ensures AllCompatible(Stored(assignments))
  {
    if assignments != [] {
      StoredCompatible(assignments[1..]);
      if IsBound(assignments[0]) {
        StoredMembers(assignments[1..]);
        forall b | b in Stored(assignments[1..]) ensures Compatible(Jobless(assignments[0]), b) {
          var a :| a in assignments[1..] && Jobless(a) == b;
          var k :| 0 <= k < |assignments[1..]| && assignments[1..][k] == a;
          assert Compatible(assignments[0], assignments[k + 1]);
        }
        ConsCompatible(Jobless(assignments[0]), Stored(assignments[1..]));
      }
    }
  }

  lemma StoredConsistent(assignments: seq<RoleAssignment>)
    requires DistinctNodes(assignments)
    requires AtMostOneActive(assignments, Coordinator) && AtMostOneActive(assignments, Subcoordinator)
    ensures DistinctNodes(Stored(assignments))
    ensures AtMostOneActive(Stored(assignments), Coordinator) && AtMostOneActive(Stored(assignments), Subcoordinator)
  {
    CompatibleMeans(assignments);
    StoredCompatible(assignments);
    CompatibleMeans(Stored(assignments));
  }

  /** The fields of an encoded state, as the decoder looks them up. */
  lemma EncodedFields(s: ClusterState)
    requires Consistent(RoleStateOf(s))
    ensures var document := ToDict(s).value;
            && document.JObj?
            && var o := document.fields;
            && Get(o, "schema_version", JInt(2)) == JInt(2)
            && "assignments" in o
            && ListField(o, "assignments") == Ok(EncodeAssignments(s.roleAssignments))
            && Lookup(o, "epoch") == EncodeEpoch(s.coordinatorEpoch)
            && ListField(o, "promotion_epochs") == Ok(EncodePromotions(s.promotionEpochs))
            && ListField(o, "capability_grants") == Ok(Each(s.capabilityGrants, EncodeGrant))
  {
  }

  /** What is written is not a document of an older version. */
  lemma EncodedIsModern(s: ClusterState)
    requires Consistent(RoleStateOf(s))
    ensures Modernized(ToDict(s).value.fields) == ToDict(s).value.fields
  {
    EncodedFields(s);
  }

  lemma EncodedOtherFields(s: ClusterState)
    requires Consistent(RoleStateOf(s))
    ensures var o := ToDict(s).value.fields;
            && Identity(o, "local_node_id", Get(o, "local_id", JStr("local"))) ==
               (if s.localNodeId == "" then Err(MalformedState) else Ok(s.localNodeId))
            && Identity(o, "cluster_id", JStr("local-cluster")) ==
               (if s.clusterId == "" then Err(MalformedState) else Ok(s.clusterId))
            && ListField(o, "active_invites") == Ok(Each(s.activeInvites, EncodeInvite))
            && ListField(o, "join_admissions") == Ok(Each(s.joinAdmissions, EncodeInvite))
            && ListField(o, "used_invites") == Ok(Strings(SortedStrings(s.usedInvites)))
  {
  }

  lemma InviteListsRoundTrip(s: ClusterState)
    requires Consistent(RoleStateOf(s))
    ensures var o := ToDict(s).value.fields;
            && ListOf(o, "active_invites", DecodeInvite) ==
               (if EpochsCount(s.activeInvites) then Ok(Tokenless(s.activeInvites)) else Err(MalformedState))
            && ListOf(o, "join_admissions", DecodeInvite) ==
               (if EpochsCount(s.joinAdmissions) then Ok(Tokenless(s.joinAdmissions)) else Err(MalformedState))
            && ListOf(o, "used_invites", DecodeUsed) ==
               (if "" in s.usedInvites then Err(MalformedState) else Ok(SortedStrings(s.usedInvites)))
  {
    EncodedOtherFields(s);
    InvitesRoundTrip(s.activeInvites);
    InvitesRoundTrip(s.joinAdmissions);
    UsedRoundTrip(s.usedInvites);
  }

  lemma RoleStateRoundTrip(s: ClusterState)
    requires Consistent(RoleStateOf(s))
    ensures RoleStateFromDict(Modernized(ToDict(s).value.fields)) ==
            Ok(RoleStateOf(s).(assignments := Stored(s.roleAssignments)))
  {
    EncodedFields(s);
    EncodedIsModern(s);
    AssignmentsRoundTrip(s.roleAssignments);
    EpochRoundTrip(s.coordinatorEpoch);
    PromotionsRoundTrip(s.promotionEpochs);
    GrantsRoundTrip(s.capabilityGrants);
    StoredConsistent(s.roleAssignments);
  }

  lemma EncodableRoundTrip(hash: string -> string, s: ClusterState)
    requires Consistent(RoleStateOf(s)) && Encodable(s)
    ensures FromDict(hash, ToDict(s).value) == Ok(Persisted(hash, s))
  {
    EncodedFields(s);
    RoleStateRoundTrip(s);
    EncodedOtherFields(s);
    InviteListsRoundTrip(s);
    assert (set m | m in SortedStrings(s.usedInvites) :: Canonical(hash, m)) == (set m | m in s.usedInvites :: Canonical(hash, m));
  }

  lemma OthersAreRejected(hash: string -> string, s: ClusterState)
    requires Consistent(RoleStateOf(s)) && !Encodable(s)
    ensures FromDict(hash, ToDict(s).value) == Err(MalformedState)
  {
    EncodedFields(s);
    RoleStateRoundTrip(s);
    EncodedOtherFields(s);
    InviteListsRoundTrip(s);
  }

  /** `from_dict(to_dict(s))` succeeds exactly for encodable states, and then yields the
      state without tokens, active jobs and unbound assignments. */
  lemma RoundTrip(hash: string -> string, s: ClusterState)
    requires Consistent(RoleStateOf(s))
    ensures ToDict(s).Some?
    ensures FromDict(hash, ToDict(s).value) == if Encodable(s) then Ok(Persisted(hash, s)) else Err(MalformedState)
  {
    if Encodable(s) { EncodableRoundTrip(hash, s); } else { OthersAreRejected(hash, s); }
  }

  lemma {:induction false} StoredBound(assignments: seq<RoleAssignment>)
    requires forall a | a in assignments :: IsBound(a)
    ensures |Stored(assignments)| == |assignments|
    ensures forall i | 0 <= i < |assignments| :: Stored(assignments)[i] == Jobless(assignments[i])
  {
    if assignments != [] { StoredBound(assignments[1..]); }
  }

  /** Once every assignment is bound and every marker a digest, only tokens and active
      jobs are lost. */
  lemma BoundRoundTrip(hash: string -> string, s: ClusterState)
    requires Consistent(RoleStateOf(s)) && Encodable(s)
    requires (forall a | a in s.roleAssignments :: IsBound(a)) && (forall m | m in s.usedInvites :: IsDigest(m))
    ensures FromDict(hash, ToDict(s).value).Ok?
    ensures var t := FromDict(hash, ToDict(s).value).value;
            && t == s.(roleAssignments := t.roleAssignments, activeInvites := Tokenless(s.activeInvites),
                       joinAdmissions := Tokenless(s.joinAdmissions))
            && |t.roleAssignments| == |s.roleAssignments|
            && forall i | 0 <= i < |s.roleAssignments| :: t.roleAssignments[i] == Jobless(s.roleAssignments[i])
  {
    RoundTrip(hash, s);
    StoredBound(s.roleAssignments);
    assert (set m | m in s.usedInvites :: Canonical(hash, m)) == s.usedInvites;
  }

  /** A second round trip changes nothing. */
  lemma SecondRoundTrip(hash: string -> string, s: ClusterState)
    requires Consistent(RoleStateOf(s)) && Encodable(s) && forall x :: IsDigest(hash(x))
    ensures var t := Persisted(hash, s);
            ToDict(t).Some? && FromDict(hash, ToDict(t).value) == Ok(t)
  {
    var t := Persisted(hash, s);
    StoredConsistent(s.roleAssignments);
    StoredMembers(s.roleAssignments);
    IdleIsStable(hash, t);
  }

  /** A property of everything a decoder produces holds of every item of a decoded list. */
  lemma {:induction false} DecodedEach<T>(raws: seq<Json>, decode: Json -> Decoded<T>, p: T -> bool)
    requires forall raw :: decode(raw).Ok? ==> p(decode(raw).value)
    ensures DecodeEach(raws, decode).Ok? ==> forall x | x in DecodeEach(raws, decode).value :: p(x)
  {
    if raws != [] { DecodedEach(raws[1..], decode, p); }
  }

  predicate BoundAndIdle(a: RoleAssignment) {
    IsBound(a) && !a.hasActiveJob
  }

  predicate WithoutToken(i: Invite) {
    i.token == "" && i.epoch >= 0
  }

  predicate Saved(invites: seq<Invite>) {
    forall i | i in invites :: WithoutToken(i)
  }

  lemma SavedIsTokenless(invites: seq<Invite>)
    requires Saved(invites)
    ensures EpochsCount(invites) && Tokenless(invites) == invites
  {
    forall i | i in invites ensures i.epoch >= 0 && i.(token := "") == i {
      assert WithoutToken(i);
    }
    assert forall k | 0 <= k < |invites| :: invites[k] in invites;
  }

  lemma DecodedInvites(o: Object, key: string)
    ensures ListOf(o, key, DecodeInvite).Ok? ==> Saved(ListOf(o, key, DecodeInvite).value)
  {
    if ListField(o, key).Ok? { DecodedEach(ListField(o, key).value, DecodeInvite, WithoutToken); }
  }

  lemma DecodedParts(hash: string -> string, document: Json)
    requires FromDict(hash, document).Ok? && forall x :: IsDigest(hash(x))
    ensures var s := FromDict(hash, document).value;
            && Consistent(RoleStateOf(s)) && s.localNodeId != "" && s.clusterId != ""
            && (forall a | a in s.roleAssignments :: BoundAndIdle(a))
            && Saved(s.activeInvites) && Saved(s.joinAdmissions)
            && (forall m | m in s.usedInvites :: IsDigest(m))
  {
    var o := document.fields;
    DecodedEach(ListField(Modernized(o), "assignments").value, DecodeAssignment, BoundAndIdle);
    DecodedInvites(o, "active_invites");
    DecodedInvites(o, "join_admissions");
  }

  /** Whatever the decoder accepts can be written and read again unchanged. */
  lemma DecodedIsStable(hash: string -> string, document: Json)
    requires FromDict(hash, document).Ok? && forall x :: IsDigest(hash(x))
    ensures var s := FromDict(hash, document).value;
            ToDict(s).Some? && FromDict(hash, ToDict(s).value) == Ok(s)
  {
    DecodedParts(hash, document);
    IdleIsStable(hash, FromDict(hash, document).value);
  }

  lemma IdleIsStable(hash: string -> string, s: ClusterState)
    requires Consistent(RoleStateOf(s)) && s.localNodeId != "" && s.clusterId != ""
    requires forall a | a in s.roleAssignments :: BoundAndIdle(a)
    requires Saved(s.activeInvites) && Saved(s.joinAdmissions)
    requires forall m | m in s.usedInvites :: IsDigest(m)
    ensures Encodable(s) && FromDict(hash, ToDict(s).value) == Ok(s)
  {
    SavedIsTokenless(s.activeInvites);
    SavedIsTokenless(s.joinAdmissions);
    IdleIsStored(s.roleAssignments);
    DigestsStay(hash, s.usedInvites);
    assert !IsDigest("");
    assert "" !in s.usedInvites;
    RoundTrip(hash, s);
  }

  lemma IdleIsStored(assignments: seq<RoleAssignment>)
    requires forall a | a in assignments :: BoundAndIdle(a)
    ensures Stored(assignments) == assignments
  {
    assert forall i | 0 <= i < |assignments| :: BoundAndIdle(assignments[i]);
    StoredBound(assignments);
  }

  lemma DigestsStay(hash: string -> string, markers: set<string>)
    requires forall m | m in markers :: IsDigest(m)
    ensures (set m | m in markers :: Canonical(hash, m)) == markers
  {
  }

  // ------------------------------------------------------------------
  // Older versions
  // ------------------------------------------------------------------

  /** An epoch that is a bare number is read with its holder and token and a lease that
      has run out at time zero. */
  lemma BareEpoch(hash: string -> string, o: Object)
    requires Lookup(o, "epoch").JInt? && FromDict(hash, JObj(o)).Ok?
    ensures var e := FromDict(hash, JObj(o)).value.coordinatorEpoch;
            && e.Some? && e.value.epoch == Lookup(o, "epoch").integer && e.value.leaseExpiresAt == 0.0
            && Lookup(o, "coordinator_id") == JStr(e.value.coordinatorId) && Lookup(o, "fencing_token") == JStr(e.value.fencingToken)
  {
    ModernEpoch(o);
  }

  lemma ModernEpoch(o: Object)
    requires Lookup(o, "epoch").JInt?
    ensures Lookup(Modernized(o), "epoch") == JObj(map[
              "epoch" := Lookup(o, "epoch"),
              "coordinator_id" := Lookup(o, "coordinator_id"),
              "fencing_token" := Lookup(o, "fencing_token"),
              "issued_at" := JNum(0.0),
              "lease_expires_at" := JNum(0.0)])
  {
  }

  /** A single `role` is read like the list of it. */
  lemma SingleRole(o: Object, role: string)
    requires Lookup(o, "roles").JNull? && Lookup(o, "role") == JStr(role)
    ensures DecodeAssignment(JObj(o)) == DecodeAssignment(JObj(o["roles" := JList([JStr(role)])]))
  {
  }

  // ------------------------------------------------------------------
  // The loops of the source
  // ------------------------------------------------------------------

  lemma {:induction false} EncodeAppend(assignments: seq<RoleAssignment>, a: RoleAssignment)
    ensures EncodeAssignments(assignments + [a]) ==
            EncodeAssignments(assignments) + if a.nodeId.Some? then [EncodeAssignment(a)] else []
  {
    var all := assignments + [a];
    if assignments == [] {
      assert all[1..] == [] && all[0] == a;
    } else {
      assert all[1..] == assignments[1..] + [a] && all[0] == assignments[0];
      EncodeAppend(assignments[1..], a);
      var first := if assignments[0].nodeId.Some? then [EncodeAssignment(assignments[0])] else [];
      assert EncodeAssignments(all) == first + EncodeAssignments(all[1..]);
      assert EncodeAssignments(assignments) == first + EncodeAssignments(assignments[1..]);
    }
  }

  /** `role_state_to_dict` over the assignments, skipping the unbound ones. */
  method ListAssignments(assignments: seq<RoleAssignment>) returns (items: seq<Json>)
    ensures items == EncodeAssignments(assignments)
  {
    items := [];
    for i := 0 to |assignments|
      invariant items == EncodeAssignments(assignments[..i])
    {
      EncodeAppend(assignments[..i], assignments[i]);
      assert assignments[..i + 1] == assignments[..i] + [assignments[i]];
      if assignments[i].nodeId.None? { continue; }
      items := items + [EncodeAssignment(assignments[i])];
    }
    assert assignments[..|assignments|] == assignments;
  }

  /** What a list decodes to, given what its first items and its rest decode to. */
  function Behind<T>(items: seq<T>, rest: Decoded<seq<T>>): Decoded<seq<T>> {
    if rest.Ok? then Ok(items + rest.value) else Err(rest.error)
  }

  lemma BehindNothing<T>(rest: Decoded<seq<T>>)
    ensures Behind([], rest) == rest
  {
    if rest.Ok? { assert [] + rest.value == rest.value; }
  }

  lemma BehindMore<T>(items: seq<T>, x: T, rest: Decoded<seq<T>>)
    ensures Behind(items + [x], rest) == if rest.Ok? then Behind(items, Ok([x] + rest.value)) else Err(rest.error)
  {
    if rest.Ok? { assert items + [x] + rest.value == items + ([x] + rest.value); }
  }

  /** Append what each item decodes to, giving up at the first malformed one. */
  method DecodeItems<T>(raws: seq<Json>, decode: Json -> Decoded<T>) returns (r: Decoded<seq<T>>)
    ensures r == DecodeEach(raws, decode)
  {
    var items := [];
    BehindNothing(DecodeEach(raws, decode));
    for i := 0 to |raws|
      invariant DecodeEach(raws, decode) == Behind(items, DecodeEach(raws[i..], decode))
    {
      assert raws[i..][1..] == raws[i + 1..];
      var item := decode(raws[i]);
      if item.Err? { return Err(item.error); }
      BehindMore(items, item.value, DecodeEach(raws[i + 1..], decode));
      items := items + [item.value];
    }
    assert items + [] == items;
    return Ok(items);
  }

  method ParseInvites(o: Object, field: string) returns (r: Decoded<seq<Invite>>)
    ensures r == ListOf(o, field, DecodeInvite)
  {
    var raws :- ListField(o, field);
    r := DecodeItems(raws, DecodeInvite);
  }

  method ReadRoleState(o: Object) returns (r: Decoded<RoleState>)
    ensures r == RoleStateFromDict(o)
  {
    if "assignments" !in o { return Err(MalformedState); }
    var rawAssignments :- ListField(o, "assignments");
    var assignments :- DecodeItems(rawAssignments, DecodeAssignment);
    var epoch :- DecodeEpoch(Lookup(o, "epoch"));
    var rawPromotions :- ListField(o, "promotion_epochs");
    var promotions :- DecodeItems(rawPromotions, DecodePromotion);
    var rawGrants :- ListField(o, "capability_grants");
    var grants :- DecodeItems(rawGrants, DecodeGrant);
    var s := RoleState(assignments, epoch, Members(promotions), grants);
    return if Consistent(s) then Ok(s) else Err(MalformedState);
  }

  method ReadClusterState(hash: string -> string, document: Json) returns (r: Decoded<ClusterState>)
    ensures r == FromDict(hash, document)
  {
    if !document.JObj? || !NumberEquals(Get(document.fields, "schema_version", JInt(2)), 2) { return Err(MalformedState); }
    var o := document.fields;
    var roles :- ReadRoleState(Modernized(o));
    var localNodeId :- Identity(o, "local_node_id", Get(o, "local_id", JStr("local")));
    var clusterId :- Identity(o, "cluster_id", JStr("local-cluster"));
    var invites :- ParseInvites(o, "active_invites");
    var admissions :- ParseInvites(o, "join_admissions");
    var rawUsed :- ListField(o, "used_invites");
    var used :- DecodeItems(rawUsed, DecodeUsed);
    return Ok(ClusterState(
      localNodeId, clusterId, roles.assignments, roles.epoch, invites, admissions,
      set m | m in used :: Canonical(hash, m), roles.promotionEpochs, roles.capabilityGrants));
  }
}
