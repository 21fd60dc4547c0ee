/** cluster/models.py: the immutable values shared by the cluster state machine.

    A frozen dataclass cannot exist unless its constructor accepted it, so each
    value is a subset type: every place that builds one proves that the
    constructor accepts it, and `Make...` models the call with arbitrary input. */
module ClusterModels {
  import opened Wrappers

  /** identity/__init__.py: a non-empty id of at most 128 characters other than "local". */
  type NodeId = s: string | ValidNodeId(s) witness "n"

  predicate ValidNodeId(s: string) {
    s != "" && s != "local" && |s| <= 128
  }

  datatype Role = Worker | Coordinator | Subcoordinator

  datatype Permission = ReadState | RemoteManagement | ProcessTermination | ProcessForceTermination | Cleanup

  datatype Error =
    | RoleAuthorization // RoleAuthorizationError
    | Fencing           // FencingError
    | InvalidValue      // ValueError of a value's constructor
    | InconsistentState // ValueError of the RoleState constructor

  datatype RawAssignment = RoleAssignment(
    roles: set<Role>,
    nodeId: Option<NodeId>,
    paused: bool,
    revoked: bool,
    hasActiveJob: bool
  )

  type RoleAssignment = a: RawAssignment | ValidAssignment(a)
    witness RawAssignment.RoleAssignment({Worker}, None, false, false, false)

  predicate ValidAssignment(a: RawAssignment) {
    && a.roles != {}
    && (Coordinator in a.roles ==> Worker in a.roles && Subcoordinator !in a.roles)
    && !(a.revoked && a.paused)
  }

  /** The constructor: a Coordinator is also a Worker, no role means Worker. */
  function MakeAssignment(roles: set<Role>, nodeId: Option<NodeId>, paused: bool, revoked: bool, hasActiveJob: bool)
    : Result<RoleAssignment, Error>
  {
    var withWorker := if Coordinator in roles then roles + {Worker} else roles;
    var full := if withWorker == {} then {Worker} else withWorker;
    if Coordinator in full && Subcoordinator in full then Err(InvalidValue)
    else if revoked && paused then Err(InvalidValue)
    else Ok(RawAssignment.RoleAssignment(full, nodeId, paused, revoked, hasActiveJob))
  }

  datatype RawEpoch = CoordinatorEpoch(
    epoch: nat,
    coordinatorId: NodeId,
    fencingToken: string,
    issuedAt: real,
    leaseExpiresAt: real
  )

  type CoordinatorEpoch = e: RawEpoch | ValidEpoch(e)
    witness RawEpoch.CoordinatorEpoch(0, "n", "t", 0.0, 0.0)

  predicate ValidEpoch(e: RawEpoch) {
    e.fencingToken != "" && e.issuedAt <= e.leaseExpiresAt
  }

  datatype RawGrant = CapabilityGrant(
    subject: NodeId,
    target: NodeId,
    permissions: set<Permission>,
    issuedAt: real,
    expiresAt: real
  )

  type CapabilityGrant = g: RawGrant | ValidGrant(g)
    witness RawGrant.CapabilityGrant("n", "n", {ReadState}, 0.0, 1.0)

  predicate ValidGrant(g: RawGrant) {
    g.permissions != {} && g.issuedAt < g.expiresAt
  }

  function MakeGrant(subject: NodeId, target: NodeId, permissions: set<Permission>, issuedAt: real, expiresAt: real)
    : Result<CapabilityGrant, Error>
  {
    var g := RawGrant.CapabilityGrant(subject, target, permissions, issuedAt, expiresAt);
    if ValidGrant(g) then Ok(g) else Err(InvalidValue)
  }
}
