/** cluster/operations.py: the aggregate that is persisted, its role-bearing part being
    the state of Roles. */
module ClusterState {
  import opened Wrappers
  import opened ClusterModels
  import opened Roles

  datatype RawInvite = InviteRecord(
    tokenHash: string,
    targetNodeId: string,
    expiresAt: real,
    token: string,
    clusterId: string,
    coordinatorId: string,
    epoch: int,
    fencingToken: string
  )

  type Invite = i: RawInvite | i.tokenHash != ""
    witness RawInvite.InviteRecord("h", "", 0.0, "", "", "", 0, "")

  datatype ClusterState = ClusterState(
    localNodeId: string,
    clusterId: string,
    roleAssignments: seq<RoleAssignment>,
    coordinatorEpoch: Option<CoordinatorEpoch>,
    activeInvites: seq<Invite>,
    joinAdmissions: seq<Invite>,
    usedInvites: set<string>,
    promotionEpochs: set<nat>,
    capabilityGrants: seq<CapabilityGrant>
  )

  function RoleStateOf(s: ClusterState): RoleState {
    RoleState(s.roleAssignments, s.coordinatorEpoch, s.promotionEpochs, s.capabilityGrants)
  }

  predicate IsDigest(s: string) {
    |s| == 64 && forall c | c in s :: c in "0123456789abcdef"
  }
}
