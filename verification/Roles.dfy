/** cluster/roles.py: role, capability, lease and promotion decisions.

    Every transition returns a new state or an error. Times are finite reals. */
module Roles {
  import opened Wrappers
  import opened ClusterModels

  const HEARTBEAT_TIMEOUT_SECONDS: real := 120.0

  datatype RoleState = RoleState(
    assignments: seq<RoleAssignment>,
    epoch: Option<CoordinatorEpoch>,
    promotionEpochs: set<nat>,
    capabilityGrants: seq<CapabilityGrant>
  )

  // ------------------------------------------------------------------
  // What the RoleState constructor checks
  // ------------------------------------------------------------------

  predicate ActiveAs(a: RoleAssignment, role: Role) {
    !a.revoked && role in a.roles
  }

  predicate DistinctNodes(assignments: seq<RoleAssignment>) {
    forall i, j | 0 <= i < j < |assignments| ::
      assignments[i].nodeId.Some? ==> assignments[i].nodeId != assignments[j].nodeId
  }

  predicate AtMostOneActive(assignments: seq<RoleAssignment>, role: Role) {
    forall i, j | 0 <= i < j < |assignments| ::
      !(&& assignments[i].nodeId.Some? && ActiveAs(assignments[i], role)
        && assignments[j].nodeId.Some? && ActiveAs(assignments[j], role))
  }

  predicate DistinctGrants(grants: seq<CapabilityGrant>) {
    forall i, j | 0 <= i < j < |grants| ::
      grants[i].subject != grants[j].subject || grants[i].target != grants[j].target
  }

  predicate Consistent(s: RoleState) {
    && DistinctNodes(s.assignments)
    && AtMostOneActive(s.assignments, Coordinator)
    && AtMostOneActive(s.assignments, Subcoordinator)
    && DistinctGrants(s.capabilityGrants)
  }

  function MakeRoleState(s: RoleState): Result<RoleState, Error> {
    if Consistent(s) then Ok(s) else Err(InconsistentState)
  }

  // ------------------------------------------------------------------
  // Lookups
  // ------------------------------------------------------------------

  /** The index dict keeps the last assignment of a node. */
  function AssignmentFor(assignments: seq<RoleAssignment>, node: NodeId): Option<RoleAssignment> {
    if assignments == [] then None
    else
      var last := assignments[|assignments| - 1];
      if last.nodeId == Some(node) then Some(last) else AssignmentFor(assignments[..|assignments| - 1], node)
  }

  function GrantFor(grants: seq<CapabilityGrant>, subject: NodeId, target: NodeId): Option<CapabilityGrant> {
    if grants == [] then None
    else
      var last := grants[|grants| - 1];
      if last.subject == subject && last.target == target then Some(last)
      else GrantFor(grants[..|grants| - 1], subject, target)
  }

  function Filter<T>(s: seq<T>, p: T -> bool): (r: seq<T>)
    ensures forall x | x in s :: p(x) ==> x in r
    ensures forall x | x in r :: x in s && p(x)
  {
    if s == [] then [] else (if p(s[0]) then [s[0]] else []) + Filter(s[1..], p)
  }

  function Replaced(assignments: seq<RoleAssignment>, node: NodeId, a: RoleAssignment): seq<RoleAssignment> {
    seq(|assignments|, i requires 0 <= i < |assignments| => if assignments[i].nodeId == Some(node) then a else assignments[i])
  }

  /** A grant is only meaningful from an active Subcoordinator to an active Worker. */
  predicate Backed(assignments: seq<RoleAssignment>, g: CapabilityGrant) {
    var subject, target := AssignmentFor(assignments, g.subject), AssignmentFor(assignments, g.target);
    && subject.Some? && ActiveAs(subject.value, Subcoordinator)
    && target.Some? && ActiveAs(target.value, Worker)
  }

  function PrunedGrants(assignments: seq<RoleAssignment>, grants: seq<CapabilityGrant>): seq<CapabilityGrant> {
    Filter(grants, (g: CapabilityGrant) => Backed(assignments, g))
  }

  lemma {:induction false} FilterAppend<T>(s: seq<T>, x: T, p: T -> bool)
    ensures Filter(s + [x], p) == Filter(s, p) + (if p(x) then [x] else [])
  {
    if s == [] {
      assert Filter([x][1..], p) == [];
    } else {
      assert (s + [x])[1..] == s[1..] + [x];
      FilterAppend(s[1..], x, p);
    }
  }

  /** The loop that appends every grant to keep. */
  method PruneCapabilityGrants(assignments: seq<RoleAssignment>, grants: seq<CapabilityGrant>) returns (kept: seq<CapabilityGrant>)
    ensures kept == PrunedGrants(assignments, grants)
  {
    kept := [];
    for i := 0 to |grants|
      invariant kept == PrunedGrants(assignments, grants[..i])
    {
      FilterAppend(grants[..i], grants[i], (g: CapabilityGrant) => Backed(assignments, g));
      assert grants[..i + 1] == grants[..i] + [grants[i]];
      if Backed(assignments, grants[i]) {
        kept := kept + [grants[i]];
      }
    }
    assert grants[..|grants|] == grants;
  }

  // ------------------------------------------------------------------
  // Transitions. `actor` is a claim; only its node id is ever used.
  // ------------------------------------------------------------------

  function Control(s: RoleState, actor: Option<NodeId>): Result<NodeId, Error> {
    if actor.None? then Err(RoleAuthorization)
    else
      var canonical := AssignmentFor(s.assignments, actor.value);
      if || canonical.None? || canonical.value.revoked || canonical.value.paused
         || Coordinator !in canonical.value.roles
         || (s.epoch.Some? && s.epoch.value.coordinatorId != actor.value)
      then Err(RoleAuthorization)
      else Ok(actor.value)
  }

  function Assign(s: RoleState, actor: Option<NodeId>, target: NodeId, roles: set<Role>): Result<RoleState, Error> {
    var actorId :- Control(s, actor);
    var current := AssignmentFor(s.assignments, target);
    if target == actorId then Err(RoleAuthorization)
    else if Coordinator in roles then Err(RoleAuthorization)
    else if current.Some? && current.value.revoked then Err(RoleAuthorization)
    else if Subcoordinator in roles && exists a :: a in s.assignments && a.nodeId != Some(target) && ActiveAs(a, Subcoordinator)
    then Err(RoleAuthorization)
    else
      var made :- MakeAssignment(roles, Some(target),
                                 current.Some? && current.value.paused, false,
                                 current.Some? && current.value.hasActiveJob);
      var assignment: RoleAssignment := if Worker in made.roles then made else made.(hasActiveJob := false);
      var assignments := Replaced(s.assignments, target, assignment) + if current.None? then [assignment] else [];
      MakeRoleState(s.(assignments := assignments, capabilityGrants := PrunedGrants(assignments, s.capabilityGrants)))
  }

  function Update(s: RoleState, target: NodeId, a: RoleAssignment): Result<RoleState, Error> {
    MakeRoleState(s.(assignments := Replaced(s.assignments, target, a)))
  }

  function Pause(s: RoleState, actor: Option<NodeId>, target: NodeId): Result<RoleState, Error> {
    var actorId :- Control(s, actor);
    var current := AssignmentFor(s.assignments, target);
    if target == actorId || current.None? || current.value.revoked then Err(RoleAuthorization)
    else Update(s, target, current.value.(paused := true))
  }

  function Resume(s: RoleState, actor: Option<NodeId>, target: NodeId): Result<RoleState, Error> {
    var _ :- Control(s, actor);
    var current := AssignmentFor(s.assignments, target);
    if current.None? || current.value.revoked then Err(RoleAuthorization)
    else Update(s, target, current.value.(paused := false))
  }

  function Revoke(s: RoleState, actor: Option<NodeId>, target: NodeId): Result<RoleState, Error> {
    var actorId :- Control(s, actor);
    var current := AssignmentFor(s.assignments, target);
    if target == actorId || current.None? || current.value.revoked then Err(RoleAuthorization)
    else
      var updated :- Update(s, target, current.value.(revoked := true, paused := false, hasActiveJob := false));
      MakeRoleState(updated.(capabilityGrants :=
        Filter(updated.capabilityGrants, (g: CapabilityGrant) => g.subject != target && g.target != target)))
  }

  function ClearRevocation(s: RoleState, target: NodeId): Result<RoleState, Error> {
    var current := AssignmentFor(s.assignments, target);
    if current.None? || !current.value.revoked then Ok(s)
    else MakeRoleState(s.(assignments := Filter(s.assignments, (a: RoleAssignment) => a.nodeId != Some(target))))
  }

  function Job(s: RoleState, actor: Option<NodeId>, target: NodeId, active: bool): Result<RoleState, Error> {
    var _ :- Control(s, actor);
    var current := AssignmentFor(s.assignments, target);
    if current.None? || current.value.revoked || Worker !in current.value.roles || (active && current.value.paused)
    then Err(RoleAuthorization)
    else Update(s, target, current.value.(hasActiveJob := active))
  }

  function WithoutGrant(grants: seq<CapabilityGrant>, subject: NodeId, target: NodeId): seq<CapabilityGrant> {
    Filter(grants, (g: CapabilityGrant) => g.subject != subject || g.target != target)
  }

  function GrantCapabilities(s: RoleState, actor: Option<NodeId>, subject: NodeId, target: NodeId,
                             permissions: set<Permission>, now: real, expiresAt: real): Result<RoleState, Error>
  {
    var _ :- Control(s, actor);
    var sub, worker := AssignmentFor(s.assignments, subject), AssignmentFor(s.assignments, target);
    if sub.None? || sub.value.revoked || sub.value.paused || Subcoordinator !in sub.value.roles
    then Err(RoleAuthorization)
    else if || worker.None? || worker.value.revoked || worker.value.paused || Worker !in worker.value.roles
            || subject == target
    then Err(RoleAuthorization)
    else
      var grant :- MakeGrant(subject, target, permissions, now, expiresAt);
      MakeRoleState(s.(capabilityGrants := WithoutGrant(s.capabilityGrants, subject, target) + [grant]))
  }

  function RevokeCapabilities(s: RoleState, actor: Option<NodeId>, subject: NodeId, target: NodeId): Result<RoleState, Error> {
    var _ :- Control(s, actor);
    MakeRoleState(s.(capabilityGrants := WithoutGrant(s.capabilityGrants, subject, target)))
  }

  predicate Allows(s: RoleState, subject: NodeId, target: NodeId, permission: Permission, now: real) {
    var source, destination := AssignmentFor(s.assignments, subject), AssignmentFor(s.assignments, target);
    && source.Some? && destination.Some?
    && !source.value.revoked && !source.value.paused
    && !destination.value.revoked && !destination.value.paused
    && if subject == target then true
       else if Coordinator in source.value.roles then Worker in destination.value.roles
       else
         var grant := GrantFor(s.capabilityGrants, subject, target);
         && Subcoordinator in source.value.roles && Worker in destination.value.roles
         && grant.Some? && now < grant.value.expiresAt && permission in grant.value.permissions
  }

  function Max(a: real, b: real): real {
    if a < b then b else a
  }

  function RenewLease(epoch: CoordinatorEpoch, coordinator: NodeId, token: string, now: real, duration: real)
    : Result<CoordinatorEpoch, Error>
  {
    if epoch.coordinatorId != coordinator || epoch.fencingToken != token then Err(Fencing)
    else if duration <= 0.0 || now >= epoch.leaseExpiresAt then Err(Fencing)
    else Ok(epoch.(issuedAt := Max(epoch.issuedAt, now), leaseExpiresAt := Max(epoch.leaseExpiresAt, now + duration)))
  }

  predicate CanPromote(s: RoleState, node: NodeId, now: real, authenticated: bool) {
    var a := AssignmentFor(s.assignments, node);
    && authenticated && s.epoch.Some? && now >= s.epoch.value.leaseExpiresAt
    && a.Some? && !a.value.paused && ActiveAs(a.value, Subcoordinator)
    && s.epoch.value.epoch !in s.promotionEpochs
  }

  predicate Standby(a: RoleAssignment) {
    a.nodeId.Some? && !a.paused && ActiveAs(a, Subcoordinator)
  }

  function FirstStandby(assignments: seq<RoleAssignment>): (r: Option<NodeId>)
    ensures r.Some? ==> exists a :: a in assignments && Standby(a) && a.nodeId == r
  {
    if assignments == [] then None
    else if Standby(assignments[0]) then assignments[0].nodeId
    else FirstStandby(assignments[1..])
  }

  datatype PromotionDecision = PromotionDecision(
    roleAssignment: RoleAssignment,
    epoch: CoordinatorEpoch,
    assignments: seq<RoleAssignment>,
    capabilityGrants: seq<CapabilityGrant>
  )

  function Promoted(node: NodeId): RoleAssignment {
    RawAssignment.RoleAssignment({Coordinator, Worker}, Some(node), false, false, false)
  }

  function AfterPromotion(assignments: seq<RoleAssignment>, node: NodeId): seq<RoleAssignment> {
    seq(|assignments|, i requires 0 <= i < |assignments| =>
      if assignments[i].nodeId == Some(node) then Promoted(node) else assignments[i].(roles := {Worker}))
  }

  /** `token` is the fresh, non-empty fencing token. */
  function PromoteSubcoordinator(s: RoleState, now: real, token: string, authenticated: bool)
    : Result<PromotionDecision, Error>
    requires token != ""
  {
    if s.epoch.None? then Err(Fencing)
    else
      var sub := FirstStandby(s.assignments);
      if sub.None? || !CanPromote(s, sub.value, now, authenticated) then Err(Fencing)
      else
        var epoch := RawEpoch.CoordinatorEpoch(
          s.epoch.value.epoch + 1, sub.value, token, now, now + HEARTBEAT_TIMEOUT_SECONDS);
        var assignments := AfterPromotion(s.assignments, sub.value);
        Ok(PromotionDecision(Promoted(sub.value), epoch, assignments, PrunedGrants(assignments, s.capabilityGrants)))
  }

  function RejoinAsWorker(s: RoleState, node: NodeId, currentEpoch: int): Result<RoleState, Error> {
    if currentEpoch < 0 then Err(Fencing)
    else if s.epoch.Some? && currentEpoch != s.epoch.value.epoch then Err(Fencing)
    else
      var a := AssignmentFor(s.assignments, node);
      if a.None? || Coordinator !in a.value.roles then Ok(s)
      else Update(s, node, a.value.(roles := {Worker}, paused := false, hasActiveJob := false))
  }

  // ------------------------------------------------------------------
  // One step of the state machine
  // ------------------------------------------------------------------

  type Token = s: string | s != "" witness "t"

  datatype Step =
    | AssignStep(actor: Option<NodeId>, target: NodeId, roles: set<Role>)
    | PauseStep(actor: Option<NodeId>, target: NodeId)
    | ResumeStep(actor: Option<NodeId>, target: NodeId)
    | RevokeStep(actor: Option<NodeId>, target: NodeId)
    | ClearRevocationStep(target: NodeId)
    | JobStep(actor: Option<NodeId>, target: NodeId, active: bool)
    | GrantStep(actor: Option<NodeId>, subject: NodeId, target: NodeId, permissions: set<Permission>, now: real, expiresAt: real)
    | RevokeCapabilitiesStep(actor: Option<NodeId>, subject: NodeId, target: NodeId)
    | HeartbeatStep(coordinator: NodeId, token: string, now: real)
    | PromoteStep(now: real, newToken: Token)
    | RejoinStep(node: NodeId, currentEpoch: int)

  /** failover.py: the candidate state that a due promotion commits. */
  function PromoteIfDue(s: RoleState, now: real, token: Token): Result<RoleState, Error> {
    var decision :- PromoteSubcoordinator(s, now, token, true);
    MakeRoleState(RoleState(
      decision.assignments, Some(decision.epoch), s.promotionEpochs + {decision.epoch.epoch - 1}, decision.capabilityGrants))
  }

  /** failover.py: the candidate state that a heartbeat commits. */
  function Heartbeat(s: RoleState, coordinator: NodeId, token: string, now: real): Result<RoleState, Error> {
    if s.epoch.None? then Err(Fencing)
    else
      var renewed :- RenewLease(s.epoch.value, coordinator, token, now, HEARTBEAT_TIMEOUT_SECONDS);
      MakeRoleState(s.(epoch := Some(renewed)))
  }

  function Apply(s: RoleState, step: Step): Result<RoleState, Error> {
    match step
    case AssignStep(actor, target, roles) => Assign(s, actor, target, roles)
    case PauseStep(actor, target) => Pause(s, actor, target)
    case ResumeStep(actor, target) => Resume(s, actor, target)
    case RevokeStep(actor, target) => Revoke(s, actor, target)
    case ClearRevocationStep(target) => ClearRevocation(s, target)
    case JobStep(actor, target, active) => Job(s, actor, target, active)
    case GrantStep(actor, subject, target, permissions, now, expiresAt) =>
      GrantCapabilities(s, actor, subject, target, permissions, now, expiresAt)
    case RevokeCapabilitiesStep(actor, subject, target) => RevokeCapabilities(s, actor, subject, target)
    case HeartbeatStep(coordinator, token, now) => Heartbeat(s, coordinator, token, now)
    case PromoteStep(now, token) => PromoteIfDue(s, now, token)
    case RejoinStep(node, currentEpoch) => RejoinAsWorker(s, node, currentEpoch)
  }
}
