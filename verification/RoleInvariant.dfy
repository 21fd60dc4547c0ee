/** Facts about roles that no constructor checks, proved of every transition. */
module RoleInvariant {
  import opened Wrappers
  import opened ClusterModels
  import opened Roles

  /** The invariant: the constructor's checks, every grant from an active
      Subcoordinator to a different active Worker, jobs only on active Workers. */
  ghost predicate Good(s: RoleState) {
    && Consistent(s)
    && (forall g | g in s.capabilityGrants :: Backed(s.assignments, g) && g.subject != g.target)
    && (forall a | a in s.assignments && a.hasActiveJob :: ActiveAs(a, Worker))
  }

  // ------------------------------------------------------------------
  // Lookups
  // ------------------------------------------------------------------

  lemma {:induction false} LookupMember(assignments: seq<RoleAssignment>, node: NodeId)
    ensures AssignmentFor(assignments, node).Some? ==>
              AssignmentFor(assignments, node).value in assignments && AssignmentFor(assignments, node).value.nodeId == Some(node)
    ensures AssignmentFor(assignments, node).None? ==> forall a | a in assignments :: a.nodeId != Some(node)
  {
    if assignments != [] && assignments[|assignments| - 1].nodeId != Some(node) {
      LookupMember(assignments[..|assignments| - 1], node);
    }
  }

  /** With distinct nodes, the index finds exactly the one assignment of a node. */
  lemma LookupUnique(assignments: seq<RoleAssignment>, a: RoleAssignment)
    requires DistinctNodes(assignments) && a in assignments && a.nodeId.Some?
    ensures AssignmentFor(assignments, a.nodeId.value) == Some(a)
  {
    LookupMember(assignments, a.nodeId.value);
    var b := AssignmentFor(assignments, a.nodeId.value).value;
    var i :| 0 <= i < |assignments| && assignments[i] == a;
    var j :| 0 <= j < |assignments| && assignments[j] == b;
    assert i == j;
  }

  lemma {:induction false} LookupReplaced(assignments: seq<RoleAssignment>, node: NodeId, a: RoleAssignment, other: NodeId)
    requires a.nodeId == Some(node)
    ensures AssignmentFor(Replaced(assignments, node, a), other) ==
            if other == node && AssignmentFor(assignments, node).Some? then Some(a) else AssignmentFor(assignments, other)
  {
    if assignments != [] {
      var before := assignments[..|assignments| - 1];
      assert Replaced(assignments, node, a)[..|before|] == Replaced(before, node, a);
      LookupReplaced(before, node, a, other);
    }
  }

  lemma LookupAppended(assignments: seq<RoleAssignment>, a: RoleAssignment, other: NodeId)
    requires a.nodeId.Some?
    ensures AssignmentFor(assignments + [a], other) == if a.nodeId == Some(other) then Some(a) else AssignmentFor(assignments, other)
  {
    assert (assignments + [a])[..|assignments|] == assignments;
  }

  // ------------------------------------------------------------------
  // Filters keep distinctness
  // ------------------------------------------------------------------

  lemma {:induction false} FilterDistinctGrants(grants: seq<CapabilityGrant>, p: CapabilityGrant -> bool)
    requires DistinctGrants(grants)
    ensures DistinctGrants(Filter(grants, p))
  {
    if grants != [] {
      FilterDistinctGrants(grants[1..], p);
      var rest := Filter(grants[1..], p);
      forall j | 0 <= j < |rest|
        ensures grants[0].subject != rest[j].subject || grants[0].target != rest[j].target
      {
        assert rest[j] in grants[1..];
      }
    }
  }

  /** What the constructor asks of two assignments. */
  predicate Compatible(a: RoleAssignment, b: RoleAssignment) {
    a.nodeId.Some? ==>
      && a.nodeId != b.nodeId
      && !(b.nodeId.Some? && ActiveAs(a, Coordinator) && ActiveAs(b, Coordinator))
      && !(b.nodeId.Some? && ActiveAs(a, Subcoordinator) && ActiveAs(b, Subcoordinator))
  }

  predicate AllCompatible(assignments: seq<RoleAssignment>) {
    forall i, j | 0 <= i < j < |assignments| :: Compatible(assignments[i], assignments[j])
  }

  lemma CompatibleMeans(assignments: seq<RoleAssignment>)
    ensures AllCompatible(assignments) <==>
              && DistinctNodes(assignments)
              && AtMostOneActive(assignments, Coordinator) && AtMostOneActive(assignments, Subcoordinator)
  {
  }

  lemma ConsCompatible(first: RoleAssignment, rest: seq<RoleAssignment>)
    requires AllCompatible(rest) && forall b | b in rest :: Compatible(first, b)
    ensures AllCompatible([first] + rest)
  {
    var all := [first] + rest;
    forall i, j | 0 <= i < j < |all| ensures Compatible(all[i], all[j]) {
      assert all[j] == rest[j - 1] && rest[j - 1] in rest;
      if i > 0 { assert all[i] == rest[i - 1]; }
    }
  }

  lemma {:induction false} FilterCompatible(assignments: seq<RoleAssignment>, p: RoleAssignment -> bool)
    requires AllCompatible(assignments)
    ensures AllCompatible(Filter(assignments, p))
  {
    if assignments != [] {
      var rest := Filter(assignments[1..], p);
      FilterCompatible(assignments[1..], p);
      forall b | b in rest ensures Compatible(assignments[0], b) {
        var j :| 0 <= j < |assignments[1..]| && assignments[1..][j] == b;
        assert Compatible(assignments[0], assignments[j + 1]);
      }
      ConsCompatible(assignments[0], rest);
    }
  }

  lemma FilterAssignments(assignments: seq<RoleAssignment>, p: RoleAssignment -> bool)
    requires DistinctNodes(assignments)
    requires AtMostOneActive(assignments, Coordinator) && AtMostOneActive(assignments, Subcoordinator)
    ensures DistinctNodes(Filter(assignments, p))
    ensures AtMostOneActive(Filter(assignments, p), Coordinator) && AtMostOneActive(Filter(assignments, p), Subcoordinator)
  {
    CompatibleMeans(assignments);
    FilterCompatible(assignments, p);
    CompatibleMeans(Filter(assignments, p));
  }

  // ------------------------------------------------------------------
  // One transition
  // ------------------------------------------------------------------

  /** Replacing one node's assignment, without dropping a role that backs a grant. */
  lemma UpdateKeepsGood(s: RoleState, node: NodeId, a: RoleAssignment)
    requires Good(s) && a.nodeId == Some(node) && AssignmentFor(s.assignments, node).Some?
    requires var b := AssignmentFor(s.assignments, node).value;
             && (forall r | r == Coordinator || r == Subcoordinator :: ActiveAs(a, r) ==> ActiveAs(b, r))
             && (forall r | r == Worker || r == Subcoordinator :: ActiveAs(b, r) ==> ActiveAs(a, r))
    requires a.hasActiveJob ==> ActiveAs(a, Worker)
    ensures var s' := s.(assignments := Replaced(s.assignments, node, a)); Good(s') && Update(s, node, a) == Ok(s')
  {
    var after := Replaced(s.assignments, node, a);
    LookupReplaced(s.assignments, node, a, node);
    forall i | 0 <= i < |after| && s.assignments[i].nodeId == Some(node)
      ensures AssignmentFor(s.assignments, node) == Some(s.assignments[i])
    {
      LookupUnique(s.assignments, s.assignments[i]);
    }
    forall g | g in s.capabilityGrants ensures Backed(after, g) {
      LookupReplaced(s.assignments, node, a, g.subject);
      LookupReplaced(s.assignments, node, a, g.target);
    }
  }

  lemma AssignKeepsGood(s: RoleState, actor: Option<NodeId>, target: NodeId, roles: set<Role>)
    requires Good(s)
    ensures Assign(s, actor, target, roles).Ok? ==> Good(Assign(s, actor, target, roles).value)
    ensures Assign(s, actor, target, roles) != Err(InconsistentState)
  {
    var r := Assign(s, actor, target, roles);
    if r != Err(RoleAuthorization) && r != Err(InvalidValue) {
      var current := AssignmentFor(s.assignments, target);
      var made := MakeAssignment(roles, Some(target), current.Some? && current.value.paused, false,
                                 current.Some? && current.value.hasActiveJob).value;
      var a: RoleAssignment := if Worker in made.roles then made else made.(hasActiveJob := false);
      var after := Replaced(s.assignments, target, a) + if current.None? then [a] else [];
      AssignedConsistent(s.assignments, target, a, after);
      var p := (g: CapabilityGrant) => Backed(after, g);
      FilterDistinctGrants(s.capabilityGrants, p);
      assert PrunedGrants(after, s.capabilityGrants) == Filter(s.capabilityGrants, p);
      var s' := s.(assignments := after, capabilityGrants := PrunedGrants(after, s.capabilityGrants));
      assert Consistent(s');
      assert r == Ok(s');
    }
  }

  /** Giving one node a role that is neither Coordinator nor a second Subcoordinator. */
  lemma AssignedConsistent(assignments: seq<RoleAssignment>, target: NodeId, a: RoleAssignment, after: seq<RoleAssignment>)
    requires DistinctNodes(assignments) && a.nodeId == Some(target) && Coordinator !in a.roles
    requires AtMostOneActive(assignments, Coordinator) && AtMostOneActive(assignments, Subcoordinator)
    requires ActiveAs(a, Subcoordinator) ==> forall b | b in assignments && b.nodeId != Some(target) :: !ActiveAs(b, Subcoordinator)
    requires after == Replaced(assignments, target, a) + if AssignmentFor(assignments, target).None? then [a] else []
    ensures DistinctNodes(after) && AtMostOneActive(after, Coordinator) && AtMostOneActive(after, Subcoordinator)
    ensures forall b | b in after :: b == a || b in assignments
  {
    LookupMember(assignments, target);
    CompatibleMeans(assignments);
    forall i | 0 <= i < |after|
      ensures after[i] == a || (i < |assignments| && after[i] == assignments[i] && after[i] in assignments && after[i].nodeId != Some(target))
    {
    }
    forall i, j | 0 <= i < j < |after| ensures Compatible(after[i], after[j]) {
      if after[i] == a {
        OneOfThemIsNew(assignments, after, i, j, target, a);
      } else if after[j] != a {
        assert Compatible(assignments[i], assignments[j]);
      }
    }
    CompatibleMeans(after);
  }

  /** The node's own assignment occurs once. */
  lemma OneOfThemIsNew(assignments: seq<RoleAssignment>, after: seq<RoleAssignment>, i: nat, j: nat, target: NodeId, a: RoleAssignment)
    requires DistinctNodes(assignments) && a.nodeId == Some(target) && i < j < |after| && after[i] == a
    requires after == Replaced(assignments, target, a) + if AssignmentFor(assignments, target).None? then [a] else []
    ensures after[j] != a && after[j].nodeId != Some(target)
  {
    LookupMember(assignments, target);
    assert i < |assignments| && assignments[i] in assignments && assignments[i].nodeId == Some(target);
    assert after == Replaced(assignments, target, a);
  }

  lemma RevokeKeepsGood(s: RoleState, actor: Option<NodeId>, target: NodeId)
    requires Good(s)
    ensures Revoke(s, actor, target).Ok? ==> Good(Revoke(s, actor, target).value)
    ensures Revoke(s, actor, target) != Err(InconsistentState)
  {
    var current := AssignmentFor(s.assignments, target);
    if current.Some? && !current.value.revoked {
      LookupMember(s.assignments, target);
      var a: RoleAssignment := current.value.(revoked := true, paused := false, hasActiveJob := false);
      LookupReplaced(s.assignments, target, a, target);
      FilterDistinctGrants(s.capabilityGrants, (g: CapabilityGrant) => g.subject != target && g.target != target);
      forall g | g in s.capabilityGrants && g.subject != target && g.target != target
        ensures Backed(Replaced(s.assignments, target, a), g)
      {
        LookupReplaced(s.assignments, target, a, g.subject);
        LookupReplaced(s.assignments, target, a, g.target);
      }
    }
  }

  lemma ClearRevocationKeepsGood(s: RoleState, target: NodeId)
    requires Good(s)
    ensures ClearRevocation(s, target).Ok? && Good(ClearRevocation(s, target).value)
  {
    var current := AssignmentFor(s.assignments, target);
    if current.Some? && current.value.revoked {
      var p := (a: RoleAssignment) => a.nodeId != Some(target);
      var after := Filter(s.assignments, p);
      FilterAssignments(s.assignments, p);
      forall g | g in s.capabilityGrants ensures Backed(after, g) {
        LookupMember(s.assignments, g.subject);
        LookupMember(s.assignments, g.target);
        LookupUnique(after, AssignmentFor(s.assignments, g.subject).value);
        LookupUnique(after, AssignmentFor(s.assignments, g.target).value);
      }
    }
  }

  lemma GrantKeepsGood(s: RoleState, actor: Option<NodeId>, subject: NodeId, target: NodeId,
                       permissions: set<Permission>, now: real, expiresAt: real)
    requires Good(s)
    ensures var r := GrantCapabilities(s, actor, subject, target, permissions, now, expiresAt);
            r != Err(InconsistentState) && (r.Ok? ==> Good(r.value))
  {
    var others := WithoutGrant(s.capabilityGrants, subject, target);
    FilterDistinctGrants(s.capabilityGrants, (g: CapabilityGrant) => g.subject != subject || g.target != target);
    forall i | 0 <= i < |others| ensures others[i].subject != subject || others[i].target != target {
      assert others[i] in others;
    }
  }

  /** Every assignment after a promotion: one Coordinator, no Subcoordinator. */
  lemma AfterPromotionShape(assignments: seq<RoleAssignment>, node: NodeId)
    requires forall a | a in assignments && a.hasActiveJob :: ActiveAs(a, Worker)
    ensures var after := AfterPromotion(assignments, node);
            && |after| == |assignments|
            && forall i | 0 <= i < |after| ::
                 && after[i].nodeId == assignments[i].nodeId && Subcoordinator !in after[i].roles
                 && (Coordinator in after[i].roles <==> after[i].nodeId == Some(node))
                 && (after[i].hasActiveJob ==> ActiveAs(after[i], Worker))
  {
    assert forall i | 0 <= i < |assignments| :: assignments[i] in assignments;
  }

  /** No Subcoordinator backs any grant. */
  lemma NothingBacked(assignments: seq<RoleAssignment>, grants: seq<CapabilityGrant>)
    requires forall a | a in assignments :: Subcoordinator !in a.roles
    ensures PrunedGrants(assignments, grants) == []
  {
    var kept := PrunedGrants(assignments, grants);
    if kept != [] {
      assert kept[0] in kept;
      LookupMember(assignments, kept[0].subject);
    }
  }

  /** A promotion leaves one active Coordinator, the promoted node, and no grants. */
  lemma PromotionKeepsGood(s: RoleState, now: real, token: Token)
    requires Good(s)
    ensures var r := PromoteIfDue(s, now, token);
            && r != Err(InconsistentState)
            && (r.Ok? ==> Good(r.value) && r.value.capabilityGrants == []
                          && forall a | a in r.value.assignments :: Coordinator in a.roles <==> a.nodeId == Some(r.value.epoch.value.coordinatorId))
  {
    var sub := FirstStandby(s.assignments);
    if sub.Some? {
      var after := AfterPromotion(s.assignments, sub.value);
      AfterPromotionShape(s.assignments, sub.value);
      NothingBacked(after, s.capabilityGrants);
      forall i, j | 0 <= i < j < |after| ensures Compatible(after[i], after[j]) {
      }
      CompatibleMeans(after);
    }
  }

  /** Every transition keeps the invariant, and the RoleState constructor never
      rejects the successor of a good state. */
  lemma StepKeepsGood(s: RoleState, step: Step)
    requires Good(s)
    ensures Apply(s, step).Ok? ==> Good(Apply(s, step).value)
    ensures Apply(s, step) != Err(InconsistentState)
  {
    match step
    case AssignStep(actor, target, roles) => AssignKeepsGood(s, actor, target, roles);
    case PauseStep(actor, target) => LookupMember(s.assignments, target); JobAndPauseCases(s, target);
    case ResumeStep(actor, target) => LookupMember(s.assignments, target); JobAndPauseCases(s, target);
    case RevokeStep(actor, target) => RevokeKeepsGood(s, actor, target);
    case ClearRevocationStep(target) => ClearRevocationKeepsGood(s, target);
    case JobStep(actor, target, active) => JobAndPauseCases(s, target);
    case GrantStep(actor, subject, target, permissions, now, expiresAt) =>
      GrantKeepsGood(s, actor, subject, target, permissions, now, expiresAt);
    case RevokeCapabilitiesStep(actor, subject, target) =>
      FilterDistinctGrants(s.capabilityGrants, (g: CapabilityGrant) => g.subject != subject || g.target != target);
    case HeartbeatStep(_, _, _) =>
    case PromoteStep(now, token) => PromotionKeepsGood(s, now, token);
    case RejoinStep(node, _) => RejoinKeepsGood(s, node);
  }

  lemma JobAndPauseCases(s: RoleState, target: NodeId)
    requires Good(s)
    ensures var current := AssignmentFor(s.assignments, target);
            current.Some? && !current.value.revoked ==>
              forall paused, job :: (job && !current.value.hasActiveJob ==> Worker in current.value.roles) ==>
                var r := Update(s, target, current.value.(paused := paused, hasActiveJob := job)); r.Ok? && Good(r.value)
  {
    LookupMember(s.assignments, target);
    var current := AssignmentFor(s.assignments, target);
    if current.Some? && !current.value.revoked {
      forall paused, job | job && !current.value.hasActiveJob ==> Worker in current.value.roles
        ensures var r := Update(s, target, current.value.(paused := paused, hasActiveJob := job)); r.Ok? && Good(r.value)
      {
        UpdateKeepsGood(s, target, current.value.(paused := paused, hasActiveJob := job));
      }
    }
  }

  lemma RejoinKeepsGood(s: RoleState, node: NodeId)
    requires Good(s)
    ensures var a := AssignmentFor(s.assignments, node);
            a.Some? && Coordinator in a.value.roles ==>
              var r := Update(s, node, a.value.(roles := {Worker}, paused := false, hasActiveJob := false));
              r.Ok? && Good(r.value)
  {
    LookupMember(s.assignments, node);
    var a := AssignmentFor(s.assignments, node);
    if a.Some? && Coordinator in a.value.roles {
      UpdateKeepsGood(s, node, a.value.(roles := {Worker}, paused := false, hasActiveJob := false));
    }
  }
}
