/** What each role transition means for authority, said through lookups and `Allows`. */
module RoleEffects {
  import opened Wrappers
  import opened ClusterModels
  import opened Roles
  import opened RoleInvariant

  /** No lookup but the one of `node` differs. */
  ghost predicate OthersKept(s: RoleState, s': RoleState, node: NodeId) {
    && s'.epoch == s.epoch && s'.promotionEpochs == s.promotionEpochs
    && forall n: NodeId | n != node :: AssignmentFor(s'.assignments, n) == AssignmentFor(s.assignments, n)
  }

  /** `node` may do nothing, and nothing may be done to it. */
  ghost predicate ShutOut(s: RoleState, node: NodeId) {
    forall n, permission, now :: !Allows(s, node, n, permission, now) && !Allows(s, n, node, permission, now)
  }

  lemma UpdateEffect(s: RoleState, node: NodeId, a: RoleAssignment)
    requires a.nodeId == Some(node) && AssignmentFor(s.assignments, node).Some? && Update(s, node, a).Ok?
    ensures OthersKept(s, Update(s, node, a).value, node)
    ensures AssignmentFor(Update(s, node, a).value.assignments, node) == Some(a)
    ensures Update(s, node, a).value.capabilityGrants == s.capabilityGrants
  {
    forall n: NodeId ensures n != node ==> AssignmentFor(Update(s, node, a).value.assignments, n) == AssignmentFor(s.assignments, n) {
      LookupReplaced(s.assignments, node, a, n);
    }
    LookupReplaced(s.assignments, node, a, node);
  }

  lemma PauseShutsOut(s: RoleState, actor: Option<NodeId>, target: NodeId)
    requires Pause(s, actor, target).Ok?
    ensures var s' := Pause(s, actor, target).value;
            OthersKept(s, s', target) && ShutOut(s', target) && Some(target) != actor
  {
    LookupMember(s.assignments, target);
    UpdateEffect(s, target, AssignmentFor(s.assignments, target).value.(paused := true));
  }

  /** Resuming undoes pausing. */
  lemma ResumeUndoesPause(s: RoleState, actor: Option<NodeId>, target: NodeId)
    requires Good(s) && Pause(s, actor, target).Ok? && !AssignmentFor(s.assignments, target).value.paused
    ensures Resume(Pause(s, actor, target).value, actor, target) == Ok(s)
  {
    var before := AssignmentFor(s.assignments, target).value;
    var paused: RoleAssignment := before.(paused := true);
    var s' := Pause(s, actor, target).value;
    LookupMember(s.assignments, target);
    LookupMember(s.assignments, actor.value);
    UpdateEffect(s, target, paused);
    assert Control(s', actor).Ok?;
    forall i | 0 <= i < |s.assignments| && s.assignments[i].nodeId == Some(target) ensures s.assignments[i] == before {
      LookupUnique(s.assignments, s.assignments[i]);
    }
    assert Replaced(s'.assignments, target, before) == s.assignments;
  }

  lemma RevokeShutsOut(s: RoleState, actor: Option<NodeId>, target: NodeId)
    requires Revoke(s, actor, target).Ok?
    ensures var s' := Revoke(s, actor, target).value;
            && OthersKept(s, s', target) && ShutOut(s', target) && Some(target) != actor
            && AssignmentFor(s'.assignments, target).Some? && AssignmentFor(s'.assignments, target).value.revoked
            && forall g :: g in s'.capabilityGrants <==> g in s.capabilityGrants && g.subject != target && g.target != target
  {
    LookupMember(s.assignments, target);
    UpdateEffect(s, target, AssignmentFor(s.assignments, target).value.(revoked := true, paused := false, hasActiveJob := false));
  }

  /** The node gets exactly the requested roles (Worker when none), keeps its pause
      and loses its job with its Worker role; a grant survives iff it is still backed. */
  lemma AssignGivesRoles(s: RoleState, actor: Option<NodeId>, target: NodeId, roles: set<Role>)
    requires Good(s) && Assign(s, actor, target, roles).Ok?
    ensures var s' := Assign(s, actor, target, roles).value;
            var before, after := AssignmentFor(s.assignments, target), AssignmentFor(s'.assignments, target);
            && OthersKept(s, s', target) && Coordinator !in roles && Some(target) != actor
            && after.Some? && after.value.roles == (if roles == {} then {Worker} else roles) && !after.value.revoked
            && (after.value.paused <==> before.Some? && before.value.paused)
            && (after.value.hasActiveJob <==> before.Some? && before.value.hasActiveJob && Worker in after.value.roles)
            && forall g :: g in s'.capabilityGrants <==> g in s.capabilityGrants && Backed(s'.assignments, g)
  {
    var s' := Assign(s, actor, target, roles).value;
    var current := AssignmentFor(s.assignments, target);
    var made := MakeAssignment(roles, Some(target), current.Some? && current.value.paused, false,
                               current.Some? && current.value.hasActiveJob).value;
    var a: RoleAssignment := if Worker in made.roles then made else made.(hasActiveJob := false);
    forall n: NodeId
      ensures AssignmentFor(s'.assignments, n) == if n == target then Some(a) else AssignmentFor(s.assignments, n)
    {
      LookupReplaced(s.assignments, target, a, n);
      if current.None? {
        LookupAppended(Replaced(s.assignments, target, a), a, n);
      } else {
        assert s'.assignments == Replaced(s.assignments, target, a);
      }
    }
  }

  lemma JobEffect(s: RoleState, actor: Option<NodeId>, target: NodeId, active: bool)
    requires Job(s, actor, target, active).Ok?
    ensures var s' := Job(s, actor, target, active).value;
            && OthersKept(s, s', target)
            && AssignmentFor(s'.assignments, target) == Some(AssignmentFor(s.assignments, target).value.(hasActiveJob := active))
            && HoldsWorker(s', target)
  {
    LookupMember(s.assignments, target);
    UpdateEffect(s, target, AssignmentFor(s.assignments, target).value.(hasActiveJob := active));
  }

  ghost predicate HoldsWorker(s: RoleState, node: NodeId) {
    var a := AssignmentFor(s.assignments, node);
    a.Some? && ActiveAs(a.value, Worker)
  }

  /** A grant allows the pair exactly its permissions, until exactly its expiry. */
  lemma GrantAllows(s: RoleState, actor: Option<NodeId>, subject: NodeId, target: NodeId,
                    permissions: set<Permission>, now: real, expiresAt: real, permission: Permission, later: real)
    requires GrantCapabilities(s, actor, subject, target, permissions, now, expiresAt).Ok?
    ensures var s' := GrantCapabilities(s, actor, subject, target, permissions, now, expiresAt).value;
            && (Allows(s', subject, target, permission, later) <==> permission in permissions && later < expiresAt)
            && s'.assignments == s.assignments && s'.epoch == s.epoch
  {
    var grant := MakeGrant(subject, target, permissions, now, expiresAt).value;
    var others := WithoutGrant(s.capabilityGrants, subject, target);
    assert (others + [grant])[..|others|] == others;
  }

  lemma {:induction false} GrantForFiltered(grants: seq<CapabilityGrant>, subject: NodeId, target: NodeId)
    requires forall g | g in grants :: g.subject != subject || g.target != target
    ensures GrantFor(grants, subject, target).None?
  {
    if grants != [] {
      assert grants[|grants| - 1] in grants;
      GrantForFiltered(grants[..|grants| - 1], subject, target);
    }
  }

  lemma RevokeCapabilitiesForbids(s: RoleState, actor: Option<NodeId>, subject: NodeId, target: NodeId,
                                  permission: Permission, later: real)
    requires RevokeCapabilities(s, actor, subject, target).Ok?
    requires subject != target && AssignmentFor(s.assignments, subject).Some?
    requires Coordinator !in AssignmentFor(s.assignments, subject).value.roles
    ensures !Allows(RevokeCapabilities(s, actor, subject, target).value, subject, target, permission, later)
  {
    GrantForFiltered(WithoutGrant(s.capabilityGrants, subject, target), subject, target);
  }

  /** A promotion is due exactly when the lease has run out, the epoch has not been
      promoted from before, and a Subcoordinator that is neither paused nor revoked stands by. */
  lemma PromotionDueIff(s: RoleState, now: real, token: Token)
    requires Good(s)
    ensures PromoteIfDue(s, now, token).Ok? <==>
              && s.epoch.Some? && now >= s.epoch.value.leaseExpiresAt && s.epoch.value.epoch !in s.promotionEpochs
              && exists a :: a in s.assignments && Standby(a)
  {
    PromotionKeepsGood(s, now, token);
    StandbyIsFound(s.assignments);
    if FirstStandby(s.assignments).Some? {
      var a :| a in s.assignments && Standby(a) && a.nodeId == FirstStandby(s.assignments);
      LookupUnique(s.assignments, a);
    }
  }

  lemma {:induction false} StandbyIsFound(assignments: seq<RoleAssignment>)
    ensures FirstStandby(assignments).Some? <==> exists a :: a in assignments && Standby(a)
  {
    if assignments != [] {
      StandbyIsFound(assignments[1..]);
      assert assignments[0] in assignments;
    }
  }

  /** After a promotion the promoted node controls the cluster and the displaced holder does not. */
  lemma PromotionMovesControl(s: RoleState, now: real, token: Token, other: NodeId)
    requires Good(s) && PromoteIfDue(s, now, token).Ok?
    ensures var s' := PromoteIfDue(s, now, token).value;
            s'.epoch.Some? && (Control(s', Some(other)).Ok? <==> other == s'.epoch.value.coordinatorId)
  {
    var s' := PromoteIfDue(s, now, token).value;
    var sub := FirstStandby(s.assignments).value;
    var a :| a in s.assignments && Standby(a) && a.nodeId == Some(sub);
    var i :| 0 <= i < |s.assignments| && s.assignments[i] == a;
    PromotionKeepsGood(s, now, token);
    assert s'.assignments[i] == Promoted(sub);
    LookupUnique(s'.assignments, Promoted(sub));
  }

  /** An accepted heartbeat comes before expiry and extends the lease to at least a full timeout from now. */
  lemma HeartbeatExtends(s: RoleState, coordinator: NodeId, token: string, now: real)
    requires Heartbeat(s, coordinator, token, now).Ok?
    ensures var s' := Heartbeat(s, coordinator, token, now).value;
            && s.epoch.Some? && s'.epoch.Some? && now < s.epoch.value.leaseExpiresAt
            && s.epoch.value.coordinatorId == coordinator && s.epoch.value.fencingToken == token
            && s'.epoch.value.leaseExpiresAt >= now + HEARTBEAT_TIMEOUT_SECONDS
            && s'.epoch.value.leaseExpiresAt >= s.epoch.value.leaseExpiresAt
            && s'.assignments == s.assignments && s'.capabilityGrants == s.capabilityGrants
            && (forall n, t :: !PromoteIfDue(s', n, t).Ok? || n >= now + HEARTBEAT_TIMEOUT_SECONDS)
  {
  }

  /** A returning node that knows the current epoch comes back without control. */
  lemma RejoinDropsControl(s: RoleState, node: NodeId, currentEpoch: int)
    requires Good(s) && RejoinAsWorker(s, node, currentEpoch).Ok?
    ensures var s' := RejoinAsWorker(s, node, currentEpoch).value;
            && OthersKept(s, s', node) && Control(s', Some(node)).Err?
            && s'.capabilityGrants == s.capabilityGrants
            && (s.epoch.Some? ==> currentEpoch == s.epoch.value.epoch)
  {
    var a := AssignmentFor(s.assignments, node);
    LookupMember(s.assignments, node);
    if a.Some? && Coordinator in a.value.roles {
      UpdateEffect(s, node, a.value.(roles := {Worker}, paused := false, hasActiveJob := false));
    }
  }

  /** Clearing forgets a revoked node and touches nothing else. */
  lemma ClearRevocationForgets(s: RoleState, target: NodeId)
    requires Good(s) && ClearRevocation(s, target).Ok?
    ensures var s' := ClearRevocation(s, target).value;
            var before, after := AssignmentFor(s.assignments, target), AssignmentFor(s'.assignments, target);
            && OthersKept(s, s', target) && s'.capabilityGrants == s.capabilityGrants
            && after == (if before.Some? && before.value.revoked then None else before)
  {
    var s' := ClearRevocation(s, target).value;
    ClearRevocationKeepsGood(s, target);
    forall n: NodeId | n != target ensures AssignmentFor(s'.assignments, n) == AssignmentFor(s.assignments, n) {
      LookupMember(s.assignments, n);
      LookupMember(s'.assignments, n);
      if AssignmentFor(s.assignments, n).Some? {
        LookupUnique(s'.assignments, AssignmentFor(s.assignments, n).value);
      }
    }
    LookupMember(s'.assignments, target);
  }
}
