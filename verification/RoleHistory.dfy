/** Whole runs of the role state machine, restarts included: grants never resurrect,
    leader tenures never overlap. */
module RoleHistory {
  import opened Wrappers
  import opened ClusterModels
  import opened Roles
  import opened RoleInvariant
  import opened RoleEffects
  import C = ClusterCodec
  import S = ClusterState

  /** A requested transition and whether its outcome could be persisted, or a restart
      from what was persisted last. */
  datatype Event = Event(step: Step, persisted: bool) | Restart

  predicate Takes(s: RoleState, e: Event) {
    e.Event? && Apply(s, e.step).Ok? && e.persisted
  }

  /** A state as it is written and read again. */
  function Reloaded(s: RoleState): RoleState {
    s.(assignments := C.Stored(s.assignments))
  }

  function Next(s: RoleState, e: Event): RoleState {
    if Takes(s, e) then Apply(s, e.step).value
    else if e.Restart? then Reloaded(s)
    else s
  }

  ghost predicate Run(states: seq<RoleState>, events: seq<Event>) {
    |states| == |events| + 1 && forall i: nat | i < |events| :: Moves(states, events, i)
  }

  /** Step `i` of a run. */
  ghost predicate Moves(states: seq<RoleState>, events: seq<Event>, i: nat)
    requires |states| == |events| + 1 && i < |events|
  {
    states[i + 1] == Next(states[i], events[i])
  }

  lemma RunExtends(states: seq<RoleState>, events: seq<Event>, e: Event)
    requires Run(states, events)
    ensures Run(states + [Next(states[|events|], e)], events + [e])
  {
    var states', events' := states + [Next(states[|events|], e)], events + [e];
    forall i: nat | i < |events'| ensures Moves(states', events', i) {
      if i < |events| {
        assert Moves(states, events, i);
        assert states'[i] == states[i] && states'[i + 1] == states[i + 1];
      }
    }
  }

  // ------------------------------------------------------------------
  // Restarts
  // ------------------------------------------------------------------

  /** This is what the codec makes of a consistent state. */
  lemma ReloadedIsRead(s: S.ClusterState)
    requires Consistent(S.RoleStateOf(s))
    ensures C.ToDict(s).Some?
    ensures C.RoleStateFromDict(C.Modernized(C.ToDict(s).value.fields)) == Ok(Reloaded(S.RoleStateOf(s)))
  {
    C.RoleStateRoundTrip(s);
  }

  lemma {:induction false} StoredAppend(assignments: seq<RoleAssignment>, a: RoleAssignment)
    ensures C.Stored(assignments + [a]) == C.Stored(assignments) + if C.IsBound(a) then [C.Jobless(a)] else []
  {
    var all := assignments + [a];
    if assignments == [] {
      assert all[1..] == [] && all[0] == a;
    } else {
      assert all[1..] == assignments[1..] + [a] && all[0] == assignments[0];
      StoredAppend(assignments[1..], a);
    }
  }

  /** Lookups find the same assignments, without their jobs. */
  lemma {:induction false} LookupStored(assignments: seq<RoleAssignment>, node: NodeId)
    ensures var a := AssignmentFor(assignments, node);
            AssignmentFor(C.Stored(assignments), node) == if a.Some? then Some(C.Jobless(a.value)) else None
  {
    if assignments != [] {
      var before, last := assignments[..|assignments| - 1], assignments[|assignments| - 1];
      assert assignments == before + [last];
      StoredAppend(before, last);
      LookupStored(before, node);
      var stored := C.Stored(assignments);
      if C.IsBound(last) {
        assert stored[..|stored| - 1] == C.Stored(before);
      } else {
        assert stored == C.Stored(before);
      }
    }
  }

  lemma ReloadKeepsGood(s: RoleState)
    requires Good(s)
    ensures Good(Reloaded(s))
  {
    C.StoredConsistent(s.assignments);
    C.StoredMembers(s.assignments);
    forall g | g in s.capabilityGrants ensures Backed(C.Stored(s.assignments), g) {
      LookupStored(s.assignments, g.subject);
      LookupStored(s.assignments, g.target);
    }
  }

  lemma {:induction false} RunKeepsGood(states: seq<RoleState>, events: seq<Event>, n: nat)
    requires Run(states, events) && Good(states[0]) && n < |states|
    ensures Good(states[n])
  {
    if n > 0 {
      RunKeepsGood(states, events, n - 1);
      assert Moves(states, events, n - 1);
      match events[n - 1] {
        case Event(step, _) => StepKeepsGood(states[n - 1], step);
        case Restart => ReloadKeepsGood(states[n - 1]);
      }
    }
  }

  // ------------------------------------------------------------------
  // Grants
  // ------------------------------------------------------------------

  predicate Grants(step: Step, g: CapabilityGrant) {
    && step.GrantStep? && step.subject == g.subject && step.target == g.target
    && step.permissions == g.permissions && step.now == g.issuedAt && step.expiresAt == g.expiresAt
  }

  lemma StepGrants(s: RoleState, step: Step, g: CapabilityGrant)
    requires Apply(s, step).Ok? && g in Apply(s, step).value.capabilityGrants
    ensures g in s.capabilityGrants || Grants(step, g)
  {
  }

  /** A grant that is present was issued at some step and has been present ever since. */
  lemma {:induction false} GrantOrigin(states: seq<RoleState>, events: seq<Event>, n: nat, g: CapabilityGrant) returns (i: nat)
    requires Run(states, events) && states[0].capabilityGrants == []
    requires n < |states| && g in states[n].capabilityGrants
    ensures i < n && Takes(states[i], events[i]) && Grants(events[i].step, g)
    ensures forall k | i < k <= n :: g in states[k].capabilityGrants
  {
    assert n > 0 && Moves(states, events, n - 1);
    if g in states[n - 1].capabilityGrants {
      i := GrantOrigin(states, events, n - 1, g);
    } else {
      i := n - 1;
      assert Takes(states[i], events[i]);
      StepGrants(states[i], events[i].step, g);
    }
  }

  lemma {:induction false} GrantForMember(grants: seq<CapabilityGrant>, subject: NodeId, target: NodeId)
    ensures var g := GrantFor(grants, subject, target);
            g.Some? ==> g.value in grants && g.value.subject == subject && g.value.target == target
  {
    if grants != [] && !(grants[|grants| - 1].subject == subject && grants[|grants| - 1].target == target) {
      GrantForMember(grants[..|grants| - 1], subject, target);
    }
  }

  ghost predicate HoldsRole(s: RoleState, node: NodeId, role: Role) {
    var a := AssignmentFor(s.assignments, node);
    a.Some? && ActiveAs(a.value, role)
  }

  /** Step `i` granted the pair `permission` until after `now`, and in every state
      since then the pair has been an active Subcoordinator and an active Worker. */
  ghost predicate GrantedSince(states: seq<RoleState>, events: seq<Event>, i: nat,
                               subject: NodeId, target: NodeId, permission: Permission, now: real)
    requires |states| == |events| + 1
  {
    && i < |events| && Takes(states[i], events[i])
    && var step := events[i].step;
    && step.GrantStep? && step.subject == subject && step.target == target
    && permission in step.permissions && now < step.expiresAt
    && forall k | i < k < |states| :: HoldsRole(states[k], subject, Subcoordinator) && HoldsRole(states[k], target, Worker)
  }

  /** No grant resurrects: what a non-Coordinator may do to another node was
      granted, has not expired, and its roles have not lapsed in between. */
  lemma NoGrantResurrects(states: seq<RoleState>, events: seq<Event>,
                          subject: NodeId, target: NodeId, permission: Permission, now: real)
    requires Run(states, events) && Good(states[0]) && states[0].capabilityGrants == []
    requires Allows(states[|events|], subject, target, permission, now)
    requires subject != target && !HoldsRole(states[|events|], subject, Coordinator)
    ensures exists i :: GrantedSince(states, events, i, subject, target, permission, now)
  {
    var grants := states[|events|].capabilityGrants;
    GrantForMember(grants, subject, target);
    var g := GrantFor(grants, subject, target).value;
    var i := GrantOrigin(states, events, |events|, g);
    forall k | i < k < |states|
      ensures HoldsRole(states[k], subject, Subcoordinator) && HoldsRole(states[k], target, Worker)
    {
      RunKeepsGood(states, events, k);
    }
    assert GrantedSince(states, events, i, subject, target, permission, now);
  }

  // ------------------------------------------------------------------
  // Revocation
  // ------------------------------------------------------------------

  ghost predicate Revoked(s: RoleState, node: NodeId) {
    var a := AssignmentFor(s.assignments, node);
    a.Some? && a.value.revoked
  }

  lemma PromotionKeepsRevoked(s: RoleState, now: real, token: Token, node: NodeId)
    requires Good(s) && Revoked(s, node) && PromoteIfDue(s, now, token).Ok?
    ensures Revoked(PromoteIfDue(s, now, token).value, node)
  {
    LookupMember(s.assignments, node);
    var a := AssignmentFor(s.assignments, node).value;
    var i :| 0 <= i < |s.assignments| && s.assignments[i] == a;
    PromotionKeepsGood(s, now, token);
    var sub := FirstStandby(s.assignments).value;
    var b :| b in s.assignments && Standby(b) && b.nodeId == Some(sub);
    LookupUnique(s.assignments, b);
    LookupUnique(AfterPromotion(s.assignments, sub), AfterPromotion(s.assignments, sub)[i]);
  }

  lemma StepKeepsRevoked(s: RoleState, step: Step, node: NodeId)
    requires Good(s) && Revoked(s, node) && Apply(s, step).Ok? && step != ClearRevocationStep(node)
    ensures Revoked(Apply(s, step).value, node)
  {
    match step
    case AssignStep(actor, target, roles) => AssignGivesRoles(s, actor, target, roles);
    case PauseStep(actor, target) => PauseShutsOut(s, actor, target);
    case ResumeStep(_, target) =>
      LookupMember(s.assignments, target);
      UpdateEffect(s, target, AssignmentFor(s.assignments, target).value.(paused := false));
    case RevokeStep(actor, target) => RevokeShutsOut(s, actor, target);
    case ClearRevocationStep(target) => ClearRevocationForgets(s, target);
    case JobStep(actor, target, active) => JobEffect(s, actor, target, active);
    case PromoteStep(now, token) => PromotionKeepsRevoked(s, now, token, node);
    case RejoinStep(rejoining, _) =>
      LookupMember(s.assignments, rejoining);
      var a := AssignmentFor(s.assignments, rejoining);
      if a.Some? && Coordinator in a.value.roles {
        UpdateEffect(s, rejoining, a.value.(roles := {Worker}, paused := false, hasActiveJob := false));
      }
    case _ =>
  }

  /** A revoked node stays revoked, whatever runs, until its revocation is cleared. */
  lemma {:induction false} RevokedUntilCleared(states: seq<RoleState>, events: seq<Event>, i: nat, j: nat, node: NodeId)
    requires Run(states, events) && Good(states[0]) && i <= j < |states| && Revoked(states[i], node)
    ensures Revoked(states[j], node) || exists k :: i <= k < j && events[k] == Event(ClearRevocationStep(node), true)
    decreases j - i
  {
    if i < j {
      RevokedUntilCleared(states, events, i, j - 1, node);
      assert Moves(states, events, j - 1);
      LookupStored(states[j - 1].assignments, node);
      if Revoked(states[j - 1], node) && Takes(states[j - 1], events[j - 1]) && events[j - 1].step != ClearRevocationStep(node) {
        RunKeepsGood(states, events, j - 1);
        StepKeepsRevoked(states[j - 1], events[j - 1].step, node);
      }
    }
  }

  // ------------------------------------------------------------------
  // Tenures
  // ------------------------------------------------------------------

  /** Promotion markers lie below the epoch and the epoch holder is not the Subcoordinator. */
  ghost predicate Fenced(s: RoleState) {
    s.epoch.Some? ==>
      && (forall m | m in s.promotionEpochs :: m < s.epoch.value.epoch)
      && !HoldsRole(s, s.epoch.value.coordinatorId, Subcoordinator)
  }

  ghost predicate Promotes(s: RoleState, s': RoleState) {
    s.epoch.Some? && s'.epoch.Some? && s'.epoch.value.epoch != s.epoch.value.epoch
  }

  /** What one step may do to the epoch. */
  ghost predicate EpochStep(s: RoleState, s': RoleState) {
    if s.epoch.None? || s'.epoch.None? then s.epoch == s'.epoch
    else
      var e, e' := s.epoch.value, s'.epoch.value;
      if e'.epoch == e.epoch then
        && e'.coordinatorId == e.coordinatorId && e'.fencingToken == e.fencingToken
        && e.issuedAt <= e'.issuedAt && e.leaseExpiresAt <= e'.leaseExpiresAt
        && s'.promotionEpochs == s.promotionEpochs
      else
        && e'.epoch == e.epoch + 1 && e'.coordinatorId != e.coordinatorId
        && e.leaseExpiresAt <= e'.issuedAt
        && e.epoch !in s.promotionEpochs && s'.promotionEpochs == s.promotionEpochs + {e.epoch}
        && HoldsRole(s, e'.coordinatorId, Subcoordinator) && HoldsRole(s', e'.coordinatorId, Coordinator)
  }

  lemma StepKeepsFenced(s: RoleState, step: Step)
    requires Good(s) && Fenced(s) && Apply(s, step).Ok?
    ensures Fenced(Apply(s, step).value) && EpochStep(s, Apply(s, step).value)
  {
    var s' := Apply(s, step).value;
    match step
    case PromoteStep(now, token) => PromotionIsEpochStep(s, now, token);
    case HeartbeatStep(_, _, _) =>
    case _ =>
      assert s'.epoch == s.epoch && s'.promotionEpochs == s.promotionEpochs;
      if s.epoch.Some? {
        HolderStaysOffStandby(s, step, s.epoch.value.coordinatorId);
      }
  }

  lemma PromotionIsEpochStep(s: RoleState, now: real, token: Token)
    requires Good(s) && Fenced(s) && PromoteIfDue(s, now, token).Ok?
    ensures Fenced(PromoteIfDue(s, now, token).value) && EpochStep(s, PromoteIfDue(s, now, token).value)
    ensures PromoteIfDue(s, now, token).value.epoch.Some?
  {
    var s' := PromoteIfDue(s, now, token).value;
    var sub := FirstStandby(s.assignments).value;
    PromotedHolds(s, now, token);
    assert s'.epoch.value.coordinatorId == sub && s'.promotionEpochs == s.promotionEpochs + {s.epoch.value.epoch};
  }

  /** The promoted node was the Subcoordinator and is the Coordinator. */
  lemma PromotedHolds(s: RoleState, now: real, token: Token)
    requires Good(s) && PromoteIfDue(s, now, token).Ok?
    ensures FirstStandby(s.assignments).Some?
    ensures var sub := FirstStandby(s.assignments).value;
            && HoldsRole(s, sub, Subcoordinator)
            && AssignmentFor(PromoteIfDue(s, now, token).value.assignments, sub) == Some(Promoted(sub))
  {
    var s' := PromoteIfDue(s, now, token).value;
    var sub := FirstStandby(s.assignments).value;
    var a :| a in s.assignments && Standby(a) && a.nodeId == Some(sub);
    LookupUnique(s.assignments, a);
    PromotionKeepsGood(s, now, token);
    var i :| 0 <= i < |s.assignments| && s.assignments[i] == a;
    assert s'.assignments[i] == Promoted(sub);
    LookupUnique(s'.assignments, Promoted(sub));
  }

  /** No transition but a promotion makes the epoch holder the Subcoordinator. */
  lemma HolderStaysOffStandby(s: RoleState, step: Step, holder: NodeId)
    requires Good(s) && s.epoch.Some? && s.epoch.value.coordinatorId == holder
    requires !HoldsRole(s, holder, Subcoordinator)
    requires Apply(s, step).Ok? && !step.PromoteStep?
    ensures !HoldsRole(Apply(s, step).value, holder, Subcoordinator)
  {
    var s' := Apply(s, step).value;
    LookupMember(s'.assignments, holder);
    StepKeepsGood(s, step);
    if HoldsRole(s', holder, Subcoordinator) {
      var b := AssignmentFor(s'.assignments, holder).value;
      AssignmentSource(s, step, b);
      if b in s.assignments {
        LookupUnique(s.assignments, b);
      }
    }
  }

  /** An active Subcoordinator that a step writes for the holder was already one. */
  lemma AssignmentSource(s: RoleState, step: Step, b: RoleAssignment)
    requires Good(s) && s.epoch.Some? && b.nodeId == Some(s.epoch.value.coordinatorId)
    requires Apply(s, step).Ok? && !step.PromoteStep? && b in Apply(s, step).value.assignments
    requires ActiveAs(b, Subcoordinator)
    ensures b in s.assignments || HoldsRole(s, s.epoch.value.coordinatorId, Subcoordinator)
  {
    if step.AssignStep? {
      AssignedSource(s, step.actor, step.target, step.roles, b);
    } else {
      LookupMember(s.assignments, s.epoch.value.coordinatorId);
      if step.PauseStep? || step.ResumeStep? || step.RevokeStep? || step.JobStep? { LookupMember(s.assignments, step.target); }
    }
  }

  /** The holder is the only node that may assign, and it may not assign itself. */
  lemma AssignedSource(s: RoleState, actor: Option<NodeId>, target: NodeId, roles: set<Role>, b: RoleAssignment)
    requires s.epoch.Some? && b.nodeId == Some(s.epoch.value.coordinatorId)
    requires Assign(s, actor, target, roles).Ok? && b in Assign(s, actor, target, roles).value.assignments
    ensures b in s.assignments
  {
  }

  /** A restart keeps the markers, the epoch and its lease, and the holder off standby. */
  lemma ReloadKeepsFenced(s: RoleState)
    requires Fenced(s)
    ensures Fenced(Reloaded(s)) && EpochStep(s, Reloaded(s))
  {
    if s.epoch.Some? { LookupStored(s.assignments, s.epoch.value.coordinatorId); }
  }

  lemma {:induction false} RunKeepsFenced(states: seq<RoleState>, events: seq<Event>, n: nat)
    requires Run(states, events) && Good(states[0]) && Fenced(states[0]) && n < |states|
    ensures Good(states[n]) && Fenced(states[n])
    ensures n > 0 ==> EpochStep(states[n - 1], states[n])
  {
    if n > 0 {
      RunKeepsFenced(states, events, n - 1);
      assert Moves(states, events, n - 1);
      if Takes(states[n - 1], events[n - 1]) {
        StepKeepsGood(states[n - 1], events[n - 1].step);
        StepKeepsFenced(states[n - 1], events[n - 1].step);
      } else if events[n - 1].Restart? {
        ReloadKeepsGood(states[n - 1]);
        ReloadKeepsFenced(states[n - 1]);
      }
    }
  }

  /** Epoch numbers and lease ends never go back. */
  lemma {:induction false} LeasesAdvance(states: seq<RoleState>, events: seq<Event>, i: nat, j: nat)
    requires Run(states, events) && Good(states[0]) && Fenced(states[0]) && i <= j < |states|
    requires states[i].epoch.Some?
    ensures states[j].epoch.Some?
    ensures states[i].epoch.value.epoch <= states[j].epoch.value.epoch
    ensures states[i].epoch.value.leaseExpiresAt <= states[j].epoch.value.leaseExpiresAt
    ensures states[i].epoch.value.epoch < states[j].epoch.value.epoch ==>
              states[i].epoch.value.leaseExpiresAt <= states[j].epoch.value.issuedAt
    decreases j - i
  {
    if i < j {
      LeasesAdvance(states, events, i, j - 1);
      RunKeepsFenced(states, events, j);
    }
  }

  lemma OnlyPromotionPromotes(s: RoleState, e: Event)
    requires Promotes(s, Next(s, e))
    ensures Takes(s, e) && e.step.PromoteStep? && Next(s, e).epoch.value.issuedAt == e.step.now
  {
  }

  /** Tenures never overlap. A promotion after step `j` opens the next epoch, for
      another node, no earlier than any lease held up to then has run out; no two
      promotions leave the same epoch. */
  lemma TenuresNeverOverlap(states: seq<RoleState>, events: seq<Event>, i: nat, j: nat)
    requires Run(states, events) && Good(states[0]) && Fenced(states[0]) && i <= j < |events|
    requires Promotes(states[j], states[j + 1])
    ensures Takes(states[j], events[j]) && events[j].step.PromoteStep?
    ensures states[j + 1].epoch.value.epoch == states[j].epoch.value.epoch + 1
    ensures states[j + 1].epoch.value.coordinatorId != states[j].epoch.value.coordinatorId
    ensures states[j + 1].epoch.value.issuedAt == events[j].step.now
    ensures states[i].epoch.Some? && states[i].epoch.value.leaseExpiresAt <= states[j + 1].epoch.value.issuedAt
    ensures i < j && Promotes(states[i], states[i + 1]) ==> states[i].epoch.value.epoch < states[j].epoch.value.epoch
  {
    assert Moves(states, events, j);
    OnlyPromotionPromotes(states[j], events[j]);
    RunKeepsFenced(states, events, j + 1);
    assert EpochStep(states[j], states[j + 1]);
    EpochStartsSome(states, events, i, j);
    LeasesAdvance(states, events, i, j);
    if i < j && Promotes(states[i], states[i + 1]) {
      RunKeepsFenced(states, events, i + 1);
      LeasesAdvance(states, events, i + 1, j);
    }
  }

  lemma {:induction false} EpochStartsSome(states: seq<RoleState>, events: seq<Event>, i: nat, j: nat)
    requires Run(states, events) && Good(states[0]) && Fenced(states[0]) && i <= j < |states|
    requires states[j].epoch.Some?
    ensures states[i].epoch.Some?
    decreases j - i
  {
    if i < j {
      RunKeepsFenced(states, events, j);
      EpochStartsSome(states, events, i, j - 1);
    }
  }

  ghost predicate PromotedAt(states: seq<RoleState>, node: NodeId, k: nat) {
    && k + 1 < |states| && Promotes(states[k], states[k + 1])
    && states[k + 1].epoch.value.coordinatorId == node
  }

  /** A displaced holder's heartbeat is refused until that node is promoted again. */
  lemma {:induction false} DisplacedHolderIsRefused(states: seq<RoleState>, events: seq<Event>, i: nat, j: nat)
    requires Run(states, events) && Good(states[0]) && Fenced(states[0]) && i < j < |events|
    requires Promotes(states[i], states[i + 1])
    requires events[j].Event? && events[j].step.HeartbeatStep? && events[j].step.coordinator == states[i].epoch.value.coordinatorId
    requires Apply(states[j], events[j].step).Ok?
    ensures exists k :: i < k < j && PromotedAt(states, states[i].epoch.value.coordinatorId, k)
  {
    var holder := states[i].epoch.value.coordinatorId;
    RunKeepsFenced(states, events, i + 1);
    var k := HolderSwitch(states, events, i + 1, j, holder);
    assert PromotedAt(states, holder, k);
  }

  lemma {:induction false} HolderSwitch(states: seq<RoleState>, events: seq<Event>, i: nat, j: nat, holder: NodeId) returns (k: nat)
    requires Run(states, events) && Good(states[0]) && Fenced(states[0]) && i <= j < |states|
    requires states[i].epoch.Some? && states[i].epoch.value.coordinatorId != holder
    requires states[j].epoch.Some? && states[j].epoch.value.coordinatorId == holder
    ensures i <= k < j && PromotedAt(states, holder, k)
    decreases j - i
  {
    LeasesAdvance(states, events, i, j - 1);
    RunKeepsFenced(states, events, j);
    if states[j - 1].epoch.value.coordinatorId == holder {
      k := HolderSwitch(states, events, i, j - 1, holder);
    } else {
      k := j - 1;
    }
  }
}
