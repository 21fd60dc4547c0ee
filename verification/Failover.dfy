/** cluster/failover.py: durable orchestration around the pure role decisions. */
module Failover {
  import opened Wrappers
  import opened ClusterModels
  import opened Roles
  import opened RoleInvariant
  import RoleEffects
  import opened RoleHistory

  datatype Outcome =
    | Done                  // the candidate was persisted and published
    | Refused(error: Error) // no candidate; heartbeat and promotion report False, the rest raise
    | NotPersisted          // persisting the candidate raised

  class FailoverCoordinator {
    var state: RoleState
    ghost var states: seq<RoleState>
    ghost var events: seq<Event>

    /** The object has only ever moved along a run of the state machine, from a
        good, fenced start. */
    ghost predicate Valid()
      reads this
    {
      && Run(states, events) && state == states[|events|]
      && Good(states[0]) && Fenced(states[0])
    }

    constructor (state: RoleState)
      requires Good(state) && Fenced(state)
      ensures Valid() && this.state == state && states == [state] && events == []
    {
      this.state := state;
      states, events := [state], [];
    }

    /** Persist first, publish only what was persisted. */
    method Commit(candidate: Result<RoleState, Error>, persisted: bool, ghost step: Step) returns (outcome: Outcome)
      requires Valid() && candidate == Apply(state, step)
      modifies this
      ensures Valid() && events == old(events) + [Event(step, persisted)] && states == old(states) + [state]
      ensures state == Next(old(state), Event(step, persisted))
      ensures outcome == if candidate.Err? then Refused(candidate.error) else if persisted then Done else NotPersisted
    {
      if candidate.Err? {
        outcome := Refused(candidate.error);
      } else if !persisted {
        outcome := NotPersisted;
      } else {
        state := candidate.value;
        outcome := Done;
      }
      RunExtends(states, events, Event(step, persisted));
      events := events + [Event(step, persisted)];
      states := states + [state];
    }

    /** The coordinator that a restart builds from what was persisted last. */
    method Reload()
      requires Valid()
      modifies this
      ensures Valid() && events == old(events) + [Restart] && states == old(states) + [state]
      ensures state == Reloaded(old(state)) && Good(state) && Fenced(state)
    {
      RunExtends(states, events, Restart);
      state := Reloaded(state);
      events := events + [Restart];
      states := states + [state];
      RunKeepsFenced(states, events, |events|);
    }

    method Heartbeat(coordinator: NodeId, token: string, now: real, persisted: bool) returns (outcome: Outcome)
      requires Valid()
      modifies this
      ensures Valid() && events == old(events) + [Event(HeartbeatStep(coordinator, token, now), persisted)]
      ensures states == old(states) + [state]
      ensures outcome.Done? ==> old(state).epoch.Some? && old(state).epoch.value.coordinatorId == coordinator
      ensures !outcome.Done? ==> state == old(state)
    {
      outcome := Commit(Roles.Heartbeat(state, coordinator, token, now), persisted, HeartbeatStep(coordinator, token, now));
    }

    /** At most one promotion per epoch, and only once the lease has run out. */
    method PromoteIfDue(now: real, newToken: Token, persisted: bool) returns (outcome: Outcome)
      requires Valid()
      modifies this
      ensures Valid() && events == old(events) + [Event(PromoteStep(now, newToken), persisted)]
      ensures states == old(states) + [state]
      ensures outcome.Done? ==> Promotes(old(state), state) && EpochStep(old(state), state) && state.capabilityGrants == []
      ensures !outcome.Done? ==> state == old(state)
    {
      outcome := Commit(Roles.PromoteIfDue(state, now, newToken), persisted, PromoteStep(now, newToken));
      if outcome.Done? {
        RunKeepsFenced(old(states), old(events), |old(events)|);
        PromotionIsEpochStep(old(state), now, newToken);
        PromotionKeepsGood(old(state), now, newToken);
      }
    }

    method RejoinAsWorker(node: NodeId, currentEpoch: int, persisted: bool) returns (outcome: Outcome)
      requires Valid()
      modifies this
      ensures Valid() && events == old(events) + [Event(RejoinStep(node, currentEpoch), persisted)]
      ensures states == old(states) + [state]
      ensures outcome.Done? ==> state.epoch == old(state).epoch && Control(state, Some(node)).Err?
      ensures !outcome.Done? ==> state == old(state)
    {
      outcome := Commit(Roles.RejoinAsWorker(state, node, currentEpoch), persisted, RejoinStep(node, currentEpoch));
      if outcome.Done? {
        RunKeepsFenced(old(states), old(events), |old(events)|);
        RoleEffects.RejoinDropsControl(old(state), node, currentEpoch);
      }
    }

    method AssignRole(actor: Option<NodeId>, target: NodeId, roles: set<Role>, persisted: bool) returns (outcome: Outcome)
      requires Valid()
      modifies this
      ensures Valid() && events == old(events) + [Event(AssignStep(actor, target, roles), persisted)]
      ensures states == old(states) + [state]
      ensures outcome.Done? ==> Control(old(state), actor).Ok? && Good(state) && state.epoch == old(state).epoch
      ensures !outcome.Done? ==> state == old(state)
    {
      outcome := Commit(Roles.Assign(state, actor, target, roles), persisted, AssignStep(actor, target, roles));
      RunKeepsGood(states, events, |events|);
    }

    method RevokeMember(actor: Option<NodeId>, target: NodeId, persisted: bool) returns (outcome: Outcome)
      requires Valid()
      modifies this
      ensures Valid() && events == old(events) + [Event(RevokeStep(actor, target), persisted)]
      ensures states == old(states) + [state]
      ensures outcome.Done? ==> Revoked(state, target) && RoleEffects.ShutOut(state, target)
      ensures !outcome.Done? ==> state == old(state)
    {
      outcome := Commit(Roles.Revoke(state, actor, target), persisted, RevokeStep(actor, target));
      if outcome.Done? {
        RoleEffects.RevokeShutsOut(old(state), actor, target);
      }
    }
  }
}
