/** cluster/operations.py: the mutable cluster object, along a run of ClusterInvites. */
module ClusterFacade {
  import opened Wrappers
  import opened Dicts
  import opened ClusterModels
  import opened Roles
  import opened RoleInvariant
  import RoleHistory
  import opened ClusterState
  import opened ClusterCodec
  import I = ClusterInvites
  import Saves

  class Cluster {
    const hash: I.Hash
    const localId: NodeId
    var clusterId: string
    var epoch: CoordinatorEpoch
    var assignments: seq<RoleAssignment>
    var promotionEpochs: set<nat>
    var capabilityGrants: seq<CapabilityGrant>
    var invites: Dict<string, Invite>
    var admissions: Dict<string, Invite>
    var used: set<string>
    ghost var states: seq<I.Cluster>
    ghost var steps: seq<I.InviteStep>

    function Abstract(): I.Cluster
      reads this
    {
      I.Cluster(localId, I.Authority(clusterId, epoch, assignments, promotionEpochs, capabilityGrants),
                I.Tables(invites, admissions, used))
    }

    /** The object has only ever moved along a run that began without invites. */
    ghost predicate Valid()
      reads this
    {
      I.Digests(hash) && I.Run(hash, states, steps) && Abstract() == states[|steps|]
    }

    /** `create_local`: the local node coordinates epoch 1. */
    constructor (hash: I.Hash, localId: NodeId, clusterId: string, fencingToken: Token, now: real)
      requires I.Digests(hash)
      ensures Valid() && steps == [] && this.hash == hash && this.localId == localId
      ensures I.ActiveCoordinator(Abstract())
      ensures Good(I.RolesAt(Abstract().authority)) && RoleHistory.Fenced(I.RolesAt(Abstract().authority))
    {
      var local: RoleAssignment := RawAssignment.RoleAssignment({Coordinator, Worker}, Some(localId), false, false, false);
      var first: CoordinatorEpoch := RawEpoch.CoordinatorEpoch(1, localId, fencingToken, now, now + 120.0);
      this.hash, this.localId, this.clusterId, epoch := hash, localId, clusterId, first;
      assignments, promotionEpochs, capabilityGrants := [local], {}, [];
      invites, admissions, used := [], [], {};
      states := [I.Cluster(localId, I.Authority(clusterId, first, [local], {}, []), I.Tables([], [], {}))];
      steps := [];
    }

    /** Notes that the object has taken one step of the run. */
    ghost method Record(step: I.InviteStep)
      requires I.Digests(hash) && I.Run(hash, states, steps) && I.Issued(step)
      requires Abstract() == I.Next(hash, states[|steps|], step)
      modifies `states, `steps
      ensures Valid() && steps == old(steps) + [step] && states == old(states) + [Abstract()]
    {
      I.RunExtends(hash, states, steps, step);
      states, steps := states + [Abstract()], steps + [step];
    }

    /** `token` is the fresh random token. */
    method CreateInvite(token: string, target: NodeId, now: real) returns (r: Result<Invite, I.Refusal>)
      requires Valid() && !IsDigest(token)
      modifies this
      ensures Valid() && steps == old(steps) + [I.Create(token, target, now)]
      ensures r == if I.ActiveCoordinator(old(Abstract())) then Ok(I.NewInvite(hash, old(Abstract()), token, target, now))
                   else Err(I.NotCoordinator)
    {
      if !I.ActiveCoordinator(Abstract()) {
        Record(I.Create(token, target, now));
        return Err(I.NotCoordinator);
      }
      var invite := I.NewInvite(hash, Abstract(), token, target, now);
      invites := Put(invites, token, invite);
      Record(I.Create(token, target, now));
      return Ok(invite);
    }

    /** `assign` of the Worker role. */
    method AssignWorker(target: NodeId) returns (r: Result<(), I.Refusal>)
      modifies `assignments, `capabilityGrants
      ensures var spec := I.AssignWorker(old(Abstract()), target);
              if spec.Ok? then r == Ok(()) && Abstract() == old(Abstract()).(authority := spec.value)
              else r == Err(spec.error) && Abstract() == old(Abstract())
    {
      if !I.ActiveCoordinator(Abstract()) { return Err(I.NotCoordinator); }
      var roles := RoleState(assignments, Some(epoch), promotionEpochs, capabilityGrants);
      if !Consistent(roles) { return Err(I.Rejected); }
      var updated := Assign(roles, Some(localId), target, {Worker});
      if updated.Err? { return Err(I.Rejected); }
      assignments := Filter(updated.value.assignments, IsBound);
      capabilityGrants := updated.value.capabilityGrants;
      return Ok(());
    }

    method Redeem(token: string, invite: Invite, target: NodeId) returns (r: Result<Invite, I.Refusal>)
      modifies `assignments, `capabilityGrants, `invites, `admissions, `used
      ensures I.Consumption(Abstract(), r) == I.Redeem(hash, old(Abstract()), token, invite, target)
    {
      var digest := hash(token);
      invites := Drop(invites, token);
      invites := Drop(invites, digest);
      used := used + {digest};
      var _ :- AssignWorker(target);
      admissions := Put(admissions, digest, I.Erased(invite));
      return Ok(invite);
    }

    method ConsumeInvite(token: string, target: NodeId, now: real, allowRetry: bool) returns (r: Result<Invite, I.Refusal>)
      requires Valid()
      modifies this
      ensures Valid() && steps == old(steps) + [I.Consume(token, target, now, allowRetry)]
      ensures I.Consumption(Abstract(), r) == I.ConsumeInvite(hash, old(Abstract()), token, target, now, allowRetry)
    {
      r := Consume(token, target, now, allowRetry);
      Record(I.Consume(token, target, now, allowRetry));
    }

    method Consume(token: string, target: NodeId, now: real, allowRetry: bool) returns (r: Result<Invite, I.Refusal>)
      modifies `assignments, `capabilityGrants, `invites, `admissions, `used
      ensures I.Consumption(Abstract(), r) == I.ConsumeInvite(hash, old(Abstract()), token, target, now, allowRetry)
    {
      if !I.ActiveCoordinator(Abstract()) { return Err(I.NotCoordinator); }
      var digest := hash(token);
      var invite: Option<Invite> := if Find(invites, token).Some? then Find(invites, token) else Find(invites, digest);
      var admission: Option<Invite> := Find(admissions, digest);
      if admission.Some? {
        if allowRetry && admission.value.targetNodeId == target {
          r := Ok(admission.value);
        } else {
          r := Err(I.Rejected);
        }
      } else if invite.None? || digest in used || !I.Redeemable(Abstract(), invite.value, target, now) {
        r := Err(I.Rejected);
      } else {
        r := Redeem(token, invite.value, target);
      }
    }

    /** The consumption on behalf of a peer: a success that is not saved is taken back, one
        whose save raises stays. */
    method ServeConsume(token: string, caller: NodeId, now: real, saving: Saves.Saving) returns (r: Result<Invite, I.Refusal>)
      requires Valid()
      modifies this
      ensures Valid()
      ensures steps == old(steps) + [if saving.NotSaved? then I.Unsaved(token, caller, now) else I.Consume(token, caller, now, true)]
      ensures var spec := I.ConsumeInvite(hash, old(Abstract()), token, caller, now, true).result;
              r == if spec.Err? || saving.Saved? then spec else Err(I.NotSaved)
      ensures saving.NotSaved? && I.ConsumeInvite(hash, old(Abstract()), token, caller, now, true).result.Ok? ==>
                (assignments, invites, admissions, used) == old((assignments, invites, admissions, used))
    {
      var previous := (assignments, invites, admissions, used);
      r := Consume(token, caller, now, true);
      if r.Ok? && !saving.Saved? {
        r := Err(I.NotSaved);
        if saving.NotSaved? { assignments, invites, admissions, used := previous.0, previous.1, previous.2, previous.3; }
      }
      Record(if saving.NotSaved? then I.Unsaved(token, caller, now) else I.Consume(token, caller, now, true));
    }

    /** `save` and `load`: a state that cannot be written or read leaves the old object. */
    method Restart() returns (ok: bool)
      requires Valid()
      modifies this
      ensures Valid() && steps == old(steps) + [I.Restart]
      ensures ok <==> I.Reload(hash, old(Abstract())).Ok?
      ensures Abstract() == if ok then I.Reload(hash, old(Abstract())).value else old(Abstract())
    {
      I.RestartIsReload(hash, Abstract());
      ok := SaveAndLoad();
      Record(I.Restart);
    }

    method SaveAndLoad() returns (ok: bool)
      modifies this
      ensures states == old(states) && steps == old(steps)
      ensures var r := I.Reload(hash, old(Abstract()));
              ok == r.Ok? && Abstract() == if ok then r.value else old(Abstract())
    {
      var document := ToDict(I.Aggregate(Abstract()));
      if document.None? { return false; }
      var state := ReadClusterState(hash, document.value);
      ok := state.Ok? && I.FromState(localId, state.value).Ok?;
      if ok { Hydrate(state.value); }
    }

    /** `from_state`, after its checks. */
    method Hydrate(s: ClusterState)
      requires I.FromState(localId, s).Ok?
      modifies this
      ensures Abstract() == I.FromState(localId, s).value
      ensures states == old(states) && steps == old(steps)
    {
      clusterId, epoch := s.clusterId, s.coordinatorEpoch.value;
      assignments := Filter(s.roleAssignments, IsBound);
      promotionEpochs, capabilityGrants := s.promotionEpochs, s.capabilityGrants;
      used := s.usedInvites;
      invites := IndexByHash(s.activeInvites);
      admissions := IndexByHash(s.joinAdmissions);
    }

    method IndexByHash(items: seq<Invite>) returns (d: Dict<string, Invite>)
      ensures d == I.ByHash(items)
    {
      d := [];
      for i := 0 to |items|
        invariant d == I.ByHash(items[..i])
      {
        assert items[..i + 1][..i] == items[..i];
        d := Put(d, items[i].tokenHash, items[i]);
      }
      assert items[..|items|] == items;
    }

    /** Any other change of membership, epoch or grants. */
    method ApplyAuthority(authority: I.Authority)
      requires Valid()
      modifies this
      ensures Valid() && steps == old(steps) + [I.Other(authority)]
      ensures Abstract() == old(Abstract()).(authority := authority)
    {
      clusterId, epoch, assignments := authority.clusterId, authority.epoch, authority.assignments;
      promotionEpochs, capabilityGrants := authority.promotionEpochs, authority.capabilityGrants;
      Record(I.Other(authority));
    }
  }
}
