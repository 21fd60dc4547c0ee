/** remote/service.py: the fence that role operations must present. */
module ClusterFence {
  import opened Wrappers

  datatype Fence = Fence(clusterId: Option<string>, epoch: Option<int>, token: Option<string>)

  datatype Claim = Claim(clusterId: string, epoch: int, token: string)

  datatype FenceError = OlderEpoch | TokenConflict

  function Updated(f: Fence, c: Claim): Result<Fence, FenceError> {
    var installed := Fence(Some(c.clusterId), Some(c.epoch), Some(c.token));
    if f.clusterId != Some(c.clusterId) || f.epoch.None? then Ok(installed)
    else if c.epoch < f.epoch.value then Err(OlderEpoch)
    else if c.epoch == f.epoch.value then (if f.token != Some(c.token) then Err(TokenConflict) else Ok(f))
    else Ok(installed)
  }

  /** A part of the fence that is not set is not checked. */
  predicate Admits(f: Fence, c: Claim) {
    && (f.clusterId.Some? ==> c.clusterId == f.clusterId.value)
    && (f.epoch.Some? ==> c.epoch == f.epoch.value)
    && (f.token.Some? ==> c.token == f.token.value)
  }

  class RemoteService {
    var clusterId: Option<string>
    var coordinatorEpoch: Option<int>
    var fencingToken: Option<string>

    ghost function Current(): Fence
      reads this
    {
      Fence(clusterId, coordinatorEpoch, fencingToken)
    }

    method UpdateClusterFence(c: Claim) returns (r: Result<(), FenceError>)
      modifies this
      ensures r.Ok? ==> Updated(old(Current()), c) == Ok(Current()) && Admits(Current(), c)
      ensures r.Err? ==> Updated(old(Current()), c) == Err(r.error) && Current() == old(Current())
    {
      if clusterId != Some(c.clusterId) || coordinatorEpoch.None? {
        clusterId, coordinatorEpoch, fencingToken := Some(c.clusterId), Some(c.epoch), Some(c.token);
        return Ok(());
      }
      if c.epoch < coordinatorEpoch.value {
        return Err(OlderEpoch);
      }
      if c.epoch == coordinatorEpoch.value {
        return if fencingToken != Some(c.token) then Err(TokenConflict) else Ok(());
      }
      clusterId, coordinatorEpoch, fencingToken := Some(c.clusterId), Some(c.epoch), Some(c.token);
      r := Ok(());
    }
  }

  // ------------------------------------------------------------------
  // Whole runs of updates
  // ------------------------------------------------------------------

  function After(f: Fence, c: Claim): Fence {
    var r := Updated(f, c);
    if r.Ok? then r.value else f
  }

  ghost predicate Run(states: seq<Fence>, claims: seq<Claim>) {
    |states| == |claims| + 1 && forall i: nat | i < |claims| :: Moves(states, claims, i)
  }

  /** Step `i` of a run. */
  ghost predicate Moves(states: seq<Fence>, claims: seq<Claim>, i: nat)
    requires |states| == |claims| + 1 && i < |claims|
  {
    states[i + 1] == After(states[i], claims[i])
  }

  ghost predicate Set(f: Fence) {
    f.clusterId.Some? && f.epoch.Some? && f.token.Some?
  }

  /** As long as the cluster stays the same, epochs never go back and each has one token. */
  lemma {:induction false} FenceAdvances(states: seq<Fence>, claims: seq<Claim>, i: nat, j: nat)
    requires Run(states, claims) && i <= j < |states| && Set(states[i])
    requires forall k | i <= k < j :: Some(claims[k].clusterId) == states[i].clusterId
    ensures Set(states[j]) && states[j].clusterId == states[i].clusterId
    ensures states[i].epoch.value <= states[j].epoch.value
    ensures states[i].epoch == states[j].epoch ==> states[i] == states[j]
    decreases j - i
  {
    if i < j {
      FenceAdvances(states, claims, i, j - 1);
      assert Moves(states, claims, j - 1);
    }
  }

  /** What is left behind in its own cluster. */
  ghost predicate Superseded(f: Fence, claim: Claim) {
    && Set(f) && f.clusterId == Some(claim.clusterId)
    && (claim.epoch < f.epoch.value || (claim.epoch == f.epoch.value && f.token != Some(claim.token)))
  }

  /** A claim that was admitted and no longer is has been left behind. */
  lemma SupersededMeans(f: Fence, g: Fence, claim: Claim)
    requires Set(f) && Set(g) && f.clusterId == g.clusterId && Admits(f, claim) && !Admits(g, claim) && f.epoch.value <= g.epoch.value
    ensures Superseded(g, claim)
  {
  }

  /** Once the fence has moved past a claim that it admitted, it never admits it again. */
  lemma SupersededIsRefused(states: seq<Fence>, claims: seq<Claim>, claim: Claim, i: nat, j: nat, k: nat)
    requires Run(states, claims) && i <= j <= k < |states| && Set(states[i])
    requires forall n | i <= n < k :: Some(claims[n].clusterId) == states[i].clusterId
    requires Admits(states[i], claim) && !Admits(states[j], claim)
    ensures Superseded(states[j], claim) && Superseded(states[k], claim) && !Admits(states[k], claim)
  {
    FenceAdvances(states, claims, i, j);
    SupersededMeans(states[i], states[j], claim);
    FenceAdvances(states, claims, j, k);
  }

  /** Exactly when presenting a refused claim as an update lets it in: it is of another
      cluster, or of a later epoch. */
  lemma ReadmittedIff(f: Fence, claim: Claim)
    requires Set(f) && !Admits(f, claim)
    ensures Admits(After(f, claim), claim) <==> f.clusterId != Some(claim.clusterId) || claim.epoch > f.epoch.value
  {
  }

  /** Over any run of updates, the superseded claim itself among them, it is admitted
      again only if some update in between named another cluster. */
  lemma ReadmittedThroughAnother(states: seq<Fence>, claims: seq<Claim>, claim: Claim, j: nat, k: nat)
    requires Run(states, claims) && j <= k < |states| && Superseded(states[j], claim) && Admits(states[k], claim)
    ensures exists n :: j <= n < k && claims[n].clusterId != claim.clusterId
  {
    if forall n | j <= n < k :: claims[n].clusterId == claim.clusterId {
      FenceAdvances(states, claims, j, k);
    }
  }

  /** Any such visit is enough, and nothing else is, for the next update by the claim. */
  lemma VisitReadmits(f: Fence, claim: Claim, other: Claim)
    requires Superseded(f, claim)
    ensures !Admits(After(f, claim), claim)
    ensures Admits(After(After(f, other), claim), claim) <==> other.clusterId != claim.clusterId
  {
  }

  /** The cluster must stay the same: leaving it and returning installs any epoch. */
  lemma ReturningForgets(claim: Claim, newer: Claim, other: Claim)
    requires newer.clusterId == claim.clusterId && newer.epoch > claim.epoch && other.clusterId != claim.clusterId
    ensures var f := After(Fence(None, None, None), claim);
            && Admits(f, claim)
            && !Admits(After(f, newer), claim)
            && Admits(After(After(After(f, newer), other), claim), claim)
  {
  }
}
