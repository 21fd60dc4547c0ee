/** cluster/operations.py: whole runs with fresh tokens. Whatever is presented, an invite
    admits nobody but the node it names, and once; and exactly when a restart of the
    reached cluster changes a verdict. */
module InviteRuns {
  import opened Wrappers
  import opened Dicts
  import opened ClusterModels
  import opened Roles
  import opened RoleInvariant
  import opened ClusterState
  import opened ClusterCodec
  import opened ClusterInvites
  import opened InviteRestart

  /** Random tokens: no two of the created ones have the same digest. */
  ghost predicate FreshTokens(hash: Hash, steps: seq<InviteStep>) {
    forall i, j | 0 <= i < j < |steps| && steps[i].Create? && steps[j].Create? :: hash(steps[i].token) != hash(steps[j].token)
  }

  /** The presented token does not collide with another created one. */
  ghost predicate OwnDigest(hash: Hash, steps: seq<InviteStep>, token: string) {
    forall i | 0 <= i < |steps| && steps[i].Create? :: hash(steps[i].token) == hash(token) ==> steps[i].token == token
  }

  /** Roles that their constructor accepts, each of a node, the local one among them. */
  ghost predicate Orderly(localId: NodeId, a: Authority) {
    Consistent(RolesAt(a)) && AllBound(a.assignments) && AssignmentFor(a.assignments, localId).Some? && a.clusterId != ""
  }

  /** A run in which whatever else changes the roles leaves them orderly. */
  ghost predicate OrderlyRun(hash: Hash, states: seq<Cluster>, steps: seq<InviteStep>)
    requires Digests(hash)
  {
    && TokenRun(hash, states, steps) && Orderly(states[0].localId, states[0].authority)
    && forall i | 0 <= i < |steps| && steps[i].Other? :: Orderly(states[0].localId, steps[i].authority)
  }

  // ------------------------------------------------------------------
  // Orderly roles
  // ------------------------------------------------------------------

  lemma AssignKeepsOrderly(c: Cluster, target: NodeId)
    requires Orderly(c.localId, c.authority) && AssignWorker(c, target).Ok?
    ensures Orderly(c.localId, AssignWorker(c, target).value)
  {
    var s := RolesAt(c.authority);
    var s' := Assign(s, Some(c.localId), target, {Worker}).value;
    AssignKeepsBound(s, Some(c.localId), target);
    FilterAll(s'.assignments, IsBound);
    AssignKeepsOthers(s, c.localId, target);
  }

  lemma AssignKeepsOthers(s: RoleState, actor: NodeId, target: NodeId)
    requires Assign(s, Some(actor), target, {Worker}).Ok? && AssignmentFor(s.assignments, actor).Some?
    ensures AssignmentFor(Assign(s, Some(actor), target, {Worker}).value.assignments, actor).Some?
  {
    var current := AssignmentFor(s.assignments, target);
    var made := MakeAssignment({Worker}, Some(target), current.Some? && current.value.paused, false,
                               current.Some? && current.value.hasActiveJob).value;
    LookupReplaced(s.assignments, target, made, actor);
    if current.None? {
      LookupAppended(Replaced(s.assignments, target, made), made, actor);
    } else {
      assert Replaced(s.assignments, target, made) + [] == Replaced(s.assignments, target, made);
    }
  }

  lemma RestartKeepsOrderly(hash: Hash, c: Cluster)
    requires Digests(hash) && TablesOk(hash, c.tables) && WellBuilt(c)
    ensures Restarted(hash, c).Ok? && Orderly(c.localId, Restarted(hash, c).value.authority)
    ensures Restarted(hash, c).value.localId == c.localId
  {
    RestartWorks(hash, c);
    var a, a' := c.authority, Restarted(hash, c).value.authority;
    ConsistentAside(RolesAt(a), a'.assignments);
    LookupAside(a.assignments, a'.assignments, c.localId);
    forall b | b in a'.assignments ensures IsBound(b) {
      var i :| 0 <= i < |a'.assignments| && a'.assignments[i] == b;
      assert Jobless(a.assignments[i]) == Jobless(b) && a.assignments[i] in a.assignments;
    }
  }

  // ------------------------------------------------------------------
  // The invites of a run
  // ------------------------------------------------------------------

  /** The invite was created by an earlier step, for the node that it names. */
  ghost predicate Stems(hash: Hash, steps: seq<InviteStep>, n: nat, invite: Invite)
    requires n <= |steps|
  {
    exists i :: 0 <= i < n && CreatedBy(hash, steps[i], invite)
  }

  predicate CreatedBy(hash: Hash, step: InviteStep, invite: Invite) {
    step.Create? && invite.tokenHash == hash(step.token) && invite.targetNodeId == step.target
  }

  /** It is filed under its token or digest. */
  ghost predicate From(hash: Hash, steps: seq<InviteStep>, n: nat, item: (string, Invite))
    requires n <= |steps|
  {
    exists i :: 0 <= i < n && CreatedBy(hash, steps[i], item.1) && (IsDigest(item.0) || item.0 == steps[i].token)
  }

  /** Where every invite and admission comes from, that invites have distinct digests, and
      that the epochs of both are not negative. */
  ghost predicate Traced(hash: Hash, steps: seq<InviteStep>, n: nat, t: Tables)
    requires n <= |steps|
  {
    && (forall item | item in t.invites :: From(hash, steps, n, item) && item.1.epoch >= 0)
    && (forall item | item in t.admissions :: Stems(hash, steps, n, item.1) && item.1.epoch >= 0)
    && DistinctHashes(t.invites)
  }

  lemma TracedIsCounted(hash: Hash, steps: seq<InviteStep>, n: nat, t: Tables)
    requires n <= |steps| && Traced(hash, steps, n, t)
    ensures EpochsCount(Values(t.invites)) && EpochsCount(Values(t.admissions))
  {
    assert forall i | 0 <= i < |t.invites| :: t.invites[i] in t.invites;
    assert forall i | 0 <= i < |t.admissions| :: t.admissions[i] in t.admissions;
  }

  lemma FromLater(hash: Hash, steps: seq<InviteStep>, n: nat, item: (string, Invite))
    requires n < |steps| && From(hash, steps, n, item)
    ensures From(hash, steps, n + 1, item)
  {
  }

  lemma TracedLater(hash: Hash, steps: seq<InviteStep>, n: nat, t: Tables)
    requires n < |steps| && Traced(hash, steps, n, t)
    ensures Traced(hash, steps, n + 1, t)
  {
    forall item | item in t.invites ensures From(hash, steps, n + 1, item) {
      FromLater(hash, steps, n, item);
    }
  }

  lemma CreateKeepsTraced(hash: Hash, c: Cluster, steps: seq<InviteStep>, n: nat)
    requires Digests(hash) && InvitesOk(hash, c.tables) && FreshTokens(hash, steps)
    requires n < |steps| && Traced(hash, steps, n, c.tables) && steps[n].Create? && Issued(steps[n])
    ensures Traced(hash, steps, n + 1, Next(hash, c, steps[n]).tables)
  {
    var token, target, now := steps[n].token, steps[n].target, steps[n].now;
    TracedLater(hash, steps, n, c.tables);
    forall item | item in c.tables.invites ensures item.1.tokenHash != hash(token) {
      assert From(hash, steps, n, item);
    }
    if ActiveCoordinator(c) {
      CreateKeepsDistinctHashes(hash, c, token, target, now);
      var invite := NewInvite(hash, c, token, target, now);
      PutEffect(c.tables.invites, token, invite);
      assert CreatedBy(hash, steps[n], invite);
    }
  }

  lemma ConsumeKeepsTraced(hash: Hash, c: Cluster, steps: seq<InviteStep>, n: nat,
                           token: string, target: NodeId, now: real, allowRetry: bool)
    requires Digests(hash) && InvitesOk(hash, c.tables) && n <= |steps| && Traced(hash, steps, n, c.tables)
    ensures Traced(hash, steps, n, ConsumeInvite(hash, c, token, target, now, allowRetry).cluster.tables)
  {
    var digest, invite := hash(token), Found(hash, c.tables, token);
    ConsumeKeepsDistinctHashes(hash, c, token, target, now, allowRetry);
    DropEffect(c.tables.invites, token);
    DropEffect(Drop(c.tables.invites, token), digest);
    if invite.Some? {
      FoundStems(hash, c, steps, n, token);
      PutEffect(c.tables.admissions, digest, Erased(invite.value));
    }
  }

  lemma FoundStems(hash: Hash, c: Cluster, steps: seq<InviteStep>, n: nat, token: string)
    requires n <= |steps| && Traced(hash, steps, n, c.tables) && Found(hash, c.tables, token).Some?
    ensures var invite := Found(hash, c.tables, token).value;
            Stems(hash, steps, n, invite) && Stems(hash, steps, n, Erased(invite)) && invite.epoch >= 0
  {
    FoundIsInvite(hash, c.tables, token);
    var item :| item in c.tables.invites && Some(item.1) == Found(hash, c.tables, token);
    var i :| 0 <= i < n && CreatedBy(hash, steps[i], item.1);
    assert CreatedBy(hash, steps[i], Erased(item.1));
  }

  lemma RestartKeepsTraced(hash: Hash, c: Cluster, steps: seq<InviteStep>, n: nat)
    requires Digests(hash) && InvitesOk(hash, c.tables) && Restarted(hash, c).Ok?
    requires n <= |steps| && Traced(hash, steps, n, c.tables)
    ensures Traced(hash, steps, n, Restarted(hash, c).value.tables)
  {
    var invites, admissions := c.tables.invites, c.tables.admissions;
    RefiledKeys(hash, invites);
    forall item | item in ByHash(Tokenless(Values(invites))) ensures From(hash, steps, n, item) && item.1.epoch >= 0 {
      RefiledFrom(invites, item);
      var was :| was in invites && item.1 == Erased(was.1);
      var i :| 0 <= i < n && CreatedBy(hash, steps[i], was.1);
      assert CreatedBy(hash, steps[i], item.1);
    }
    forall item | item in ByHash(Tokenless(Values(admissions))) ensures Stems(hash, steps, n, item.1) && item.1.epoch >= 0 {
      RefiledFrom(admissions, item);
      var was :| was in admissions && item.1 == Erased(was.1);
      var i :| 0 <= i < n && CreatedBy(hash, steps[i], was.1);
      assert CreatedBy(hash, steps[i], item.1);
    }
  }

  lemma StepKeepsTraced(hash: Hash, c: Cluster, steps: seq<InviteStep>, n: nat)
    requires Digests(hash) && InvitesOk(hash, c.tables) && FreshTokens(hash, steps)
    requires n < |steps| && Issued(steps[n]) && Traced(hash, steps, n, c.tables)
    ensures Traced(hash, steps, n + 1, Next(hash, c, steps[n]).tables)
  {
    match steps[n]
    case Create(_, _, _) => CreateKeepsTraced(hash, c, steps, n);
    case Consume(token, target, now, allowRetry) =>
      ConsumeKeepsTraced(hash, c, steps, n, token, target, now, allowRetry);
      TracedLater(hash, steps, n, Next(hash, c, steps[n]).tables);
    case Unsaved(token, target, now) =>
      ConsumeKeepsTraced(hash, c, steps, n, token, target, now, true);
      TracedLater(hash, steps, n, Next(hash, c, steps[n]).tables);
    case Restart =>
      if Restarted(hash, c).Ok? { RestartKeepsTraced(hash, c, steps, n); }
      TracedLater(hash, steps, n, Next(hash, c, steps[n]).tables);
    case Other(_) => TracedLater(hash, steps, n, c.tables);
  }

  /** Whatever is presented, every invite and every admission in any state of a run with
      fresh tokens stems from the one creation with its digest, and names its node. */
  lemma {:induction false} RunIsTraced(hash: Hash, states: seq<Cluster>, steps: seq<InviteStep>, n: nat)
    requires Digests(hash) && Run(hash, states, steps) && FreshTokens(hash, steps) && n < |states|
    ensures InvitesOk(hash, states[n].tables) && Traced(hash, steps, n, states[n].tables)
  {
    RunKeepsInvites(hash, states, steps, n);
    if n > 0 {
      RunIsTraced(hash, states, steps, n - 1);
      assert Moves(hash, states, steps, n - 1);
      StepKeepsTraced(hash, states[n - 1], steps, n - 1);
    }
  }

  // ------------------------------------------------------------------
  // Once, and as named
  // ------------------------------------------------------------------

  /** What a successful consumption yields. */
  function Yielded(hash: Hash, c: Cluster, step: InviteStep): Invite
    requires Succeeds(hash, c, step)
  {
    ConsumeInvite(hash, c, step.token, step.target, step.now, step.allowRetry).result.value
  }

  /** Whatever string succeeds, it yields an invite that was created for the very node
      that presents it. */
  lemma AdmittedAsNamed(hash: Hash, states: seq<Cluster>, steps: seq<InviteStep>, i: nat)
    requires Digests(hash) && Run(hash, states, steps) && FreshTokens(hash, steps) && i < |steps|
    requires Succeeds(hash, states[i], steps[i])
    ensures var invite := Yielded(hash, states[i], steps[i]);
            && invite.targetNodeId == steps[i].target
            && (exists k :: 0 <= k < i && CreatedBy(hash, steps[k], invite))
            && forall k | 0 <= k < |steps| && steps[k].Create? && hash(steps[k].token) == invite.tokenHash :: steps[k].target == steps[i].target
  {
    RunIsTraced(hash, states, steps, i);
    var c, token := states[i], steps[i].token;
    FindMeans(c.tables.admissions, hash(token));
    if Find(c.tables.admissions, hash(token)).None? { FoundStems(hash, c, steps, i, token); }
    var invite := Yielded(hash, c, steps[i]);
    assert Stems(hash, steps, i, invite);
    var k :| 0 <= k < i && CreatedBy(hash, steps[k], invite);
    forall m | 0 <= m < |steps| && steps[m].Create? && hash(steps[m].token) == invite.tokenHash ensures m == k {
    }
  }

  /** No open invite has the digest, and it was issued before. */
  ghost predicate Taken(hash: Hash, steps: seq<InviteStep>, n: nat, t: Tables, digest: string)
    requires n <= |steps|
  {
    && (exists i :: 0 <= i < n && steps[i].Create? && hash(steps[i].token) == digest)
    && forall item | item in t.invites :: item.1.tokenHash != digest
  }

  lemma AdmittingTakes(hash: Hash, states: seq<Cluster>, steps: seq<InviteStep>, i: nat)
    requires Digests(hash) && Run(hash, states, steps) && FreshTokens(hash, steps) && i < |steps|
    requires Admits(hash, states[i], steps[i])
    ensures Taken(hash, steps, i + 1, states[i + 1].tables, Yielded(hash, states[i], steps[i]).tokenHash)
  {
    RunIsTraced(hash, states, steps, i);
    assert Moves(hash, states, steps, i);
    var c, token := states[i], steps[i].token;
    FoundStems(hash, c, steps, i, token);
    FoundIsInvite(hash, c.tables, token);
    DropEffect(c.tables.invites, token);
    DropEffect(Drop(c.tables.invites, token), hash(token));
  }

  lemma StepKeepsTaken(hash: Hash, c: Cluster, steps: seq<InviteStep>, n: nat, digest: string)
    requires Digests(hash) && InvitesOk(hash, c.tables) && FreshTokens(hash, steps)
    requires n < |steps| && Taken(hash, steps, n, c.tables, digest)
    ensures Taken(hash, steps, n + 1, Next(hash, c, steps[n]).tables, digest)
  {
    match steps[n]
    case Create(token, target, now) => PutEffect(c.tables.invites, token, NewInvite(hash, c, token, target, now));
    case Consume(token, _, _, _) =>
      DropEffect(c.tables.invites, token);
      DropEffect(Drop(c.tables.invites, token), hash(token));
    case Unsaved(token, _, _) =>
      DropEffect(c.tables.invites, token);
      DropEffect(Drop(c.tables.invites, token), hash(token));
    case Restart =>
      forall item | item in ByHash(Tokenless(Values(c.tables.invites))) ensures item.1.tokenHash != digest {
        RefiledFrom(c.tables.invites, item);
      }
    case Other(_) =>
  }

  lemma MoveKeepsTaken(hash: Hash, states: seq<Cluster>, steps: seq<InviteStep>, n: nat, digest: string)
    requires Digests(hash) && Run(hash, states, steps) && FreshTokens(hash, steps) && n < |steps|
    requires Taken(hash, steps, n, states[n].tables, digest)
    ensures Taken(hash, steps, n + 1, states[n + 1].tables, digest)
  {
    var c := states[n];
    assert states[n + 1] == Next(hash, c, steps[n]) by { assert Moves(hash, states, steps, n); }
    assert InvitesOk(hash, c.tables) by { RunKeepsInvites(hash, states, steps, n); }
    StepKeepsTaken(hash, c, steps, n, digest);
  }

  lemma {:induction false} StaysTaken(hash: Hash, states: seq<Cluster>, steps: seq<InviteStep>, i: nat, j: nat, digest: string)
    requires Digests(hash) && Run(hash, states, steps) && FreshTokens(hash, steps) && i <= j < |states|
    requires Taken(hash, steps, i, states[i].tables, digest)
    ensures Taken(hash, steps, j, states[j].tables, digest)
  {
    if i < j {
      StaysTaken(hash, states, steps, i, j - 1, digest);
      MoveKeepsTaken(hash, states, steps, j - 1, digest);
    }
  }

  lemma TakenYieldsNothing(hash: Hash, c: Cluster, steps: seq<InviteStep>, n: nat, step: InviteStep, digest: string)
    requires n <= |steps| && Taken(hash, steps, n, c.tables, digest) && Admits(hash, c, step)
    ensures Yielded(hash, c, step).tokenHash != digest
  {
    FoundIsInvite(hash, c.tables, step.token);
  }

  /** Whatever strings are presented, digests of invites among them, and however often the
      cluster restarts: an invite admits at most once. */
  lemma InviteAdmitsOnce(hash: Hash, states: seq<Cluster>, steps: seq<InviteStep>, i: nat, j: nat)
    requires Digests(hash) && Run(hash, states, steps) && FreshTokens(hash, steps) && i < j < |steps|
    requires Admits(hash, states[i], steps[i]) && Admits(hash, states[j], steps[j])
    ensures Yielded(hash, states[i], steps[i]).tokenHash != Yielded(hash, states[j], steps[j]).tokenHash
  {
    var digest := Yielded(hash, states[i], steps[i]).tokenHash;
    AdmittingTakes(hash, states, steps, i);
    StaysTaken(hash, states, steps, i + 1, j, digest);
    TakenYieldsNothing(hash, states[j], steps, j, steps[j], digest);
  }

  // ------------------------------------------------------------------
  // Restarts of what such a run reaches
  // ------------------------------------------------------------------

  lemma StepKeepsOrderly(hash: Hash, c: Cluster, step: InviteStep)
    requires Digests(hash) && TablesOk(hash, c.tables) && WellBuilt(c)
    requires Orderly(c.localId, c.authority) && (step.Other? ==> Orderly(c.localId, step.authority))
    ensures var c' := Next(hash, c, step); c'.localId == c.localId && Orderly(c.localId, c'.authority)
  {
    match step
    case Consume(token, target, now, allowRetry) => ConsumeKeepsOrderly(hash, c, token, target, now, allowRetry);
    case Unsaved(token, target, now) =>
      ConsumeKeepsOrderly(hash, c, token, target, now, true);
      assert Consistent(RolesAt(ConsumeInvite(hash, c, token, target, now, true).cluster.authority));
    case Restart => RestartKeepsOrderly(hash, c);
    case _ =>
  }

  lemma MoveKeepsOrderly(hash: Hash, states: seq<Cluster>, steps: seq<InviteStep>, n: nat)
    requires Digests(hash) && OrderlyRun(hash, states, steps) && n < |steps|
    requires TablesOk(hash, states[n].tables) && WellBuilt(states[n])
    requires states[n].localId == states[0].localId && Orderly(states[0].localId, states[n].authority)
    ensures states[n + 1].localId == states[0].localId && Orderly(states[0].localId, states[n + 1].authority)
  {
    var c, step := states[n], steps[n];
    assert states[n + 1] == Next(hash, c, step) by { assert Moves(hash, states, steps, n); }
    StepKeepsOrderly(hash, c, step);
  }

  /** A cluster that an orderly run with fresh tokens reaches can be restarted. */
  lemma {:induction false} RunIsOrderly(hash: Hash, states: seq<Cluster>, steps: seq<InviteStep>, n: nat)
    requires Digests(hash) && OrderlyRun(hash, states, steps) && FreshTokens(hash, steps) && n < |states|
    ensures TablesOk(hash, states[n].tables) && WellBuilt(states[n])
    ensures states[n].localId == states[0].localId && Orderly(states[0].localId, states[n].authority)
  {
    RunKeepsTables(hash, states, steps, n);
    RunIsTraced(hash, states, steps, n);
    TracedIsCounted(hash, steps, n, states[n].tables);
    if n > 0 {
      RunIsOrderly(hash, states, steps, n - 1);
      MoveKeepsOrderly(hash, states, steps, n - 1);
    }
  }

  lemma ConsumeKeepsOrderly(hash: Hash, c: Cluster, token: string, target: NodeId, now: real, allowRetry: bool)
    requires Digests(hash) && Orderly(c.localId, c.authority)
    ensures var c' := ConsumeInvite(hash, c, token, target, now, allowRetry).cluster;
            c'.localId == c.localId && Orderly(c.localId, c'.authority)
  {
    var digest := hash(token);
    var spent := c.(tables := c.tables.(
      invites := Drop(Drop(c.tables.invites, token), digest), used := c.tables.used + {digest}));
    if AssignWorker(spent, target).Ok? { AssignKeepsOrderly(spent, target); }
  }

  /** The presented string collides with no other invite of such a run. */
  lemma OwnDigestMeans(hash: Hash, steps: seq<InviteStep>, n: nat, t: Tables, token: string)
    requires Digests(hash) && n <= |steps| && Traced(hash, steps, n, t) && OwnDigest(hash, steps, token)
    requires forall i | 0 <= i < |steps| :: Issued(steps[i])
    ensures NoCollision(hash, t.invites, token)
  {
    forall item | item in t.invites && item.1.tokenHash == hash(token)
      ensures !IsDigest(token) && (IsDigest(item.0) || item.0 == token)
    {
      assert From(hash, steps, n, item);
    }
  }

  /** In every cluster that such a run reaches a restart works, and it changes the verdict on
      a presented string exactly when that is the digest of an invite that is still filed
      under its token, and redeeming the invite would go through. */
  lemma ReachableRestart(hash: Hash, states: seq<Cluster>, steps: seq<InviteStep>, n: nat,
                         token: string, target: NodeId, now: real, allowRetry: bool)
    requires Digests(hash) && OrderlyRun(hash, states, steps) && FreshTokens(hash, steps) && n < |states|
    requires OwnDigest(hash, steps, token)
    ensures var c := states[n];
            && Reload(hash, c).Ok?
            && (Verdict(hash, Reload(hash, c).value, token, target, now, allowRetry) != Verdict(hash, c, token, target, now, allowRetry)
                <==> exists item :: UnderToken(c.tables.invites, token, item) && WouldRedeem(hash, c, token, item.1, target, now))
  {
    RunIsOrderly(hash, states, steps, n);
    RunIsTraced(hash, states, steps, n);
    forall i | 0 <= i < |steps| ensures Issued(steps[i]) {
      assert Moves(hash, states, steps, i);
    }
    OwnDigestMeans(hash, steps, n, states[n].tables, token);
    RestartChangesVerdictIff(hash, states[n], token, target, now, allowRetry);
  }
}
