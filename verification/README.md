# Verification of expra-connect

This project models the state machines and algorithms of expra-connect that hold real
state, and proves what they promise over every input, every run or every interleaving.
`dafny verify dfyconfig.toml` checks the whole project.

| files | what they model |
|---|---|
| `PyObjects`, `StateClone`, `SurfaceParams` | two walks over object graphs: the memoised clone of durable state and the explicit-stack check of section parameters |
| `ClusterModels`, `Roles`, `RoleInvariant`, `RoleEffects`, `RoleHistory`, `Failover` | roles, capability grants, leases and promotions, their invariants and whole runs |
| `Json`, `Sorting`, `Dicts`, `ClusterState`, `ClusterCodec` | the persisted cluster state and its codec |
| `ClusterInvites`, `InviteRestart`, `InviteRuns`, `ClusterFacade` | one-time invites, their consumption and their survival of restarts |
| `HeapQueue`, `Maps`, `ReplayProtection`, `Sessions`, `Idempotency`, `OnceOnly`, `ClusterFence` | once-only authenticated requests: replay cache, sessions, idempotency cache, their combination in the service, and the role fence |
| `TransportGenerations`, `TransportManager` | signed transport generations, their rotation, rollback and durable form |
| `Discovery`, `NetworkDiscovery` | the incrementally maintained view of discovered peers and the events a host replays |
| `Capabilities` | capability requests that are rechecked after their handler |
| `Saves`, `PairingBook`, `PairingManager`, `PairingTarget`, `PairingFlow` | the pairing transaction between two parties, with rollback |

Each stateful component comes as pure functions that specify its steps, a class whose
methods take those steps on fields, and lemmas about the steps and about whole runs.
The failover coordinator, the cluster and the capability share keep the run they have taken
as ghost state, and network discovery the notices it has given; the other classes are tied
by the contracts of their methods to the functions that the lemmas about runs are about.
Clock readings, random ids, the outcome of saves and what the other side answers are
parameters.

Where the code and its documentation differ, or a natural claim is false, the code is
followed: the docstring of `ReplayCache` says that entries are evicted when it grows past
its limit, while the code refuses the new one; `ReplayProtection.AcceptedTwice` and
`OnceOnly.ExecutedTwice` show that the bounds of the once-only claims are exact. Six more
claims hold only under a condition, which is proved to be exact. The rollback of pairing
does not cover a save or confirmation that raises past its handlers after the grant
(`PairingFlow.RaisingSaveReplacesTrust`; the exact condition is in the contract of
`PairingFlow.NetworkPairing.Establish`). A rollback of pairing puts back trust that was
revoked meanwhile (`PairingFlow.RevokedTrustReturns` and
`PairingFlow.RevocationSurvivesIff`). A restart changes what the digest of an open invite
unlocks (`InviteRestart.IssuedIsRedeemed`, `InviteRestart.RestartChangesVerdictIff` and
`ClusterInvites.ConsumeKeepsTablesIff`). The fence protects one cluster id at a time
(`ClusterFence.ReturningForgets` and `ClusterFence.ReadmittedIff`). A repair request is
refused by a target that still holds a grant (`PairingFlow.HeldGrantRefusesRootless` and
`PairingTarget.ApprovedIff`). A joiner of the idempotency cache is left waiting when the
operation returns something that is no mapping (`Idempotency.JoinerIsLeftIff`).

## Model

| member | source | states |
|---|---|---|
| StateClone.CloneState | src/expra_connect/persistence.py:76-81 | For every finite object graph, with shared and cyclic containers: succeeds with a faithful clone (every walk ends at the same leaf, keys and order; two walks meet in the clone exactly when they meet in the source), all containers fresh, source untouched; falls back exactly when some walk reaches a value that is not an exact JSON kind or a key that is not an exact string. |
| StateClone.CloneJsonTree | src/expra_connect/persistence.py:49-73 | One recursive call keeps the memo a one-to-one map onto fresh containers, finishes every container it enters, and fails only on a rejected value; terminates although the graph may be cyclic. |
| StateClone.CloneContainer | src/expra_connect/persistence.py:54-72 | The container is put in the memo before its entries are cloned, so that a cycle finds it. |
| StateClone.FillEntries | src/expra_connect/persistence.py:60-72 | The loop keeps the clone a prefix copy of the source under the memo. |
| StateClone.AppendEntry | src/expra_connect/persistence.py:60-71 | Appending extends the prefix copy by exactly one entry, in order. |
| StateClone.PathsMirror | src/expra_connect/persistence.py:49-73 | Walking the clone along any path mirrors walking the source. |
| StateClone.MirrorsMeanFaithful | src/expra_connect/persistence.py:49-73 | A finished memo means a faithful clone, aliasing and cycles included, with nothing rejected on any path. |
| SurfaceParams.JsonSafe | src/expra_connect/surfaces/protocol.py:60-91 | The explicit-stack check answers exactly the recursive definition (depth at most 32, finite leaf, or string-keyed container of safe children), terminates on every graph, and its removal from the active set never fails. |
| SurfaceParams.EnterContainer | src/expra_connect/surfaces/protocol.py:82-90 | Pushing the exit marker and the children keeps the stack layout, the meaning of the pending stack and the termination measure; a non-string key means unsafe. |
| SurfaceParams.SafeIffEveryPathFine | src/expra_connect/surfaces/protocol.py:60-91 | The recursive definition holds iff no walk through the graph goes deeper than the bound or meets a bad value. |
| SurfaceParams.CycleIsUnsafe | src/expra_connect/surfaces/protocol.py:78-80 | A container that contains itself is unsafe at any depth, so the early rejection of cycles never changes the answer. |
| SurfaceParams.LeaveContainer | src/expra_connect/surfaces/protocol.py:65-67 | The active set is exactly the containers on the current path, before and after an exit marker. |
| SurfaceParams.OpenContainer | src/expra_connect/surfaces/protocol.py:78-82 | Entering a container that is not active extends the path by it. |
| Roles.PruneCapabilityGrants | src/expra_connect/cluster/roles.py:377-401 | The loop keeps, in order, exactly the grants from an active Subcoordinator to an active Worker. |
| RoleInvariant.StepKeepsGood | src/expra_connect/cluster/roles.py:60-89 | Every transition keeps the role-state invariant, and the constructor's consistency checks never fire from a good state. |
| RoleInvariant.AssignKeepsGood | src/expra_connect/cluster/roles.py:180-223 | assign keeps the invariant. |
| RoleInvariant.RevokeKeepsGood | src/expra_connect/cluster/roles.py:241-258 | revoke keeps the invariant. |
| RoleInvariant.ClearRevocationKeepsGood | src/expra_connect/cluster/roles.py:260-269 | clear_revocation, which does not prune grants, keeps the invariant nevertheless. |
| RoleInvariant.GrantKeepsGood | src/expra_connect/cluster/roles.py:289-328 | grant_capabilities keeps the invariant. |
| RoleInvariant.PromotionKeepsGood | src/expra_connect/cluster/roles.py:465-516 | A promotion leaves one Coordinator, the promoted node, no Subcoordinator and no grants. |
| RoleInvariant.RejoinKeepsGood | src/expra_connect/cluster/roles.py:519-539 | rejoin_as_worker, which does not prune grants, keeps the invariant nevertheless. |
| RoleEffects.AssignGivesRoles | src/expra_connect/cluster/roles.py:180-223 | The target ends with exactly the requested roles, keeps its pause and, with the Worker role, its job; a grant survives iff it is still backed; nobody assigns themselves. |
| RoleEffects.PauseShutsOut | src/expra_connect/cluster/roles.py:225-232 | A paused node may do nothing and nothing may be done to it. |
| RoleEffects.ResumeUndoesPause | src/expra_connect/cluster/roles.py:234-239 | pause then resume is the identity on the whole state. |
| RoleEffects.RevokeShutsOut | src/expra_connect/cluster/roles.py:241-258 | A revoked node is shut out and exactly its grants, in both directions, are gone. |
| RoleEffects.ClearRevocationForgets | src/expra_connect/cluster/roles.py:260-269 | Exactly a revoked node is forgotten. |
| RoleEffects.JobEffect | src/expra_connect/cluster/roles.py:271-287 | A job changes only on an active Worker. |
| RoleEffects.GrantAllows | src/expra_connect/cluster/roles.py:289-374 | After a grant the pair is allowed exactly its permissions until exactly its expiry. |
| RoleEffects.RevokeCapabilitiesForbids | src/expra_connect/cluster/roles.py:330-341 | After a capability revocation a non-Coordinator is allowed nothing on the target. |
| RoleEffects.PromotionMovesControl | src/expra_connect/cluster/roles.py:465-516 | After a promotion exactly the new epoch holder controls the cluster. |
| RoleEffects.PromotionDueIff | src/expra_connect/cluster/roles.py:444-516 | A promotion happens exactly when the lease has run out, the epoch is not marked as promoted from, and an unpaused active Subcoordinator stands by. |
| RoleEffects.HeartbeatExtends | src/expra_connect/cluster/roles.py:418-441 | An accepted heartbeat is from the holder with its token, comes before expiry and rules out any promotion for a full timeout. |
| RoleEffects.RejoinDropsControl | src/expra_connect/cluster/roles.py:519-539 | A rejoining node has no control and knew the current epoch. |
| RoleHistory.NoGrantResurrects | src/expra_connect/cluster/roles.py:343-374 | In any run with restarts from a grant-free state, what a non-Coordinator is allowed on another node was granted to that exact pair, has not expired, and the pair has been Subcoordinator and Worker in every state since. |
| RoleHistory.GrantOrigin | src/expra_connect/cluster/roles.py:289-328 | A present grant was issued at some step and has been present ever since, across restarts. |
| RoleHistory.ReloadedIsRead | src/expra_connect/cluster/state.py:17-158 | What a restart does to a role state in a run is what the codec makes of it. |
| RoleHistory.ReloadKeepsGood | src/expra_connect/cluster/state.py:17-158 | Writing and reading a role state keeps the invariant. |
| RoleHistory.ReloadKeepsFenced | src/expra_connect/cluster/state.py:17-158 | Writing and reading a role state keeps the markers below the epoch and the epoch holder off the Subcoordinator role. |
| RoleHistory.RevokedUntilCleared | src/expra_connect/cluster/roles.py:260-269 | A revoked node stays revoked through every run, restarts included, until its revocation is cleared. |
| RoleHistory.StepKeepsFenced | src/expra_connect/cluster/roles.py:418-516 | Every transition keeps promotion markers below the epoch and the epoch holder off the Subcoordinator role, and moves the epoch only by one, to another node, after the lease. |
| RoleHistory.TenuresNeverOverlap | src/expra_connect/cluster/failover.py:32-76 | A promotion opens the next epoch, for another node, no earlier than the last expiry of every lease held before, also across restarts; no two promotions leave the same epoch. |
| RoleHistory.LeasesAdvance | src/expra_connect/cluster/failover.py:32-76 | Epoch numbers and lease ends never go back in a run with restarts. |
| RoleHistory.DisplacedHolderIsRefused | src/expra_connect/cluster/failover.py:32-51 | A heartbeat of a displaced holder succeeds only if that node was promoted again in between, also across restarts. |
| Failover.FailoverCoordinator.constructor | src/expra_connect/cluster/failover.py:21-25 | Starts the run at a good, fenced state. |
| Failover.FailoverCoordinator.Commit | src/expra_connect/cluster/failover.py:27-30 | Persist before publish: the object moves along the run of the state machine, and only to what was persisted. |
| Failover.FailoverCoordinator.Heartbeat | src/expra_connect/cluster/failover.py:32-51 | A heartbeat is one step of the run; it succeeds only for the epoch holder. |
| Failover.FailoverCoordinator.PromoteIfDue | src/expra_connect/cluster/failover.py:53-68 | A due promotion is one step of the run, raises the epoch by one for another node and leaves no grants. |
| Failover.FailoverCoordinator.RejoinAsWorker | src/expra_connect/cluster/failover.py:70-76 | A rejoin is one step of the run and leaves the node without control. |
| Failover.FailoverCoordinator.AssignRole | src/expra_connect/cluster/failover.py:78-92 | An assignment is one step of the run, made by a node in control. |
| Failover.FailoverCoordinator.RevokeMember | src/expra_connect/cluster/failover.py:94-97 | A revocation is one step of the run and shuts the target out. |
| Failover.FailoverCoordinator.Reload | src/expra_connect/runtime/core.py:443-455 | A restart from the persisted roles is one step of the run. |
| HeapQueue.Push | src/expra_connect/remote/wire_protocol.py:470-471 | heappush: still a heap, with exactly one entry more. |
| HeapQueue.Pop | src/expra_connect/remote/wire_protocol.py:476-478 | heappop: the least entry comes out, the rest is a heap with exactly the other entries. |
| HeapQueue.Heapify | src/expra_connect/remote/session.py:150-150 | heapify: a heap with exactly the given entries. |
| HeapQueue.TopIsLeast | src/expra_connect/remote/wire_protocol.py:475-479 | The first entry is due no later than any other. |
| ReplayProtection.PruneExpired | src/expra_connect/remote/wire_protocol.py:474-483 | The prune loop keeps dict and heap paired, so its deletion never fails, and removes exactly the entries older than the ttl. |
| ReplayProtection.ReplayCache.CheckAndRecord | src/expra_connect/remote/wire_protocol.py:456-472 | True iff the key is not live and the cache is below its limit; a full cache refuses and evicts nothing. |
| ReplayProtection.ReplayCache.CheckAndRecordRequestId | src/expra_connect/remote/wire_protocol.py:485-499 | The same for request ids, in the second dict. |
| ReplayProtection.ReplayCache.VerifyRequest | src/expra_connect/remote/wire_protocol.py:576-598 | Freshness first, without touching the cache; then recorded or refused as a replay. |
| ReplayProtection.AcceptedAtMostOnce | src/expra_connect/remote/wire_protocol.py:576-586 | With one cache an envelope is accepted at most once when 2 * freshness (plus how far the clock may step back) is within the ttl. |
| ReplayProtection.AcceptedTwice | src/expra_connect/remote/wire_protocol.py:576-586 | The bound is exact: beyond it some run accepts the same envelope twice. |
| Idempotency.IdempotencyCache.Enter | src/expra_connect/remote/wire_protocol.py:727-742 | The first locked block prunes and then makes the caller owner, joiner, or turns it away, as specified. |
| Idempotency.IdempotencyCache.Prune | src/expra_connect/remote/wire_protocol.py:770-773 | Drops exactly the completed, expired entries. |
| Idempotency.IdempotencyCache.Succeed | src/expra_connect/remote/wire_protocol.py:758-768 | The owner stores the result, or the error of a failed save, sets the event and reports the same. |
| Idempotency.IdempotencyCache.Fail | src/expra_connect/remote/wire_protocol.py:752-757 | A raised operation completes the entry with its error. |
| Idempotency.IdempotencyCache.Join | src/expra_connect/remote/wire_protocol.py:743-749 | A joiner reports what the entry holds. |
| Idempotency.StepKeepsOk | src/expra_connect/remote/wire_protocol.py:721-773 | Every interleaved step keeps: live entries within the limit, an incomplete entry in the dict and owned by an executing thread, finished threads with their entry's outcome. |
| Idempotency.OneExecutionInFlight | src/expra_connect/remote/wire_protocol.py:721-744 | At most one execution of a key is in flight. |
| Idempotency.JoinerIsLeftIff | src/expra_connect/remote/wire_protocol.py:743-768 | Exactly when a waiting joiner has nobody left to wake it: its entry's operation returned something that is no mapping. Otherwise it can wake or its entry is being executed. |
| Idempotency.AbandonedStaysOpen | src/expra_connect/remote/wire_protocol.py:758-768 | An entry whose operation returned no mapping stays incomplete and in the dict in every run, so its joiners wait for good and its key is never executed again. |
| Idempotency.SameOutcome | src/expra_connect/remote/wire_protocol.py:745-768 | Owner and joiners of an entry finish with the same outcome. |
| Idempotency.SecondExecutionWaits | src/expra_connect/remote/wire_protocol.py:721-773 | A second execution of a key starts only after the earlier entry completed and a clock reading reached its expiry, a full ttl after it began. |
| Idempotency.JoinerEndsLikeOwner | src/expra_connect/remote/wire_protocol.py:721-768 | A joiner has the owner's key and fingerprint and ends with the owner's outcome, also for failed operations and failed saves. |
| OnceOnly.ExecutedAtMostOnce | src/expra_connect/remote/service.py:343-407 | However often a signed non-read envelope is delivered, interleaved at every clock reading and every lock, and although a replayed one is verified again against an empty cache, its operation starts at most once when 2 * freshness + (verify-to-run delay) < ttl, under a nondecreasing clock. |
| OnceOnly.ExecutedTwice | src/expra_connect/remote/service.py:343-407 | The bound is exact: otherwise some prompt run starts one envelope's operation twice. |
| OnceOnly.StepKeepsInv | src/expra_connect/remote/service.py:343-407 | Every interleaved step keeps a guard entry in the idempotency cache until the envelope can no longer be fresh. |
| ClusterFence.RemoteService.UpdateClusterFence | src/expra_connect/remote/service.py:650-673 | Installs a newer claim, refuses an older epoch or a second token of the epoch, and then admits the claim. |
| ClusterFence.FenceAdvances | src/expra_connect/remote/service.py:650-673 | Within one cluster id the epoch never goes back and one epoch has one token. |
| ClusterFence.SupersededIsRefused | src/expra_connect/remote/service.py:635-673 | Within one cluster id a claim that was admitted and no longer is has been superseded, stays so and is never admitted again. |
| ClusterFence.ReadmittedIff | src/expra_connect/remote/service.py:650-673 | A claim that is refused is let in by presenting it as an update exactly when it names another cluster than the fence or a later epoch. |
| ClusterFence.ReadmittedThroughAnother | src/expra_connect/remote/service.py:635-673 | In any run of updates, a superseded claim is admitted again only if some update in between named another cluster. |
| ClusterFence.VisitReadmits | src/expra_connect/remote/service.py:650-673 | And one such update is enough, and nothing else is, for the claim's next update to be admitted. |
| ClusterFence.ReturningForgets | src/expra_connect/remote/service.py:650-673 | The protection ends at the cluster id: after a visit to another cluster the superseded claim is accepted again (a concrete run; ReadmittedIff is the exact condition). |
| Sessions.LogicalSessionRegistry.AuthenticateRequest | src/expra_connect/remote/session.py:81-117 | The registry with its lazily cleaned heap does exactly what a heap-free map that drops expired sessions does. |
| Sessions.LogicalSessionRegistry.AssertCurrentGeneration | src/expra_connect/remote/session.py:119-130 | The same for assert_current. |
| Sessions.LogicalSessionRegistry.Create | src/expra_connect/remote/session.py:132-151 | The same for creation; live sessions stay within the limit and the heap within twice the limit. |
| Sessions.LogicalSessionRegistry.Compact | src/expra_connect/remote/session.py:145-150 | Compaction keeps a heap entry for every live session. |
| Sessions.LogicalSessionRegistry.Prune | src/expra_connect/remote/session.py:162-167 | Removes exactly the sessions with expires_at <= now, whatever stale entries the heap holds. |
| Sessions.LogicalSessionRegistry.AllocateId | src/expra_connect/remote/session.py:153-160 | The first offered id that is free, with the errors of the loop. |
| Sessions.RunKeepsRetiredOk | src/expra_connect/remote/session.py:96-117 | The active generation is never retired and the retired set stays within its limit, in every run. |
| Sessions.NoAba | src/expra_connect/remote/session.py:96-130 | If a session authenticated a generation and it is later asserted current, it was active at every step between (given fresh ids). |
| Sessions.AuthenticationNeeds | src/expra_connect/remote/session.py:81-151 | Who gets through: the owner of an unexpired session with its active generation, or a new one when resuming, or a caller without a session below the limit; no other session changes but expired ones. |
| Sessions.RetiredNeverReturns | src/expra_connect/remote/session.py:96-117 | A retired generation never authenticates in its session again. |
| NetworkDiscoveryComponent.NetworkDiscovery.HandleTransportEvent | src/expra_connect/discovery/network.py:423-465 | One callback keeps: peers equal the from-scratch merge of the service candidates (less the lapsed nodes), and a host that replays the notices knows the same peers. |
| NetworkDiscoveryComponent.NetworkDiscovery.ExpireStale | src/expra_connect/discovery/network.py:512-539 | Drops exactly the stale peers with exactly one loss notice each; the replaying host still knows the same peers. |
| NetworkDiscoveryComponent.NetworkDiscovery.RebuildPeer | src/expra_connect/discovery/network.py:467-505 | The imperative rebuild is the specified one: dropped without observations, else merged, with a notice iff it is new or differs in more than last_seen. |
| NetworkDiscoveryComponent.NetworkDiscovery.Observe | src/expra_connect/discovery/network.py:459-465 | The imperative observation, a service moving between nodes included, is the specified one. |
| NetworkDiscoveryComponent.NetworkDiscovery.Withdraw | src/expra_connect/discovery/network.py:443-450 | The imperative withdrawal is the specified one. |
| NetworkDiscoveryComponent.NetworkDiscovery.Stop | src/expra_connect/discovery/network.py:401-412 | Stopping forgets everything. |
| NetworkDiscoveryComponent.NetworkDiscovery.NothingLapsed | src/expra_connect/discovery/network.py:431-505 | While no TTL expiry is outstanding the peers are exactly the grouping and merge of the candidates from scratch. |
| Discovery.CurrentIsFromScratch | src/expra_connect/discovery/network.py:467-505 | The invariant means: peers == from-scratch grouping and merge, less the lapsed nodes. |
| Discovery.ObserveKeepsCurrent | src/expra_connect/discovery/network.py:459-465 | An observation keeps the peers current and brings the nodes it rebuilds back from a lapse. |
| Discovery.WithdrawKeepsCurrent | src/expra_connect/discovery/network.py:443-450 | A withdrawal keeps the peers current. |
| Discovery.ExpiryKeepsCurrent | src/expra_connect/discovery/network.py:507-539 | An expiry makes exactly one more node lapsed. |
| Discovery.ObserveMirrors | src/expra_connect/discovery/network.py:459-505 | The notices of an observation take a mirroring host to a mirroring host. |
| Discovery.WithdrawMirrors | src/expra_connect/discovery/network.py:443-450 | The notices of a withdrawal take a mirroring host to a mirroring host. |
| Discovery.Latest | src/expra_connect/discovery/network.py:476-476 | The chosen observation is the first of the latest. |
| Discovery.Distinct | src/expra_connect/discovery/network.py:477-483 | The merged addresses are all of them, each once. |
| Discovery.DistinctPrefix | src/expra_connect/discovery/network.py:477-490 | Addresses and endpoint keys keep the order of their first occurrence. |
| Discovery.ByKeyMeans | src/expra_connect/discovery/network.py:484-490 | The endpoints by key: one for each key, the last that was observed, with its source, priority and times. |
| Discovery.ByKeyOrder | src/expra_connect/discovery/network.py:484-490 | They stand in the order in which their keys first occur. |
| Discovery.MergedSpeaksForAll | src/expra_connect/discovery/network.py:476-495 | The merged record has the identity, port and time of a latest observation and exactly the addresses of all of them, each once. |
| Discovery.MergedEndpoints | src/expra_connect/discovery/network.py:484-495 | It has exactly the endpoint keys of all observations, in order of first occurrence, each with the endpoint that was observed last. |
| TransportManager.TransportGenerationManager.constructor | src/expra_connect/identity/transport_generation.py:34-52 | Starts empty, with nothing stored. |
| TransportManager.TransportGenerationManager.Commit | src/expra_connect/identity/transport_generation.py:175-197 | A saved commit is what a restart would load; a failed save leaves memory and disk as they were. |
| TransportManager.TransportGenerationManager.Initialize | src/expra_connect/identity/transport_generation.py:68-75 | Follows its plan, persisted or undone, and keeps the invariant. |
| TransportManager.TransportGenerationManager.Prepare | src/expra_connect/identity/transport_generation.py:77-84 | Follows its plan, persisted or undone, and keeps the invariant. |
| TransportManager.TransportGenerationManager.Activate | src/expra_connect/identity/transport_generation.py:86-95 | Follows its plan, persisted or undone, and keeps the invariant. |
| TransportManager.TransportGenerationManager.Retire | src/expra_connect/identity/transport_generation.py:97-102 | Follows its plan, persisted or undone, and keeps the invariant. |
| TransportManager.TransportGenerationManager.Rollback | src/expra_connect/identity/transport_generation.py:104-107 | Follows its plan, persisted or undone, and keeps the invariant. |
| TransportManager.TransportGenerationManager.RollbackActive | src/expra_connect/identity/transport_generation.py:109-121 | Follows its plan, persisted or undone, and keeps the invariant. |
| TransportManager.TransportGenerationManager.LoadDocument | src/expra_connect/identity/transport_generation.py:217-258 | Loads exactly the acceptable documents, into a good state that is what is stored, ready for every operation; a rejected one changes nothing. |
| TransportManager.TransportGenerationManager.DecodeAll | src/expra_connect/identity/transport_generation.py:233-248 | The loop over the accepted generations decodes as specified. |
| TransportGenerations.PrepareKeepsGood | src/expra_connect/identity/transport_generation.py:77-84 | prepare keeps accepted < current < next, keys matching items, and valid proofs. |
| TransportGenerations.ActivateKeepsGood | src/expra_connect/identity/transport_generation.py:86-95 | activate keeps the invariant. |
| TransportGenerations.RetireKeepsGood | src/expra_connect/identity/transport_generation.py:97-102 | retire keeps the invariant. |
| TransportGenerations.RollbackActiveKeepsGood | src/expra_connect/identity/transport_generation.py:109-121 | rollback_active keeps the invariant. |
| TransportGenerations.HighestIsCurrent | src/expra_connect/identity/transport_generation.py:167-173 | Without a pending rotation the highest known generation is the current one. |
| TransportGenerations.Rotation | src/expra_connect/runtime/core.py:198-218 | prepare and activate(current + 1) go through exactly when nothing is pending and there is a fingerprint; the former generation is admitted until the end of the grace. |
| TransportGenerations.RotationUndone | src/expra_connect/identity/transport_generation.py:77-121 | prepare; activate; rollback_active is the identity. |
| TransportGenerations.PreparationUndone | src/expra_connect/identity/transport_generation.py:77-107 | prepare; rollback is the identity. |
| TransportGenerations.InitializedOnce | src/expra_connect/identity/transport_generation.py:68-75 | The first generation is number 1; repeating it changes nothing and another fingerprint is refused. |
| TransportGenerations.RetiredIsGone | src/expra_connect/identity/transport_generation.py:97-102 | Exactly that generation is dropped, refused exactly for the current one, and nothing is admitted that was not before. |
| TransportManager.TransportGenerationManager.Accepted | src/expra_connect/identity/transport_generation.py:123-130 | True exactly for the current fingerprint and retained ones before their expiry. |
| TransportGenerations.LoadToDict | src/expra_connect/identity/transport_generation.py:199-258 | The loader accepts every good state that was written and returns it exactly. |
| TransportGenerations.LoadIsStrict | src/expra_connect/identity/transport_generation.py:217-276 | Whatever the loader accepts, the version-1 form included, is a good state. |
| ClusterCodec.RoundTrip | src/expra_connect/cluster/operations.py:154-264 | from_dict(to_dict(s)) succeeds exactly when the ids are non-empty, the invite epochs non-negative and no used marker empty, and then yields s without tokens, active jobs and unbound assignments, old used markers hashed. |
| ClusterCodec.BoundRoundTrip | src/expra_connect/cluster/operations.py:154-264 | With bound assignments and digests as markers only tokens and active jobs are lost; everything else, assignments in order included, comes back. |
| ClusterCodec.SecondRoundTrip | src/expra_connect/cluster/operations.py:154-264 | A second round trip changes nothing. |
| ClusterCodec.DecodedIsStable | src/expra_connect/cluster/operations.py:179-264 | Whatever document is accepted, also of an older version, decodes to a state that round-trips unchanged. |
| ClusterCodec.BareEpoch | src/expra_connect/cluster/operations.py:186-194 | An old numeric epoch is read with its holder and token and a lease that ended at time zero. |
| ClusterCodec.SingleRole | src/expra_connect/cluster/state.py:84-86 | An old single role is read like the list of it. |
| ClusterCodec.AssignmentRoundTrip | src/expra_connect/cluster/state.py:17-35 | One assignment comes back without its active job; roles by name, sorted. |
| ClusterCodec.AssignmentsRoundTrip | src/expra_connect/cluster/state.py:17-106 | The bound assignments come back in order. |
| ClusterCodec.EpochRoundTrip | src/expra_connect/cluster/state.py:38-128 | The epoch and its lease come back. |
| ClusterCodec.GrantRoundTrip | src/expra_connect/cluster/state.py:48-155 | A grant comes back with its permissions and times. |
| ClusterCodec.GrantsRoundTrip | src/expra_connect/cluster/state.py:48-155 | The grants come back in order. |
| ClusterCodec.PromotionsRoundTrip | src/expra_connect/cluster/state.py:47-133 | The promotion markers come back. |
| ClusterCodec.InvitesRoundTrip | src/expra_connect/cluster/operations.py:206-242 | Invites come back without their tokens; a negative epoch rejects the document. |
| ClusterCodec.ListAssignments | src/expra_connect/cluster/state.py:17-35 | The loop that skips unbound assignments lists the specified items. |
| ClusterCodec.DecodeItems | src/expra_connect/cluster/operations.py:206-243 | The append loop decodes every item in order or rejects the list. |
| ClusterCodec.ParseInvites | src/expra_connect/cluster/operations.py:206-243 | parse_invites decodes as specified. |
| ClusterCodec.ReadRoleState | src/expra_connect/cluster/state.py:75-158 | role_state_from_dict decodes as specified. |
| ClusterCodec.ReadClusterState | src/expra_connect/cluster/operations.py:180-264 | from_dict decodes as specified. |
| Sorting.Sorted | src/expra_connect/cluster/state.py:23-23 | sorted: the elements of the set, each once, ascending. |
| ClusterInvites.OneInviteOneNode | src/expra_connect/cluster/operations.py:362-401 | Over any run of create, consume, failed save, restart and other changes in which no stored digest is presented, two successful consumptions of a token name the same node, and the later one changes nothing. |
| InviteRestart.InviteWorks | src/expra_connect/cluster/operations.py:333-401 | An invite created with a fresh token admits exactly the node it names, until exactly its expiry. |
| ClusterInvites.ExactlyOneAdmits | src/expra_connect/cluster/operations.py:362-401 | In such a run, behind every successful consumption is exactly one admitting step, also across restarts. |
| ClusterInvites.BurnedNeverSucceeds | src/expra_connect/cluster/operations.py:396-400 | In such a run, an invite that was spent without an admission never succeeds again. |
| ClusterInvites.RunKeepsInvites | src/expra_connect/cluster/operations.py:333-401 | In every run, whatever is presented, invites are filed under their token or digest, and what is marked used are digests. |
| ClusterInvites.ConsumeKeepsTablesIff | src/expra_connect/cluster/operations.py:374-401 | Exactly when a consumption leaves every admission filed under the digest of its invite and marked used: unless it redeems an invite by the digest under which a restart has filed it (and that digest is not its own hash). |
| ClusterInvites.RunKeepsTables | src/expra_connect/cluster/operations.py:362-401 | In every run in which no stored digest is presented, every admission is filed under the digest of its invite, which is marked used. |
| ClusterInvites.SuccessIsRecorded | src/expra_connect/cluster/operations.py:362-401 | A success, whatever was presented, leaves an admission of the named node and the digest used; a retry changes nothing and needs allow_retry. |
| ClusterInvites.ReloadIsRestarted | src/expra_connect/cluster/operations.py:434-482 | save and load through the document equal the direct restart. |
| ClusterInvites.RestartedTables | src/expra_connect/cluster/operations.py:347-348 | A restart refiles invites under their digests and keeps admissions and used markers. |
| InviteRestart.AdmittedIsWorker | src/expra_connect/cluster/operations.py:350-360 | Admitting makes the node an active Worker and leaves every other assignment, the epoch and the cluster id alone. |
| InviteRestart.RestartWorks | src/expra_connect/cluster/operations.py:434-497 | A well-built cluster can always be saved and loaded; only tokens and active jobs are lost. |
| InviteRestart.FoundAfterRestart | src/expra_connect/cluster/operations.py:375-375 | After a restart a presented string unlocks the same invite, unless it is the digest of an invite that was still filed under its token. |
| InviteRestart.RestartChangesNoVerdict | src/expra_connect/cluster/operations.py:362-482 | A restart changes nothing about which consumptions succeed or whom they admit, whatever is presented but the digest of an invite that is still filed under its token. |
| InviteRestart.RestartChangesVerdictIff | src/expra_connect/cluster/operations.py:347-482 | Exactly when a restart changes the verdict on a presented string: it is the digest of an open invite still filed under its token, and redeeming that invite would go through. |
| InviteRestart.VerdictMeans | src/expra_connect/cluster/operations.py:374-401 | The verdict rests on the admission of the digest when there is one, else on the invite that is found, its expiry, target, cluster and epoch, and whether the role can be assigned. |
| InviteRestart.DigestIsRedeemed | src/expra_connect/cluster/operations.py:347-401 | The digest of such an invite is refused before the restart and redeemed after it, and the redemption breaks the filing of the admissions. |
| InviteRestart.IssuedIsRedeemed | src/expra_connect/cluster/operations.py:333-401 | A concrete run: the first invite of a fresh cluster. |
| InviteRestart.RedeemedDigestMoves | src/expra_connect/cluster/operations.py:347-401 | The next restart files the admission of such a redemption under the digest of its invite, which is not marked used. |
| InviteRuns.RunIsTraced | src/expra_connect/cluster/operations.py:333-497 | In every run with fresh tokens, whatever is presented, every invite and admission stems from the one creation with its digest and names its node, and open invites have distinct digests. |
| InviteRuns.AdmittedAsNamed | src/expra_connect/cluster/operations.py:362-401 | Whatever string succeeds, the presenting node is the one that the yielded invite was created for. |
| InviteRuns.InviteAdmitsOnce | src/expra_connect/cluster/operations.py:362-401 | Whatever strings are presented, stored digests among them, and however often the cluster restarts, no invite admits twice. |
| InviteRuns.RunIsOrderly | src/expra_connect/cluster/operations.py:333-497 | Every cluster that a run of creations with fresh tokens, consumptions of tokens, failed saves, restarts and orderly role changes reaches is well built. |
| InviteRuns.ReachableRestart | src/expra_connect/cluster/operations.py:347-497 | So every such cluster can be restarted, and the restart changes a verdict exactly on the digest of an open invite still filed under its token whose redemption would go through. |
| ClusterFacade.Cluster.constructor | src/expra_connect/cluster/operations.py:59-76 | create_local: an active Coordinator whose role state is good and fenced. |
| ClusterFacade.Cluster.CreateInvite | src/expra_connect/cluster/operations.py:333-345 | Only an active Coordinator creates; one step of the run. |
| ClusterFacade.Cluster.ConsumeInvite | src/expra_connect/cluster/operations.py:362-401 | The imperative consumption, of any string, is the specified one and one step of the run. |
| ClusterFacade.Cluster.ServeConsume | src/expra_connect/remote/role_operations.py:498-516 | A success that is not saved is taken back (assignments, invites, admissions, used markers), one whose save raises stays, a failure is not rolled back; each is one step of the run. |
| ClusterFacade.Cluster.Redeem | src/expra_connect/cluster/operations.py:396-401 | Spending comes before the assignment: when that raises, the invite stays spent. |
| ClusterFacade.Cluster.AssignWorker | src/expra_connect/cluster/operations.py:350-360 | The assignment is the specified transition of the role state, or leaves the object alone. |
| ClusterFacade.Cluster.Restart | src/expra_connect/cluster/operations.py:434-497 | save and load are one step of the run. |
| ClusterFacade.Cluster.IndexByHash | src/expra_connect/cluster/operations.py:347-348 | Rekeying by hash, the last item of a hash winning. |
| Capabilities.ConfirmedIffInForce | src/expra_connect/sharing/capabilities.py:99-131 | The recheck of a request succeeds exactly when the grant was in force in every state since the check, however often it was revoked and granted meanwhile. |
| Capabilities.RunKeepsGood | src/expra_connect/sharing/capabilities.py:54-97 | Generations exist exactly for allowed pairs, are unique, and only registered capabilities are allowed. |
| Capabilities.RegrantIsYounger | src/expra_connect/sharing/capabilities.py:54-65 | A grant given after a lapse has a younger generation. |
| Capabilities.CapabilityShare.RegisterHandler | src/expra_connect/sharing/capabilities.py:45-52 | A handler is never replaced. |
| Capabilities.CapabilityShare.AllowPeer | src/expra_connect/sharing/capabilities.py:54-65 | One step of the run; refused for an unknown capability, else allowed. |
| Capabilities.CapabilityShare.RevokeCapability | src/expra_connect/sharing/capabilities.py:67-79 | One step of the run, after which the pair is not allowed. |
| Capabilities.CapabilityShare.RevokeWholePeer | src/expra_connect/sharing/capabilities.py:81-90 | One step of the run, after which the peer is allowed nothing; the loop drops exactly its generations. |
| Capabilities.CapabilityShare.ClearAll | src/expra_connect/sharing/capabilities.py:92-97 | One step of the run, after which nothing is allowed. |
| Capabilities.CapabilityShare.BeginRequest | src/expra_connect/sharing/capabilities.py:105-115 | A ticket is given exactly to an allowed pair. |
| Capabilities.CapabilityShare.EndRequest | src/expra_connect/sharing/capabilities.py:122-131 | The result is returned exactly when the grant has been in force since the ticket. |
| PairingFlow.NetworkPairing.Establish | src/expra_connect/pairing/flow.py:94-317 | Never replaces trust when pairing, and replaces it when repairing only where repair is required. An exception leaves the peer's trusted record and broken mark as they were exactly unless the grant was accepted and then the save (line 285) or the confirmation (line 298) raised past every handler; then the book is exactly the one with the grant. Other peers and the grants never change; a return without an exchange changes nothing; a return with one trusts exactly what was requested, received and confirmed. |
| PairingFlow.GrantReplacesTrust | src/expra_connect/pairing/flow.py:116-284 | Accepting the grant of an attempt that was let through always changes the trust in the peer, so an exception past every handler after it always leaves a change behind. |
| PairingFlow.AllowedToGrant | src/expra_connect/pairing/flow.py:116-156 | An attempt is let through only for an untrusted peer when pairing, and when repairing only for trust that is marked broken or bound to another fingerprint. |
| PairingFlow.RaisingSaveReplacesTrust | src/expra_connect/pairing/flow.py:284-296 | The rollback does not cover every exception: a concrete first pairing whose save raises leaves the new trust behind. |
| PairingFlow.NetworkPairing.Transact | src/expra_connect/pairing/flow.py:186-317 | The same from the begun transaction on; only an uncaught exception of a route, a response without its keys or a refused grant leaves it pending. |
| PairingFlow.NetworkPairing.Ask | src/expra_connect/pairing/flow.py:190-218 | The first route that does not fail decides. |
| PairingFlow.NetworkPairing.Undo | src/expra_connect/pairing/flow.py:330-339 | Abort and restore give back the trust of the entry and drop the transaction. |
| PairingFlow.RollbackRestores | src/expra_connect/pairing/flow.py:330-339 | Restoring the trust in the peer is exact because only trusted peers are marked broken; whatever else happened to that trust meanwhile is lost, and nothing else changes. |
| PairingFlow.RevocationSurvivesIff | src/expra_connect/pairing/flow.py:190-339 | When the peer is revoked by another thread while the routes are asked, its outbound trust stays revoked exactly when the attempt is a first pairing or is not rolled back; else the revoked trust is put back as it was. The inbound grant stays revoked. |
| PairingFlow.RevokedIsNotGranted | src/expra_connect/pairing/manager.py:301-358 | The revocation takes the transaction along, so the grant that arrives after it is refused. |
| PairingFlow.RevokedTrustReturns | src/expra_connect/pairing/flow.py:190-339 | A concrete input: a repair of broken trust that no route answers puts back the trust that was revoked meanwhile. |
| PairingFlow.BothSidesAgree | src/expra_connect/pairing/flow.py:94-317 | When an establishment returns, an honest target, whatever else it is asked, has confirmed exactly that transaction exactly once and grants the same secret and permissions. |
| PairingFlow.HeldGrantRefusesRootless | src/expra_connect/pairing/flow.py:201-214 | A target that still holds a grant refuses the request of this flow, which carries no root material: a repair cannot succeed against it (PairingTarget.ApprovedIff is the exact condition). |
| PairingTarget.ConfirmedOnce | src/expra_connect/runtime/core.py:731-768 | No transaction is confirmed twice in any run of the target, whatever is saved, not saved or reloaded in between. |
| PairingTarget.CancelledIsNeverConfirmed | src/expra_connect/runtime/core.py:731-768 | A transaction whose cancel was answered with yes is never confirmed afterwards, also across restarts. |
| PairingTarget.ConfirmTakes | src/expra_connect/runtime/core.py:731-768 | A confirmation needs its transaction on file, takes it off in memory and on disk, and grants its binding in both. |
| PairingTarget.ReplyMatchesRequest | src/expra_connect/pairing/target.py:29-95 | An approving reply is bound to the caller and secret of the request, also when it reopens an earlier attempt. |
| PairingTarget.RetryReopens | src/expra_connect/pairing/target.py:48-52 | Asking again with the same secret while the transaction is active yields the same transaction and changes nothing. |
| PairingTarget.ApprovedIff | src/expra_connect/pairing/target.py:29-96 | Exactly when a request is approved: no other request in progress, another caller, a repair by the proven root where a grant is held, and the same secret as the active transaction or, without one, the host's consent and a completed save. A request never changes a grant. |
| PairingTarget.FaultsOnlyInSave | src/expra_connect/pairing/target.py:29-96 | The lookup of the permissions of a reopened transaction never fails, even with transactions of the target's own pairing on file; only a raising save makes the request raise. |
| PairingTarget.CancelTakes | src/expra_connect/runtime/core.py:731-752 | A recognized cancel takes the transaction off and grants nothing; it is off for good exactly when the state without it is written or it was never on disk, else a restart brings it back. An unrecognized one changes nothing. |
| PairingTarget.RunKeepsSound | src/expra_connect/pairing/target.py:29-96 | In every run, the target's own outbound pairing, saves and restarts included, transactions are filed in memory and on disk under their own, once issued, ids, and inbound ones have their permissions on file. |
| PairingBook.RevokesKeepGood | src/expra_connect/pairing/manager.py:352-377 | The revocations keep: broken peers are trusted peers, transactions under their ids. |
| PairingBook.RestoreKeepsGood | src/expra_connect/pairing/manager.py:525-540 | restore_trusted keeps the invariant. |
| PairingBook.RevokedDirections | src/expra_connect/pairing/manager.py:352-428 | Each revocation removes its direction only; revoking the peer leaves it unpaired. |
| PairingBook.AuthMarks | src/expra_connect/pairing/manager.py:490-497 | A failed authentication calls for repair exactly of outbound trust; success takes it back. |
| PairingBook.ClassifyNeedsProof | src/expra_connect/pairing/manager.py:430-488 | Fresh material passes exactly when it names the stored root and keeps the fingerprint or proves the root; a new fingerprint is healthy only with a younger generation. |
| PairingBook.FindFor | src/expra_connect/pairing/manager.py:393-407 | The result is an active transaction of the peer and direction; None means there is none. |
| PairingBook.FindExact | src/expra_connect/pairing/manager.py:379-391 | The result is an active transaction of the peer with that secret. |
| PairingManagers.PairingManager.Begin | src/expra_connect/pairing/manager.py:197-241 | The same secret replays its transaction, another active one is a conflict, else a new one. |
| PairingManagers.PairingManager.Approve | src/expra_connect/pairing/manager.py:243-258 | An active transaction becomes a grant bound to it; read-only permissions. |
| PairingManagers.PairingManager.AcceptGrant | src/expra_connect/pairing/manager.py:301-338 | An active, matching transaction becomes trust, unbroken, and leaves pending; else nothing changes. |
| PairingManagers.PairingManager.Abort | src/expra_connect/pairing/manager.py:340-341 | Drops the transaction. |
| PairingManagers.PairingManager.Revoke | src/expra_connect/pairing/manager.py:352-358 | Removes both directions of the peer. |
| PairingManagers.PairingManager.RevokeTrusted | src/expra_connect/pairing/manager.py:360-368 | Removes the outbound direction only. |
| PairingManagers.PairingManager.RevokeGrant | src/expra_connect/pairing/manager.py:370-377 | Removes the inbound direction only. |
| PairingManagers.PairingManager.RestoreTrusted | src/expra_connect/pairing/manager.py:525-540 | Puts back the former record and mark, or removes the outbound direction. |
| PairingManagers.PairingManager.RestoreSnapshot | src/expra_connect/pairing/manager.py:551-556 | Puts back all four dicts. |

## Left out

- Times are finite reals: floating-point rounding, NaN and integers too large for a float are not modelled (a document can hold a non-finite number, and is then rejected).
- Strings are sequences of characters: no encoding errors, and `hmac.compare_digest` is equality.
- Signatures, hashes and random ids are functions or parameters: what was signed verifies, SHA-256 yields 64 hexadecimal digits, fresh tokens and ids are fresh. No claim rests on a global absence of collisions.
- Sockets, TLS, Zeroconf, files, YAML and JSON text: persistence is a step that succeeds or fails and leaves the old document when it fails; documents are a JSON-like datatype.
- Threads: every lock-protected block is one atomic step. Order of callbacks outside the discovery lock, and backend callbacks during its start, are not modelled.
- Dict order where it is not observable: the peers of discovery, the keys that a prune loop visits and the trusted and grant dicts are maps; heap entries with equal times come out in any order.
- The fallback of the state clone to `copy.deepcopy` is the outcome None.
- StateClone.CloneState: containers are objects with a kind, keys and items; the RecursionError that the recursion (persistence.py, lines 60 and 71) raises on a graph nested deeper than the interpreter's limit is neither of the modelled outcomes, and hash collisions and mutation of the source by other threads during the walk are not modelled.
- OnceOnly.ExecutedAtMostOnce: the session, fence and grant rechecks of `handle`, and the rechecks after `run`, are refusal steps that may happen at any point; signature and field checks of `verify_request` are left out, the envelope being correctly signed.
- ReplayProtection.AcceptedAtMostOnce: states a tolerance for a clock that steps back; with none it is the claim for a nondecreasing clock.
- Idempotency.IdempotencyCache.Enter: an entry is an index into all entries ever made, so that joiners keep their reference; `_load_state` and the saved form of the cache are left out, a failing save is an input.
- Discovery.ObserveKeepsCurrent: `_normalize` is an input (malformed, ignored or a candidate); the many copied fields of a candidate are one list, and an address carries the source that is inferred from its text, and the validation, priority and times of an endpoint are one list.
- NetworkDiscoveryComponent.NetworkDiscovery.ExpireStale: after an expiry the peers differ from the from-scratch merge until the node is observed again, because the observations stay.
- The role change record that some transitions also return, and the index caches of the role state, which only memoise the lookups.
- Agreement between FailoverCoordinator and Cluster: remote role operations change the cluster only and never refresh the failover state, so the lease and promotion claims are about FailoverCoordinator runs, in which a restart reads what the coordinator persisted last.
- Global monotonicity of transport generation numbers: rollback_active lowers the current one and a later prepare reuses the number (see TransportGenerations.RotationUndone).
- TransportManager.TransportGenerationManager.LoadDocument: the file is read once, at construction; `accept_remote` is left out.
- ClusterCodec.RoundTrip: all exceptions of the decoder are one error.
- ClusterInvites.OneInviteOneNode: excludes presenting a stored digest, for which InviteRuns.AdmittedAsNamed and InviteRuns.InviteAdmitsOnce hold instead; a restart loads the latest state, not an older saved copy.
- InviteRestart.RestartChangesNoVerdict: for clusters whose invites have distinct digests and a string whose hash is the digest of no other invite; InviteRuns.ReachableRestart shows the former of every cluster that a run with fresh tokens and without presented digests reaches.
- `join` on the joining side, `ClusterState.consume_invite` of the immutable aggregate, invite blobs, online marks and `authorize`.
- Capability and node id validation, and other type-shape checks: single branches without depth. The model accepts every string as a capability id.
- PairingFlow.NetworkPairing.Establish: runs alone on the initiator's manager, but for a revocation by another thread while the routes are asked (PairingFlow.RevocationSurvivesIff); the routes, the answer to the confirmation, cancellation, saves and the clock are inputs. One clock reading stands for those from the classification to the beginning of the transaction. Kinds of exceptions raised while aborting are not told apart. Exceptions that the interpreter injects at arbitrary points (KeyboardInterrupt, MemoryError), rather than raised by the save, a route or the confirmation, are not modelled.
- Success of a pairing repair: see PairingFlow.HeldGrantRefusesRootless; the request carries no root material, so only its rollback is claimed.
- PairingTarget.ConfirmedOnce: transaction ids are a counter instead of random ids; the host's approval, which is assumed to answer, and the outcome of saves are inputs. A "no" to a control and an exception out of it are not told apart.
- `receive_request`, `confirm` and `prune_expired` of the pairing manager, surface grants, node registry, retry backoff, observability: they would only add easy members.
