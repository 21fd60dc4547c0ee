/** pairing/flow.py: establishing outbound trust over lossy routes, with rollback. */
module PairingFlow {
  import opened Wrappers
  import opened Dicts
  import opened ClusterModels
  import B = PairingBook
  import T = PairingTarget
  import Saves
  import opened PairingManagers

  /** The discovered peer that is to be paired with. */
  datatype Candidate = Candidate(compatible: bool, port: Option<int>, addresses: seq<string>, material: B.Material)

  datatype Error =
    | Cancelled | NotConnectable | NoFingerprint | NotReadOnly
    | IdentityConflict | RepairRequired | RepairNotRequired | PairingConflict | Busy
    | RoutesFailed | PeerRejected | PermissionsMalformed | PermissionsOutside
    | Uncaught         // an exception of a route that the loop does not catch
    | ResponseMalformed // a missing key of the response
    | GrantRefused     // accept_grant raised
    | NotPersisted | ConfirmFailed | NotConfirmed
    | SaveInterrupted    // the save after the grant raised
    | ConfirmInterrupted // the confirmation was interrupted by more than an Exception

  /** The fields of a response; None where a key is missing or has no permissions in it. */
  datatype Response = Response(permissions: Option<set<string>>, binding: Option<T.Binding>)

  /** What an attempt over one route comes to. */
  datatype Route = Failed | Raised | Rejected | Answered(response: Response)

  /** The reply to the confirmation. `Broken` is an Exception, which is handled, and
      `Interrupted` a BaseException beyond it, which is not. */
  datatype Answer = Yes | No | Broken | Interrupted

  /** What the surroundings do: the routes in order of rank, the reply to the
      confirmation, what becomes of the save after the grant, when the caller cancels, the
      clock when the transaction begins and when the grant is accepted. */
  datatype World = World(
    routes: seq<Route>, confirmation: Answer, saving: Saves.Saving,
    cancelledBefore: bool, cancelledAccepted: bool, cancelledPersisted: bool,
    begun: real, accepted: real)

  /** The routes up to the first that does not fail decide. */
  function Decisive(routes: seq<Route>): Option<Route> {
    if routes == [] then None
    else if routes[0].Failed? then Decisive(routes[1..])
    else Some(routes[0])
  }

  /** A completed exchange: the request as sent, the response, the confirmation as sent. */
  datatype Exchange = Exchange(request: T.Request, response: Response, control: T.Control)

  /** What the manager holds about its outbound trust in one peer. */
  function TrustIn(b: B.Book, peer: NodeId): (Option<B.Trusted>, bool) {
    (if peer in b.trusted then Some(b.trusted[peer]) else None, peer in b.broken)
  }

  /** Nothing but the given peer's outbound direction has changed. */
  ghost predicate OthersKept(b: B.Book, b': B.Book, peer: NodeId) {
    && b'.grants == b.grants
    && forall other: NodeId | other != peer :: TrustIn(b', other) == TrustIn(b, other)
  }

  ghost predicate TrustKept(b: B.Book, b': B.Book, peer: NodeId) {
    TrustIn(b', peer) == TrustIn(b, peer) && OthersKept(b, b', peer)
  }

  /** `_rollback`. */
  function Undone(b: B.Book, peer: NodeId, previous: Option<B.Trusted>, broken: bool, id: B.Id): B.Book {
    B.RestoreTrusted(B.Abort(b, id), peer, previous, broken)
  }

  /** Undoing restores the trust in the peer exactly, because only trusted peers are marked
      broken; whatever else happened to that trust meanwhile is lost, and nothing else is. */
  lemma RollbackRestores(b: B.Book, now: B.Book, peer: NodeId, id: B.Id)
    requires B.Good(b)
    ensures var undone := Undone(now, peer, TrustIn(b, peer).0, TrustIn(b, peer).1, id);
            && TrustIn(undone, peer) == TrustIn(b, peer) && OthersKept(now, undone, peer)
            && (OthersKept(b, now, peer) ==> OthersKept(b, undone, peer))
  {
    var undone := Undone(now, peer, TrustIn(b, peer).0, TrustIn(b, peer).1, id);
    if OthersKept(b, now, peer) {
      forall other: NodeId | other != peer ensures TrustIn(undone, other) == TrustIn(b, other) {
        assert TrustIn(now, other) == TrustIn(b, other);
      }
    }
  }

  lemma RollbackDropsTransaction(now: B.Book, peer: NodeId, previous: Option<B.Trusted>, broken: bool, id: B.Id)
    requires B.Good(now)
    ensures forall k | HasKey(Undone(now, peer, previous, broken, id).pending, k) ::
              k != id && HasKey(now.pending, k)
  {
    B.AbortKeepsGood(now, id);
    var aborted := B.Abort(now, id).pending;
    var keep := (p: B.Pending) => p.peer != peer || !p.direction.Outbound?;
    B.KeepPendingMembers(aborted, keep);
    DropEffect(now.pending, id);
    forall k | HasKey(B.KeepPending(aborted, keep), k) ensures HasKey(aborted, k) {
      if !HasKey(aborted, k) { T.MembersLackKey(B.KeepPending(aborted, keep), aborted, k); }
    }
  }

  lemma BeginEffect(b: B.Book, id: B.Id, peer: NodeId, secret: string, m: B.Material, intent: B.Intent, now: real, ttl: real)
    requires B.Good(b) && B.Begin(b, id, peer, Some(secret), secret, m, B.Outbound, intent, now, ttl).Ok?
    ensures var (b', p) := B.Begin(b, id, peer, Some(secret), secret, m, B.Outbound, intent, now, ttl).value;
            && TrustKept(b, b', peer) && p.secret == secret && p.peer == peer
            && Find(b'.pending, p.id) == Some(p)
            && forall k | HasKey(b'.pending, k) :: HasKey(b.pending, k) || (k == id && k == p.id)
  {
    var p := B.PendingPairing(id, peer, B.SecretOr(Some(secret), secret), now + ttl, m, B.Outbound, intent);
    PutEffect(b.pending, id, p);
    FindPut(b.pending, id, p, id);
    var replay := B.FindExact(b.pending, peer, secret, now);
    if replay.Some? {
      var i :| 0 <= i < |b.pending| && b.pending[i].1 == replay.value;
      FindItem(b.pending, b.pending[i]);
    }
  }

  lemma AcceptEffect(was: B.Book, b: B.Book, local: NodeId, id: B.Id, peer: NodeId, g: B.Grant, m: B.Material, now: real)
    requires B.Good(b) && TrustKept(was, b, peer) && B.AcceptGrant(b, local, id, peer, g, m, now).Ok?
    ensures var (b', t) := B.AcceptGrant(b, local, id, peer, g, m, now).value;
            && OthersKept(was, b', peer) && TrustIn(b', peer) == (Some(t), false)
            && t.secret == B.Active(b, id, now).value.secret && t.permissions == g.permissions && t.peer == peer
            && forall k | HasKey(b'.pending, k) :: HasKey(b.pending, k) && k != id
  {
    DropEffect(b.pending, id);
    var b' := B.AcceptGrant(b, local, id, peer, g, m, now).value.0;
    forall other: NodeId | other != peer ensures TrustIn(b', other) == TrustIn(was, other) {
      assert TrustIn(b, other) == TrustIn(was, other);
    }
  }

  function Rootless(m: B.Material): B.Material {
    m.(rootPublicKey := None, transportGeneration := None, transportProof := None)
  }

  /** A target that still holds a grant for the caller approves no request without root
      material, a repair included: it cannot tell that the caller is the same node. */
  lemma HeldGrantRefusesRootless(verify: B.Verifier, t: T.Target, r: T.Request, c: T.Conditions)
    requires r.caller in t.book.grants && r.material.rootPublicKey.None?
    ensures T.HandleRequest(verify, t, r, c).0 == t
    ensures T.HandleRequest(verify, t, r, c).1.Refused?
    ensures !c.busy && r.caller != t.self ==> T.HandleRequest(verify, t, r, c).1.outcome == T.ConflictingIdentity
  {
  }

  predicate Carries(response: Response, reply: T.Reply) {
    reply.Approved? && response == Response(Some(reply.permissions), Some(reply.binding))
  }

  /** The exchange as it happened in a run of an honest target: at `i` the target gave
      the response, at `j` it answered the confirmation with yes. */
  ghost predicate Witnessed(verify: B.Verifier, states: seq<T.Target>, steps: seq<T.Step>, i: nat, j: nat, x: Exchange) {
    && T.Run(verify, states, steps) && i < j < |steps|
    && steps[i].Ask? && steps[i].request == x.request
    && Carries(x.response, T.HandleRequest(verify, states[i], steps[i].request, steps[i].conditions).1)
    && steps[j].Conclude? && steps[j].control == x.control && T.HandleControl(states[j], x.control, steps[j].saves).1
  }

  /** Both sides agree: when an establishment returns, an honest target, whatever else it
      is asked meanwhile, has confirmed exactly that transaction exactly once, and grants
      the caller the very secret and permissions that the caller now trusts. */
  lemma BothSidesAgree(verify: B.Verifier, states: seq<T.Target>, steps: seq<T.Step>, i: nat, j: nat,
                       x: Exchange, trusted: B.Trusted)
    requires Witnessed(verify, states, steps, i, j, x)
    requires x.control == T.Control(T.Confirm, x.response.binding.value, x.response.permissions.value)
    requires x.request.secret == trusted.secret && x.control.permissions == trusted.permissions
    ensures forall m | 0 <= m < |steps| :: T.Confirms(states[m], steps[m], x.control.binding.id) <==> m == j
    ensures x.request.caller in states[j + 1].book.grants
    ensures var grant := states[j + 1].book.grants[x.request.caller];
            && grant.caller == x.request.caller && grant.secret == trusted.secret && grant.permissions == trusted.permissions
            && grant.material.identityFingerprint == x.control.binding.identityFingerprint
            && grant.material.transportFingerprint == x.control.binding.transportFingerprint
  {
    var id := x.control.binding.id;
    T.RunKeepsSound(verify, states, steps, i);
    T.RunKeepsSound(verify, states, steps, j);
    T.ReplyMatchesRequest(verify, states[i], x.request, steps[i].conditions);
    T.ConfirmTakes(verify, states[j], steps[j], id);
    forall m | 0 <= m < |steps| && m != j ensures !T.Confirms(states[m], steps[m], id) {
      if m < j {
        if T.Confirms(states[m], steps[m], id) { T.ConfirmedOnce(verify, states, steps, m, j, id); }
      } else {
        T.ConfirmedOnce(verify, states, steps, j, m, id);
      }
    }
  }

  // ------------------------------------------------------------------
  // How far an attempt gets
  // ------------------------------------------------------------------

  /** The node that pairs: its id, the lifetime of its transactions, its own fingerprints
      and root proof, and how it verifies those of others. */
  datatype Node = Node(localId: NodeId, ttl: real, material: B.Material, verify: B.Verifier)

  /** What the caller asks for, and the fresh secret and transaction id. */
  datatype Attempt = Attempt(
    peer: NodeId, candidate: Option<Candidate>, permissions: set<string>, intent: B.Intent, secret: string, id: B.Id)

  /** The checks that come before a transaction begins: None to go ahead. */
  function Decline(n: Node, b: B.Book, a: Attempt, w: World): (r: Option<Result<B.Trusted, Error>>)
    ensures r.None? ==> a.candidate.Some?
  {
    if w.cancelledBefore then Some(Err(Cancelled))
    else if || a.candidate.None? || !a.candidate.value.compatible || a.candidate.value.port.None?
            || a.candidate.value.addresses == []
    then Some(Err(NotConnectable))
    else if !B.Present(a.candidate.value.material.transportFingerprint) then Some(Err(NoFingerprint))
    else if !(a.permissions <= {"read_state"}) then Some(Err(NotReadOnly))
    else
      var state := B.Classify(n.verify, b, a.peer, a.candidate.value.material, w.begun);
      match a.intent
      case Pair =>
        if state.IdentityConflict? then Some(Err(IdentityConflict))
        else if state.OutboundTrusted? || state.Bidirectional? then
          (if a.peer in b.trusted then Some(Ok(b.trusted[a.peer])) else assert false; None)
        else if state.RepairRequired? then Some(Err(RepairRequired))
        else if state.PendingOutbound? then Some(Err(Busy))
        else None
      case Repair =>
        if a.peer !in b.trusted then Some(Err(PairingConflict))
        else if state.IdentityConflict? then Some(Err(IdentityConflict))
        else if state.OutboundTrusted? || state.Bidirectional? then Some(Err(RepairNotRequired))
        else if state.RepairRequired? then None
        else Some(Err(PairingConflict))
  }

  /** The permissions that the response grants, or why the attempt is undone. */
  function Receive(route: Option<Route>, permissions: set<string>): (r: Result<set<string>, Error>)
    requires route != Some(Raised)
    ensures r.Ok? ==> route.Some? && route.value.Answered? && route.value.response.permissions == Some(r.value)
                      && {} != r.value <= permissions
    ensures r.Err? ==> r.error in {RoutesFailed, PeerRejected, PermissionsMalformed, PermissionsOutside}
  {
    match route
    case None => Err(RoutesFailed)
    case Some(Failed) => Err(RoutesFailed)
    case Some(Rejected) => Err(PeerRejected)
    case Some(Answered(response)) =>
      match response.permissions
      case None => Err(PermissionsMalformed)
      case Some(accepted) => if accepted == {} || !(accepted <= permissions) then Err(PermissionsOutside) else Ok(accepted)
  }

  /** The book and the trust once the grant of the begun transaction is accepted, when
      the attempt gets that far. */
  function GrantOf(n: Node, b: B.Book, p: B.Pending, a: Attempt, w: World): Option<(B.Book, B.Trusted)>
    requires a.candidate.Some?
  {
    var route := Decisive(w.routes);
    if route == Some(Raised) then None
    else
      var received := Receive(route, a.permissions);
      if received.Err? || route.value.response.binding.None? then None
      else
        var accepted := B.AcceptGrant(b, n.localId, p.id, a.peer, B.PeerGrant(n.localId, p.secret, received.value, n.material),
                                      a.candidate.value.material, w.accepted);
        if accepted.Ok? then Some(accepted.value) else None
  }

  function Begun(n: Node, b: B.Book, a: Attempt, w: World): Result<(B.Book, B.Pending), B.Error> {
    B.Begin(b, a.id, a.peer, Some(a.secret), a.secret, n.material, B.Outbound, a.intent, w.begun, n.ttl)
  }

  /** The same from the beginning of the attempt. */
  function Granted(n: Node, b: B.Book, a: Attempt, w: World): Option<(B.Book, B.Trusted)> {
    if Decline(n, b, a, w).Some? || Begun(n, b, a, w).Err? then None
    else GrantOf(n, Begun(n, b, a, w).value.0, Begun(n, b, a, w).value.1, a, w)
  }

  /** After the grant something is raised past every handler: out of the save, or, once
      that has succeeded, out of the confirmation. */
  predicate Escapes(w: World) {
    && !w.cancelledAccepted
    && (w.saving.SaveRaised? || (w.saving.Saved? && !w.cancelledPersisted && w.confirmation.Interrupted?))
  }

  /** Accepting a grant always replaces the trust: a fresh pair starts without any, and a
      repair starts from a broken mark or from another fingerprint. */
  lemma GrantReplacesTrust(n: Node, b: B.Book, a: Attempt, w: World)
    requires B.Good(b) && Granted(n, b, a, w).Some?
    ensures var (b', t) := Granted(n, b, a, w).value;
            && TrustIn(b', a.peer) == (Some(t), false) && OthersKept(b, b', a.peer)
            && t.secret == a.secret && t.peer == a.peer
            && TrustIn(b, a.peer) != TrustIn(b', a.peer) && !TrustKept(b, b', a.peer)
  {
    var (begun, p) := Begun(n, b, a, w).value;
    BeginEffect(b, a.id, a.peer, a.secret, n.material, a.intent, w.begun, n.ttl);
    B.BeginKeepsGood(b, a.id, a.peer, Some(a.secret), a.secret, n.material, B.Outbound, a.intent, w.begun, n.ttl);
    var received := Receive(Decisive(w.routes), a.permissions).value;
    AcceptEffect(b, begun, n.localId, p.id, a.peer, B.PeerGrant(n.localId, p.secret, received, n.material),
                 a.candidate.value.material, w.accepted);
    AllowedToGrant(n, b, a, w);
  }

  /** An attempt that is not declined finds no trust when pairing, and when repairing
      trust that is marked broken or bound to another fingerprint. */
  lemma AllowedToGrant(n: Node, b: B.Book, a: Attempt, w: World)
    requires Decline(n, b, a, w).None?
    ensures a.intent == B.Pair ==> a.peer !in b.trusted
    ensures a.intent == B.Repair ==>
              && a.peer in b.trusted
              && (a.peer in b.broken
                  || b.trusted[a.peer].material.transportFingerprint != a.candidate.value.material.transportFingerprint)
  {
  }

  /** An input at which an exception replaces trust: a fresh pair whose save raises. */
  lemma RaisingSaveReplacesTrust(n: Node, peer: NodeId)
    requires n.ttl > 0.0
    ensures var material := B.Material(None, Some("f"), None, None, None);
            var response := Response(Some({"read_state"}), Some(T.Binding(0, n.localId, None, None, "s", 1.0)));
            var a := Attempt(peer, Some(Candidate(true, Some(1), ["h"], material)), {"read_state"}, B.Pair, "s", 0);
            var w := World([Answered(response)], Yes, Saves.SaveRaised(false), false, false, false, 0.0, 0.0);
            var b := B.Book([], map[], map[], {});
            && Escapes(w) && Granted(n, b, a, w).Some?
            && TrustIn(b, peer) == (None, false)
            && TrustIn(Granted(n, b, a, w).value.0, peer).0.Some?
  {
    var p := B.PendingPairing(0, peer, "s", n.ttl, n.material, B.Outbound, B.Pair);
    assert B.Begin(B.Book([], map[], map[], {}), 0, peer, Some("s"), "s", n.material, B.Outbound, B.Pair, 0.0, n.ttl) ==
           Ok((B.Book([(0, p)], map[], map[], {}), p));
    assert Find([(0, p)], 0) == Some(p);
  }

  // ------------------------------------------------------------------
  // Revoked in the middle of an attempt
  // ------------------------------------------------------------------

  /** A revocation takes the transaction along, so that its grant is refused. */
  lemma RevokedIsNotGranted(n: Node, b: B.Book, p: B.Pending, a: Attempt, w: World)
    requires B.Good(b) && Find(b.pending, p.id) == Some(p) && p.peer == a.peer && a.candidate.Some?
    ensures GrantOf(n, B.Revoke(b, a.peer), p, a, w).None?
  {
    var kept := B.Revoke(b, a.peer).pending;
    B.KeepPendingMembers(b.pending, (p: B.Pending) => p.peer != a.peer);
    FindMeans(kept, p.id);
    if Find(kept, p.id).Some? { FindItem(b.pending, (p.id, Find(kept, p.id).value)); }
  }

  /** The routes lead to a rollback, rather than to a grant or an uncaught exception. */
  predicate Fails(routes: seq<Route>, permissions: set<string>) {
    Decisive(routes) != Some(Raised) && Receive(Decisive(routes), permissions).Err?
  }

  /** The book at the end of an attempt whose peer is revoked by another thread while the
      routes are asked. */
  function RevokedMeanwhile(n: Node, b: B.Book, a: Attempt, w: World): B.Book
    requires Decline(n, b, a, w).None? && Begun(n, b, a, w).Ok?
  {
    var (begun, p) := Begun(n, b, a, w).value;
    var revoked := B.Revoke(begun, a.peer);
    if Fails(w.routes, a.permissions) then Undone(revoked, a.peer, TrustIn(b, a.peer).0, TrustIn(b, a.peer).1, p.id)
    else
      var granted := GrantOf(n, revoked, p, a, w);
      if granted.Some? then granted.value.0 else revoked
  }

  /** Exactly when the revocation of outbound trust survives: when the attempt is a first
      pairing, or is not rolled back. Else the revoked trust is put back as it was. The
      inbound grant stays revoked. */
  lemma RevocationSurvivesIff(n: Node, b: B.Book, a: Attempt, w: World)
    requires B.Good(b) && Decline(n, b, a, w).None? && Begun(n, b, a, w).Ok?
    ensures var after := RevokedMeanwhile(n, b, a, w);
            && (TrustIn(after, a.peer) == (None, false) <==> a.intent == B.Pair || !Fails(w.routes, a.permissions))
            && (a.intent == B.Repair && Fails(w.routes, a.permissions) ==> TrustIn(after, a.peer) == TrustIn(b, a.peer))
            && a.peer !in after.grants
  {
    var (begun, p) := Begun(n, b, a, w).value;
    AllowedToGrant(n, b, a, w);
    BeginEffect(b, a.id, a.peer, a.secret, n.material, a.intent, w.begun, n.ttl);
    B.BeginKeepsGood(b, a.id, a.peer, Some(a.secret), a.secret, n.material, B.Outbound, a.intent, w.begun, n.ttl);
    RevokedIsNotGranted(n, begun, p, a, w);
    RollbackRestores(b, B.Revoke(begun, a.peer), a.peer, p.id);
  }

  /** An input at which it does not: a repair of broken trust that no route answers. */
  lemma RevokedTrustReturns(n: Node, peer: NodeId)
    ensures var material := B.Material(None, Some("f"), Some("root"), None, None);
            var trusted := B.TrustedPeer(peer, "old", {"read_state"}, material);
            var a := Attempt(peer, Some(Candidate(true, Some(1), ["h"], material)), {"read_state"}, B.Repair, "s", 0);
            var w := World([Failed], Yes, Saves.Saved, false, false, false, 0.0, 0.0);
            var b := B.Book([], map[peer := trusted], map[], {peer});
            && Decline(n, b, a, w).None? && Begun(n, b, a, w).Ok?
            && TrustIn(RevokedMeanwhile(n, b, a, w), peer) == (Some(trusted), true)
  {
    var material := B.Material(None, Some("f"), Some("root"), None, None);
    var trusted := B.TrustedPeer(peer, "old", {"read_state"}, material);
    var a := Attempt(peer, Some(Candidate(true, Some(1), ["h"], material)), {"read_state"}, B.Repair, "s", 0);
    var w := World([Failed], Yes, Saves.Saved, false, false, false, 0.0, 0.0);
    var b := B.Book([], map[peer := trusted], map[], {peer});
    assert [Failed][1..] == [];
    assert Decisive(w.routes).None?;
    assert B.Classify(n.verify, b, peer, material, 0.0) == B.RepairRequired;
    RevocationSurvivesIff(n, b, a, w);
  }

  class NetworkPairing {
    const manager: PairingManager
    /** This node's own fingerprints and root proof. */
    const material: B.Material
    const verify: B.Verifier

    constructor (manager: PairingManager, material: B.Material, verify: B.Verifier)
      ensures this.manager == manager && this.material == material && this.verify == verify
    {
      this.manager, this.material, this.verify := manager, material, verify;
    }

    function Here(): Node {
      Node(manager.localId, manager.ttl, material, verify)
    }

    /** `_rollback`; what becomes of its own save does not matter, it comes last. */
    method Rollback(peer: NodeId, previous: Option<B.Trusted>, broken: bool, id: B.Id)
      requires manager.Valid()
      modifies manager
      ensures manager.Valid()
      ensures manager.Book() == Undone(old(manager.Book()), peer, previous, broken, id)
    {
      manager.Abort(id);
      manager.RestoreTrusted(peer, previous, broken);
    }

    /** The loop over the routes, in order of rank. */
    method Ask(routes: seq<Route>) returns (response: Option<Route>)
      ensures response == Decisive(routes)
    {
      for i := 0 to |routes|
        invariant Decisive(routes) == Decisive(routes[i..])
      {
        if !routes[i].Failed? { return Some(routes[i]); }
      }
      return None;
    }

    /** The request that every attempt sends: it carries no root material. */
    function RequestOf(p: B.Pending, permissions: set<string>): T.Request {
      T.PairingRequest(manager.localId, p.secret, permissions, Rootless(material), p.intent)
    }

    /** What a successful establishment leaves behind. */
    ghost predicate Established(b: B.Book, b': B.Book, a: Attempt, w: World, trusted: B.Trusted, x: Exchange) {
      && TrustIn(b', a.peer) == (Some(trusted), false) && OthersKept(b, b', a.peer)
      && Decisive(w.routes) == Some(Answered(x.response)) && w.confirmation.Yes? && w.saving.Saved?
      && x.response.permissions.Some? && x.response.binding.Some?
      && x.control == T.Control(T.Confirm, x.response.binding.value, x.response.permissions.value)
      && trusted.peer == a.peer && trusted.permissions == x.control.permissions
      && {} != trusted.permissions <= a.permissions
      && x.request.caller == manager.localId && x.request.secret == trusted.secret && x.request.permissions == a.permissions
      && x.request.material == Rootless(material)
    }

    /** `_establish`. Whatever the peer and the routes do, an exception leaves the outbound
        trust in the peer and its broken mark as they were, with one exact exception: the
        grant was accepted and then something was raised past every handler, out of the
        save or the confirmation. Only an uncaught exception of a route, a response without
        its keys or a refused grant can leave the transaction pending until it expires. */
    method Establish(a: Attempt, w: World) returns (r: Result<B.Trusted, Error>, ghost x: Option<Exchange>)
      requires manager.Valid()
      modifies manager
      ensures manager.Valid()
      ensures r.Err? ==>
                (TrustKept(old(manager.Book()), manager.Book(), a.peer)
                 <==> !(Granted(Here(), old(manager.Book()), a, w).Some? && Escapes(w)))
      ensures Granted(Here(), old(manager.Book()), a, w).Some? && Escapes(w) ==>
                r.Err? && manager.Book() == Granted(Here(), old(manager.Book()), a, w).value.0
      ensures OthersKept(old(manager.Book()), manager.Book(), a.peer)
      ensures HasKey(manager.pending, a.id) && !HasKey(old(manager.pending), a.id) ==>
                r.Err? && r.error in {Uncaught, ResponseMalformed, GrantRefused}
      ensures r.Ok? && x.None? ==> manager.Book() == old(manager.Book()) && TrustIn(manager.Book(), a.peer).0 == Some(r.value)
      ensures r.Ok? && x.Some? ==> Established(old(manager.Book()), manager.Book(), a, w, r.value, x.value)
      ensures x.Some? && a.intent == B.Pair ==> a.peer !in old(manager.trusted)
      ensures x.Some? ==> a.candidate.Some?
      ensures x.Some? && a.intent == B.Repair ==>
                B.Classify(verify, old(manager.Book()), a.peer, a.candidate.value.material, w.begun) == B.RepairRequired
    {
      ghost var was := manager.Book();
      var declined := Decline(Here(), manager.Book(), a, w);
      if declined.Some? { return declined.value, None; }
      var previous := if a.peer in manager.trusted then Some(manager.trusted[a.peer]) else None;
      var previousBroken := a.peer in manager.authBroken;
      var begun := manager.Begin(a.id, a.peer, Some(a.secret), a.secret, material, B.Outbound, a.intent, w.begun);
      if begun.Err? { return Err(Busy), None; }
      BeginEffect(was, a.id, a.peer, a.secret, material, a.intent, w.begun, manager.ttl);
      if Granted(Here(), was, a, w).Some? { GrantReplacesTrust(Here(), was, a, w); }
      r, x := Transact(a, begun.value, previous, previousBroken, w, was);
    }

    /** From the begun transaction to the confirmation. `was` is the book before it began. */
    method Transact(a: Attempt, pending: B.Pending, previous: Option<B.Trusted>, previousBroken: bool, w: World, ghost was: B.Book)
      returns (r: Result<B.Trusted, Error>, ghost x: Option<Exchange>)
      requires manager.Valid() && B.Good(was) && TrustKept(was, manager.Book(), a.peer) && a.candidate.Some?
      requires (previous, previousBroken) == TrustIn(was, a.peer)
      requires forall k | HasKey(manager.pending, k) :: HasKey(was.pending, k) || k == pending.id
      requires Find(manager.pending, pending.id) == Some(pending)
      modifies manager
      ensures manager.Valid() && OthersKept(was, manager.Book(), a.peer)
      ensures var granted := GrantOf(Here(), old(manager.Book()), pending, a, w);
              if granted.Some? && Escapes(w) then r.Err? && manager.Book() == granted.value.0
              else r.Err? ==> TrustKept(was, manager.Book(), a.peer)
      ensures (exists k :: HasKey(manager.pending, k) && !HasKey(was.pending, k)) ==>
                r.Err? && r.error in {Uncaught, ResponseMalformed, GrantRefused}
      ensures r.Ok? ==> x.Some? && Established(was, manager.Book(), a, w, r.value, x.value)
    {
      x := None;
      var route := Ask(w.routes);
      if route == Some(Raised) { return Err(Uncaught), None; }
      var received := Receive(route, a.permissions);
      if received.Err? {
        r := Undo(a.peer, previous, previousBroken, pending.id, received.error, was);
        return;
      }
      var response := route.value.response;
      if response.binding.None? { return Err(ResponseMalformed), None; }
      ghost var before := manager.Book();
      var grant := B.PeerGrant(manager.localId, pending.secret, received.value, material);
      var trusted := manager.AcceptGrant(pending.id, a.peer, grant, a.candidate.value.material, w.accepted);
      if trusted.Err? { return Err(GrantRefused), None; }
      AcceptEffect(was, before, manager.localId, pending.id, a.peer, grant, a.candidate.value.material, w.accepted);
      if w.cancelledAccepted {
        r := Undo(a.peer, previous, previousBroken, pending.id, Cancelled, was);
        return;
      }
      if w.saving.SaveRaised? { return Err(SaveInterrupted), None; }
      if w.saving.NotSaved? || w.cancelledPersisted {
        r := Undo(a.peer, previous, previousBroken, pending.id, if w.saving.NotSaved? then NotPersisted else Cancelled, was);
        return;
      }
      if w.confirmation.Interrupted? { return Err(ConfirmInterrupted), None; }
      if !w.confirmation.Yes? {
        r := Undo(a.peer, previous, previousBroken, pending.id, if w.confirmation.No? then NotConfirmed else ConfirmFailed, was);
        return;
      }
      x := Some(Exchange(RequestOf(pending, a.permissions), response, T.Control(T.Confirm, response.binding.value, received.value)));
      r := Ok(trusted.value);
    }

    /** Roll back and raise. */
    method Undo(peer: NodeId, previous: Option<B.Trusted>, broken: bool, id: B.Id, error: Error, ghost was: B.Book)
      returns (r: Result<B.Trusted, Error>)
      requires manager.Valid() && B.Good(was) && OthersKept(was, manager.Book(), peer)
      requires (previous, broken) == TrustIn(was, peer)
      requires forall k | HasKey(manager.pending, k) :: HasKey(was.pending, k) || k == id
      modifies manager
      ensures manager.Valid() && r == Err(error)
      ensures TrustKept(was, manager.Book(), peer)
      ensures forall k | HasKey(manager.pending, k) :: HasKey(was.pending, k)
    {
      RollbackRestores(was, manager.Book(), peer, id);
      RollbackDropsTransaction(manager.Book(), peer, previous, broken, id);
      Rollback(peer, previous, broken, id);
      return Err(error);
    }
  }
}
