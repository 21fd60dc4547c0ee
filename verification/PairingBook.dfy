/** pairing/manager.py: directional pairing transactions, trust, grants and relationships. */
module PairingBook {
  import opened Wrappers
  import opened Dicts
  import opened ClusterModels

  type Id = nat

  datatype Direction = Outbound | Inbound

  datatype Intent = Pair | Repair

  /** The fingerprints and root proof that travel together. */
  datatype Material = Material(
    identityFingerprint: Option<string>,
    transportFingerprint: Option<string>,
    rootPublicKey: Option<string>,
    transportGeneration: Option<int>,
    transportProof: Option<string>
  )

  datatype Pending = PendingPairing(
    id: Id, peer: NodeId, secret: string, expiresAt: real, material: Material, direction: Direction, intent: Intent)

  datatype Trusted = TrustedPeer(peer: NodeId, secret: string, permissions: set<string>, material: Material)

  datatype Grant = PeerGrant(caller: NodeId, secret: string, permissions: set<string>, material: Material)

  datatype Book = Book(
    pending: Dict<Id, Pending>,
    trusted: map<NodeId, Trusted>,
    grants: map<NodeId, Grant>,
    broken: set<NodeId>
  )

  datatype Error = Busy | Invalid

  /** `verify_transport_proof(node, root, generation, fingerprint, proof)`. */
  type Verifier = (NodeId, string, int, string, string) -> bool

  /** Only trusted peers are marked as broken, and transactions are filed under their id. */
  ghost predicate Good(b: Book) {
    && b.broken <= b.trusted.Keys
    && DistinctKeys(b.pending) && forall item | item in b.pending :: item.1.id == item.0
  }

  // ------------------------------------------------------------------
  // Lookups
  // ------------------------------------------------------------------

  predicate Matches(p: Pending, peer: NodeId, now: real) {
    p.peer == peer && p.expiresAt > now
  }

  function FindExact(pending: Dict<Id, Pending>, peer: NodeId, secret: string, now: real): (r: Option<Pending>)
    ensures r.Some? ==> (exists i :: 0 <= i < |pending| && pending[i].1 == r.value) && Matches(r.value, peer, now) && r.value.secret == secret
  {
    if pending == [] then None
    else if Matches(pending[0].1, peer, now) && pending[0].1.secret == secret then Some(pending[0].1)
    else
      var r := FindExact(pending[1..], peer, secret, now);
      assert forall i | 0 <= i < |pending[1..]| :: pending[1..][i] == pending[i + 1];
      r
  }

  /** None as a direction stands for either. */
  function FindFor(pending: Dict<Id, Pending>, peer: NodeId, direction: Option<Direction>, now: real): (r: Option<Pending>)
    ensures r.Some? ==> (exists i :: 0 <= i < |pending| && pending[i].1 == r.value) && Matches(r.value, peer, now)
    ensures r.Some? && direction.Some? ==> r.value.direction == direction.value
    ensures r.None? ==> forall i | 0 <= i < |pending| && Matches(pending[i].1, peer, now) ::
              direction.Some? && pending[i].1.direction != direction.value
  {
    if pending == [] then None
    else if Matches(pending[0].1, peer, now) && (direction.None? || pending[0].1.direction == direction.value)
    then Some(pending[0].1)
    else
      var r := FindFor(pending[1..], peer, direction, now);
      assert forall i | 0 <= i < |pending[1..]| :: pending[1..][i] == pending[i + 1];
      r
  }

  datatype Relationship =
    | Unpaired | OutboundTrusted | InboundGranted | Bidirectional
    | PendingOutbound | PendingInbound | RepairRequired | IdentityConflict

  function RelationshipOf(b: Book, peer: NodeId, now: real): Relationship {
    if peer in b.trusted && peer in b.broken then RepairRequired
    else if peer in b.trusted then if peer in b.grants then Bidirectional else OutboundTrusted
    else if peer in b.grants then InboundGranted
    else
      match FindFor(b.pending, peer, None, now)
      case Some(p) => if p.direction.Outbound? then PendingOutbound else PendingInbound
      case None => Unpaired
  }

  predicate Present(s: Option<string>) {
    s.Some? && s.value != ""
  }

  predicate Proven(verify: Verifier, peer: NodeId, root: string, m: Material) {
    && m.transportGeneration.Some? && Present(m.transportProof) && Present(m.transportFingerprint)
    && verify(peer, root, m.transportGeneration.value, m.transportFingerprint.value, m.transportProof.value)
  }

  /** A stored root is authoritative; fresh material must prove possession of it. */
  function Classify(verify: Verifier, b: Book, peer: NodeId, m: Material, now: real): Relationship {
    if peer !in b.trusted then RelationshipOf(b, peer, now)
    else
      var stored := b.trusted[peer].material;
      if !Present(stored.rootPublicKey) || m.rootPublicKey != stored.rootPublicKey then IdentityConflict
      else
        var proven := Proven(verify, peer, stored.rootPublicKey.value, m);
        var healthy := if peer in b.broken then RepairRequired else OutboundTrusted;
        if m.transportFingerprint == stored.transportFingerprint then healthy
        else if && proven
                && (stored.transportGeneration.None?
                    || m.transportGeneration.value > stored.transportGeneration.value)
        then healthy
        else if proven then RepairRequired
        else IdentityConflict
  }

  // ------------------------------------------------------------------
  // Transactions
  // ------------------------------------------------------------------

  /** A missing or empty secret is replaced by a generated one. */
  function SecretOr(secret: Option<string>, generated: string): string {
    if Present(secret) then secret.value else generated
  }

  /** A new transaction, or the active one with the same secret. `id` and `generated` are fresh. */
  function Begin(b: Book, id: Id, peer: NodeId, secret: Option<string>, generated: string, m: Material, direction: Direction,
                 intent: Intent, now: real, ttl: real): Result<(Book, Pending), Error>
  {
    var replay := if secret.Some? then FindExact(b.pending, peer, secret.value, now) else None;
    if replay.Some? && replay.value.direction == direction && replay.value.intent == intent then Ok((b, replay.value))
    else if FindFor(b.pending, peer, Some(direction), now).Some? then Err(Busy)
    else
      var p := PendingPairing(id, peer, SecretOr(secret, generated), now + ttl, m, direction, intent);
      Ok((b.(pending := Put(b.pending, id, p)), p))
  }

  function Active(b: Book, id: Id, now: real): Option<Pending> {
    var p := Find(b.pending, id);
    if p.Some? && p.value.expiresAt > now then p else None
  }

  function Approve(b: Book, id: Id, permissions: set<string>, now: real): Result<(Book, Grant), Error> {
    var p := Active(b, id, now);
    if p.None? || !(permissions <= {"ping", "read_state"}) then Err(Invalid)
    else
      var g := PeerGrant(p.value.peer, p.value.secret, permissions, p.value.material);
      Ok((b.(grants := b.grants[g.caller := g]), g))
  }

  function AcceptGrant(b: Book, local: NodeId, id: Id, peer: NodeId, g: Grant, material: Material, now: real)
    : Result<(Book, Trusted), Error>
  {
    var p := Active(b, id, now);
    if p.None? || p.value.peer != peer || g.caller != local || g.material != p.value.material then Err(Invalid)
    else
      var t := TrustedPeer(peer, p.value.secret, g.permissions, material);
      Ok((b.(trusted := b.trusted[peer := t], broken := b.broken - {peer}, pending := Drop(b.pending, id)), t))
  }

  function Abort(b: Book, id: Id): Book {
    b.(pending := Drop(b.pending, id))
  }

  function KeepPending(pending: Dict<Id, Pending>, keep: Pending -> bool): Dict<Id, Pending> {
    if pending == [] then []
    else (if keep(pending[0].1) then [pending[0]] else []) + KeepPending(pending[1..], keep)
  }

  function Revoke(b: Book, peer: NodeId): Book {
    Book(KeepPending(b.pending, (p: Pending) => p.peer != peer), b.trusted - {peer}, b.grants - {peer}, b.broken - {peer})
  }

  function RevokeTrusted(b: Book, peer: NodeId): Book {
    b.(trusted := b.trusted - {peer}, broken := b.broken - {peer},
       pending := KeepPending(b.pending, (p: Pending) => p.peer != peer || !p.direction.Outbound?))
  }

  function RevokeGrant(b: Book, peer: NodeId): Book {
    b.(grants := b.grants - {peer},
       pending := KeepPending(b.pending, (p: Pending) => p.peer != peer || !p.direction.Inbound?))
  }

  function RestoreTrusted(b: Book, peer: NodeId, previous: Option<Trusted>, broken: bool): Book {
    match previous
    case None => RevokeTrusted(b, peer)
    case Some(t) => b.(trusted := b.trusted[peer := t], broken := if broken then b.broken + {peer} else b.broken - {peer})
  }

  function MarkAuthFailure(b: Book, peer: NodeId): Book {
    if peer in b.trusted then b.(broken := b.broken + {peer}) else b
  }

  function MarkAuthOk(b: Book, peer: NodeId): Book {
    b.(broken := b.broken - {peer})
  }

  // ------------------------------------------------------------------
  // The invariant
  // ------------------------------------------------------------------

  lemma {:induction false} KeepPendingMember(pending: Dict<Id, Pending>, keep: Pending -> bool, item: (Id, Pending))
    ensures item in KeepPending(pending, keep) <==> item in pending && keep(item.1)
  {
    if pending != [] {
      KeepPendingMember(pending[1..], keep, item);
      assert item in pending <==> item == pending[0] || item in pending[1..];
    }
  }

  lemma {:induction false} KeepPendingDistinct(pending: Dict<Id, Pending>, keep: Pending -> bool)
    requires DistinctKeys(pending)
    ensures DistinctKeys(KeepPending(pending, keep))
  {
    if pending != [] {
      var rest := KeepPending(pending[1..], keep);
      KeepPendingDistinct(pending[1..], keep);
      forall i | 0 <= i < |rest| ensures rest[i].0 != pending[0].0 {
        KeepPendingMember(pending[1..], keep, rest[i]);
      }
    }
  }

  lemma KeepPendingMembers(pending: Dict<Id, Pending>, keep: Pending -> bool)
    requires DistinctKeys(pending)
    ensures DistinctKeys(KeepPending(pending, keep))
    ensures forall item | item in KeepPending(pending, keep) :: item in pending && keep(item.1)
    ensures forall item | item in pending && keep(item.1) :: item in KeepPending(pending, keep)
  {
    KeepPendingDistinct(pending, keep);
    forall item ensures item in KeepPending(pending, keep) <==> item in pending && keep(item.1) {
      KeepPendingMember(pending, keep, item);
    }
  }

  lemma BeginKeepsGood(b: Book, id: Id, peer: NodeId, secret: Option<string>, generated: string, m: Material,
                       direction: Direction, intent: Intent, now: real, ttl: real)
    requires Good(b)
    ensures var r := Begin(b, id, peer, secret, generated, m, direction, intent, now, ttl); r.Ok? ==> Good(r.value.0)
  {
    PutEffect(b.pending, id, PendingPairing(id, peer, SecretOr(secret, generated), now + ttl, m, direction, intent));
  }

  lemma AcceptKeepsGood(b: Book, local: NodeId, id: Id, peer: NodeId, g: Grant, material: Material, now: real)
    requires Good(b)
    ensures var r := AcceptGrant(b, local, id, peer, g, material, now); r.Ok? ==> Good(r.value.0)
  {
    DropEffect(b.pending, id);
  }

  lemma AbortKeepsGood(b: Book, id: Id)
    requires Good(b)
    ensures Good(Abort(b, id)) && !HasKey(Abort(b, id).pending, id)
  {
    DropEffect(b.pending, id);
  }

  lemma RevokesKeepGood(b: Book, peer: NodeId)
    requires Good(b)
    ensures Good(Revoke(b, peer)) && Good(RevokeTrusted(b, peer)) && Good(RevokeGrant(b, peer))
  {
    KeepPendingMembers(b.pending, (p: Pending) => p.peer != peer);
    KeepPendingMembers(b.pending, (p: Pending) => p.peer != peer || !p.direction.Outbound?);
    KeepPendingMembers(b.pending, (p: Pending) => p.peer != peer || !p.direction.Inbound?);
  }

  lemma RestoreKeepsGood(b: Book, peer: NodeId, previous: Option<Trusted>, broken: bool)
    requires Good(b)
    ensures Good(RestoreTrusted(b, peer, previous, broken))
  {
    RevokesKeepGood(b, peer);
  }

  /** A failed authentication calls for repair of an outbound relationship, and only of
      one; a later success takes the call back. */
  lemma AuthMarks(b: Book, peer: NodeId, now: real)
    requires Good(b)
    ensures Good(MarkAuthFailure(b, peer)) && Good(MarkAuthOk(b, peer))
    ensures RelationshipOf(MarkAuthFailure(b, peer), peer, now) == RepairRequired <==> peer in b.trusted
    ensures RelationshipOf(MarkAuthOk(b, peer), peer, now) != RepairRequired
    ensures peer !in b.broken ==> MarkAuthOk(MarkAuthFailure(b, peer), peer) == b
  {
  }

  /** A stored root is authoritative: fresh material passes exactly when it names that
      root and keeps the stored fingerprint or proves possession of the root, and a new
      fingerprint is only healthy with a younger generation. */
  lemma ClassifyNeedsProof(verify: Verifier, b: Book, peer: NodeId, m: Material, now: real)
    requires peer in b.trusted
    ensures var stored, state := b.trusted[peer].material, Classify(verify, b, peer, m, now);
            && (state != IdentityConflict <==>
                  && Present(stored.rootPublicKey) && m.rootPublicKey == stored.rootPublicKey
                  && (m.transportFingerprint == stored.transportFingerprint || Proven(verify, peer, stored.rootPublicKey.value, m)))
            && (state == OutboundTrusted && m.transportFingerprint != stored.transportFingerprint ==>
                  && Proven(verify, peer, stored.rootPublicKey.value, m)
                  && (stored.transportGeneration.Some? ==> m.transportGeneration.value > stored.transportGeneration.value))
            && (state == OutboundTrusted ==> peer !in b.broken)
            && state in {IdentityConflict, OutboundTrusted, RepairRequired}
  {
  }

  lemma NoTrustLeft(b: Book, peer: NodeId, now: real)
    requires Good(b)
    ensures RelationshipOf(RevokeTrusted(b, peer), peer, now) in {InboundGranted, PendingInbound, Unpaired}
  {
    KeepPendingMembers(b.pending, (p: Pending) => p.peer != peer || !p.direction.Outbound?);
    FoundIsMember(RevokeTrusted(b, peer), peer, now);
  }

  lemma NoGrantLeft(b: Book, peer: NodeId, now: real)
    requires Good(b)
    ensures RelationshipOf(RevokeGrant(b, peer), peer, now) in {RepairRequired, OutboundTrusted, PendingOutbound, Unpaired}
  {
    KeepPendingMembers(b.pending, (p: Pending) => p.peer != peer || !p.direction.Inbound?);
    FoundIsMember(RevokeGrant(b, peer), peer, now);
  }

  lemma NothingLeft(b: Book, peer: NodeId, now: real)
    requires Good(b)
    ensures RelationshipOf(Revoke(b, peer), peer, now) == Unpaired
  {
    KeepPendingMembers(b.pending, (p: Pending) => p.peer != peer);
    FoundIsMember(Revoke(b, peer), peer, now);
  }

  /** Revoking one direction leaves the other: only whole-peer revocation removes both. */
  lemma RevokedDirections(b: Book, peer: NodeId, now: real)
    requires Good(b)
    ensures RelationshipOf(RevokeTrusted(b, peer), peer, now) in {InboundGranted, PendingInbound, Unpaired}
    ensures RelationshipOf(RevokeGrant(b, peer), peer, now) in {RepairRequired, OutboundTrusted, PendingOutbound, Unpaired}
    ensures RelationshipOf(Revoke(b, peer), peer, now) == Unpaired
    ensures RevokeTrusted(b, peer).grants == b.grants && RevokeGrant(b, peer).trusted == b.trusted
  {
    NoTrustLeft(b, peer, now);
    NoGrantLeft(b, peer, now);
    NothingLeft(b, peer, now);
  }

  lemma FoundIsMember(b: Book, peer: NodeId, now: real)
    ensures var r := FindFor(b.pending, peer, None, now);
            r.Some? ==> exists item :: item in b.pending && item.1 == r.value && r.value.peer == peer
  {
    var r := FindFor(b.pending, peer, None, now);
    if r.Some? {
      var i :| 0 <= i < |b.pending| && b.pending[i].1 == r.value;
      assert b.pending[i] in b.pending;
    }
  }
}
