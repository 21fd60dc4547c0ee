/** pairing/manager.py: the mutable pairing manager, kept to the functions of PairingBook. */
module PairingManagers {
  import opened Wrappers
  import opened Dicts
  import opened ClusterModels
  import B = PairingBook

  class PairingManager {
    const localId: NodeId
    const ttl: real
    var pending: Dict<B.Id, B.Pending>
    var trusted: map<NodeId, B.Trusted>
    var grants: map<NodeId, B.Grant>
    var authBroken: set<NodeId>

    function Book(): B.Book
      reads this
    {
      B.Book(pending, trusted, grants, authBroken)
    }

    ghost predicate Valid()
      reads this
    {
      B.Good(Book())
    }

    constructor (localId: NodeId, ttl: real)
      ensures Valid() && Book() == B.Book([], map[], map[], {}) && this.localId == localId && this.ttl == ttl
    {
      this.localId, this.ttl := localId, ttl;
      pending, trusted, grants, authBroken := [], map[], map[], {};
    }

    /** `id` is the fresh transaction id, `generated` the fresh secret that replaces a missing one. */
    method Begin(id: B.Id, peer: NodeId, secret: Option<string>, generated: string, material: B.Material, direction: B.Direction,
                 intent: B.Intent, now: real)
      returns (r: Result<B.Pending, B.Error>)
      requires Valid()
      modifies `pending
      ensures Valid()
      ensures match B.Begin(old(Book()), id, peer, secret, generated, material, direction, intent, now, ttl)
              case Ok((book, p)) => r == Ok(p) && Book() == book
              case Err(e) => r == Err(e) && Book() == old(Book())
    {
      B.BeginKeepsGood(Book(), id, peer, secret, generated, material, direction, intent, now, ttl);
      var replay := None;
      if secret.Some? { replay := B.FindExact(pending, peer, secret.value, now); }
      if replay.Some? && replay.value.direction == direction && replay.value.intent == intent { return Ok(replay.value); }
      if B.FindFor(pending, peer, Some(direction), now).Some? { return Err(B.Busy); }
      var transaction := B.PendingPairing(id, peer, B.SecretOr(secret, generated), now + ttl, material, direction, intent);
      pending := Put(pending, id, transaction);
      return Ok(transaction);
    }

    method Approve(id: B.Id, permissions: set<string>, now: real) returns (r: Result<B.Grant, B.Error>)
      requires Valid()
      modifies `grants
      ensures Valid()
      ensures match B.Approve(old(Book()), id, permissions, now)
              case Ok((book, g)) => r == Ok(g) && Book() == book
              case Err(e) => r == Err(e) && Book() == old(Book())
    {
      var transaction := B.Active(Book(), id, now);
      if transaction.None? || !(permissions <= {"ping", "read_state"}) { return Err(B.Invalid); }
      var p := transaction.value;
      var grant := B.PeerGrant(p.peer, p.secret, permissions, p.material);
      grants := grants[p.peer := grant];
      return Ok(grant);
    }

    method AcceptGrant(id: B.Id, peer: NodeId, grant: B.Grant, material: B.Material, now: real)
      returns (r: Result<B.Trusted, B.Error>)
      requires Valid()
      modifies `trusted, `authBroken, `pending
      ensures Valid()
      ensures match B.AcceptGrant(old(Book()), localId, id, peer, grant, material, now)
              case Ok((book, t)) => r == Ok(t) && Book() == book
              case Err(e) => r == Err(e) && Book() == old(Book())
    {
      B.AcceptKeepsGood(Book(), localId, id, peer, grant, material, now);
      var transaction := B.Active(Book(), id, now);
      if transaction.None? || transaction.value.peer != peer || grant.caller != localId { return Err(B.Invalid); }
      if grant.material != transaction.value.material { return Err(B.Invalid); }
      var record := B.TrustedPeer(peer, transaction.value.secret, grant.permissions, material);
      trusted := trusted[peer := record];
      authBroken := authBroken - {peer};
      pending := Drop(pending, id);
      return Ok(record);
    }

    method Abort(id: B.Id)
      requires Valid()
      modifies `pending
      ensures Valid() && Book() == B.Abort(old(Book()), id)
    {
      B.AbortKeepsGood(Book(), id);
      pending := Drop(pending, id);
    }

    method Revoke(peer: NodeId)
      requires Valid()
      modifies this
      ensures Valid() && Book() == B.Revoke(old(Book()), peer)
    {
      B.RevokesKeepGood(Book(), peer);
      trusted, grants, authBroken := trusted - {peer}, grants - {peer}, authBroken - {peer};
      pending := B.KeepPending(pending, (p: B.Pending) => p.peer != peer);
    }

    method RevokeTrusted(peer: NodeId)
      requires Valid()
      modifies `trusted, `authBroken, `pending
      ensures Valid() && Book() == B.RevokeTrusted(old(Book()), peer)
    {
      B.RevokesKeepGood(Book(), peer);
      trusted, authBroken := trusted - {peer}, authBroken - {peer};
      pending := B.KeepPending(pending, (p: B.Pending) => p.peer != peer || !p.direction.Outbound?);
    }

    method RevokeGrant(peer: NodeId)
      requires Valid()
      modifies `grants, `pending
      ensures Valid() && Book() == B.RevokeGrant(old(Book()), peer)
    {
      B.RevokesKeepGood(Book(), peer);
      grants := grants - {peer};
      pending := B.KeepPending(pending, (p: B.Pending) => p.peer != peer || !p.direction.Inbound?);
    }

    method RestoreTrusted(peer: NodeId, previous: Option<B.Trusted>, broken: bool)
      requires Valid()
      modifies `trusted, `authBroken, `pending
      ensures Valid() && Book() == B.RestoreTrusted(old(Book()), peer, previous, broken)
    {
      B.RestoreKeepsGood(Book(), peer, previous, broken);
      if previous.None? {
        RevokeTrusted(peer);
      } else {
        trusted := trusted[peer := previous.value];
        authBroken := if broken then authBroken + {peer} else authBroken - {peer};
      }
    }

    method MarkAuthFailure(peer: NodeId)
      requires Valid()
      modifies `authBroken
      ensures Valid() && Book() == B.MarkAuthFailure(old(Book()), peer)
    {
      if peer in trusted { authBroken := authBroken + {peer}; }
    }

    method MarkAuthOk(peer: NodeId)
      requires Valid()
      modifies `authBroken
      ensures Valid() && Book() == B.MarkAuthOk(old(Book()), peer)
    {
      authBroken := authBroken - {peer};
    }

    /** `restore_snapshot` of an earlier `snapshot`. */
    method RestoreSnapshot(snapshot: B.Book)
      requires B.Good(snapshot)
      modifies this
      ensures Valid() && Book() == snapshot
    {
      trusted, grants, pending, authBroken := snapshot.trusted, snapshot.grants, snapshot.pending, snapshot.broken;
    }
  }
}
