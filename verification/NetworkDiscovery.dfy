/** discovery/network.py: the component that keeps the view of Discovery up to date. */
module NetworkDiscoveryComponent {
  import opened Wrappers
  import opened Dicts
  import D = Discovery

  /** What normalizing a service record yields: an error, nothing, or a candidate. */
  datatype Normalized = Malformed | Ignored | Normal(candidate: D.Candidate)

  /** A transport callback. `Removed` carries None when the name is not a string. */
  datatype Event = Added(name: string, info: Normalized) | Removed(named: Option<string>) | Unknown

  /** Candidates come out of their constructor. */
  predicate FromConstructor(e: Event) {
    e.Added? && e.info.Normal? ==> D.Constructed(e.info.candidate) == e.info.candidate
  }

  /** The specification of one callback. */
  function Handle(v: D.View, active: bool, e: Event): D.Change {
    if !active then D.Change(v, [])
    else match e
      case Unknown => D.Change(v, [])
      case Removed(None) => D.Change(v, [])
      case Removed(Some(name)) => D.Withdraw(v, name)
      case Added(name, Normal(c)) => D.Observe(v, name, c)
      case Added(_, _) => D.Change(v, [])
  }

  /** A host that replays what was emitted since the start knows the peers, and the
      peers are the from-scratch merge except for those a TTL expiry has dropped. */
  ghost predicate Sound(v: D.View, active: bool, lapsed: set<string>, heard: seq<D.Notice>) {
    && (!active ==> v.peers == map[] && v.serviceNodes == map[] && v.services == [])
    && D.Attuned(v)
    && D.Current(v, lapsed)
    && D.Filed(v.peers)
    && D.Mirrors(D.Replay(map[], heard), v.peers)
  }

  function StaleNodes(peers: D.Peers, now: real, ttl: real): set<string> {
    set id | id in peers && D.Stale(peers[id], now, ttl)
  }

  /** One loss notice for each of the nodes and nothing else. */
  ghost predicate NoticesOf(notices: seq<D.Notice>, nodes: set<string>) {
    && (forall i | 0 <= i < |notices| :: notices[i].Lost? && notices[i].nodeId in nodes)
    && (forall id | id in nodes :: D.Lost(id) in notices)
    && (forall i, j | 0 <= i < j < |notices| :: notices[i] != notices[j])
  }

  /** The peers, lapsed nodes and notices after dropping `gone` from the first three. */
  ghost predicate Expired(was: D.Peers, wasLapsed: set<string>, wasHeard: seq<D.Notice>, gone: set<string>,
      peers: D.Peers, lapsed: set<string>, heard: seq<D.Notice>, emitted: seq<D.Notice>) {
    && peers == was - gone
    && lapsed == wasLapsed + gone
    && heard == wasHeard + emitted
    && NoticesOf(emitted, gone)
  }

  lemma OneMoreExpired(was: D.Peers, wasLapsed: set<string>, wasHeard: seq<D.Notice>, all: set<string>, left: set<string>,
      peers: D.Peers, lapsed: set<string>, heard: seq<D.Notice>, emitted: seq<D.Notice>, id: string)
    requires Expired(was, wasLapsed, wasHeard, all - left, peers, lapsed, heard, emitted)
    requires left <= all <= was.Keys && id in left
    ensures id in peers
    ensures Expired(was, wasLapsed, wasHeard, all - (left - {id}),
                    peers - {id}, lapsed + {id}, heard + [D.Lost(id)], emitted + [D.Lost(id)])
  {
    var gone, more := all - left, emitted + [D.Lost(id)];
    assert all - (left - {id}) == gone + {id};
    forall n | n in gone + {id} ensures D.Lost(n) in more {
      if n == id { assert more[|emitted|] == D.Lost(id); }
    }
    assert was - gone - {id} == was - (gone + {id});
  }

  class NetworkDiscovery {
    const ttl: real
    var active: bool
    var peers: D.Peers
    var serviceNodes: map<string, string>
    var serviceCandidates: D.Services
    ghost var lapsed: set<string>
    ghost var heard: seq<D.Notice>

    ghost function Seen(): D.View
      reads this
    {
      D.View(peers, serviceNodes, serviceCandidates)
    }

    ghost predicate Valid()
      reads this
    {
      Sound(Seen(), active, lapsed, heard)
    }

    constructor (ttl: real)
      ensures Valid() && !active && lapsed == {} && heard == [] && this.ttl == ttl
    {
      this.ttl := ttl;
      active, peers, serviceNodes, serviceCandidates, lapsed, heard := false, map[], map[], [], {}, [];
    }

    method Start()
      requires Valid()
      modifies `active
      ensures Valid() && active
    {
      active := true;
    }

    method Stop()
      requires Valid()
      modifies this
      ensures Valid() && !active
      ensures old(active) ==> lapsed == {} && heard == []
    {
      if !active { return; }
      active := false;
      peers, serviceNodes, serviceCandidates, lapsed, heard := map[], map[], [], {}, [];
    }

    method DropPeer(nodeId: string, emitted: seq<D.Notice>) returns (r: seq<D.Notice>)
      modifies `peers
      ensures var change := D.DropPeer(old(Seen()), nodeId); Seen() == change.view && r == emitted + change.notices
    {
      r := emitted;
      if nodeId in peers {
        peers := peers - {nodeId};
        r := r + [D.Lost(nodeId)];
      }
    }

    method ObservationsOf(nodeId: string) returns (observations: seq<D.Candidate>)
      ensures observations == D.Observations(Seen(), nodeId)
    {
      observations := [];
      for i := 0 to |serviceCandidates|
        invariant observations + D.Attributed(serviceCandidates[i..], serviceNodes, nodeId)
               == D.Attributed(serviceCandidates, serviceNodes, nodeId)
      {
        var (name, candidate) := serviceCandidates[i];
        assert serviceCandidates[i..][1..] == serviceCandidates[i + 1..];
        if name in serviceNodes && serviceNodes[name] == nodeId {
          observations := observations + [candidate];
        }
      }
    }

    method StorePeer(nodeId: string, updated: D.PeerRecord, emitted: seq<D.Notice>) returns (r: seq<D.Notice>)
      modifies `peers
      ensures var change := D.StorePeer(old(Seen()), nodeId, updated); Seen() == change.view && r == emitted + change.notices
    {
      r := emitted;
      if nodeId !in peers {
        peers := peers[nodeId := updated];
        return r + [D.Found(updated.candidate)];
      }
      var existing := peers[nodeId].candidate;
      peers := peers[nodeId := updated];
      if D.Constructed(existing.(lastSeen := updated.candidate.lastSeen)) != updated.candidate {
        r := r + [D.Found(updated.candidate)];
      }
    }

    method RebuildPeer(nodeId: string, emitted: seq<D.Notice>) returns (r: seq<D.Notice>)
      modifies `peers
      ensures var change := D.RebuildPeer(old(Seen()), nodeId); Seen() == change.view && r == emitted + change.notices
    {
      var observations := ObservationsOf(nodeId);
      if observations == [] {
        r := DropPeer(nodeId, emitted);
      } else {
        r := StorePeer(nodeId, D.Merged(observations), emitted);
      }
    }

    method Withdraw(name: string) returns (emitted: seq<D.Notice>)
      modifies `peers, `serviceNodes, `serviceCandidates
      ensures var change := D.Withdraw(old(Seen()), name); Seen() == change.view && emitted == change.notices
    {
      emitted := [];
      var nodeId := if name in serviceNodes then Some(serviceNodes[name]) else None;
      serviceNodes := serviceNodes - {name};
      serviceCandidates := Drop(serviceCandidates, name);
      if nodeId.Some? {
        emitted := RebuildPeer(nodeId.value, emitted);
      }
    }

    method Observe(name: string, candidate: D.Candidate) returns (emitted: seq<D.Notice>)
      modifies `peers, `serviceNodes, `serviceCandidates
      ensures var change := D.Observe(old(Seen()), name, candidate); Seen() == change.view && emitted == change.notices
    {
      emitted := [];
      ghost var v := Seen();
      if name in serviceNodes && serviceNodes[name] != candidate.stableId {
        serviceCandidates := Drop(serviceCandidates, name);
        emitted := RebuildPeer(serviceNodes[name], emitted);
        assert Seen() == D.MoveAway(v, name).view;
        assert emitted == D.MoveAway(v, name).notices;
      }
      ghost var v1 := Seen();
      serviceNodes := serviceNodes[name := candidate.stableId];
      serviceCandidates := Put(serviceCandidates, name, candidate);
      ghost var before := emitted;
      emitted := RebuildPeer(candidate.stableId, emitted);
      assert Seen() == D.StoreService(v1, name, candidate).view;
      assert emitted == before + D.StoreService(v1, name, candidate).notices;
    }

    /** Applies one callback, as Handle says; the node an observation or a withdrawal
        rebuilds is no longer lapsed, and nothing becomes lapsed. */
    method HandleTransportEvent(e: Event) returns (emitted: seq<D.Notice>)
      requires Valid() && FromConstructor(e)
      modifies this
      ensures Valid() && active == old(active)
      ensures var change := Handle(old(Seen()), active, e); Seen() == change.view && emitted == change.notices
      ensures lapsed <= old(lapsed)
      ensures active && e.Added? && e.info.Normal? ==> e.info.candidate.stableId in peers
      ensures heard == old(heard) + emitted
    {
      HandledStaysValid(e);
      ghost var remaining := Remaining(e);
      emitted := Dispatch(e);
      D.ReplayAppend(map[], heard, emitted);
      lapsed, heard := remaining, heard + emitted;
    }

    /** The branches on the kind of the event. */
    method Dispatch(e: Event) returns (emitted: seq<D.Notice>)
      modifies `peers, `serviceNodes, `serviceCandidates
      ensures var change := Handle(old(Seen()), active, e); Seen() == change.view && emitted == change.notices
    {
      emitted := [];
      if active {
        match e {
          case Removed(Some(name)) => emitted := Withdraw(name);
          case Added(name, Normal(candidate)) => emitted := Observe(name, candidate);
          case _ =>
        }
      }
    }

    /** What Discovery proves of an observation or a withdrawal, for Handle. */
    lemma HandledStaysValid(e: Event)
      requires Valid() && FromConstructor(e)
      ensures Remaining(e) <= lapsed
      ensures var change := Handle(Seen(), active, e);
              && D.Attuned(change.view)
              && D.Followed(D.Replay(map[], heard), change)
              && D.Current(change.view, Remaining(e))
              && (active && e.Added? && e.info.Normal? ==> e.info.candidate.stableId in change.view.peers)
    {
      var h := D.Replay(map[], heard);
      if active && e.Removed? && e.named.Some? {
        D.WithdrawKeepsCurrent(Seen(), lapsed, e.named.value);
        D.WithdrawMirrors(h, Seen(), e.named.value);
      } else if active && e.Added? && e.info.Normal? {
        D.ObserveKeepsCurrent(Seen(), lapsed, e.name, e.info.candidate);
        D.ObserveMirrors(h, Seen(), e.name, e.info.candidate);
        D.ObservedIsPresent(Seen(), e.name, e.info.candidate);
      }
    }

    ghost function Remaining(e: Event): set<string>
      reads this
    {
      if !active then lapsed
      else match e
        case Removed(Some(name)) => if name in serviceNodes then lapsed - {serviceNodes[name]} else lapsed
        case Added(name, Normal(c)) => lapsed - D.Rebuilt(Seen(), name, c)
        case _ => lapsed
    }

    /** Drops one peer because of its age. */
    method Expire(nodeId: string, emitted: seq<D.Notice>) returns (r: seq<D.Notice>)
      requires Valid() && nodeId in peers
      modifies `peers, `lapsed, `heard
      ensures Valid()
      ensures peers == old(peers) - {nodeId} && lapsed == old(lapsed) + {nodeId}
      ensures r == emitted + [D.Lost(nodeId)] && heard == old(heard) + [D.Lost(nodeId)]
    {
      D.ExpiryKeepsCurrent(Seen(), lapsed, nodeId);
      D.ReplayAppend(map[], heard, [D.Lost(nodeId)]);
      D.ReplayOne(D.Replay(map[], heard), D.Lost(nodeId));
      lapsed, heard := lapsed + {nodeId}, heard + [D.Lost(nodeId)];
      r := DropPeer(nodeId, emitted);
    }

    /** Drops exactly the stale peers, with one notice each. The observations stay, so
        the peers are no longer those from scratch until the node is observed again. */
    method ExpireStale(now: real) returns (emitted: seq<D.Notice>)
      requires Valid()
      modifies `peers, `lapsed, `heard
      ensures Valid()
      ensures Expired(old(peers), old(lapsed), old(heard), StaleNodes(old(peers), now, ttl), peers, lapsed, heard, emitted)
    {
      emitted := [];
      var stale := StaleNodes(peers, now, ttl);
      ghost var all := stale;
      while stale != {}
        invariant Valid() && stale <= all
        invariant Expired(old(peers), old(lapsed), old(heard), all - stale, peers, lapsed, heard, emitted)
        decreases |stale|
      {
        var id :| id in stale;
        OneMoreExpired(old(peers), old(lapsed), old(heard), all, stale, peers, lapsed, heard, emitted, id);
        emitted := Expire(id, emitted);
        stale := stale - {id};
      }
      assert all - stale == all;
    }

    /** Without expiries since the start (and after the lapsed nodes are observed
        again) the peers are exactly the merge from scratch. */
    lemma NothingLapsed()
      requires Valid() && lapsed == {}
      ensures peers == D.FromScratch(serviceCandidates)
    {
      D.CurrentIsFromScratch(Seen(), {});
    }
  }
}
