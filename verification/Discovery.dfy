/** discovery/network.py: the incrementally maintained view of discovered peers and
    the events from which a host rebuilds it. */
module Discovery {
  import opened Dicts
  import opened Wrappers

  datatype Source = Configured | Ipv4 | Ipv6 | Vpn | ByDiscovery

  /** An address and the source that is inferred from its text. */
  datatype Address = Address(text: string, inferred: Source)

  /** `details` stands for the validation, priority and times, empty for the defaults. */
  datatype Endpoint = Endpoint(address: Address, port: int, source: Source, details: seq<string>)

  type Key = (Address, int)

  function KeyOf(e: Endpoint): Key {
    (e.address, e.port)
  }

  /** `details` stands for the fields that are only ever copied. */
  datatype Candidate = Candidate(
    stableId: string,
    addresses: seq<Address>,
    port: Option<int>,
    endpoints: seq<Endpoint>,
    lastSeen: real,
    details: seq<string>
  )

  /** What the candidate constructor (and so `replace`) makes of its fields. */
  function Constructed(c: Candidate): Candidate {
    if c.endpoints != [] || c.port.None? then c
    else
      c.(endpoints := seq(|c.addresses|, i requires 0 <= i < |c.addresses| =>
           Endpoint(c.addresses[i], c.port.value, c.addresses[i].inferred, [])))
  }

  datatype PeerRecord = PeerRecord(candidate: Candidate, lastSeen: real)

  type Peers = map<string, PeerRecord>

  datatype Notice = Found(candidate: Candidate) | Lost(nodeId: string)

  /** The service candidates in dict order. */
  type Services = Dict<string, Candidate>

  datatype View = View(peers: Peers, serviceNodes: map<string, string>, services: Services)

  /** A view after an event, and the notices to emit. */
  datatype Change = Change(view: View, notices: seq<Notice>)

  // ------------------------------------------------------------------
  // Merging the observations of one node
  // ------------------------------------------------------------------

  function Distinct<T(==)>(s: seq<T>): (r: seq<T>)
    ensures forall x | x in s :: x in r
    ensures forall x | x in r :: x in s
    ensures forall i, j | 0 <= i < j < |r| :: r[i] != r[j]
  {
    if s == [] then []
    else
      var rest := Distinct(s[..|s| - 1]);
      if s[|s| - 1] in rest then rest else rest + [s[|s| - 1]]
  }

  /** First occurrences stay in place when more follows. */
  lemma {:induction false} DistinctPrefix<T>(s: seq<T>, k: nat)
    requires k <= |s|
    ensures Distinct(s[..k]) <= Distinct(s)
  {
    if k == |s| {
      assert s[..k] == s;
    } else {
      DistinctPrefix(s[..|s| - 1], k);
      assert s[..|s| - 1][..k] == s[..k];
    }
  }

  /** `max` by `last_seen`: the first of the latest observations. */
  function Latest(observations: seq<Candidate>): (r: Candidate)
    requires observations != []
    ensures r in observations && forall o | o in observations :: o.lastSeen <= r.lastSeen
    ensures exists i :: 0 <= i < |observations| && observations[i] == r
                        && forall j | 0 <= j < i :: observations[j].lastSeen < r.lastSeen
  {
    var last := observations[|observations| - 1];
    if |observations| == 1 then last
    else
      var r := Latest(observations[..|observations| - 1]);
      if r.lastSeen < last.lastSeen then last else r
  }

  function AllAddresses(observations: seq<Candidate>): seq<Address> {
    if observations == [] then [] else observations[0].addresses + AllAddresses(observations[1..])
  }

  function AllEndpoints(observations: seq<Candidate>): seq<Endpoint> {
    if observations == [] then [] else observations[0].endpoints + AllEndpoints(observations[1..])
  }

  /** `{endpoint.key: endpoint for endpoint in endpoints}`. */
  function ByKey(endpoints: seq<Endpoint>): Dict<Key, Endpoint> {
    if endpoints == [] then []
    else Put(ByKey(endpoints[..|endpoints| - 1]), KeyOf(endpoints[|endpoints| - 1]), endpoints[|endpoints| - 1])
  }

  /** The endpoints of which no later one has the key. */
  predicate LastOfKey(endpoints: seq<Endpoint>, e: Endpoint) {
    exists i :: 0 <= i < |endpoints| && endpoints[i] == e && forall j | i < j < |endpoints| :: KeyOf(endpoints[j]) != KeyOf(e)
  }

  function KeysOf(endpoints: seq<Endpoint>): seq<Key> {
    seq(|endpoints|, i requires 0 <= i < |endpoints| => KeyOf(endpoints[i]))
  }

  /** The last endpoint of each key. */
  lemma {:induction false} ByKeyMeans(endpoints: seq<Endpoint>)
    ensures DistinctKeys(ByKey(endpoints))
    ensures forall item | item in ByKey(endpoints) :: item.0 == KeyOf(item.1) && LastOfKey(endpoints, item.1)
  {
    if endpoints != [] {
      var before, last := endpoints[..|endpoints| - 1], endpoints[|endpoints| - 1];
      ByKeyMeans(before);
      PutEffect(ByKey(before), KeyOf(last), last);
      assert endpoints == before + [last];
      forall item | item in ByKey(endpoints) ensures item.0 == KeyOf(item.1) && LastOfKey(endpoints, item.1) {
        if item.0 != KeyOf(last) { StillLast(before, last, item.1); }
      }
    }
  }

  /** In the place of the first. */
  lemma {:induction false} ByKeyOrder(endpoints: seq<Endpoint>)
    ensures KeysOf(Values(ByKey(endpoints))) == Distinct(KeysOf(endpoints))
  {
    if endpoints != [] {
      var before, last := endpoints[..|endpoints| - 1], endpoints[|endpoints| - 1];
      ByKeyOrder(before);
      ByKeyMeans(before);
      assert KeysOf(endpoints)[..|endpoints| - 1] == KeysOf(before);
      PutKeys(ByKey(before), last);
    }
  }

  lemma StillLast(before: seq<Endpoint>, last: Endpoint, e: Endpoint)
    requires LastOfKey(before, e) && KeyOf(e) != KeyOf(last)
    ensures LastOfKey(before + [last], e)
  {
    var i :| 0 <= i < |before| && before[i] == e && forall j | i < j < |before| :: KeyOf(before[j]) != KeyOf(e);
    assert (before + [last])[i] == e;
  }

  lemma {:induction false} PutKeys(d: Dict<Key, Endpoint>, e: Endpoint)
    requires DistinctKeys(d) && forall item | item in d :: item.0 == KeyOf(item.1)
    ensures var keys := KeysOf(Values(d));
            KeysOf(Values(Put(d, KeyOf(e), e))) == if KeyOf(e) in keys then keys else keys + [KeyOf(e)]
  {
    var keys := KeysOf(Values(d));
    assert forall i | 0 <= i < |d| :: d[i] in d && keys[i] == d[i].0;
    if HasKey(d, KeyOf(e)) {
      PutInPlace(d, KeyOf(e), e);
    } else {
      PutNew(d, KeyOf(e), e);
    }
  }

  /** An existing key keeps its place. */
  lemma {:induction false} PutInPlace(d: Dict<Key, Endpoint>, key: Key, e: Endpoint)
    requires HasKey(d, key)
    ensures var r := Put(d, key, e);
            |r| == |d| && forall i | 0 <= i < |d| :: r[i].0 == d[i].0 && (r[i].1 == d[i].1 || (r[i].0 == key && r[i].1 == e))
  {
    if d[0].0 != key {
      HasKeyCons(d, key);
      PutInPlace(d[1..], key, e);
    }
  }

  function Merged(observations: seq<Candidate>): PeerRecord
    requires observations != []
  {
    var latest := Latest(observations);
    PeerRecord(
      Constructed(latest.(addresses := Distinct(AllAddresses(observations)), endpoints := Values(ByKey(AllEndpoints(observations))))),
      latest.lastSeen)
  }

  lemma {:induction false} AllOfEach(observations: seq<Candidate>)
    ensures forall a :: a in AllAddresses(observations) <==> exists o :: o in observations && a in o.addresses
    ensures forall e :: e in AllEndpoints(observations) <==> exists o :: o in observations && e in o.endpoints
  {
    if observations != [] {
      AllOfEach(observations[1..]);
      assert forall o :: o in observations <==> o == observations[0] || o in observations[1..];
    }
  }

  /** The merged record speaks for all observations: the identity and time of a latest one,
      the addresses of any of them, each once, and for every endpoint key of any of them
      the endpoint that was observed last. */
  lemma MergedSpeaksForAll(observations: seq<Candidate>)
    requires observations != []
    ensures var r := Merged(observations);
            && (exists o :: o in observations && o.stableId == r.candidate.stableId && o.lastSeen == r.lastSeen
                            && o.port == r.candidate.port && o.details == r.candidate.details)
            && r.candidate.lastSeen == r.lastSeen && (forall o | o in observations :: o.lastSeen <= r.lastSeen)
            && (forall a :: a in r.candidate.addresses <==> exists o :: o in observations && a in o.addresses)
            && (forall i, j | 0 <= i < j < |r.candidate.addresses| :: r.candidate.addresses[i] != r.candidate.addresses[j])
  {
    AllOfEach(observations);
  }

  lemma MergedEndpoints(observations: seq<Candidate>)
    requires observations != [] && AllEndpoints(observations) != []
    ensures var all, endpoints := AllEndpoints(observations), Merged(observations).candidate.endpoints;
            && (forall e | e in endpoints :: LastOfKey(all, e) && exists o :: o in observations && e in o.endpoints)
            && (forall o, e | o in observations && e in o.endpoints :: KeyOf(e) in KeysOf(endpoints))
            && KeysOf(endpoints) == Distinct(KeysOf(all))
  {
    var all := AllEndpoints(observations);
    var endpoints := Values(ByKey(all));
    AllOfEach(observations);
    ByKeyMeans(all);
    ByKeyOrder(all);
    assert forall i | 0 <= i < |all| :: KeysOf(all)[i] == KeyOf(all[i]);
    assert KeyOf(all[0]) in KeysOf(all);
    assert KeyOf(all[0]) in KeysOf(endpoints);
    forall e | e in endpoints ensures LastOfKey(all, e) && e in all {
      var i :| 0 <= i < |endpoints| && endpoints[i] == e;
      assert ByKey(all)[i] in ByKey(all);
    }
    forall e | e in all ensures KeyOf(e) in KeysOf(endpoints) {
      assert KeyOf(e) in KeysOf(all);
    }
  }

  /** The observations that the service dicts attribute to a node. */
  function Observations(v: View, nodeId: string): seq<Candidate> {
    Attributed(v.services, v.serviceNodes, nodeId)
  }

  function Attributed(s: Services, nodes: map<string, string>, nodeId: string): seq<Candidate> {
    if s == [] then []
    else (if s[0].0 in nodes && nodes[s[0].0] == nodeId then [s[0].1] else []) + Attributed(s[1..], nodes, nodeId)
  }

  // ------------------------------------------------------------------
  // The incremental view
  // ------------------------------------------------------------------

  function DropPeer(v: View, nodeId: string): Change {
    if nodeId in v.peers then Change(v.(peers := v.peers - {nodeId}), [Lost(nodeId)]) else Change(v, [])
  }

  /** Whether the host must hear about the merged record: it is new, or differs in more than `last_seen`. */
  predicate Changed(peers: Peers, nodeId: string, updated: PeerRecord) {
    nodeId in peers ==>
      Constructed(peers[nodeId].candidate.(lastSeen := updated.candidate.lastSeen)) != updated.candidate
  }

  function StorePeer(v: View, nodeId: string, updated: PeerRecord): Change {
    Change(v.(peers := v.peers[nodeId := updated]), if Changed(v.peers, nodeId, updated) then [Found(updated.candidate)] else [])
  }

  function RebuildPeer(v: View, nodeId: string): Change {
    var observations := Observations(v, nodeId);
    if observations == [] then DropPeer(v, nodeId) else StorePeer(v, nodeId, Merged(observations))
  }

  /** The service has moved: its former node loses the observation. */
  function MoveAway(v: View, name: string): Change
    requires name in v.serviceNodes
  {
    RebuildPeer(v.(services := Drop(v.services, name)), v.serviceNodes[name])
  }

  function StoreService(v: View, name: string, c: Candidate): Change {
    RebuildPeer(v.(serviceNodes := v.serviceNodes[name := c.stableId], services := Put(v.services, name, c)), c.stableId)
  }

  function Observe(v: View, name: string, c: Candidate): Change {
    if name in v.serviceNodes && v.serviceNodes[name] != c.stableId then
      var away := MoveAway(v, name);
      var stored := StoreService(away.view, name, c);
      Change(stored.view, away.notices + stored.notices)
    else StoreService(v, name, c)
  }

  function Withdraw(v: View, name: string): Change {
    var v1 := v.(serviceNodes := v.serviceNodes - {name}, services := Drop(v.services, name));
    if name in v.serviceNodes then RebuildPeer(v1, v.serviceNodes[name]) else Change(v1, [])
  }

  predicate Stale(r: PeerRecord, now: real, ttl: real) {
    now - r.lastSeen > ttl
  }

  // ------------------------------------------------------------------
  // From scratch
  // ------------------------------------------------------------------

  /** The observations of a node, read off the candidates alone. */
  function Group(s: Services, nodeId: string): seq<Candidate> {
    if s == [] then []
    else (if s[0].1.stableId == nodeId then [s[0].1] else []) + Group(s[1..], nodeId)
  }

  function NodeIds(s: Services): set<string> {
    set i | 0 <= i < |s| :: s[i].1.stableId
  }

  /** Group the service candidates by node and merge each group. */
  function FromScratch(s: Services): Peers {
    map nodeId | nodeId in NodeIds(s) && Group(s, nodeId) != [] :: Merged(Group(s, nodeId))
  }

  /** The dicts agree about which services there are and whose they are. */
  ghost predicate Attuned(v: View) {
    && DistinctKeys(v.services)
    && (forall name :: HasKey(v.services, name) <==> name in v.serviceNodes)
    && (forall i | 0 <= i < |v.services| :: v.serviceNodes[v.services[i].0] == v.services[i].1.stableId)
    && (forall i | 0 <= i < |v.services| :: Constructed(v.services[i].1) == v.services[i].1)
  }

  /** The peer of one node is the merge of its group, or absent when it has none or has lapsed. */
  ghost predicate PeerCurrent(v: View, lapsed: set<string>, id: string) {
    var group := Group(v.services, id);
    if id in lapsed || group == [] then id !in v.peers
    else id in v.peers && v.peers[id] == Merged(group)
  }

  /** The peers are those from scratch, except for `lapsed` ones that a TTL expiry
      dropped and no later observation of the node has brought back. */
  ghost predicate Current(v: View, lapsed: set<string>) {
    forall id :: PeerCurrent(v, lapsed, id)
  }

  /** The same, but for one node whose services have just changed. */
  ghost predicate CurrentBut(v: View, lapsed: set<string>, pending: string) {
    forall id | id != pending :: PeerCurrent(v, lapsed, id)
  }

  // ------------------------------------------------------------------
  // Groups under dict operations
  // ------------------------------------------------------------------

  lemma {:induction false} GroupNodes(s: Services, nodeId: string)
    ensures nodeId in NodeIds(s) <==> Group(s, nodeId) != []
  {
    if s != [] {
      GroupNodes(s[1..], nodeId);
      assert forall i | 0 <= i < |s[1..]| :: s[1..][i] == s[i + 1];
      if nodeId in NodeIds(s) && s[0].1.stableId != nodeId {
        var i :| 0 <= i < |s| && s[i].1.stableId == nodeId;
        assert s[1..][i - 1].1.stableId == nodeId;
      }
    }
  }

  /** Storing under a name touches no group but those of its old and new node. */
  lemma {:induction false} GroupPut(s: Services, name: string, c: Candidate, id: string)
    requires id != c.stableId && forall i | 0 <= i < |s| && s[i].0 == name :: s[i].1.stableId != id
    ensures Group(Put(s, name, c), id) == Group(s, id)
  {
    if s == [] {
      assert Group([(name, c)][1..], id) == [];
    } else {
      assert forall i | 0 <= i < |s[1..]| :: s[1..][i] == s[i + 1];
      assert Put(s, name, c)[1..] == if s[0].0 == name then s[1..] else Put(s[1..], name, c);
      if s[0].0 != name {
        GroupPut(s[1..], name, c, id);
      }
    }
  }

  /** Removing a name touches no group but that of its node. */
  lemma {:induction false} GroupDrop(s: Services, name: string, id: string)
    requires forall i | 0 <= i < |s| && s[i].0 == name :: s[i].1.stableId != id
    ensures Group(Drop(s, name), id) == Group(s, id)
  {
    if s != [] {
      assert forall i | 0 <= i < |s[1..]| :: s[1..][i] == s[i + 1];
      if s[0].0 != name {
        assert Drop(s, name)[1..] == Drop(s[1..], name);
      } else {
        assert Drop(s, name) == Drop(s[1..], name);
      }
      GroupDrop(s[1..], name, id);
    }
  }

  // ------------------------------------------------------------------
  // One event
  // ------------------------------------------------------------------

  lemma {:induction false} AttributedIsGroup(s: Services, nodes: map<string, string>, nodeId: string)
    requires forall i | 0 <= i < |s| :: s[i].0 in nodes && nodes[s[i].0] == s[i].1.stableId
    ensures Attributed(s, nodes, nodeId) == Group(s, nodeId)
  {
    if s != [] {
      assert forall i | 0 <= i < |s[1..]| :: s[1..][i] == s[i + 1];
      AttributedIsGroup(s[1..], nodes, nodeId);
    }
  }

  lemma ScratchPeer(s: Services, id: string)
    ensures if Group(s, id) == [] then id !in FromScratch(s) else id in FromScratch(s) && FromScratch(s)[id] == Merged(Group(s, id))
  {
    GroupNodes(s, id);
  }

  lemma SamePeers(a: Peers, b: Peers)
    requires forall id: string :: id in a <==> id in b
    requires forall id | id in a && id in b :: a[id] == b[id]
    ensures a == b
  {
  }

  /** Incremental equals recomputation. */
  lemma CurrentIsFromScratch(v: View, lapsed: set<string>)
    requires Current(v, lapsed)
    ensures v.peers == FromScratch(v.services) - lapsed
  {
    var scratch := FromScratch(v.services) - lapsed;
    forall id: string ensures id in v.peers <==> id in scratch {
      assert PeerCurrent(v, lapsed, id);
      ScratchPeer(v.services, id);
    }
    forall id | id in v.peers && id in scratch ensures v.peers[id] == scratch[id] {
      assert PeerCurrent(v, lapsed, id);
      ScratchPeer(v.services, id);
    }
    SamePeers(v.peers, scratch);
  }

  lemma RebuildMakesCurrent(v: View, lapsed: set<string>, nodeId: string)
    requires CurrentBut(v, lapsed, nodeId) && Observations(v, nodeId) == Group(v.services, nodeId)
    ensures Current(RebuildPeer(v, nodeId).view, lapsed - {nodeId})
  {
    var v' := RebuildPeer(v, nodeId).view;
    forall id ensures PeerCurrent(v', lapsed - {nodeId}, id) {
      if id != nodeId {
        assert PeerCurrent(v, lapsed, id);
      }
    }
  }

  /** Changing the services of one node only makes that node pending. */
  lemma ChangedGroupIsPending(v: View, lapsed: set<string>, services: Services, nodes: map<string, string>, pending: string)
    requires Current(v, lapsed)
    requires forall id | id != pending :: Group(services, id) == Group(v.services, id)
    ensures CurrentBut(v.(services := services, serviceNodes := nodes), lapsed, pending)
  {
    forall id | id != pending ensures PeerCurrent(v.(services := services, serviceNodes := nodes), lapsed, id) {
      assert PeerCurrent(v, lapsed, id);
    }
  }

  lemma ServicesInMap(v: View)
    requires Attuned(v)
    ensures forall i | 0 <= i < |v.services| :: v.services[i].0 in v.serviceNodes
  {
    forall i | 0 <= i < |v.services| ensures v.services[i].0 in v.serviceNodes {
      assert HasKey(v.services, v.services[i].0);
    }
  }

  /** What is left when the service `name` is taken out of the candidates. */
  lemma DroppedFacts(v: View, name: string)
    requires Attuned(v) && name in v.serviceNodes
    ensures var rest := Drop(v.services, name);
            && DistinctKeys(rest)
            && (forall n :: HasKey(rest, n) <==> n in v.serviceNodes && n != name)
            && (forall i | 0 <= i < |rest| ::
                 && rest[i].0 != name && rest[i].0 in v.serviceNodes
                 && v.serviceNodes[rest[i].0] == rest[i].1.stableId && Constructed(rest[i].1) == rest[i].1)
            && (forall id | id != v.serviceNodes[name] :: Group(rest, id) == Group(v.services, id))
  {
    var rest := Drop(v.services, name);
    DropEffect(v.services, name);
    ServicesInMap(v);
    forall i | 0 <= i < |rest|
      ensures rest[i].0 != name && rest[i].0 in v.serviceNodes
      ensures v.serviceNodes[rest[i].0] == rest[i].1.stableId && Constructed(rest[i].1) == rest[i].1
    {
      assert rest[i] in rest;
    }
    forall id | id != v.serviceNodes[name] ensures Group(rest, id) == Group(v.services, id) {
      GroupDrop(v.services, name, id);
    }
  }

  /** Taking the service `name` out of the candidates, whether or not it stays attributed. */
  lemma RemovedStaysCurrent(v: View, lapsed: set<string>, name: string, nodes: map<string, string>)
    requires Attuned(v) && Current(v, lapsed) && name in v.serviceNodes
    requires forall n | n in v.serviceNodes && n != name :: n in nodes && nodes[n] == v.serviceNodes[n]
    ensures var v1 := v.(serviceNodes := nodes, services := Drop(v.services, name));
            Current(RebuildPeer(v1, v.serviceNodes[name]).view, lapsed - {v.serviceNodes[name]})
  {
    var node, services := v.serviceNodes[name], Drop(v.services, name);
    DroppedFacts(v, name);
    AttributedIsGroup(services, nodes, node);
    ChangedGroupIsPending(v, lapsed, services, nodes, node);
    RebuildMakesCurrent(v.(serviceNodes := nodes, services := services), lapsed, node);
  }

  lemma RebuildKeepsServices(v: View, nodeId: string)
    ensures RebuildPeer(v, nodeId).view == v.(peers := RebuildPeer(v, nodeId).view.peers)
  {
  }

  lemma WithdrawnStaysAttuned(v: View, name: string)
    requires Attuned(v) && name in v.serviceNodes
    ensures Attuned(v.(serviceNodes := v.serviceNodes - {name}, services := Drop(v.services, name)))
  {
    DroppedFacts(v, name);
  }

  lemma WithdrawKeepsCurrent(v: View, lapsed: set<string>, name: string)
    requires Attuned(v) && Current(v, lapsed)
    ensures var v' := Withdraw(v, name).view;
            && Attuned(v')
            && Current(v', if name in v.serviceNodes then lapsed - {v.serviceNodes[name]} else lapsed)
  {
    if name in v.serviceNodes {
      var v1 := v.(serviceNodes := v.serviceNodes - {name}, services := Drop(v.services, name));
      WithdrawnStaysAttuned(v, name);
      RebuildKeepsServices(v1, v.serviceNodes[name]);
      RemovedStaysCurrent(v, lapsed, name, v.serviceNodes - {name});
    } else {
      assert !HasKey(v.services, name);
      DropAbsent(v.services, name);
      assert v.serviceNodes - {name} == v.serviceNodes;
    }
  }

  /** Taking a service away from the node it was attributed to. */
  lemma MoveAwayKeepsCurrent(v: View, lapsed: set<string>, name: string)
    requires Attuned(v) && Current(v, lapsed) && name in v.serviceNodes
    ensures var v1 := MoveAway(v, name).view;
            Current(v1, lapsed - {v.serviceNodes[name]}) && v1.serviceNodes == v.serviceNodes && v1.services == Drop(v.services, name)
  {
    RebuildKeepsServices(v.(services := Drop(v.services, name)), v.serviceNodes[name]);
    RemovedStaysCurrent(v, lapsed, name, v.serviceNodes);
  }

  /** The name of the service is new, or stays with the same node. */
  ghost predicate Storable(v: View, name: string, c: Candidate) {
    && DistinctKeys(v.services)
    && (forall n :: HasKey(v.services, n) || n == name <==> n in v.serviceNodes || n == name)
    && (forall i | 0 <= i < |v.services| ::
          && v.services[i].0 in v.serviceNodes && v.serviceNodes[v.services[i].0] == v.services[i].1.stableId
          && (v.services[i].0 == name ==> v.services[i].1.stableId == c.stableId)
          && Constructed(v.services[i].1) == v.services[i].1)
  }

  lemma AttunedIsStorable(v: View, name: string, c: Candidate)
    requires Attuned(v) && (name in v.serviceNodes ==> v.serviceNodes[name] == c.stableId)
    ensures Storable(v, name, c)
  {
    ServicesInMap(v);
  }

  lemma MovedIsStorable(v: View, name: string, c: Candidate)
    requires Attuned(v) && name in v.serviceNodes
    ensures Storable(MoveAway(v, name).view, name, c)
  {
    RebuildKeepsServices(v.(services := Drop(v.services, name)), v.serviceNodes[name]);
    DroppedFacts(v, name);
  }

  lemma StoreKeepsCurrent(v: View, lapsed: set<string>, name: string, c: Candidate)
    requires Storable(v, name, c) && Current(v, lapsed) && Constructed(c) == c
    ensures Attuned(StoreService(v, name, c).view) && Current(StoreService(v, name, c).view, lapsed - {c.stableId})
  {
    var nodes, services := v.serviceNodes[name := c.stableId], Put(v.services, name, c);
    PutEffect(v.services, name, c);
    forall i | 0 <= i < |services|
      ensures services[i].0 in nodes && nodes[services[i].0] == services[i].1.stableId
      ensures Constructed(services[i].1) == services[i].1
    {
      if services[i].0 != name { assert services[i] in v.services; }
    }
    forall id | id != c.stableId ensures Group(services, id) == Group(v.services, id) {
      GroupPut(v.services, name, c, id);
    }
    ChangedGroupIsPending(v, lapsed, services, nodes, c.stableId);
    AttributedIsGroup(services, nodes, c.stableId);
    RebuildMakesCurrent(v.(serviceNodes := nodes, services := services), lapsed, c.stableId);
  }

  /** The nodes whose peers an observation rebuilds. */
  function Rebuilt(v: View, name: string, c: Candidate): set<string> {
    {c.stableId} + if name in v.serviceNodes then {v.serviceNodes[name]} else {}
  }

  lemma MovedKeepsCurrent(v: View, lapsed: set<string>, name: string, c: Candidate)
    requires Attuned(v) && Current(v, lapsed) && Constructed(c) == c && name in v.serviceNodes
    ensures var stored := StoreService(MoveAway(v, name).view, name, c).view;
            Attuned(stored) && Current(stored, lapsed - {v.serviceNodes[name]} - {c.stableId})
  {
    MoveAwayKeepsCurrent(v, lapsed, name);
    MovedIsStorable(v, name, c);
    StoreKeepsCurrent(MoveAway(v, name).view, lapsed - {v.serviceNodes[name]}, name, c);
  }

  lemma ObserveKeepsCurrent(v: View, lapsed: set<string>, name: string, c: Candidate)
    requires Attuned(v) && Current(v, lapsed) && Constructed(c) == c
    ensures Attuned(Observe(v, name, c).view)
    ensures Current(Observe(v, name, c).view, lapsed - Rebuilt(v, name, c))
  {
    if name in v.serviceNodes && v.serviceNodes[name] != c.stableId {
      MovedKeepsCurrent(v, lapsed, name, c);
      assert lapsed - {v.serviceNodes[name]} - {c.stableId} == lapsed - Rebuilt(v, name, c);
    } else {
      AttunedIsStorable(v, name, c);
      StoreKeepsCurrent(v, lapsed, name, c);
      assert lapsed - {c.stableId} == lapsed - Rebuilt(v, name, c);
    }
  }

  /** A node that has just been observed has a peer. */
  lemma ObservedIsPresent(v: View, name: string, c: Candidate)
    ensures c.stableId in Observe(v, name, c).view.peers
  {
    var services := if name in v.serviceNodes && v.serviceNodes[name] != c.stableId then MoveAway(v, name).view.services else v.services;
    PutStores(services, v.serviceNodes[name := c.stableId], name, c);
  }

  lemma {:induction false} PutStores(s: Services, nodes: map<string, string>, name: string, c: Candidate)
    requires name in nodes && nodes[name] == c.stableId
    ensures c in Attributed(Put(s, name, c), nodes, c.stableId)
  {
    if s != [] && s[0].0 != name {
      assert Put(s, name, c)[1..] == Put(s[1..], name, c);
      PutStores(s[1..], nodes, name, c);
    }
  }

  /** Dropping the peer of a node leaves the view current with that node lapsed. */
  lemma ExpiryKeepsCurrent(v: View, lapsed: set<string>, nodeId: string)
    requires Attuned(v) && Current(v, lapsed)
    ensures Attuned(DropPeer(v, nodeId).view) && Current(DropPeer(v, nodeId).view, lapsed + {nodeId})
  {
    var v' := DropPeer(v, nodeId).view;
    forall id ensures PeerCurrent(v', lapsed + {nodeId}, id) {
      assert PeerCurrent(v, lapsed, id);
    }
  }

  // ------------------------------------------------------------------
  // The host that replays the notices
  // ------------------------------------------------------------------

  type Host = map<string, Candidate>

  function Hear(h: Host, n: Notice): Host {
    match n
    case Found(c) => h[c.stableId := c]
    case Lost(nodeId) => h - {nodeId}
  }

  function Replay(h: Host, notices: seq<Notice>): Host {
    if notices == [] then h else Hear(Replay(h, notices[..|notices| - 1]), notices[|notices| - 1])
  }

  lemma {:induction false} ReplayAppend(h: Host, a: seq<Notice>, b: seq<Notice>)
    ensures Replay(h, a + b) == Replay(Replay(h, a), b)
  {
    if b == [] {
      assert a + b == a;
    } else {
      assert (a + b)[..|a + b| - 1] == a + b[..|b| - 1];
      ReplayAppend(h, a, b[..|b| - 1]);
    }
  }

  function Timeless(c: Candidate): Candidate {
    c.(lastSeen := 0.0)
  }

  /** Peer records are filed under their own node and hold constructed candidates. */
  ghost predicate Filed(peers: Peers) {
    forall id | id in peers :: peers[id].candidate.stableId == id && Constructed(peers[id].candidate) == peers[id].candidate
  }

  /** The host knows the same peers, up to when they were last seen. */
  ghost predicate Mirrors(h: Host, peers: Peers) {
    h.Keys == peers.Keys && forall id | id in h :: Timeless(h[id]) == Timeless(peers[id].candidate)
  }

  lemma ConstructedTwice(c: Candidate)
    ensures Constructed(Constructed(c)) == Constructed(c)
  {
    if c.endpoints == [] && c.port.Some? && c.addresses == [] {
      assert Constructed(c) == c;
    }
  }

  /** A change whose notices take a mirroring host to a mirroring host. */
  ghost predicate Followed(h: Host, change: Change) {
    Mirrors(Replay(h, change.notices), change.view.peers) && Filed(change.view.peers)
  }

  lemma ReplayOne(h: Host, n: Notice)
    ensures Replay(h, [n]) == Hear(h, n)
  {
    assert [n][..0] == [];
  }

  lemma StorePeerFollowed(h: Host, v: View, nodeId: string, updated: PeerRecord)
    requires Mirrors(h, v.peers) && Filed(v.peers)
    requires updated.candidate.stableId == nodeId && Constructed(updated.candidate) == updated.candidate
    ensures Followed(h, StorePeer(v, nodeId, updated))
  {
    ReplayOne(h, Found(updated.candidate));
    if nodeId in v.peers && !Changed(v.peers, nodeId, updated) {
      var refreshed := v.peers[nodeId].candidate.(lastSeen := updated.candidate.lastSeen);
      assert Constructed(refreshed) == refreshed;
      assert Timeless(refreshed) == Timeless(v.peers[nodeId].candidate);
    }
  }

  lemma RebuildMirrors(h: Host, v: View, nodeId: string)
    requires Mirrors(h, v.peers) && Filed(v.peers)
    requires forall c | c in Observations(v, nodeId) :: c.stableId == nodeId
    ensures Followed(h, RebuildPeer(v, nodeId))
  {
    var observations := Observations(v, nodeId);
    if observations == [] {
      ReplayOne(h, Lost(nodeId));
    } else {
      ConstructedTwice(Latest(observations).(addresses := Distinct(AllAddresses(observations)),
                                             endpoints := Values(ByKey(AllEndpoints(observations)))));
      StorePeerFollowed(h, v, nodeId, Merged(observations));
    }
  }

  lemma {:induction false} AttributedMembers(s: Services, nodes: map<string, string>, nodeId: string)
    requires forall i | 0 <= i < |s| && s[i].0 in nodes :: nodes[s[i].0] == s[i].1.stableId
    ensures forall c | c in Attributed(s, nodes, nodeId) :: c.stableId == nodeId
  {
    if s != [] {
      assert forall i | 0 <= i < |s[1..]| :: s[1..][i] == s[i + 1];
      AttributedMembers(s[1..], nodes, nodeId);
    }
  }

  lemma WithdrawMirrors(h: Host, v: View, name: string)
    requires Attuned(v) && Mirrors(h, v.peers) && Filed(v.peers)
    ensures Followed(h, Withdraw(v, name))
  {
    if name in v.serviceNodes {
      DroppedFacts(v, name);
      var nodes, services := v.serviceNodes - {name}, Drop(v.services, name);
      AttributedMembers(services, nodes, v.serviceNodes[name]);
      RebuildMirrors(h, v.(serviceNodes := nodes, services := services), v.serviceNodes[name]);
    }
  }

  lemma MoveAwayMirrors(h: Host, v: View, name: string)
    requires Attuned(v) && Mirrors(h, v.peers) && Filed(v.peers) && name in v.serviceNodes
    ensures Followed(h, MoveAway(v, name))
  {
    DroppedFacts(v, name);
    AttributedMembers(Drop(v.services, name), v.serviceNodes, v.serviceNodes[name]);
    RebuildMirrors(h, v.(services := Drop(v.services, name)), v.serviceNodes[name]);
  }

  lemma StoreMirrors(h: Host, v: View, name: string, c: Candidate)
    requires Mirrors(h, v.peers) && Filed(v.peers) && DistinctKeys(v.services)
    requires forall i | 0 <= i < |v.services| && v.services[i].0 != name ::
               v.services[i].0 in v.serviceNodes && v.serviceNodes[v.services[i].0] == v.services[i].1.stableId
    ensures Followed(h, StoreService(v, name, c))
  {
    var nodes, services := v.serviceNodes[name := c.stableId], Put(v.services, name, c);
    PutEffect(v.services, name, c);
    forall i | 0 <= i < |services| && services[i].0 in nodes ensures nodes[services[i].0] == services[i].1.stableId {
      if services[i].0 != name { assert services[i] in v.services; }
    }
    AttributedMembers(services, nodes, c.stableId);
    RebuildMirrors(h, v.(serviceNodes := nodes, services := services), c.stableId);
  }

  /** The candidates once the service has left its former node. */
  lemma MovedAway(v: View, name: string)
    requires Attuned(v) && name in v.serviceNodes
    ensures var v1 := MoveAway(v, name).view;
            && DistinctKeys(v1.services)
            && forall i | 0 <= i < |v1.services| && v1.services[i].0 != name ::
                 v1.services[i].0 in v1.serviceNodes && v1.serviceNodes[v1.services[i].0] == v1.services[i].1.stableId
  {
    RebuildKeepsServices(v.(services := Drop(v.services, name)), v.serviceNodes[name]);
    DroppedFacts(v, name);
  }

  lemma MovedMirrors(h: Host, v: View, name: string, c: Candidate)
    requires Attuned(v) && Mirrors(h, v.peers) && Filed(v.peers) && name in v.serviceNodes
    ensures var away := MoveAway(v, name);
            var stored := StoreService(away.view, name, c);
            Followed(h, Change(stored.view, away.notices + stored.notices))
  {
    MoveAwayMirrors(h, v, name);
    MovedAway(v, name);
    var away := MoveAway(v, name);
    StoreMirrors(Replay(h, away.notices), away.view, name, c);
    ReplayAppend(h, away.notices, StoreService(away.view, name, c).notices);
  }

  lemma ObserveMirrors(h: Host, v: View, name: string, c: Candidate)
    requires Attuned(v) && Mirrors(h, v.peers) && Filed(v.peers)
    ensures Followed(h, Observe(v, name, c))
  {
    if name in v.serviceNodes && v.serviceNodes[name] != c.stableId {
      MovedMirrors(h, v, name, c);
    } else {
      ServicesInMap(v);
      StoreMirrors(h, v, name, c);
    }
  }
}
