/** remote/wire_protocol.py: the replay cache and the freshness check around it. */
module ReplayProtection {
  import opened HeapQueue
  import opened Maps

  type ReplayKey = (string, string, string)
  type RequestKey = (string, string)

  // ------------------------------------------------------------------
  // A dict paired with a heap of the same entries
  // ------------------------------------------------------------------

  /** Every dict entry is in the heap exactly once, and nothing else is. */
  ghost predicate Paired<K(!new)>(m: map<K, real>, h: seq<Timed<K>>) {
    IsHeap(h) && forall e :: multiset(h)[e] == if e.key in m && m[e.key] == e.at then 1 else 0
  }

  /** The entries that are not older than `ttl`. */
  function Live<K>(m: map<K, real>, now: real, ttl: real): map<K, real> {
    map k | k in m && now - m[k] <= ttl :: m[k]
  }

  lemma PairedTop<K(!new)>(m: map<K, real>, h: seq<Timed<K>>)
    requires Paired(m, h) && |h| > 0
    ensures h[0].key in m && m[h[0].key] == h[0].at
    ensures forall k | k in m :: h[0].at <= m[k]
  {
    assert multiset(h)[h[0]] > 0;
    forall k | k in m ensures h[0].at <= m[k] {
      assert multiset(h)[Timed(m[k], k)] == 1;
      assert Timed(m[k], k) in h;
      var i :| 0 <= i < |h| && h[i] == Timed(m[k], k);
      TopIsLeast(h, i);
    }
  }

  /** Drop expired entries, oldest first; the dict deletion never misses. */
  method PruneExpired<K(!new, ==)>(m: map<K, real>, h: seq<Timed<K>>, now: real, ttl: real)
    returns (m': map<K, real>, h': seq<Timed<K>>)
    requires Paired(m, h)
    ensures Paired(m', h') && m' == Live(m, now, ttl)
  {
    m', h' := m, h;
    while |h'| > 0 && now - h'[0].at > ttl
      invariant Paired(m', h')
      invariant forall k | k in m' :: k in m && m'[k] == m[k]
      invariant forall k | k in m && now - m[k] <= ttl :: k in m'
      decreases |h'|
    {
      PairedTop(m', h');
      var top, rest := Pop(h');
      assert top.key in m';
      m', h' := map k | k in m' && k != top.key :: m'[k], rest;
    }
    assert forall k | k in m' :: Timed(m'[k], k) in multiset(h');
    if |h'| > 0 {
      PairedTop(m', h');
    }
  }

  method AddEntry<K(!new, ==)>(m: map<K, real>, h: seq<Timed<K>>, key: K, at: real)
    returns (m': map<K, real>, h': seq<Timed<K>>)
    requires Paired(m, h) && key !in m
    ensures Paired(m', h') && m' == m[key := at]
  {
    m' := m[key := at];
    h' := Push(h, Timed(at, key));
  }

  // ------------------------------------------------------------------
  // The cache
  // ------------------------------------------------------------------

  class ReplayCache {
    const ttl: real
    const maxEntries: nat
    var seen: map<ReplayKey, real>
    var requestIds: map<RequestKey, real>
    var seenExpirations: seq<Timed<ReplayKey>>
    var requestIdExpirations: seq<Timed<RequestKey>>

    ghost predicate Valid()
      reads this
    {
      && Paired(seen, seenExpirations) && Paired(requestIds, requestIdExpirations)
      && |seen| <= maxEntries && |requestIds| <= maxEntries
    }

    constructor (ttl: real, maxEntries: nat)
      ensures Valid() && seen == map[] && requestIds == map[]
      ensures this.ttl == ttl && this.maxEntries == maxEntries
    {
      this.ttl, this.maxEntries := ttl, maxEntries;
      seen, requestIds := map[], map[];
      seenExpirations, requestIdExpirations := [], [];
    }

    /** Prune both records. */
    method Prune(now: real)
      requires Valid()
      modifies this
      ensures Valid()
      ensures seen == Live(old(seen), now, ttl) && requestIds == Live(old(requestIds), now, ttl)
    {
      FewerKeys(Live(seen, now, ttl), seen);
      FewerKeys(Live(requestIds, now, ttl), requestIds);
      seen, seenExpirations := PruneExpired(seen, seenExpirations, now, ttl);
      requestIds, requestIdExpirations := PruneExpired(requestIds, requestIdExpirations, now, ttl);
    }

    /** True iff the key is not live and the pruned cache has room; a full cache refuses and evicts nothing. */
    method CheckAndRecord(nodeId: string, requestId: string, nonce: string, seenAt: real) returns (recorded: bool)
      requires Valid()
      modifies this
      ensures Valid()
      ensures recorded <==> Accepts(old(seen), (nodeId, requestId, nonce), seenAt, ttl, maxEntries)
      ensures seen == AfterRecord(old(seen), (nodeId, requestId, nonce), seenAt, ttl, maxEntries)
      ensures requestIds == Live(old(requestIds), seenAt, ttl)
    {
      var key := (nodeId, requestId, nonce);
      Prune(seenAt);
      if key in seen || |seen| >= maxEntries {
        return false;
      }
      seen, seenExpirations := AddEntry(seen, seenExpirations, key, seenAt);
      recorded := true;
    }

    method CheckAndRecordRequestId(nodeId: string, requestId: string, seenAt: real) returns (recorded: bool)
      requires Valid()
      modifies this
      ensures Valid()
      ensures recorded <==> Accepts(old(requestIds), (nodeId, requestId), seenAt, ttl, maxEntries)
      ensures requestIds == AfterRecord(old(requestIds), (nodeId, requestId), seenAt, ttl, maxEntries)
      ensures seen == Live(old(seen), seenAt, ttl)
    {
      var key := (nodeId, requestId);
      Prune(seenAt);
      if key in requestIds || |requestIds| >= maxEntries {
        return false;
      }
      requestIds, requestIdExpirations := AddEntry(requestIds, requestIdExpirations, key, seenAt);
      recorded := true;
    }

    /** The freshness and replay part of verifying a correctly signed request. */
    method VerifyRequest(nodeId: string, requestId: string, nonce: string, timestamp: real, now: real, freshness: real)
      returns (v: Verdict)
      requires Valid()
      modifies this
      ensures Valid()
      ensures v.Stale? <==> !Fresh(timestamp, now, freshness)
      ensures v.Stale? ==> seen == old(seen)
      ensures !v.Stale? ==> seen == AfterRecord(old(seen), (nodeId, requestId, nonce), now, ttl, maxEntries)
      ensures !v.Stale? ==> (v.Verified? <==> Accepts(old(seen), (nodeId, requestId, nonce), now, ttl, maxEntries))
    {
      var age := now - timestamp;
      if age > freshness || age < -freshness {
        return Stale;
      }
      var recorded := CheckAndRecord(nodeId, requestId, nonce, now);
      v := if recorded then Verified else Replayed;
    }
  }

  datatype Verdict = Verified | Stale | Replayed

  predicate Fresh(timestamp: real, now: real, freshness: real) {
    timestamp - freshness <= now <= timestamp + freshness
  }

  // ------------------------------------------------------------------
  // One record call on a bare map
  // ------------------------------------------------------------------

  predicate Accepts<K(==)>(m: map<K, real>, key: K, at: real, ttl: real, maxEntries: nat) {
    key !in Live(m, at, ttl) && |Live(m, at, ttl)| < maxEntries
  }

  function AfterRecord<K(==)>(m: map<K, real>, key: K, at: real, ttl: real, maxEntries: nat): map<K, real> {
    if Accepts(m, key, at, ttl, maxEntries) then Live(m, at, ttl)[key := at] else Live(m, at, ttl)
  }

  // ------------------------------------------------------------------
  // Whole runs
  // ------------------------------------------------------------------

  /** A call in lock order: record a key, or only prune (a call about some other key). */
  datatype Call<K> = Record(key: K, at: real) | OtherCall(at: real)

  function AfterCall<K(==)>(m: map<K, real>, c: Call<K>, ttl: real, maxEntries: nat): map<K, real> {
    match c
    case Record(key, at) => AfterRecord(m, key, at, ttl, maxEntries)
    case OtherCall(at) => Live(m, at, ttl)
  }

  ghost predicate CacheRun<K>(states: seq<map<K, real>>, calls: seq<Call<K>>, ttl: real, maxEntries: nat) {
    |states| == |calls| + 1 &&
    forall i | 0 <= i < |calls| :: states[i + 1] == AfterCall(states[i], calls[i], ttl, maxEntries)
  }

  ghost predicate AcceptedAt<K>(states: seq<map<K, real>>, calls: seq<Call<K>>, key: K, ttl: real, maxEntries: nat, i: nat)
    requires |states| == |calls| + 1
  {
    i < |calls| && calls[i].Record? && calls[i].key == key && Accepts(states[i], key, calls[i].at, ttl, maxEntries)
  }

  /** Clock readings may reach the lock late, but by no more than `lag`. */
  ghost predicate NearlyMonotone<K>(calls: seq<Call<K>>, lag: real) {
    forall i, j | 0 <= i < j < |calls| :: calls[i].at <= calls[j].at + lag
  }

  lemma {:induction false} StaysRecorded<K>(states: seq<map<K, real>>, calls: seq<Call<K>>, key: K, ttl: real, maxEntries: nat, i: nat, j: nat)
    requires CacheRun(states, calls, ttl, maxEntries) && AcceptedAt(states, calls, key, ttl, maxEntries, i) && i < j < |states|
    requires forall k | i < k < j :: calls[k].at - calls[i].at <= ttl
    ensures key in states[j] && states[j][key] == calls[i].at
    decreases j
  {
    if i + 1 < j {
      StaysRecorded(states, calls, key, ttl, maxEntries, i, j - 1);
    }
  }

  /** One cache accepts a signed envelope at most once, provided its entry outlives
      both edges of the freshness window: 2 * freshness + lag <= ttl. */
  lemma AcceptedAtMostOnce<K>(states: seq<map<K, real>>, calls: seq<Call<K>>, key: K, ttl: real, maxEntries: nat,
                              timestamp: real, freshness: real, lag: real, i: nat, j: nat)
    requires CacheRun(states, calls, ttl, maxEntries) && NearlyMonotone(calls, lag) && lag >= 0.0
    requires 2.0 * freshness + lag <= ttl
    requires AcceptedAt(states, calls, key, ttl, maxEntries, i) && Fresh(timestamp, calls[i].at, freshness)
    requires AcceptedAt(states, calls, key, ttl, maxEntries, j) && Fresh(timestamp, calls[j].at, freshness)
    ensures i == j
  {
    var a, b := if i < j then i else j, if i < j then j else i;
    if a < b {
      StaysRecorded(states, calls, key, ttl, maxEntries, a, b);
    }
  }

  /** The bound is exact: with a shorter ttl some run accepts one envelope twice. */
  lemma AcceptedTwice<K(!new)>(key: K, ttl: real, maxEntries: nat, timestamp: real, freshness: real, lag: real)
    returns (states: seq<map<K, real>>, calls: seq<Call<K>>)
    requires freshness >= 0.0 && lag >= 0.0 && maxEntries >= 1 && 2.0 * freshness + lag > ttl
    ensures CacheRun(states, calls, ttl, maxEntries) && NearlyMonotone(calls, lag)
    ensures |calls| == 3 && Fresh(timestamp, calls[0].at, freshness) && Fresh(timestamp, calls[2].at, freshness)
    ensures AcceptedAt(states, calls, key, ttl, maxEntries, 0) && AcceptedAt(states, calls, key, ttl, maxEntries, 2)
  {
    calls := [Record(key, timestamp - freshness), OtherCall(timestamp + freshness + lag), Record(key, timestamp + freshness)];
    var none: map<K, real> := map[];
    assert Live(none, calls[0].at, ttl) == none;
    var one := none[key := calls[0].at];
    assert Live(one, calls[1].at, ttl) == none;
    assert Live(none, calls[2].at, ttl) == none;
    states := [none, one, none, none[key := calls[2].at]];
  }
}
