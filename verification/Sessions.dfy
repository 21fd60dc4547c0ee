/** remote/session.py: logical sessions, their lazily cleaned expiry heap, and
    retired connection generations. */
module Sessions {
  import opened Maps
  import opened Wrappers
  import opened HeapQueue

  const MAX_IDENTIFIER_LENGTH: nat := 128
  const ALLOCATION_ATTEMPTS: nat := 100

  type Generation = Option<string>

  datatype Session = Session(owner: string, active: Generation, expiresAt: real, retired: set<Generation>)

  type SessionMap = map<string, Session>

  datatype AuthError =
    | InvalidGeneration | InvalidSessionId | Expired | OtherOwner | RetiredGeneration | StaleGeneration
    | TooManyGenerations | TooManySessions | NoFreeId

  predicate ValidToken(s: string) {
    1 <= |s| <= MAX_IDENTIFIER_LENGTH
  }

  predicate ValidGeneration(g: Generation) {
    g.Some? ==> ValidToken(g.value)
  }

  // ------------------------------------------------------------------
  // The heap-free registry: a map that drops expired sessions
  // ------------------------------------------------------------------

  datatype Limits = Limits(ttl: real, maxSessions: nat, maxGenerations: nat)

  /** A call of `authenticate` (with the ids the factory would offer) or of `assert_current`. */
  datatype Call =
    | Authenticate(owner: string, sessionId: Option<string>, resume: bool, generation: Generation, now: real, candidates: seq<string>)
    | AssertCurrent(session: string, generation: Generation, now: real)

  function Pruned(m: SessionMap, now: real): SessionMap {
    map id | id in m && now < m[id].expiresAt :: m[id]
  }

  function FirstFree(m: SessionMap, candidates: seq<string>): (r: Result<string, AuthError>)
    ensures r.Ok? ==> r.value !in m && r.value in candidates && ValidToken(r.value)
  {
    if candidates == [] then Err(NoFreeId)
    else if !ValidToken(candidates[0]) then Err(InvalidSessionId)
    else if candidates[0] !in m then Ok(candidates[0])
    else FirstFree(m, candidates[1..])
  }

  function Created(m: SessionMap, owner: string, generation: Generation, now: real, candidates: seq<string>, limits: Limits)
    : (SessionMap, Result<string, AuthError>)
  {
    var live := Pruned(m, now);
    if |live| >= limits.maxSessions then (live, Err(TooManySessions))
    else
      var id := FirstFree(live, candidates);
      if id.Err? then (live, id) else (live[id.value := Session(owner, generation, now + limits.ttl, {})], id)
  }

  function Continued(m: SessionMap, id: string, owner: string, resume: bool, generation: Generation, now: real, limits: Limits)
    : (SessionMap, Result<string, AuthError>)
  {
    if !ValidToken(id) then (m, Err(InvalidSessionId))
    else if id !in m || now >= m[id].expiresAt then (m - {id}, Err(Expired))
    else
      var s := m[id];
      if s.owner != owner then (m, Err(OtherOwner))
      else if generation in s.retired then (m, Err(RetiredGeneration))
      else if generation == s.active then (m, Ok(id))
      else if !resume then (m, Err(StaleGeneration))
      else if |s.retired| >= limits.maxGenerations then (m - {id}, Err(TooManyGenerations))
      else (m[id := s.(retired := s.retired + {s.active}, active := generation)], Ok(id))
  }

  function Asserted(m: SessionMap, id: string, generation: Generation, now: real): (SessionMap, Result<string, AuthError>) {
    if !ValidGeneration(generation) then (m, Err(InvalidGeneration))
    else if !ValidToken(id) then (m, Err(InvalidSessionId))
    else if id !in m || now >= m[id].expiresAt then (m - {id}, Err(Expired))
    else if m[id].active != generation then (m, Err(StaleGeneration))
    else (m, Ok(id))
  }

  function Perform(m: SessionMap, c: Call, limits: Limits): (SessionMap, Result<string, AuthError>) {
    match c
    case Authenticate(owner, sessionId, resume, generation, now, candidates) =>
      if !ValidGeneration(generation) then (m, Err(InvalidGeneration))
      else if sessionId.None? then Created(m, owner, generation, now, candidates, limits)
      else Continued(m, sessionId.value, owner, resume, generation, now, limits)
    case AssertCurrent(id, generation, now) => Asserted(m, id, generation, now)
  }

  // ------------------------------------------------------------------
  // The registry with its heap
  // ------------------------------------------------------------------

  /** Every session has its expiry in the heap; the heap may hold stale entries. */
  ghost predicate Covered(m: SessionMap, h: seq<Timed<string>>) {
    IsHeap(h) && forall id | id in m :: Timed(m[id].expiresAt, id) in multiset(h)
  }

  class LogicalSessionRegistry {
    const limits: Limits
    var sessions: SessionMap
    var expirations: seq<Timed<string>>

    ghost predicate Valid()
      reads this
    {
      && limits.maxSessions >= 1 && limits.maxGenerations >= 1
      && Covered(sessions, expirations)
      && |sessions| <= limits.maxSessions && |expirations| <= 2 * limits.maxSessions
    }

    constructor (limits: Limits)
      requires limits.maxSessions >= 1 && limits.maxGenerations >= 1
      ensures Valid() && sessions == map[] && this.limits == limits
    {
      this.limits := limits;
      sessions, expirations := map[], [];
    }

    method AuthenticateRequest(owner: string, sessionId: Option<string>, resume: bool, generation: Generation, now: real,
                               candidates: seq<string>)
      returns (r: Result<string, AuthError>)
      requires Valid() && |candidates| == ALLOCATION_ATTEMPTS
      modifies this
      ensures Valid()
      ensures (sessions, r) == Perform(old(sessions), Authenticate(owner, sessionId, resume, generation, now, candidates), limits)
    {
      if !ValidGeneration(generation) {
        return Err(InvalidGeneration);
      }
      if sessionId.None? {
        r := Create(owner, generation, now, candidates);
        return;
      }
      var id := sessionId.value;
      if !ValidToken(id) {
        return Err(InvalidSessionId);
      }
      if id !in sessions || now >= sessions[id].expiresAt {
        Discard(id);
        return Err(Expired);
      }
      var s := sessions[id];
      if s.owner != owner {
        return Err(OtherOwner);
      }
      if generation in s.retired {
        return Err(RetiredGeneration);
      }
      if generation != s.active {
        if !resume {
          return Err(StaleGeneration);
        }
        if |s.retired| >= limits.maxGenerations {
          Discard(id);
          return Err(TooManyGenerations);
        }
        FewerKeys(sessions[id := s], sessions);
        sessions := sessions[id := s.(retired := s.retired + {s.active}, active := generation)];
      }
      r := Ok(id);
    }

    method AssertCurrentGeneration(id: string, generation: Generation, now: real) returns (r: Result<string, AuthError>)
      requires Valid()
      modifies this
      ensures Valid()
      ensures (sessions, r) == Perform(old(sessions), AssertCurrent(id, generation, now), limits)
    {
      if !ValidGeneration(generation) {
        return Err(InvalidGeneration);
      }
      if !ValidToken(id) {
        return Err(InvalidSessionId);
      }
      if id !in sessions || now >= sessions[id].expiresAt {
        Discard(id);
        return Err(Expired);
      }
      r := if sessions[id].active != generation then Err(StaleGeneration) else Ok(id);
    }

    /** `pop(id, None)`; the heap entry stays behind. */
    method Discard(id: string)
      requires Valid()
      modifies this`sessions
      ensures Valid() && sessions == old(sessions) - {id}
    {
      FewerKeys(sessions - {id}, sessions);
      sessions := sessions - {id};
    }

    method Create(owner: string, generation: Generation, now: real, candidates: seq<string>) returns (r: Result<string, AuthError>)
      requires Valid() && |candidates| == ALLOCATION_ATTEMPTS
      modifies this
      ensures Valid()
      ensures (sessions, r) == Created(old(sessions), owner, generation, now, candidates, limits)
    {
      Prune(now);
      if |sessions| >= limits.maxSessions {
        return Err(TooManySessions);
      }
      r := AllocateId(candidates);
      if r.Err? {
        return;
      }
      var s := Session(owner, generation, now + limits.ttl, {});
      ghost var live, heap := sessions, expirations;
      sessions := sessions[r.value := s];
      expirations := Push(expirations, Timed(s.expiresAt, r.value));
      CoveredPush(live, heap, expirations, r.value, s);
      Compact();
    }

    /** Rebuild the heap from the live sessions once it has grown to twice their limit. */
    method Compact()
      requires limits.maxSessions >= 1 && limits.maxGenerations >= 1
      requires Covered(sessions, expirations) && |sessions| <= limits.maxSessions
      modifies this`expirations
      ensures Valid()
    {
      if |expirations| > 2 * limits.maxSessions {
        var entries := Entries(sessions);
        assert |multiset(entries)| <= limits.maxSessions;
        expirations := Heapify(entries);
        assert |multiset(expirations)| <= limits.maxSessions;
      }
    }

    method AllocateId(candidates: seq<string>) returns (r: Result<string, AuthError>)
      ensures r == FirstFree(sessions, candidates)
    {
      for i := 0 to |candidates|
        invariant FirstFree(sessions, candidates) == FirstFree(sessions, candidates[i..])
      {
        if !ValidToken(candidates[i]) {
          return Err(InvalidSessionId);
        }
        if candidates[i] !in sessions {
          return Ok(candidates[i]);
        }
      }
      r := Err(NoFreeId);
    }

    /** Removes exactly the sessions with `expires_at <= now`. */
    method Prune(now: real)
      requires Valid()
      modifies this
      ensures Valid() && sessions == Pruned(old(sessions), now)
      ensures |expirations| <= |old(expirations)|
    {
      while |expirations| > 0 && now >= expirations[0].at
        invariant Covered(sessions, expirations) && |expirations| <= |old(expirations)|
        invariant forall id | id in sessions :: id in old(sessions) && sessions[id] == old(sessions)[id]
        invariant forall id | id in old(sessions) && now < old(sessions)[id].expiresAt :: id in sessions
        decreases |expirations|
      {
        var top, rest := Pop(expirations);
        if top.key in sessions && sessions[top.key].expiresAt == top.at {
          sessions := sessions - {top.key};
        }
        expirations := rest;
      }
      FewerKeys(sessions, old(sessions));
      forall id | id in sessions ensures now < sessions[id].expiresAt {
        var e := Timed(sessions[id].expiresAt, id);
        assert e in multiset(expirations);
        var i :| 0 <= i < |expirations| && expirations[i] == e;
        TopIsLeast(expirations, i);
      }
    }
  }

  /** The compacted heap: one entry for each live session. */
  method Entries(m: SessionMap) returns (entries: seq<Timed<string>>)
    ensures |entries| == |m| && forall id | id in m :: Timed(m[id].expiresAt, id) in multiset(entries)
  {
    entries := [];
    var ids := m.Keys;
    while ids != {}
      invariant ids <= m.Keys && |entries| + |ids| == |m.Keys|
      invariant forall id | id in m && id !in ids :: Timed(m[id].expiresAt, id) in multiset(entries)
      decreases |ids|
    {
      var id :| id in ids;
      ids := ids - {id};
      entries := entries + [Timed(m[id].expiresAt, id)];
    }
  }

  /** A new session with its heap entry. */
  lemma CoveredPush(m: SessionMap, h: seq<Timed<string>>, h': seq<Timed<string>>, id: string, s: Session)
    requires Covered(m, h) && IsHeap(h') && id !in m && multiset(h') == multiset(h) + multiset{Timed(s.expiresAt, id)}
    ensures Covered(m[id := s], h') && |h'| == |h| + 1 && |m[id := s]| == |m| + 1
  {
    assert |multiset(h')| == |multiset(h)| + 1;
    assert m[id := s].Keys == m.Keys + {id};
  }

  // ------------------------------------------------------------------
  // Whole runs
  // ------------------------------------------------------------------

  ghost predicate Run(states: seq<SessionMap>, calls: seq<Call>, limits: Limits) {
    |states| == |calls| + 1 && forall i | 0 <= i < |calls| :: states[i + 1] == Perform(states[i], calls[i], limits).0
  }

  ghost predicate Creates(m: SessionMap, c: Call, limits: Limits) {
    c.Authenticate? && c.sessionId.None? && Perform(m, c, limits).1.Ok?
  }

  /** The id factory never repeats: a created id was in no earlier state. */
  ghost predicate FreshIds(states: seq<SessionMap>, calls: seq<Call>, limits: Limits)
    requires |states| == |calls| + 1
  {
    forall i, k | 0 <= k <= i < |calls| && Creates(states[i], calls[i], limits) ::
      Perform(states[i], calls[i], limits).1.value !in states[k]
  }

  /** Retired generations are not active and stay within the limit. */
  ghost predicate RetiredOk(m: SessionMap, limits: Limits) {
    forall id | id in m :: m[id].active !in m[id].retired && |m[id].retired| <= limits.maxGenerations
  }

  ghost predicate ActiveIn(m: SessionMap, id: string, g: Generation) {
    id in m && m[id].active == g
  }

  /** `g` can never again be active in session `id` as long as the id is not reused. */
  ghost predicate Lost(m: SessionMap, id: string, g: Generation) {
    id !in m || g in m[id].retired
  }

  lemma StepKeepsRetiredOk(m: SessionMap, c: Call, limits: Limits)
    requires RetiredOk(m, limits)
    ensures RetiredOk(Perform(m, c, limits).0, limits)
  {
  }

  lemma {:induction false} RunKeepsRetiredOk(states: seq<SessionMap>, calls: seq<Call>, limits: Limits, n: nat)
    requires Run(states, calls, limits) && RetiredOk(states[0], limits) && n < |states|
    ensures RetiredOk(states[n], limits)
  {
    if n > 0 {
      RunKeepsRetiredOk(states, calls, limits, n - 1);
      StepKeepsRetiredOk(states[n - 1], calls[n - 1], limits);
    }
  }

  /** One call keeps an active generation active, or loses it; what is lost stays lost. */
  lemma StepActiveOrLost(m: SessionMap, c: Call, limits: Limits, id: string, g: Generation)
    requires RetiredOk(m, limits)
    requires Creates(m, c, limits) ==> Perform(m, c, limits).1.value != id
    ensures ActiveIn(m, id, g) ==> ActiveIn(Perform(m, c, limits).0, id, g) || Lost(Perform(m, c, limits).0, id, g)
    ensures Lost(m, id, g) ==> Lost(Perform(m, c, limits).0, id, g)
  {
  }

  lemma {:induction false} LostStaysLost(states: seq<SessionMap>, calls: seq<Call>, limits: Limits, id: string, g: Generation, h: nat, k: nat, j: nat)
    requires Run(states, calls, limits) && RetiredOk(states[0], limits) && FreshIds(states, calls, limits)
    requires h <= k <= j < |states| && id in states[h] && Lost(states[k], id, g)
    ensures Lost(states[j], id, g)
    decreases j - k
  {
    if k < j {
      LostStaysLost(states, calls, limits, id, g, h, k, j - 1);
      RunKeepsRetiredOk(states, calls, limits, j - 1);
      StepActiveOrLost(states[j - 1], calls[j - 1], limits, id, g);
    }
  }

  lemma {:induction false} ActiveOrLost(states: seq<SessionMap>, calls: seq<Call>, limits: Limits, id: string, g: Generation, h: nat, k: nat)
    requires Run(states, calls, limits) && RetiredOk(states[0], limits) && FreshIds(states, calls, limits)
    requires h <= k < |states| && ActiveIn(states[h], id, g)
    ensures ActiveIn(states[k], id, g) || Lost(states[k], id, g)
    decreases k - h
  {
    if h < k {
      ActiveOrLost(states, calls, limits, id, g, h, k - 1);
      RunKeepsRetiredOk(states, calls, limits, k - 1);
      StepActiveOrLost(states[k - 1], calls[k - 1], limits, id, g);
    }
  }

  /** Who gets through: the owner of an unexpired session with its active generation, or
      with a new one when resuming; or a caller without a session, for a new id. */
  lemma AuthenticationNeeds(m: SessionMap, c: Call, limits: Limits)
    requires c.Authenticate? && Perform(m, c, limits).1.Ok?
    ensures var id, m' := Perform(m, c, limits).1.value, Perform(m, c, limits).0;
            && id in m' && m'[id].owner == c.owner && m'[id].active == c.generation
            && if c.sessionId.Some? then
                 && id == c.sessionId.value && id in m && m[id].owner == c.owner && c.now < m[id].expiresAt
                 && m'[id].expiresAt == m[id].expiresAt
                 && (c.generation == m[id].active || (c.resume && c.generation !in m[id].retired && m[id].active in m'[id].retired))
                 && forall other | other != id :: other in m' <==> other in m
               else
                 && (id in m ==> m[id].expiresAt <= c.now) && id in c.candidates
                 && m'[id] == Session(c.owner, c.generation, c.now + limits.ttl, {})
                 && |Pruned(m, c.now)| < limits.maxSessions
                 && forall other | other != id :: other in m' <==> other in m && c.now < m[other].expiresAt
  {
  }

  /** A successful authentication leaves the caller's generation active. */
  lemma AuthenticatedIsActive(m: SessionMap, c: Call, limits: Limits)
    requires c.Authenticate? && Perform(m, c, limits).1.Ok?
    ensures ActiveIn(Perform(m, c, limits).0, Perform(m, c, limits).1.value, c.generation)
  {
  }

  /** No ABA: if session `id` authenticated generation `g` at call `i` and `g` is
      asserted current at call `j`, then `g` was active at every point in between. */
  lemma NoAba(states: seq<SessionMap>, calls: seq<Call>, limits: Limits, id: string, g: Generation, i: nat, j: nat)
    requires Run(states, calls, limits) && RetiredOk(states[0], limits) && FreshIds(states, calls, limits)
    requires i < j < |calls|
    requires calls[i].Authenticate? && calls[i].generation == g && Perform(states[i], calls[i], limits).1 == Ok(id)
    requires calls[j].AssertCurrent? && calls[j].session == id && calls[j].generation == g
    requires Perform(states[j], calls[j], limits).1.Ok?
    ensures forall k | i < k <= j :: ActiveIn(states[k], id, g)
  {
    AuthenticatedIsActive(states[i], calls[i], limits);
    RunKeepsRetiredOk(states, calls, limits, j);
    forall k | i < k <= j ensures ActiveIn(states[k], id, g) {
      ActiveOrLost(states, calls, limits, id, g, i + 1, k);
      if Lost(states[k], id, g) {
        LostStaysLost(states, calls, limits, id, g, i + 1, k, j);
      }
    }
  }

  /** A retired generation never authenticates in its session again. */
  lemma RetiredNeverReturns(states: seq<SessionMap>, calls: seq<Call>, limits: Limits, id: string, g: Generation, k: nat, j: nat)
    requires Run(states, calls, limits) && RetiredOk(states[0], limits) && FreshIds(states, calls, limits)
    requires k <= j < |calls| && id in states[k] && g in states[k][id].retired
    requires calls[j].Authenticate? && calls[j].sessionId == Some(id) && calls[j].generation == g
    ensures Perform(states[j], calls[j], limits).1.Err?
    ensures states[j + 1] == states[j] || states[j + 1] == states[j] - {id}
  {
    LostStaysLost(states, calls, limits, id, g, k, k, j);
  }
}
