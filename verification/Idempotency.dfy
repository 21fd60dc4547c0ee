/** remote/wire_protocol.py: the idempotency cache, one executor and many joiners per key.

    A cache entry is an object that its owner and its joiners keep a reference to
    even after the dict has dropped it. Here `cells` holds every entry ever made
    and a reference is its index. */
module Idempotency {
  import opened Maps
  import opened Wrappers

  type Key = (string, string)
  type Thread = nat

  datatype Outcome = Returned(result: string) | Raised(error: string)

  datatype Cell = Cell(
    key: Key,
    fingerprint: string,
    expiresAt: real,
    result: Option<string>,
    error: Option<string>,
    complete: bool,
    event: bool
  )

  datatype Cache = Cache(entries: map<Key, nat>, cells: seq<Cell>)

  datatype Entry = Owner(ref: nat) | Joiner(ref: nat) | Full | Collision

  ghost predicate CacheOk(c: Cache, maxEntries: nat) {
    && |c.entries| <= maxEntries
    && (forall k | k in c.entries :: c.entries[k] < |c.cells| && c.cells[c.entries[k]].key == k)
    && (forall r: nat | r < |c.cells| ::
         && c.cells[r].event == c.cells[r].complete
         && (c.cells[r].complete <==> c.cells[r].result.Some? || c.cells[r].error.Some?)
         && (!c.cells[r].complete ==> c.cells[r].key in c.entries && c.entries[c.cells[r].key] == r))
  }

  // ------------------------------------------------------------------
  // The lock-protected blocks
  // ------------------------------------------------------------------

  predicate Prunable(c: Cache, k: Key, now: real)
    requires k in c.entries
  {
    c.entries[k] < |c.cells| && c.cells[c.entries[k]].complete && now >= c.cells[c.entries[k]].expiresAt
  }

  function Pruned(c: Cache, now: real): Cache {
    c.(entries := map k | k in c.entries && !Prunable(c, k, now) :: c.entries[k])
  }

  /** The entries while `keys` are still to be looked at. */
  function Sifted(c: Cache, keys: set<Key>, now: real): map<Key, nat> {
    map k | k in c.entries && (k in keys || !Prunable(c, k, now)) :: c.entries[k]
  }

  lemma SiftOne(c: Cache, keys: set<Key>, key: Key, now: real)
    requires key in keys && keys <= c.entries.Keys
    ensures Sifted(c, keys - {key}, now) == if Prunable(c, key, now) then Sifted(c, keys, now) - {key} else Sifted(c, keys, now)
    ensures key in Sifted(c, keys, now)
  {
  }

  /** The first block of `run`: prune, then own, join, or be turned away. */
  function Entered(c: Cache, key: Key, fingerprint: string, now: real, ttl: real, maxEntries: nat): (Cache, Entry) {
    var p := Pruned(c, now);
    if key !in p.entries then
      if |p.entries| >= maxEntries then (p, Full)
      else
        (Cache(p.entries[key := |p.cells|],
               p.cells + [Cell(key, fingerprint, now + ttl, None, None, false, false)]),
         Owner(|p.cells|))
    else if p.entries[key] < |p.cells| && p.cells[p.entries[key]].fingerprint != fingerprint then (p, Collision)
    else (p, Joiner(p.entries[key]))
  }

  /** The block after an operation that raised. */
  function Failed(c: Cache, ref: nat, error: string): Cache
    requires ref < |c.cells|
  {
    c.(cells := c.cells[ref := c.cells[ref].(error := Some(error), complete := true, event := true)])
  }

  /** The block after an operation that returned; saving the cache may raise. */
  function Succeeded(c: Cache, ref: nat, result: string, saveError: Option<string>): Cache
    requires ref < |c.cells|
  {
    c.(cells := c.cells[ref := c.cells[ref].(result := Some(result), error := if saveError.Some? then saveError else c.cells[ref].error,
                                             complete := true, event := true)])
  }

  /** What a joiner reports once the event is set. */
  function JoinOutcome(cell: Cell): Outcome {
    if cell.error.Some? then Raised(cell.error.value)
    else if cell.result.None? then Raised("idempotency result is unavailable")
    else Returned(cell.result.value)
  }

  class IdempotencyCache {
    const ttl: real
    const maxEntries: nat
    var entries: map<Key, nat>
    var cells: seq<Cell>

    ghost function Contents(): Cache
      reads this
    {
      Cache(entries, cells)
    }

    ghost predicate Valid()
      reads this
    {
      ttl > 0.0 && maxEntries >= 1 && CacheOk(Contents(), maxEntries)
    }

    constructor (ttl: real, maxEntries: nat)
      requires ttl > 0.0 && maxEntries >= 1
      ensures Valid() && Contents() == Cache(map[], [])
      ensures this.ttl == ttl && this.maxEntries == maxEntries
    {
      this.ttl, this.maxEntries := ttl, maxEntries;
      entries, cells := map[], [];
    }

    /** Drop completed, expired entries; the cells stay with whoever refers to them. */
    method Prune(now: real)
      requires Valid()
      modifies this`entries
      ensures Valid() && Contents() == Pruned(old(Contents()), now)
    {
      ghost var before := Contents();
      var keys := entries.Keys;
      while keys != {}
        invariant keys <= before.entries.Keys
        invariant entries == Sifted(before, keys, now)
        decreases |keys|
      {
        var key :| key in keys;
        SiftOne(before, keys, key, now);
        keys := keys - {key};
        var cell := cells[entries[key]];
        if cell.complete && now >= cell.expiresAt {
          entries := entries - {key};
        }
      }
      assert Contents() == Pruned(before, now);
      PruneKeepsOk(before, now, maxEntries);
    }

    method Enter(key: Key, fingerprint: string, now: real) returns (entry: Entry)
      requires Valid()
      modifies this
      ensures Valid() && (Contents(), entry) == Entered(old(Contents()), key, fingerprint, now, ttl, maxEntries)
    {
      Prune(now);
      if key !in entries {
        if |entries| >= maxEntries {
          return Full;
        }
        entry := Owner(|cells|);
        var cell := Cell(key, fingerprint, now + ttl, None, None, false, false);
        OwnKeepsOk(Contents(), cell, maxEntries);
        entries := entries[key := |cells|];
        cells := cells + [cell];
      } else if cells[entries[key]].fingerprint != fingerprint {
        entry := Collision;
      } else {
        entry := Joiner(entries[key]);
      }
    }

    method Fail(ref: nat, error: string)
      requires Valid() && ref < |cells| && !cells[ref].complete
      modifies this`cells
      ensures Valid() && Contents() == Failed(old(Contents()), ref, error)
    {
      cells := cells[ref := cells[ref].(error := Some(error), complete := true, event := true)];
    }

    method Succeed(ref: nat, result: string, saveError: Option<string>) returns (outcome: Outcome)
      requires Valid() && ref < |cells| && !cells[ref].complete
      modifies this`cells
      ensures Valid() && Contents() == Succeeded(old(Contents()), ref, result, saveError)
      ensures outcome == JoinOutcome(cells[ref])
    {
      cells := cells[ref := cells[ref].(result := Some(result), complete := true)];
      if saveError.Some? {
        cells := cells[ref := cells[ref].(error := saveError, event := true)];
        return Raised(saveError.value);
      }
      cells := cells[ref := cells[ref].(event := true)];
      outcome := Returned(result);
    }

    method Join(ref: nat) returns (outcome: Outcome)
      requires Valid() && ref < |cells| && cells[ref].event
      ensures outcome == JoinOutcome(cells[ref])
    {
      var cell := cells[ref];
      if cell.error.Some? {
        return Raised(cell.error.value);
      }
      outcome := if cell.result.None? then Raised("idempotency result is unavailable") else Returned(cell.result.value);
    }
  }

  // ------------------------------------------------------------------
  // Threads calling `run`, interleaved at the lock
  // ------------------------------------------------------------------

  datatype Status =
    | Executing(ref: nat)                             // owner, inside `operation()`
    | Waiting(ref: nat, fingerprint: string)          // joiner, in `event.wait()`
    | Finished(ref: nat, outcome: Outcome)
    | Abandoned(ref: nat)                             // owner whose result was no mapping: it raised, its entry stays open
    | TurnedAway

  /** `owners[r]` is the thread that made cell `r`. */
  datatype System = System(cache: Cache, owners: seq<Thread>, threads: map<Thread, Status>)

  datatype Event =
    | Call(thread: Thread, key: Key, fingerprint: string, now: real)
    | OperationRaises(thread: Thread, error: string)
    | OperationReturns(thread: Thread, result: string, saveError: Option<string>)
    | ResultUnusable(thread: Thread)                  // `dict(result)` raises, outside the try block
    | Wake(thread: Thread)
    | Length(now: real)

  ghost predicate SystemOk(s: System, maxEntries: nat) {
    && CacheOk(s.cache, maxEntries) && |s.owners| == |s.cache.cells|
    && (forall r: nat | r < |s.cache.cells| && !s.cache.cells[r].complete ::
         s.owners[r] in s.threads && s.threads[s.owners[r]] in {Executing(r), Abandoned(r)})
    && (forall t | t in s.threads :: StatusOk(s, t))
  }

  ghost predicate StatusOk(s: System, t: Thread)
    requires t in s.threads && |s.owners| == |s.cache.cells|
  {
    match s.threads[t]
    case Executing(r) => r < |s.cache.cells| && s.owners[r] == t && !s.cache.cells[r].complete
    case Abandoned(r) => r < |s.cache.cells| && s.owners[r] == t && !s.cache.cells[r].complete
    case Waiting(r, fingerprint) => r < |s.cache.cells| && s.cache.cells[r].fingerprint == fingerprint
    case Finished(r, outcome) => r < |s.cache.cells| && s.cache.cells[r].complete && outcome == JoinOutcome(s.cache.cells[r])
    case TurnedAway => true
  }

  predicate Enabled(s: System, e: Event) {
    match e
    case Call(t, _, _, _) => t !in s.threads
    case OperationRaises(t, _) => t in s.threads && s.threads[t].Executing? && s.threads[t].ref < |s.cache.cells|
    case OperationReturns(t, _, _) => t in s.threads && s.threads[t].Executing? && s.threads[t].ref < |s.cache.cells|
    case ResultUnusable(t) => t in s.threads && s.threads[t].Executing? && s.threads[t].ref < |s.cache.cells|
    case Wake(t) => t in s.threads && s.threads[t].Waiting? && s.threads[t].ref < |s.cache.cells| && s.cache.cells[s.threads[t].ref].event
    case Length(_) => true
  }

  /** Thread `t` goes on as what the first block of `run` made it. */
  function Admit(s: System, t: Thread, fingerprint: string, cache: Cache, entry: Entry): System {
    match entry
    case Owner(r) => System(cache, s.owners + [t], s.threads[t := Executing(r)])
    case Joiner(r) => System(cache, s.owners, s.threads[t := Waiting(r, fingerprint)])
    case _ => System(cache, s.owners, s.threads[t := TurnedAway])
  }

  function Step(s: System, e: Event, ttl: real, maxEntries: nat): System
    requires Enabled(s, e)
  {
    match e
    case Call(t, key, fingerprint, now) =>
      var (cache, entry) := Entered(s.cache, key, fingerprint, now, ttl, maxEntries);
      Admit(s, t, fingerprint, cache, entry)
    case OperationRaises(t, error) =>
      var r := s.threads[t].ref;
      s.(cache := Failed(s.cache, r, error), threads := s.threads[t := Finished(r, Raised(error))])
    case OperationReturns(t, result, saveError) =>
      var r := s.threads[t].ref;
      s.(cache := Succeeded(s.cache, r, result, saveError),
         threads := s.threads[t := Finished(r, if saveError.Some? then Raised(saveError.value) else Returned(result))])
    case ResultUnusable(t) => s.(threads := s.threads[t := Abandoned(s.threads[t].ref)])
    case Wake(t) =>
      var r := s.threads[t].ref;
      s.(threads := s.threads[t := Finished(r, JoinOutcome(s.cache.cells[r]))])
    case Length(now) => s.(cache := Pruned(s.cache, now))
  }

  lemma PruneKeepsOk(c: Cache, now: real, maxEntries: nat)
    requires CacheOk(c, maxEntries)
    ensures CacheOk(Pruned(c, now), maxEntries)
  {
    FewerKeys(Pruned(c, now).entries, c.entries);
  }

  lemma EnterKeepsOk(c: Cache, key: Key, fingerprint: string, now: real, ttl: real, maxEntries: nat)
    requires CacheOk(c, maxEntries)
    ensures CacheOk(Entered(c, key, fingerprint, now, ttl, maxEntries).0, maxEntries)
  {
    var p := Pruned(c, now);
    PruneKeepsOk(c, now, maxEntries);
    if key !in p.entries && |p.entries| < maxEntries {
      OwnKeepsOk(p, Cell(key, fingerprint, now + ttl, None, None, false, false), maxEntries);
    }
  }

  lemma OwnKeepsOk(c: Cache, cell: Cell, maxEntries: nat)
    requires CacheOk(c, maxEntries) && |c.entries| < maxEntries && cell.key !in c.entries
    requires !cell.complete && !cell.event && cell.result.None? && cell.error.None?
    ensures CacheOk(Cache(c.entries[cell.key := |c.cells|], c.cells + [cell]), maxEntries)
  {
    assert |c.entries[cell.key := |c.cells|]| == |c.entries| + 1;
  }

  /** How entering changes the cells. */
  ghost predicate EnteredShape(c: Cache, c': Cache, entry: Entry, fingerprint: string) {
    match entry
    case Owner(r) => r == |c.cells| && |c'.cells| == r + 1 && c'.cells[..r] == c.cells && !c'.cells[r].complete
    case Joiner(r) => c'.cells == c.cells && r < |c.cells| && c.cells[r].fingerprint == fingerprint
    case _ => c'.cells == c.cells
  }

  lemma EnteredHasShape(c: Cache, key: Key, fingerprint: string, now: real, ttl: real, maxEntries: nat)
    requires CacheOk(c, maxEntries)
    ensures var (c', entry) := Entered(c, key, fingerprint, now, ttl, maxEntries); EnteredShape(c, c', entry, fingerprint)
  {
  }

  lemma AdmitKeepsOk(s: System, t: Thread, fingerprint: string, cache: Cache, entry: Entry, maxEntries: nat)
    requires SystemOk(s, maxEntries) && t !in s.threads && CacheOk(cache, maxEntries)
    requires EnteredShape(s.cache, cache, entry, fingerprint)
    ensures SystemOk(Admit(s, t, fingerprint, cache, entry), maxEntries)
  {
    var s' := Admit(s, t, fingerprint, cache, entry);
    assert entry.Owner? ==> forall r: nat | r < |s.cache.cells| :: cache.cells[r] == cache.cells[..|s.cache.cells|][r];
    forall u | u in s'.threads ensures StatusOk(s', u) {
      if u != t { assert StatusOk(s, u); }
    }
    forall r: nat | r < |s'.cache.cells| && !s'.cache.cells[r].complete
      ensures s'.owners[r] in s'.threads && s'.threads[s'.owners[r]] in {Executing(r), Abandoned(r)}
    {
      if r < |s.cache.cells| { assert !s.cache.cells[r].complete; }
    }
  }

  /** Completing cell `r` by its owner `t`. */
  lemma CompleteKeepsOk(s: System, t: Thread, r: nat, cell: Cell, maxEntries: nat)
    requires SystemOk(s, maxEntries) && t in s.threads && s.threads[t] == Executing(r) && r < |s.cache.cells|
    requires cell.complete && cell.event && (cell.result.Some? || cell.error.Some?)
    requires cell.key == s.cache.cells[r].key && cell.fingerprint == s.cache.cells[r].fingerprint
    ensures var s' := s.(cache := s.cache.(cells := s.cache.cells[r := cell]), threads := s.threads[t := Finished(r, JoinOutcome(cell))]);
            SystemOk(s', maxEntries)
  {
    var s' := s.(cache := s.cache.(cells := s.cache.cells[r := cell]), threads := s.threads[t := Finished(r, JoinOutcome(cell))]);
    assert StatusOk(s, t);
    forall u | u in s'.threads ensures StatusOk(s', u) {
      if u != t { assert StatusOk(s, u); }
    }
  }

  lemma WakeKeepsOk(s: System, t: Thread, maxEntries: nat)
    requires SystemOk(s, maxEntries) && Enabled(s, Wake(t))
    ensures SystemOk(Step(s, Wake(t), 0.0, maxEntries), maxEntries)
  {
    var s' := Step(s, Wake(t), 0.0, maxEntries);
    assert StatusOk(s, t);
    forall u | u in s'.threads ensures StatusOk(s', u) {
      if u != t { assert StatusOk(s, u); }
    }
  }

  lemma AbandonKeepsOk(s: System, t: Thread, maxEntries: nat)
    requires SystemOk(s, maxEntries) && Enabled(s, ResultUnusable(t))
    ensures SystemOk(Step(s, ResultUnusable(t), 0.0, maxEntries), maxEntries)
  {
    var s' := Step(s, ResultUnusable(t), 0.0, maxEntries);
    assert StatusOk(s, t);
    forall u | u in s'.threads ensures StatusOk(s', u) {
      if u != t { assert StatusOk(s, u); }
    }
  }

  lemma StepKeepsOk(s: System, e: Event, ttl: real, maxEntries: nat)
    requires SystemOk(s, maxEntries) && Enabled(s, e)
    ensures SystemOk(Step(s, e, ttl, maxEntries), maxEntries)
  {
    match e
    case Call(t, key, fingerprint, now) =>
      EnterKeepsOk(s.cache, key, fingerprint, now, ttl, maxEntries);
      EnteredHasShape(s.cache, key, fingerprint, now, ttl, maxEntries);
      var (cache, entry) := Entered(s.cache, key, fingerprint, now, ttl, maxEntries);
      AdmitKeepsOk(s, t, fingerprint, cache, entry, maxEntries);
    case OperationRaises(t, error) =>
      var r := s.threads[t].ref;
      assert StatusOk(s, t);
      CompleteKeepsOk(s, t, r, s.cache.cells[r].(error := Some(error), complete := true, event := true), maxEntries);
    case OperationReturns(t, result, saveError) =>
      var r := s.threads[t].ref;
      assert StatusOk(s, t);
      CompleteKeepsOk(s, t, r, Succeeded(s.cache, r, result, saveError).cells[r], maxEntries);
    case ResultUnusable(t) => AbandonKeepsOk(s, t, maxEntries);
    case Wake(t) => WakeKeepsOk(s, t, maxEntries);
    case Length(now) =>
      PruneKeepsOk(s.cache, now, maxEntries);
      forall u | u in s.threads ensures StatusOk(Step(s, e, ttl, maxEntries), u) {
        assert StatusOk(s, u);
      }
  }

  /** At most one execution of a key is in flight. */
  lemma OneExecutionInFlight(s: System, maxEntries: nat, t: Thread, u: Thread)
    requires SystemOk(s, maxEntries)
    requires t in s.threads && s.threads[t].Executing? && u in s.threads && s.threads[u].Executing?
    requires s.cache.cells[s.threads[t].ref].key == s.cache.cells[s.threads[u].ref].key
    ensures t == u
  {
    assert StatusOk(s, t) && StatusOk(s, u);
  }

  /** A joiner is left waiting for an entry that nobody executes exactly when the entry's
      owner got a result that is no mapping. */
  lemma JoinerIsLeftIff(s: System, maxEntries: nat, t: Thread)
    requires SystemOk(s, maxEntries) && t in s.threads && s.threads[t].Waiting?
    ensures var r := s.threads[t].ref;
            && r < |s.owners|
            && (!Enabled(s, Wake(t)) && (forall u | u in s.threads :: s.threads[u] != Executing(r))
                <==> s.owners[r] in s.threads && s.threads[s.owners[r]] == Abandoned(r))
  {
    var r := s.threads[t].ref;
    assert StatusOk(s, t);
    if s.owners[r] in s.threads { assert StatusOk(s, s.owners[r]); }
    forall u | u in s.threads && s.threads[u] == Executing(r) ensures u == s.owners[r] {
      assert StatusOk(s, u);
    }
  }

  /** Owner and joiners of one entry end with the same outcome. */
  lemma SameOutcome(s: System, maxEntries: nat, t: Thread, u: Thread)
    requires SystemOk(s, maxEntries)
    requires t in s.threads && s.threads[t].Finished? && u in s.threads && s.threads[u].Finished?
    requires s.threads[t].ref == s.threads[u].ref
    ensures s.threads[t].outcome == s.threads[u].outcome
  {
    assert StatusOk(s, t) && StatusOk(s, u);
  }

  // ------------------------------------------------------------------
  // Whole runs
  // ------------------------------------------------------------------

  ghost predicate Run(states: seq<System>, events: seq<Event>, ttl: real, maxEntries: nat) {
    |states| == |events| + 1 && forall i: nat | i < |events| :: Moves(states, events, ttl, maxEntries, i)
  }

  /** Step `i` of a run. */
  ghost predicate Moves(states: seq<System>, events: seq<Event>, ttl: real, maxEntries: nat, i: nat)
    requires |states| == |events| + 1 && i < |events|
  {
    Enabled(states[i], events[i]) && states[i + 1] == Step(states[i], events[i], ttl, maxEntries)
  }

  lemma {:induction false} RunKeepsOk(states: seq<System>, events: seq<Event>, ttl: real, maxEntries: nat, n: nat)
    requires Run(states, events, ttl, maxEntries) && SystemOk(states[0], maxEntries) && n < |states|
    ensures SystemOk(states[n], maxEntries)
  {
    if n > 0 {
      RunKeepsOk(states, events, ttl, maxEntries, n - 1);
      assert Moves(states, events, ttl, maxEntries, n - 1);
      StepKeepsOk(states[n - 1], events[n - 1], ttl, maxEntries);
    }
  }

  /** Event `i` starts an execution of `key` in cell `ref`. */
  ghost predicate Starts(states: seq<System>, events: seq<Event>, ttl: real, maxEntries: nat, i: nat, key: Key, ref: nat)
    requires |states| == |events| + 1
  {
    && i < |events| && events[i].Call? && events[i].key == key
    && Entered(states[i].cache, key, events[i].fingerprint, events[i].now, ttl, maxEntries).1 == Owner(ref)
  }

  /** Event `m` reads the clock at or after the expiry of the completed cell `ref`. */
  ghost predicate Retires(states: seq<System>, events: seq<Event>, m: nat, ref: nat)
    requires |states| == |events| + 1
  {
    && m < |events| && ref < |states[m].cache.cells| && states[m].cache.cells[ref].complete
    && (events[m].Call? || events[m].Length?) && events[m].now >= states[m].cache.cells[ref].expiresAt
  }

  /** A cell keeps its key, fingerprint and expiry, and is final once complete. */
  ghost predicate CellPersists(s: System, s': System, ref: nat) {
    ref < |s.cache.cells| ==>
      && ref < |s'.cache.cells|
      && var c, d := s.cache.cells[ref], s'.cache.cells[ref];
      && d.key == c.key && d.fingerprint == c.fingerprint && d.expiresAt == c.expiresAt
      && (c.complete ==> d == c)
  }

  /** The entry that thread `t` made, joined or finished with. */
  ghost predicate RefersTo(s: System, t: Thread, ref: nat) {
    t in s.threads && !s.threads[t].TurnedAway? && s.threads[t].ref == ref
  }

  lemma StepCellPersists(s: System, e: Event, ttl: real, maxEntries: nat, ref: nat)
    requires SystemOk(s, maxEntries) && Enabled(s, e)
    ensures CellPersists(s, Step(s, e, ttl, maxEntries), ref)
  {
    match e
    case Call(_, key, fingerprint, now) =>
      EnteredHasShape(s.cache, key, fingerprint, now, ttl, maxEntries);
      var cells := Entered(s.cache, key, fingerprint, now, ttl, maxEntries).0.cells;
      assert ref < |s.cache.cells| ==> cells[ref] == cells[..|s.cache.cells|][ref];
    case OperationRaises(t, _) => assert StatusOk(s, t);
    case OperationReturns(t, _, _) => assert StatusOk(s, t);
    case _ =>
  }

  lemma RunCellPersists(states: seq<System>, events: seq<Event>, ttl: real, maxEntries: nat, j: nat, ref: nat)
    requires Run(states, events, ttl, maxEntries) && SystemOk(states[0], maxEntries) && j < |events|
    ensures CellPersists(states[j], states[j + 1], ref)
  {
    RunKeepsOk(states, events, ttl, maxEntries, j);
    assert Moves(states, events, ttl, maxEntries, j);
    StepCellPersists(states[j], events[j], ttl, maxEntries, ref);
  }

  lemma StepKeepsRef(s: System, e: Event, ttl: real, maxEntries: nat, ref: nat, t: Thread)
    requires Enabled(s, e) && RefersTo(s, t, ref)
    ensures RefersTo(Step(s, e, ttl, maxEntries), t, ref)
  {
  }

  lemma {:induction false} CellPersistsOn(states: seq<System>, events: seq<Event>, ttl: real, maxEntries: nat, i: nat, j: nat, ref: nat)
    requires Run(states, events, ttl, maxEntries) && SystemOk(states[0], maxEntries) && i <= j < |states|
    ensures CellPersists(states[i], states[j], ref)
    decreases j - i
  {
    if i < j {
      CellPersistsOn(states, events, ttl, maxEntries, i, j - 1, ref);
      RunCellPersists(states, events, ttl, maxEntries, j - 1, ref);
    }
  }

  lemma {:induction false} RefPersistsOn(states: seq<System>, events: seq<Event>, ttl: real, maxEntries: nat,
                                         i: nat, j: nat, ref: nat, t: Thread)
    requires Run(states, events, ttl, maxEntries) && i <= j < |states| && RefersTo(states[i], t, ref)
    ensures RefersTo(states[j], t, ref)
    decreases j - i
  {
    if i < j {
      RefPersistsOn(states, events, ttl, maxEntries, i, j - 1, ref, t);
      assert Moves(states, events, ttl, maxEntries, j - 1);
      StepKeepsRef(states[j - 1], events[j - 1], ttl, maxEntries, ref, t);
    }
  }

  lemma StepKeepsAbandoned(s: System, e: Event, ttl: real, maxEntries: nat, t: Thread, ref: nat)
    requires SystemOk(s, maxEntries) && Enabled(s, e) && t in s.threads && s.threads[t] == Abandoned(ref)
    ensures var s' := Step(s, e, ttl, maxEntries); t in s'.threads && s'.threads[t] == Abandoned(ref)
  {
  }

  lemma {:induction false} StaysAbandoned(states: seq<System>, events: seq<Event>, ttl: real, maxEntries: nat,
                                          i: nat, j: nat, t: Thread, ref: nat)
    requires Run(states, events, ttl, maxEntries) && SystemOk(states[0], maxEntries) && i <= j < |states|
    requires t in states[i].threads && states[i].threads[t] == Abandoned(ref)
    ensures t in states[j].threads && states[j].threads[t] == Abandoned(ref)
    decreases j - i
  {
    if i < j {
      StaysAbandoned(states, events, ttl, maxEntries, i, j - 1, t, ref);
      RunKeepsOk(states, events, ttl, maxEntries, j - 1);
      assert Moves(states, events, ttl, maxEntries, j - 1);
      StepKeepsAbandoned(states[j - 1], events[j - 1], ttl, maxEntries, t, ref);
    }
  }

  /** And an abandoned entry stays open in every run: its joiners wait for good, and its
      key is never executed again. */
  lemma AbandonedStaysOpen(states: seq<System>, events: seq<Event>, ttl: real, maxEntries: nat, i: nat, j: nat, t: Thread, ref: nat)
    requires Run(states, events, ttl, maxEntries) && SystemOk(states[0], maxEntries) && i <= j < |states|
    requires t in states[i].threads && states[i].threads[t] == Abandoned(ref)
    ensures ref < |states[j].cache.cells| && !states[j].cache.cells[ref].complete
    ensures Holds(states[j], states[j].cache.cells[ref].key, ref)
  {
    StaysAbandoned(states, events, ttl, maxEntries, i, j, t, ref);
    RunKeepsOk(states, events, ttl, maxEntries, j);
    assert StatusOk(states[j], t);
  }

  ghost predicate Holds(s: System, key: Key, ref: nat) {
    key in s.cache.entries && s.cache.entries[key] == ref
  }

  lemma StepHolds(s: System, e: Event, ttl: real, maxEntries: nat, key: Key, ref: nat)
    requires SystemOk(s, maxEntries) && Enabled(s, e) && Holds(s, key, ref)
    ensures Holds(Step(s, e, ttl, maxEntries), key, ref)
            || ((e.Call? || e.Length?) && ref < |s.cache.cells| && s.cache.cells[ref].complete && e.now >= s.cache.cells[ref].expiresAt)
  {
  }

  /** What becoming the owner leaves behind. */
  ghost predicate Owned(s: System, thread: Thread, key: Key, fingerprint: string, expiresAt: real, ref: nat) {
    && Holds(s, key, ref) && RefersTo(s, thread, ref) && ref < |s.cache.cells|
    && s.cache.cells[ref] == Cell(key, fingerprint, expiresAt, None, None, false, false)
  }

  lemma OwnerOwns(s: System, e: Event, ttl: real, maxEntries: nat, ref: nat)
    requires e.Call? && Enabled(s, e)
    requires Entered(s.cache, e.key, e.fingerprint, e.now, ttl, maxEntries).1 == Owner(ref)
    ensures Owned(Step(s, e, ttl, maxEntries), e.thread, e.key, e.fingerprint, e.now + ttl, ref)
  {
  }

  lemma StartOwns(states: seq<System>, events: seq<Event>, ttl: real, maxEntries: nat, i: nat, key: Key, ref: nat)
    requires Run(states, events, ttl, maxEntries) && Starts(states, events, ttl, maxEntries, i, key, ref)
    ensures Owned(states[i + 1], events[i].thread, key, events[i].fingerprint, events[i].now + ttl, ref)
  {
    assert Moves(states, events, ttl, maxEntries, i);
    OwnerOwns(states[i], events[i], ttl, maxEntries, ref);
  }

  lemma RunHolds(states: seq<System>, events: seq<Event>, ttl: real, maxEntries: nat, j: nat, key: Key, ref: nat)
    requires Run(states, events, ttl, maxEntries) && SystemOk(states[0], maxEntries) && j < |events|
    requires Holds(states[j], key, ref)
    ensures Holds(states[j + 1], key, ref) || Retires(states, events, j, ref)
  {
    RunKeepsOk(states, events, ttl, maxEntries, j);
    assert Moves(states, events, ttl, maxEntries, j);
    StepHolds(states[j], events[j], ttl, maxEntries, key, ref);
  }

  /** While a started entry has not been retired, the dict still holds it. */
  lemma {:induction false} HeldUntilRetired(states: seq<System>, events: seq<Event>, ttl: real, maxEntries: nat,
                                            i: nat, j: nat, key: Key, ref: nat)
    requires Run(states, events, ttl, maxEntries) && SystemOk(states[0], maxEntries)
    requires i < j < |states| && Starts(states, events, ttl, maxEntries, i, key, ref)
    ensures Holds(states[j], key, ref) || exists m :: i < m < j && Retires(states, events, m, ref)
    decreases j
  {
    if i + 1 < j {
      HeldUntilRetired(states, events, ttl, maxEntries, i, j - 1, key, ref);
      if Holds(states[j - 1], key, ref) {
        RunHolds(states, events, ttl, maxEntries, j - 1, key, ref);
      }
    } else {
      StartOwns(states, events, ttl, maxEntries, i, key, ref);
    }
  }

  /** A second execution of a key starts only after the first entry completed and
      some clock reading reached its expiry, a full ttl after it was made. */
  lemma SecondExecutionWaits(states: seq<System>, events: seq<Event>, ttl: real, maxEntries: nat,
                             i: nat, j: nat, key: Key, ref: nat, ref': nat)
    requires Run(states, events, ttl, maxEntries) && SystemOk(states[0], maxEntries) && i < j
    requires Starts(states, events, ttl, maxEntries, i, key, ref) && Starts(states, events, ttl, maxEntries, j, key, ref')
    ensures exists m :: i < m <= j && Retires(states, events, m, ref) && events[m].now >= events[i].now + ttl
  {
    HeldUntilRetired(states, events, ttl, maxEntries, i, j, key, ref);
    RunKeepsOk(states, events, ttl, maxEntries, j);
    if Holds(states[j], key, ref) {
      assert Retires(states, events, j, ref);
    }
    var m :| i < m <= j && Retires(states, events, m, ref);
    StartOwns(states, events, ttl, maxEntries, i, key, ref);
    CellPersistsOn(states, events, ttl, maxEntries, i + 1, m, ref);
  }

  lemma JoinerRefers(states: seq<System>, events: seq<Event>, ttl: real, maxEntries: nat, j: nat, ref: nat)
    requires Run(states, events, ttl, maxEntries) && SystemOk(states[0], maxEntries) && j < |events|
    requires events[j].Call? && Entered(states[j].cache, events[j].key, events[j].fingerprint, events[j].now, ttl, maxEntries).1 == Joiner(ref)
    ensures RefersTo(states[j + 1], events[j].thread, ref) && ref < |states[j].cache.cells|
    ensures states[j].cache.cells[ref].key == events[j].key && states[j].cache.cells[ref].fingerprint == events[j].fingerprint
  {
    RunKeepsOk(states, events, ttl, maxEntries, j);
    assert Moves(states, events, ttl, maxEntries, j);
  }

  lemma JoinerSharesFingerprint(states: seq<System>, events: seq<Event>, ttl: real, maxEntries: nat,
                                i: nat, j: nat, key: Key, ref: nat)
    requires Run(states, events, ttl, maxEntries) && SystemOk(states[0], maxEntries) && i < j < |events|
    requires Starts(states, events, ttl, maxEntries, i, key, ref)
    requires events[j].Call? && Entered(states[j].cache, events[j].key, events[j].fingerprint, events[j].now, ttl, maxEntries).1 == Joiner(ref)
    ensures events[j].key == key && events[j].fingerprint == events[i].fingerprint
    ensures forall n | j < n < |states| :: RefersTo(states[n], events[i].thread, ref) && RefersTo(states[n], events[j].thread, ref)
  {
    StartOwns(states, events, ttl, maxEntries, i, key, ref);
    JoinerRefers(states, events, ttl, maxEntries, j, ref);
    CellPersistsOn(states, events, ttl, maxEntries, i + 1, j, ref);
    forall n | j < n < |states| ensures RefersTo(states[n], events[i].thread, ref) && RefersTo(states[n], events[j].thread, ref) {
      RefPersistsOn(states, events, ttl, maxEntries, i + 1, n, ref, events[i].thread);
      RefPersistsOn(states, events, ttl, maxEntries, j + 1, n, ref, events[j].thread);
    }
  }

  /** A joiner shares the fingerprint of the execution it joins and, when both are
      done, its outcome, whether the operation returned, raised, or was not saved. */
  lemma JoinerEndsLikeOwner(states: seq<System>, events: seq<Event>, ttl: real, maxEntries: nat,
                            i: nat, j: nat, n: nat, key: Key, ref: nat)
    requires Run(states, events, ttl, maxEntries) && SystemOk(states[0], maxEntries)
    requires i < j < n < |states| && Starts(states, events, ttl, maxEntries, i, key, ref)
    requires events[j].Call? && Entered(states[j].cache, events[j].key, events[j].fingerprint, events[j].now, ttl, maxEntries).1 == Joiner(ref)
    requires var s := states[n]; var owner, joiner := events[i].thread, events[j].thread;
             owner in s.threads && s.threads[owner].Finished? && joiner in s.threads && s.threads[joiner].Finished?
    ensures events[j].key == key && events[j].fingerprint == events[i].fingerprint
    ensures states[n].threads[events[i].thread].outcome == states[n].threads[events[j].thread].outcome
  {
    var owner, joiner := events[i].thread, events[j].thread;
    JoinerSharesFingerprint(states, events, ttl, maxEntries, i, j, key, ref);
    RunKeepsOk(states, events, ttl, maxEntries, n);
    assert RefersTo(states[n], owner, ref) && RefersTo(states[n], joiner, ref);
    SameOutcome(states[n], maxEntries, owner, joiner);
  }
}
