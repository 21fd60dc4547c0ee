/** identity/transport_generation.py: the manager that owns the generations and commits
    every change to disk before it counts. */
module TransportManager {
  import opened Dicts
  import opened Json
  import opened Wrappers
  import T = TransportGenerations

  /** A state and the document on disk. */
  datatype Durable = Durable(state: T.State, disk: Option<Object>)

  /** What an operation does, given its plan and whether the save goes through. */
  function Carry(plan: T.Plan, saves: bool, d: Durable): (Durable, Result<T.Generation, T.Error>)
    requires plan.Commit? ==> plan.state.current.Some?
  {
    match plan
    case Refused(e) => (d, Err(e))
    case Keep(item) => (d, Ok(item))
    case Commit(state, item) =>
      if saves then (Durable(state, Some(T.ToDict(state))), Ok(item)) else (d, Err(T.NotPersisted))
  }

  class TransportGenerationManager {
    const identity: T.Identity
    const graceSeconds: real
    var current: Option<T.Generation>
    var accepted: T.Accepted
    var next: Option<T.Generation>
    /** The document on disk, if any. */
    var stored: Option<Object>

    ghost function Abstract(): T.State
      reads this
    {
      T.State(current, accepted, next)
    }

    ghost function Here(): Durable
      reads this
    {
      Durable(Abstract(), stored)
    }

    /** The state is good, and it is what a restart would load from the disk. */
    ghost predicate Valid()
      reads this
    {
      && T.Honest(identity)
      && T.Good(identity, Abstract())
      && (if stored.Some? then T.Load(identity, stored.value) == Ok(Abstract()) else Abstract() == T.EMPTY)
    }

    /** A manager without a file. */
    constructor (identity: T.Identity, graceSeconds: real)
      requires T.Honest(identity)
      ensures Valid() && Abstract() == T.EMPTY && stored == None
      ensures this.identity == identity && this.graceSeconds == graceSeconds
    {
      this.identity, this.graceSeconds := identity, graceSeconds;
      current, accepted, next, stored := None, [], None, None;
    }

    /** `_load`, at construction from a file, which is then what is stored: a rejected
        document changes nothing. */
    method LoadDocument(document: Object) returns (r: Result<(), T.Error>)
      requires T.Honest(identity)
      modifies this
      ensures r.Ok? <==> T.Load(identity, document).Ok?
      ensures r.Ok? ==> Valid() && T.Load(identity, document) == Ok(Abstract()) && stored == Some(document)
      ensures r.Err? ==> r.error == T.Malformed && unchanged(this)
    {
      var version := Lookup(document, "version");
      if NumberEquals(version, 1) {
        var fingerprint := Lookup(document, "fingerprint");
        if !fingerprint.JStr? || fingerprint.str == "" { return Err(T.Malformed); }
        current, accepted, next := Some(T.Sign(identity, 1, fingerprint.str).value), [], None;
        stored := Some(document);
        return Ok(());
      }
      if !NumberEquals(version, 2) || "current" !in document || "accepted" !in document { return Err(T.Malformed); }
      var loadedCurrent := T.Decode(identity, document["current"]);
      if loadedCurrent.Err? || !document["accepted"].JList? { return Err(T.Malformed); }
      var limit := loadedCurrent.value.generation;
      var retained := DecodeAll(document["accepted"].items, limit);
      if retained.Err? { return Err(T.Malformed); }
      var loadedNext := T.DecodeNext(identity, Lookup(document, "next"), limit, retained.value);
      if loadedNext.Err? { return Err(T.Malformed); }
      current, accepted, next := Some(loadedCurrent.value), retained.value, loadedNext.value;
      stored := Some(document);
      T.LoadIsStrict(identity, document);
      return Ok(());
    }

    /** The loop of `_load` over the accepted generations. */
    method DecodeAll(raws: seq<Json>, limit: int) returns (r: Result<T.Accepted, T.Error>)
      ensures r == T.DecodeAccepted(identity, raws, limit)
    {
      var retained := [];
      for i := 0 to |raws|
        invariant T.DecodeAccepted(identity, raws[..i], limit) == Ok(retained)
      {
        assert raws[..i + 1][..i] == raws[..i];
        var entry := T.DecodeEntry(identity, raws[i], limit, retained);
        if entry.Err? {
          T.RejectedPrefix(identity, raws, i + 1, limit);
          return Err(T.Malformed);
        }
        retained := retained + [entry.value];
      }
      assert raws[..|raws|] == raws;
      return Ok(retained);
    }

    /** `_commit`: assign, save, and put the old fields back when the save fails. */
    method Commit(newCurrent: T.Generation, newAccepted: T.Accepted, newNext: Option<T.Generation>, saves: bool)
      returns (r: Result<(), T.Error>)
      requires Valid() && T.Good(identity, T.State(Some(newCurrent), newAccepted, newNext))
      modifies this
      ensures Valid()
      ensures saves ==> r == Ok(()) && Abstract() == T.State(Some(newCurrent), newAccepted, newNext)
                              && stored == Some(T.ToDict(Abstract()))
      ensures !saves ==> r == Err(T.NotPersisted) && Abstract() == old(Abstract()) && stored == old(stored)
    {
      var snapshot := (current, accepted, next);
      current, accepted, next := Some(newCurrent), newAccepted, newNext;
      if !saves {
        current, accepted, next := snapshot.0, snapshot.1, snapshot.2;
        return Err(T.NotPersisted);
      }
      stored := Some(T.ToDict(T.State(current, accepted, next)));
      T.LoadToDict(identity, Abstract());
      return Ok(());
    }

    method Initialize(fingerprint: string, saves: bool) returns (r: Result<T.Generation, T.Error>)
      requires Valid()
      modifies this
      ensures Valid() && (Here(), r) == Carry(T.Initialize(identity, old(Abstract()), fingerprint), saves, old(Here()))
    {
      if current.Some? {
        if current.value.fingerprint != fingerprint { return Err(T.StateError); }
        return Ok(current.value);
      }
      var candidate :- T.Sign(identity, 1, fingerprint);
      var _ :- Commit(candidate, [], None, saves);
      return Ok(candidate);
    }

    method Prepare(fingerprint: string, saves: bool) returns (r: Result<T.Generation, T.Error>)
      requires Valid()
      modifies this
      ensures Valid() && (Here(), r) == Carry(T.Prepare(identity, old(Abstract()), fingerprint), saves, old(Here()))
    {
      if current.None? {
        r := Initialize(fingerprint, saves);
        return;
      }
      if next.Some? { return Err(T.Conflict); }
      T.PrepareKeepsGood(identity, Abstract(), fingerprint);
      var candidate :- T.Sign(identity, T.Highest(T.State(current, accepted, next)) + 1, fingerprint);
      var _ :- Commit(current.value, accepted, Some(candidate), saves);
      return Ok(candidate);
    }

    /** `now` is the reading of the clock. */
    method Activate(generation: int, now: real, saves: bool) returns (r: Result<T.Generation, T.Error>)
      requires Valid()
      modifies this
      ensures Valid() && (Here(), r) == Carry(T.Activate(old(Abstract()), generation, now + graceSeconds), saves, old(Here()))
    {
      if next.None? || next.value.generation != generation || current.None? { return Err(T.StateError); }
      T.ActivateKeepsGood(identity, Abstract(), generation, now + graceSeconds);
      var retained := Put(accepted, current.value.generation, T.Held(current.value, Some(now + graceSeconds)));
      var _ :- Commit(next.value, retained, None, saves);
      return Ok(current.value);
    }

    method Retire(generation: int, saves: bool) returns (r: Result<T.Generation, T.Error>)
      requires Valid()
      modifies this
      ensures Valid() && (Here(), r) == Carry(T.Retire(old(Abstract()), generation), saves, old(Here()))
    {
      if current.None? || generation == current.value.generation { return Err(T.StateError); }
      T.RetireKeepsGood(identity, Abstract(), generation);
      var _ :- Commit(current.value, Drop(accepted, generation), next, saves);
      return Ok(current.value);
    }

    /** `accepted`: whether a connection with this fingerprint is admitted. */
    method Accepted(fingerprint: string, now: real) returns (ok: bool)
      ensures ok <==> T.Admitted(Abstract(), fingerprint, now)
    {
      if current.Some? && current.value.fingerprint == fingerprint { return true; }
      for i := 0 to |accepted|
        invariant forall k | 0 <= k < i ::
          accepted[k].1.item.fingerprint != fingerprint || (accepted[k].1.expiry.Some? && accepted[k].1.expiry.value < now)
      {
        var held := accepted[i].1;
        if held.item.fingerprint == fingerprint && (held.expiry.None? || held.expiry.value >= now) {
          assert accepted[i] in accepted;
          return true;
        }
      }
      return false;
    }

    method Rollback(saves: bool) returns (r: Result<T.Generation, T.Error>)
      requires Valid()
      modifies this
      ensures Valid() && (Here(), r) == Carry(T.Rollback(old(Abstract())), saves, old(Here()))
    {
      if next.None? || current.None? { return Err(T.StateError); }
      var _ :- Commit(current.value, accepted, None, saves);
      return Ok(current.value);
    }

    method RollbackActive(saves: bool) returns (r: Result<T.Generation, T.Error>)
      requires Valid()
      modifies this
      ensures Valid() && (Here(), r) == Carry(T.RollbackActive(old(Abstract())), saves, old(Here()))
    {
      if accepted == [] { return Err(T.StateError); }
      T.RollbackActiveKeepsGood(identity, Abstract());
      assert accepted[0].0 in T.Keys(accepted);
      var previousGeneration := T.Largest(T.Keys(accepted));
      FindMeans(accepted, previousGeneration);
      var previous := Find(accepted, previousGeneration).value.item;
      var _ :- Commit(previous, Drop(accepted, previousGeneration), None, saves);
      return Ok(previous);
    }
  }
}
