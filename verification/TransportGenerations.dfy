/** identity/transport_generation.py: signed transport generations, their rotation, and
    the document that makes them durable. */
module TransportGenerations {
  import opened Dicts
  import opened Wrappers
  import opened Json

  datatype Error =
    | StateError // TransportStateError of an operation
    | Conflict   // RotationConflict
    | NotPersisted
    | Malformed  // StateDataError of the loader

  /** The node's signing identity. */
  datatype Identity = Identity(sign: (int, string) -> string, verify: (int, string, string) -> bool)

  /** What was signed verifies. */
  ghost predicate Honest(id: Identity) {
    forall generation, fingerprint :: id.verify(generation, fingerprint, id.sign(generation, fingerprint))
  }

  datatype Generation = TransportGeneration(generation: int, fingerprint: string, proof: string)

  /** A former generation, and until when it is admitted. */
  datatype Held = Held(item: Generation, expiry: Option<real>)

  type Accepted = Dict<int, Held>

  datatype State = State(current: Option<Generation>, accepted: Accepted, next: Option<Generation>)

  const EMPTY: State := State(None, [], None)

  function Keys(accepted: Accepted): set<int> {
    set i | 0 <= i < |accepted| :: accepted[i].0
  }

  // ------------------------------------------------------------------
  // The invariant
  // ------------------------------------------------------------------

  ghost predicate Genuine(id: Identity, g: Generation) {
    g.generation >= 1 && g.fingerprint != "" && id.verify(g.generation, g.fingerprint, g.proof)
  }

  ghost predicate Retained(id: Identity, accepted: Accepted, limit: int) {
    && DistinctKeys(accepted)
    && forall i | 0 <= i < |accepted| ::
         accepted[i].0 == accepted[i].1.item.generation < limit && Genuine(id, accepted[i].1.item)
  }

  /** accepted generations < current < next, keys matching their items, and valid proofs. */
  ghost predicate Good(id: Identity, s: State) {
    match s.current
    case None => s == EMPTY
    case Some(current) =>
      && Genuine(id, current)
      && Retained(id, s.accepted, current.generation)
      && (s.next.Some? ==> Genuine(id, s.next.value) && current.generation < s.next.value.generation)
  }

  // ------------------------------------------------------------------
  // Operations
  // ------------------------------------------------------------------

  /** What an operation asks of `_commit`, and the generation it returns on success. */
  datatype Plan = Refused(error: Error) | Keep(item: Generation) | Commit(state: State, item: Generation)

  function Sign(id: Identity, generation: int, fingerprint: string): Result<Generation, Error> {
    if fingerprint == "" then Err(StateError)
    else Ok(TransportGeneration(generation, fingerprint, id.sign(generation, fingerprint)))
  }

  function Largest(s: set<int>): (m: int)
    requires s != {}
    ensures m in s && forall x | x in s :: x <= m
  {
    HasLargest(s);
    var m :| m in s && forall x | x in s :: x <= m;
    m
  }

  lemma Member<T>(s: set<T>) returns (x: T)
    requires s != {}
    ensures x in s
  {
    x :| x in s;
  }

  lemma HasLargest(s: set<int>)
    requires s != {}
    ensures exists x :: x in s && forall y | y in s :: y <= x
  {
    var x := Member(s);
    if s - {x} != {} {
      HasLargest(s - {x});
      var m :| m in s - {x} && forall y | y in s - {x} :: y <= m;
      var best := if x <= m then m else x;
      assert best in s && forall y | y in s :: y == x || y in s - {x};
    } else {
      assert forall y | y in s :: y == x || y in s - {x};
    }
  }

  function Highest(s: State): int {
    var all := Keys(s.accepted)
             + (if s.current.Some? then {s.current.value.generation} else {})
             + (if s.next.Some? then {s.next.value.generation} else {});
    if all == {} then 0 else Largest(all)
  }

  function Initialize(id: Identity, s: State, fingerprint: string): Plan {
    match s.current
    case Some(current) => if current.fingerprint != fingerprint then Refused(StateError) else Keep(current)
    case None =>
      match Sign(id, 1, fingerprint)
      case Err(e) => Refused(e)
      case Ok(candidate) => Commit(State(Some(candidate), [], None), candidate)
  }

  function Prepare(id: Identity, s: State, fingerprint: string): Plan {
    if s.current.None? then Initialize(id, s, fingerprint)
    else if s.next.Some? then Refused(Conflict)
    else match Sign(id, Highest(s) + 1, fingerprint)
      case Err(e) => Refused(e)
      case Ok(candidate) => Commit(s.(next := Some(candidate)), candidate)
  }

  function Activate(s: State, generation: int, until: real): Plan {
    if s.next.None? || s.next.value.generation != generation then Refused(StateError)
    else match s.current
      case None => Refused(StateError)
      case Some(current) =>
        Commit(State(s.next, Put(s.accepted, current.generation, Held(current, Some(until))), None), s.next.value)
  }

  function Retire(s: State, generation: int): Plan {
    match s.current
    case None => Refused(StateError)
    case Some(current) =>
      if generation == current.generation then Refused(StateError)
      else Commit(s.(accepted := Drop(s.accepted, generation)), current)
  }

  function Rollback(s: State): Plan {
    if s.next.None? || s.current.None? then Refused(StateError) else Commit(s.(next := None), s.current.value)
  }

  function RollbackActive(s: State): Plan {
    if s.accepted == [] then Refused(StateError)
    else
      assert s.accepted[0].0 in Keys(s.accepted);
      var previous := Largest(Keys(s.accepted));
      FindMeans(s.accepted, previous);
      var item := Find(s.accepted, previous).value.item;
      Commit(State(Some(item), Drop(s.accepted, previous), None), item)
  }

  /** Whether a connection with this fingerprint is admitted. */
  predicate Admitted(s: State, fingerprint: string, now: real) {
    || (s.current.Some? && s.current.value.fingerprint == fingerprint)
    || exists e | e in s.accepted :: e.1.item.fingerprint == fingerprint && (e.1.expiry.None? || e.1.expiry.value >= now)
  }

  // ------------------------------------------------------------------
  // Every operation keeps the invariant
  // ------------------------------------------------------------------

  lemma DropKeepsRetained(id: Identity, accepted: Accepted, key: int, limit: int)
    requires Retained(id, accepted, limit)
    ensures Retained(id, Drop(accepted, key), limit)
    ensures forall e | e in Drop(accepted, key) :: e in accepted && e.0 != key
  {
    var rest := Drop(accepted, key);
    DropEffect(accepted, key);
    forall i | 0 <= i < |rest| ensures rest[i] in accepted {
      assert rest[i] in rest;
    }
  }

  lemma RetainedBelow(id: Identity, accepted: Accepted, limit: int, lower: int)
    requires Retained(id, accepted, limit) && forall e | e in accepted :: e.0 < lower
    ensures Retained(id, accepted, lower)
  {
    forall i | 0 <= i < |accepted| ensures accepted[i].0 < lower {
      assert accepted[i] in accepted;
    }
  }

  /** With no rotation pending the highest known generation is the current one. */
  lemma HighestIsCurrent(id: Identity, s: State)
    requires Good(id, s) && s.current.Some? && s.next.None?
    ensures Highest(s) == s.current.value.generation
  {
    var all := Keys(s.accepted) + {s.current.value.generation};
    assert Highest(s) == Largest(all + {});
    assert forall k | k in all :: k <= s.current.value.generation;
  }

  lemma PrepareKeepsGood(id: Identity, s: State, fingerprint: string)
    requires Honest(id) && Good(id, s)
    ensures var plan := Prepare(id, s, fingerprint); plan.Commit? ==> Good(id, plan.state) && Genuine(id, plan.item)
  {
    if s.current.Some? && s.next.None? { HighestIsCurrent(id, s); }
  }

  lemma ActivateKeepsGood(id: Identity, s: State, generation: int, until: real)
    requires Good(id, s)
    ensures var plan := Activate(s, generation, until); plan.Commit? ==> Good(id, plan.state) && Genuine(id, plan.item)
  {
    if Activate(s, generation, until).Commit? {
      var key, held := s.current.value.generation, Held(s.current.value, Some(until));
      PutNew(s.accepted, key, held);
      var accepted := s.accepted + [(key, held)];
      forall i | 0 <= i < |accepted| ensures accepted[i] == (if i < |s.accepted| then s.accepted[i] else (key, held)) {
      }
    }
  }

  lemma RetireKeepsGood(id: Identity, s: State, generation: int)
    requires Good(id, s)
    ensures var plan := Retire(s, generation); plan.Commit? ==> Good(id, plan.state) && Genuine(id, plan.item)
  {
    if s.current.Some? { DropKeepsRetained(id, s.accepted, generation, s.current.value.generation); }
  }

  lemma RollbackActiveKeepsGood(id: Identity, s: State)
    requires Good(id, s)
    ensures var plan := RollbackActive(s); plan.Commit? ==> Good(id, plan.state) && Genuine(id, plan.item)
  {
    if s.accepted != [] {
      var limit := s.current.value.generation;
      assert s.accepted[0].0 in Keys(s.accepted);
      var previous := Largest(Keys(s.accepted));
      DropKeepsRetained(id, s.accepted, previous, limit);
      var rest := Drop(s.accepted, previous);
      forall e | e in rest ensures e.0 < previous {
        var i :| 0 <= i < |s.accepted| && s.accepted[i] == e;
        assert s.accepted[i].0 in Keys(s.accepted);
      }
      RetainedBelow(id, rest, limit, previous);
      FindMeans(s.accepted, previous);
    }
  }

  // ------------------------------------------------------------------
  // What an operation does
  // ------------------------------------------------------------------

  /** The first generation is number 1; asking for it again changes nothing, and another
      fingerprint is refused. */
  lemma InitializedOnce(id: Identity, fingerprint: string, other: string)
    requires Honest(id) && fingerprint != ""
    ensures var first := Initialize(id, EMPTY, fingerprint);
            && first == Prepare(id, EMPTY, fingerprint)
            && first.Commit? && Good(id, first.state) && first.item.generation == 1 && first.item.fingerprint == fingerprint
            && Initialize(id, first.state, other) ==
               if other == fingerprint then Keep(first.item) else Refused(StateError)
  {
  }

  /** Retiring removes exactly that generation, never the current one, and is refused
      only for it. */
  lemma RetiredIsGone(id: Identity, s: State, generation: int, fingerprint: string, now: real)
    requires Good(id, s) && s.current.Some?
    ensures var plan := Retire(s, generation);
            if generation == s.current.value.generation then plan.Refused?
            else
              && plan.Commit? && plan.state == s.(accepted := plan.state.accepted)
              && (forall e :: e in plan.state.accepted <==> e in s.accepted && e.0 != generation)
              && (Admitted(plan.state, fingerprint, now) ==> Admitted(s, fingerprint, now))
  {
    forall e ensures e in Drop(s.accepted, generation) <==> e in s.accepted && e.0 != generation {
      DropMember(s.accepted, generation, e);
    }
  }

  /** `rotate_transport` prepares and then activates `current + 1`. It gets through
      exactly when no rotation is pending and there is a fingerprint to sign; the new
      generation is then in force and the former one is admitted until `until`. */
  lemma Rotation(id: Identity, s: State, fingerprint: string, until: real)
    requires Good(id, s) && s.current.Some?
    ensures var former, prepared := s.current.value, Prepare(id, s, fingerprint);
            if s.next.Some? || fingerprint == "" then prepared.Refused?
            else
              && prepared.Commit? && prepared.item.generation == former.generation + 1
              && var active := Activate(prepared.state, former.generation + 1, until);
              && active.Commit? && active.item == prepared.item
              && active.item.fingerprint == fingerprint && active.state.current == Some(active.item)
              && active.state.next.None?
              && (forall now | now <= until :: Admitted(active.state, former.fingerprint, now))
  {
    if s.next.None? && fingerprint != "" {
      HighestIsCurrent(id, s);
      var former := s.current.value;
      var kept := Held(former, Some(until));
      PutNew(s.accepted, former.generation, kept);
      assert (former.generation, kept) in s.accepted + [(former.generation, kept)];
    }
  }

  /** prepare; activate; rollback_active is the identity. */
  lemma RotationUndone(id: Identity, s: State, fingerprint: string, until: real)
    requires Good(id, s) && s.current.Some? && s.next.None? && fingerprint != ""
    ensures var active := Activate(Prepare(id, s, fingerprint).state, s.current.value.generation + 1, until);
            active.Commit? && RollbackActive(active.state) == Commit(s, s.current.value)
  {
    HighestIsCurrent(id, s);
    PutNew(s.accepted, s.current.value.generation, Held(s.current.value, Some(until)));
    NewestIsRestored(id, s, until, Prepare(id, s, fingerprint).item);
  }

  /** The generation retained last is the one that a rollback restores. */
  lemma NewestIsRestored(id: Identity, s: State, until: real, newer: Generation)
    requires Good(id, s) && s.current.Some? && s.next.None?
    ensures var former := s.current.value;
            var accepted := s.accepted + [(former.generation, Held(former, Some(until)))];
            RollbackActive(State(Some(newer), accepted, None)) == Commit(s, former)
  {
    var last := (s.current.value.generation, Held(s.current.value, Some(until)));
    var accepted := s.accepted + [last];
    DropLast(s.accepted, last.0, last.1);
    assert accepted[|s.accepted|] == last;
    assert last.0 in Keys(accepted);
    assert forall k | k in Keys(accepted) :: k <= last.0;
    assert Largest(Keys(accepted)) == last.0;
    FindItem(accepted, last);
  }

  /** prepare; rollback is the identity. */
  lemma PreparationUndone(id: Identity, s: State, fingerprint: string)
    requires Good(id, s) && s.current.Some? && Prepare(id, s, fingerprint).Commit?
    ensures Rollback(Prepare(id, s, fingerprint).state) == Commit(s, s.current.value)
  {
  }

  // ------------------------------------------------------------------
  // The durable document
  // ------------------------------------------------------------------

  function EncodeItem(g: Generation): Object {
    map["generation" := JInt(g.generation), "fingerprint" := JStr(g.fingerprint), "proof" := JStr(g.proof)]
  }

  function EncodeEntry(e: Held): Json {
    JObj(EncodeItem(e.item)["expires_at" := if e.expiry.Some? then JNum(e.expiry.value) else JNull])
  }

  function EncodeAccepted(accepted: Accepted): seq<Json> {
    seq(|accepted|, i requires 0 <= i < |accepted| => EncodeEntry(accepted[i].1))
  }

  function EncodeNext(next: Option<Generation>): Json {
    if next.Some? then JObj(EncodeItem(next.value)) else JNull
  }

  function ToDict(s: State): Object
    requires s.current.Some?
  {
    map[
      "version" := JInt(2),
      "current" := JObj(EncodeItem(s.current.value)),
      "accepted" := JList(EncodeAccepted(s.accepted)),
      "next" := EncodeNext(s.next)
    ]
  }

  /** A missing key and a value of the wrong type are the same error. */
  function Decode(id: Identity, raw: Json): Result<Generation, Error> {
    if !raw.JObj? then Err(Malformed)
    else
      var generation, fingerprint, proof :=
        Lookup(raw.fields, "generation"), Lookup(raw.fields, "fingerprint"), Lookup(raw.fields, "proof");
      if && generation.JInt? && generation.integer >= 1
         && fingerprint.JStr? && fingerprint.str != ""
         && proof.JStr? && id.verify(generation.integer, fingerprint.str, proof.str)
      then Ok(TransportGeneration(generation.integer, fingerprint.str, proof.str))
      else Err(Malformed)
  }

  function DecodeExpiry(raw: Json): Result<Option<real>, Error> {
    if raw.JNull? then Ok(None)
    else if FiniteNumber(raw).Some? then Ok(FiniteNumber(raw))
    else Err(Malformed)
  }

  /** One more accepted generation after `before`. */
  function DecodeEntry(id: Identity, raw: Json, current: int, before: Accepted): Result<(int, Held), Error> {
    if !raw.JObj? then Err(Malformed)
    else
      var item :- Decode(id, raw);
      if item.generation in Keys(before) || item.generation >= current then Err(Malformed)
      else
        var expiry :- DecodeExpiry(Lookup(raw.fields, "expires_at"));
        Ok((item.generation, Held(item, expiry)))
  }

  function DecodeAccepted(id: Identity, raws: seq<Json>, current: int): Result<Accepted, Error> {
    if raws == [] then Ok([])
    else
      var before :- DecodeAccepted(id, raws[..|raws| - 1], current);
      var entry :- DecodeEntry(id, raws[|raws| - 1], current, before);
      Ok(before + [entry])
  }

  function DecodeNext(id: Identity, raw: Json, current: int, accepted: Accepted): Result<Option<Generation>, Error> {
    if raw.JNull? then Ok(None)
    else
      var item :- Decode(id, raw);
      if item.generation <= current || item.generation in Keys(accepted) then Err(Malformed) else Ok(Some(item))
  }

  /** What `_load` makes of a document. */
  function Load(id: Identity, document: Object): Result<State, Error> {
    var version := Lookup(document, "version");
    if NumberEquals(version, 1) then
      match Lookup(document, "fingerprint")
      case JStr(fingerprint) =>
        if Sign(id, 1, fingerprint).Ok? then Ok(State(Some(Sign(id, 1, fingerprint).value), [], None)) else Err(Malformed)
      case _ => Err(Malformed)
    else if !NumberEquals(version, 2) || "current" !in document || "accepted" !in document then Err(Malformed)
    else
      var current :- Decode(id, document["current"]);
      match document["accepted"]
      case JList(raws) =>
        var accepted :- DecodeAccepted(id, raws, current.generation);
        var next :- DecodeNext(id, Lookup(document, "next"), current.generation, accepted);
        Ok(State(Some(current), accepted, next))
      case _ => Err(Malformed)
  }

  lemma DecodeEncoded(id: Identity, g: Generation, e: Held)
    requires Genuine(id, g) && Genuine(id, e.item)
    ensures Decode(id, JObj(EncodeItem(g))) == Ok(g)
    ensures Decode(id, EncodeEntry(e)) == Ok(e.item) && DecodeExpiry(Lookup(EncodeEntry(e).fields, "expires_at")) == Ok(e.expiry)
  {
  }

  lemma {:induction false} DecodeEncodedAccepted(id: Identity, accepted: Accepted, limit: int)
    requires Retained(id, accepted, limit)
    ensures DecodeAccepted(id, EncodeAccepted(accepted), limit) == Ok(accepted)
  {
    if accepted != [] {
      var n := |accepted| - 1;
      var raws, before, last := EncodeAccepted(accepted), accepted[..n], accepted[n];
      assert Retained(id, before, limit);
      DecodeEncodedAccepted(id, before, limit);
      assert raws[..n] == EncodeAccepted(before);
      DecodeEncoded(id, last.1.item, last.1);
      assert last.0 !in Keys(before);
      assert before + [last] == accepted;
    }
  }

  lemma DecodeEncodedNext(id: Identity, s: State)
    requires Good(id, s) && s.current.Some?
    ensures DecodeNext(id, EncodeNext(s.next), s.current.value.generation, s.accepted) == Ok(s.next)
  {
    if s.next.Some? {
      DecodeEncoded(id, s.next.value, Held(s.next.value, None));
      var next := s.next.value.generation;
      assert next !in Keys(s.accepted);
    }
  }

  /** The loader accepts every good state that was written, and returns it exactly. */
  lemma LoadToDict(id: Identity, s: State)
    requires Good(id, s) && s.current.Some?
    ensures Load(id, ToDict(s)) == Ok(s)
  {
    var current := s.current.value;
    DecodeEncoded(id, current, Held(current, None));
    DecodeEncodedAccepted(id, s.accepted, current.generation);
    DecodeEncodedNext(id, s);
    var document := ToDict(s);
    assert Lookup(document, "version") == JInt(2);
    assert Lookup(document, "next") == EncodeNext(s.next);
    assert document["current"] == JObj(EncodeItem(current));
    assert document["accepted"] == JList(EncodeAccepted(s.accepted));
  }

  lemma {:induction false} DecodedIsRetained(id: Identity, raws: seq<Json>, current: int)
    ensures DecodeAccepted(id, raws, current).Ok? ==> Retained(id, DecodeAccepted(id, raws, current).value, current)
  {
    if raws != [] && DecodeAccepted(id, raws, current).Ok? {
      var n := |raws| - 1;
      DecodedIsRetained(id, raws[..n], current);
      var before := DecodeAccepted(id, raws[..n], current).value;
      var entry := DecodeEntry(id, raws[n], current, before).value;
      forall i | 0 <= i < |before| ensures before[i].0 != entry.0 {
        assert before[i].0 in Keys(before);
      }
    }
  }

  /** Whatever the loader lets through is a good state: nothing in a document that it
      accepts can break the invariant. */
  lemma LoadIsStrict(id: Identity, document: Object)
    requires Honest(id) && Load(id, document).Ok?
    ensures Good(id, Load(id, document).value) && Load(id, document).value.current.Some?
  {
    if !NumberEquals(Lookup(document, "version"), 1) {
      var current := Decode(id, document["current"]).value;
      DecodedIsRetained(id, document["accepted"].items, current.generation);
    }
  }

  /** A rejected prefix rejects the whole list. */
  lemma {:induction false} RejectedPrefix(id: Identity, raws: seq<Json>, n: nat, current: int)
    requires n <= |raws| && DecodeAccepted(id, raws[..n], current).Err?
    ensures DecodeAccepted(id, raws, current) == Err(Malformed)
  {
    if n == |raws| {
      assert raws[..n] == raws;
      OnlyMalformed(id, raws, current);
    } else {
      assert raws[..|raws| - 1][..n] == raws[..n];
      RejectedPrefix(id, raws[..|raws| - 1], n, current);
    }
  }

  lemma {:induction false} OnlyMalformed(id: Identity, raws: seq<Json>, current: int)
    ensures DecodeAccepted(id, raws, current).Err? ==> DecodeAccepted(id, raws, current) == Err(Malformed)
  {
    if raws != [] {
      OnlyMalformed(id, raws[..|raws| - 1], current);
    }
  }
}
