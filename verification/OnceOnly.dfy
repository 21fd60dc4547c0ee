/** remote/service.py: the order of verification, re-verification of a replayed
    envelope, and the idempotency cache, interleaved over threads at every reading of the
    clock and every lock. */
module OnceOnly {
  import opened Wrappers
  import opened ReplayProtection
  import I = Idempotency

  datatype Safety = Read | RetrySafe | Unsafe | Unknown

  /** A correctly signed request envelope. */
  datatype Envelope = Envelope(
    nodeId: string,
    caller: Option<string>,
    requestId: string,
    nonce: string,
    timestamp: real,
    safety: Safety,
    fingerprint: string
  )

  datatype Config = Config(freshness: real, replayTtl: real, replayMax: nat, ttl: real, maxEntries: nat)

  function CacheKey(e: Envelope): I.Key {
    (if e.caller.Some? then e.caller.value else e.nodeId, e.requestId)
  }

  function KeyOfReplay(e: Envelope): ReplayKey {
    (e.nodeId, e.requestId, e.nonce)
  }

  /** How far a call of `handle` has come. */
  datatype Phase =
    | Timed(envelope: Envelope, at: real)        // fresh by a reading of the clock, and not yet recorded
    | Seen(envelope: Envelope)                   // replayed, and not yet verified again
    | Checked(envelope: Envelope, at: real)
    | Ready(envelope: Envelope, at: real, reading: real) // `run` has read the clock and not yet taken the lock
    | Entered
    | Refused

  /** `now` is the last time that any step took place; `executed` lists the
      envelopes whose operation was started through the idempotency cache. */
  datatype Service = Service(
    now: real,
    replay: map<ReplayKey, real>,
    idempotency: I.System,
    phases: map<I.Thread, Phase>,
    executed: seq<Envelope>
  )

  datatype Step =
    | Arrive(thread: I.Thread, envelope: Envelope, at: real)
    | Record(thread: I.Thread)                      // in the replay cache, under its lock
    | Recheck(thread: I.Thread, at: real)           // against an empty replay cache
    | Refuse(thread: I.Thread)                      // session, fence or authorization
    | ReadClock(thread: I.Thread, at: real)
    | Enter(thread: I.Thread, at: real)             // the lock is taken at time `at`
    | Other(event: I.Event, at: real)               // operations finishing, joiners waking, `len`

  predicate Enabled(s: Service, step: Step) {
    match step
    case Arrive(t, _, at) => t !in s.phases && s.now <= at
    case Record(t) => t in s.phases && s.phases[t].Timed?
    case Recheck(t, at) => t in s.phases && s.phases[t].Seen? && s.now <= at
    case Refuse(t) => t in s.phases && (s.phases[t].Checked? || s.phases[t].Ready?)
    case ReadClock(t, at) => t in s.phases && s.phases[t].Checked? && !s.phases[t].envelope.safety.Read? && s.now <= at
    case Enter(t, at) => t in s.phases && s.phases[t].Ready? && s.now <= at && t !in s.idempotency.threads
    case Other(event, at) =>
      !event.Call? && I.Enabled(s.idempotency, event) && s.now <= at && (event.Length? ==> event.now <= at)
  }

  function Next(s: Service, step: Step, c: Config): Service
    requires Enabled(s, step)
  {
    match step
    case Arrive(t, e, at) =>
      s.(now := at, phases := s.phases[t := if Fresh(e.timestamp, at, c.freshness) then Timed(e, at) else Refused])
    case Record(t) =>
      var (e, at) := (s.phases[t].envelope, s.phases[t].at);
      var accepted := Accepts(s.replay, KeyOfReplay(e), at, c.replayTtl, c.replayMax);
      s.(replay := AfterRecord(s.replay, KeyOfReplay(e), at, c.replayTtl, c.replayMax),
         phases := s.phases[t := if accepted then Checked(e, at) else if e.safety.Unknown? then Refused else Seen(e)])
    case Recheck(t, at) =>
      var e := s.phases[t].envelope;
      s.(now := at, phases := s.phases[t := if Fresh(e.timestamp, at, c.freshness) then Checked(e, at) else Refused])
    case Refuse(t) => s.(phases := s.phases[t := Refused])
    case ReadClock(t, at) => s.(now := at, phases := s.phases[t := Ready(s.phases[t].envelope, s.phases[t].at, at)])
    case Enter(t, at) =>
      var e := s.phases[t].envelope;
      var call := I.Call(t, CacheKey(e), e.fingerprint, s.phases[t].reading);
      var idempotency := I.Step(s.idempotency, call, c.ttl, c.maxEntries);
      Service(at, s.replay, idempotency, s.phases[t := Entered],
              if idempotency.threads[t].Executing? then s.executed + [e] else s.executed)
    case Other(event, at) =>
      s.(now := at, idempotency := I.Step(s.idempotency, event, c.ttl, c.maxEntries))
  }

  ghost predicate Run(states: seq<Service>, steps: seq<Step>, c: Config) {
    |states| == |steps| + 1 && forall i: nat | i < |steps| :: Moves(states, steps, c, i)
  }

  /** Step `i` of a run. */
  ghost predicate Moves(states: seq<Service>, steps: seq<Step>, c: Config, i: nat)
    requires |states| == |steps| + 1 && i < |steps|
  {
    Enabled(states[i], steps[i]) && states[i + 1] == Next(states[i], steps[i], c)
  }

  /** A step from verification to taking the lock takes at most `delay`. */
  ghost predicate Prompt(s: Service, step: Step, delay: real) {
    step.Enter? && step.thread in s.phases && s.phases[step.thread].Ready? ==> step.at - s.phases[step.thread].at <= delay
  }

  ghost predicate PromptRun(states: seq<Service>, steps: seq<Step>, c: Config, delay: real) {
    Run(states, steps, c) && forall i | 0 <= i < |steps| :: Prompt(states[i], steps[i], delay)
  }

  ghost predicate Starting(s: Service, maxEntries: nat) {
    s.phases == map[] && s.executed == [] && I.SystemOk(s.idempotency, maxEntries)
  }

  // ------------------------------------------------------------------
  // The invariant, for one envelope
  // ------------------------------------------------------------------

  /** The earliest time at which an entry made for `e` can expire. */
  function Deadline(e: Envelope, c: Config): real {
    e.timestamp - c.freshness + c.ttl
  }

  ghost predicate PhaseOk(p: Phase, now: real, c: Config) {
    match p
    case Timed(e, at) => Fresh(e.timestamp, at, c.freshness) && at <= now
    case Checked(e, at) => Fresh(e.timestamp, at, c.freshness) && at <= now
    case Ready(e, at, reading) => Fresh(e.timestamp, at, c.freshness) && at <= reading <= now && !e.safety.Read?
    case _ => true
  }

  ghost predicate Guarded(s: Service, e: Envelope, c: Config) {
    s.now >= Deadline(e, c) ||
    (&& CacheKey(e) in s.idempotency.cache.entries
     && var r := s.idempotency.cache.entries[CacheKey(e)];
        r < |s.idempotency.cache.cells| && s.idempotency.cache.cells[r].expiresAt >= Deadline(e, c))
  }

  predicate AtMostOnce(executed: seq<Envelope>, e: Envelope) {
    forall i, j | 0 <= i < j < |executed| :: !(executed[i] == e && executed[j] == e)
  }

  ghost predicate Inv(s: Service, e: Envelope, c: Config) {
    && I.SystemOk(s.idempotency, c.maxEntries)
    && (forall t | t in s.phases :: PhaseOk(s.phases[t], s.now, c))
    && (e in s.executed ==> Guarded(s, e, c))
    && AtMostOnce(s.executed, e)
  }

  /** An idempotency step whose clock reading is at most `at` keeps the guard up to time `at`. */
  lemma IdempotencyKeepsGuard(s: Service, event: I.Event, at: real, e: Envelope, c: Config)
    requires I.SystemOk(s.idempotency, c.maxEntries) && I.Enabled(s.idempotency, event)
    requires Guarded(s, e, c) && s.now <= at
    requires event.Call? || event.Length? ==> event.now <= at
    ensures Guarded(s.(now := at, idempotency := I.Step(s.idempotency, event, c.ttl, c.maxEntries)), e, c)
  {
    if s.now < Deadline(e, c) {
      var r := s.idempotency.cache.entries[CacheKey(e)];
      I.StepHolds(s.idempotency, event, c.ttl, c.maxEntries, CacheKey(e), r);
      I.StepCellPersists(s.idempotency, event, c.ttl, c.maxEntries, r);
    }
  }

  /** While the guard stands, the envelope's key is joined, not executed again. */
  lemma GuardedIsNotOwner(s: Service, e: Envelope, reading: real, t: I.Thread, c: Config)
    requires I.SystemOk(s.idempotency, c.maxEntries) && Guarded(s, e, c) && t !in s.idempotency.threads
    requires s.now < Deadline(e, c) && reading < Deadline(e, c)
    ensures !I.Step(s.idempotency, I.Call(t, CacheKey(e), e.fingerprint, reading), c.ttl, c.maxEntries).threads[t].Executing?
  {
  }

  /** An execution started for `e` puts the guard up. */
  lemma OwnerIsGuarded(s: Service, e: Envelope, reading: real, t: I.Thread, c: Config)
    requires I.SystemOk(s.idempotency, c.maxEntries) && t !in s.idempotency.threads
    requires e.timestamp - c.freshness <= reading
    ensures var i := I.Step(s.idempotency, I.Call(t, CacheKey(e), e.fingerprint, reading), c.ttl, c.maxEntries);
            i.threads[t].Executing? ==> Guarded(s.(idempotency := i), e, c)
  {
    var entry := I.Entered(s.idempotency.cache, CacheKey(e), e.fingerprint, reading, c.ttl, c.maxEntries).1;
    if entry.Owner? {
      I.OwnerOwns(s.idempotency, I.Call(t, CacheKey(e), e.fingerprint, reading), c.ttl, c.maxEntries, entry.ref);
    }
  }

  lemma EnterKeepsInv(s: Service, t: I.Thread, at: real, e: Envelope, c: Config, delay: real)
    requires Inv(s, e, c) && Enabled(s, Enter(t, at)) && Prompt(s, Enter(t, at), delay)
    requires 2.0 * c.freshness + delay < c.ttl
    ensures Inv(Next(s, Enter(t, at), c), e, c)
  {
    var own, reading := s.phases[t].envelope, s.phases[t].reading;
    var call := I.Call(t, CacheKey(own), own.fingerprint, reading);
    assert PhaseOk(s.phases[t], s.now, c);
    I.StepKeepsOk(s.idempotency, call, c.ttl, c.maxEntries);
    var s' := Next(s, Enter(t, at), c);
    if e in s.executed {
      IdempotencyKeepsGuard(s, call, at, e, c);
      if own == e {
        GuardedIsNotOwner(s, e, reading, t, c);
      }
    } else if own == e {
      OwnerIsGuarded(s, e, reading, t, c);
    }
    forall u | u in s'.phases ensures PhaseOk(s'.phases[u], s'.now, c) {
      if u != t { assert PhaseOk(s.phases[u], s.now, c); }
    }
  }

  lemma ProgressKeepsInv(s: Service, step: Step, e: Envelope, c: Config)
    requires Inv(s, e, c) && Enabled(s, step) && !step.Enter? && !step.Other?
    ensures Inv(Next(s, step, c), e, c)
  {
    var s' := Next(s, step, c);
    assert s'.idempotency == s.idempotency && s'.executed == s.executed;
    forall u | u in s'.phases ensures PhaseOk(s'.phases[u], s'.now, c) {
      if u in s.phases { assert PhaseOk(s.phases[u], s.now, c); }
    }
  }

  lemma StepKeepsInv(s: Service, step: Step, e: Envelope, c: Config, delay: real)
    requires Inv(s, e, c) && Enabled(s, step) && Prompt(s, step, delay)
    requires 2.0 * c.freshness + delay < c.ttl
    ensures Inv(Next(s, step, c), e, c)
  {
    match step
    case Enter(t, at) => EnterKeepsInv(s, t, at, e, c, delay);
    case Other(event, at) =>
      I.StepKeepsOk(s.idempotency, event, c.ttl, c.maxEntries);
      if e in s.executed {
        IdempotencyKeepsGuard(s, event, at, e, c);
      }
      forall u | u in s.phases ensures PhaseOk(s.phases[u], at, c) {
        assert PhaseOk(s.phases[u], s.now, c);
      }
    case _ => ProgressKeepsInv(s, step, e, c);
  }

  lemma {:induction false} RunKeepsInv(states: seq<Service>, steps: seq<Step>, e: Envelope, c: Config, delay: real, n: nat)
    requires PromptRun(states, steps, c, delay) && Starting(states[0], c.maxEntries) && n < |states|
    requires 2.0 * c.freshness + delay < c.ttl
    ensures Inv(states[n], e, c)
  {
    if n > 0 {
      RunKeepsInv(states, steps, e, c, delay, n - 1);
      assert Moves(states, steps, c, n - 1);
      StepKeepsInv(states[n - 1], steps[n - 1], e, c, delay);
    }
  }

  /** End to end: however often a signed non-read envelope is delivered, and although
      a replayed envelope is verified again against an empty replay cache, its
      operation is started at most once when 2 * freshness + delay < ttl. */
  lemma ExecutedAtMostOnce(states: seq<Service>, steps: seq<Step>, e: Envelope, c: Config, delay: real)
    requires PromptRun(states, steps, c, delay) && Starting(states[0], c.maxEntries)
    requires 2.0 * c.freshness + delay < c.ttl
    ensures AtMostOnce(states[|steps|].executed, e)
  {
    RunKeepsInv(states, steps, e, c, delay, |steps|);
  }

  lemma ExtendRun(states: seq<Service>, steps: seq<Step>, step: Step, c: Config, delay: real)
    requires PromptRun(states, steps, c, delay)
    requires Enabled(states[|steps|], step) && Prompt(states[|steps|], step, delay)
    ensures PromptRun(states + [Next(states[|steps|], step, c)], steps + [step], c, delay)
  {
    var s := Next(states[|steps|], step, c);
    var states', steps' := states + [s], steps + [step];
    forall i: nat | i < |steps'| ensures Moves(states', steps', c, i) && Prompt(states'[i], steps'[i], delay) {
      if i < |steps| {
        assert Moves(states, steps, c, i);
        assert states'[i] == states[i] && states'[i + 1] == states[i + 1] && steps'[i] == steps[i];
      } else {
        assert states'[i] == states[|steps|] && states'[i + 1] == s && steps'[i] == step;
      }
    }
  }

  /** Extend a run by the verification of a fresh `e` at `at`, a second one included when
      it is replayed. */
  lemma Admit(states: seq<Service>, steps: seq<Step>, t: I.Thread, e: Envelope, at: real, c: Config, delay: real)
    returns (states': seq<Service>, steps': seq<Step>)
    requires PromptRun(states, steps, c, delay)
    requires states[|steps|].now <= at && t !in states[|steps|].phases
    requires Fresh(e.timestamp, at, c.freshness) && !e.safety.Unknown?
    ensures PromptRun(states', steps', c, delay) && states'[0] == states[0]
    ensures var s, s' := states[|steps|], states'[|steps'|];
            && s'.now == at && s'.phases == s.phases[t := Checked(e, at)]
            && s'.executed == s.executed && s'.idempotency == s.idempotency
  {
    var arrive, record := Arrive(t, e, at), Step.Record(t);
    ExtendRun(states, steps, arrive, c, delay);
    var timed := Next(states[|steps|], arrive, c);
    ExtendRun(states + [timed], steps + [arrive], record, c, delay);
    var s := Next(timed, record, c);
    states', steps' := states + [timed] + [s], steps + [arrive] + [record];
    if s.phases[t].Seen? {
      var recheck := Recheck(t, at);
      ExtendRun(states', steps', recheck, c, delay);
      states', steps' := states' + [Next(s, recheck, c)], steps' + [recheck];
    }
  }

  /** Extend a run by one delivery of `e` that is verified at `at` and finds no live
      entry when it takes the lock. */
  lemma Deliver(states: seq<Service>, steps: seq<Step>, t: I.Thread, e: Envelope, at: real, reading: real, c: Config, delay: real)
    returns (states': seq<Service>, steps': seq<Step>)
    requires PromptRun(states, steps, c, delay)
    requires var s := states[|steps|];
             && s.now <= at <= reading <= at + delay && t !in s.phases && t !in s.idempotency.threads
             && I.Pruned(s.idempotency.cache, reading).entries == map[]
    requires Fresh(e.timestamp, at, c.freshness) && !e.safety.Read? && !e.safety.Unknown? && c.maxEntries >= 1
    ensures PromptRun(states', steps', c, delay) && states'[0] == states[0]
    ensures var s, s' := states[|steps|], states'[|steps'|];
            && s'.now == reading && s'.phases.Keys == s.phases.Keys + {t} && s'.executed == s.executed + [e]
            && s'.idempotency == I.Step(s.idempotency, I.Call(t, CacheKey(e), e.fingerprint, reading), c.ttl, c.maxEntries)
            && s'.idempotency.threads[t] == I.Executing(|s.idempotency.cache.cells|)
  {
    states', steps' := Admit(states, steps, t, e, at, c, delay);
    var s := states'[|steps'|];
    var read, enter := ReadClock(t, reading), Enter(t, reading);
    ExtendRun(states', steps', read, c, delay);
    var s1 := Next(s, read, c);
    assert s1.phases[t] == Ready(e, at, reading);
    ExtendRun(states' + [s1], steps' + [read], enter, c, delay);
    states' := states' + [s1] + [Next(s1, enter, c)];
    steps' := steps' + [read] + [enter];
  }

  lemma FinishedEntryExpires(s: Service, e: Envelope, early: real, c: Config)
    requires s.idempotency == I.Step(I.System(I.Cache(map[], []), [], map[]), I.Call(0, CacheKey(e), e.fingerprint, early), c.ttl, c.maxEntries)
    requires s.now == early && s.idempotency.threads[0] == I.Executing(0)
    ensures var finish := Other(I.OperationReturns(0, "", None), early);
            Enabled(s, finish) && forall later | later >= early + c.ttl :: I.Pruned(Next(s, finish, c).idempotency.cache, later).entries == map[]
  {
    var s' := Next(s, Other(I.OperationReturns(0, "", None), early), c);
    assert s.idempotency.cache.entries == map[CacheKey(e) := 0];
    assert s'.idempotency.cache.cells[0].complete && s'.idempotency.cache.cells[0].expiresAt == early + c.ttl;
  }

  /** A first delivery, finished at once: its entry lapses a ttl after the reading. */
  lemma FirstDelivery(e: Envelope, c: Config, delay: real, early: real) returns (states: seq<Service>, steps: seq<Step>)
    requires !e.safety.Read? && !e.safety.Unknown? && Fresh(e.timestamp, early, c.freshness)
    requires delay >= 0.0 && c.maxEntries >= 1
    ensures PromptRun(states, steps, c, delay) && Starting(states[0], c.maxEntries)
    ensures var s := states[|steps|];
            && s.now == early && s.phases.Keys == {0} && s.idempotency.threads.Keys == {0} && s.executed == [e]
            && forall later | later >= early + c.ttl :: I.Pruned(s.idempotency.cache, later).entries == map[]
  {
    var s0 := Service(early, map[], I.System(I.Cache(map[], []), [], map[]), map[], []);
    assert I.Pruned(s0.idempotency.cache, early).entries == map[];
    states, steps := Deliver([s0], [], 0, e, early, early, c, delay);
    var s3 := states[|steps|];
    FinishedEntryExpires(s3, e, early, c);
    var finish := Other(I.OperationReturns(0, "", None), early);
    ExtendRun(states, steps, finish, c, delay);
    states, steps := states + [Next(s3, finish, c)], steps + [finish];
  }

  /** The bound is exact: otherwise some prompt run starts one envelope's operation twice. */
  lemma ExecutedTwice(e: Envelope, c: Config, delay: real) returns (states: seq<Service>, steps: seq<Step>)
    requires !e.safety.Read? && !e.safety.Unknown?
    requires c.freshness >= 0.0 && delay >= 0.0 && c.ttl > 0.0 && c.maxEntries >= 1
    requires 2.0 * c.freshness + delay >= c.ttl
    ensures PromptRun(states, steps, c, delay) && Starting(states[0], c.maxEntries)
    ensures states[|steps|].executed == [e, e]
  {
    var early, late := e.timestamp - c.freshness, e.timestamp + c.freshness;
    var retry := if late <= early + c.ttl then early + c.ttl else late;
    states, steps := FirstDelivery(e, c, delay, early);
    states, steps := Deliver(states, steps, 1, e, late, retry, c, delay);
  }
}
