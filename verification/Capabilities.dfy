/** sharing/capabilities.py: per-peer grants with generations, and requests that are
    rechecked after the handler has run. */
module Capabilities {
  import opened Wrappers
  import opened ClusterModels

  /** A registered handler object. */
  type Handler = nat

  type Pair = (NodeId, string)

  datatype Shares = Shares(
    handlers: map<string, Handler>,
    allowed: map<NodeId, set<string>>,
    generations: map<Pair, nat>,
    next: nat
  )

  const NOTHING: Shares := Shares(map[], map[], map[], 0)

  datatype Step =
    | Register(capability: string, handler: Handler)
    | Allow(peer: NodeId, capability: string)
    | Revoke(peer: NodeId, capability: string)
    | RevokePeer(peer: NodeId)
    | ClearGrants

  predicate Allowed(s: Shares, peer: NodeId, capability: string) {
    peer in s.allowed && capability in s.allowed[peer]
  }

  /** A step that raises changes nothing. */
  function Next(s: Shares, step: Step): Shares {
    match step
    case Register(capability, handler) =>
      if capability in s.handlers then s else s.(handlers := s.handlers[capability := handler])
    case Allow(peer, capability) =>
      if capability !in s.handlers || Allowed(s, peer, capability) then s
      else Shares(
        s.handlers,
        s.allowed[peer := (if peer in s.allowed then s.allowed[peer] else {}) + {capability}],
        s.generations[(peer, capability) := s.next + 1],
        s.next + 1)
    case Revoke(peer, capability) =>
      if peer !in s.allowed then s
      else
        var left := s.allowed[peer] - {capability};
        s.(allowed := if left == {} then s.allowed - {peer} else s.allowed[peer := left],
           generations := s.generations - {(peer, capability)})
    case RevokePeer(peer) =>
      if peer !in s.allowed then s
      else s.(allowed := s.allowed - {peer}, generations := s.generations - (set c | c in s.allowed[peer] :: (peer, c)))
    case ClearGrants => s.(allowed := map[], generations := map[])
  }

  /** Generations exist exactly for allowed pairs and are unique; only registered
      capabilities are allowed. */
  ghost predicate Good(s: Shares) {
    && (forall p, c :: (p, c) in s.generations <==> Allowed(s, p, c))
    && (forall x | x in s.generations :: s.generations[x] <= s.next)
    && (forall x, y | x in s.generations && y in s.generations && s.generations[x] == s.generations[y] :: x == y)
    && (forall p | p in s.allowed :: s.allowed[p] != {} && s.allowed[p] <= s.handlers.Keys)
  }

  lemma AllowKeepsGood(s: Shares, peer: NodeId, capability: string)
    requires Good(s)
    ensures Good(Next(s, Allow(peer, capability)))
  {
    var s' := Next(s, Allow(peer, capability));
    forall p, c ensures (p, c) in s'.generations <==> Allowed(s', p, c) {
      assert (p, c) in s.generations <==> Allowed(s, p, c);
    }
  }

  lemma RevokeKeepsGood(s: Shares, peer: NodeId, capability: string)
    requires Good(s)
    ensures Good(Next(s, Revoke(peer, capability)))
  {
    var s' := Next(s, Revoke(peer, capability));
    forall p, c ensures (p, c) in s'.generations <==> Allowed(s', p, c) {
      assert (p, c) in s.generations <==> Allowed(s, p, c);
      if peer in s.allowed && Allowed(s, peer, c) && c != capability {
        assert c in s.allowed[peer] - {capability};
      }
    }
  }

  lemma RevokePeerKeepsGood(s: Shares, peer: NodeId)
    requires Good(s)
    ensures Good(Next(s, RevokePeer(peer)))
  {
    var s' := Next(s, RevokePeer(peer));
    forall p, c ensures (p, c) in s'.generations <==> Allowed(s', p, c) {
      assert (p, c) in s.generations <==> Allowed(s, p, c);
    }
  }

  lemma StepKeepsGood(s: Shares, step: Step)
    requires Good(s)
    ensures Good(Next(s, step))
  {
    match step
    case Register(_, _) =>
    case Allow(peer, capability) => AllowKeepsGood(s, peer, capability);
    case Revoke(peer, capability) => RevokeKeepsGood(s, peer, capability);
    case RevokePeer(peer) => RevokePeerKeepsGood(s, peer);
    case ClearGrants =>
  }

  // ------------------------------------------------------------------
  // Requests
  // ------------------------------------------------------------------

  /** What a request remembers while its handler runs. */
  datatype Ticket = Ticket(generation: nat, handler: Handler)

  /** The check before the handler. */
  function Check(s: Shares, peer: NodeId, capability: string): Option<Ticket> {
    if capability !in s.handlers || !Allowed(s, peer, capability) || (peer, capability) !in s.generations then None
    else Some(Ticket(s.generations[(peer, capability)], s.handlers[capability]))
  }

  /** The check after the handler. */
  predicate Confirms(s: Shares, peer: NodeId, capability: string, t: Ticket) {
    && Allowed(s, peer, capability)
    && (peer, capability) in s.generations && s.generations[(peer, capability)] == t.generation
    && capability in s.handlers && s.handlers[capability] == t.handler
  }

  ghost predicate Run(states: seq<Shares>, steps: seq<Step>) {
    && |states| == |steps| + 1 && states[0] == NOTHING
    && forall i | 0 <= i < |steps| :: states[i + 1] == Next(states[i], steps[i])
  }

  lemma {:induction false} RunKeepsGood(states: seq<Shares>, steps: seq<Step>, n: nat)
    requires Run(states, steps) && n < |states|
    ensures Good(states[n])
  {
    if n > 0 {
      RunKeepsGood(states, steps, n - 1);
      StepKeepsGood(states[n - 1], steps[n - 1]);
    }
  }

  /** A check succeeds exactly for allowed pairs. */
  lemma CheckIsAllowed(s: Shares, peer: NodeId, capability: string)
    requires Good(s)
    ensures Check(s, peer, capability).Some? <==> Allowed(s, peer, capability)
  {
    assert (peer, capability) in s.generations <==> Allowed(s, peer, capability);
  }

  /** Once a pair is not allowed, any grant it has later carries a younger generation. */
  lemma {:induction false} RegrantIsYounger(states: seq<Shares>, steps: seq<Step>, k: nat, j: nat, pair: Pair)
    requires Run(states, steps) && k <= j < |states| && pair !in states[k].generations
    ensures states[k].next <= states[j].next
    ensures pair in states[j].generations ==> states[k].next < states[j].generations[pair]
  {
    if k < j {
      RegrantIsYounger(states, steps, k, j - 1, pair);
    }
  }

  lemma {:induction false} NextGrows(states: seq<Shares>, steps: seq<Step>, i: nat, j: nat)
    requires Run(states, steps) && i <= j < |states|
    ensures states[i].next <= states[j].next
  {
    if i < j { NextGrows(states, steps, i, j - 1); }
  }

  /** While a pair stays allowed its generation and its handler stay the same. */
  lemma {:induction false} StaysInForce(states: seq<Shares>, steps: seq<Step>, i: nat, j: nat, peer: NodeId, capability: string)
    requires Run(states, steps) && i <= j < |states|
    requires forall k | i <= k <= j :: Allowed(states[k], peer, capability)
    ensures Check(states[j], peer, capability) == Check(states[i], peer, capability)
  {
    if i < j {
      StaysInForce(states, steps, i, j - 1, peer, capability);
      RunKeepsGood(states, steps, j - 1);
      assert Allowed(states[j - 1], peer, capability) && Allowed(states[j], peer, capability);
      assert states[j - 1 + 1] == Next(states[j - 1], steps[j - 1]);
      StepStaysInForce(states[j - 1], steps[j - 1], peer, capability);
    }
  }

  lemma StepStaysInForce(s: Shares, step: Step, peer: NodeId, capability: string)
    requires Good(s) && Allowed(s, peer, capability) && Allowed(Next(s, step), peer, capability)
    ensures Check(Next(s, step), peer, capability) == Check(s, peer, capability)
  {
    StepKeepsGood(s, step);
    CheckIsAllowed(s, peer, capability);
    CheckIsAllowed(Next(s, step), peer, capability);
  }

  /** Requests are ABA-safe: the recheck succeeds exactly when the grant was in force in
      every state from the check on, however often grants came and went meanwhile. */
  lemma ConfirmedIffInForce(states: seq<Shares>, steps: seq<Step>, i: nat, j: nat, peer: NodeId, capability: string)
    requires Run(states, steps) && i <= j < |states| && Check(states[i], peer, capability).Some?
    ensures Confirms(states[j], peer, capability, Check(states[i], peer, capability).value)
       <==> forall k | i <= k <= j :: Allowed(states[k], peer, capability)
  {
    var ticket := Check(states[i], peer, capability).value;
    if Confirms(states[j], peer, capability, ticket) {
      forall k | i <= k <= j ensures Allowed(states[k], peer, capability) {
        RunKeepsGood(states, steps, i);
        RunKeepsGood(states, steps, k);
        if !Allowed(states[k], peer, capability) {
          NextGrows(states, steps, i, k);
          RegrantIsYounger(states, steps, k, j, (peer, capability));
          assert false;
        }
      }
    } else if forall k | i <= k <= j :: Allowed(states[k], peer, capability) {
      StaysInForce(states, steps, i, j, peer, capability);
    }
  }

  // ------------------------------------------------------------------
  // The object
  // ------------------------------------------------------------------

  class CapabilityShare {
    var handlers: map<string, Handler>
    var allowed: map<NodeId, set<string>>
    var generations: map<Pair, nat>
    var nextGeneration: nat
    ghost var states: seq<Shares>
    ghost var steps: seq<Step>

    ghost function Abstract(): Shares
      reads this
    {
      Shares(handlers, allowed, generations, nextGeneration)
    }

    ghost predicate Valid()
      reads this
    {
      Run(states, steps) && Abstract() == states[|steps|]
    }

    constructor ()
      ensures Valid() && steps == []
    {
      handlers, allowed, generations, nextGeneration := map[], map[], map[], 0;
      states, steps := [NOTHING], [];
    }

    ghost method Record(step: Step)
      requires Run(states, steps) && Abstract() == Next(states[|steps|], step)
      modifies `states, `steps
      ensures Valid() && steps == old(steps) + [step] && states == old(states) + [Abstract()]
    {
      states, steps := states + [Abstract()], steps + [step];
    }

    /** False stands for the error of a duplicate capability. */
    method RegisterHandler(capability: string, handler: Handler) returns (ok: bool)
      requires Valid()
      modifies this
      ensures Valid() && steps == old(steps) + [Register(capability, handler)]
      ensures ok <==> capability !in old(handlers)
    {
      ok := capability !in handlers;
      if ok { handlers := handlers[capability := handler]; }
      Record(Register(capability, handler));
    }

    /** False stands for the error of an unknown capability. */
    method AllowPeer(peer: NodeId, capability: string) returns (ok: bool)
      requires Valid()
      modifies this
      ensures Valid() && steps == old(steps) + [Allow(peer, capability)]
      ensures ok <==> capability in handlers
      ensures ok ==> Allowed(Abstract(), peer, capability)
    {
      ok := capability in handlers;
      if ok {
        var current := if peer in allowed then allowed[peer] else {};
        if capability !in current {
          allowed := allowed[peer := current + {capability}];
          nextGeneration := nextGeneration + 1;
          generations := generations[(peer, capability) := nextGeneration];
        }
      }
      Record(Allow(peer, capability));
    }

    method RevokeCapability(peer: NodeId, capability: string)
      requires Valid()
      modifies this
      ensures Valid() && steps == old(steps) + [Revoke(peer, capability)]
      ensures !Allowed(Abstract(), peer, capability)
    {
      if peer in allowed {
        var left := allowed[peer] - {capability};
        generations := generations - {(peer, capability)};
        allowed := if left == {} then allowed - {peer} else allowed[peer := left];
      }
      Record(Revoke(peer, capability));
    }

    /** The loop pops the generation of every capability that the peer had. */
    method RevokeWholePeer(peer: NodeId)
      requires Valid()
      modifies this
      ensures Valid() && steps == old(steps) + [RevokePeer(peer)]
      ensures forall c :: !Allowed(Abstract(), peer, c)
    {
      if peer in allowed {
        var left := allowed[peer];
        allowed := allowed - {peer};
        while left != {}
          invariant left <= old(allowed)[peer]
          invariant allowed == old(allowed) - {peer} && handlers == old(handlers) && nextGeneration == old(nextGeneration)
          invariant states == old(states) && steps == old(steps)
          invariant generations == old(generations) - (set c | c in old(allowed)[peer] - left :: (peer, c))
          decreases |left|
        {
          var capability :| capability in left;
          generations := generations - {(peer, capability)};
          left := left - {capability};
        }
        assert old(allowed)[peer] - left == old(allowed)[peer];
      }
      Record(RevokePeer(peer));
    }

    method ClearAll()
      requires Valid()
      modifies this
      ensures Valid() && steps == old(steps) + [ClearGrants] && allowed == map[]
    {
      allowed, generations := map[], map[];
      Record(ClearGrants);
    }

    /** The first locked block of `request`. */
    method BeginRequest(peer: NodeId, capability: string) returns (ticket: Option<Ticket>)
      requires Valid()
      ensures ticket == Check(Abstract(), peer, capability)
      ensures ticket.Some? <==> Allowed(Abstract(), peer, capability)
    {
      RunKeepsGood(states, steps, |steps|);
      CheckIsAllowed(Abstract(), peer, capability);
      if capability !in handlers || peer !in allowed || capability !in allowed[peer] || (peer, capability) !in generations {
        return None;
      }
      return Some(Ticket(generations[(peer, capability)], handlers[capability]));
    }

    /** The second locked block, any number of steps after the first: the result is
        returned exactly when the grant has been in force ever since. */
    method EndRequest(peer: NodeId, capability: string, ticket: Ticket, ghost since: nat) returns (ok: bool)
      requires Valid() && since < |states| && Check(states[since], peer, capability) == Some(ticket)
      ensures ok <==> forall k | since <= k < |states| :: Allowed(states[k], peer, capability)
    {
      ConfirmedIffInForce(states, steps, since, |steps|, peer, capability);
      ok := && peer in allowed && capability in allowed[peer]
            && (peer, capability) in generations && generations[(peer, capability)] == ticket.generation
            && capability in handlers && handlers[capability] == ticket.handler;
    }
  }
}
