/** pairing/target.py and the pairing control of runtime/core.py: the peer that is asked
    to grant a pairing, under any sequence of requests, retries, controls, saves and restarts. */
module PairingTarget {
  import opened Wrappers
  import opened Dicts
  import opened ClusterModels
  import opened PairingBook
  import opened Saves

  datatype Request = PairingRequest(
    caller: NodeId, secret: string, permissions: set<string>, material: Material, intent: Intent)

  /** What a caller has to present to complete or cancel a transaction. */
  datatype Binding = Binding(
    id: Id, caller: NodeId, identityFingerprint: Option<string>, transportFingerprint: Option<string>,
    secret: string, expiresAt: real)

  /** `Faulted` stands for an exception instead of a reply. */
  datatype Outcome = Denied | ConflictingIdentity | AlreadyPaired | AlreadyPending | PersistenceFailed | Faulted

  datatype Reply = Refused(outcome: Outcome) | Approved(binding: Binding, permissions: set<string>)

  /** What was written last: the marks of broken trust are not part of it. */
  datatype Disk = Disk(book: Book, asked: map<Id, set<string>>)

  /** The target's book, the permissions asked for by each pending transaction, the next
      fresh transaction id, and what is on disk. */
  datatype Target = Target(self: NodeId, book: Book, asked: map<Id, set<string>>, nextId: Id, disk: Disk)

  const TTL_SECONDS: real := 300.0

  function BindingOf(p: Pending): Binding {
    Binding(p.id, p.peer, p.material.identityFingerprint, p.material.transportFingerprint, p.secret, p.expiresAt)
  }

  /** `grant_root_continuous`. */
  predicate RootContinuous(verify: Verifier, g: Grant, m: Material) {
    && Present(g.material.rootPublicKey) && m.rootPublicKey == g.material.rootPublicKey
    && m.transportGeneration.Some? && Present(m.transportProof)
    && verify(g.caller, g.material.rootPublicKey.value, m.transportGeneration.value,
              if m.transportFingerprint.Some? then m.transportFingerprint.value else "", m.transportProof.value)
  }

  /** The permissions are written with each transaction, empty when there are none. */
  function Snapshot(t: Target): Disk {
    Disk(t.book.(broken := {}),
         map item | item in t.book.pending :: item.0 := if item.0 in t.asked then t.asked[item.0] else {})
  }

  function Save(t: Target, s: Saving): Target {
    if Written(s) then t.(disk := Snapshot(t)) else t
  }

  function Reloaded(t: Target): Target {
    t.(book := t.disk.book, asked := t.disk.asked)
  }

  /** What the surroundings decide about one request: whether another request holds the
      lock, the clock, the host's approval, and what becomes of the save. */
  datatype Conditions = Conditions(busy: bool, now: real, approves: bool, saving: Saving)

  /** The reply to a transaction that is on file; a missing entry is a KeyError. */
  function Reopen(t: Target, p: Pending): Reply {
    if p.id in t.asked then Approved(BindingOf(p), t.asked[p.id]) else Refused(Faulted)
  }

  /** `secret` has passed the checks of the request, so none is generated. */
  function BeginInbound(t: Target, r: Request, now: real): Result<(Book, Pending), PairingBook.Error> {
    Begin(t.book, t.nextId, r.caller, Some(r.secret), r.secret, r.material, Inbound, r.intent, now, TTL_SECONDS)
  }

  /** The transaction and the permissions asked for are dropped. */
  function Without(t: Target, id: Id): Target {
    t.(book := Abort(t.book, id), asked := t.asked - {id})
  }

  function HandleRequest(verify: Verifier, t: Target, r: Request, c: Conditions): (Target, Reply) {
    if c.busy then (t, Refused(AlreadyPending))
    else if r.caller == t.self then (t, Refused(Denied))
    else if r.caller in t.book.grants && !RootContinuous(verify, t.book.grants[r.caller], r.material)
    then (t, Refused(ConflictingIdentity))
    else if r.caller in t.book.grants && r.intent != Repair then (t, Refused(AlreadyPaired))
    else
      match FindFor(t.book.pending, r.caller, Some(Inbound), c.now)
      case Some(duplicate) => (t, if duplicate.secret == r.secret then Reopen(t, duplicate) else Refused(AlreadyPending))
      case None =>
        if !c.approves then (t, Refused(Denied))
        else
          match BeginInbound(t, r, c.now)
          case Err(_) => (t, Refused(AlreadyPending))
          case Ok((book, p)) =>
            var begun := t.(book := book, asked := t.asked[p.id := r.permissions], nextId := t.nextId + 1);
            var saved := Save(begun, c.saving);
            match c.saving
            case Saved => (saved, Approved(BindingOf(p), r.permissions))
            case NotSaved(_) => (Without(saved, p.id), Refused(PersistenceFailed))
            case SaveRaised(_) => (saved, Refused(Faulted))
  }

  datatype Operation = Confirm | Cancel

  datatype Control = Control(operation: Operation, binding: Binding, permissions: set<string>)

  /** The clock, and what becomes of the saves of a control, in order: after the approval,
      after the completion, and after a completion that was taken back. */
  datatype Outcomes = Outcomes(now: real, approval: Saving, completion: Saving, undo: Saving)

  predicate Recognized(t: Target, c: Control) {
    var p := Find(t.book.pending, c.binding.id);
    p.Some? && c.binding.id in t.asked && t.asked[c.binding.id] == c.permissions && BindingOf(p.value) == c.binding
  }

  /** The second part says whether the answer is yes; no and an exception are not told
      apart. A raising save leaves behind what was done before it. */
  function HandleControl(t: Target, c: Control, s: Outcomes): (Target, bool) {
    if !Recognized(t, c) then (t, false)
    else
      var id := c.binding.id;
      match c.operation
      case Cancel => (Save(Without(t, id), s.completion), s.completion.Saved?)
      case Confirm =>
        if !(c.permissions <= {"read_state"}) then (t, false)
        else
          match Approve(t.book, id, c.permissions, s.now)
          case Err(_) => (t, false)
          case Ok((book, _)) =>
            var approved := Save(t.(book := book), s.approval);
            match s.approval
            case SaveRaised(_) => (approved, false)
            case NotSaved(_) => (approved.(book := t.book), false)
            case Saved =>
              var done := Save(Without(approved, id), s.completion);
              match s.completion
              case SaveRaised(_) => (done, false)
              case NotSaved(_) => (Save(done.(book := t.book, asked := t.asked), s.undo), false)
              case Saved => (done, true)
  }

  // ------------------------------------------------------------------
  // Runs of the target
  // ------------------------------------------------------------------

  /** `Initiate` begins an outbound transaction of the node itself; `Other` stands for
      anything that issues and changes no transaction: revocations, pruning, accepting a
      grant of its own; `Persist` is a save at any other time. */
  datatype Step =
    | Ask(request: Request, conditions: Conditions)
    | Conclude(control: Control, saves: Outcomes)
    | Initiate(peer: NodeId, secret: Option<string>, generated: string, material: Material, intent: Intent, now: real)
    | Other(book: Book)
    | Persist(saving: Saving)
    | Restart

  predicate OnlyDrops(t: Target, book: Book) {
    forall item | item in book.pending :: item in t.book.pending
  }

  function Next(verify: Verifier, t: Target, step: Step): Target {
    match step
    case Ask(r, c) => HandleRequest(verify, t, r, c).0
    case Conclude(c, s) => HandleControl(t, c, s).0
    case Initiate(peer, secret, generated, m, intent, now) =>
      var r := Begin(t.book, t.nextId, peer, secret, generated, m, Outbound, intent, now, TTL_SECONDS);
      if r.Ok? then t.(book := r.value.0, nextId := t.nextId + 1) else t
    case Other(book) => if OnlyDrops(t, book) then t.(book := book) else t
    case Persist(saving) => Save(t, saving)
    case Restart => Reloaded(t)
  }

  predicate FiledIn(asked: map<Id, set<string>>, nextId: Id, item: (Id, Pending)) {
    item.1.id == item.0 && item.0 < nextId && (item.1.direction.Inbound? ==> item.0 in asked)
  }

  ghost predicate Filed(pending: Dict<Id, Pending>, asked: map<Id, set<string>>, nextId: Id) {
    DistinctKeys(pending) && forall item | item in pending :: FiledIn(asked, nextId, item)
  }

  /** In memory and on disk, transactions are filed under their own, already issued, ids,
      inbound ones together with the permissions asked for. */
  ghost predicate Sound(t: Target) {
    Filed(t.book.pending, t.asked, t.nextId) && Filed(t.disk.book.pending, t.disk.asked, t.nextId)
  }

  ghost predicate Run(verify: Verifier, states: seq<Target>, steps: seq<Step>) {
    && |states| == |steps| + 1 && Sound(states[0])
    && forall i | 0 <= i < |steps| ::
         && states[i + 1] == Next(verify, states[i], steps[i])
         && (steps[i].Other? ==> OnlyDrops(states[i], steps[i].book) && DistinctKeys(steps[i].book.pending))
  }

  /** The step completes the transaction. */
  predicate Confirms(t: Target, step: Step, id: Id) {
    step.Conclude? && step.control.operation.Confirm? && step.control.binding.id == id && HandleControl(t, step.control, step.saves).1
  }

  function NewInbound(t: Target, r: Request, now: real): Pending {
    PendingPairing(t.nextId, r.caller, r.secret, now + TTL_SECONDS, r.material, Inbound, r.intent)
  }

  /** Without an active inbound transaction a request begins a new one. */
  lemma BeginsNew(t: Target, r: Request, now: real)
    requires FindFor(t.book.pending, r.caller, Some(Inbound), now).None?
    ensures BeginInbound(t, r, now) ==
            Ok((t.book.(pending := Put(t.book.pending, t.nextId, NewInbound(t, r, now))), NewInbound(t, r, now)))
  {
    var replay := FindExact(t.book.pending, r.caller, r.secret, now);
    assert replay.Some? ==> replay.value.direction != Inbound;
  }

  lemma SaveKeepsSound(t: Target, saving: Saving)
    requires Sound(t)
    ensures Sound(Save(t, saving))
  {
    assert forall item | item in t.book.pending :: FiledIn(t.asked, t.nextId, item);
  }

  lemma AskKeepsSound(verify: Verifier, t: Target, r: Request, c: Conditions)
    requires Sound(t)
    ensures Sound(HandleRequest(verify, t, r, c).0)
  {
    if FindFor(t.book.pending, r.caller, Some(Inbound), c.now).None? {
      BeginsNew(t, r, c.now);
      BegunIsSound(t, r, c.now);
      SaveKeepsSound(Begun(t, r, c.now), c.saving);
      WithoutIsSound(Save(Begun(t, r, c.now), c.saving), t.nextId);
    }
  }

  function Begun(t: Target, r: Request, now: real): Target {
    t.(book := t.book.(pending := Put(t.book.pending, t.nextId, NewInbound(t, r, now))),
       asked := t.asked[t.nextId := r.permissions], nextId := t.nextId + 1)
  }

  lemma BegunIsSound(t: Target, r: Request, now: real)
    requires Sound(t)
    ensures Sound(Begun(t, r, now))
  {
    PutEffect(t.book.pending, t.nextId, NewInbound(t, r, now));
  }

  lemma WithoutIsSound(t: Target, id: Id)
    requires Sound(t)
    ensures Sound(Without(t, id))
  {
    DropEffect(t.book.pending, id);
  }

  lemma ConcludeKeepsSound(t: Target, c: Control, s: Outcomes)
    requires Sound(t)
    ensures Sound(HandleControl(t, c, s).0) && HandleControl(t, c, s).0.nextId == t.nextId
  {
    var id := c.binding.id;
    WithoutIsSound(t, id);
    SaveKeepsSound(Without(t, id), s.completion);
    var approval := Approve(t.book, id, c.permissions, s.now);
    if approval.Ok? {
      var granted := t.(book := approval.value.0);
      SaveKeepsSound(granted, s.approval);
      WithoutIsSound(Save(granted, s.approval), id);
      SaveKeepsSound(Without(Save(granted, s.approval), id), s.completion);
      var done := Save(Without(Save(granted, s.approval), id), s.completion);
      SaveKeepsSound(done.(book := t.book, asked := t.asked), s.undo);
    }
  }

  lemma InitiateKeepsSound(verify: Verifier, t: Target, step: Step)
    requires Sound(t) && step.Initiate?
    ensures Sound(Next(verify, t, step)) && t.nextId <= Next(verify, t, step).nextId
  {
    PutEffect(t.book.pending, t.nextId,
              PendingPairing(t.nextId, step.peer, SecretOr(step.secret, step.generated), step.now + TTL_SECONDS,
                             step.material, Outbound, step.intent));
  }

  lemma StepKeepsSound(verify: Verifier, t: Target, step: Step)
    requires Sound(t) && (step.Other? ==> DistinctKeys(step.book.pending))
    ensures Sound(Next(verify, t, step)) && t.nextId <= Next(verify, t, step).nextId
  {
    match step
    case Ask(r, c) => AskKeepsSound(verify, t, r, c);
    case Conclude(c, s) => ConcludeKeepsSound(t, c, s);
    case Initiate(_, _, _, _, _, _) => InitiateKeepsSound(verify, t, step);
    case Persist(saving) => SaveKeepsSound(t, saving);
    case _ =>
  }

  lemma {:induction false} RunKeepsSound(verify: Verifier, states: seq<Target>, steps: seq<Step>, n: nat)
    requires Run(verify, states, steps) && n < |states|
    ensures Sound(states[n])
  {
    if n > 0 {
      RunKeepsSound(verify, states, steps, n - 1);
      StepKeepsSound(verify, states[n - 1], steps[n - 1]);
    }
  }

  /** A transaction that is off the books, in memory and on disk, stays off: ids are not
      issued twice. */
  predicate Gone(t: Target, id: Id) {
    id < t.nextId && !HasKey(t.book.pending, id) && !HasKey(t.disk.book.pending, id)
  }

  lemma MembersLackKey(d: Dict<Id, Pending>, of: Dict<Id, Pending>, id: Id)
    requires !HasKey(of, id) && forall item | item in d :: item in of
    ensures !HasKey(d, id)
  {
    forall i | 0 <= i < |d| ensures d[i].0 != id {
      assert d[i] in d;
    }
  }

  lemma AskKeepsGone(verify: Verifier, t: Target, r: Request, c: Conditions, id: Id)
    requires Gone(t, id)
    ensures Gone(HandleRequest(verify, t, r, c).0, id)
  {
    if FindFor(t.book.pending, r.caller, Some(Inbound), c.now).None? {
      BeginsNew(t, r, c.now);
      PutHasKey(t.book.pending, t.nextId, NewInbound(t, r, c.now), id);
      DropHasKey(Begun(t, r, c.now).book.pending, t.nextId, id);
    }
  }

  lemma SaveKeepsGone(t: Target, saving: Saving, id: Id)
    requires Gone(t, id)
    ensures Gone(Save(t, saving), id)
  {
  }

  lemma WithoutKeepsGone(t: Target, other: Id, id: Id)
    requires Gone(t, id)
    ensures Gone(Without(t, other), id)
  {
    DropHasKey(t.book.pending, other, id);
  }

  lemma ConcludeKeepsGone(t: Target, c: Control, s: Outcomes, id: Id)
    requires Gone(t, id)
    ensures Gone(HandleControl(t, c, s).0, id)
  {
    var own := c.binding.id;
    WithoutKeepsGone(t, own, id);
    SaveKeepsGone(Without(t, own), s.completion, id);
    var approval := Approve(t.book, own, c.permissions, s.now);
    if approval.Ok? {
      var approved := Save(t.(book := approval.value.0), s.approval);
      SaveKeepsGone(t.(book := approval.value.0), s.approval, id);
      WithoutKeepsGone(approved, own, id);
      var done := Save(Without(approved, own), s.completion);
      SaveKeepsGone(Without(approved, own), s.completion, id);
      SaveKeepsGone(done.(book := t.book, asked := t.asked), s.undo, id);
    }
  }

  lemma StepKeepsGone(verify: Verifier, t: Target, step: Step, id: Id)
    requires Gone(t, id)
    ensures Gone(Next(verify, t, step), id)
  {
    match step
    case Ask(r, c) => AskKeepsGone(verify, t, r, c, id);
    case Conclude(c, s) => ConcludeKeepsGone(t, c, s, id);
    case Initiate(peer, secret, generated, m, intent, now) =>
      PutHasKey(t.book.pending, t.nextId,
                PendingPairing(t.nextId, peer, SecretOr(secret, generated), now + TTL_SECONDS, m, Outbound, intent), id);
    case Other(book) =>
      if OnlyDrops(t, book) { MembersLackKey(book.pending, t.book.pending, id); }
    case _ =>
  }

  lemma {:induction false} GoneForGood(verify: Verifier, states: seq<Target>, steps: seq<Step>, i: nat, j: nat, id: Id)
    requires Run(verify, states, steps) && i <= j < |states| && Gone(states[i], id)
    ensures Gone(states[j], id)
  {
    if i < j {
      GoneForGood(verify, states, steps, i, j - 1, id);
      StepKeepsGone(verify, states[j - 1], steps[j - 1], id);
    }
  }

  /** A confirmation needs its transaction to be on file, takes it off, in memory and on
      disk, and grants its binding in both. */
  lemma ConfirmTakes(verify: Verifier, t: Target, step: Step, id: Id)
    requires Sound(t) && Confirms(t, step, id)
    ensures HasKey(t.book.pending, id) && Gone(Next(verify, t, step), id)
    ensures var c, t' := step.control, Next(verify, t, step);
            && t'.book.grants == t.book.grants[c.binding.caller :=
                 PeerGrant(c.binding.caller, c.binding.secret, c.permissions, Find(t.book.pending, id).value.material)]
            && t'.disk.book.grants == t'.book.grants
  {
    FindMeans(t.book.pending, id);
    DropEffect(t.book.pending, id);
    var item := (id, Find(t.book.pending, id).value);
    assert FiledIn(t.asked, t.nextId, item);
  }

  /** No transaction is confirmed twice, whatever reaches the target in between, and
      however often it saves, fails to save and restarts. */
  lemma ConfirmedOnce(verify: Verifier, states: seq<Target>, steps: seq<Step>, i: nat, j: nat, id: Id)
    requires Run(verify, states, steps) && i < j < |steps| && Confirms(states[i], steps[i], id)
    ensures !Confirms(states[j], steps[j], id)
  {
    RunKeepsSound(verify, states, steps, i);
    RunKeepsSound(verify, states, steps, j);
    ConfirmTakes(verify, states[i], steps[i], id);
    GoneForGood(verify, states, steps, i + 1, j, id);
    if Confirms(states[j], steps[j], id) { ConfirmTakes(verify, states[j], steps[j], id); }
  }

  /** A cancel that was answered with yes is final. */
  lemma CancelledIsNeverConfirmed(verify: Verifier, states: seq<Target>, steps: seq<Step>, i: nat, j: nat)
    requires Run(verify, states, steps) && i < j < |steps|
    requires steps[i].Conclude? && steps[i].control.operation.Cancel?
    requires HandleControl(states[i], steps[i].control, steps[i].saves).1
    ensures !Confirms(states[j], steps[j], steps[i].control.binding.id)
  {
    var id := steps[i].control.binding.id;
    RunKeepsSound(verify, states, steps, i);
    RunKeepsSound(verify, states, steps, j);
    CancelTakes(states[i], steps[i].control, steps[i].saves);
    GoneForGood(verify, states, steps, i + 1, j, id);
    if Confirms(states[j], steps[j], id) { ConfirmTakes(verify, states[j], steps[j], id); }
  }

  /** An approving reply is bound to the caller and the secret of the request, also when
      it reopens the transaction of an earlier attempt whose reply was lost. */
  lemma ReplyMatchesRequest(verify: Verifier, t: Target, r: Request, c: Conditions)
    requires Sound(t) && HandleRequest(verify, t, r, c).1.Approved?
    ensures var reply := HandleRequest(verify, t, r, c).1;
            && reply.binding.secret == r.secret && reply.binding.caller == r.caller
            && var p := Find(HandleRequest(verify, t, r, c).0.book.pending, reply.binding.id);
            && p.Some? && BindingOf(p.value) == reply.binding && p.value.direction == Inbound
  {
    var duplicate := FindFor(t.book.pending, r.caller, Some(Inbound), c.now);
    if duplicate.Some? {
      var i :| 0 <= i < |t.book.pending| && t.book.pending[i].1 == duplicate.value;
      FindItem(t.book.pending, t.book.pending[i]);
    } else {
      BeginsNew(t, r, c.now);
      FindPut(t.book.pending, t.nextId, NewInbound(t, r, c.now), t.nextId);
    }
  }

  /** The order of the checks fails closed. A request is approved exactly when no other
      request holds the lock, the caller is another node, where a grant is held the intent
      is a repair by the proven holder of its root, and either the caller's active
      transaction has the same secret or there is none, the host consents and the state
      is saved. */
  lemma ApprovedIff(verify: Verifier, t: Target, r: Request, c: Conditions)
    requires Sound(t)
    ensures HandleRequest(verify, t, r, c).1.Approved? <==>
              && !c.busy && r.caller != t.self
              && (r.caller in t.book.grants ==> r.intent == Repair && RootContinuous(verify, t.book.grants[r.caller], r.material))
              && var active := FindFor(t.book.pending, r.caller, Some(Inbound), c.now);
                 if active.Some? then active.value.secret == r.secret else c.approves && c.saving.Saved?
    ensures HandleRequest(verify, t, r, c).0.book.grants == t.book.grants
  {
    var active := FindFor(t.book.pending, r.caller, Some(Inbound), c.now);
    if active.Some? {
      ActiveIsAsked(t, r.caller, c.now);
    } else {
      BeginsNew(t, r, c.now);
    }
  }

  lemma ActiveIsAsked(t: Target, caller: NodeId, now: real)
    requires Sound(t) && FindFor(t.book.pending, caller, Some(Inbound), now).Some?
    ensures FindFor(t.book.pending, caller, Some(Inbound), now).value.id in t.asked
  {
    var active := FindFor(t.book.pending, caller, Some(Inbound), now);
    var i :| 0 <= i < |t.book.pending| && t.book.pending[i].1 == active.value;
    assert FiledIn(t.asked, t.nextId, t.book.pending[i]);
  }

  /** Looking up the permissions of a reopened transaction never fails: a request ends in
      an exception only when its save raises. */
  lemma FaultsOnlyInSave(verify: Verifier, t: Target, r: Request, c: Conditions)
    requires Sound(t) && HandleRequest(verify, t, r, c).1 == Refused(Faulted)
    ensures c.saving.SaveRaised?
  {
    if FindFor(t.book.pending, r.caller, Some(Inbound), c.now).Some? {
      ActiveIsAsked(t, r.caller, c.now);
    }
  }

  /** Cancelling takes a recognized transaction off without granting anything, for good
      exactly when the state without it is written; else a restart brings it back if it was
      on disk. What is not recognized changes nothing. */
  lemma CancelTakes(t: Target, c: Control, s: Outcomes)
    requires Sound(t) && c.operation.Cancel?
    ensures var t', id := HandleControl(t, c, s).0, c.binding.id;
            && t'.book.grants == t.book.grants && t'.book.trusted == t.book.trusted
            && if Recognized(t, c) then
                 && !HasKey(t'.book.pending, id)
                 && (Gone(t', id) <==> Written(s.completion) || !HasKey(t.disk.book.pending, id))
                 && (HasKey(Reloaded(t').book.pending, id) <==> !Gone(t', id))
               else t' == t && !HandleControl(t, c, s).1
  {
    FindMeans(t.book.pending, c.binding.id);
    DropEffect(t.book.pending, c.binding.id);
    if Recognized(t, c) {
      assert FiledIn(t.asked, t.nextId, (c.binding.id, Find(t.book.pending, c.binding.id).value));
    }
  }

  lemma {:induction false} FindForLater(pending: Dict<Id, Pending>, peer: NodeId, direction: Option<Direction>, now: real, later: real)
    requires now <= later
    ensures var d := FindFor(pending, peer, direction, now);
            && (d.Some? && later < d.value.expiresAt ==> FindFor(pending, peer, direction, later) == d)
            && (d.None? ==> FindFor(pending, peer, direction, later).None?)
  {
    if pending != [] { FindForLater(pending[1..], peer, direction, now, later); }
  }

  lemma {:induction false} FindForAppended(pending: Dict<Id, Pending>, id: Id, p: Pending, now: real)
    requires FindFor(pending, p.peer, Some(p.direction), now).None? && now < p.expiresAt
    ensures FindFor(pending + [(id, p)], p.peer, Some(p.direction), now) == Some(p)
  {
    if pending != [] {
      assert (pending + [(id, p)])[1..] == pending[1..] + [(id, p)];
      FindForAppended(pending[1..], id, p, now);
    }
  }

  /** Asking again with the same secret while the transaction is active yields the very
      same transaction and changes nothing. */
  lemma RetryReopens(verify: Verifier, t: Target, r: Request, c: Conditions, later: Conditions)
    requires Sound(t) && HandleRequest(verify, t, r, c).1.Approved? && !later.busy
    requires c.now <= later.now < HandleRequest(verify, t, r, c).1.binding.expiresAt
    ensures var (t', reply) := HandleRequest(verify, t, r, c);
            HandleRequest(verify, t', r, later) == (t', reply)
  {
    FindForLater(t.book.pending, r.caller, Some(Inbound), c.now, later.now);
    if FindFor(t.book.pending, r.caller, Some(Inbound), c.now).None? {
      var p := NewInbound(t, r, c.now);
      BeginsNew(t, r, c.now);
      assert !HasKey(t.book.pending, t.nextId) by {
        forall i | 0 <= i < |t.book.pending| ensures t.book.pending[i].0 != t.nextId {
          assert FiledIn(t.asked, t.nextId, t.book.pending[i]);
        }
      }
      PutNew(t.book.pending, t.nextId, p);
      FindForAppended(t.book.pending, t.nextId, p, later.now);
    }
  }
}
