/** Generations and fences of one session: its binding (`core/bindings.py`), its
    liveness leases (`core/liveness.py`) and its pending interactions
    (`core/interactions.py`, `core/recovery.py`).

    Many actors act on these rows, some of them left over from an earlier
    attachment. Each operation is one guarded transaction. */
module Fencing {
  import opened Options

  type Id = nat
  type Source = nat

  datatype Intent = Active | Closed
  datatype Attachment =
    Absent | Creating | Resuming | Attached | Disconnecting | RecoveryUnknown | OwnerConflict | Terminal

  /** The row of `session_bindings`; `typedReason` says that a closed session was
      given an explicit reason to be attached again. */
  datatype Binding = Binding(intent: Intent, attachment: Attachment, generation: nat, fence: nat,
                             version: nat, typedReason: bool)

  datatype LeaseState = Held | Released | Orphaned
  datatype Kind = InteractionKind | OtherKind(k: nat)
  datatype LeaseId = ForInteraction(id: Id) | Fresh(n: nat)
  datatype Lease = Lease(kind: Kind, source: Source, generation: nat, fence: nat, state: LeaseState)

  datatype InteractionState = Pending | Resolved | Expired | ContentUnavailable
  datatype Interaction = Interaction(generation: nat, fence: nat, expiresAt: int, state: InteractionState)

  /** A settlement that won: who claimed the interaction, when, and as what. */
  datatype Claim = Claim(id: Id, state: InteractionState, at: int, generation: nat, fence: nat)

  datatype State = State(
    ownerToken: nat, ownedUntil: int,                 // the owner lease of the session
    binding: Binding, leases: map<LeaseId, Lease>, interactions: map<Id, Interaction>,
    claims: seq<Claim>,                               // what happened
    gateway: Gateway)

  /** The callers that wait in one gateway: each interaction's future and whether
      it has its result; the responses that found a future open, but no stored
      request, and look up what to answer; and the responses that are beyond
      that, some of which raised because the future had its result meanwhile. */
  datatype Gateway = Gateway(futures: map<Id, bool>, waiting: map<nat, Id>, spent: set<nat>, raised: set<nat>)

  datatype Action =
    | TakeOver(until: int)
    | BeginAttachment(token: nat, resuming: bool, admitted: bool, now: int)
    | BeginReattach(token: nat, now: int)
    | Transition(generation: nat, fence: nat, target: Attachment, expected: set<Attachment>)
    | BeginClose(generation: nat, fence: nat)
    | Activate(admitted: bool)
    | Acquire(generation: nat, fence: nat, kind: Kind, source: Source, number: nat)
    | Release(lease: LeaseId, generation: nat, fence: nat)
    | OrphanPrevious(generation: nat, fence: nat)
    | Request(generation: nat, fence: nat, id: Id, expiresAt: int)
    | Settle(generation: nat, fence: nat, id: Id, state: InteractionState, now: int)
    | LoseContent(generation: nat, fence: nat, id: Id)
    | ReleaseLost(id: Id)
    | RecoverContent(ids: set<Id>)
    | RecoverExpired
    | Register(id: Id)
    | Complete(id: Id)
    | Look(responder: nat, id: Id)
    | SetResult(responder: nat)

  // ----- bulk updates -----

  /** Active leases of another generation or fence are orphaned. */
  function OrphanedLeases(leases: map<LeaseId, Lease>, generation: nat, fence: Option<nat>): (r: map<LeaseId, Lease>)
    ensures r.Keys == leases.Keys
    ensures forall l | l in leases ::
      r[l] == if leases[l].state == Held && (leases[l].generation != generation || (fence.Some? && leases[l].fence != fence.value))
              then leases[l].(state := Orphaned) else leases[l]
  {
    map l | l in leases ::
      if leases[l].state == Held && (leases[l].generation != generation || (fence.Some? && leases[l].fence != fence.value))
      then leases[l].(state := Orphaned) else leases[l]
  }

  function ExpiredInteractions(rows: map<Id, Interaction>, generation: nat, fence: Option<nat>): (r: map<Id, Interaction>)
    ensures r.Keys == rows.Keys
    ensures forall i | i in rows ::
      r[i] == if rows[i].state == Pending && (rows[i].generation != generation || (fence.Some? && rows[i].fence != fence.value))
              then rows[i].(state := Expired) else rows[i]
  {
    map i | i in rows ::
      if rows[i].state == Pending && (rows[i].generation != generation || (fence.Some? && rows[i].fence != fence.value))
      then rows[i].(state := Expired) else rows[i]
  }

  /** Startup recovery: the named pending interactions move to `state`. */
  function RecoveredInteractions(rows: map<Id, Interaction>, ids: set<Id>, state: InteractionState): (r: map<Id, Interaction>)
    ensures r.Keys == rows.Keys
    ensures forall i | i in rows ::
      r[i] == if rows[i].state == Pending && i in ids then rows[i].(state := state) else rows[i]
  {
    map i | i in rows :: if rows[i].state == Pending && i in ids then rows[i].(state := state) else rows[i]
  }

  function RecoveredLeases(leases: map<LeaseId, Lease>, ids: set<Id>): (r: map<LeaseId, Lease>)
    ensures r.Keys == leases.Keys
    ensures forall l | l in leases ::
      r[l] == if leases[l].state == Held && leases[l].kind == InteractionKind && leases[l].source in ids
              then leases[l].(state := Released) else leases[l]
  {
    map l | l in leases ::
      if leases[l].state == Held && leases[l].kind == InteractionKind && leases[l].source in ids
      then leases[l].(state := Released) else leases[l]
  }

  function AllOrphaned(leases: map<LeaseId, Lease>): (r: map<LeaseId, Lease>)
    ensures r.Keys == leases.Keys
    ensures forall l | l in leases :: r[l] == if leases[l].state == Held then leases[l].(state := Orphaned) else leases[l]
  {
    map l | l in leases :: if leases[l].state == Held then leases[l].(state := Orphaned) else leases[l]
  }

  // ----- the transactions; None is the exception that leaves the rows alone -----

  predicate Owner(s: State, token: nat, now: int) { s.ownerToken == token && s.ownedUntil > now }

  predicate Attachable(b: Binding, token: nat) {
    || b.attachment == Absent || b.attachment == RecoveryUnknown || b.attachment == OwnerConflict
    || (b.attachment == Attached && b.fence != token)
  }

  function Begun(s: State, token: nat, resuming: bool, admitted: bool, now: int): Option<State> {
    var b := s.binding;
    if !Owner(s, token, now) || !admitted || (b.intent == Closed && !b.typedReason) || !Attachable(b, token) then None
    else
      var generation := b.generation + 1;
      Some(s.(binding := b.(attachment := if resuming then Resuming else Creating, generation := generation,
                            fence := token, version := b.version + 1),
              leases := OrphanedLeases(s.leases, generation, Some(token)),
              interactions := ExpiredInteractions(s.interactions, generation, Some(token))))
  }

  function Reattaching(s: State, token: nat, now: int): Option<State> {
    var b := s.binding;
    if !Owner(s, token, now) || b.intent != Active || b.attachment != Attached || b.fence != token then None
    else
      var generation := b.generation + 1;
      Some(s.(binding := b.(attachment := Resuming, generation := generation, version := b.version + 1),
              leases := OrphanedLeases(s.leases, generation, None),
              interactions := ExpiredInteractions(s.interactions, generation, None)))
  }

  /** `_transition_attachment`: only for the generation and fence the caller saw. */
  function Transitioned(s: State, generation: nat, fence: nat, target: Attachment, expected: set<Attachment>): Option<State> {
    var b := s.binding;
    if b.generation != generation || b.fence != fence || b.attachment !in expected then None
    else Some(s.(binding := b.(attachment := target, version := b.version + 1)))
  }

  function Closing(s: State, generation: nat, fence: nat): Option<State> {
    var b := s.binding;
    if b.generation != generation || b.fence != fence || b.attachment != Attached then None
    else Some(s.(binding := b.(intent := Closed, attachment := Disconnecting, version := b.version + 1)))
  }

  function Activated(s: State, admitted: bool): Option<State> {
    var b := s.binding;
    if !admitted || b.intent != Closed then None
    else Some(s.(binding := b.(intent := Active, version := b.version + 1)))
  }

  /** Whether a source is held by an active lease already. */
  predicate HeldBy(leases: map<LeaseId, Lease>, l: LeaseId, kind: Kind, source: Source) {
    l in leases && leases[l].state == Held && leases[l].kind == kind && leases[l].source == source
  }

  function Acquired(s: State, generation: nat, fence: nat, kind: Kind, source: Source, number: nat): Option<State> {
    if exists l | l in s.leases :: HeldBy(s.leases, l, kind, source) then
      if exists l | l in s.leases :: HeldBy(s.leases, l, kind, source)
                                     && (s.leases[l].generation != generation || s.leases[l].fence != fence)
      then None else Some(s)
    else Some(s.(leases := s.leases[Fresh(number) := Lease(kind, source, generation, fence, Held)]))
  }

  function LeaseReleased(s: State, lease: LeaseId, generation: nat, fence: nat): Option<State> {
    if lease in s.leases && s.leases[lease].state == Held
       && s.leases[lease].generation == generation && s.leases[lease].fence == fence
    then Some(s.(leases := s.leases[lease := s.leases[lease].(state := Released)]))
    else None
  }

  /** The reducer records a request only for the generation and fence of the binding. */
  function Requested(s: State, generation: nat, fence: nat, id: Id, expiresAt: int): Option<State> {
    if s.binding.generation != generation || s.binding.fence != fence || id in s.interactions then None
    else Some(s.(interactions := s.interactions[id := Interaction(generation, fence, expiresAt, Pending)],
                 leases := s.leases[ForInteraction(id) := Lease(InteractionKind, id, generation, fence, Held)]))
  }

  predicate Mine(s: State, id: Id, generation: nat, fence: nat) {
    id in s.interactions && s.interactions[id].state == Pending
    && s.interactions[id].generation == generation && s.interactions[id].fence == fence
  }

  /** The lease of a settled interaction is released, if it is of the given attachment. */
  function InteractionLeaseReleased(leases: map<LeaseId, Lease>, id: Id, attachment: Option<(nat, nat)>): map<LeaseId, Lease> {
    var l := ForInteraction(id);
    if l in leases && leases[l].state == Held
       && (attachment.Some? ==> (leases[l].generation, leases[l].fence) == attachment.value)
    then leases[l := leases[l].(state := Released)] else leases
  }

  /** The transaction of `_settle`: whether it claims the interaction. */
  predicate Claims(s: State, generation: nat, fence: nat, id: Id, state: InteractionState, now: int) {
    Mine(s, id, generation, fence) && (state == Resolved ==> s.interactions[id].expiresAt > now)
  }

  function Settled(s: State, generation: nat, fence: nat, id: Id, state: InteractionState, now: int): Option<State> {
    if !Claims(s, generation, fence, id, state, now) then None
    else Some(s.(interactions := s.interactions[id := s.interactions[id].(state := state)],
                 leases := InteractionLeaseReleased(s.leases, id, Some((generation, fence))),
                 claims := s.claims + [Claim(id, state, now, generation, fence)]))
  }

  function ContentLost(s: State, generation: nat, fence: nat, id: Id): Option<State> {
    if !Mine(s, id, generation, fence) then None
    else Some(s.(interactions := s.interactions[id := s.interactions[id].(state := ContentUnavailable)]))
  }

  predicate Open(g: Gateway, id: Id) { id in g.futures && !g.futures[id] }

  /** A future gets its result unless it has one. */
  function Completed(g: Gateway, id: Id): Gateway {
    if Open(g, id) then g.(futures := g.futures[id := true]) else g
  }

  /** `_expire_content_unavailable` first looks whether the future is open ... */
  function Looked(g: Gateway, r: nat, id: Id): Gateway {
    g.(spent := g.spent + {r}, waiting := if Open(g, id) then g.waiting[r := id] else g.waiting)
  }

  /** ... and, after a wait, sets its result without looking again, which raises
      when it has one. */
  function ResultSet(g: Gateway, r: nat): Gateway
    requires r in g.waiting
  {
    var id, h := g.waiting[r], g.(waiting := g.waiting - {r});
    if Open(g, id) then h.(futures := g.futures[id := true]) else h.(raised := g.raised + {r})
  }

  /** Actors act for an attachment that was begun at some time, use identifiers
      of their own, and a settlement resolves or expires. */
  predicate Enabled(s: State, a: Action) {
    match a
    case TakeOver(_) => true
    case Acquire(generation, _, kind, _, number) =>
      generation <= s.binding.generation && kind != InteractionKind && Fresh(number) !in s.leases
    case Settle(_, _, _, state, _) => state == Resolved || state == Expired
    case Register(id) => id !in s.gateway.futures
    case Look(r, _) => r !in s.gateway.spent
    case SetResult(r) => r in s.gateway.waiting
    case _ => true
  }

  function Attempt(s: State, a: Action): Option<State>
    requires Enabled(s, a)
  {
    match a
    case TakeOver(until) => Some(s.(ownerToken := s.ownerToken + 1, ownedUntil := until))
    case BeginAttachment(token, resuming, admitted, now) => Begun(s, token, resuming, admitted, now)
    case BeginReattach(token, now) => Reattaching(s, token, now)
    case Transition(generation, fence, target, expected) => Transitioned(s, generation, fence, target, expected)
    case BeginClose(generation, fence) => Closing(s, generation, fence)
    case Activate(admitted) => Activated(s, admitted)
    case Acquire(generation, fence, kind, source, number) => Acquired(s, generation, fence, kind, source, number)
    case Release(lease, generation, fence) => LeaseReleased(s, lease, generation, fence)
    case OrphanPrevious(generation, fence) => Some(s.(leases := OrphanedLeases(s.leases, generation, Some(fence))))
    case Request(generation, fence, id, expiresAt) => Requested(s, generation, fence, id, expiresAt)
    case Settle(generation, fence, id, state, now) => Settled(s, generation, fence, id, state, now)
    case LoseContent(generation, fence, id) => ContentLost(s, generation, fence, id)
    case ReleaseLost(id) => Some(s.(leases := InteractionLeaseReleased(s.leases, id, None)))
    case RecoverContent(ids) => Some(s.(interactions := RecoveredInteractions(s.interactions, ids, ContentUnavailable),
                                        leases := RecoveredLeases(s.leases, ids)))
    case RecoverExpired => Some(s.(interactions := RecoveredInteractions(s.interactions, s.interactions.Keys, Expired),
                                   leases := AllOrphaned(s.leases)))
    case Register(id) => Some(s.(gateway := s.gateway.(futures := s.gateway.futures[id := false])))
    case Complete(id) => Some(s.(gateway := Completed(s.gateway, id)))
    case Look(r, id) => Some(s.(gateway := Looked(s.gateway, r, id)))
    case SetResult(r) => Some(s.(gateway := ResultSet(s.gateway, r)))
  }

  function Step(s: State, a: Action): State
    requires Enabled(s, a)
  {
    Outcome(s, Attempt(s, a))
  }

  /** An exception leaves everything as it was. */
  function Outcome(s: State, t: Option<State>): State {
    if t.Some? then t.value else s
  }

  // ----- what holds in every run -----

  ghost predicate LeasesOk(s: State) {
    && (forall l | l in s.leases :: s.leases[l].generation <= s.binding.generation)
    && (forall l, m | l in s.leases && m in s.leases && l != m && s.leases[l].state == Held && s.leases[m].state == Held ::
          s.leases[l].kind != s.leases[m].kind || s.leases[l].source != s.leases[m].source)
    && (forall l | l in s.leases :: l.ForInteraction? <==> s.leases[l].kind == InteractionKind)
    && (forall l | l in s.leases && l.ForInteraction? ::
          s.leases[l].source == l.id && l.id in s.interactions
          && s.leases[l].generation == s.interactions[l.id].generation && s.leases[l].fence == s.interactions[l.id].fence)
  }

  ghost predicate InteractionsOk(s: State) {
    forall i | i in s.interactions ::
      && s.interactions[i].generation <= s.binding.generation
      && (s.interactions[i].state == Pending ==>
            s.interactions[i].generation == s.binding.generation && s.interactions[i].fence == s.binding.fence)
  }

  /** At most one settlement claims an interaction; a resolved one was claimed
      before it expired, and by nothing else. */
  ghost predicate ClaimsOk(s: State) {
    && (forall i, j | 0 <= i < j < |s.claims| :: s.claims[i].id != s.claims[j].id)
    && (forall i | 0 <= i < |s.claims| :: ClaimOk(s.interactions, s.claims[i]))
    && (forall k | k in s.interactions && s.interactions[k].state == Resolved :: Claimed(s.claims, k))
  }

  predicate ClaimOk(rows: map<Id, Interaction>, c: Claim) {
    && c.id in rows && rows[c.id].state == c.state && (c.state == Resolved || c.state == Expired)
    && rows[c.id].generation == c.generation && rows[c.id].fence == c.fence
    && (c.state == Resolved ==> c.at < rows[c.id].expiresAt)
  }

  ghost predicate Claimed(claims: seq<Claim>, k: Id) {
    exists i | 0 <= i < |claims| :: claims[i].id == k && claims[i].state == Resolved
  }

  ghost predicate Sound(s: State) { LeasesOk(s) && InteractionsOk(s) && ClaimsOk(s) }

  // ----- the steps keep it -----

  /** A binding that moved on, with everything older orphaned or expired. */
  lemma BeginSound(s: State, t: State, token: Option<nat>)
    requires Sound(s) && t.binding.generation == s.binding.generation + 1 && t.claims == s.claims
    requires token.Some? ==> t.binding.fence == token.value
    requires t.leases == OrphanedLeases(s.leases, t.binding.generation, token)
    requires t.interactions == ExpiredInteractions(s.interactions, t.binding.generation, token)
    ensures Sound(t) && NothingLive(t)
  {
    LeasesStop(s, t);
    UnclaimedKeepClaims(s, t);
    BeginClears(s, t, token);
  }

  lemma BeginClears(s: State, t: State, token: Option<nat>)
    requires LeasesOk(s) && InteractionsOk(s) && t.binding.generation == s.binding.generation + 1
    requires t.leases == OrphanedLeases(s.leases, t.binding.generation, token)
    requires t.interactions == ExpiredInteractions(s.interactions, t.binding.generation, token)
    ensures NothingLive(t) && InteractionsOk(t)
  {
  }

  /** No active lease and no pending interaction. */
  ghost predicate NothingLive(s: State) {
    && (forall l | l in s.leases :: s.leases[l].state != Held)
    && (forall i | i in s.interactions :: s.interactions[i].state != Pending)
  }

  /** Right after an attachment begins, nothing of an older one is active or
      pending, and the generation has risen. */
  lemma BeginClearsTheOld(s: State, token: nat, resuming: bool, admitted: bool, now: int)
    requires Sound(s) && Begun(s, token, resuming, admitted, now).Some?
    ensures var t := Begun(s, token, resuming, admitted, now).value;
      Sound(t) && NothingLive(t) && t.binding.generation == s.binding.generation + 1 && t.binding.fence == token
  {
    BeginSound(s, Begun(s, token, resuming, admitted, now).value, Some(token));
  }

  lemma ReattachClearsTheOld(s: State, token: nat, now: int)
    requires Sound(s) && Reattaching(s, token, now).Some?
    ensures var t := Reattaching(s, token, now).value;
      Sound(t) && NothingLive(t) && t.binding.generation == s.binding.generation + 1 && t.binding.fence == s.binding.fence
  {
    BeginSound(s, Reattaching(s, token, now).value, None);
  }

  /** Leases that only stop being held. */
  lemma LeasesStop(s: State, t: State)
    requires LeasesOk(s) && t.leases.Keys == s.leases.Keys && t.binding.generation >= s.binding.generation
    requires forall l | l in s.leases ::
      t.leases[l] == s.leases[l] || (s.leases[l].state == Held && t.leases[l] == s.leases[l].(state := t.leases[l].state))
    requires t.interactions.Keys == s.interactions.Keys
    requires forall i | i in s.interactions ::
      t.interactions[i].generation == s.interactions[i].generation && t.interactions[i].fence == s.interactions[i].fence
    ensures LeasesOk(t)
  {
  }

  lemma AcquireSound(s: State, generation: nat, fence: nat, kind: Kind, source: Source, number: nat)
    requires LeasesOk(s) && Acquired(s, generation, fence, kind, source, number).Some?
    requires generation <= s.binding.generation && kind != InteractionKind && Fresh(number) !in s.leases
    ensures LeasesOk(Acquired(s, generation, fence, kind, source, number).value)
  {
    var t := Acquired(s, generation, fence, kind, source, number).value;
    if t != s {
      forall l | l in s.leases && s.leases[l].state == Held
        ensures s.leases[l].kind != kind || s.leases[l].source != source
      {
        assert !HeldBy(s.leases, l, kind, source);
      }
    }
  }

  lemma RequestSound(s: State, generation: nat, fence: nat, id: Id, expiresAt: int)
    requires Sound(s) && Requested(s, generation, fence, id, expiresAt).Some?
    ensures Sound(Requested(s, generation, fence, id, expiresAt).value)
  {
    var t := Requested(s, generation, fence, id, expiresAt).value;
    assert ForInteraction(id) !in s.leases;
    forall i | 0 <= i < |t.claims| ensures ClaimOk(t.interactions, t.claims[i]) {
      assert ClaimOk(s.interactions, s.claims[i]);
    }
  }

  /** The pending interaction `id` is claimed. */
  lemma SettleSound(s: State, generation: nat, fence: nat, id: Id, state: InteractionState, now: int)
    requires Sound(s) && Settled(s, generation, fence, id, state, now).Some? && (state == Resolved || state == Expired)
    ensures Sound(Settled(s, generation, fence, id, state, now).value)
  {
    var t := Settled(s, generation, fence, id, state, now).value;
    LeasesStop(s, t);
    NotClaimedYet(s, id);
    ClaimsGrow(s, t, Claim(id, state, now, generation, fence));
  }

  lemma NotClaimedYet(s: State, id: Id)
    requires ClaimsOk(s) && id in s.interactions && s.interactions[id].state == Pending
    ensures forall i | 0 <= i < |s.claims| :: s.claims[i].id != id
  {
    forall i | 0 <= i < |s.claims| ensures s.claims[i].id != id {
      assert ClaimOk(s.interactions, s.claims[i]);
    }
  }

  lemma ClaimsGrow(s: State, t: State, c: Claim)
    requires ClaimsOk(s) && c.id in s.interactions && s.interactions[c.id].state == Pending
    requires forall i | 0 <= i < |s.claims| :: s.claims[i].id != c.id
    requires t.claims == s.claims + [c] && t.interactions == s.interactions[c.id := s.interactions[c.id].(state := c.state)]
    requires ClaimOk(t.interactions, c)
    ensures ClaimsOk(t)
  {
    forall i | 0 <= i < |t.claims| ensures ClaimOk(t.interactions, t.claims[i]) {
      if i < |s.claims| { assert ClaimOk(s.interactions, s.claims[i]); }
    }
    forall k | k in t.interactions && t.interactions[k].state == Resolved ensures Claimed(t.claims, k) {
      if k == c.id {
        assert t.claims[|s.claims|].id == k;
      } else {
        var i :| 0 <= i < |s.claims| && s.claims[i].id == k && s.claims[i].state == Resolved;
        assert t.claims[i].id == k && t.claims[i].state == Resolved;
      }
    }
  }

  /** Pending interactions that leave without a claim. */
  lemma UnclaimedKeepClaims(s: State, t: State)
    requires ClaimsOk(s) && t.claims == s.claims && t.interactions.Keys == s.interactions.Keys
    requires forall i | i in s.interactions ::
      || t.interactions[i] == s.interactions[i]
      || (s.interactions[i].state == Pending && t.interactions[i] == s.interactions[i].(state := t.interactions[i].state)
          && t.interactions[i].state != Resolved)
    ensures ClaimsOk(t)
  {
    forall i | 0 <= i < |t.claims| ensures ClaimOk(t.interactions, t.claims[i]) {
      assert ClaimOk(s.interactions, s.claims[i]);
    }
  }

  lemma LoseContentSound(s: State, generation: nat, fence: nat, id: Id)
    requires Sound(s) && ContentLost(s, generation, fence, id).Some?
    ensures Sound(ContentLost(s, generation, fence, id).value)
  {
    var t := ContentLost(s, generation, fence, id).value;
    UnclaimedKeepClaims(s, t);
  }

  lemma RecoverSound(s: State, t: State, ids: set<Id>, state: InteractionState)
    requires Sound(s) && state != Resolved && state != Pending
    requires t == s.(interactions := RecoveredInteractions(s.interactions, ids, state), leases := t.leases)
    requires t.leases == RecoveredLeases(s.leases, ids) || t.leases == AllOrphaned(s.leases)
    ensures Sound(t)
  {
    LeasesStop(s, t);
    UnclaimedKeepClaims(s, t);
  }

  /** After startup recovery nothing is active or pending, and what had no stored
      request is gone first. */
  lemma RecoveryClears(s: State, ids: set<Id>)
    ensures NothingLive(Step(s, RecoverExpired))
    ensures var t := Step(s, RecoverContent(ids));
      && (forall i | i in s.interactions && i in ids && s.interactions[i].state == Pending ::
            t.interactions[i].state == ContentUnavailable)
      && (forall i | i in s.interactions && i !in ids :: t.interactions[i] == s.interactions[i])
  {
  }

  lemma StepSound(s: State, a: Action)
    requires Sound(s) && Enabled(s, a)
    ensures Sound(Step(s, a))
  {
    if Attempt(s, a).Some? {
      match a
      case BeginAttachment(token, resuming, admitted, now) => BeginClearsTheOld(s, token, resuming, admitted, now);
      case BeginReattach(token, now) => ReattachClearsTheOld(s, token, now);
      case Acquire(generation, fence, kind, source, number) => AcquireSound(s, generation, fence, kind, source, number);
      case Release(_, _, _) => LeasesStop(s, Step(s, a));
      case OrphanPrevious(_, _) => LeasesStop(s, Step(s, a));
      case Request(generation, fence, id, expiresAt) => RequestSound(s, generation, fence, id, expiresAt);
      case Settle(generation, fence, id, state, now) => SettleSound(s, generation, fence, id, state, now);
      case LoseContent(generation, fence, id) => LoseContentSound(s, generation, fence, id);
      case ReleaseLost(_) => LeasesStop(s, Step(s, a));
      case RecoverContent(ids) => RecoverSound(s, Step(s, a), ids, ContentUnavailable);
      case RecoverExpired => RecoverSound(s, Step(s, a), s.interactions.Keys, Expired);
      case _ =>
    }
  }

  // ----- runs -----

  function Run(s: State, actions: seq<Action>): Option<State> {
    if actions == [] then Some(s)
    else
      var last := |actions| - 1;
      var u := Run(s, actions[..last]);
      if u.Some? && Enabled(u.value, actions[last]) then Some(Step(u.value, actions[last])) else None
  }

  lemma RunStep(s: State, actions: seq<Action>, t: State, a: Action)
    requires Run(s, actions) == Some(t) && Enabled(t, a)
    ensures Run(s, actions + [a]) == Some(Step(t, a))
  {
    assert (actions + [a])[..|actions|] == actions;
  }

  lemma {:induction false} RunSound(s: State, actions: seq<Action>, t: State)
    requires Sound(s) && Run(s, actions) == Some(t)
    ensures Sound(t)
  {
    if actions != [] {
      var last := |actions| - 1;
      RunSound(s, actions[..last], Run(s, actions[..last]).value);
      StepSound(Run(s, actions[..last]).value, actions[last]);
    }
  }

  /** The generation and fence of an attachment: the fence changes only with the
      generation, and the generation only rises, by one at a time. */
  predicate Follows(was: Binding, now: Binding) {
    && was.generation <= now.generation && was.version <= now.version
    && (was.generation == now.generation ==> was.fence == now.fence)
  }

  lemma {:induction false} GenerationsRise(s: State, actions: seq<Action>, t: State)
    requires Run(s, actions) == Some(t)
    ensures Follows(s.binding, t.binding)
  {
    if actions != [] {
      var last := |actions| - 1;
      GenerationsRise(s, actions[..last], Run(s, actions[..last]).value);
    }
  }

  /** What an actor of the attachment seen in `s` may still do in a later state
      `t`: its transitions and its close go through, and its requests and
      settlements count, only if no attachment has begun in between. */
  lemma StaleActorsAreFencedOut(s: State, actions: seq<Action>, t: State, target: Attachment,
                                expected: set<Attachment>, id: Id, state: InteractionState, now: int)
    requires Sound(s) && Run(s, actions) == Some(t) && t.binding.generation != s.binding.generation
    requires state == Resolved || state == Expired
    ensures Step(t, Transition(s.binding.generation, s.binding.fence, target, expected)) == t
    ensures Step(t, BeginClose(s.binding.generation, s.binding.fence)) == t
    ensures Step(t, Request(s.binding.generation, s.binding.fence, id, now)) == t
    ensures Step(t, Settle(s.binding.generation, s.binding.fence, id, state, now)) == t
    ensures Step(t, LoseContent(s.binding.generation, s.binding.fence, id)) == t
  {
    GenerationsRise(s, actions, t);
    RunSound(s, actions, t);
    StaleIsRefused(t, s.binding, target, expected, id, state, now);
  }

  lemma StaleIsRefused(t: State, seen: Binding, target: Attachment, expected: set<Attachment>, id: Id,
                       state: InteractionState, now: int)
    requires InteractionsOk(t) && seen.generation < t.binding.generation
    requires state == Resolved || state == Expired
    ensures Step(t, Transition(seen.generation, seen.fence, target, expected)) == t
    ensures Step(t, BeginClose(seen.generation, seen.fence)) == t
    ensures Step(t, Request(seen.generation, seen.fence, id, now)) == t
    ensures Step(t, Settle(seen.generation, seen.fence, id, state, now)) == t
    ensures Step(t, LoseContent(seen.generation, seen.fence, id)) == t
  {
  }

  /** While no attachment begins, what the actor saw is still the attachment. */
  lemma CurrentActorsAreNot(s: State, actions: seq<Action>, t: State, target: Attachment, expected: set<Attachment>)
    requires Run(s, actions) == Some(t) && t.binding.generation == s.binding.generation
    ensures Transitioned(t, s.binding.generation, s.binding.fence, target, expected).Some?
            <==> t.binding.attachment in expected
  {
    GenerationsRise(s, actions, t);
  }

  /** An interaction leaves pending once and for all. */
  lemma {:induction false} SettledForGood(s: State, actions: seq<Action>, t: State, id: Id)
    requires Run(s, actions) == Some(t) && id in s.interactions
    ensures id in t.interactions
    ensures t.interactions[id].generation == s.interactions[id].generation
            && t.interactions[id].fence == s.interactions[id].fence
            && t.interactions[id].expiresAt == s.interactions[id].expiresAt
    ensures s.interactions[id].state != Pending ==> t.interactions[id] == s.interactions[id]
    ensures |s.claims| <= |t.claims| && s.claims == t.claims[..|s.claims|]
  {
    if actions != [] {
      var last := |actions| - 1;
      SettledForGood(s, actions[..last], Run(s, actions[..last]).value, id);
      StepKeepsSettled(Run(s, actions[..last]).value, actions[last], id);
    }
  }

  /** What no step takes back: claims, settled interactions, results of futures. */
  ghost predicate Later(s: State, t: State) {
    && |s.claims| <= |t.claims| && t.claims[..|s.claims|] == s.claims
    && (forall i | i in s.interactions ::
          i in t.interactions && t.interactions[i] == s.interactions[i].(state := t.interactions[i].state)
          && (s.interactions[i].state != Pending ==> t.interactions[i] == s.interactions[i]))
    && (forall i | i in s.gateway.futures ::
          i in t.gateway.futures && (s.gateway.futures[i] ==> t.gateway.futures[i]))
  }

  lemma StepLater(s: State, a: Action)
    requires Enabled(s, a)
    ensures Later(s, Step(s, a))
  {
  }

  lemma StepKeepsSettled(s: State, a: Action, id: Id)
    requires Enabled(s, a) && id in s.interactions
    ensures var t := Step(s, a);
      && id in t.interactions && t.interactions[id] == s.interactions[id].(state := t.interactions[id].state)
      && (s.interactions[id].state != Pending ==> t.interactions[id] == s.interactions[id])
      && |s.claims| <= |t.claims| && s.claims == t.claims[..|s.claims|]
  {
  }

  /** A settlement wins only under the current generation and fence, and a
      resolution only before the interaction expires; whoever comes later loses. */
  lemma WinnerIsCurrent(s: State, generation: nat, fence: nat, id: Id, state: InteractionState, now: int)
    requires Sound(s) && Claims(s, generation, fence, id, state, now) && (state == Resolved || state == Expired)
    ensures generation == s.binding.generation && fence == s.binding.fence
    ensures state == Resolved ==> now < s.interactions[id].expiresAt
    ensures forall i | 0 <= i < |s.claims| :: s.claims[i].id != id
    ensures forall g, f, st, n :: !Claims(Step(s, Settle(generation, fence, id, state, now)), g, f, id, st, n)
  {
    NotClaimedYet(s, id);
  }

  /** `orphan_previous_generations` spares the leases of the current attachment
      exactly when that attachment calls it, or has none: a caller left over
      from an earlier attachment orphans the current ones. */
  lemma OrphaningSparesTheCallerOnly(s: State, generation: nat, fence: nat)
    requires generation <= s.binding.generation
    ensures (forall l | Current(s, l) :: Step(s, OrphanPrevious(generation, fence)).leases[l] == s.leases[l])
            <==> (generation == s.binding.generation && fence == s.binding.fence) || forall l :: !Current(s, l)
  {
    if exists l :: Current(s, l) {
      var l :| Current(s, l);
      assert Step(s, OrphanPrevious(generation, fence)).leases[l] == s.leases[l]
             <==> generation == s.binding.generation && fence == s.binding.fence;
    }
  }

  predicate Current(s: State, l: LeaseId) {
    l in s.leases && s.leases[l].state == Held
    && s.leases[l].generation == s.binding.generation && s.leases[l].fence == s.binding.fence
  }

  // ----- who completes a future -----

  /** The state before the `i`-th step of a run. */
  ghost function At(s: State, actions: seq<Action>, i: nat): State
    requires i <= |actions|
  {
    var u := Run(s, actions[..i]);
    if u.Some? then u.value else s
  }

  lemma {:induction false} PrefixRuns(s: State, actions: seq<Action>, i: nat)
    requires Run(s, actions).Some? && i <= |actions|
    ensures Run(s, actions[..i]).Some?
    decreases |actions|
  {
    if i < |actions| {
      var init := actions[..|actions| - 1];
      PrefixRuns(s, init, i);
      assert init[..i] == actions[..i];
    } else {
      assert actions[..i] == actions;
    }
  }

  lemma StepAt(s: State, actions: seq<Action>, i: nat)
    requires Run(s, actions).Some? && i < |actions|
    ensures Enabled(At(s, actions, i), actions[i])
    ensures At(s, actions, i + 1) == Step(At(s, actions, i), actions[i])
  {
    PrefixRuns(s, actions, i);
    PrefixRuns(s, actions, i + 1);
    assert actions[..i + 1][..i] == actions[..i];
  }

  /** At step `i` the response `r` finds the future of its interaction open. */
  ghost predicate LooksAt(s: State, actions: seq<Action>, i: nat, r: nat) {
    i < |actions| && actions[i].Look? && actions[i].responder == r && Open(At(s, actions, i).gateway, actions[i].id)
  }

  /** Step `j` gives the future of `id` its result. */
  ghost predicate CompletesAt(s: State, actions: seq<Action>, j: nat, id: Id) {
    j < |actions| && Open(At(s, actions, j).gateway, id) && !Open(At(s, actions, j + 1).gateway, id)
  }

  predicate SetsAt(actions: seq<Action>, k: nat, r: nat) {
    k < |actions| && actions[k] == SetResult(r)
  }

  /** The future was completed between the look of `r` and its set. */
  ghost predicate Overtaken(s: State, actions: seq<Action>, r: nat) {
    exists i: nat, j: nat, k: nat :: Between(s, actions, r, i, j, k)
  }

  ghost predicate Between(s: State, actions: seq<Action>, r: nat, i: nat, j: nat, k: nat) {
    i < j < k && LooksAt(s, actions, i, r) && CompletesAt(s, actions, j, actions[i].id) && SetsAt(actions, k, r)
  }

  lemma StartAt(s: State, actions: seq<Action>)
    ensures At(s, actions, 0) == s
  {
    assert actions[..0] == [];
  }

  /** A future that was completed stays so. */
  lemma StaysCompleted(s: State, actions: seq<Action>, i: nat, m: nat, id: Id)
    requires Run(s, actions).Some? && i <= m <= |actions|
    requires id in At(s, actions, i).gateway.futures
    ensures id in At(s, actions, m).gateway.futures
    ensures !Open(At(s, actions, i).gateway, id) ==> !Open(At(s, actions, m).gateway, id)
  {
    if i < m {
      StaysCompleted(s, actions, i, m - 1, id);
      StepAt(s, actions, m - 1);
    }
  }

  /** If a future is open before and not after, some step in between completes it. */
  lemma SomeStepCompletes(s: State, actions: seq<Action>, i: nat, m: nat, id: Id) returns (j: nat)
    requires Run(s, actions).Some? && i <= m <= |actions|
    requires Open(At(s, actions, i).gateway, id) && !Open(At(s, actions, m).gateway, id)
    ensures i <= j < m && CompletesAt(s, actions, j, id)
  {
    if Open(At(s, actions, m - 1).gateway, id) {
      j := m - 1;
    } else {
      j := SomeStepCompletes(s, actions, i, m - 1, id);
    }
  }

  /** A response that has not begun. */
  predicate New(g: Gateway, r: nat) { r !in g.spent && r !in g.waiting && r !in g.raised }

  /** What holds of one response throughout. */
  lemma ResponseKept(s: State, actions: seq<Action>, m: nat, r: nat)
    requires Run(s, actions).Some? && m <= |actions| && New(s.gateway, r)
    ensures var g := At(s, actions, m).gateway;
      && (r in g.waiting ==> r in g.spent && g.waiting[r] in g.futures)
      && (r in g.raised ==> r in g.spent && r !in g.waiting)
  {
    StartAt(s, actions);
    if m > 0 {
      ResponseKept(s, actions, m - 1, r);
      StepAt(s, actions, m - 1);
    }
  }

  lemma StaysSpent(s: State, actions: seq<Action>, i: nat, m: nat, r: nat)
    requires Run(s, actions).Some? && i <= m <= |actions|
    ensures r in At(s, actions, i).gateway.spent ==> r in At(s, actions, m).gateway.spent
    ensures r in At(s, actions, i).gateway.raised ==> r in At(s, actions, m).gateway.raised
  {
    if i < m {
      StaysSpent(s, actions, i, m - 1, r);
      StepAt(s, actions, m - 1);
    }
  }

  /** While `r` waits it is for the future it looked at. */
  lemma WaitsForWhatItSaw(s: State, actions: seq<Action>, m: nat, r: nat) returns (i: nat)
    requires Run(s, actions).Some? && m <= |actions| && New(s.gateway, r)
    requires r in At(s, actions, m).gateway.waiting
    ensures i < m && LooksAt(s, actions, i, r) && actions[i].id == At(s, actions, m).gateway.waiting[r]
  {
    StartAt(s, actions);
    if m > 0 {
      StepAt(s, actions, m - 1);
      if r in At(s, actions, m - 1).gateway.waiting {
        i := WaitsForWhatItSaw(s, actions, m - 1, r);
        ResponseKept(s, actions, m - 1, r);
      } else {
        i := m - 1;
      }
    }
  }

  lemma LooksOnce(s: State, actions: seq<Action>, i: nat, j: nat, r: nat)
    requires Run(s, actions).Some? && LooksAt(s, actions, i, r) && LooksAt(s, actions, j, r)
    ensures i == j
  {
    var a, b := if i < j then i else j, if i < j then j else i;
    if a < b {
      StepAt(s, actions, a);
      StaysSpent(s, actions, a + 1, b, r);
      StepAt(s, actions, b);
    }
  }

  /** A response that raised set a result that was there. */
  lemma RaisedAtSet(s: State, actions: seq<Action>, m: nat, r: nat) returns (k: nat)
    requires Run(s, actions).Some? && m <= |actions| && New(s.gateway, r)
    requires r in At(s, actions, m).gateway.raised
    ensures k < m && SetsAt(actions, k, r)
    ensures var g := At(s, actions, k).gateway; r in g.waiting && !Open(g, g.waiting[r])
  {
    StartAt(s, actions);
    if m > 0 {
      StepAt(s, actions, m - 1);
      if r in At(s, actions, m - 1).gateway.raised {
        k := RaisedAtSet(s, actions, m - 1, r);
      } else {
        k := m - 1;
      }
    }
  }

  /** A response without a stored request raises if and only if somebody else
      completes its future between the moment it finds the future open and the
      moment it sets the result. */
  lemma RaisesIffOvertaken(s: State, actions: seq<Action>, t: State, r: nat)
    requires Run(s, actions) == Some(t) && New(s.gateway, r)
    ensures r in t.gateway.raised <==> Overtaken(s, actions, r)
  {
    assert actions[..|actions|] == actions;
    if r in t.gateway.raised {
      var k := RaisedAtSet(s, actions, |actions|, r);
      var i := WaitsForWhatItSaw(s, actions, k, r);
      StepAt(s, actions, i);
      var j := SomeStepCompletes(s, actions, i + 1, k, actions[i].id);
      assert Between(s, actions, r, i, j, k);
    }
    if Overtaken(s, actions, r) {
      var i: nat, j: nat, k: nat :| Between(s, actions, r, i, j, k);
      OvertakenRaises(s, actions, t, r, i, j, k);
    }
  }

  lemma OvertakenRaises(s: State, actions: seq<Action>, t: State, r: nat, i: nat, j: nat, k: nat)
    requires Run(s, actions) == Some(t) && New(s.gateway, r) && Between(s, actions, r, i, j, k)
    ensures r in t.gateway.raised
  {
    StepAt(s, actions, j);
    CompletedBefore(s, actions, actions[i].id, j, k);
    SetsTwice(s, actions, r, i, k);
    StaysSpent(s, actions, k + 1, |actions|, r);
    assert actions[..|actions|] == actions;
  }

  lemma CompletedBefore(s: State, actions: seq<Action>, id: Id, j: nat, k: nat)
    requires Run(s, actions).Some? && CompletesAt(s, actions, j, id) && j < k <= |actions|
    ensures !Open(At(s, actions, k).gateway, id)
  {
    StaysCompleted(s, actions, j, j + 1, id);
    StaysCompleted(s, actions, j + 1, k, id);
  }

  lemma SetsTwice(s: State, actions: seq<Action>, r: nat, i: nat, k: nat)
    requires Run(s, actions).Some? && New(s.gateway, r) && LooksAt(s, actions, i, r) && SetsAt(actions, k, r)
    requires !Open(At(s, actions, k).gateway, actions[i].id)
    ensures r in At(s, actions, k + 1).gateway.raised
  {
    StepAt(s, actions, k);
    var l := WaitsForWhatItSaw(s, actions, k, r);
    LooksOnce(s, actions, i, l, r);
  }

  const NoCallers := Gateway(map[], map[], {}, {})

  function Opened(binding: Binding): State {
    State(0, 0, binding, map[], map[], [], NoCallers)
  }

  lemma Advance(s: State, actions: seq<Action>, i: nat, t: State) returns (u: State)
    requires i < |actions| && Run(s, actions[..i]) == Some(t) && Enabled(t, actions[i])
    ensures u == Step(t, actions[i]) && Run(s, actions[..i + 1]) == Some(u)
  {
    u := Step(t, actions[i]);
    RunStep(s, actions[..i], t, actions[i]);
    assert actions[..i] + [actions[i]] == actions[..i + 1];
  }

  lemma {:induction false} RunAppend(s: State, first: seq<Action>, t: State, second: seq<Action>)
    requires Run(s, first) == Some(t)
    ensures Run(s, first + second) == Run(t, second)
    decreases |second|
  {
    if second == [] {
      assert first + second == first;
    } else {
      var init := second[..|second| - 1];
      RunAppend(s, first, t, init);
      assert (first + second)[..|first + second| - 1] == first + init;
    }
  }

  /** A response to a session's one interaction, whose stored request is gone,
      has found the caller's future open. */
  function Lost(binding: Binding, id: Id): State {
    var (g, f) := (binding.generation, binding.fence);
    Opened(binding).(interactions := map[id := Interaction(g, f, 60, ContentUnavailable)],
                     leases := map[ForInteraction(id) := Lease(InteractionKind, id, g, f, Held)],
                     gateway := Gateway(map[id := false], map[1 := id], {1}, {}))
  }

  function Losing(binding: Binding, id: Id): seq<Action> {
    [Register(id), Request(binding.generation, binding.fence, id, 60), LoseContent(binding.generation, binding.fence, id),
     Look(1, id)]
  }

  lemma LosingLoses(binding: Binding, id: Id)
    ensures Run(Opened(binding), Losing(binding, id)) == Some(Lost(binding, id))
  {
    var s, a := Opened(binding), Losing(binding, id);
    var t := Advance(s, a, 0, s);
    t := Advance(s, a, 1, t);
    t := Advance(s, a, 2, t);
    t := Advance(s, a, 3, t);
    var u := Lost(binding, id);
    assert t.interactions == u.interactions && t.leases == u.leases && t.gateway == u.gateway;
    assert a[..4] == a;
  }

  /** A second response finds the future open too, and the one that sets the
      result last raises. */
  lemma TwoResponsesSetOneFuture(binding: Binding, id: Id)
    ensures var t := Run(Opened(binding), Losing(binding, id) + [Look(2, id), SetResult(1), SetResult(2)]);
      t.Some? && t.value.gateway.raised == {2}
  {
    LosingLoses(binding, id);
    var s, a := Lost(binding, id), [Look(2, id), SetResult(1), SetResult(2)];
    RunAppend(Opened(binding), Losing(binding, id), s, a);
    var t := Advance(s, a, 0, s);
    t := Advance(s, a, 1, t);
    t := Advance(s, a, 2, t);
    assert a[..3] == a;
  }

  /** The one response raises alone when a timeout gives the caller its result
      first; its settlement claims nothing. */
  lemma TimeoutSetsTheFutureFirst(binding: Binding, id: Id, now: int)
    ensures !Claims(Lost(binding, id), binding.generation, binding.fence, id, Expired, now)
    ensures var t := Run(Opened(binding), Losing(binding, id) + [Complete(id), SetResult(1)]);
      t.Some? && t.value.gateway.raised == {1}
  {
    LosingLoses(binding, id);
    var s, a := Lost(binding, id), [Complete(id), SetResult(1)];
    RunAppend(Opened(binding), Losing(binding, id), s, a);
    var t := Advance(s, a, 0, s);
    t := Advance(s, a, 1, t);
    assert a[..2] == a;
  }

  /** A session that was attached once, and now is a second time. */
  function AttachingTwice(): seq<Action> {
    [TakeOver(10), BeginAttachment(1, false, true, 0), Transition(1, 1, Attached, {Creating}),
     TakeOver(90), BeginAttachment(2, true, true, 20)]
  }

  function AttachedTwice(): State {
    Opened(Binding(Active, Resuming, 2, 2, 3, false)).(ownerToken := 2, ownedUntil := 90)
  }

  lemma AttachingTwiceAttaches()
    ensures Run(Opened(Binding(Active, Absent, 0, 0, 0, false)), AttachingTwice()) == Some(AttachedTwice())
  {
    var s, a := Opened(Binding(Active, Absent, 0, 0, 0, false)), AttachingTwice();
    var t := Advance(s, a, 0, s);
    t := Advance(s, a, 1, t);
    assert t == Opened(Binding(Active, Creating, 1, 1, 1, false)).(ownerToken := 1, ownedUntil := 10);
    t := Advance(s, a, 2, t);
    t := Advance(s, a, 3, t);
    assert t == Opened(Binding(Active, Attached, 1, 1, 2, false)).(ownerToken := 2, ownedUntil := 90);
    t := Advance(s, a, 4, t);
    assert a[..5] == a;
  }

  /** A worker of the first attachment orphans a lease of the second one. */
  lemma EarlierAttachmentOrphansTheCurrent(source: Source)
    ensures var t := Run(Opened(Binding(Active, Absent, 0, 0, 0, false)),
                         AttachingTwice() + [Acquire(2, 2, OtherKind(0), source, 0), OrphanPrevious(1, 1)]);
      t.Some? && t.value.binding.generation == t.value.binding.fence == 2
      && t.value.leases == map[Fresh(0) := Lease(OtherKind(0), source, 2, 2, Orphaned)]
  {
    AttachingTwiceAttaches();
    var s, a := AttachedTwice(), [Acquire(2, 2, OtherKind(0), source, 0), OrphanPrevious(1, 1)];
    RunAppend(Opened(Binding(Active, Absent, 0, 0, 0, false)), AttachingTwice(), s, a);
    var t := Advance(s, a, 0, s);
    t := Advance(s, a, 1, t);
    assert a[..2] == a;
  }

  // ----- steps of a call among those of others -----

  /** Steps of the call itself in the gateway. */
  predicate By(a: Action, call: nat) {
    (a.Look? || a.SetResult?) && a.responder == call
  }

  /** Where the gateway has the call. */
  predicate Unmoved(g: Gateway, h: Gateway, call: nat) {
    && (call in g.waiting <==> call in h.waiting) && (call in g.waiting ==> h.waiting[call] == g.waiting[call])
    && (call in g.spent <==> call in h.spent) && (call in g.raised <==> call in h.raised)
  }

  lemma StepOfOthers(s: State, a: Action, call: nat)
    requires Enabled(s, a) && !By(a, call)
    ensures Unmoved(s.gateway, Step(s, a).gateway, call)
  {
  }

  lemma StepTaken(s0: State, past: seq<Action>, s: State, a: Action)
    requires Run(s0, past) == Some(s) && Sound(s) && Enabled(s, a)
    ensures Run(s0, past + [a]) == Some(Step(s, a)) && Sound(Step(s, a)) && Later(s, Step(s, a))
  {
    RunStep(s0, past, s, a);
    StepSound(s, a);
    StepLater(s, a);
  }

  lemma SamePrefix(s0: State, before: seq<Action>, all: seq<Action>, at: nat)
    requires before <= all && at <= |before|
    ensures At(s0, all, at) == At(s0, before, at)
  {
    assert all[..at] == before[..at];
  }

  /** The row as a response reads it first: pending, of its attachment, unexpired. */
  predicate Answerable(s: State, generation: nat, fence: nat, id: Id, seen: int) {
    Mine(s, id, generation, fence) && s.interactions[id].expiresAt > seen
  }

  /** A response that nobody is before: its future is open, and time is left. */
  predicate Quick(s: State, generation: nat, fence: nat, id: Id, seen: int, now: int) {
    Answerable(s, generation, fence, id, seen) && Open(s.gateway, id) && s.interactions[id].expiresAt > now
  }

  lemma ClaimShows(s: State, c: Claim)
    requires Sound(s) && c in s.claims
    ensures ClaimOk(s.interactions, c)
  {
  }

  /** The one lease is released, if it was active and of the attachment; others stay. */
  predicate Freed(before: map<LeaseId, Lease>, after: map<LeaseId, Lease>, l: LeaseId, attachment: Option<(nat, nat)>) {
    && after.Keys == before.Keys
    && (forall m | m in before && m != l :: after[m] == before[m])
    && (l in before ==>
          after[l] == if before[l].state == Held && (attachment.Some? ==> attachment.value == (before[l].generation, before[l].fence))
                      then before[l].(state := Released) else before[l])
  }

  // ----- the code -----

  /** `SetTwice` is the exception of a future that is given a second result. */
  datatype Resolution = Accepted | TooLate | Invalid | SetTwice

  /** The rows of one session, with the futures of one interaction gateway on
      them. Methods that wait say which steps were taken meanwhile, by whomever. */
  class Session {
    var ownerToken: nat
    var ownedUntil: int
    var binding: Binding
    var leases: map<LeaseId, Lease>
    var interactions: map<Id, Interaction>
    var claims: seq<Claim>
    var gateway: Gateway

    function Current(): State
      reads this
    {
      State(ownerToken, ownedUntil, binding, leases, interactions, claims, gateway)
    }

    constructor (binding: Binding)
      ensures Current() == Opened(binding)
    {
      ownerToken, ownedUntil, this.binding := 0, 0, binding;
      leases, interactions, claims, gateway := map[], map[], [], NoCallers;
    }

    method BeginAttachment(token: nat, resuming: bool, admitted: bool, now: int) returns (ok: bool)
      modifies `binding, `leases, `interactions
      ensures ok <==>
        && old(ownerToken) == token && old(ownedUntil) > now && admitted
        && (old(binding).intent == Active || old(binding).typedReason)
        && (old(binding).attachment in {Absent, RecoveryUnknown, OwnerConflict}
            || (old(binding).attachment == Attached && old(binding).fence != token))
      ensures ok ==> binding == old(binding).(attachment := if resuming then Resuming else Creating, fence := token,
                                              generation := old(binding).generation + 1, version := old(binding).version + 1)
      ensures Current() == Outcome(old(Current()), Begun(old(Current()), token, resuming, admitted, now))
    {
      ok := ownerToken == token && ownedUntil > now && admitted && !(binding.intent == Closed && !binding.typedReason);
      if ok {
        var staleAttached := binding.attachment == Attached && binding.fence != token;
        ok := binding.attachment in {Absent, RecoveryUnknown, OwnerConflict} || staleAttached;
        if ok { Attach(token, resuming); }
      }
    }

    method Attach(token: nat, resuming: bool)
      modifies `binding, `leases, `interactions
      ensures binding == old(binding).(attachment := if resuming then Resuming else Creating, fence := token,
                                       generation := old(binding).generation + 1, version := old(binding).version + 1)
      ensures leases == OrphanedLeases(old(leases), binding.generation, Some(token))
      ensures interactions == ExpiredInteractions(old(interactions), binding.generation, Some(token))
    {
      var generation := binding.generation + 1;
      binding := binding.(attachment := if resuming then Resuming else Creating, generation := generation,
                          fence := token, version := binding.version + 1);
      leases := OrphanedLeases(leases, generation, Some(token));
      interactions := ExpiredInteractions(interactions, generation, Some(token));
    }

    method BeginReattach(token: nat, now: int) returns (ok: bool)
      modifies `binding, `leases, `interactions
      ensures ok <==>
        && old(ownerToken) == token && old(ownedUntil) > now
        && old(binding).intent == Active && old(binding).attachment == Attached && old(binding).fence == token
      ensures ok ==> binding == old(binding).(attachment := Resuming, generation := old(binding).generation + 1,
                                              version := old(binding).version + 1)
      ensures Current() == Outcome(old(Current()), Reattaching(old(Current()), token, now))
    {
      ok := ownerToken == token && ownedUntil > now;
      if ok { ok := !(binding.intent != Active || binding.attachment != Attached || binding.fence != token); }
      if ok { Reattach(); }
    }

    method Reattach()
      modifies `binding, `leases, `interactions
      ensures binding == old(binding).(attachment := Resuming, generation := old(binding).generation + 1,
                                       version := old(binding).version + 1)
      ensures leases == OrphanedLeases(old(leases), binding.generation, None)
      ensures interactions == ExpiredInteractions(old(interactions), binding.generation, None)
    {
      var generation := binding.generation + 1;
      binding := binding.(attachment := Resuming, generation := generation, version := binding.version + 1);
      interactions := ExpiredInteractions(interactions, generation, None);
      leases := OrphanedLeases(leases, generation, None);
    }

    method TransitionAttachment(generation: nat, fence: nat, target: Attachment, expected: set<Attachment>) returns (ok: bool)
      modifies `binding
      ensures ok <==>
        old(binding).generation == generation && old(binding).fence == fence && old(binding).attachment in expected
      ensures binding == if ok then old(binding).(attachment := target, version := old(binding).version + 1) else old(binding)
      ensures Current() == Step(old(Current()), Transition(generation, fence, target, expected))
    {
      ok := binding.generation == generation && binding.fence == fence && binding.attachment in expected;
      if ok { binding := binding.(attachment := target, version := binding.version + 1); }
    }

    method Close(generation: nat, fence: nat) returns (ok: bool)
      modifies `binding
      ensures ok <==>
        old(binding).generation == generation && old(binding).fence == fence && old(binding).attachment == Attached
      ensures ok ==> binding.intent == Closed && binding.attachment == Disconnecting
      ensures !ok ==> binding == old(binding)
      ensures Current() == Step(old(Current()), BeginClose(generation, fence))
    {
      ok := binding.generation == generation && binding.fence == fence && binding.attachment == Attached;
      if ok {
        binding := binding.(intent := Closed, attachment := Disconnecting, version := binding.version + 1);
      }
    }

    /** `activate`: a closed session is wanted again. */
    method Activate(admitted: bool) returns (ok: bool)
      modifies `binding
      ensures ok <==> admitted && old(binding).intent == Closed
      ensures binding == if ok then old(binding).(intent := Active, version := old(binding).version + 1) else old(binding)
      ensures Current() == Step(old(Current()), Action.Activate(admitted))
    {
      ok := admitted && binding.intent == Closed;
      if ok { binding := binding.(intent := Active, version := binding.version + 1); }
    }

    /** `LivenessController.acquire`: at most one active lease per source. */
    method AcquireLease(generation: nat, fence: nat, kind: Kind, source: Source, number: nat) returns (ok: bool)
      requires LeasesOk(Current()) && Fresh(number) !in leases
      modifies `leases
      ensures ok <==> forall l | l in old(leases) ::
        old(leases)[l].state == Held && old(leases)[l].kind == kind && old(leases)[l].source == source
        ==> old(leases)[l].generation == generation && old(leases)[l].fence == fence
      ensures ok ==> exists l | l in leases :: leases[l] == Lease(kind, source, generation, fence, Held)
      ensures forall l | l in old(leases) :: l in leases && leases[l] == old(leases)[l]
      ensures Current() == Outcome(old(Current()), Acquired(old(Current()), generation, fence, kind, source, number))
    {
      if l :| l in leases && HeldBy(leases, l, kind, source) {
        ok := leases[l].generation == generation && leases[l].fence == fence;
      } else {
        leases := leases[Fresh(number) := Lease(kind, source, generation, fence, Held)];
        assert leases[Fresh(number)] == Lease(kind, source, generation, fence, Held);
        ok := true;
      }
    }

    /** `LivenessController.release`: only while it is active, and for whom acquired it. */
    method ReleaseLease(lease: LeaseId, generation: nat, fence: nat) returns (ok: bool)
      modifies `leases
      ensures ok <==> lease in old(leases) && old(leases)[lease].state == Held
                      && old(leases)[lease].generation == generation && old(leases)[lease].fence == fence
      ensures leases == if ok then old(leases)[lease := old(leases)[lease].(state := Released)] else old(leases)
      ensures Current() == Outcome(old(Current()), LeaseReleased(old(Current()), lease, generation, fence))
    {
      ok := lease in leases && leases[lease].state == Held
            && leases[lease].generation == generation && leases[lease].fence == fence;
      if ok { leases := leases[lease := leases[lease].(state := Released)]; }
    }

    /** A future is given a result unless it has one. */
    method Complete(id: Id)
      modifies `gateway
      ensures Current() == Step(old(Current()), Action.Complete(id))
      ensures id in gateway.futures ==> gateway.futures[id]
    {
      if id in gateway.futures && !gateway.futures[id] {
        gateway := gateway.(futures := gateway.futures[id := true]);
      }
    }

    /** Anybody else acts, on the rows or in the gateway; `call` is the call that
        waits, whose own looks and results these are not. */
    method Meanwhile(call: nat, ghost s0: State, ghost past: seq<Action>) returns (ghost all: seq<Action>)
      requires Run(s0, past) == Some(Current()) && Sound(Current())
      modifies this
      ensures Run(s0, all) == Some(Current()) && Sound(Current()) && past <= all
      ensures Later(old(Current()), Current()) && Unmoved(old(gateway), gateway, call)
    {
      all := past;
      ghost var was := Current();
      var n: nat := *;
      while n > 0
        invariant Run(s0, all) == Some(Current()) && Sound(Current()) && past <= all
        invariant Later(was, Current()) && Unmoved(was.gateway, gateway, call)
      {
        n := n - 1;
        var a: Action := *;
        if Enabled(Current(), a) && !By(a, call) {
          all := Act(a, call, s0, all);
        }
      }
    }

    method Act(a: Action, call: nat, ghost s0: State, ghost past: seq<Action>) returns (ghost all: seq<Action>)
      requires Run(s0, past) == Some(Current()) && Sound(Current()) && Enabled(Current(), a) && !By(a, call)
      modifies this
      ensures all == past + [a] && Run(s0, all) == Some(Current()) && Sound(Current())
      ensures Later(old(Current()), Current()) && Unmoved(old(gateway), gateway, call)
    {
      StepTaken(s0, past, Current(), a);
      StepOfOthers(Current(), a, call);
      all := past + [a];
      var t := Step(Current(), a);
      ownerToken, ownedUntil, binding := t.ownerToken, t.ownedUntil, t.binding;
      leases, interactions, claims, gateway := t.leases, t.interactions, t.claims, t.gateway;
    }

    /** The transaction of `_settle`. */
    method ClaimInteraction(generation: nat, fence: nat, id: Id, state: InteractionState, now: int) returns (claimed: bool)
      requires state == Resolved || state == Expired
      modifies `interactions, `leases, `claims
      ensures claimed <==> Claims(old(Current()), generation, fence, id, state, now)
      ensures Current() == Step(old(Current()), Settle(generation, fence, id, state, now))
      ensures claimed ==>
        && claims == old(claims) + [Claim(id, state, now, generation, fence)]
        && interactions == old(interactions)[id := old(interactions)[id].(state := state)]
        && Freed(old(leases), leases, ForInteraction(id), Some((generation, fence)))
      ensures !claimed ==> Current() == old(Current())
    {
      claimed := id in interactions && interactions[id].state == Pending
                 && interactions[id].generation == generation && interactions[id].fence == fence
                 && (state != Resolved || interactions[id].expiresAt > now);
      if claimed {
        interactions := interactions[id := interactions[id].(state := state)];
        leases := InteractionLeaseReleased(leases, id, Some((generation, fence)));
        claims := claims + [Claim(id, state, now, generation, fence)];
      }
    }

    /** `_settle`: the transaction, step `at` of the run, and then the waiting
        caller gets a result unless somebody gave it one. Others act before the
        transaction and after it. */
    method SettleInteraction(generation: nat, fence: nat, id: Id, state: InteractionState, now: int,
                             call: nat, ghost s0: State, ghost past: seq<Action>)
      returns (claimed: bool, ghost all: seq<Action>, ghost at: nat)
      requires Run(s0, past) == Some(Current()) && Sound(Current())
      requires state == Resolved || state == Expired
      modifies this
      ensures Run(s0, all) == Some(Current()) && Sound(Current()) && past <= all
      ensures Later(old(Current()), Current()) && Unmoved(old(gateway), gateway, call)
      ensures id in gateway.futures ==> gateway.futures[id]
      ensures |past| <= at < |all| && all[at] == Settle(generation, fence, id, state, now)
      ensures claimed <==> Claims(At(s0, all, at), generation, fence, id, state, now)
      ensures claimed ==> Claim(id, state, now, generation, fence) in claims
      ensures id in old(interactions) && Mine(Current(), id, generation, fence) ==>
        !claimed && state == Resolved && interactions[id].expiresAt <= now
    {
      claimed, all, at := SettleNext(generation, fence, id, state, now, call, s0, past);
      ghost var before := all;
      all := TakeComplete(id, call, s0, all);
      SamePrefix(s0, before, all, at);
    }

    method SettleNext(generation: nat, fence: nat, id: Id, state: InteractionState, now: int,
                      call: nat, ghost s0: State, ghost past: seq<Action>)
      returns (claimed: bool, ghost all: seq<Action>, ghost at: nat)
      requires Run(s0, past) == Some(Current()) && Sound(Current())
      requires state == Resolved || state == Expired
      modifies this
      ensures Run(s0, all) == Some(Current()) && Sound(Current()) && past <= all
      ensures Later(old(Current()), Current()) && Unmoved(old(gateway), gateway, call)
      ensures |past| <= at < |all| && all[at] == Settle(generation, fence, id, state, now)
      ensures claimed <==> Claims(At(s0, all, at), generation, fence, id, state, now)
      ensures claimed ==> Claim(id, state, now, generation, fence) in claims
      ensures Mine(Current(), id, generation, fence) ==> !claimed && state == Resolved && interactions[id].expiresAt <= now
    {
      all := Meanwhile(call, s0, past);
      at := |all|;
      ghost var before := all;
      claimed, all := TakeSettle(generation, fence, id, state, now, s0, all);
      SamePrefix(s0, before, all, at);
      assert all[..at] == before && before[..at] == before;
    }

    method TakeSettle(generation: nat, fence: nat, id: Id, state: InteractionState, now: int,
                      ghost s0: State, ghost past: seq<Action>)
      returns (claimed: bool, ghost all: seq<Action>)
      requires Run(s0, past) == Some(Current()) && Sound(Current())
      requires state == Resolved || state == Expired
      modifies `interactions, `leases, `claims
      ensures all == past + [Settle(generation, fence, id, state, now)] && Run(s0, all) == Some(Current()) && Sound(Current())
      ensures Later(old(Current()), Current())
      ensures claimed <==> Claims(old(Current()), generation, fence, id, state, now)
      ensures claimed ==> Claim(id, state, now, generation, fence) in claims
      ensures Mine(Current(), id, generation, fence) ==> !claimed && state == Resolved && interactions[id].expiresAt <= now
    {
      StepTaken(s0, past, Current(), Settle(generation, fence, id, state, now));
      claimed := ClaimInteraction(generation, fence, id, state, now);
      all := past + [Settle(generation, fence, id, state, now)];
      assert claimed ==> claims[|claims| - 1] == Claim(id, state, now, generation, fence);
    }

    method TakeComplete(id: Id, call: nat, ghost s0: State, ghost past: seq<Action>) returns (ghost all: seq<Action>)
      requires Run(s0, past) == Some(Current()) && Sound(Current())
      modifies this
      ensures Run(s0, all) == Some(Current()) && Sound(Current()) && past <= all
      ensures Later(old(Current()), Current()) && Unmoved(old(gateway), gateway, call)
      ensures id in gateway.futures ==> gateway.futures[id]
    {
      all := Meanwhile(call, s0, past);
      StepTaken(s0, all, Current(), Action.Complete(id));
      Complete(id);
      all := all + [Action.Complete(id)];
    }

    /** The two statements of `_expire_content_unavailable` on the rows. */
    method LoseRow(generation: nat, fence: nat, id: Id) returns (changed: bool)
      modifies `interactions
      ensures changed <==> Mine(old(Current()), id, generation, fence)
      ensures Current() == Step(old(Current()), Action.LoseContent(generation, fence, id))
    {
      changed := id in interactions && interactions[id].state == Pending
                 && interactions[id].generation == generation && interactions[id].fence == fence;
      if changed { interactions := interactions[id := interactions[id].(state := ContentUnavailable)]; }
    }

    method ReleaseRow(id: Id)
      modifies `leases
      ensures Current() == Step(old(Current()), ReleaseLost(id))
      ensures Freed(old(leases), leases, ForInteraction(id), None)
    {
      var l := ForInteraction(id);
      if l in leases && leases[l].state == Held { leases := leases[l := leases[l].(state := Released)]; }
    }

    /** Its look at the future ... */
    method LookAt(call: nat, id: Id) returns (open: bool)
      requires call !in gateway.spent
      modifies `gateway
      ensures open <==> Open(old(gateway), id)
      ensures Current() == Step(old(Current()), Look(call, id))
    {
      open := id in gateway.futures && !gateway.futures[id];
      gateway := gateway.(spent := gateway.spent + {call});
      if open { gateway := gateway.(waiting := gateway.waiting[call := id]); }
    }

    /** ... and the result it sets later; a future refuses a second one. */
    method SetFuture(call: nat, id: Id) returns (raised: bool)
      requires call in gateway.waiting && gateway.waiting[call] == id
      modifies `gateway
      ensures raised <==> !Open(old(gateway), id)
      ensures Current() == Step(old(Current()), SetResult(call))
    {
      raised := !(id in gateway.futures && !gateway.futures[id]);
      gateway := gateway.(waiting := gateway.waiting - {call});
      if raised {
        gateway := gateway.(raised := gateway.raised + {call});
      } else {
        gateway := gateway.(futures := gateway.futures[id := true]);
      }
    }

    /** `_expire_content_unavailable`: others act between any two of its steps. */
    method ExpireContent(generation: nat, fence: nat, id: Id, call: nat, ghost s0: State, ghost past: seq<Action>)
      returns (raised: bool, ghost all: seq<Action>)
      requires Run(s0, past) == Some(Current()) && Sound(Current()) && New(gateway, call)
      modifies this
      ensures Run(s0, all) == Some(Current()) && Sound(Current()) && past <= all
      ensures Later(old(Current()), Current())
      ensures raised <==> call in gateway.raised
      ensures id in gateway.futures ==> gateway.futures[id]
      ensures id in old(interactions) ==> !Mine(Current(), id, generation, fence)
    {
      var changed;
      changed, all := TakeLoss(generation, fence, id, call, s0, past);
      if changed { all := TakeRelease(id, call, s0, all); }
      raised, all := GiveFallback(id, call, s0, all);
    }

    method TakeLoss(generation: nat, fence: nat, id: Id, call: nat, ghost s0: State, ghost past: seq<Action>)
      returns (changed: bool, ghost all: seq<Action>)
      requires Run(s0, past) == Some(Current()) && Sound(Current())
      modifies this
      ensures Run(s0, all) == Some(Current()) && Sound(Current()) && past <= all
      ensures Later(old(Current()), Current()) && Unmoved(old(gateway), gateway, call)
      ensures !Mine(Current(), id, generation, fence)
    {
      all := Meanwhile(call, s0, past);
      StepTaken(s0, all, Current(), Action.LoseContent(generation, fence, id));
      changed := LoseRow(generation, fence, id);
      all := all + [Action.LoseContent(generation, fence, id)];
    }

    method TakeRelease(id: Id, call: nat, ghost s0: State, ghost past: seq<Action>) returns (ghost all: seq<Action>)
      requires Run(s0, past) == Some(Current()) && Sound(Current())
      modifies this
      ensures Run(s0, all) == Some(Current()) && Sound(Current()) && past <= all
      ensures Later(old(Current()), Current()) && Unmoved(old(gateway), gateway, call)
    {
      all := Meanwhile(call, s0, past);
      StepTaken(s0, all, Current(), ReleaseLost(id));
      ReleaseRow(id);
      all := all + [ReleaseLost(id)];
    }

    method GiveFallback(id: Id, call: nat, ghost s0: State, ghost past: seq<Action>)
      returns (raised: bool, ghost all: seq<Action>)
      requires Run(s0, past) == Some(Current()) && Sound(Current()) && New(gateway, call)
      modifies this
      ensures Run(s0, all) == Some(Current()) && Sound(Current()) && past <= all
      ensures Later(old(Current()), Current())
      ensures raised <==> call in gateway.raised
      ensures id in gateway.futures ==> gateway.futures[id]
    {
      var open;
      open, all := TakeLook(id, call, s0, past);
      raised := false;
      if open { raised, all := TakeSet(id, call, s0, all); }
    }

    method TakeLook(id: Id, call: nat, ghost s0: State, ghost past: seq<Action>)
      returns (open: bool, ghost all: seq<Action>)
      requires Run(s0, past) == Some(Current()) && Sound(Current()) && New(gateway, call)
      modifies this
      ensures Run(s0, all) == Some(Current()) && Sound(Current()) && past <= all
      ensures Later(old(Current()), Current())
      ensures open <==> call in gateway.waiting
      ensures open ==> gateway.waiting[call] == id
      ensures call !in gateway.raised
      ensures !open && id in gateway.futures ==> gateway.futures[id]
    {
      all := Meanwhile(call, s0, past);
      StepTaken(s0, all, Current(), Look(call, id));
      open := LookAt(call, id);
      all := all + [Look(call, id)];
    }

    method TakeSet(id: Id, call: nat, ghost s0: State, ghost past: seq<Action>)
      returns (raised: bool, ghost all: seq<Action>)
      requires Run(s0, past) == Some(Current()) && Sound(Current())
      requires call in gateway.waiting && gateway.waiting[call] == id && call !in gateway.raised
      modifies this
      ensures Run(s0, all) == Some(Current()) && Sound(Current()) && past <= all
      ensures Later(old(Current()), Current())
      ensures raised <==> call in gateway.raised
      ensures id in gateway.futures ==> gateway.futures[id]
    {
      all := Meanwhile(call, s0, past);
      StepTaken(s0, all, Current(), SetResult(call));
      raised := SetFuture(call, id);
      all := all + [SetResult(call)];
    }

    /** `respond` for a gateway of the given attachment. `present` says whether
        the stored request can still be read, `valid` whether the answer fits it.
        The call looks at the future before step `looked` of the run, and tries
        to resolve at step `tried` if and only if everything fits by then. It is
        accepted if and only if that claims, and raises if and only if its future
        got a result between its look and its own. */
    method Respond(generation: nat, fence: nat, id: Id, present: bool, valid: bool, seen: int, now: int, call: nat)
      returns (reply: Resolution, ghost trace: seq<Action>, ghost looked: nat, ghost tried: Option<nat>)
      requires Sound(Current()) && New(gateway, call)
      modifies this
      ensures Run(old(Current()), trace) == Some(Current()) && Sound(Current()) && looked <= |trace|
      ensures tried.Some? <==> Answerable(old(Current()), generation, fence, id, seen)
                               && Open(At(old(Current()), trace, looked).gateway, id) && present && valid
      ensures tried.Some? ==> looked <= tried.value < |trace| && trace[tried.value] == Settle(generation, fence, id, Resolved, now)
      ensures reply == Accepted <==>
        tried.Some? && Claims(At(old(Current()), trace, tried.value), generation, fence, id, Resolved, now)
      ensures reply == Accepted ==>
        && Claim(id, Resolved, now, generation, fence) in claims && id in old(interactions) && id in interactions
        && interactions[id] == old(interactions)[id].(state := Resolved) && now < interactions[id].expiresAt
      ensures Quick(old(Current()), generation, fence, id, seen, now) && present && valid && looked == 0
              ==> (tried == Some(0) ==> reply == Accepted) && tried.Some?
      ensures reply == Invalid <==>
        id !in old(interactions)
        || (Answerable(old(Current()), generation, fence, id, seen)
            && Open(At(old(Current()), trace, looked).gateway, id) && present && !valid)
      ensures reply == SetTwice <==> Overtaken(old(Current()), trace, call)
      ensures reply == SetTwice ==> !present
      ensures Mine(old(Current()), id, generation, fence) && old(interactions)[id].expiresAt <= seen ==>
        reply == TooLate && !Mine(Current(), id, generation, fence)
    {
      ghost var s0 := Current();
      trace, looked, tried := [], 0, None;
      var raised := false;
      if id !in interactions {
        reply := Invalid;
      } else {
        var row := interactions[id];
        trace := Meanwhile(call, s0, trace);
        ghost var before := trace;
        looked := |trace|;
        SamePrefix(s0, before, trace, looked);
        assert before[..looked] == before;
        if row.state != Pending || row.generation != generation || row.fence != fence {
          reply := TooLate;
        } else if row.expiresAt <= seen {
          trace := LetExpire(generation, fence, id, now, call, s0, trace);
          reply := TooLate;
        } else if id !in gateway.futures || gateway.futures[id] {
          reply := TooLate;
        } else if !present {
          raised, trace := ExpireContent(generation, fence, id, call, s0, trace);
          reply := if raised then SetTwice else TooLate;
        } else if !valid {
          reply := Invalid;
        } else {
          var claimed;
          ghost var at;
          claimed, trace, at := SettleInteraction(generation, fence, id, Resolved, now, call, s0, trace);
          tried := Some(at);
          reply := if claimed then Accepted else TooLate;
          if claimed { ClaimShows(Current(), Claim(id, Resolved, now, generation, fence)); }
        }
        SamePrefix(s0, before, trace, looked);
      }
      StartAt(s0, trace);
      RaisesIffOvertaken(s0, trace, Current(), call);
    }

    method LetExpire(generation: nat, fence: nat, id: Id, now: int, call: nat, ghost s0: State, ghost past: seq<Action>)
      returns (ghost all: seq<Action>)
      requires Run(s0, past) == Some(Current()) && Sound(Current()) && id in interactions
      modifies this
      ensures Run(s0, all) == Some(Current()) && Sound(Current()) && past <= all
      ensures Unmoved(old(gateway), gateway, call) && !Mine(Current(), id, generation, fence)
    {
      var claimed;
      ghost var at;
      claimed, all, at := SettleInteraction(generation, fence, id, Expired, now, call, s0, past);
    }

    /** `cancel_pending`: every interaction of the attachment that was pending
        when it looked is settled by the end. */
    method CancelPending(generation: nat, fence: nat, now: int, call: nat) returns (resolved: nat, ghost trace: seq<Action>)
      requires Sound(Current())
      modifies this
      ensures Run(old(Current()), trace) == Some(Current()) && Sound(Current())
      ensures Later(old(Current()), Current())
      ensures forall i | i in old(interactions) && Mine(old(Current()), i, generation, fence) ::
        i in interactions && interactions[i].state != Pending
    {
      ghost var s0 := Current();
      var rows := set i | i in interactions && interactions[i].state == Pending
                          && interactions[i].generation == generation && interactions[i].fence == fence;
      resolved, trace := 0, [];
      var left := rows;
      while left != {}
        invariant Run(s0, trace) == Some(Current()) && Sound(Current()) && Later(s0, Current())
        invariant left <= rows
        invariant forall i | i in rows && i !in left :: interactions[i].state != Pending
        decreases |left|
      {
        var i :| i in left;
        left := left - {i};
        resolved, trace := CancelOne(generation, fence, i, now, call, resolved, s0, trace);
      }
    }

    method CancelOne(generation: nat, fence: nat, i: Id, now: int, call: nat, before: nat,
                     ghost s0: State, ghost past: seq<Action>) returns (resolved: nat, ghost all: seq<Action>)
      requires Run(s0, past) == Some(Current()) && Sound(Current()) && Later(s0, Current())
      requires Mine(s0, i, generation, fence)
      modifies this
      ensures Run(s0, all) == Some(Current()) && Sound(Current()) && Later(old(Current()), Current()) && Later(s0, Current())
      ensures i in interactions && interactions[i].state != Pending
    {
      var claimed;
      ghost var at;
      claimed, all, at := SettleInteraction(generation, fence, i, Expired, now, call, s0, past);
      resolved := if claimed then before + 1 else before;
    }
  }
}
