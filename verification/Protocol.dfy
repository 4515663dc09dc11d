/** Pairing of protocol requests with their completions, and the application's
    own answers to them (`core/protocol.py`).

    The two events of a request may arrive in either order and more than once;
    an answer is claimed, sent and settled in between. */
module Protocol {
  import opened Options

  datatype Kind =
    | Permission | UserInput | Elicitation | ExitPlanMode | SessionLimitsExhausted
    | Sampling | McpOauth | McpHeadersRefresh | ExternalTool | AutoModeSwitch

  datatype Plane = SdkHandler | DirectHandler | AppRpc | Journal

  function PlaneOf(kind: Kind): Plane {
    match kind
    case Permission | ExternalTool | Elicitation | McpOauth => SdkHandler
    case UserInput | ExitPlanMode | AutoModeSwitch => DirectHandler
    case SessionLimitsExhausted | Sampling | McpHeadersRefresh => AppRpc
  }

  datatype Wire = Requested | CompletedBeforeRequested | Paired

  datatype Response =
    | Pending | Delegated | NotApplicable | Responding | Completed
    | Confirmed | Rejected | Unknown | Unsupported | ContentUnavailable

  /** An event of the request: what kind, its identifier and the hash of its body. */
  datatype Event = Request(kind: Kind, id: nat, hash: nat) | Completion(kind: Kind, id: nat, hash: nat)

  /** A row of `protocol_requests`; a side is the type, event and hash seen first. */
  datatype Row = Row(requested: Option<Event>, completed: Option<Event>, wire: Wire, plane: Plane, response: Response)

  datatype Attempt = Started | Settled(outcome: Response)

  function Initially(plane: Plane): Response {
    if plane == AppRpc then Pending
    else if plane == SdkHandler || plane == DirectHandler then Delegated
    else NotApplicable
  }

  /** A completion overrides an answer that nobody began. */
  function Overridden(response: Response): Response {
    if response == Pending || response == NotApplicable || response == Unsupported then Completed else response
  }

  function First(earlier: Option<Event>, e: Event): Option<Event> {
    if earlier.Some? then earlier else Some(e)
  }

  /** `apply_protocol_event`. */
  function Applied(row: Option<Row>, e: Event): Row {
    match e
    case Request(kind, _, _) =>
      if row.None? then Row(Some(e), None, Requested, PlaneOf(kind), Initially(PlaneOf(kind)))
      else
        var r := row.value;
        Row(First(r.requested, e), r.completed,
            if r.completed.Some? then Paired else Requested, PlaneOf(kind),
            if r.completed.Some? then Overridden(r.response) else r.response)
    case Completion(kind, _, _) =>
      if row.None? then Row(None, Some(e), CompletedBeforeRequested, PlaneOf(kind), Completed)
      else
        var r := row.value;
        Row(r.requested, First(r.completed, e),
            if r.requested.None? then CompletedBeforeRequested else Paired, r.plane, Overridden(r.response))
  }

  /** One request: its row, the application's attempt to answer, and how many
      attempts were claimed. */
  datatype State = State(row: Option<Row>, attempt: Option<Attempt>, claims: nat)

  datatype Action =
    | Apply(event: Event)
    | Claim
    | Settle(outcome: Response)
    | MarkUnsupported
    | RecoverContent
    | RecoverAttempts

  predicate Claimable(s: State) {
    && s.row.Some? && s.row.value.requested.Some? && s.row.value.completed.None?
    && s.row.value.plane == AppRpc && s.row.value.response == Pending
  }

  function WithResponse(s: State, response: Response): State
    requires s.row.Some?
  {
    s.(row := Some(s.row.value.(response := response)))
  }

  function Claimed(s: State): State {
    if !Claimable(s) then s
    else WithResponse(s, Responding).(attempt := Some(Started), claims := s.claims + 1)
  }

  predicate IsOutcome(response: Response) {
    response == Confirmed || response == Rejected || response == Unknown || response == Unsupported
  }

  /** Other outcomes are refused, and so is a second settlement. */
  function SettledWith(s: State, outcome: Response): State {
    if !IsOutcome(outcome) || s.attempt != Some(Started) then s
    else
      var t := s.(attempt := Some(Settled(outcome)));
      if s.row.Some? && s.row.value.response == Responding then WithResponse(t, outcome) else t
  }

  function Step(s: State, a: Action): State {
    match a
    case Apply(e) => s.(row := Some(Applied(s.row, e)))
    case Claim => Claimed(s)
    case Settle(outcome) => SettledWith(s, outcome)
    case MarkUnsupported =>
      if s.row.Some? && s.row.value.response == Pending then WithResponse(s, Unsupported) else s
    case RecoverContent =>
      if s.row.Some? && (s.row.value.response == Pending || s.row.value.response == Responding)
      then WithResponse(s, ContentUnavailable) else s
    case RecoverAttempts =>
      if s.attempt == Some(Started) then s.(attempt := Some(Settled(Unknown))) else s
  }

  function Run(s: State, actions: seq<Action>): State {
    if actions == [] then s else Step(Run(s, actions[..|actions| - 1]), actions[|actions| - 1])
  }

  const Nothing := State(None, None, 0)

  // ----- pairing -----

  /** Every event of a run is the request `r` or the completion `c`, repeated at will. */
  ghost predicate AboutOne(actions: seq<Action>, r: Event, c: Event) {
    r.Request? && c.Completion? && forall i | 0 <= i < |actions| && actions[i].Apply? ::
      actions[i].event == r || actions[i].event == c
  }

  /** What the row says about the wire, given which of the events were seen. */
  function WireView(r: Event, c: Event, sawRequest: bool, sawCompletion: bool): (Option<Event>, Option<Event>, Option<Wire>) {
    (if sawRequest then Some(r) else None, if sawCompletion then Some(c) else None,
     if sawRequest && sawCompletion then Some(Paired)
     else if sawRequest then Some(Requested)
     else if sawCompletion then Some(CompletedBeforeRequested) else None)
  }

  function View(s: State): (Option<Event>, Option<Event>, Option<Wire>) {
    if s.row.None? then (None, None, None)
    else (s.row.value.requested, s.row.value.completed, Some(s.row.value.wire))
  }

  /** Types, event identifiers, hashes and the wire state depend only on which
      events were seen: not on their order, on repetitions, or on any claim,
      settlement or recovery in between. */
  lemma {:induction false} WireIsOrderFree(actions: seq<Action>, r: Event, c: Event)
    requires AboutOne(actions, r, c)
    ensures View(Run(Nothing, actions)) == WireView(r, c, Apply(r) in actions, Apply(c) in actions)
  {
    if actions != [] {
      var last := |actions| - 1;
      var init := actions[..last];
      WireIsOrderFree(init, r, c);
      assert actions == init + [actions[last]];
    }
  }

  /** Two runs that saw the same events agree on the wire. */
  lemma SameEventsSameWire(a: seq<Action>, b: seq<Action>, r: Event, c: Event)
    requires AboutOne(a, r, c) && AboutOne(b, r, c)
    requires Apply(r) in a <==> Apply(r) in b
    requires Apply(c) in a <==> Apply(c) in b
    ensures View(Run(Nothing, a)) == View(Run(Nothing, b))
  {
    WireIsOrderFree(a, r, c);
    WireIsOrderFree(b, r, c);
  }

  ghost predicate EventsOnly(actions: seq<Action>) {
    forall i | 0 <= i < |actions| :: actions[i].Apply?
  }

  /** Whether the first event of a run is the completion. */
  predicate CompletionFirst(actions: seq<Action>) {
    actions != [] && actions[0].Apply? && actions[0].event.Completion?
  }

  /** The response state that events alone lead to. */
  lemma {:induction false} ResponseOfEvents(actions: seq<Action>, r: Event, c: Event)
    requires AboutOne(actions, r, c) && EventsOnly(actions) && actions != []
    ensures Run(Nothing, actions).row.Some?
    ensures Run(Nothing, actions).row.value.response ==
      if CompletionFirst(actions) then Completed
      else if Apply(c) in actions then Overridden(Initially(PlaneOf(r.kind)))
      else Initially(PlaneOf(r.kind))
  {
    var last := |actions| - 1;
    var init := actions[..last];
    assert actions == init + [actions[last]];
    assert Run(Nothing, actions) == Step(Run(Nothing, init), actions[last]);
    if init != [] {
      ResponseOfEvents(init, r, c);
      WireIsOrderFree(init, r, c);
    }
  }

  /** Once both events were seen, the response state too is independent of their
      order, exactly for the requests the application answers itself; for the
      others it stays delegated when the request came first, and is completed
      when the completion did. */
  lemma ResponseIsOrderFreeForAppRpcOnly(r: Event, c: Event)
    requires r.Request? && c.Completion?
    ensures (forall a, b | BothSeen(a, r, c) && BothSeen(b, r, c) ::
              Run(Nothing, a).row.value.response == Run(Nothing, b).row.value.response)
            <==> PlaneOf(r.kind) == AppRpc
  {
    forall a | BothSeen(a, r, c)
      ensures Run(Nothing, a).row.value.response ==
        if CompletionFirst(a) then Completed else Overridden(Initially(PlaneOf(r.kind)))
    {
      ResponseOfEvents(a, r, c);
    }
    if PlaneOf(r.kind) != AppRpc {
      var a, b := [Apply(r), Apply(c)], [Apply(c), Apply(r)];
      assert Apply(r) in a && Apply(c) in a && Apply(r) in b && Apply(c) in b;
      assert BothSeen(a, r, c) && BothSeen(b, r, c);
    }
  }

  /** A run of events only, in which both were seen. */
  ghost predicate BothSeen(actions: seq<Action>, r: Event, c: Event) {
    && AboutOne(actions, r, c) && EventsOnly(actions) && Apply(r) in actions && Apply(c) in actions
    && Run(Nothing, actions).row.Some?
  }

  // ----- claims -----

  ghost predicate Sound(s: State) {
    && (s.claims == if s.attempt.Some? then 1 else 0)
    && (s.attempt.Some? ==> s.row.Some? && s.row.value.response != Pending)
    && (s.row.Some? && s.row.value.response == Responding ==> s.attempt.Some?)
    && (s.row.Some? ==> s.row.value.requested.Some? || s.row.value.completed.Some?)
    && (s.row.Some? && s.row.value.completed.Some? ==> s.row.value.response != Pending)
  }

  lemma StepSound(s: State, a: Action)
    requires Sound(s)
    ensures Sound(Step(s, a))
  {
  }

  lemma {:induction false} RunSound(actions: seq<Action>)
    ensures Sound(Run(Nothing, actions))
  {
    if actions != [] {
      var last := |actions| - 1;
      RunSound(actions[..last]);
      StepSound(Run(Nothing, actions[..last]), actions[last]);
    }
  }

  /** A request is claimed at most once, and only while its request was seen and
      its completion was not. */
  lemma ClaimedAtMostOnce(actions: seq<Action>, r: Event, c: Event)
    requires AboutOne(actions, r, c)
    ensures Run(Nothing, actions).claims <= 1
    ensures Claimable(Run(Nothing, actions)) ==>
      Run(Nothing, actions).claims == 0 && Apply(r) in actions && Apply(c) !in actions
  {
    RunSound(actions);
    WireIsOrderFree(actions, r, c);
  }

  /** Some step has answered the request, refused it or lost its content, once it was seen. */
  ghost predicate Taken(actions: seq<Action>, r: Event) {
    exists i: nat :: TakenAt(actions, r, i)
  }

  predicate TakenAt(actions: seq<Action>, r: Event, i: nat) {
    i < |actions| && (actions[i].Claim? || actions[i].MarkUnsupported? || actions[i].RecoverContent?)
    && Apply(r) in actions[..i]
  }

  lemma TakenGrows(actions: seq<Action>, a: Action, r: Event)
    ensures Taken(actions + [a], r) <==>
      Taken(actions, r) || ((a.Claim? || a.MarkUnsupported? || a.RecoverContent?) && Apply(r) in actions)
  {
    var more := actions + [a];
    assert more[..|actions|] == actions;
    forall i: nat | i < |actions| ensures TakenAt(actions, r, i) <==> TakenAt(more, r, i) {
      assert more[..i] == actions[..i];
    }
    if i: nat :| TakenAt(actions, r, i) { assert TakenAt(more, r, i); }
    assert TakenAt(more, r, |actions|) <==> (a.Claim? || a.MarkUnsupported? || a.RecoverContent?) && Apply(r) in actions;
  }

  /** The plane of a request, once it was seen, is that of its kind. */
  lemma {:induction false} PlaneIsThatOfTheKind(actions: seq<Action>, r: Event, c: Event)
    requires AboutOne(actions, r, c) && Apply(r) in actions
    ensures Run(Nothing, actions).row.Some?
    ensures var plane := Run(Nothing, actions).row.value.plane;
      && (plane == AppRpc <==> r.kind in {SessionLimitsExhausted, Sampling, McpHeadersRefresh})
      && (plane == SdkHandler <==> r.kind in {Permission, ExternalTool, Elicitation, McpOauth})
      && (plane == DirectHandler <==> r.kind in {UserInput, ExitPlanMode, AutoModeSwitch})
  {
    var last := |actions| - 1;
    var init := actions[..last];
    assert actions == init + [actions[last]];
    if Apply(r) in init { PlaneIsThatOfTheKind(init, r, c); }
  }

  /** A request can be claimed exactly when it is for the application to answer,
      it was seen and its completion was not, and nobody has answered it, marked
      it as unsupported or lost its content. */
  lemma {:induction false} ClaimableExactlyWhen(actions: seq<Action>, r: Event, c: Event)
    requires AboutOne(actions, r, c)
    ensures Claimable(Run(Nothing, actions)) <==>
      Apply(r) in actions && Apply(c) !in actions && !Taken(actions, r)
      && r.kind in {SessionLimitsExhausted, Sampling, McpHeadersRefresh}
  {
    WireIsOrderFree(actions, r, c);
    if Apply(r) in actions { PlaneIsThatOfTheKind(actions, r, c); }
    if actions != [] {
      var last := |actions| - 1;
      var init := actions[..last];
      assert actions == init + [actions[last]];
      TakenGrows(init, actions[last], r);
      ClaimableExactlyWhen(init, r, c);
      WireIsOrderFree(init, r, c);
      RunSound(init);
      if Apply(r) in init { PlaneIsThatOfTheKind(init, r, c); }
    }
  }

  /** What the second of the two events makes of an answer: one that nobody has
      begun is over, and any other stays as it is. */
  lemma CompletionSettles(row: Row, e: Event)
    requires e.Completion? || row.completed.Some?
    ensures Applied(Some(row), e).response ==
      if row.response in {Pending, NotApplicable, Unsupported} then Completed else row.response
  {
  }

  /** A settlement reaches its row only while that still waits for it. */
  lemma LateSettlementIsKeptOut(s: State, outcome: Response)
    requires s.row.Some? && s.row.value.response != Responding
    ensures SettledWith(s, outcome).row == s.row
    ensures s.attempt == Some(Started) && IsOutcome(outcome) ==> SettledWith(s, outcome).attempt == Some(Settled(outcome))
  {
  }

  /** What startup recovery writes. */
  lemma RecoveryWrites(s: State)
    ensures var t := Step(s, RecoverContent);
      s.row.Some? ==> t.row == Some(s.row.value.(response :=
        if s.row.value.response in {Pending, Responding} then ContentUnavailable else s.row.value.response))
    ensures Step(s, RecoverContent).attempt == s.attempt && Step(s, RecoverAttempts).row == s.row
    ensures Step(s, RecoverAttempts).attempt == if s.attempt == Some(Started) then Some(Settled(Unknown)) else s.attempt
  {
  }

  /** Once its completion was seen, nothing makes a request claimable again. */
  lemma NoClaimAfterCompletion(before: seq<Action>, after: seq<Action>, r: Event, c: Event)
    requires AboutOne(before + after, r, c) && Apply(c) in before
    ensures Run(Nothing, before + after).claims == Run(Nothing, before).claims
    decreases |after|
  {
    if after == [] {
      assert before + after == before;
    } else {
      var last := |after| - 1;
      var init := after[..last];
      assert (before + after)[..|before + after| - 1] == before + init;
      NoClaimAfterCompletion(before, init, r, c);
      ClaimedAtMostOnce(before + init, r, c);
    }
  }

  /** An attempt is settled once and for all. */
  lemma SettledForGood(s: State, a: Action)
    requires s.attempt.Some? && s.attempt.value.Settled? && Sound(s)
    ensures Step(s, a).attempt == s.attempt
  {
  }

  /** While an answer is under way a completion does not override it: what the
      application reports in the end is what the row says. */
  lemma AnswerUnderWayIsKept(s: State, events: seq<Action>, outcome: Response)
    requires s.attempt == Some(Started) && s.row.Some? && s.row.value.response == Responding
    requires EventsOnly(events) && IsOutcome(outcome)
    ensures var t := SettledWith(Run(s, events), outcome);
      t.row.Some? && t.row.value.response == outcome && t.attempt == Some(Settled(outcome))
    decreases |events|
  {
    EventsKeepResponding(s, events);
  }

  lemma {:induction false} EventsKeepResponding(s: State, events: seq<Action>)
    requires s.attempt == Some(Started) && s.row.Some? && s.row.value.response == Responding
    requires EventsOnly(events)
    ensures var t := Run(s, events); t.attempt == s.attempt && t.row.Some? && t.row.value.response == Responding
  {
    if events != [] {
      EventsKeepResponding(s, events[..|events| - 1]);
    }
  }

  // ----- the code -----

  /** The rows of all requests; an attempt has its request's key. */
  class Repository {
    var rows: map<nat, Row>
    var attempts: map<nat, Attempt>
    ghost var claims: map<nat, nat>

    ghost function StateOf(key: nat): State
      reads this
    {
      State(if key in rows then Some(rows[key]) else None,
            if key in attempts then Some(attempts[key]) else None,
            if key in claims then claims[key] else 0)
    }

    constructor ()
      ensures forall key :: StateOf(key) == Nothing
    {
      rows, attempts, claims := map[], map[], map[];
    }

    method ApplyEvent(key: nat, e: Event)
      modifies `rows
      ensures StateOf(key) == Step(old(StateOf(key)), Apply(e))
      ensures forall k | k != key :: StateOf(k) == old(StateOf(k))
    {
      var plane := PlaneOf(e.kind);
      if e.Request? {
        if key !in rows {
          rows := rows[key := Row(Some(e), None, Requested, plane, Initially(plane))];
        } else {
          var row := rows[key];
          var response := row.response;
          if row.completed.Some? && (response == Pending || response == NotApplicable || response == Unsupported) {
            response := Completed;
          }
          rows := rows[key := Row(if row.requested.None? then Some(e) else row.requested, row.completed,
                                  if row.completed.Some? then Paired else Requested, plane, response)];
        }
      } else {
        if key !in rows {
          rows := rows[key := Row(None, Some(e), CompletedBeforeRequested, plane, Completed)];
        } else {
          var row := rows[key];
          var response := row.response;
          if response == Pending || response == NotApplicable || response == Unsupported {
            response := Completed;
          }
          rows := rows[key := row.(completed := if row.completed.None? then Some(e) else row.completed,
                                   wire := if row.requested.None? then CompletedBeforeRequested else Paired,
                                   response := response)];
        }
      }
    }

    method TryClaim(key: nat) returns (claimed: bool)
      modifies `rows, `attempts, `claims
      ensures claimed <==> old(Claimable(StateOf(key)))
      ensures StateOf(key) == Step(old(StateOf(key)), Claim)
      ensures forall k | k != key :: StateOf(k) == old(StateOf(k))
    {
      claimed := false;
      if key !in rows { return; }
      var row := rows[key];
      if row.requested.None? || row.completed.Some? || row.plane != AppRpc || row.response != Pending { return; }
      rows := rows[key := row.(response := Responding)];
      attempts := attempts[key := Started];
      claims := claims[key := (if key in claims then claims[key] else 0) + 1];
      claimed := true;
    }

    method SettleAttempt(key: nat, outcome: Response) returns (ok: bool)
      modifies `rows, `attempts
      ensures ok <==> outcome in {Confirmed, Rejected, Unknown, Unsupported} && old(key in attempts && attempts[key] == Started)
      ensures StateOf(key) == Step(old(StateOf(key)), Settle(outcome))
      ensures forall k | k != key :: StateOf(k) == old(StateOf(k))
    {
      ok := outcome in {Confirmed, Rejected, Unknown, Unsupported} && key in attempts && attempts[key] == Started;
      if ok {
        attempts := attempts[key := Settled(outcome)];
        if key in rows && rows[key].response == Responding {
          rows := rows[key := rows[key].(response := outcome)];
        }
      }
    }

    method MarkAsUnsupported(key: nat)
      modifies `rows
      ensures StateOf(key) == Step(old(StateOf(key)), MarkUnsupported)
      ensures rows == if key in old(rows) && old(rows)[key].response == Pending
                      then old(rows)[key := old(rows)[key].(response := Unsupported)] else old(rows)
      ensures forall k | k != key :: StateOf(k) == old(StateOf(k))
    {
      if key in rows && rows[key].response == Pending {
        rows := rows[key := rows[key].(response := Unsupported)];
      }
    }
  }
}
