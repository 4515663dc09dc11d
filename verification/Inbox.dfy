/** The bounded inbox of the reducer and the ingress in front of it
    (`core/inbox.py`).

    A producer on any thread reserves room under the lock, then hands its
    envelope to the event loop, which puts it into the queue; the consumer takes
    it and acknowledges it later. Each step below is one lock-held region or one
    callback of the loop.

    When the loop is closed, handing over fails, and so does every other call
    into the loop that a thread other than the loop's own makes while it undoes
    a reservation or reports that the inbox is full. */
module Inbox {
  import opened Options

  /** An envelope; `ingress` says that it came through `SdkEventIngress`. */
  datatype Envelope = Envelope(seqNo: nat, sdkNo: Option<nat>, ingress: bool)

  datatype Overflow = Overflow(firstSeq: nat, firstSdk: Option<nat>, count: nat)

  datatype State = State(
    outstanding: nat, nextSeq: nat, nextSdk: nat, stamps: seq<int>,
    closed: bool, overflow: Option<Overflow>,
    queue: seq<Envelope>,
    reserved: set<Envelope>,     // room was reserved, not handed over yet
    scheduled: seq<Envelope>,    // handed to the loop, in order
    taken: seq<Envelope>,        // everything the consumer took, in order
    unacknowledged: set<Envelope>,
    acknowledged: nat,
    loopOpen: bool,
    leaked: set<Envelope>,       // room was reserved, and then reserving raised
    escaped: nat)                // handing over raised, and then recording the loss did

  datatype Action =
    | Reserve(sdk: bool, ingress: bool, recordOverflow: bool, now: int, foreign: bool)
    | HandOver(e: Envelope, foreign: bool)
    | CloseLoop
    | Put
    | Take
    | Acknowledge(e: Envelope)
    | Close

  /** The ingress lock admits one event at a time between reservation and handover. */
  predicate Enabled(s: State, a: Action) {
    match a
    case Reserve(sdk, ingress, _, _, _) =>
      ingress ==> sdk && forall e | e in s.reserved :: !e.ingress
    case HandOver(e, _) => e in s.reserved
    case CloseLoop => true
    case Put => s.scheduled != [] && s.loopOpen
    case Take => s.queue != []
    case Acknowledge(e) => e in s.unacknowledged
    case Close => true
  }

  function Lost(overflow: Option<Overflow>): nat {
    if overflow.None? then 0 else overflow.value.count
  }

  function Recorded(overflow: Option<Overflow>, seqNo: nat, sdkNo: Option<nat>): Option<Overflow> {
    if overflow.None? then Some(Overflow(seqNo, sdkNo, 1))
    else Some(overflow.value.(count := overflow.value.count + 1))
  }

  function Numbered(s: State, sdk: bool, ingress: bool): Envelope {
    Envelope(s.nextSeq + 1, if sdk then Some(s.nextSdk + 1) else None, ingress)
  }

  function Counted(s: State, sdk: bool): State {
    s.(nextSeq := s.nextSeq + 1, nextSdk := if sdk then s.nextSdk + 1 else s.nextSdk)
  }

  /** `_reserve`. From a foreign thread, once the loop is closed, the report that
      the inbox is full raises: before anything is counted when it was full
      already, and after the reservation when that made it full. */
  function Reserved(capacity: nat, s: State, sdk: bool, ingress: bool, recordOverflow: bool, now: int, foreign: bool): State {
    var e, cut := Numbered(s, sdk, ingress), foreign && !s.loopOpen;
    if s.closed then s
    else if s.outstanding >= capacity then
      if recordOverflow && !cut then Counted(s, sdk).(overflow := Recorded(s.overflow, e.seqNo, e.sdkNo)) else s
    else
      var t := RoomTaken(s, sdk, now);
      if cut && s.outstanding + 1 >= capacity then t.(leaked := s.leaked + {e}) else t.(reserved := s.reserved + {e})
  }

  /** `_schedule`. A closed loop refuses the envelope; its room is given back, and
      the loss is recorded unless a foreign thread fails before it comes to that. */
  function HandedOver(s: State, e: Envelope, foreign: bool): State {
    var t := s.(reserved := s.reserved - {e});
    if s.loopOpen then t.(scheduled := s.scheduled + [e])
    else if !foreign then GivenUp(t, e)
    else if s.outstanding == 0 || s.stamps == [] then t
    else t.(outstanding := s.outstanding - 1, stamps := s.stamps[..|s.stamps| - 1], escaped := s.escaped + 1)
  }

  /** An envelope that could not be delivered gives its room back; the newest
      time stamp goes, whosever it is. With nothing outstanding this raises. */
  function GivenUp(s: State, e: Envelope): State {
    if s.outstanding == 0 || s.stamps == [] then s
    else s.(outstanding := s.outstanding - 1, stamps := s.stamps[..|s.stamps| - 1],
       overflow := Recorded(s.overflow, e.seqNo, e.sdkNo))
  }

  function PutInto(capacity: nat, s: State): State
    requires s.scheduled != []
  {
    var e := s.scheduled[0];
    var t := s.(scheduled := s.scheduled[1..]);
    if |s.queue| < capacity then t.(queue := s.queue + [e]) else GivenUp(t, e)
  }

  /** An acknowledgement with nothing outstanding raises. */
  function Acknowledged(s: State, e: Envelope): State {
    if s.outstanding == 0 || s.stamps == [] then s
    else s.(outstanding := s.outstanding - 1, stamps := s.stamps[1..],
       unacknowledged := s.unacknowledged - {e}, acknowledged := s.acknowledged + 1)
  }

  function Step(capacity: nat, s: State, a: Action): State
    requires Enabled(s, a)
  {
    match a
    case Reserve(sdk, ingress, recordOverflow, now, foreign) =>
      Reserved(capacity, s, sdk, ingress, recordOverflow, now, foreign)
    case HandOver(e, foreign) => HandedOver(s, e, foreign)
    case CloseLoop => s.(loopOpen := false)
    case Put => PutInto(capacity, s)
    case Take => s.(queue := s.queue[1..], taken := s.taken + [s.queue[0]],
                    unacknowledged := s.unacknowledged + {s.queue[0]})
    case Acknowledge(e) => Acknowledged(s, e)
    case Close => s.(closed := true)
  }

  // ----- what holds in every interleaving -----

  /** Every number that was issued is acknowledged, outstanding, counted as lost or
      escaped the count; what is outstanding fits the capacity, has a time stamp
      each, and is exactly what is on its way, queued, taken or leaked. */
  predicate CountsOk(capacity: nat, s: State) {
    && s.nextSeq == s.acknowledged + s.outstanding + Lost(s.overflow) + s.escaped
    && s.outstanding <= capacity
    && |s.stamps| == s.outstanding
    && s.outstanding == |s.reserved| + |s.scheduled| + |s.queue| + |s.unacknowledged| + |s.leaked|
  }

  /** Everything handed to the loop so far, in the order in which it was. */
  function Arrivals(s: State): seq<Envelope> { s.taken + s.queue + s.scheduled }

  /** Numbers are unique: among the arrivals, among the reservations, and between them. */
  ghost predicate Distinct(arrivals: seq<Envelope>, reserved: set<Envelope>) {
    && (forall i, j | 0 <= i < j < |arrivals| :: arrivals[i].seqNo != arrivals[j].seqNo)
    && (forall d, e | d in reserved && e in reserved && d.seqNo == e.seqNo :: d == e)
    && (forall i, e | 0 <= i < |arrivals| && e in reserved :: arrivals[i].seqNo != e.seqNo)
  }

  /** Events of the ingress arrive in the order in which they were received. */
  ghost predicate IngressOk(arrivals: seq<Envelope>, reserved: set<Envelope>) {
    && (forall i, j | 0 <= i < j < |arrivals| && arrivals[i].ingress && arrivals[j].ingress ::
          Before(arrivals[i], arrivals[j]))
    && (forall d, e | d in reserved && e in reserved && d.ingress && e.ingress :: d == e)
    && (forall i, e | 0 <= i < |arrivals| && e in reserved && arrivals[i].ingress && e.ingress ::
          Before(arrivals[i], e))
  }

  predicate Before(a: Envelope, b: Envelope) {
    && a.seqNo < b.seqNo
    && a.sdkNo.Some? && b.sdkNo.Some? && a.sdkNo.value < b.sdkNo.value
  }

  predicate Issued(e: Envelope, nextSeq: nat, nextSdk: nat) {
    && e.seqNo <= nextSeq && (e.sdkNo.Some? ==> e.sdkNo.value <= nextSdk) && (e.ingress ==> e.sdkNo.Some?)
  }

  ghost predicate AllIssued(arrivals: seq<Envelope>, reserved: set<Envelope>, nextSeq: nat, nextSdk: nat) {
    && (forall i | 0 <= i < |arrivals| :: Issued(arrivals[i], nextSeq, nextSdk))
    && (forall e | e in reserved :: Issued(e, nextSeq, nextSdk))
  }

  ghost predicate OrderOk(s: State) {
    && Distinct(Arrivals(s), s.reserved)
    && IngressOk(Arrivals(s), s.reserved)
    && AllIssued(Arrivals(s), s.reserved, s.nextSeq, s.nextSdk)
    && (forall e | e in s.unacknowledged :: e in s.taken)
    && (forall e | e in s.leaked :: e.seqNo <= s.nextSeq)
  }

  ghost predicate Sound(capacity: nat, s: State) {
    CountsOk(capacity, s) && OrderOk(s)
  }

  /** What is on its way, queued or taken is counted. */
  lemma CountsPositive(capacity: nat, s: State)
    requires CountsOk(capacity, s)
    requires s.reserved != {} || s.scheduled != [] || s.queue != [] || s.unacknowledged != {}
    ensures s.outstanding > 0 && s.stamps != []
  {
    if s.reserved != {} {
      var e :| e in s.reserved;
      assert |s.reserved - {e}| == |s.reserved| - 1;
    } else if s.unacknowledged != {} {
      var e :| e in s.unacknowledged;
      assert |s.unacknowledged - {e}| == |s.unacknowledged| - 1;
    }
  }

  lemma ReserveSound(capacity: nat, s: State, sdk: bool, ingress: bool, recordOverflow: bool, now: int, foreign: bool)
    requires Sound(capacity, s) && Enabled(s, Reserve(sdk, ingress, recordOverflow, now, foreign))
    ensures Sound(capacity, Reserved(capacity, s, sdk, ingress, recordOverflow, now, foreign))
  {
    if s.closed || s.outstanding >= capacity {
      assert Arrivals(Reserved(capacity, s, sdk, ingress, recordOverflow, now, foreign)) == Arrivals(s);
    } else if foreign && !s.loopOpen && s.outstanding + 1 >= capacity {
      LeakSound(capacity, s, Numbered(s, sdk, ingress), sdk, now);
    } else {
      ReservationSound(capacity, s, Numbered(s, sdk, ingress), sdk, now);
    }
  }

  /** Room is taken: one more is outstanding. */
  function RoomTaken(s: State, sdk: bool, now: int): State {
    Counted(s, sdk).(outstanding := s.outstanding + 1, stamps := s.stamps + [now])
  }

  lemma LeakSound(capacity: nat, s: State, e: Envelope, sdk: bool, now: int)
    requires Sound(capacity, s) && s.outstanding < capacity && e.seqNo == s.nextSeq + 1
    ensures Sound(capacity, RoomTaken(s, sdk, now).(leaked := s.leaked + {e}))
  {
    var t := RoomTaken(s, sdk, now).(leaked := s.leaked + {e});
    assert Arrivals(t) == Arrivals(s);
    assert |t.leaked| == |s.leaked| + 1;
  }

  lemma ReservationSound(capacity: nat, s: State, e: Envelope, sdk: bool, now: int)
    requires Sound(capacity, s) && s.outstanding < capacity
    requires e.seqNo == s.nextSeq + 1 && e.sdkNo == (if sdk then Some(s.nextSdk + 1) else None)
    requires e.ingress ==> sdk && forall d | d in s.reserved :: !d.ingress
    ensures Sound(capacity, RoomTaken(s, sdk, now).(reserved := s.reserved + {e}))
  {
    var t := RoomTaken(s, sdk, now).(reserved := s.reserved + {e});
    assert Arrivals(t) == Arrivals(s);
    assert forall d | d in s.reserved :: Issued(d, s.nextSeq, s.nextSdk);
    assert |t.reserved| == |s.reserved| + 1;
    NewNumberKeeps(Arrivals(s), s.reserved, s.nextSeq, s.nextSdk, e);
  }

  lemma NewNumberKeeps(arrivals: seq<Envelope>, reserved: set<Envelope>, nextSeq: nat, nextSdk: nat, e: Envelope)
    requires Distinct(arrivals, reserved) && IngressOk(arrivals, reserved)
    requires AllIssued(arrivals, reserved, nextSeq, nextSdk)
    requires e.seqNo == nextSeq + 1 && (e.sdkNo.Some? ==> e.sdkNo.value == nextSdk + 1)
    requires e.ingress ==> e.sdkNo.Some? && forall d | d in reserved :: !d.ingress
    ensures Distinct(arrivals, reserved + {e}) && IngressOk(arrivals, reserved + {e})
    ensures AllIssued(arrivals, reserved + {e}, nextSeq + 1, if e.sdkNo.Some? then nextSdk + 1 else nextSdk)
  {
    forall i | 0 <= i < |arrivals| ensures arrivals[i].seqNo < e.seqNo {
      assert Issued(arrivals[i], nextSeq, nextSdk);
    }
    forall d | d in reserved ensures d.seqNo < e.seqNo {
      assert Issued(d, nextSeq, nextSdk);
    }
  }

  lemma ArrivalKeeps(arrivals: seq<Envelope>, reserved: set<Envelope>, nextSeq: nat, nextSdk: nat, e: Envelope)
    requires Distinct(arrivals, reserved) && IngressOk(arrivals, reserved)
    requires AllIssued(arrivals, reserved, nextSeq, nextSdk) && e in reserved
    ensures Distinct(arrivals + [e], reserved - {e}) && IngressOk(arrivals + [e], reserved - {e})
    ensures AllIssued(arrivals + [e], reserved - {e}, nextSeq, nextSdk)
  {
  }

  lemma HandOverSound(capacity: nat, s: State, e: Envelope, foreign: bool)
    requires Sound(capacity, s) && e in s.reserved
    ensures Sound(capacity, HandedOver(s, e, foreign))
  {
    var t := HandedOver(s, e, foreign);
    CountsPositive(capacity, s);
    assert |t.reserved| == |s.reserved| - 1;
    if s.loopOpen {
      ArrivalKeeps(Arrivals(s), s.reserved, s.nextSeq, s.nextSdk, e);
      assert Arrivals(t) == Arrivals(s) + [e];
    } else {
      assert Arrivals(t) == Arrivals(s);
    }
  }

  /** A reserved envelope always finds room in the queue. */
  lemma PutFindsRoom(capacity: nat, s: State)
    requires CountsOk(capacity, s) && s.scheduled != []
    ensures |s.queue| < capacity
  {
  }

  lemma PutSound(capacity: nat, s: State)
    requires Sound(capacity, s) && s.scheduled != []
    ensures Sound(capacity, PutInto(capacity, s))
  {
    PutFindsRoom(capacity, s);
    assert Arrivals(PutInto(capacity, s)) == Arrivals(s);
  }

  lemma TakeSound(capacity: nat, s: State)
    requires Sound(capacity, s) && s.queue != []
    ensures Sound(capacity, Step(capacity, s, Take))
  {
    var t := Step(capacity, s, Take);
    assert Arrivals(t) == Arrivals(s);
    var e := s.queue[0];
    assert Arrivals(s)[|s.taken|] == e;
    assert forall i | 0 <= i < |s.taken| :: Arrivals(s)[i] == s.taken[i];
    assert e !in s.taken;
    assert |t.unacknowledged| == |s.unacknowledged| + 1;
  }

  lemma AcknowledgeSound(capacity: nat, s: State, e: Envelope)
    requires Sound(capacity, s) && e in s.unacknowledged
    ensures Sound(capacity, Acknowledged(s, e))
  {
    CountsPositive(capacity, s);
    var t := Acknowledged(s, e);
    assert Arrivals(t) == Arrivals(s);
    assert |t.unacknowledged| == |s.unacknowledged| - 1;
  }

  /** One event of the ingress: reserved and handed over. */
  function Ingested(capacity: nat, s: State, now: int, foreign: bool): State {
    var e, t := Numbered(s, true, true), Reserved(capacity, s, true, true, true, now, foreign);
    if s.closed || s.outstanding >= capacity || (foreign && !s.loopOpen && s.outstanding + 1 >= capacity) then t
    else HandedOver(t, e, foreign)
  }

  lemma IngestSound(capacity: nat, s: State, now: int, foreign: bool)
    requires Sound(capacity, s) && forall e | e in s.reserved :: !e.ingress
    ensures Sound(capacity, Ingested(capacity, s, now, foreign))
    ensures forall e | e in Ingested(capacity, s, now, foreign).reserved :: !e.ingress
  {
    ReserveSound(capacity, s, true, true, true, now, foreign);
    if !(s.closed || s.outstanding >= capacity || (foreign && !s.loopOpen && s.outstanding + 1 >= capacity)) {
      HandOverSound(capacity, Reserved(capacity, s, true, true, true, now, foreign), Numbered(s, true, true), foreign);
    }
  }

  lemma StepSound(capacity: nat, s: State, a: Action)
    requires Sound(capacity, s) && Enabled(s, a)
    ensures Sound(capacity, Step(capacity, s, a))
  {
    match a
    case Reserve(sdk, ingress, recordOverflow, now, foreign) =>
      ReserveSound(capacity, s, sdk, ingress, recordOverflow, now, foreign);
    case HandOver(e, foreign) => HandOverSound(capacity, s, e, foreign);
    case CloseLoop => assert Arrivals(Step(capacity, s, CloseLoop)) == Arrivals(s);
    case Put => PutSound(capacity, s);
    case Take => TakeSound(capacity, s);
    case Acknowledge(e) => AcknowledgeSound(capacity, s, e);
    case Close => assert Arrivals(Step(capacity, s, Close)) == Arrivals(s);
  }

  // ----- runs -----

  const Empty := State(0, 0, 0, [], false, None, [], {}, [], [], {}, 0, true, {}, 0)

  function Run(capacity: nat, actions: seq<Action>): Option<State> {
    if actions == [] then Some(Empty)
    else
      var last := |actions| - 1;
      var u := Run(capacity, actions[..last]);
      if u.Some? && Enabled(u.value, actions[last]) then Some(Step(capacity, u.value, actions[last])) else None
  }

  lemma {:induction false} RunSound(capacity: nat, actions: seq<Action>, t: State)
    requires Run(capacity, actions) == Some(t)
    ensures Sound(capacity, t)
  {
    if actions != [] {
      var last := |actions| - 1;
      RunSound(capacity, actions[..last], Run(capacity, actions[..last]).value);
      StepSound(capacity, Run(capacity, actions[..last]).value, actions[last]);
    } else {
      assert Arrivals(Empty) == [];
    }
  }

  /** A foreign thread hands over to a closed loop. */
  predicate Escapes(s: State, a: Action) { a.HandOver? && a.foreign && !s.loopOpen }

  /** A foreign thread's reservation fills the inbox of a closed loop. */
  predicate Leaks(capacity: nat, s: State, a: Action) {
    a.Reserve? && a.foreign && !s.loopOpen && !s.closed && s.outstanding + 1 == capacity
  }

  /** The `i`-th step of a run is such a step. */
  ghost predicate EscapesAt(capacity: nat, actions: seq<Action>, i: nat) {
    i < |actions| && Run(capacity, actions[..i]).Some? && Escapes(Run(capacity, actions[..i]).value, actions[i])
  }

  ghost predicate LeaksAt(capacity: nat, actions: seq<Action>, i: nat) {
    i < |actions| && Run(capacity, actions[..i]).Some? && Leaks(capacity, Run(capacity, actions[..i]).value, actions[i])
  }

  lemma EarlierMarks(capacity: nat, actions: seq<Action>, i: nat)
    requires i + 1 < |actions|
    ensures EscapesAt(capacity, actions, i) <==> EscapesAt(capacity, actions[..|actions| - 1], i)
    ensures LeaksAt(capacity, actions, i) <==> LeaksAt(capacity, actions[..|actions| - 1], i)
  {
    assert actions[..|actions| - 1][..i] == actions[..i];
  }

  /** What a step does to the marks of escape and of a leak. */
  lemma StepMarks(capacity: nat, s: State, a: Action)
    requires CountsOk(capacity, s) && Enabled(s, a)
    ensures var t := Step(capacity, s, a);
      && (t.escaped > 0 <==> s.escaped > 0 || Escapes(s, a))
      && (t.leaked != {} <==> s.leaked != {} || Leaks(capacity, s, a))
  {
    if a.HandOver? { CountsPositive(capacity, s); }
  }

  lemma {:induction false} Marks(capacity: nat, actions: seq<Action>, t: State)
    requires Run(capacity, actions) == Some(t)
    ensures t.escaped > 0 <==> exists i :: EscapesAt(capacity, actions, i)
    ensures t.leaked != {} <==> exists i :: LeaksAt(capacity, actions, i)
  {
    if actions != [] {
      var last := |actions| - 1;
      var init := actions[..last];
      var u := Run(capacity, init).value;
      Marks(capacity, init, u);
      RunSound(capacity, init, u);
      StepMarks(capacity, u, actions[last]);
      EscapesGrow(capacity, actions, u);
      LeaksGrow(capacity, actions, u);
    }
  }

  lemma EscapesGrow(capacity: nat, actions: seq<Action>, u: State)
    requires actions != [] && Run(capacity, actions[..|actions| - 1]) == Some(u)
    ensures (exists i :: EscapesAt(capacity, actions, i))
            <==> (var init := actions[..|actions| - 1]; exists i :: EscapesAt(capacity, init, i)) || Escapes(u, actions[|actions| - 1])
  {
    var init, last := actions[..|actions| - 1], |actions| - 1;
    assert EscapesAt(capacity, actions, last) <==> Escapes(u, actions[last]);
    if i: nat :| EscapesAt(capacity, init, i) {
      EarlierMarks(capacity, actions, i);
    }
    if i: nat :| EscapesAt(capacity, actions, i) && i < last {
      EarlierMarks(capacity, actions, i);
    }
  }

  lemma LeaksGrow(capacity: nat, actions: seq<Action>, u: State)
    requires actions != [] && Run(capacity, actions[..|actions| - 1]) == Some(u)
    ensures (exists i :: LeaksAt(capacity, actions, i))
            <==> (var init := actions[..|actions| - 1]; exists i :: LeaksAt(capacity, init, i)) || Leaks(capacity, u, actions[|actions| - 1])
  {
    var init, last := actions[..|actions| - 1], |actions| - 1;
    assert LeaksAt(capacity, actions, last) <==> Leaks(capacity, u, actions[last]);
    if i: nat :| LeaksAt(capacity, init, i) {
      EarlierMarks(capacity, actions, i);
    }
    if i: nat :| LeaksAt(capacity, actions, i) && i < last {
      EarlierMarks(capacity, actions, i);
    }
  }

  /** In every interleaving: room is never exceeded; a reserved envelope finds
      room; an acknowledgement never underflows; and what the consumer takes
      from the ingress comes in the order of receipt. */
  lemma RoomAndOrder(capacity: nat, actions: seq<Action>, t: State)
    requires Run(capacity, actions) == Some(t)
    ensures t.outstanding <= capacity && |t.stamps| == t.outstanding
    ensures t.scheduled != [] ==> |t.queue| < capacity
    ensures t.unacknowledged != {} ==> t.outstanding > 0 && t.stamps != []
    ensures forall i, j | 0 <= i < j < |t.taken| && t.taken[i].ingress && t.taken[j].ingress ::
      Before(t.taken[i], t.taken[j])
  {
    RunSound(capacity, actions, t);
    if t.scheduled != [] { PutFindsRoom(capacity, t); }
    if t.unacknowledged != {} { CountsPositive(capacity, t); }
    forall i, j | 0 <= i < j < |t.taken| && t.taken[i].ingress && t.taken[j].ingress
      ensures Before(t.taken[i], t.taken[j])
    {
      assert Arrivals(t)[i] == t.taken[i] && Arrivals(t)[j] == t.taken[j];
    }
  }

  /** Every number issued is acknowledged, outstanding or recorded as lost if and
      only if no foreign thread handed over to a closed loop; and everything
      outstanding is on its way, queued or taken if and only if no foreign
      thread's reservation filled the inbox of a closed loop. */
  lemma NothingIsLostSilently(capacity: nat, actions: seq<Action>, t: State)
    requires Run(capacity, actions) == Some(t)
    ensures t.nextSeq == t.acknowledged + t.outstanding + Lost(t.overflow)
            <==> forall i :: !EscapesAt(capacity, actions, i)
    ensures t.outstanding == |t.reserved| + |t.scheduled| + |t.queue| + |t.unacknowledged|
            <==> forall i :: !LeaksAt(capacity, actions, i)
  {
    RunSound(capacity, actions, t);
    Marks(capacity, actions, t);
    assert t.leaked != {} <==> |t.leaked| > 0;
  }

  /** While the loop is open nothing escapes and nothing leaks. */
  lemma OpenLoopLosesNothing(capacity: nat, actions: seq<Action>, t: State)
    requires Run(capacity, actions) == Some(t) && t.loopOpen
    ensures t.nextSeq == t.acknowledged + t.outstanding + Lost(t.overflow)
    ensures t.outstanding == |t.reserved| + |t.scheduled| + |t.queue| + |t.unacknowledged|
  {
    NothingIsLostSilently(capacity, actions, t);
    forall i: nat | i < |actions| && Run(capacity, actions[..i]).Some?
      ensures Run(capacity, actions[..i]).value.loopOpen
    {
      LoopStaysClosed(capacity, actions, i);
    }
  }

  lemma {:induction false} LoopStaysClosed(capacity: nat, actions: seq<Action>, i: nat)
    requires i <= |actions| && Run(capacity, actions).Some?
    ensures Run(capacity, actions[..i]).Some?
    ensures Run(capacity, actions).value.loopOpen ==> Run(capacity, actions[..i]).value.loopOpen
    decreases |actions|
  {
    if i < |actions| {
      var init := actions[..|actions| - 1];
      LoopStaysClosed(capacity, init, i);
      assert init[..i] == actions[..i];
    } else {
      assert actions[..i] == actions;
    }
  }

  /** Two runs in which a foreign thread meets a closed loop: a number is issued
      and then neither outstanding nor recorded, and room is taken for good. */
  lemma ClosedLoopLosesSilently(now: int)
    ensures var e := Envelope(1, None, false);
      var t := Run(2, [Reserve(false, false, true, now, true), CloseLoop, HandOver(e, true)]);
      t.Some? && t.value.nextSeq == 1 && t.value.acknowledged == t.value.outstanding == Lost(t.value.overflow) == 0
    ensures var t := Run(1, [CloseLoop, Reserve(false, false, true, now, true)]);
      t.Some? && t.value.outstanding == 1 && t.value.reserved == {} == t.value.unacknowledged
      && t.value.scheduled == [] == t.value.queue
  {
    var e := Envelope(1, None, false);
    var a := [Reserve(false, false, true, now, true), CloseLoop, HandOver(e, true)];
    var s1 := Reserved(2, Empty, false, false, true, now, true);
    assert a[..1] == [a[0]] && a[..2][..1] == a[..1] && a[..1][..0] == [];
    assert Run(2, a[..1]) == Some(s1);
    assert Run(2, a[..2]) == Some(s1.(loopOpen := false));
    var b := [CloseLoop, Reserve(false, false, true, now, true)];
    assert b[..1] == [b[0]] && b[..1][..0] == [];
    assert Run(1, b[..1]) == Some(Empty.(loopOpen := false));
  }

  lemma StepStaysClosed(capacity: nat, s: State, a: Action)
    requires Enabled(s, a) && s.closed
    ensures var t := Step(capacity, s, a);
      t.closed && t.nextSeq == s.nextSeq && t.nextSdk == s.nextSdk && t.outstanding <= s.outstanding
  {
  }

  /** After closing, nothing more is admitted. */
  lemma {:induction false} NothingAfterClosing(capacity: nat, before: seq<Action>, after: seq<Action>, s: State, t: State)
    requires Run(capacity, before) == Some(s) && Run(capacity, before + [Close] + after) == Some(t)
    ensures t.closed && t.nextSeq == s.nextSeq && t.nextSdk == s.nextSdk && t.outstanding <= s.outstanding
    decreases |after|
  {
    var all := before + [Close] + after;
    if after == [] {
      assert all[..|all| - 1] == before;
    } else {
      var last := |after| - 1;
      assert all[..|all| - 1] == before + [Close] + after[..last];
      var u := Run(capacity, before + [Close] + after[..last]).value;
      NothingAfterClosing(capacity, before, after[..last], s, u);
      StepStaysClosed(capacity, u, after[last]);
    }
  }

  lemma StepRemembers(capacity: nat, s: State, a: Action)
    requires Enabled(s, a) && s.overflow.Some?
    ensures var t := Step(capacity, s, a);
      && t.overflow.Some? && t.overflow.value.count >= s.overflow.value.count
      && t.overflow.value.firstSeq == s.overflow.value.firstSeq && t.overflow.value.firstSdk == s.overflow.value.firstSdk
  {
  }

  /** Once something was lost, the first loss is what the inbox remembers. */
  lemma {:induction false} FirstLossIsRemembered(capacity: nat, before: seq<Action>, after: seq<Action>, s: State, t: State)
    requires Run(capacity, before) == Some(s) && Run(capacity, before + after) == Some(t) && s.overflow.Some?
    ensures t.overflow.Some? && t.overflow.value.count >= s.overflow.value.count
    ensures t.overflow.value.firstSeq == s.overflow.value.firstSeq && t.overflow.value.firstSdk == s.overflow.value.firstSdk
    decreases |after|
  {
    if after == [] {
      assert before + after == before;
    } else {
      var last := |after| - 1;
      assert (before + after)[..|before + after| - 1] == before + after[..last];
      var u := Run(capacity, before + after[..last]).value;
      FirstLossIsRemembered(capacity, before, after[..last], s, u);
      StepRemembers(capacity, u, after[last]);
    }
  }

  // ----- the code -----

  class ReducerInbox {
    const capacity: nat
    var outstanding: nat
    var nextSeq: nat
    var nextSdk: nat
    var stamps: seq<int>
    var closed: bool
    var sdkClosed: bool
    var overflow: Option<Overflow>
    var queue: seq<Envelope>
    var scheduled: seq<Envelope>
    ghost var reserved: set<Envelope>
    ghost var taken: seq<Envelope>
    ghost var unacknowledged: set<Envelope>
    ghost var acknowledged: nat
    var loopOpen: bool
    ghost var leaked: set<Envelope>
    ghost var escaped: nat

    ghost function Current(): State
      reads this
    {
      State(outstanding, nextSeq, nextSdk, stamps, closed, overflow, queue, reserved, scheduled, taken,
            unacknowledged, acknowledged, loopOpen, leaked, escaped)
    }

    constructor (capacity: nat)
      requires capacity >= 1
      ensures this.capacity == capacity && Current() == Empty && !sdkClosed
    {
      this.capacity := capacity;
      outstanding, nextSeq, nextSdk, stamps := 0, 0, 0, [];
      closed, sdkClosed, overflow := false, false, None;
      queue, scheduled := [], [];
      reserved, taken, unacknowledged, acknowledged := {}, [], {}, 0;
      loopOpen, leaked, escaped := true, {}, 0;
    }

    method RecordOverflow(e: Envelope)
      modifies `overflow
      ensures overflow == Recorded(old(overflow), e.seqNo, e.sdkNo)
      ensures old(overflow).None? ==> overflow == Some(Overflow(e.seqNo, e.sdkNo, 1))
      ensures old(overflow).Some? ==> overflow == Some(old(overflow).value.(count := old(overflow).value.count + 1))
    {
      overflow :=
        if overflow.None? then Some(Overflow(e.seqNo, e.sdkNo, 1))
        else Some(overflow.value.(count := overflow.value.count + 1));
    }

    /** `_reserve`, under the lock; `foreign` says that the calling thread is not
        the loop's own. */
    method TryReserve(sdk: bool, ingress: bool, recordOverflow: bool, now: int, foreign: bool)
      returns (reservation: Option<Envelope>, raised: bool)
      modifies `outstanding, `nextSeq, `nextSdk, `stamps, `overflow, `reserved, `leaked
      ensures Current() == Reserved(capacity, old(Current()), sdk, ingress, recordOverflow, now, foreign)
      ensures reservation.Some? <==> !closed && !raised && old(outstanding) < capacity
      ensures reservation.Some? ==>
        reservation.value == Envelope(old(nextSeq) + 1, if sdk then Some(old(nextSdk) + 1) else None, ingress)
      ensures var counted := !closed && (old(outstanding) < capacity || (recordOverflow && (loopOpen || !foreign)));
        && nextSeq == old(nextSeq) + (if counted then 1 else 0)
        && nextSdk == old(nextSdk) + (if counted && sdk then 1 else 0)
        && (counted && old(outstanding) >= capacity ==> Lost(overflow) == Lost(old(overflow)) + 1)
        && (!counted || old(outstanding) < capacity ==> overflow == old(overflow))
        && stamps == (if !closed && old(outstanding) < capacity then old(stamps) + [now] else old(stamps))
      ensures raised == (!closed && !loopOpen &&
                         (if foreign then old(outstanding) + 1 >= capacity else old(outstanding) >= capacity && recordOverflow))
    {
      reservation, raised := None, false;
      if !closed {
        var e := Envelope(nextSeq + 1, if sdk then Some(nextSdk + 1) else None, ingress);
        if outstanding >= capacity {
          raised := foreign && !loopOpen;
          if !raised && recordOverflow {
            Count(sdk);
            RecordOverflow(e);
            raised := !loopOpen;
          }
        } else {
          raised := TakeRoom(e, sdk, now, foreign);
          reservation := if raised then None else Some(e);
        }
      }
    }

    /** The reservation proper. */
    method TakeRoom(e: Envelope, sdk: bool, now: int, foreign: bool) returns (raised: bool)
      modifies `outstanding, `nextSeq, `nextSdk, `stamps, `reserved, `leaked
      ensures raised <==> old(outstanding) + 1 >= capacity && foreign && !loopOpen
      ensures Current() ==
        if raised then RoomTaken(old(Current()), sdk, now).(leaked := old(leaked) + {e})
        else RoomTaken(old(Current()), sdk, now).(reserved := old(reserved) + {e})
    {
      Count(sdk);
      outstanding := outstanding + 1;
      stamps := stamps + [now];
      raised := outstanding >= capacity && foreign && !loopOpen;
      if raised {
        leaked := leaked + {e};
      } else {
        reserved := reserved + {e};
      }
    }

    method Count(sdk: bool)
      modifies `nextSeq, `nextSdk
      ensures nextSeq == old(nextSeq) + 1 && nextSdk == old(nextSdk) + if sdk then 1 else 0
    {
      nextSeq := nextSeq + 1;
      if sdk { nextSdk := nextSdk + 1; }
    }

    /** `_schedule`. */
    method Schedule(e: Envelope, foreign: bool) returns (ok: bool, raised: bool)
      requires outstanding > 0 && stamps != []
      modifies `scheduled, `reserved, `outstanding, `stamps, `overflow, `escaped
      ensures ok <==> loopOpen
      ensures raised <==> !loopOpen && foreign
      ensures Current() == HandedOver(old(Current()), e, foreign)
      ensures scheduled == if ok then old(scheduled) + [e] else old(scheduled)
      ensures !ok ==> outstanding == old(outstanding) - 1 && stamps == old(stamps)[..|old(stamps)| - 1]
    {
      reserved := reserved - {e};
      ok, raised := loopOpen, false;
      if ok {
        scheduled := scheduled + [e];
      } else {
        outstanding := outstanding - 1;
        stamps := stamps[..|stamps| - 1];
        if foreign {
          raised := true;
          escaped := escaped + 1;
        } else {
          RecordOverflow(e);
        }
      }
    }

    /** `_put_reserved`, a callback of the loop; its branch for a full queue is dead. */
    method PutReserved()
      requires Sound(capacity, Current()) && scheduled != [] && loopOpen
      modifies `scheduled, `queue, `outstanding, `stamps, `overflow
      ensures Sound(capacity, Current()) && Current() == PutInto(capacity, old(Current()))
      ensures queue == old(queue) + [old(scheduled)[0]]
    {
      PutSound(capacity, Current());
      PutFindsRoom(capacity, Current());
      var e := scheduled[0];
      scheduled := scheduled[1..];
      queue := queue + [e];
    }

    method Get() returns (e: Envelope)
      requires Sound(capacity, Current()) && queue != []
      modifies `queue, `taken, `unacknowledged
      ensures Sound(capacity, Current()) && Current() == Step(capacity, old(Current()), Take)
      ensures e == old(queue)[0] && e in unacknowledged
    {
      TakeSound(capacity, Current());
      e := queue[0];
      queue := queue[1..];
      taken := taken + [e];
      unacknowledged := unacknowledged + {e};
    }

    /** `acknowledge`; the check for underflow never fires. */
    method AcknowledgeEnvelope(e: Envelope)
      requires Sound(capacity, Current()) && e in unacknowledged
      modifies `outstanding, `stamps, `unacknowledged, `acknowledged
      ensures Sound(capacity, Current()) && Current() == Acknowledged(old(Current()), e)
      ensures acknowledged == old(acknowledged) + 1 && outstanding == old(outstanding) - 1
      ensures |old(stamps)| > 0 && stamps == old(stamps)[1..] && unacknowledged == old(unacknowledged) - {e}
    {
      AcknowledgeSound(capacity, Current(), e);
      CountsPositive(capacity, Current());
      outstanding := outstanding - 1;
      stamps := stamps[1..];
      unacknowledged := unacknowledged - {e};
      acknowledged := acknowledged + 1;
    }

    /** `SdkEventIngress.__call__`: reservation and handover under one lock. An
        event that is not accepted is counted as lost unless the inbox is closed
        to it or something raised from a foreign thread. */
    method Ingest(now: int, foreign: bool) returns (accepted: bool, raised: bool)
      requires Sound(capacity, Current()) && forall e | e in reserved :: !e.ingress
      modifies `outstanding, `nextSeq, `nextSdk, `stamps, `overflow, `reserved, `scheduled, `leaked, `escaped
      ensures Sound(capacity, Current()) && forall e | e in reserved :: !e.ingress
      ensures accepted <==> loopOpen && !sdkClosed && !closed && old(outstanding) < capacity
      ensures accepted ==> scheduled == old(scheduled) + [Numbered(old(Current()), true, true)]
      ensures Lost(overflow) == Lost(old(overflow)) +
        if !accepted && !sdkClosed && !closed && (loopOpen || !foreign) then 1 else 0
      ensures raised ==> !loopOpen
    {
      IngestSound(capacity, Current(), now, foreign);
      accepted, raised := Submit(now, foreign);
    }

    /** `submit_sdk`. */
    method Submit(now: int, foreign: bool) returns (accepted: bool, raised: bool)
      modifies `outstanding, `nextSeq, `nextSdk, `stamps, `overflow, `reserved, `scheduled, `leaked, `escaped
      ensures Current() == if sdkClosed then old(Current()) else Ingested(capacity, old(Current()), now, foreign)
      ensures accepted <==> loopOpen && !sdkClosed && !closed && old(outstanding) < capacity
      ensures accepted ==> scheduled == old(scheduled) + [Numbered(old(Current()), true, true)]
      ensures Lost(overflow) == Lost(old(overflow)) +
        if !accepted && !sdkClosed && !closed && (loopOpen || !foreign) then 1 else 0
      ensures raised ==> !loopOpen
    {
      accepted, raised := false, false;
      if !sdkClosed {
        var reservation;
        reservation, raised := TryReserve(true, true, true, now, foreign);
        if reservation.Some? {
          accepted, raised := Schedule(reservation.value, foreign);
        }
      }
    }

    method FailFirst()
      requires Sound(capacity, Current()) && queue != []
      modifies `queue, `taken, `unacknowledged, `outstanding, `stamps, `acknowledged
      ensures Sound(capacity, Current())
      ensures |queue| == |old(queue)| - 1 && acknowledged == old(acknowledged) + 1 && outstanding == old(outstanding) - 1
    {
      CountsPositive(capacity, Current());
      var e := Get();
      AcknowledgeEnvelope(e);
    }

    /** `fail_pending`: close, and acknowledge whatever is in the queue. */
    method FailPending()
      requires Sound(capacity, Current())
      modifies this
      ensures Sound(capacity, Current()) && closed && sdkClosed && queue == []
      ensures acknowledged == old(acknowledged) + |old(queue)| && outstanding + |old(queue)| == old(outstanding)
      ensures nextSeq == old(nextSeq) && overflow == old(overflow)
    {
      StepSound(capacity, Current(), Close);
      closed, sdkClosed := true, true;
      ghost var queue0, acknowledged0, outstanding0 := queue, acknowledged, outstanding;
      while queue != []
        invariant Sound(capacity, Current()) && closed && sdkClosed
        invariant acknowledged + |queue| == acknowledged0 + |queue0|
        invariant outstanding + |queue0| == outstanding0 + |queue|
        invariant nextSeq == old(nextSeq) && overflow == old(overflow)
        decreases |queue|
      {
        FailFirst();
      }
    }
  }
}
