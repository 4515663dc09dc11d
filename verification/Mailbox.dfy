/** The mailbox that runs every mutating operation of one session, and the
    durable operation rows it works on (`core/mailbox.py`).

    One worker takes operations in submission order. Around the call of an
    operation it checks that this process still owns the session and moves the
    durable row along; another process may take the session over, recovery may
    settle rows, and the process may crash, between any two of these steps. */
module Mailbox {
  import opened Options

  type Key = nat
  type Input = nat

  datatype OperationState = Pending | Started | Confirmed | Rejected | Unknown

  datatype Code =
    | NoCode
    | FenceLostBeforeStart | FenceLostBeforeDispatch | FenceLostAfterDispatch
    | EmergencyDeferred | OperationDeferred | OperationRejected
    | Takeover | Recovery | MailboxStopped | MailboxCancelled | Raised

  /** A row of `session_operations`. `started` says that `started_at` was set,
      and `ticket` numbers the rows in the order in which they were made. */
  datatype Row = Row(input: Input, token: nat, ticket: nat, state: OperationState, code: Code, started: bool)

  /** An admitted operation; its ticket is that of its row. */
  datatype Item = Item(key: Key, ticket: nat, deferrable: bool)

  /** Where the worker is in `_execute`. */
  datatype Worker =
    | Idle
    | Checking(item: Item) | Starting(item: Item) | Rechecking(item: Item) | Ready(item: Item)
    | Running(item: Item) | Returned(item: Item) | Confirming(item: Item) | Refusing(item: Item)
    | Deferring(item: Item, code: Code) | Failing(item: Item, from: OperationState, code: Code)
    | Gone

  /** What a caller hears in the end. */
  datatype Reply = Result | WasRejected | WasDeferred | Ambiguous

  /** What became of a commit through the reducer: it may fail although it took effect. */
  datatype Commit = Acknowledged | Lost | Failed

  datatype State = State(
    rows: map<Key, Row>, next: nat,            // the durable rows
    fence: nat, held: bool,                    // the owner lease: its token, and whether it is unexpired
    live: bool, token: nat, bound: bool, accepting: bool, // the mailbox, the token it was opened with, and
                                               // whether the session's binding still names its attachment
    queue: seq<Item>, worker: Worker, futures: map<Key, Input>,
    dispatched: seq<Item>, called: set<Key>, owned: set<Key>, replies: map<Key, Reply>) // calls, checks after them, replies

  datatype Outcome = Finished | RaisedRejected | RaisedDeferred | RaisedOther

  datatype Action =
    // other processes, and the fate of this one
    | Expire | TakeOver | Rebind | Recover | Crash | Open
    // callers
    | Freeze | Thaw | Submit(key: Key, input: Input, deferrable: bool, allowed: bool, commit: Commit)
    // the worker
    | Take | Check(valid: bool) | Start(commit: Commit) | Recheck(valid: bool) | Dispatch
    | Return(outcome: Outcome) | CheckAfter(valid: bool) | Confirm(commit: Commit) | Refuse(commit: Commit)
    | SettleDeferred | SettleUnknown(commit: Commit)
    // shutdown
    | CancelWorker(commit: Commit) | EmergencyDefer | Stop(commit: Commit)

  // ----- the steps -----

  predicate Owns(s: State) { s.held && s.token == s.fence }

  /** A check that the fence is still valid says yes only when it is. */
  predicate Enabled(s: State, a: Action) {
    match a
    case Expire => s.held
    case TakeOver | Rebind | Recover | Crash => true
    case Open => s.worker == Gone && s.held
    case Freeze | Thaw | Submit(_, _, _, _, _) => s.live
    case Take => s.live && s.worker == Idle && s.queue != []
    case Check(valid) => s.worker.Checking? && (valid ==> Owns(s))
    case Start(_) => s.worker.Starting?
    case Recheck(valid) => s.worker.Rechecking? && (valid ==> Owns(s))
    case Dispatch => s.worker.Ready?
    case Return(_) => s.worker.Running?
    case CheckAfter(valid) => s.worker.Returned? && (valid ==> Owns(s))
    case Confirm(_) => s.worker.Confirming?
    case Refuse(_) => s.worker.Refusing?
    case SettleDeferred => s.worker.Deferring?
    case SettleUnknown(_) => s.worker.Failing?
    case CancelWorker(_) => s.live && s.worker != Gone
    case EmergencyDefer => s.live && s.worker == Gone && s.queue != []
    case Stop(_) => s.live && s.worker == Gone
  }

  predicate Unsettled(row: Row) { row.state == Pending || row.state == Started }

  /** Every unsettled row that `orphan` holds of becomes unknown. */
  function Orphaned(rows: map<Key, Row>, token: nat, sameToken: bool, code: Code): (r: map<Key, Row>)
    ensures r.Keys == rows.Keys
    ensures forall k | k in rows ::
      r[k] == if Unsettled(rows[k]) && (rows[k].token == token) == sameToken
              then rows[k].(state := Unknown, code := code) else rows[k]
  {
    map k | k in rows ::
      if Unsettled(rows[k]) && (rows[k].token == token) == sameToken
      then rows[k].(state := Unknown, code := code) else rows[k]
  }

  /** Startup recovery: every unsettled row without a live owner becomes unknown. */
  function Recovered(rows: map<Key, Row>, fence: nat, held: bool): (r: map<Key, Row>)
    ensures r.Keys == rows.Keys
    ensures forall k | k in rows ::
      r[k] == if Unsettled(rows[k]) && !(held && rows[k].token == fence)
              then rows[k].(state := Unknown, code := Recovery) else rows[k]
  {
    map k | k in rows ::
      if Unsettled(rows[k]) && !(held && rows[k].token == fence)
      then rows[k].(state := Unknown, code := Recovery) else rows[k]
  }

  /** Whether a transition through the reducer takes effect: only while the
      binding names this attachment, and only from the state it names. */
  predicate Applies(s: State, key: Key, from: OperationState, commit: Commit) {
    commit != Failed && s.bound && key in s.rows && s.rows[key].state == from
  }

  function Transition(s: State, key: Key, from: OperationState, to: OperationState, code: Code, commit: Commit): map<Key, Row> {
    if Applies(s, key, from, commit)
    then s.rows[key := s.rows[key].(state := to, code := code, started := s.rows[key].started || to == Started)]
    else s.rows
  }

  /** `settle_deferred`: not fenced, and also for a row that a takeover orphaned. */
  predicate CanDefer(s: State, key: Key) {
    key in s.rows && (Unsettled(s.rows[key]) || (s.rows[key].state == Unknown && s.rows[key].code == Takeover))
  }

  function DeferredRows(s: State, key: Key, code: Code): map<Key, Row> {
    if CanDefer(s, key) then s.rows[key := s.rows[key].(state := Rejected, code := code)] else s.rows
  }

  function Deferred(s: State, key: Key, code: Code): State {
    Replied(s, key, if CanDefer(s, key) then WasDeferred else Ambiguous).(rows := DeferredRows(s, key, code))
  }

  function Replied(s: State, key: Key, reply: Reply): State {
    s.(replies := s.replies[key := reply], futures := s.futures - {key})
  }

  /** Everybody who still waits hears that the outcome is unknown. */
  function AllAmbiguous(s: State): State {
    s.(futures := map[], replies := map k | k in s.replies.Keys + s.futures.Keys ::
                                      if k in s.futures then Ambiguous else s.replies[k])
  }

  function TakenOver(s: State): State {
    s.(fence := s.fence + 1, held := true, rows := Orphaned(s.rows, s.fence + 1, false, Takeover))
  }

  function RecoveredAll(s: State): State { s.(rows := Recovered(s.rows, s.fence, s.held)) }

  function Crashed(s: State): State { s.(live := false, queue := [], worker := Gone, futures := map[]) }

  function Opened(s: State): State {
    s.(live := true, token := s.fence, bound := true, accepting := true, queue := [], worker := Idle, futures := map[])
  }

  function Taken(s: State): State
    requires s.queue != []
  {
    s.(worker := Checking(s.queue[0]), queue := s.queue[1..])
  }

  function Checked(s: State, valid: bool): State
    requires s.worker.Checking?
  {
    s.(worker := if valid then Starting(s.worker.item) else Fenced(s.worker.item, Pending, FenceLostBeforeStart))
  }

  function MarkedStarted(s: State, commit: Commit): State
    requires s.worker.Starting?
  {
    var i := s.worker.item;
    s.(rows := Transition(s, i.key, Pending, Started, NoCode, commit),
       worker := if Applies(s, i.key, Pending, commit) && commit == Acknowledged
                 then Rechecking(i) else Failing(i, Pending, Raised))
  }

  function Rechecked(s: State, valid: bool): State
    requires s.worker.Rechecking?
  {
    s.(worker := if valid then Ready(s.worker.item) else Fenced(s.worker.item, Started, FenceLostBeforeDispatch))
  }

  function Dispatched(s: State): State
    requires s.worker.Ready?
  {
    s.(worker := Running(s.worker.item), dispatched := s.dispatched + [s.worker.item],
       called := s.called + {s.worker.item.key})
  }

  function ReturnedWith(s: State, outcome: Outcome): State
    requires s.worker.Running?
  {
    var i := s.worker.item;
    s.(worker := match outcome
                 case Finished => Returned(i)
                 case RaisedRejected => Refusing(i)
                 case RaisedDeferred => Deferring(i, OperationDeferred)
                 case RaisedOther => Failing(i, Started, Raised))
  }

  function CheckedAfter(s: State, valid: bool): State
    requires s.worker.Returned?
  {
    var i := s.worker.item;
    s.(worker := if valid then Confirming(i) else Failing(i, Started, FenceLostAfterDispatch),
       owned := if Owns(s) then s.owned + {i.key} else s.owned)
  }

  function SettledDeferred(s: State): State
    requires s.worker.Deferring?
  {
    Deferred(s, s.worker.item.key, s.worker.code).(worker := Idle)
  }

  function SettledUnknown(s: State, commit: Commit): State
    requires s.worker.Failing?
  {
    Replied(s, s.worker.item.key, Ambiguous).(
      rows := Transition(s, s.worker.item.key, s.worker.from, Unknown, s.worker.code, commit), worker := Idle)
  }

  /** Cancelling the worker settles the operation it is calling, if any. */
  function WorkerCancelled(s: State, commit: Commit): State {
    s.(worker := Gone, accepting := false,
       rows := if s.worker.Running?
               then Transition(s, s.worker.item.key, Started, Unknown, MailboxCancelled, commit) else s.rows)
  }

  function EmergencyDeferredFirst(s: State): State
    requires s.queue != []
  {
    Deferred(s, s.queue[0].key, EmergencyDeferred).(queue := s.queue[1..])
  }

  /** The mailbox is left without a worker, but callers may still reach it. */
  function Stopped(s: State, commit: Commit): State {
    AllAmbiguous(s).(queue := [],
      rows := if commit != Failed && s.bound
              then Orphaned(s.rows, s.token, true, MailboxStopped) else s.rows)
  }

  function Step(s: State, a: Action): State
    requires Enabled(s, a)
  {
    match a
    case Expire => s.(held := false)
    case TakeOver => TakenOver(s)
    case Rebind => s.(bound := false)
    case Recover => RecoveredAll(s)
    case Crash => Crashed(s)
    case Open => Opened(s)
    case Freeze => s.(accepting := false)
    case Thaw => s.(accepting := true)
    case Submit(key, input, deferrable, allowed, commit) => Submitted(s, key, input, deferrable, allowed, commit)
    case Take => Taken(s)
    case Check(valid) => Checked(s, valid)
    case Start(commit) => MarkedStarted(s, commit)
    case Recheck(valid) => Rechecked(s, valid)
    case Dispatch => Dispatched(s)
    case Return(outcome) => ReturnedWith(s, outcome)
    case CheckAfter(valid) => CheckedAfter(s, valid)
    case Confirm(commit) => Concluded(s, Confirmed, NoCode, Result, Started, commit)
    case Refuse(commit) => Concluded(s, Rejected, OperationRejected, WasRejected, Pending, commit)
    case SettleDeferred => SettledDeferred(s)
    case SettleUnknown(commit) => SettledUnknown(s, commit)
    case CancelWorker(commit) => WorkerCancelled(s, commit)
    case EmergencyDefer => EmergencyDeferredFirst(s)
    case Stop(commit) => Stopped(s, commit)
  }

  /** An operation whose fence was lost before it was called is deferred if it may be. */
  function Fenced(item: Item, from: OperationState, code: Code): Worker {
    if item.deferrable then Deferring(item, code) else Failing(item, from, code)
  }

  /** The transition after the call; when it fails, the outcome is settled as
      unknown, from the state the worker then believes in. */
  function Concluded(s: State, to: OperationState, code: Code, reply: Reply,
                     believed: OperationState, commit: Commit): State
    requires s.worker.Confirming? || s.worker.Refusing?
  {
    var i := s.worker.item;
    var t := s.(rows := Transition(s, i.key, Started, to, code, commit));
    if Applies(s, i.key, Started, commit) && commit == Acknowledged
    then Replied(t, i.key, reply).(worker := Idle)
    else t.(worker := Failing(i, believed, Raised))
  }

  /** `submit`: a known key is never queued again. */
  function Submitted(s: State, key: Key, input: Input, deferrable: bool, allowed: bool, commit: Commit): State {
    if (!s.accepting && !allowed) || key in s.futures || key in s.rows || commit == Failed || !s.bound then s
    else
      var t := s.(rows := s.rows[key := Row(input, s.token, s.next, Pending, NoCode, false)], next := s.next + 1);
      if commit == Lost then t
      else t.(queue := s.queue + [Item(key, s.next, deferrable)], futures := s.futures[key := input])
  }

  function Initial(): State {
    State(map[], 0, 0, false, false, 0, false, false, [], Gone, map[], [], {}, {}, map[])
  }

  // ----- what holds in every run -----

  /** Settlement codes that promise the operation was never called. */
  predicate NeverRan(code: Code) {
    code == FenceLostBeforeStart || code == FenceLostBeforeDispatch || code == EmergencyDeferred
  }

  ghost predicate RowsOk(s: State) {
    && s.token <= s.fence
    && (forall k | k in s.rows ::
          && s.rows[k].ticket < s.next && s.rows[k].token <= s.fence
          && (s.rows[k].state == Confirmed ==> k in s.called && k in s.owned)
          && (NeverRan(s.rows[k].code) ==> k !in s.called))
  }

  /** Operations were called in the order of their rows, each of them once and
      after its row had durably started. */
  ghost predicate LogOk(s: State) {
    && (forall k | k in s.called :: k in s.rows && s.rows[k].started && s.rows[k].state != Pending)
    && (forall i | 0 <= i < |s.dispatched| :: s.dispatched[i].key in s.called && Holds(s.rows, s.dispatched[i]))
    && (forall i, j | 0 <= i < j < |s.dispatched| :: s.dispatched[i].ticket < s.dispatched[j].ticket)
  }

  predicate Holds(rows: map<Key, Row>, item: Item) {
    item.key in rows && rows[item.key].ticket == item.ticket
  }

  /** An operation that was not called yet and comes after all that were. */
  ghost predicate Fresh(s: State, i: Item, state: OperationState) {
    && Holds(s.rows, i) && s.rows[i.key].token == s.token && (s.rows[i.key].started <==> state == Started)
    && (s.rows[i.key].state == Unknown || s.rows[i.key].state == state)
    && (Owns(s) ==> s.rows[i.key].state == state)
    && !NeverRan(s.rows[i.key].code)
    && i.key !in s.called
    && After(s.dispatched, i.ticket)
  }

  predicate After(dispatched: seq<Item>, ticket: nat) {
    dispatched == [] || dispatched[|dispatched| - 1].ticket < ticket
  }

  predicate Next(queue: seq<Item>, ticket: nat) {
    queue == [] || ticket < queue[0].ticket
  }

  ghost predicate QueueOk(s: State) {
    && (forall i | 0 <= i < |s.queue| :: Fresh(s, s.queue[i], Pending))
    && (forall i, j | 0 <= i < j < |s.queue| :: s.queue[i].ticket < s.queue[j].ticket)
  }

  predicate Moving(state: OperationState) { state == Pending || state == Started }

  ghost predicate WorkerOk(s: State) {
    && (s.worker.Idle? || s.worker.Gone? ||
        (Holds(s.rows, s.worker.item) && Next(s.queue, s.worker.item.ticket)))
    && match s.worker
       case Checking(i) => Fresh(s, i, Pending)
       case Starting(i) => Fresh(s, i, Pending)
       case Rechecking(i) => Fresh(s, i, Started)
       case Ready(i) => Fresh(s, i, Started)
       case Running(i) => i.key in s.called
       case Returned(i) => i.key in s.called
       case Refusing(i) => i.key in s.called
       case Confirming(i) => i.key in s.called && i.key in s.owned
       case Deferring(i, code) => NeverRan(code) <==> i.key !in s.called
       case Failing(i, from, code) => Moving(from) && (NeverRan(code) ==> i.key !in s.called)
       case _ => true
  }

  /** Every caller hears once, and hears of a result only if it is durable. */
  ghost predicate RepliesOk(s: State) {
    && (forall k | k in s.futures :: k in s.rows && k !in s.replies)
    && (forall k | k in s.replies ::
          && k in s.rows
          && (s.replies[k] == Result ==> s.rows[k].state == Confirmed)
          && (s.replies[k] == WasRejected || s.replies[k] == WasDeferred ==> s.rows[k].state == Rejected))
    && (forall i | 0 <= i < |s.queue| :: s.queue[i].key in s.futures)
    && (s.worker.Idle? || s.worker.Gone? || s.worker.item.key in s.futures)
  }

  ghost predicate Sound(s: State) {
    RowsOk(s) && LogOk(s) && QueueOk(s) && WorkerOk(s) && RepliesOk(s)
  }

  /** `t` differs from `s` in the row of `k`, which keeps its place and stays started. */
  ghost predicate RowMoved(s: State, t: State, k: Key, row: Row) {
    && k in s.rows && t.rows == s.rows[k := row]
    && row.ticket == s.rows[k].ticket && row.token == s.rows[k].token && (s.rows[k].started ==> row.started)
    && (k in s.called ==> row.state != Pending)
    && t.dispatched == s.dispatched && t.called == s.called && t.owned == s.owned && t.next == s.next
    && t.token == s.token && t.fence == s.fence && t.held == s.held
  }

  lemma MoveKeepsLog(s: State, t: State, k: Key, row: Row)
    requires LogOk(s) && RowMoved(s, t, k, row)
    ensures LogOk(t)
  {
  }

  lemma MoveKeepsQueue(s: State, t: State, k: Key, row: Row)
    requires QueueOk(s) && RowMoved(s, t, k, row)
    requires t.queue == s.queue || (s.queue != [] && t.queue == s.queue[1..])
    requires forall i | 0 <= i < |t.queue| :: t.queue[i].key != k
    ensures QueueOk(t)
  {
    var n := |s.queue| - |t.queue|;
    forall i | 0 <= i < |t.queue| ensures Fresh(t, t.queue[i], Pending) {
      assert t.queue[i] == s.queue[i + n];
    }
    forall i, j | 0 <= i < j < |t.queue| ensures t.queue[i].ticket < t.queue[j].ticket {
      assert t.queue[i] == s.queue[i + n] && t.queue[j] == s.queue[j + n];
    }
  }

  lemma MoveKeepsRows(s: State, t: State, k: Key, row: Row)
    requires RowsOk(s) && RowMoved(s, t, k, row)
    requires row.state == Confirmed ==> k in s.called && k in s.owned
    requires NeverRan(row.code) ==> k !in s.called
    ensures RowsOk(t)
  {
  }

  /** The worker's operation is not in the queue any more. */
  lemma NotInQueue(s: State)
    requires QueueOk(s) && WorkerOk(s) && !s.worker.Idle? && !s.worker.Gone?
    ensures forall i | 0 <= i < |s.queue| :: s.queue[i].key != s.worker.item.key
  {
    forall i | 0 <= i < |s.queue| ensures s.queue[i].key != s.worker.item.key {
      assert s.queue[0].ticket <= s.queue[i].ticket && Fresh(s, s.queue[i], Pending);
    }
  }

  /** A step of the worker on the row of its item. */
  lemma WorkerMoves(s: State, t: State, row: Row)
    requires RowsOk(s) && LogOk(s) && QueueOk(s) && WorkerOk(s) && !s.worker.Idle? && !s.worker.Gone?
    requires RowMoved(s, t, s.worker.item.key, row) && t.queue == s.queue
    requires row.state == Confirmed ==> s.worker.item.key in s.called && s.worker.item.key in s.owned
    requires NeverRan(row.code) ==> s.worker.item.key !in s.called
    ensures RowsOk(t) && LogOk(t) && QueueOk(t)
    ensures Holds(t.rows, s.worker.item)
  {
    NotInQueue(s);
    MoveKeepsLog(s, t, s.worker.item.key, row);
    MoveKeepsQueue(s, t, s.worker.item.key, row);
    MoveKeepsRows(s, t, s.worker.item.key, row);
  }

  function MovedRow(s: State, k: Key, from: OperationState, to: OperationState, code: Code, commit: Commit): Row
    requires k in s.rows
  {
    if Applies(s, k, from, commit)
    then s.rows[k].(state := to, code := code, started := s.rows[k].started || to == Started) else s.rows[k]
  }

  lemma TransitionIsMove(s: State, t: State, k: Key, from: OperationState, to: OperationState, code: Code, commit: Commit)
    requires k in s.rows && to != Pending
    requires k in s.called ==> s.rows[k].state != Pending
    requires t.rows == Transition(s, k, from, to, code, commit)
    requires t.dispatched == s.dispatched && t.called == s.called && t.owned == s.owned && t.next == s.next
    requires t.token == s.token && t.fence == s.fence && t.held == s.held
    ensures RowMoved(s, t, k, MovedRow(s, k, from, to, code, commit))
  {
    assert s.rows[k := s.rows[k]] == s.rows;
  }

  lemma TransitionMoves(s: State, from: OperationState, to: OperationState, code: Code, commit: Commit, t: State)
    requires RowsOk(s) && LogOk(s) && QueueOk(s) && WorkerOk(s) && !s.worker.Idle? && !s.worker.Gone?
    requires to != Pending && (NeverRan(code) ==> s.worker.item.key !in s.called)
    requires to == Confirmed ==> s.worker.item.key in s.called && s.worker.item.key in s.owned
    requires t.rows == Transition(s, s.worker.item.key, from, to, code, commit)
    requires t.dispatched == s.dispatched && t.called == s.called && t.owned == s.owned && t.next == s.next && t.queue == s.queue
    requires t.token == s.token && t.fence == s.fence && t.held == s.held
    ensures RowMoved(s, t, s.worker.item.key, MovedRow(s, s.worker.item.key, from, to, code, commit))
    ensures RowsOk(t) && LogOk(t) && QueueOk(t)
    ensures Holds(t.rows, s.worker.item)
  {
    TransitionIsMove(s, t, s.worker.item.key, from, to, code, commit);
    WorkerMoves(s, t, MovedRow(s, s.worker.item.key, from, to, code, commit));
  }

  /** Replying to the caller of `k`, whose row was not settled before. */
  lemma MoveKeepsReplies(s: State, t: State, k: Key, row: Row)
    requires RepliesOk(s) && RowMoved(s, t, k, row)
    requires s.rows[k].state == Confirmed || s.rows[k].state == Rejected ==> row == s.rows[k]
    requires t.queue == s.queue || (s.queue != [] && t.queue == s.queue[1..])
    requires forall i | 0 <= i < |t.queue| :: t.queue[i].key != k
    requires
      || (t.replies == s.replies && t.futures == s.futures && (t.worker.Idle? || t.worker.Gone? || t.worker.item.key in s.futures))
      || (&& k in s.futures && t.futures == s.futures - {k} && k in t.replies && t.replies == s.replies[k := t.replies[k]]
          && (t.worker.Idle? || t.worker.Gone?)
          && (t.replies[k] == Result ==> row.state == Confirmed)
          && (t.replies[k] == WasRejected || t.replies[k] == WasDeferred ==> row.state == Rejected))
    ensures RepliesOk(t)
  {
    var n := |s.queue| - |t.queue|;
    forall i | 0 <= i < |t.queue| ensures t.queue[i].key in t.futures {
      assert t.queue[i] == s.queue[i + n];
    }
  }

  /** `t` differs from `s` in rows that were settled as unknown from outside,
      and the mailbox of `s` lost its ownership if one of its rows was. */
  ghost predicate Orphans(s: State, t: State) {
    && t.rows.Keys == s.rows.Keys
    && (forall k | k in s.rows ::
          || t.rows[k] == s.rows[k]
          || (Unsettled(s.rows[k]) && !NeverRan(t.rows[k].code)
              && t.rows[k] == s.rows[k].(state := Unknown, code := t.rows[k].code)))
    && t.dispatched == s.dispatched && t.called == s.called && t.owned == s.owned && t.next == s.next && t.token == s.token
    && t.fence >= s.fence
  }

  ghost predicate OwnRowsKept(s: State, t: State) {
    Owns(t) ==> Owns(s) && forall k | k in s.rows && s.rows[k].token == s.token :: k in t.rows && t.rows[k] == s.rows[k]
  }

  lemma OrphanKeepsRows(s: State, t: State)
    requires RowsOk(s) && LogOk(s) && Orphans(s, t)
    ensures RowsOk(t) && LogOk(t)
  {
  }

  lemma OrphanKeepsFresh(s: State, t: State, i: Item, state: OperationState)
    requires Orphans(s, t) && OwnRowsKept(s, t) && Fresh(s, i, state)
    ensures Fresh(t, i, state)
  {
  }

  lemma OrphanKeepsQueue(s: State, t: State)
    requires Orphans(s, t) && OwnRowsKept(s, t) && QueueOk(s) && t.queue == s.queue
    ensures QueueOk(t)
  {
    forall i | 0 <= i < |t.queue| ensures Fresh(t, t.queue[i], Pending) {
      OrphanKeepsFresh(s, t, s.queue[i], Pending);
    }
  }

  lemma OrphanKeepsWorker(s: State, t: State)
    requires Orphans(s, t) && OwnRowsKept(s, t) && WorkerOk(s) && t.queue == s.queue && t.worker == s.worker
    ensures WorkerOk(t)
  {
    if s.worker.Checking? || s.worker.Starting? {
      OrphanKeepsFresh(s, t, s.worker.item, Pending);
    } else if s.worker.Rechecking? || s.worker.Ready? {
      OrphanKeepsFresh(s, t, s.worker.item, Started);
    }
  }

  lemma OrphanKeepsReplies(s: State, t: State)
    requires Orphans(s, t) && RepliesOk(s)
    requires t.queue == s.queue && t.worker == s.worker && t.futures == s.futures && t.replies == s.replies
    ensures RepliesOk(t)
  {
  }

  lemma OrphanSound(s: State, t: State)
    requires Sound(s) && Orphans(s, t) && OwnRowsKept(s, t)
    requires t.queue == s.queue && t.worker == s.worker && t.futures == s.futures && t.replies == s.replies
    ensures Sound(t)
  {
    OrphanKeepsRows(s, t);
    OrphanKeepsQueue(s, t);
    OrphanKeepsWorker(s, t);
    OrphanKeepsReplies(s, t);
  }

  /** Admitting a key that was never seen before. */
  ghost predicate Admits(s: State, t: State, key: Key, row: Row) {
    && key !in s.rows && t.rows == s.rows[key := row] && t.next == s.next + 1
    && row.ticket == s.next && row.token == s.token && row.state == Pending && !row.started && row.code == NoCode
    && t.dispatched == s.dispatched && t.called == s.called && t.owned == s.owned
    && t.token == s.token && t.fence == s.fence && t.held == s.held
  }

  lemma AdmitKeepsRows(s: State, t: State, key: Key, row: Row)
    requires RowsOk(s) && LogOk(s) && Admits(s, t, key, row)
    ensures RowsOk(t) && LogOk(t) && Fresh(t, Item(key, s.next, false), Pending)
    ensures forall i, st | Fresh(s, i, st) :: Fresh(t, i, st)
    ensures forall i | Holds(s.rows, i) :: Holds(t.rows, i) && i.ticket < s.next
  {
    assert key !in s.called;
    assert After(s.dispatched, s.next) by {
      if s.dispatched != [] { assert Holds(s.rows, s.dispatched[|s.dispatched| - 1]); }
    }
  }

  lemma AdmitKeepsQueue(s: State, t: State, key: Key, row: Row, item: Item)
    requires QueueOk(s) && Admits(s, t, key, row) && item.key == key && item.ticket == s.next
    requires t.queue == s.queue || t.queue == s.queue + [item]
    requires Fresh(t, Item(key, s.next, false), Pending)
    requires forall i, st | Fresh(s, i, st) :: Fresh(t, i, st)
    requires forall i | Holds(s.rows, i) :: Holds(t.rows, i) && i.ticket < s.next
    ensures QueueOk(t)
  {
    forall i | 0 <= i < |t.queue| ensures Fresh(t, t.queue[i], Pending) {
      if i < |s.queue| { assert t.queue[i] == s.queue[i] && Fresh(s, s.queue[i], Pending); }
    }
    forall i, j | 0 <= i < j < |t.queue| ensures t.queue[i].ticket < t.queue[j].ticket {
      assert t.queue[i] == s.queue[i] && Fresh(s, s.queue[i], Pending);
      if j < |s.queue| { assert t.queue[j] == s.queue[j]; }
    }
  }

  lemma AdmitKeepsWorker(s: State, t: State, key: Key, row: Row, item: Item)
    requires WorkerOk(s) && Admits(s, t, key, row) && item.key == key && item.ticket == s.next
    requires t.queue == s.queue || t.queue == s.queue + [item]
    requires t.worker == s.worker
    requires forall i, st | Fresh(s, i, st) :: Fresh(t, i, st)
    requires forall i | Holds(s.rows, i) :: Holds(t.rows, i) && i.ticket < s.next
    ensures WorkerOk(t)
  {
  }

  lemma AdmitKeepsReplies(s: State, t: State, key: Key, row: Row, item: Item)
    requires RepliesOk(s) && Admits(s, t, key, row) && item.key == key
    requires t.worker == s.worker && t.replies == s.replies
    requires (t.queue == s.queue && t.futures == s.futures)
             || (t.queue == s.queue + [item] && t.futures == s.futures[key := row.input])
    ensures RepliesOk(t)
  {
  }

  function DeferredRow(s: State, k: Key, code: Code): Row
    requires k in s.rows
  {
    if CanDefer(s, k) then s.rows[k].(state := Rejected, code := code) else s.rows[k]
  }

  lemma DeferIsMove(s: State, t: State, k: Key, code: Code)
    requires k in s.rows && (k in s.called ==> s.rows[k].state != Pending)
    requires t.rows == DeferredRows(s, k, code)
    requires t.dispatched == s.dispatched && t.called == s.called && t.owned == s.owned && t.next == s.next
    requires t.token == s.token && t.fence == s.fence && t.held == s.held
    ensures RowMoved(s, t, k, DeferredRow(s, k, code))
  {
    assert s.rows[k := s.rows[k]] == s.rows;
  }

  lemma DeferReplies(s: State, t: State, k: Key, code: Code)
    requires RepliesOk(s) && k in s.futures && RowMoved(s, t, k, DeferredRow(s, k, code))
    requires t.replies == s.replies[k := if CanDefer(s, k) then WasDeferred else Ambiguous]
    requires t.futures == s.futures - {k}
    requires t.queue == s.queue || (s.queue != [] && t.queue == s.queue[1..])
    requires forall i | 0 <= i < |t.queue| :: t.queue[i].key != k
    requires t.worker.Idle? || t.worker.Gone?
    ensures RepliesOk(t)
  {
    MoveKeepsReplies(s, t, k, DeferredRow(s, k, code));
  }

  lemma LaterInQueue(s: State)
    requires QueueOk(s) && s.queue != []
    ensures forall i | 0 <= i < |s.queue[1..]| :: s.queue[1..][i].key != s.queue[0].key
  {
    forall i | 0 <= i < |s.queue[1..]| ensures s.queue[1..][i].key != s.queue[0].key {
      assert s.queue[1..][i] == s.queue[i + 1];
      assert Fresh(s, s.queue[0], Pending) && Fresh(s, s.queue[i + 1], Pending);
    }
  }

  lemma ConfirmRows(s: State, commit: Commit)
    requires RowsOk(s) && LogOk(s) && QueueOk(s) && WorkerOk(s) && s.worker.Confirming?
    ensures var t := Concluded(s, Confirmed, NoCode, Result, Started, commit);
      && RowsOk(t) && LogOk(t) && QueueOk(t) && Holds(t.rows, s.worker.item)
      && RowMoved(s, t, s.worker.item.key, MovedRow(s, s.worker.item.key, Started, Confirmed, NoCode, commit))
  {
    if Applies(s, s.worker.item.key, Started, commit) && commit == Acknowledged {
      TransitionMoves(s, Started, Confirmed, NoCode, commit, Concluded(s, Confirmed, NoCode, Result, Started, commit));
    } else {
      TransitionMoves(s, Started, Confirmed, NoCode, commit, Concluded(s, Confirmed, NoCode, Result, Started, commit));
    }
  }

  lemma RefuseRows(s: State, commit: Commit)
    requires RowsOk(s) && LogOk(s) && QueueOk(s) && WorkerOk(s) && s.worker.Refusing?
    ensures var t := Concluded(s, Rejected, OperationRejected, WasRejected, Pending, commit);
      && RowsOk(t) && LogOk(t) && QueueOk(t) && Holds(t.rows, s.worker.item)
      && RowMoved(s, t, s.worker.item.key, MovedRow(s, s.worker.item.key, Started, Rejected, OperationRejected, commit))
  {
    var t := Concluded(s, Rejected, OperationRejected, WasRejected, Pending, commit);
    if Applies(s, s.worker.item.key, Started, commit) && commit == Acknowledged {
      TransitionMoves(s, Started, Rejected, OperationRejected, commit, t);
    } else {
      TransitionMoves(s, Started, Rejected, OperationRejected, commit, t);
    }
  }

  lemma ConcludeWorker(s: State, to: OperationState, code: Code, reply: Reply, believed: OperationState, commit: Commit)
    requires (s.worker.Confirming? || s.worker.Refusing?) && Moving(believed)
    requires WorkerOk(s) && Holds(Concluded(s, to, code, reply, believed, commit).rows, s.worker.item)
    ensures WorkerOk(Concluded(s, to, code, reply, believed, commit))
  {
  }

  lemma ConcludeReplies(s: State, to: OperationState, code: Code, reply: Reply, believed: OperationState, commit: Commit)
    requires RepliesOk(s) && (s.worker.Confirming? || s.worker.Refusing?)
    requires (to == Confirmed && reply == Result) || (to == Rejected && reply == WasRejected)
    requires forall i | 0 <= i < |s.queue| :: s.queue[i].key != s.worker.item.key
    requires var t := Concluded(s, to, code, reply, believed, commit);
      RowMoved(s, t, s.worker.item.key, MovedRow(s, s.worker.item.key, Started, to, code, commit))
    ensures RepliesOk(Concluded(s, to, code, reply, believed, commit))
  {
    var k := s.worker.item.key;
    var t, row := Concluded(s, to, code, reply, believed, commit), MovedRow(s, k, Started, to, code, commit);
    if Applies(s, k, Started, commit) && commit == Acknowledged {
      assert t.replies == s.replies[k := reply] && t.futures == s.futures - {k} && t.worker == Idle;
    } else {
      assert t.replies == s.replies && t.futures == s.futures && t.worker.item == s.worker.item;
    }
    MoveKeepsReplies(s, t, k, row);
  }

  lemma ExpireSound(s: State)
    requires Sound(s)
    ensures Sound(s.(held := false))
  {
  }

  lemma TakeOverSound(s: State)
    requires Sound(s)
    ensures Sound(TakenOver(s))
  {
    OrphanSound(s, TakenOver(s));
  }

  lemma RebindSound(s: State)
    requires Sound(s)
    ensures Sound(s.(bound := false))
  {
  }

  lemma RecoverSound(s: State)
    requires Sound(s)
    ensures Sound(RecoveredAll(s))
  {
    OrphanSound(s, RecoveredAll(s));
  }

  lemma CrashSound(s: State)
    requires Sound(s)
    ensures Sound(Crashed(s))
  {
  }

  lemma OpenSound(s: State)
    requires Sound(s)
    ensures Sound(Opened(s))
  {
  }

  lemma FreezeSound(s: State)
    requires Sound(s)
    ensures Sound(s.(accepting := false))
  {
  }

  lemma ThawSound(s: State)
    requires Sound(s)
    ensures Sound(s.(accepting := true))
  {
  }

  lemma SubmitSound(s: State, key: Key, input: Input, deferrable: bool, allowed: bool, commit: Commit)
    requires Sound(s)
    ensures Sound(Submitted(s, key, input, deferrable, allowed, commit))
  {
    var t := Submitted(s, key, input, deferrable, allowed, commit);
    if t != s {
      var row := Row(input, s.token, s.next, Pending, NoCode, false);
      AdmitKeepsRows(s, t, key, row);
      AdmitKeepsQueue(s, t, key, row, Item(key, s.next, deferrable));
      AdmitKeepsWorker(s, t, key, row, Item(key, s.next, deferrable));
      AdmitKeepsReplies(s, t, key, row, Item(key, s.next, deferrable));
    }
  }

  lemma TakeSound(s: State)
    requires Sound(s) && s.live && s.worker == Idle && s.queue != []
    ensures Sound(Taken(s))
  {
  }

  lemma CheckSound(s: State, valid: bool)
    requires Sound(s) && s.worker.Checking?
    ensures Sound(Checked(s, valid))
  {
  }

  lemma StartSound(s: State, commit: Commit)
    requires Sound(s) && s.worker.Starting?
    ensures Sound(MarkedStarted(s, commit))
  {
    TransitionMoves(s, Pending, Started, NoCode, commit, MarkedStarted(s, commit));
  }

  lemma RecheckSound(s: State, valid: bool)
    requires Sound(s) && s.worker.Rechecking?
    ensures Sound(Rechecked(s, valid))
  {
  }

  lemma DispatchSound(s: State)
    requires Sound(s) && s.worker.Ready?
    ensures Sound(Dispatched(s))
  {
  }

  lemma ReturnSound(s: State, outcome: Outcome)
    requires Sound(s) && s.worker.Running?
    ensures Sound(ReturnedWith(s, outcome))
  {
  }

  lemma CheckAfterSound(s: State, valid: bool)
    requires Sound(s) && s.worker.Returned? && (valid ==> Owns(s))
    ensures Sound(CheckedAfter(s, valid))
  {
  }

  lemma ConfirmSound(s: State, commit: Commit)
    requires Sound(s) && s.worker.Confirming?
    ensures Sound(Concluded(s, Confirmed, NoCode, Result, Started, commit))
  {
    NotInQueue(s);
    ConfirmRows(s, commit);
    ConcludeWorker(s, Confirmed, NoCode, Result, Started, commit);
    ConcludeReplies(s, Confirmed, NoCode, Result, Started, commit);
  }

  lemma RefuseSound(s: State, commit: Commit)
    requires Sound(s) && s.worker.Refusing?
    ensures Sound(Concluded(s, Rejected, OperationRejected, WasRejected, Pending, commit))
  {
    NotInQueue(s);
    RefuseRows(s, commit);
    ConcludeWorker(s, Rejected, OperationRejected, WasRejected, Pending, commit);
    ConcludeReplies(s, Rejected, OperationRejected, WasRejected, Pending, commit);
  }

  lemma SettleDeferredRows(s: State)
    requires RowsOk(s) && LogOk(s) && QueueOk(s) && WorkerOk(s) && s.worker.Deferring?
    ensures var t := SettledDeferred(s); RowsOk(t) && LogOk(t) && QueueOk(t)
    ensures RowMoved(s, SettledDeferred(s), s.worker.item.key, DeferredRow(s, s.worker.item.key, s.worker.code))
  {
    DeferIsMove(s, SettledDeferred(s), s.worker.item.key, s.worker.code);
    WorkerMoves(s, SettledDeferred(s), DeferredRow(s, s.worker.item.key, s.worker.code));
  }

  lemma SettleDeferredReplies(s: State)
    requires s.worker.Deferring? && RepliesOk(s)
    requires RowMoved(s, SettledDeferred(s), s.worker.item.key, DeferredRow(s, s.worker.item.key, s.worker.code))
    requires forall i | 0 <= i < |s.queue| :: s.queue[i].key != s.worker.item.key
    ensures RepliesOk(SettledDeferred(s))
  {
    DeferReplies(s, SettledDeferred(s), s.worker.item.key, s.worker.code);
  }

  lemma SettleDeferredSound(s: State)
    requires Sound(s) && s.worker.Deferring?
    ensures Sound(SettledDeferred(s))
  {
    NotInQueue(s);
    SettleDeferredRows(s);
    SettleDeferredReplies(s);
  }

  lemma SettleUnknownSound(s: State, commit: Commit)
    requires Sound(s) && s.worker.Failing?
    ensures Sound(SettledUnknown(s, commit))
  {
    TransitionMoves(s, s.worker.from, Unknown, s.worker.code, commit, SettledUnknown(s, commit));
  }

  lemma CancelWorkerSound(s: State, commit: Commit)
    requires Sound(s)
    ensures Sound(WorkerCancelled(s, commit))
  {
    if s.worker.Running? {
      TransitionMoves(s, Started, Unknown, MailboxCancelled, commit, WorkerCancelled(s, commit));
    }
  }

  lemma EmergencyDeferRows(s: State)
    requires RowsOk(s) && LogOk(s) && QueueOk(s) && s.queue != []
    ensures var t := EmergencyDeferredFirst(s); RowsOk(t) && LogOk(t) && QueueOk(t)
    ensures RowMoved(s, EmergencyDeferredFirst(s), s.queue[0].key, DeferredRow(s, s.queue[0].key, EmergencyDeferred))
  {
    var k, t := s.queue[0].key, EmergencyDeferredFirst(s);
    var row := DeferredRow(s, k, EmergencyDeferred);
    LaterInQueue(s);
    DeferIsMove(s, t, k, EmergencyDeferred);
    MoveKeepsLog(s, t, k, row);
    MoveKeepsQueue(s, t, k, row);
    MoveKeepsRows(s, t, k, row);
  }

  lemma EmergencyDeferReplies(s: State)
    requires RepliesOk(s) && s.queue != [] && s.worker == Gone
    requires RowMoved(s, EmergencyDeferredFirst(s), s.queue[0].key, DeferredRow(s, s.queue[0].key, EmergencyDeferred))
    requires forall i | 0 <= i < |s.queue[1..]| :: s.queue[1..][i].key != s.queue[0].key
    ensures RepliesOk(EmergencyDeferredFirst(s))
  {
    DeferReplies(s, EmergencyDeferredFirst(s), s.queue[0].key, EmergencyDeferred);
  }

  lemma EmergencyDeferSound(s: State)
    requires Sound(s) && s.worker == Gone && s.queue != []
    ensures Sound(EmergencyDeferredFirst(s))
  {
    LaterInQueue(s);
    EmergencyDeferRows(s);
    EmergencyDeferReplies(s);
  }

  lemma StopRows(s: State, commit: Commit)
    requires RowsOk(s) && LogOk(s)
    ensures Orphans(s, Stopped(s, commit)) && RowsOk(Stopped(s, commit)) && LogOk(Stopped(s, commit))
  {
    OrphanKeepsRows(s, Stopped(s, commit));
  }

  lemma StopReplies(s: State, commit: Commit)
    requires RepliesOk(s) && Orphans(s, Stopped(s, commit)) && s.worker == Gone
    ensures RepliesOk(Stopped(s, commit))
  {
  }

  lemma StopSound(s: State, commit: Commit)
    requires Sound(s) && s.worker == Gone
    ensures Sound(Stopped(s, commit))
  {
    StopRows(s, commit);
    StopReplies(s, commit);
  }

  lemma StepSound(s: State, a: Action)
    requires Sound(s) && Enabled(s, a)
    ensures Sound(Step(s, a))
  {
    match a
    case Expire => ExpireSound(s);
    case TakeOver => TakeOverSound(s);
    case Rebind => RebindSound(s);
    case Recover => RecoverSound(s);
    case Crash => CrashSound(s);
    case Open => OpenSound(s);
    case Freeze => FreezeSound(s);
    case Thaw => ThawSound(s);
    case Submit(key, input, deferrable, allowed, commit) => SubmitSound(s, key, input, deferrable, allowed, commit);
    case Take => TakeSound(s);
    case Check(valid) => CheckSound(s, valid);
    case Start(commit) => StartSound(s, commit);
    case Recheck(valid) => RecheckSound(s, valid);
    case Dispatch => DispatchSound(s);
    case Return(outcome) => ReturnSound(s, outcome);
    case CheckAfter(valid) => CheckAfterSound(s, valid);
    case Confirm(commit) => ConfirmSound(s, commit);
    case Refuse(commit) => RefuseSound(s, commit);
    case SettleDeferred => SettleDeferredSound(s);
    case SettleUnknown(commit) => SettleUnknownSound(s, commit);
    case CancelWorker(commit) => CancelWorkerSound(s, commit);
    case EmergencyDefer => EmergencyDeferSound(s);
    case Stop(commit) => StopSound(s, commit);
  }

  // ----- runs -----

  /** Where a sequence of steps leads, if each of them is enabled when its turn comes. */
  function Run(s: State, actions: seq<Action>): Option<State> {
    if actions == [] then Some(s)
    else
      var last := |actions| - 1;
      var u := Run(s, actions[..last]);
      if u.Some? && Enabled(u.value, actions[last]) then Some(Step(u.value, actions[last])) else None
  }

  lemma RunStep(s: State, actions: seq<Action>, t: State, a: Action)
    requires Run(s, actions) == Some(t) && Enabled(t, a)
    ensures Run(s, actions + [a]) == Some(Step(t, a))
  {
    assert (actions + [a])[..|actions|] == actions;
  }

  lemma {:induction false} RunSound(s: State, actions: seq<Action>, t: State)
    requires Sound(s) && Run(s, actions) == Some(t)
    ensures Sound(t)
  {
    if actions != [] {
      var last := |actions| - 1;
      var u := Run(s, actions[..last]).value;
      RunSound(s, actions[..last], u);
      StepSound(u, actions[last]);
    }
  }

  /** Whatever processes, callers, crashes and takeovers do: every key is called
      at most once, in submission order, and after its row durably started; a
      confirmed operation ran and its fence was valid afterwards; a deferral for
      a lost fence or an emergency means that it never ran; and a caller hears
      of a result only when it is durable. */
  lemma CalledAtMostOnce(actions: seq<Action>, t: State)
    requires Run(Initial(), actions) == Some(t)
    ensures forall i, j | 0 <= i < j < |t.dispatched| ::
      t.dispatched[i].key != t.dispatched[j].key && t.dispatched[i].ticket < t.dispatched[j].ticket
    ensures forall i | 0 <= i < |t.dispatched| ::
      t.dispatched[i].key in t.called && Holds(t.rows, t.dispatched[i]) && t.rows[t.dispatched[i].key].started
    ensures forall k | k in t.rows && t.rows[k].state == Confirmed :: k in t.called && k in t.owned
    ensures forall k | k in t.rows && NeverRan(t.rows[k].code) :: k !in t.called
    ensures forall k | k in t.replies && t.replies[k] == Result :: k in t.rows && t.rows[k].state == Confirmed
    ensures forall k | k in t.replies && (t.replies[k] == WasDeferred || t.replies[k] == WasRejected) ::
      k in t.rows && t.rows[k].state == Rejected
  {
    RunSound(Initial(), actions, t);
  }

  /** While the mailbox still owns the session, it calls an operation only when
      the row says started at that moment; otherwise the row may have been
      settled as unknown meanwhile, but nothing else. */
  lemma CallsOnlyStarted(s: State)
    requires Sound(s) && s.worker.Ready?
    ensures s.worker.item.key in s.rows && s.worker.item.key !in s.called
    ensures var row := s.rows[s.worker.item.key];
      row.started && (row.state == Started || (row.state == Unknown && !Owns(s)))
  {
  }

  /** What no step may undo: the identity of a row, and what was decided. */
  predicate Persists(was: Row, now: Row) {
    && now.input == was.input && now.token == was.token && now.ticket == was.ticket
    && (was.started ==> now.started)
    && (was.state == Confirmed || was.state == Rejected ==> now == was)
    && (was.state == Unknown ==> now == was || (now.state == Rejected && was.code == Takeover))
    && (was.state == Started ==> now.state != Pending)
  }

  lemma TransitionPersists(s: State, k: Key, key: Key, from: OperationState, to: OperationState, code: Code, commit: Commit)
    requires k in s.rows && Moving(from) && to != Pending
    ensures var rows := Transition(s, key, from, to, code, commit); k in rows && Persists(s.rows[k], rows[k])
  {
  }

  lemma DeferPersists(s: State, k: Key, key: Key, code: Code)
    requires k in s.rows
    ensures var rows := DeferredRows(s, key, code); k in rows && Persists(s.rows[k], rows[k])
  {
  }

  lemma TakeOverPersists(s: State, k: Key)
    requires k in s.rows
    ensures Persists(s.rows[k], TakenOver(s).rows[k])
  {
  }

  lemma RecoverPersists(s: State, k: Key)
    requires k in s.rows
    ensures Persists(s.rows[k], RecoveredAll(s).rows[k])
  {
  }

  lemma SubmitPersists(s: State, key: Key, input: Input, deferrable: bool, allowed: bool, commit: Commit, k: Key)
    requires k in s.rows
    ensures var t := Submitted(s, key, input, deferrable, allowed, commit);
      k in t.rows && Persists(s.rows[k], t.rows[k])
  {
  }

  lemma StopPersists(s: State, commit: Commit, k: Key)
    requires k in s.rows
    ensures k in Stopped(s, commit).rows && Persists(s.rows[k], Stopped(s, commit).rows[k])
  {
  }

  /** The steps that move the row of one operation. */
  predicate MovesOne(a: Action) {
    a.Start? || a.Confirm? || a.Refuse? || a.SettleUnknown? || a.CancelWorker? || a.SettleDeferred? || a.EmergencyDefer?
  }

  lemma MovePersists(s: State, a: Action, k: Key)
    requires Enabled(s, a) && MovesOne(a) && k in s.rows && (s.worker.Failing? ==> Moving(s.worker.from))
    ensures k in Step(s, a).rows && Persists(s.rows[k], Step(s, a).rows[k])
  {
    match a
    case Start(commit) => TransitionPersists(s, k, s.worker.item.key, Pending, Started, NoCode, commit);
    case Confirm(commit) => TransitionPersists(s, k, s.worker.item.key, Started, Confirmed, NoCode, commit);
    case Refuse(commit) => TransitionPersists(s, k, s.worker.item.key, Started, Rejected, OperationRejected, commit);
    case SettleUnknown(commit) =>
      TransitionPersists(s, k, s.worker.item.key, s.worker.from, Unknown, s.worker.code, commit);
    case CancelWorker(commit) =>
      if s.worker.Running? {
        TransitionPersists(s, k, s.worker.item.key, Started, Unknown, MailboxCancelled, commit);
      }
    case SettleDeferred => DeferPersists(s, k, s.worker.item.key, s.worker.code);
    case EmergencyDefer => DeferPersists(s, k, s.queue[0].key, EmergencyDeferred);
  }

  lemma StepPersists(s: State, a: Action, k: Key)
    requires Enabled(s, a) && k in s.rows && (s.worker.Failing? ==> Moving(s.worker.from))
    ensures k in Step(s, a).rows && Persists(s.rows[k], Step(s, a).rows[k])
  {
    if MovesOne(a) {
      MovePersists(s, a, k);
    } else if a.TakeOver? {
      TakeOverPersists(s, k);
    } else if a.Recover? {
      RecoverPersists(s, k);
    } else if a.Stop? {
      StopPersists(s, a.commit, k);
    } else if a.Submit? {
      SubmitPersists(s, a.key, a.input, a.deferrable, a.allowed, a.commit, k);
    } else {
      assert Step(s, a).rows == s.rows;
    }
  }

  /** In every run the identity of a row and what was decided about it persist. */
  lemma {:induction false} RunPersists(s: State, actions: seq<Action>, t: State, k: Key)
    requires Sound(s) && Run(s, actions) == Some(t) && k in s.rows
    ensures k in t.rows && Persists(s.rows[k], t.rows[k])
  {
    if actions != [] {
      var last := |actions| - 1;
      var u := Run(s, actions[..last]).value;
      RunPersists(s, actions[..last], u, k);
      RunSound(s, actions[..last], u);
      StepPersists(u, actions[last], k);
    }
  }

  /** What a takeover, startup recovery and a stop write: the unsettled rows of
      everybody else, of everybody but a live owner, or of the mailbox itself. */
  lemma WhoseRowsBecomeUnknown(s: State, k: Key, commit: Commit)
    requires k in s.rows && Enabled(s, Stop(commit))
    ensures var (row, t) := (s.rows[k], Step(s, TakeOver));
      && t.fence == s.fence + 1 && t.held && t.token == s.token && k in t.rows
      && t.rows[k] == if row.state in {Pending, Started} && row.token != s.fence + 1
                      then row.(state := Unknown, code := Takeover) else row
    ensures var (row, t) := (s.rows[k], Step(s, Recover));
      && k in t.rows
      && t.rows[k] == if row.state in {Pending, Started} && !(s.held && row.token == s.fence)
                      then row.(state := Unknown, code := Recovery) else row
    ensures var (row, t) := (s.rows[k], Step(s, Stop(commit)));
      && k in t.rows
      && t.rows[k] == if row.state in {Pending, Started} && row.token == s.token && commit != Failed && s.bound
                      then row.(state := Unknown, code := MailboxStopped) else row
  {
  }

  /** What becomes of the mailbox itself. */
  lemma WhatBecomesOfTheMailbox(s: State)
    ensures var t := Step(s, Crash);
      !t.live && t.worker == Gone && t.queue == [] && t.futures == map[] && t.rows == s.rows && t.replies == s.replies
    ensures Enabled(s, Open) ==> var t := Step(s, Open);
      && t.live && t.worker == Idle && t.queue == [] && t.futures == map[] && t.rows == s.rows
      && t.token == s.fence && Owns(t) && t.bound && t.accepting
    ensures Enabled(s, Expire) ==> !Owns(Step(s, Expire))
    ensures forall key, from, commit :: !Applies(Step(s, Rebind), key, from, commit)
    ensures s.live ==> !Step(s, Freeze).accepting && Step(s, Thaw).accepting
  {
  }

  // ----- callers of a stopped mailbox -----

  /** The steps that answer callers of a mailbox without a worker, or end it. */
  predicate Ends(a: Action) { a.Open? || a.Crash? || a.EmergencyDefer? || a.Stop? }

  lemma {:induction false} StaysWaiting(s: State, actions: seq<Action>, t: State, key: Key)
    requires Run(s, actions) == Some(t) && s.live && s.worker == Gone
    requires forall i | 0 <= i < |actions| :: !Ends(actions[i]) && !(actions[i].Submit? && actions[i].key == key)
    ensures t.live && t.worker == Gone && (key in t.futures <==> key in s.futures)
  {
    if actions != [] {
      var last := |actions| - 1;
      StaysWaiting(s, actions[..last], Run(s, actions[..last]).value, key);
      StepLeavesWaiting(Run(s, actions[..last]).value, actions[last], key);
    }
  }

  lemma StepLeavesWaiting(s: State, a: Action, key: Key)
    requires Enabled(s, a) && s.live && s.worker == Gone && !Ends(a) && !(a.Submit? && a.key == key)
    ensures var t := Step(s, a); t.live && t.worker == Gone && (key in t.futures <==> key in s.futures)
  {
  }

  lemma StopAnswersEverybody(s: State, commit: Commit)
    requires Sound(s) && Enabled(s, Stop(commit))
    ensures var t := Step(s, Stop(commit));
      && t.futures == map[] && t.queue == [] && t.live && t.worker == Gone
      && forall k | k in t.replies ::
           t.replies[k] == if k in s.futures then Ambiguous else s.replies[k]
    ensures s.futures.Keys <= Step(s, Stop(commit)).replies.Keys
  {
  }

  /** A submission to a stopped mailbox leaves its caller waiting for ever, unless
      the mailbox is stopped again, exactly when admission is open or the caller
      may pass a closed one, the binding still names the attachment, the key is
      new, and the row is durable and known to be. */
  lemma LateCallerWaits(s: State, key: Key, input: Input, deferrable: bool, allowed: bool, commit: Commit,
                        actions: seq<Action>, t: State)
    requires s.live && s.worker == Gone && key !in s.futures
    requires Run(s, [Submit(key, input, deferrable, allowed, commit)] + actions) == Some(t)
    requires forall i | 0 <= i < |actions| :: !Ends(actions[i]) && !(actions[i].Submit? && actions[i].key == key)
    ensures key in t.futures <==> (s.accepting || allowed) && s.bound && key !in s.rows && commit == Acknowledged
  {
    RunAppend(s, Submit(key, input, deferrable, allowed, commit), actions);
    var v := Admitted(s, key, input, deferrable, allowed, commit);
    StaysWaiting(v, actions, t, key);
  }

  lemma Admitted(s: State, key: Key, input: Input, deferrable: bool, allowed: bool, commit: Commit) returns (t: State)
    requires s.live && key !in s.futures
    ensures t == Step(s, Submit(key, input, deferrable, allowed, commit)) && t.live && t.worker == s.worker
    ensures key in t.futures <==> (s.accepting || allowed) && s.bound && key !in s.rows && commit == Acknowledged
  {
    t := Submitted(s, key, input, deferrable, allowed, commit);
  }

  ghost function StoppedOnce(): State {
    Initial().(fence := 1, held := true, live := true, token := 1, bound := true)
  }

  ghost function OpenedOnce(): State { StoppedOnce().(accepting := true, worker := Idle) }

  lemma OpeningSteps()
    ensures Step(Step(Initial(), TakeOver), Open) == OpenedOnce()
  {
    assert TakenOver(Initial()).rows == map[];
  }

  lemma StoppingSteps()
    ensures Enabled(OpenedOnce(), CancelWorker(Failed)) && Step(OpenedOnce(), CancelWorker(Failed)) == StoppedOnce()
    ensures Enabled(StoppedOnce(), Stop(Failed)) && Step(StoppedOnce(), Stop(Failed)) == StoppedOnce()
  {
    assert AllAmbiguous(StoppedOnce()).replies == map[];
  }

  lemma Opening()
    ensures Run(Initial(), [TakeOver, Open]) == Some(OpenedOnce())
  {
    OpeningSteps();
    RunStep(Initial(), [], Initial(), TakeOver);
    assert [] + [TakeOver] == [TakeOver] && [TakeOver] + [Open] == [TakeOver, Open];
    RunStep(Initial(), [TakeOver], Step(Initial(), TakeOver), Open);
  }

  lemma Stopping()
    ensures Run(Initial(), [TakeOver, Open, CancelWorker(Failed), Stop(Failed)]) == Some(StoppedOnce())
  {
    Opening();
    StoppingSteps();
    RunStep(Initial(), [TakeOver, Open], OpenedOnce(), CancelWorker(Failed));
    assert [TakeOver, Open] + [CancelWorker(Failed)] == [TakeOver, Open, CancelWorker(Failed)];
    RunStep(Initial(), [TakeOver, Open, CancelWorker(Failed)], StoppedOnce(), Stop(Failed));
    assert [TakeOver, Open, CancelWorker(Failed)] + [Stop(Failed)] == [TakeOver, Open, CancelWorker(Failed), Stop(Failed)];
  }

  /** For example right after the first mailbox has been stopped. */
  lemma OneCallerWaits(key: Key, input: Input)
    ensures var t := Run(Initial(), [TakeOver, Open, CancelWorker(Failed), Stop(Failed)] + [Submit(key, input, false, true, Acknowledged)]);
      t.Some? && t.value.worker == Gone && t.value.futures == map[key := input]
  {
    Stopping();
    RunStep(Initial(), [TakeOver, Open, CancelWorker(Failed), Stop(Failed)], StoppedOnce(), Submit(key, input, false, true, Acknowledged));
  }

  lemma {:induction false} RunAppend(s: State, a: Action, actions: seq<Action>)
    requires Enabled(s, a)
    ensures Run(s, [a] + actions) == Run(Step(s, a), actions)
    decreases |actions|
  {
    if actions == [] {
      assert [a] + actions == [a] && [a][..0] == [];
    } else {
      var last := |actions| - 1;
      RunAppend(s, a, actions[..last]);
      assert ([a] + actions)[..|[a] + actions| - 1] == [a] + actions[..last];
    }
  }

  /** What other processes and callers may do while the worker waits. */
  predicate External(a: Action) {
    a.Expire? || a.TakeOver? || a.Rebind? || a.Recover? || a.Freeze? || a.Thaw? || a.Submit?
  }

  // ----- how one operation ends -----

  /** What happened to an operation: its fence was lost before the call or after
      it, or the call ended in some way. */
  datatype Course = LostBefore(code: Code) | Ran(outcome: Outcome) | LostAfter

  function CourseOf(trace: seq<Action>): Option<Course> {
    if trace == [] then None else NextCourse(CourseOf(trace[..|trace| - 1]), trace[|trace| - 1])
  }

  function NextCourse(course: Option<Course>, a: Action): Option<Course> {
    match a
    case Check(valid) => if valid then course else Some(LostBefore(FenceLostBeforeStart))
    case Recheck(valid) => if valid then course else Some(LostBefore(FenceLostBeforeDispatch))
    case Return(outcome) => Some(Ran(outcome))
    case CheckAfter(valid) => if valid then course else Some(LostAfter)
    case _ => course
  }

  /** Steps that leave the worker's own operation alone; its commits are acknowledged. */
  predicate Calm(a: Action) {
    match a
    case Expire | Freeze | Thaw | Submit(_, _, _, _, _) => true
    case Check(_) | Recheck(_) | Dispatch | Return(_) | CheckAfter(_) | SettleDeferred => true
    case Start(commit) => commit == Acknowledged
    case Confirm(commit) => commit == Acknowledged
    case Refuse(commit) => commit == Acknowledged
    case SettleUnknown(commit) => commit == Acknowledged
    case _ => false
  }

  /** What the caller hears and the row says at the end. */
  predicate EndsAs(course: Course, deferrable: bool, reply: Reply, row: Row) {
    match course
    case Ran(Finished) => reply == Result && row.state == Confirmed
    case Ran(RaisedRejected) => reply == WasRejected && row.state == Rejected && row.code == OperationRejected
    case Ran(RaisedDeferred) => reply == WasDeferred && row.state == Rejected && row.code == OperationDeferred
    case Ran(RaisedOther) => reply == Ambiguous && row.state == Unknown && row.code == Raised
    case LostAfter => reply == Ambiguous && row.state == Unknown && row.code == FenceLostAfterDispatch
    case LostBefore(code) =>
      row.code == code
      && if deferrable then reply == WasDeferred && row.state == Rejected else reply == Ambiguous && row.state == Unknown
  }

  /** Where a calm round is, given its course so far. */
  ghost predicate Underway(u: State, item: Item, course: Option<Course>, earlier: seq<Item>) {
    && u.live && u.bound && item.key in u.rows
    && u.dispatched == (if Called(u.worker, course) then earlier + [item] else earlier)
    && var state := u.rows[item.key].state;
       match u.worker
       case Checking(i) => i == item && course.None? && state == Pending
       case Starting(i) => i == item && course.None? && state == Pending
       case Rechecking(i) => i == item && course.None? && state == Started
       case Ready(i) => i == item && course.None? && state == Started
       case Running(i) => i == item && course.None? && state == Started
       case Returned(i) => i == item && course == Some(Ran(Finished)) && state == Started
       case Confirming(i) => i == item && course == Some(Ran(Finished)) && state == Started
       case Refusing(i) => i == item && course == Some(Ran(RaisedRejected)) && state == Started
       case Deferring(i, code) =>
         i == item && (state == Pending || state == Started)
         && ((course == Some(Ran(RaisedDeferred)) && code == OperationDeferred)
             || (course == Some(LostBefore(code)) && item.deferrable))
       case Failing(i, from, code) =>
         i == item && state == from
         && ((course == Some(Ran(RaisedOther)) && code == Raised)
             || (course == Some(LostAfter) && code == FenceLostAfterDispatch)
             || (course == Some(LostBefore(code)) && !item.deferrable))
       case Idle =>
         course.Some? && item.key in u.replies
         && EndsAs(course.value, item.deferrable, u.replies[item.key], u.rows[item.key])
       case Gone => false
  }

  predicate Called(worker: Worker, course: Option<Course>) {
    worker.Running? || (course.Some? && !course.value.LostBefore?)
  }

  lemma CalmStep(u: State, a: Action, item: Item, course: Option<Course>, earlier: seq<Item>)
    requires Underway(u, item, course, earlier) && Enabled(u, a) && Calm(a)
    ensures Underway(Step(u, a), item, NextCourse(course, a), earlier)
  {
    if a.Confirm? || a.Refuse? || a.SettleDeferred? || a.SettleUnknown? {
      CalmEnd(u, a, item, course, earlier);
    } else if a.Submit? {
      CalmSubmit(u, a, item, course, earlier);
    }
  }

  lemma CalmEnd(u: State, a: Action, item: Item, course: Option<Course>, earlier: seq<Item>)
    requires Underway(u, item, course, earlier) && Enabled(u, a) && Calm(a)
    requires a.Confirm? || a.Refuse? || a.SettleDeferred? || a.SettleUnknown?
    ensures Underway(Step(u, a), item, course, earlier) && Step(u, a).worker.Idle?
  {
  }

  lemma CalmSubmit(u: State, a: Action, item: Item, course: Option<Course>, earlier: seq<Item>)
    requires Underway(u, item, course, earlier) && Enabled(u, a) && a.Submit?
    ensures Underway(Step(u, a), item, course, earlier)
  {
  }

  lemma CalmTake(s: State)
    requires Enabled(s, Take) && s.bound && s.queue[0].key in s.rows && s.rows[s.queue[0].key].state == Pending
    ensures Underway(Step(s, Take), s.queue[0], None, s.dispatched)
  {
  }

  /** A round in which every commit is acknowledged and nobody takes the session
      over, binds it anew or recovers it: the caller hears and the row says what
      the call or the lost fence calls for, and the operation is called unless
      its fence was lost before. */
  lemma {:induction false} CalmRound(s: State, trace: seq<Action>, t: State)
    requires Run(s, trace) == Some(t) && trace != [] && trace[0] == Take && s.queue != []
    requires forall i | 1 <= i < |trace| :: Calm(trace[i])
    requires s.bound && s.queue[0].key in s.rows && s.rows[s.queue[0].key].state == Pending
    ensures Underway(t, s.queue[0], CourseOf(trace), s.dispatched)
  {
    var last := |trace| - 1;
    var init, u := trace[..last], Run(s, trace[..last]).value;
    if last == 0 {
      assert init == [] && u == s;
      CalmTake(s);
    } else {
      CalmRound(s, init, u);
      CalmStep(u, trace[last], s.queue[0], CourseOf(init), s.dispatched);
    }
  }

  /** Steps of the worker after it took the operation, or of others. */
  predicate Within(a: Action) {
    External(a) || a.Check? || a.Start? || a.Recheck? || a.Dispatch? || a.Return? || a.CheckAfter?
    || a.Confirm? || a.Refuse? || a.SettleDeferred? || a.SettleUnknown?
  }

  /** The state before the `c`-th step. */
  ghost function Before(s: State, trace: seq<Action>, c: nat): State
    requires c <= |trace|
  {
    var u := Run(s, trace[..c]);
    if u.Some? then u.value else s
  }

  /** The step tells the caller `reply`: an acknowledged commit that found the row
      started under the attachment that is still bound, a deferral, or neither. */
  predicate Tells(u: State, a: Action, key: Key, reply: Reply) {
    var row := if key in u.rows then Some(u.rows[key]) else None;
    var deferred := row.Some? && (row.value.state == Pending || row.value.state == Started
                                  || (row.value.state == Unknown && row.value.code == Takeover));
    match reply
    case Result => a == Confirm(Acknowledged) && u.bound && row.Some? && row.value.state == Started
    case WasRejected => a == Refuse(Acknowledged) && u.bound && row.Some? && row.value.state == Started
    case WasDeferred => a == SettleDeferred && deferred
    case Ambiguous => a.SettleUnknown? || (a == SettleDeferred && !deferred)
  }

  ghost predicate TellsAt(s: State, trace: seq<Action>, c: nat, key: Key, reply: Reply) {
    c < |trace| && Tells(Before(s, trace, c), trace[c], key, reply)
  }

  ghost predicate Told(s: State, trace: seq<Action>, key: Key, reply: Reply) {
    exists c: nat :: TellsAt(s, trace, c, key, reply)
  }

  lemma ToldGrows(s: State, trace: seq<Action>, a: Action, u: State, key: Key, reply: Reply)
    requires Run(s, trace) == Some(u)
    ensures Told(s, trace + [a], key, reply) <==> Told(s, trace, key, reply) || TellsAt(s, trace + [a], |trace|, key, reply)
    ensures Before(s, trace + [a], |trace|) == u
  {
    var more := trace + [a];
    assert more[..|trace|] == trace;
    forall c: nat | c < |trace| ensures TellsAt(s, trace, c, key, reply) <==> TellsAt(s, more, c, key, reply) {
      assert more[..c] == trace[..c];
    }
    if c: nat :| TellsAt(s, trace, c, key, reply) {
      assert TellsAt(s, more, c, key, reply);
    }
  }

  /** What a round has made known, and how it came about. */
  ghost predicate RoundOk(s: State, trace: seq<Action>, u: State, item: Item) {
    && u.worker != Gone && (!u.worker.Idle? ==> u.worker.item == item)
    && (forall reply :: Told(s, trace, item.key, reply) <==>
          u.worker.Idle? && item.key in u.replies && u.replies[item.key] == reply)
    && (u.worker.Idle? ==> item.key in u.replies)
    && (u.worker.Returned? || u.worker.Confirming? || Told(s, trace, item.key, Result) ==> Return(Finished) in trace)
    && (u.worker.Confirming? || Told(s, trace, item.key, Result) ==> CheckAfter(true) in trace)
    && (u.worker.Refusing? || Told(s, trace, item.key, WasRejected) ==> Return(RaisedRejected) in trace)
  }

  /** The step tells the caller exactly what it hears then. */
  ghost predicate Heard(u: State, a: Action, t: State, item: Item) {
    && t.worker != Gone && (!t.worker.Idle? ==> t.worker.item == item)
    && (u.worker.Idle? ==> t.worker.Idle? && t.replies == u.replies && forall reply :: !Tells(u, a, item.key, reply))
    && (!u.worker.Idle? ==> forall reply ::
          Tells(u, a, item.key, reply) <==> t.worker.Idle? && item.key in t.replies && t.replies[item.key] == reply)
    && (!u.worker.Idle? && t.worker.Idle? ==> item.key in t.replies)
  }

  predicate Settling(a: Action) { a.Confirm? || a.Refuse? || a.SettleDeferred? || a.SettleUnknown? }

  lemma SettlingTells(u: State, a: Action, item: Item)
    requires Settling(a) && Enabled(u, a) && u.worker.item == item
    ensures Heard(u, a, Step(u, a), item)
  {
    if a.SettleDeferred? || a.SettleUnknown? { GivingUpTells(u, a, item); }
  }

  lemma GivingUpTells(u: State, a: Action, item: Item)
    requires (a.SettleDeferred? || a.SettleUnknown?) && Enabled(u, a) && u.worker.item == item
    ensures Heard(u, a, Step(u, a), item)
  {
  }

  lemma OthersTellNothing(u: State, a: Action, item: Item)
    requires Within(a) && !Settling(a) && Enabled(u, a) && u.worker != Gone && (!u.worker.Idle? ==> u.worker.item == item)
    ensures Heard(u, a, Step(u, a), item)
  {
    OthersAnswerNobody(u, a);
  }

  lemma OthersAnswerNobody(u: State, a: Action)
    requires Within(a) && !Settling(a) && Enabled(u, a) && u.worker != Gone
    ensures AnswersNobody(u, Step(u, a))
  {
    if External(a) { ExternalAnswersNobody(u, a); }
  }

  lemma ExternalAnswersNobody(u: State, a: Action)
    requires External(a) && Enabled(u, a) && u.worker != Gone
    ensures AnswersNobody(u, Step(u, a))
  {
  }

  predicate AnswersNobody(u: State, t: State) {
    && t.replies == u.replies && t.worker != Gone && (t.worker.Idle? <==> u.worker.Idle?)
    && (!u.worker.Idle? && u.worker != Gone ==> t.worker.item == u.worker.item)
  }

  lemma StepTells(u: State, a: Action, item: Item)
    requires Within(a) && Enabled(u, a) && u.worker != Gone && (!u.worker.Idle? ==> u.worker.item == item)
    ensures Heard(u, a, Step(u, a), item)
  {
    if Settling(a) {
      SettlingTells(u, a, item);
    } else {
      OthersTellNothing(u, a, item);
    }
  }

  /** The ways into the last phases. */
  lemma StepEnters(u: State, a: Action)
    requires Within(a) && Enabled(u, a)
    ensures var w := Step(u, a).worker;
      && (w.Returned? ==> u.worker.Returned? || a == Return(Finished))
      && (w.Confirming? ==> u.worker.Confirming? || (u.worker.Returned? && a == CheckAfter(true)))
      && (w.Refusing? ==> u.worker.Refusing? || a == Return(RaisedRejected))
  {
  }

  lemma TellsFrom(u: State, a: Action, key: Key)
    requires Enabled(u, a)
    ensures Tells(u, a, key, Result) ==> u.worker.Confirming?
    ensures Tells(u, a, key, WasRejected) ==> u.worker.Refusing?
  {
  }

  lemma RoundStep(s: State, trace: seq<Action>, u: State, a: Action, item: Item)
    requires Run(s, trace) == Some(u) && RoundOk(s, trace, u, item) && Within(a) && Enabled(u, a)
    ensures RoundOk(s, trace + [a], Step(u, a), item)
  {
    forall reply
      ensures Told(s, trace + [a], item.key, reply) <==> Told(s, trace, item.key, reply) || Tells(u, a, item.key, reply)
    {
      ToldGrows(s, trace, a, u, item.key, reply);
    }
    StepTells(u, a, item);
    StepEnters(u, a);
    TellsFrom(u, a, item.key);
  }

  /** Whatever happens in a round, the caller hears exactly once, and hears of a
      result if and only if the call returned, the fence was valid afterwards, and
      the row was durably confirmed under the binding; likewise for the others. */
  lemma {:induction false} RoundTells(s: State, trace: seq<Action>, t: State)
    requires Run(s, trace) == Some(t) && trace != [] && trace[0] == Take && s.queue != []
    requires forall i | 1 <= i < |trace| :: Within(trace[i])
    ensures RoundOk(s, trace, t, s.queue[0])
  {
    var last := |trace| - 1;
    var init, u := trace[..last], Run(s, trace[..last]).value;
    if last == 0 {
      assert init == [] && u == s;
    } else {
      RoundTells(s, init, u);
      RoundStep(s, init, u, trace[last], s.queue[0]);
      assert init + [trace[last]] == trace;
    }
  }

  /** `all` goes on from `past` with steps of a round. */
  predicate Extends(past: seq<Action>, all: seq<Action>) {
    past <= all && forall i | |past| <= i < |all| :: Within(all[i])
  }

  /** How a round ends that took the first operation of the queue. */
  ghost predicate RoundEnds(s: State, trace: seq<Action>, t: State)
    requires s.queue != []
  {
    var item := s.queue[0];
    && item.key in t.replies
    && (t.replies[item.key] == Result <==>
          Return(Finished) in trace && CheckAfter(true) in trace && Told(s, trace, item.key, Result))
    && (t.replies[item.key] == WasRejected <==> Return(RaisedRejected) in trace && Told(s, trace, item.key, WasRejected))
    && (t.replies[item.key] == WasDeferred <==> Told(s, trace, item.key, WasDeferred))
    && ((forall i | 1 <= i < |trace| :: Calm(trace[i])) && s.bound && item.key in s.rows && s.rows[item.key].state == Pending ==>
          && CourseOf(trace).Some? && item.key in t.rows
          && EndsAs(CourseOf(trace).value, item.deferrable, t.replies[item.key], t.rows[item.key])
          && t.dispatched == (if CourseOf(trace).value.LostBefore? then s.dispatched else s.dispatched + [item]))
  }

  lemma HowItEnds(s: State, trace: seq<Action>, t: State)
    requires Run(s, trace) == Some(t) && trace != [] && trace[0] == Take && s.queue != [] && t.worker.Idle?
    requires forall i | 1 <= i < |trace| :: Within(trace[i])
    ensures RoundEnds(s, trace, t)
  {
    RoundTells(s, trace, t);
    var item := s.queue[0];
    if (forall i | 1 <= i < |trace| :: Calm(trace[i])) && s.bound && item.key in s.rows && s.rows[item.key].state == Pending {
      CalmRound(s, trace, t);
    }
  }

  // ----- the code -----

  /** The durable rows, the lease and one mailbox at work on them. Every method
      says which steps of the state machine it took, given those taken since `s0`. */
  class Process {
    var rows: map<Key, Row>
    var next: nat
    var fence: nat
    var held: bool
    var live: bool
    var token: nat
    var bound: bool
    var accepting: bool
    var queue: seq<Item>
    var worker: Worker
    var futures: map<Key, Input>
    var dispatched: seq<Item>
    var called: set<Key>
    var owned: set<Key>
    var replies: map<Key, Reply>

    function Current(): State
      reads this
    {
      State(rows, next, fence, held, live, token, bound, accepting, queue, worker, futures, dispatched, called, owned, replies)
    }

    constructor ()
      ensures Current() == Initial()
    {
      rows, next, fence, held := map[], 0, 0, false;
      live, token, bound, accepting, queue, worker, futures := false, 0, false, false, [], Gone, map[];
      dispatched, called, owned, replies := [], {}, {}, map[];
    }

    /** A step that is not the worker's. */
    method Elsewhere(a: Action)
      requires Enabled(Current(), a)
      modifies this
      ensures Current() == Step(old(Current()), a)
    {
      Become(Step(Current(), a));
    }

    method Become(t: State)
      modifies this
      ensures Current() == t
    {
      BecomeDurable(t);
      live, token, bound, accepting, queue, worker, futures :=
        t.live, t.token, t.bound, t.accepting, t.queue, t.worker, t.futures;
    }

    method BecomeDurable(t: State)
      modifies `rows, `next, `fence, `held, `dispatched, `called, `owned, `replies
      ensures rows == t.rows && next == t.next && fence == t.fence && held == t.held
      ensures dispatched == t.dispatched && called == t.called && owned == t.owned && replies == t.replies
    {
      rows, next, fence, held := t.rows, t.next, t.fence, t.held;
      dispatched, called, owned, replies := t.dispatched, t.called, t.owned, t.replies;
    }

    /** The worker waits; anything external may happen. */
    method Meanwhile(ghost s0: State, ghost past: seq<Action>) returns (ghost all: seq<Action>)
      requires Run(s0, past) == Some(Current()) && live
      modifies this
      ensures Run(s0, all) == Some(Current()) && live && worker == old(worker) && Extends(past, all)
    {
      all := past;
      var n: nat := *;
      while n > 0
        invariant Run(s0, all) == Some(Current()) && live && worker == old(worker) && Extends(past, all)
      {
        n := n - 1;
        var a: Action := *;
        if External(a) && Enabled(Current(), a) {
          RunStep(s0, all, Current(), a);
          all := all + [a];
          Elsewhere(a);
        }
      }
    }

    /** The fence validator. */
    method FenceIsValid() returns (valid: bool)
      ensures valid ==> Owns(Current())
    {
      valid := *;
      valid := valid && held && token == fence;
    }

    /** `OperationStore.transition`: guarded by the reducer, and it may fail. */
    method TransitionRow(key: Key, from: OperationState, to: OperationState, code: Code)
      returns (commit: Commit, ok: bool)
      modifies `rows
      ensures rows == Transition(old(Current()), key, from, to, code, commit)
      ensures ok <==> Applies(old(Current()), key, from, commit) && commit == Acknowledged
    {
      ghost var s := Current();
      commit, ok := *, false;
      if commit != Failed && bound && key in rows && rows[key].state == from {
        assert Applies(s, key, from, commit);
        ok := commit == Acknowledged;
        rows := rows[key := rows[key].(state := to, code := code, started := rows[key].started || to == Started)];
        assert rows == Transition(s, key, from, to, code, commit);
      } else {
        assert !Applies(s, key, from, commit);
        assert rows == Transition(s, key, from, to, code, commit);
      }
    }

    method Answer(key: Key, reply: Reply)
      modifies `replies, `futures
      ensures Current() == Replied(old(Current()), key, reply)
    {
      replies := replies[key := reply];
      futures := futures - {key};
    }

    /** `settle_deferred` and the exception that tells the caller. */
    method Defer(key: Key, code: Code)
      modifies `rows, `replies, `futures
      ensures Current() == Deferred(old(Current()), key, code)
    {
      if key in rows && (rows[key].state == Pending || rows[key].state == Started
                         || (rows[key].state == Unknown && rows[key].code == Takeover)) {
        rows := rows[key := rows[key].(state := Rejected, code := code)];
        Answer(key, WasDeferred);
        assert Current() == Deferred(old(Current()), key, code);
      } else {
        Answer(key, Ambiguous);
        assert Current() == Deferred(old(Current()), key, code);
      }
    }

    /** `submit`, up to where it waits for the outcome. */
    method Submit(key: Key, input: Input, deferrable: bool, allowed: bool, commit: Commit)
      modifies `rows, `next, `queue, `futures
      ensures Current() == Submitted(old(Current()), key, input, deferrable, allowed, commit)
    {
      if !accepting && !allowed { return; }
      if key in futures { return; }
      if key in rows { return; }
      if commit == Failed || !bound { return; }
      rows := rows[key := Row(input, token, next, Pending, NoCode, false)];
      if commit == Acknowledged {
        futures := futures[key := input];
        queue := queue + [Item(key, next, deferrable)];
      }
      next := next + 1;
    }

    method TakeItem()
      requires live && worker == Idle && queue != []
      modifies `queue, `worker
      ensures Current() == Taken(old(Current()))
    {
      worker := Checking(queue[0]);
      queue := queue[1..];
    }

    method CheckBeforeStart() returns (ghost valid: bool)
      requires worker.Checking?
      modifies `worker
      ensures (valid ==> Owns(old(Current()))) && Current() == Checked(old(Current()), valid)
    {
      var ok := FenceIsValid();
      valid := ok;
      var item := worker.item;
      if ok {
        worker := Starting(item);
      } else {
        worker := if item.deferrable then Deferring(item, FenceLostBeforeStart) else Failing(item, Pending, FenceLostBeforeStart);
      }
    }

    method MarkStarted() returns (ghost commit: Commit)
      requires worker.Starting?
      modifies `rows, `worker
      ensures Current() == MarkedStarted(old(Current()), commit)
      ensures var item := old(worker).item;
        if commit == Acknowledged && bound && item.key in old(rows) && old(rows)[item.key].state == Pending
        then worker == Rechecking(item) && rows[item.key].state == Started && rows[item.key].started
        else worker == Failing(item, Pending, Raised)
    {
      var item := worker.item;
      var how, ok := TransitionRow(item.key, Pending, Started, NoCode);
      commit := how;
      worker := if ok then Rechecking(item) else Failing(item, Pending, Raised);
    }

    method CheckBeforeDispatch() returns (ghost valid: bool)
      requires worker.Rechecking?
      modifies `worker
      ensures (valid ==> Owns(old(Current()))) && Current() == Rechecked(old(Current()), valid)
    {
      var ok := FenceIsValid();
      valid := ok;
      var item := worker.item;
      if ok {
        worker := Ready(item);
      } else {
        worker := if item.deferrable then Deferring(item, FenceLostBeforeDispatch) else Failing(item, Started, FenceLostBeforeDispatch);
      }
    }

    method CallOperation()
      requires worker.Ready?
      modifies `worker, `dispatched, `called
      ensures Current() == Dispatched(old(Current()))
    {
      dispatched := dispatched + [worker.item];
      called := called + {worker.item.key};
      worker := Running(worker.item);
    }

    method AwaitOperation() returns (ghost outcome: Outcome)
      requires worker.Running?
      modifies `worker
      ensures Current() == ReturnedWith(old(Current()), outcome)
    {
      var result: Outcome := *;
      outcome := result;
      var item := worker.item;
      match result
      case Finished => worker := Returned(item);
      case RaisedRejected => worker := Refusing(item);
      case RaisedDeferred => worker := Deferring(item, OperationDeferred);
      case RaisedOther => worker := Failing(item, Started, Raised);
    }

    method CheckAfterwards() returns (ghost valid: bool)
      requires worker.Returned?
      modifies `worker, `owned
      ensures (valid ==> Owns(old(Current()))) && Current() == CheckedAfter(old(Current()), valid)
    {
      var ok := FenceIsValid();
      valid := ok;
      var item := worker.item;
      if Owns(Current()) { owned := owned + {item.key}; }
      if ok {
        worker := Confirming(item);
      } else {
        worker := Failing(item, Started, FenceLostAfterDispatch);
      }
    }

    method Conclude(to: OperationState, code: Code, reply: Reply, believed: OperationState) returns (ghost commit: Commit)
      requires worker.Confirming? || worker.Refusing?
      modifies `rows, `worker, `replies, `futures
      ensures Current() == Concluded(old(Current()), to, code, reply, believed, commit)
    {
      var item := worker.item;
      var how, ok := TransitionRow(item.key, Started, to, code);
      commit := how;
      if ok {
        Answer(item.key, reply);
        worker := Idle;
        assert Current() == Concluded(old(Current()), to, code, reply, believed, commit);
      } else {
        worker := Failing(item, believed, Raised);
        assert Current() == Concluded(old(Current()), to, code, reply, believed, commit);
      }
    }

    method FinishDeferred()
      requires worker.Deferring?
      modifies `rows, `worker, `replies, `futures
      ensures Current() == SettledDeferred(old(Current()))
    {
      Defer(worker.item.key, worker.code);
      worker := Idle;
    }

    /** `_finish_ambiguous`. */
    method FinishAmbiguous() returns (ghost commit: Commit)
      requires worker.Failing?
      modifies `rows, `worker, `replies, `futures
      ensures Current() == SettledUnknown(old(Current()), commit)
    {
      var item := worker.item;
      var how, ok := TransitionRow(item.key, worker.from, Unknown, worker.code);
      commit := how;
      Answer(item.key, Ambiguous);
      worker := Idle;
    }

    /** `_execute` up to the durable start. */
    method BeforeDispatch(ghost s0: State, ghost past: seq<Action>) returns (ghost all: seq<Action>)
      requires Run(s0, past) == Some(Current()) && live && worker.Checking?
      modifies this
      ensures Run(s0, all) == Some(Current()) && live && Extends(past, all)
      ensures worker.Starting? || worker.Deferring? || worker.Failing?
    {
      ghost var before := Current();
      ghost var valid := CheckBeforeStart();
      RunStep(s0, past, before, Check(valid));
      all := Meanwhile(s0, past + [Check(valid)]);
    }

    method StartDurably(ghost s0: State, ghost past: seq<Action>) returns (ghost all: seq<Action>)
      requires Run(s0, past) == Some(Current()) && live && worker.Starting?
      modifies this
      ensures Run(s0, all) == Some(Current()) && live && Extends(past, all)
      ensures worker.Rechecking? || worker.Failing?
    {
      ghost var before := Current();
      ghost var commit := MarkStarted();
      RunStep(s0, past, before, Start(commit));
      all := Meanwhile(s0, past + [Start(commit)]);
    }

    method CheckAgain(ghost s0: State, ghost past: seq<Action>) returns (ghost all: seq<Action>)
      requires Run(s0, past) == Some(Current()) && live && worker.Rechecking?
      modifies this
      ensures Run(s0, all) == Some(Current()) && live && Extends(past, all)
      ensures worker.Ready? || worker.Deferring? || worker.Failing?
    {
      ghost var before := Current();
      ghost var valid := CheckBeforeDispatch();
      RunStep(s0, past, before, Recheck(valid));
      all := Meanwhile(s0, past + [Recheck(valid)]);
    }

    /** The call itself. */
    method Call(ghost s0: State, ghost past: seq<Action>) returns (ghost all: seq<Action>)
      requires Run(s0, past) == Some(Current()) && live && worker.Ready?
      modifies this
      ensures Run(s0, all) == Some(Current()) && live && Extends(past, all)
      ensures worker.Returned? || worker.Refusing? || worker.Deferring? || worker.Failing?
    {
      ghost var before := Current();
      CallOperation();
      RunStep(s0, past, before, Dispatch);
      all := Meanwhile(s0, past + [Dispatch]);
      before := Current();
      ghost var outcome := AwaitOperation();
      RunStep(s0, all, before, Return(outcome));
      all := Meanwhile(s0, all + [Return(outcome)]);
    }

    method CheckOwnership(ghost s0: State, ghost past: seq<Action>) returns (ghost all: seq<Action>)
      requires Run(s0, past) == Some(Current()) && live && worker.Returned?
      modifies this
      ensures Run(s0, all) == Some(Current()) && live && Extends(past, all)
      ensures worker.Confirming? || worker.Failing?
    {
      ghost var before := Current();
      ghost var valid := CheckAfterwards();
      RunStep(s0, past, before, CheckAfter(valid));
      all := Meanwhile(s0, past + [CheckAfter(valid)]);
    }

    /** Confirm a result or record a refusal. */
    method Settle(ghost s0: State, ghost past: seq<Action>) returns (ghost all: seq<Action>)
      requires Run(s0, past) == Some(Current()) && live && (worker.Confirming? || worker.Refusing?)
      modifies this
      ensures Run(s0, all) == Some(Current()) && live && Extends(past, all)
      ensures worker.Idle? || worker.Failing?
    {
      ghost var before := Current();
      if worker.Confirming? {
        ghost var commit := Conclude(Confirmed, NoCode, Result, Started);
        RunStep(s0, past, before, Confirm(commit));
        all := past + [Confirm(commit)];
      } else {
        ghost var commit := Conclude(Rejected, OperationRejected, WasRejected, Pending);
        RunStep(s0, past, before, Refuse(commit));
        all := past + [Refuse(commit)];
      }
      all := Meanwhile(s0, all);
    }

    /** `_defer_for_fence_loss`, a deferral by the operation, and `_finish_ambiguous`. */
    method GiveUp(ghost s0: State, ghost past: seq<Action>) returns (ghost all: seq<Action>)
      requires Run(s0, past) == Some(Current()) && live && (worker.Deferring? || worker.Failing?)
      modifies this
      ensures Run(s0, all) == Some(Current()) && live && worker.Idle? && Extends(past, all)
    {
      ghost var before := Current();
      if worker.Deferring? {
        FinishDeferred();
        RunStep(s0, past, before, SettleDeferred);
        all := past + [SettleDeferred];
      } else {
        ghost var commit := FinishAmbiguous();
        RunStep(s0, past, before, SettleUnknown(commit));
        all := past + [SettleUnknown(commit)];
      }
    }

    /** One round of `_run`: take the next operation and see it through. With
        everything that happens meanwhile it is a run of the state machine, and
        its end is what the call, the checks and the commits call for. */
    method Execute() returns (ghost trace: seq<Action>)
      requires live && worker == Idle && queue != []
      modifies this
      ensures Run(old(Current()), trace) == Some(Current()) && live && worker == Idle
      ensures RoundEnds(old(Current()), trace, Current())
    {
      ghost var s0 := Current();
      TakeItem();
      RunStep(s0, [], s0, Take);
      trace := Meanwhile(s0, [] + [Take]);
      trace := UpToTheCall(s0, trace);
      trace := FromTheCall(s0, trace);
      HowItEnds(s0, trace, Current());
    }

    method UpToTheCall(ghost s0: State, ghost past: seq<Action>) returns (ghost all: seq<Action>)
      requires Run(s0, past) == Some(Current()) && live && worker.Checking?
      modifies this
      ensures Run(s0, all) == Some(Current()) && live && Extends(past, all)
      ensures worker.Ready? || worker.Deferring? || worker.Failing?
    {
      all := BeforeDispatch(s0, past);
      if worker.Starting? { all := StartDurably(s0, all); }
      if worker.Rechecking? { all := CheckAgain(s0, all); }
    }

    method FromTheCall(ghost s0: State, ghost past: seq<Action>) returns (ghost all: seq<Action>)
      requires Run(s0, past) == Some(Current()) && live && (worker.Ready? || worker.Deferring? || worker.Failing?)
      modifies this
      ensures Run(s0, all) == Some(Current()) && live && worker.Idle? && Extends(past, all)
    {
      all := past;
      if worker.Ready? { all := CallAndCheck(s0, all); }
      if worker.Confirming? || worker.Refusing? { all := Settle(s0, all); }
      if worker.Deferring? || worker.Failing? { all := GiveUp(s0, all); }
    }

    method CallAndCheck(ghost s0: State, ghost past: seq<Action>) returns (ghost all: seq<Action>)
      requires Run(s0, past) == Some(Current()) && live && worker.Ready?
      modifies this
      ensures Run(s0, all) == Some(Current()) && live && Extends(past, all)
      ensures worker.Confirming? || worker.Refusing? || worker.Deferring? || worker.Failing?
    {
      all := Call(s0, past);
      if worker.Returned? { all := CheckOwnership(s0, all); }
    }

    method CancelTheWorker() returns (ghost commit: Commit)
      modifies `rows, `worker, `accepting
      ensures Current() == WorkerCancelled(old(Current()), commit)
    {
      commit := Failed;
      if worker.Running? {
        var how, ok := TransitionRow(worker.item.key, Started, Unknown, MailboxCancelled);
        commit := how;
      }
      worker, accepting := Gone, false;
    }

    method DeferFirst()
      requires queue != []
      modifies `rows, `replies, `futures, `queue
      ensures Current() == EmergencyDeferredFirst(old(Current()))
    {
      Defer(queue[0].key, EmergencyDeferred);
      queue := queue[1..];
    }

    /** `emergency_stop`: what was still queued is deferred, and everybody else
        who waits hears that the outcome is unknown. Others act finitely often
        while it waits, and may submit still. */
    method EmergencyStop() returns (ghost trace: seq<Action>)
      requires live && worker != Gone
      modifies this
      ensures Run(old(Current()), trace) == Some(Current())
      ensures live && worker == Gone && queue == [] && futures == map[]
    {
      ghost var s0 := Current();
      ghost var commit := CancelTheWorker();
      RunStep(s0, [], s0, CancelWorker(commit));
      trace := Meanwhile(s0, [] + [CancelWorker(commit)]);
      trace := DeferAll(s0, trace);
      ghost var before := Current();
      Elsewhere(Stop(Failed));
      RunStep(s0, trace, before, Stop(Failed));
      trace := trace + [Stop(Failed)];
    }

    method DeferAll(ghost s0: State, ghost past: seq<Action>) returns (ghost all: seq<Action>)
      requires Run(s0, past) == Some(Current()) && live && worker == Gone
      modifies this
      ensures Run(s0, all) == Some(Current()) && live && worker == Gone && queue == []
    {
      all := past;
      var waits: nat := *;
      while queue != []
        invariant Run(s0, all) == Some(Current()) && live && worker == Gone
        decreases waits, |queue|
      {
        if waits > 0 {
          waits := waits - 1;
          all := Meanwhile(s0, all);
        }
        if queue != [] { all := DeferNext(s0, all); }
      }
    }

    method DeferNext(ghost s0: State, ghost past: seq<Action>) returns (ghost all: seq<Action>)
      requires Run(s0, past) == Some(Current()) && live && worker == Gone && queue != []
      modifies `rows, `replies, `futures, `queue
      ensures Run(s0, all) == Some(Current()) && queue == old(queue)[1..]
    {
      ghost var before := Current();
      DeferFirst();
      RunStep(s0, past, before, EmergencyDefer);
      all := past + [EmergencyDefer];
    }
  }
}
