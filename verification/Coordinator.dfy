/** The scheduler of logical Discord operations (`discord_requests.py`).

    Requests wait in a bounded queue, one worker starts them, and at most one
    operation per target is active. A request may replace one that waits under
    the same coalesce key; callers of both then share the outcome. Each method
    below is one stretch of code that runs without yielding. */
module Coordinator {
  import opened Options

  type Target = string

  datatype Request = Request(id: nat, target: Target, priority: int, key: Option<string>,
                             terminal: bool, deadline: Option<int>, minInterval: nat)

  datatype Error = Backpressure | Dropped | DeadlineExceeded | Raised(code: int)

  /** The state of one caller's future. */
  datatype Waiter = Pending | Cancelled | Value(result: int) | Failed(error: Error)

  datatype Entry = Entry(sequence: nat, request: Request, waiters: seq<nat>)

  /** An active operation runs its callback, then perhaps reports a failure to
      the log before its callers hear of it, then has settled its callers and
      is about to release its target. */
  datatype Phase = Running | Logging(code: int) | Settled

  datatype Active = Active(entry: Entry, phase: Phase)

  /** The moment an operation was started. */
  datatype Start = Start(at: int, sequence: nat, request: Request)

  datatype Verdict = Accepted(waiter: nat) | Refused(error: Error)

  datatype Turn = Idle(delay: Option<int>) | Missed(missed: Entry) | Started(started: Entry)

  // ----- which request a coalesced entry runs -----

  function LastTerminal(history: seq<Request>): Option<Request> {
    if history == [] then None
    else if history[|history| - 1].terminal then Some(history[|history| - 1])
    else LastTerminal(history[..|history| - 1])
  }

  /** The last terminal request submitted to an entry, or the last one. */
  function Chosen(history: seq<Request>): Request
    requires history != []
  {
    var t := LastTerminal(history);
    if t.Some? then t.value else history[|history| - 1]
  }

  /** Replacing all but a terminal request by a non-terminal one keeps the chosen one. */
  lemma ChosenStepwise(history: seq<Request>, next: Request)
    requires history != []
    ensures Chosen(history + [next]) ==
      if Chosen(history).terminal && !next.terminal then Chosen(history) else next
  {
    assert (history + [next])[..|history|] == history;
    LastTerminalIsTerminal(history);
  }

  lemma LastTerminalIsTerminal(history: seq<Request>)
    ensures LastTerminal(history).Some? ==> LastTerminal(history).value.terminal
    ensures LastTerminal(history).None? && history != [] ==> !history[|history| - 1].terminal
  {
  }

  // ----- scheduling -----

  /** `_request_wait`: how long the target must still rest. */
  function Wait(request: Request, lastStarted: map<Target, int>, now: int): (w: nat) {
    if request.target in lastStarted && lastStarted[request.target] + request.minInterval > now
    then lastStarted[request.target] + request.minInterval - now else 0
  }

  /** The oldest waiting entry of a target that has no active operation. */
  predicate Head(queue: seq<Entry>, activeTargets: set<Target>, i: int)
    requires 0 <= i < |queue|
  {
    queue[i].request.target !in activeTargets
    && forall j | 0 <= j < |queue| && queue[j].request.target == queue[i].request.target ::
         queue[i].sequence <= queue[j].sequence
  }

  predicate Before(a: Entry, b: Entry) {
    a.request.priority < b.request.priority
    || (a.request.priority == b.request.priority && a.sequence <= b.sequence)
  }

  /** Entry `i` is the least ready head by priority, then by sequence. */
  ghost predicate LeastReady(queue: seq<Entry>, activeTargets: set<Target>,
                             lastStarted: map<Target, int>, now: int, i: int)
    requires 0 <= i < |queue|
  {
    && Head(queue, activeTargets, i) && Wait(queue[i].request, lastStarted, now) == 0
    && forall j | 0 <= j < |queue| && Head(queue, activeTargets, j) && Wait(queue[j].request, lastStarted, now) == 0 ::
         Before(queue[i], queue[j])
  }

  /** The target has rested since its last start. */
  predicate Rested(request: Request, lastStarted: map<Target, int>, now: int) {
    request.target in lastStarted ==> lastStarted[request.target] + request.minInterval <= now
  }

  /** Nobody may be started before the least ready head: not a smaller priority,
      and not an older entry of the same priority, among the entries whose target
      is free and rested and has none older. */
  lemma LeastReadyMeans(queue: seq<Entry>, activeTargets: set<Target>, lastStarted: map<Target, int>, now: int, i: nat, j: nat)
    requires i < |queue| && LeastReady(queue, activeTargets, lastStarted, now, i) && j < |queue|
    ensures queue[i].request.target !in activeTargets && Rested(queue[i].request, lastStarted, now)
    ensures queue[j].request.target == queue[i].request.target ==> queue[i].sequence <= queue[j].sequence
    ensures queue[j].request.target !in activeTargets && Rested(queue[j].request, lastStarted, now)
            && (forall k | 0 <= k < |queue| && queue[k].request.target == queue[j].request.target ::
                  queue[j].sequence <= queue[k].sequence)
            ==> queue[i].request.priority < queue[j].request.priority
                || (queue[i].request.priority == queue[j].request.priority && queue[i].sequence <= queue[j].sequence)
  {
  }

  /** The worker sleeps exactly until the first head is rested. */
  lemma ShortestWaitMeans(queue: seq<Entry>, activeTargets: set<Target>, lastStarted: map<Target, int>, now: int,
                          delay: int, later: int)
    requires ShortestWait(queue, activeTargets, lastStarted, now, |queue|, Some(delay)) && delay > 0 && now <= later
    ensures (exists i | 0 <= i < |queue| :: Head(queue, activeTargets, i) && Rested(queue[i].request, lastStarted, later))
            <==> later >= now + delay
  {
  }

  /** `delay` is the shortest wait of a head among the first `n` entries. */
  ghost predicate ShortestWait(queue: seq<Entry>, activeTargets: set<Target>,
                               lastStarted: map<Target, int>, now: int, n: nat, delay: Option<int>)
    requires n <= |queue|
  {
    && (delay.None? ==> forall i | 0 <= i < n :: !Head(queue, activeTargets, i))
    && (delay.Some? ==>
          && (exists i | 0 <= i < n :: Head(queue, activeTargets, i) && Wait(queue[i].request, lastStarted, now) == delay.value)
          && (forall i | 0 <= i < n && Head(queue, activeTargets, i) ::
                Wait(queue[i].request, lastStarted, now) >= delay.value))
  }

  function TargetsOf(active: map<nat, Active>): set<Target> {
    set s | s in active :: active[s].entry.request.target
  }

  // ----- what holds between steps -----

  ghost predicate QueueOk(queue: seq<Entry>, active: map<nat, Active>, sequence: nat) {
    && (forall i, j | 0 <= i < j < |queue| :: queue[i].sequence < queue[j].sequence)
    && (forall i | 0 <= i < |queue| :: queue[i].sequence <= sequence && queue[i].sequence !in active)
    && (forall s | s in active :: active[s].entry.sequence == s && s <= sequence)
  }

  /** No two operations are active on one target. */
  ghost predicate Exclusive(active: map<nat, Active>) {
    forall s, t | s in active && t in active && s != t ::
      active[s].entry.request.target != active[t].entry.request.target
  }

  /** A caller that still waits does so in the one entry it was put into, which
      is queued or active and has not settled its callers yet, unless that entry was
      stranded when the coordinator closed. */
  ghost predicate WaitersOk(queue: seq<Entry>, active: map<nat, Active>, waiters: seq<Waiter>, home: seq<nat>,
                            stranded: set<nat>) {
    && |home| == |waiters|
    && (forall i, w: nat {:trigger w in queue[i].waiters} | 0 <= i < |queue| && w in queue[i].waiters ::
          At(w, queue[i].sequence, waiters, home) && (waiters[w].Pending? || waiters[w].Cancelled?))
    && (forall s, w: nat {:trigger w in active[s].entry.waiters} | s in active && w in active[s].entry.waiters :: At(w, s, waiters, home))
    && (forall w | 0 <= w < |waiters| && waiters[w].Pending? ::
          Queued(queue, home[w], w) || Awaited(active, home[w], w) || home[w] in stranded)
  }

  ghost predicate StrandedOk(queue: seq<Entry>, active: map<nat, Active>, sequence: nat, stranded: set<nat>) {
    && (forall i | 0 <= i < |queue| :: queue[i].sequence !in stranded)
    && (forall k | k in stranded :: k !in active && k <= sequence)
  }

  predicate At(w: nat, sequence: nat, waiters: seq<Waiter>, home: seq<nat>) {
    w < |waiters| && w < |home| && home[w] == sequence
  }

  ghost predicate Queued(queue: seq<Entry>, sequence: nat, w: nat) {
    exists i | 0 <= i < |queue| :: queue[i].sequence == sequence && w in queue[i].waiters
  }

  ghost predicate Awaited(active: map<nat, Active>, sequence: nat, w: nat) {
    sequence in active && w in active[sequence].entry.waiters && !active[sequence].phase.Settled?
  }

  /** Every entry holds the request its submissions call for. */
  ghost predicate ChoiceOk(queue: seq<Entry>, history: map<nat, seq<Request>>, sequence: nat) {
    && (forall s | s in history :: s <= sequence && history[s] != [])
    && (forall i | 0 <= i < |queue| ::
          queue[i].sequence in history && queue[i].request == Chosen(history[queue[i].sequence]))
  }

  /** Every start met its deadline and left its target the minimum rest, and
      ran the request its submissions called for. */
  ghost predicate StartsOk(starts: seq<Start>, lastStarted: map<Target, int>, history: map<nat, seq<Request>>) {
    && (forall i | 0 <= i < |starts| ::
          && (starts[i].request.deadline.Some? ==> starts[i].at < starts[i].request.deadline.value)
          && starts[i].request.target in lastStarted && starts[i].at <= lastStarted[starts[i].request.target]
          && starts[i].sequence in history && history[starts[i].sequence] != []
          && starts[i].request == Chosen(history[starts[i].sequence]))
    && (forall i, j | 0 <= i < j < |starts| && starts[i].request.target == starts[j].request.target ::
          starts[i].at + starts[j].request.minInterval <= starts[j].at)
  }

  /** No entry is started twice. */
  ghost predicate StartedOnce(starts: seq<Start>, queue: seq<Entry>, sequence: nat) {
    && (forall i, j | 0 <= i < j < |starts| :: starts[i].sequence != starts[j].sequence)
    && (forall i, j | 0 <= i < |starts| && 0 <= j < |queue| :: starts[i].sequence != queue[j].sequence)
    && (forall i | 0 <= i < |starts| :: starts[i].sequence <= sequence)
  }

  /** Operations on one target start in the order of their entries. */
  ghost predicate InOrder(starts: seq<Start>, queue: seq<Entry>) {
    && (forall i, j | 0 <= i < j < |starts| && starts[i].request.target == starts[j].request.target ::
          starts[i].sequence < starts[j].sequence)
    && (forall i, j | 0 <= i < |starts| && 0 <= j < |queue| && starts[i].request.target == queue[j].request.target ::
          starts[i].sequence < queue[j].sequence)
  }

  /** Every operation started on the target so far is older than entry `sequence`. */
  ghost predicate Behind(starts: seq<Start>, target: Target, sequence: nat) {
    forall k | 0 <= k < |starts| && starts[k].request.target == target :: starts[k].sequence < sequence
  }

  /** What one step does to the callers: nobody is settled twice. */
  ghost predicate OnlySettles(before: seq<Waiter>, after: seq<Waiter>) {
    && |before| <= |after|
    && forall w | 0 <= w < |before| && !before[w].Pending? :: after[w] == before[w]
  }

  /** Exactly the callers of the entry that still waited hear the outcome. */
  ghost predicate Hear(before: seq<Waiter>, after: seq<Waiter>, entry: Entry, outcome: Waiter) {
    && |after| == |before|
    && forall w | 0 <= w < |before| ::
         after[w] == if before[w].Pending? && w in entry.waiters then outcome else before[w]
  }

  /** `_fail_waiters` and its counterpart for results: callers that still wait get the outcome. */
  function Settle(waiters: seq<Waiter>, entry: Entry, outcome: Waiter): (r: seq<Waiter>)
    ensures |r| == |waiters|
    ensures forall w | 0 <= w < |waiters| ::
      r[w] == if waiters[w].Pending? && w in entry.waiters then outcome else waiters[w]
  {
    seq(|waiters|, w requires 0 <= w < |waiters| =>
      if waiters[w].Pending? && w in entry.waiters then outcome else waiters[w])
  }

  // ----- the steps keep it -----

  lemma EnqueueKeeps(queue: seq<Entry>, active: map<nat, Active>, waiters: seq<Waiter>, home: seq<nat>, stranded: set<nat>,
                     sequence: nat, request: Request)
    requires QueueOk(queue, active, sequence) && WaitersOk(queue, active, waiters, home, stranded)
    requires StrandedOk(queue, active, sequence, stranded)
    ensures var e := Entry(sequence + 1, request, [|waiters|]);
      && StrandedOk(queue + [e], active, sequence + 1, stranded)
      && QueueOk(queue + [e], active, sequence + 1)
      && WaitersOk(queue + [e], active, waiters + [Pending], home + [sequence + 1], stranded)
  {
    var e := Entry(sequence + 1, request, [|waiters|]);
    var q, h := queue + [e], home + [sequence + 1];
    forall w | 0 <= w < |waiters + [Pending]| && (waiters + [Pending])[w].Pending?
      ensures Queued(q, h[w], w) || Awaited(active, h[w], w) || h[w] in stranded
    {
      if w == |waiters| {
        assert q[|queue|] == e;
      } else if Queued(queue, home[w], w) {
        var i :| 0 <= i < |queue| && queue[i].sequence == home[w] && w in queue[i].waiters;
        assert q[i] == queue[i];
      }
    }
  }

  lemma JoinKeeps(queue: seq<Entry>, active: map<nat, Active>, waiters: seq<Waiter>, home: seq<nat>, stranded: set<nat>,
                  sequence: nat, i: nat, request: Request)
    requires QueueOk(queue, active, sequence) && WaitersOk(queue, active, waiters, home, stranded) && i < |queue|
    ensures var q := queue[i := Entry(queue[i].sequence, request, queue[i].waiters + [|waiters|])];
      && QueueOk(q, active, sequence)
      && WaitersOk(q, active, waiters + [Pending], home + [queue[i].sequence], stranded)
  {
    var e := Entry(queue[i].sequence, request, queue[i].waiters + [|waiters|]);
    var q, h := queue[i := e], home + [queue[i].sequence];
    forall w | 0 <= w < |waiters + [Pending]| && (waiters + [Pending])[w].Pending?
      ensures Queued(q, h[w], w) || Awaited(active, h[w], w) || h[w] in stranded
    {
      if w == |waiters| {
        assert q[i] == e;
      } else if Queued(queue, home[w], w) {
        var j :| 0 <= j < |queue| && queue[j].sequence == home[w] && w in queue[j].waiters;
        assert q[j].sequence == home[w] && w in q[j].waiters;
      }
    }
  }

  /** The queue without its `i`-th entry. */
  function Without(queue: seq<Entry>, i: nat): (q: seq<Entry>)
    requires i < |queue|
    ensures |q| == |queue| - 1
    ensures forall j | 0 <= j < |q| :: q[j] == queue[if j < i then j else j + 1]
  {
    queue[..i] + queue[i + 1..]
  }

  lemma StillQueued(queue: seq<Entry>, i: nat, sequence: nat, w: nat)
    requires i < |queue| && Queued(queue, sequence, w) && queue[i].sequence != sequence
    ensures Queued(Without(queue, i), sequence, w)
  {
    var j :| 0 <= j < |queue| && queue[j].sequence == sequence && w in queue[j].waiters;
    assert Without(queue, i)[if j < i then j else j - 1] == queue[j];
  }

  /** Taking an entry out of the queue, once its callers are settled. */
  lemma DropKeeps(queue: seq<Entry>, active: map<nat, Active>, waiters: seq<Waiter>, waiters': seq<Waiter>,
                  home: seq<nat>, stranded: set<nat>, sequence: nat, i: nat)
    requires QueueOk(queue, active, sequence) && WaitersOk(queue, active, waiters, home, stranded) && i < |queue|
    requires |waiters'| == |waiters|
    requires forall w | 0 <= w < |waiters| && w in queue[i].waiters :: !waiters'[w].Pending?
    requires forall w | 0 <= w < |waiters| && w !in queue[i].waiters :: waiters'[w] == waiters[w]
    ensures QueueOk(Without(queue, i), active, sequence)
    ensures WaitersOk(Without(queue, i), active, waiters', home, stranded)
  {
    var q := Without(queue, i);
    forall j, w: nat | 0 <= j < |q| && w in q[j].waiters
      ensures At(w, q[j].sequence, waiters', home) && (waiters'[w].Pending? || waiters'[w].Cancelled?)
    {
      var j0 := if j < i then j else j + 1;
      assert w in queue[j0].waiters;
      assert w !in queue[i].waiters;
    }
    forall w | 0 <= w < |waiters'| && waiters'[w].Pending?
      ensures Queued(q, home[w], w) || Awaited(active, home[w], w) || home[w] in stranded
    {
      if Queued(queue, home[w], w) {
        var j :| 0 <= j < |queue| && queue[j].sequence == home[w] && w in queue[j].waiters;
        assert j != i;
        StillQueued(queue, i, home[w], w);
      }
    }
  }

  /** Starting an entry moves its callers along with it. */
  lemma BeginKeeps(queue: seq<Entry>, active: map<nat, Active>, waiters: seq<Waiter>,
                   home: seq<nat>, stranded: set<nat>, sequence: nat, i: nat)
    requires QueueOk(queue, active, sequence) && WaitersOk(queue, active, waiters, home, stranded) && i < |queue|
    ensures var a := active[queue[i].sequence := Active(queue[i], Running)];
      QueueOk(Without(queue, i), a, sequence) && WaitersOk(Without(queue, i), a, waiters, home, stranded)
  {
    var q, a := Without(queue, i), active[queue[i].sequence := Active(queue[i], Running)];
    forall w | 0 <= w < |waiters| && waiters[w].Pending?
      ensures Queued(q, home[w], w) || Awaited(a, home[w], w) || home[w] in stranded
    {
      if Queued(queue, home[w], w) {
        var j :| 0 <= j < |queue| && queue[j].sequence == home[w] && w in queue[j].waiters;
        if j != i { StillQueued(queue, i, home[w], w); }
      } else if Awaited(active, home[w], w) {
        assert home[w] in active;
      }
    }
  }

  /** Settling callers of an active entry. */
  lemma SettleKeeps(queue: seq<Entry>, active: map<nat, Active>, waiters: seq<Waiter>,
                    home: seq<nat>, stranded: set<nat>, s: nat, outcome: Waiter)
    requires WaitersOk(queue, active, waiters, home, stranded) && s in active && !outcome.Pending?
    requires forall i | 0 <= i < |queue| :: queue[i].sequence != s
    ensures WaitersOk(queue, active[s := active[s].(phase := Settled)], Settle(waiters, active[s].entry, outcome), home, stranded)
  {
    var e := active[s].entry;
    var a, ws := active[s := active[s].(phase := Settled)], Settle(waiters, e, outcome);
    forall i, w: nat | 0 <= i < |queue| && w in queue[i].waiters
      ensures At(w, queue[i].sequence, ws, home) && (ws[w].Pending? || ws[w].Cancelled?)
    {
      assert w !in e.waiters;
    }
    forall w | 0 <= w < |ws| && ws[w].Pending?
      ensures Queued(queue, home[w], w) || Awaited(a, home[w], w) || home[w] in stranded
    {
      assert waiters[w].Pending? && w !in e.waiters;
    }
  }

  lemma StartKeeps(starts: seq<Start>, lastStarted: map<Target, int>, history: map<nat, seq<Request>>,
                   queue: seq<Entry>, active: map<nat, Active>, sequence: nat, i: nat, now: int)
    requires StartsOk(starts, lastStarted, history) && ChoiceOk(queue, history, sequence)
    requires StartedOnce(starts, queue, sequence) && QueueOk(queue, active, sequence)
    requires i < |queue| && Wait(queue[i].request, lastStarted, now) == 0
    requires queue[i].request.deadline.Some? ==> now < queue[i].request.deadline.value
    ensures var started := starts + [Start(now, queue[i].sequence, queue[i].request)];
      && StartsOk(started, lastStarted[queue[i].request.target := now], history)
      && StartedOnce(started, Without(queue, i), sequence)
      && ChoiceOk(Without(queue, i), history, sequence)
  {
    var started := starts + [Start(now, queue[i].sequence, queue[i].request)];
    var last := lastStarted[queue[i].request.target := now];
    forall a, b | 0 <= a < b < |started| && started[a].request.target == started[b].request.target
      ensures started[a].at + started[b].request.minInterval <= started[b].at
    {
      assert started[a] == starts[a];
      if b < |starts| { assert started[b] == starts[b]; }
    }
  }

  lemma StartInOrder(starts: seq<Start>, queue: seq<Entry>, active: map<nat, Active>, sequence: nat,
                     i: nat, now: int, activeTargets: set<Target>)
    requires InOrder(starts, queue) && QueueOk(queue, active, sequence)
    requires i < |queue| && Head(queue, activeTargets, i)
    ensures InOrder(starts + [Start(now, queue[i].sequence, queue[i].request)], Without(queue, i))
  {
    var started := starts + [Start(now, queue[i].sequence, queue[i].request)];
    var q := Without(queue, i);
    forall a, j | 0 <= a < |started| && 0 <= j < |q| && started[a].request.target == q[j].request.target
      ensures started[a].sequence < q[j].sequence
    {
      var j0 := if j < i then j else j + 1;
      assert q[j] == queue[j0];
      if a < |starts| { assert started[a] == starts[a]; }
    }
  }

  /** Whether anybody still cares for an entry. */
  predicate Wanted(entry: Entry, waiters: seq<Waiter>) {
    exists w | w in entry.waiters :: w < |waiters| && !waiters[w].Cancelled?
  }

  predicate Fits(queue: seq<Entry>, waiters: seq<Waiter>, key: Option<string>, i: int)
    requires 0 <= i < |queue|
  {
    key.Some? && queue[i].request.key == key && Wanted(queue[i], waiters)
  }

  /** The entry that a request under the key joins. */
  predicate FirstFit(queue: seq<Entry>, waiters: seq<Waiter>, key: Option<string>, i: int)
    requires 0 <= i < |queue|
  {
    Fits(queue, waiters, key, i) && forall j | 0 <= j < i :: !Fits(queue, waiters, key, j)
  }

  lemma DropOthers(starts: seq<Start>, history: map<nat, seq<Request>>, queue: seq<Entry>, sequence: nat, i: nat)
    requires i < |queue| && ChoiceOk(queue, history, sequence) && StartedOnce(starts, queue, sequence)
    ensures ChoiceOk(Without(queue, i), history, sequence) && StartedOnce(starts, Without(queue, i), sequence)
    ensures InOrder(starts, queue) ==> InOrder(starts, Without(queue, i))
  {
  }

  lemma SubmitKeeps(starts: seq<Start>, lastStarted: map<Target, int>, history: map<nat, seq<Request>>,
                    queue: seq<Entry>, active: map<nat, Active>, sequence: nat, request: Request, w: nat)
    requires ChoiceOk(queue, history, sequence) && StartedOnce(starts, queue, sequence)
    requires StartsOk(starts, lastStarted, history)
    ensures var q, h := queue + [Entry(sequence + 1, request, [w])], history[sequence + 1 := [request]];
      && ChoiceOk(q, h, sequence + 1) && StartedOnce(starts, q, sequence + 1) && StartsOk(starts, lastStarted, h)
      && (InOrder(starts, queue) ==> InOrder(starts, q))
  {
    assert LastTerminal([request]) == if request.terminal then Some(request) else None;
  }

  lemma CoalesceKeeps(starts: seq<Start>, lastStarted: map<Target, int>, history: map<nat, seq<Request>>,
                      queue: seq<Entry>, active: map<nat, Active>, sequence: nat, i: nat, request: Request, w: nat)
    requires ChoiceOk(queue, history, sequence) && StartedOnce(starts, queue, sequence)
    requires QueueOk(queue, active, sequence) && StartsOk(starts, lastStarted, history) && i < |queue|
    ensures var s := queue[i].sequence;
      var kept := if queue[i].request.terminal && !request.terminal then queue[i].request else request;
      var q, h := queue[i := Entry(s, kept, queue[i].waiters + [w])], history[s := history[s] + [request]];
      && ChoiceOk(q, h, sequence) && StartedOnce(starts, q, sequence) && StartsOk(starts, lastStarted, h)
      && (InOrder(starts, queue) ==> (InOrder(starts, q) <==> Behind(starts, kept.target, s)))
  {
    ChosenStepwise(history[queue[i].sequence], request);
    var kept := if queue[i].request.terminal && !request.terminal then queue[i].request else request;
    assert queue[i := Entry(queue[i].sequence, kept, queue[i].waiters + [w])][i].request == kept;
  }

  // ----- one state, and what each step makes of it -----

  datatype State = State(queue: seq<Entry>, active: map<nat, Active>, activeTargets: set<Target>,
                         lastStarted: map<Target, int>, waiters: seq<Waiter>, sequence: nat, closing: bool,
                         home: seq<nat>, history: map<nat, seq<Request>>, starts: seq<Start>,
                         consistent: bool, stranded: set<nat>)

  /** Everything that holds between steps. `home` says in which entry a caller
      was put, `history` what was submitted to an entry, and `consistent` that
      no coalesced request moved its entry to a target on which a younger
      operation had been started. */
  ghost predicate Sound(limit: nat, maxConcurrency: nat, s: State) {
    && |s.queue| <= limit && |s.active| <= maxConcurrency
    && s.activeTargets == TargetsOf(s.active) && Exclusive(s.active)
    && QueueOk(s.queue, s.active, s.sequence) && WaitersOk(s.queue, s.active, s.waiters, s.home, s.stranded)
    && ChoiceOk(s.queue, s.history, s.sequence) && StartsOk(s.starts, s.lastStarted, s.history)
    && StartedOnce(s.starts, s.queue, s.sequence) && (s.consistent ==> InOrder(s.starts, s.queue))
    && (s.stranded != {} ==> s.closing) && StrandedOk(s.queue, s.active, s.sequence, s.stranded)
  }

  ghost function Enqueued(s: State, request: Request): State {
    s.(queue := s.queue + [Entry(s.sequence + 1, request, [|s.waiters|])],
       waiters := s.waiters + [Pending], sequence := s.sequence + 1,
       home := s.home + [s.sequence + 1], history := s.history[s.sequence + 1 := [request]])
  }

  ghost function Joined(s: State, i: nat, request: Request): State
    requires i < |s.queue| && s.queue[i].sequence in s.history
  {
    var e := s.queue[i];
    var kept := if e.request.terminal && !request.terminal then e.request else request;
    s.(queue := s.queue[i := Entry(e.sequence, kept, e.waiters + [|s.waiters|])],
       waiters := s.waiters + [Pending], home := s.home + [e.sequence],
       history := s.history[e.sequence := s.history[e.sequence] + [request]],
       consistent := s.consistent && Behind(s.starts, kept.target, e.sequence))
  }

  /** The `i`-th entry leaves the queue and its callers get `outcome`. */
  ghost function Removed(s: State, i: nat, outcome: Waiter): State
    requires i < |s.queue|
  {
    s.(queue := Without(s.queue, i), waiters := Settle(s.waiters, s.queue[i], outcome))
  }

  ghost function Begun(s: State, i: nat, now: int): State
    requires i < |s.queue|
  {
    var e := s.queue[i];
    s.(queue := Without(s.queue, i), active := s.active[e.sequence := Active(e, Running)],
       activeTargets := s.activeTargets + {e.request.target},
       lastStarted := s.lastStarted[e.request.target := now],
       starts := s.starts + [Start(now, e.sequence, e.request)])
  }

  ghost function Finished(s: State, k: nat, outcome: Waiter): State
    requires k in s.active
  {
    s.(active := s.active[k := s.active[k].(phase := Settled)],
       waiters := Settle(s.waiters, s.active[k].entry, outcome))
  }

  ghost function Released(s: State, k: nat): State
    requires k in s.active
  {
    s.(active := s.active - {k}, activeTargets := s.activeTargets - {s.active[k].entry.request.target})
  }

  lemma EnqueueSound(limit: nat, maxConcurrency: nat, s: State, request: Request)
    requires Sound(limit, maxConcurrency, s) && |s.queue| < limit
    ensures Sound(limit, maxConcurrency, Enqueued(s, request))
  {
    EnqueueQueueSound(s, request);
    EnqueueHistorySound(s, request);
  }

  lemma EnqueueQueueSound(s: State, request: Request)
    requires QueueOk(s.queue, s.active, s.sequence) && WaitersOk(s.queue, s.active, s.waiters, s.home, s.stranded)
    requires StrandedOk(s.queue, s.active, s.sequence, s.stranded)
    ensures var t := Enqueued(s, request);
      && QueueOk(t.queue, t.active, t.sequence) && WaitersOk(t.queue, t.active, t.waiters, t.home, t.stranded)
      && StrandedOk(t.queue, t.active, t.sequence, t.stranded)
  {
    EnqueueKeeps(s.queue, s.active, s.waiters, s.home, s.stranded, s.sequence, request);
  }

  lemma EnqueueHistorySound(s: State, request: Request)
    requires ChoiceOk(s.queue, s.history, s.sequence) && StartsOk(s.starts, s.lastStarted, s.history)
    requires StartedOnce(s.starts, s.queue, s.sequence)
    ensures var t := Enqueued(s, request);
      && ChoiceOk(t.queue, t.history, t.sequence) && StartsOk(t.starts, t.lastStarted, t.history)
      && StartedOnce(t.starts, t.queue, t.sequence)
      && (InOrder(s.starts, s.queue) ==> InOrder(t.starts, t.queue))
  {
    SubmitKeeps(s.starts, s.lastStarted, s.history, s.queue, s.active, s.sequence, request, |s.waiters|);
  }

  lemma JoinSound(limit: nat, maxConcurrency: nat, s: State, i: nat, request: Request)
    requires Sound(limit, maxConcurrency, s) && i < |s.queue|
    ensures s.queue[i].sequence in s.history && Sound(limit, maxConcurrency, Joined(s, i, request))
  {
    var e := s.queue[i];
    JoinKeeps(s.queue, s.active, s.waiters, s.home, s.stranded, s.sequence, i,
              if e.request.terminal && !request.terminal then e.request else request);
    CoalesceKeeps(s.starts, s.lastStarted, s.history, s.queue, s.active, s.sequence, i, request, |s.waiters|);
  }

  /** An entry may leave the queue once all its callers are settled. */
  lemma RemoveSound(limit: nat, maxConcurrency: nat, s: State, i: nat, outcome: Waiter)
    requires Sound(limit, maxConcurrency, s) && i < |s.queue| && !outcome.Pending?
    ensures Sound(limit, maxConcurrency, Removed(s, i, outcome))
  {
    DropKeeps(s.queue, s.active, s.waiters, Settle(s.waiters, s.queue[i], outcome), s.home, s.stranded, s.sequence, i);
    DropOthers(s.starts, s.history, s.queue, s.sequence, i);
  }

  lemma BeginSound(limit: nat, maxConcurrency: nat, s: State, i: nat, now: int)
    requires Sound(limit, maxConcurrency, s) && i < |s.queue| && |s.active| < maxConcurrency
    requires Head(s.queue, s.activeTargets, i) && Wait(s.queue[i].request, s.lastStarted, now) == 0
    requires s.queue[i].request.deadline.Some? ==> now < s.queue[i].request.deadline.value
    ensures Sound(limit, maxConcurrency, Begun(s, i, now))
  {
    var e := s.queue[i];
    BeginKeeps(s.queue, s.active, s.waiters, s.home, s.stranded, s.sequence, i);
    StartKeeps(s.starts, s.lastStarted, s.history, s.queue, s.active, s.sequence, i, now);
    if s.consistent { StartInOrder(s.starts, s.queue, s.active, s.sequence, i, now, s.activeTargets); }
    TargetStarted(s.active, e.sequence, e);
  }

  lemma TargetStarted(active: map<nat, Active>, k: nat, e: Entry)
    requires k !in active && e.request.target !in TargetsOf(active) && Exclusive(active)
    ensures TargetsOf(active[k := Active(e, Running)]) == TargetsOf(active) + {e.request.target}
    ensures Exclusive(active[k := Active(e, Running)])
  {
    var a := active[k := Active(e, Running)];
    forall t | t in TargetsOf(active) + {e.request.target} ensures t in TargetsOf(a) {
      if t == e.request.target { assert a[k].entry.request.target == t; }
      else {
        var s :| s in active && active[s].entry.request.target == t;
        assert a[s].entry.request.target == t;
      }
    }
    forall s, t | s in a && t in a && s != t ensures a[s].entry.request.target != a[t].entry.request.target {
      if s == k { assert active[t].entry.request.target in TargetsOf(active); }
      else if t == k { assert active[s].entry.request.target in TargetsOf(active); }
    }
  }

  lemma FinishSound(limit: nat, maxConcurrency: nat, s: State, k: nat, outcome: Waiter)
    requires Sound(limit, maxConcurrency, s) && k in s.active && !outcome.Pending?
    ensures Sound(limit, maxConcurrency, Finished(s, k, outcome))
  {
    SettleKeeps(s.queue, s.active, s.waiters, s.home, s.stranded, k, outcome);
    var a := s.active[k := s.active[k].(phase := Settled)];
    SameTargets(s.active, a);
  }

  lemma SameTargets(a: map<nat, Active>, b: map<nat, Active>)
    requires a.Keys == b.Keys && forall s | s in a :: a[s].entry == b[s].entry
    ensures TargetsOf(a) == TargetsOf(b) && |a| == |b| && (Exclusive(a) ==> Exclusive(b))
  {
    forall t | t in TargetsOf(a) ensures t in TargetsOf(b) {
      var s :| s in a && a[s].entry.request.target == t;
      assert b[s].entry.request.target == t;
    }
    forall t | t in TargetsOf(b) ensures t in TargetsOf(a) {
      var s :| s in b && b[s].entry.request.target == t;
      assert a[s].entry.request.target == t;
    }
    assert |a.Keys| == |a| && |b.Keys| == |b|;
  }

  /** An operation that settled its callers frees its target. */
  lemma ReleaseSound(limit: nat, maxConcurrency: nat, s: State, k: nat)
    requires Sound(limit, maxConcurrency, s) && k in s.active && s.active[k].phase.Settled?
    ensures Sound(limit, maxConcurrency, Released(s, k))
  {
    var a := s.active - {k};
    forall w | 0 <= w < |s.waiters| && s.waiters[w].Pending?
      ensures Queued(s.queue, s.home[w], w) || Awaited(a, s.home[w], w) || s.home[w] in s.stranded
    {
    }
    TargetFreed(s.active, k);
  }

  lemma TargetFreed(active: map<nat, Active>, k: nat)
    requires k in active && Exclusive(active)
    ensures TargetsOf(active - {k}) == TargetsOf(active) - {active[k].entry.request.target}
    ensures Exclusive(active - {k}) && |active - {k}| == |active| - 1
  {
    var a := active - {k};
    forall t | t in TargetsOf(active) - {active[k].entry.request.target} ensures t in TargetsOf(a) {
      var s :| s in active && active[s].entry.request.target == t;
      assert s in a;
    }
    assert a.Keys == active.Keys - {k};
    assert |a.Keys| == |a| && |active.Keys| == |active|;
  }

  /** A failed operation reports to the log before its callers hear of it. */
  ghost function Troubled(s: State, k: nat, code: int): State
    requires k in s.active
  {
    s.(active := s.active[k := s.active[k].(phase := Logging(code))])
  }

  lemma TroubleSound(limit: nat, maxConcurrency: nat, s: State, k: nat, code: int)
    requires Sound(limit, maxConcurrency, s) && k in s.active && s.active[k].phase.Running?
    ensures Sound(limit, maxConcurrency, Troubled(s, k, code))
  {
    var a := s.active[k := s.active[k].(phase := Logging(code))];
    forall w | 0 <= w < |s.waiters| && s.waiters[w].Pending?
      ensures Queued(s.queue, s.home[w], w) || Awaited(a, s.home[w], w) || s.home[w] in s.stranded
    {
    }
    SameTargets(s.active, a);
  }

  /** An operation that is cancelled while it reports to the log ends without
      settling its callers. */
  ghost function Abandoned(s: State, k: nat): State
    requires k in s.active
  {
    Released(s, k).(stranded := s.stranded + {k})
  }

  lemma AbandonSound(limit: nat, maxConcurrency: nat, s: State, k: nat)
    requires Sound(limit, maxConcurrency, s) && k in s.active && s.closing
    ensures Sound(limit, maxConcurrency, Abandoned(s, k))
  {
    var a := s.active - {k};
    forall w | 0 <= w < |s.waiters| && s.waiters[w].Pending?
      ensures Queued(s.queue, s.home[w], w) || Awaited(a, s.home[w], w) || s.home[w] in s.stranded + {k}
    {
    }
    TargetFreed(s.active, k);
  }

  lemma CancelSound(limit: nat, maxConcurrency: nat, s: State, w: nat)
    requires Sound(limit, maxConcurrency, s) && w < |s.waiters|
    ensures Sound(limit, maxConcurrency, s.(waiters := s.waiters[w := Cancelled]))
  {
    var ws := s.waiters[w := Cancelled];
    forall v | 0 <= v < |ws| && ws[v].Pending?
      ensures Queued(s.queue, s.home[v], v) || Awaited(s.active, s.home[v], v) || s.home[v] in s.stranded
    {
      assert s.waiters[v].Pending?;
    }
  }

  /** An entry whose callers all gave up may be forgotten. */
  lemma SkipSound(limit: nat, maxConcurrency: nat, s: State, i: nat)
    requires Sound(limit, maxConcurrency, s) && i < |s.queue| && !Wanted(s.queue[i], s.waiters)
    ensures Sound(limit, maxConcurrency, s.(queue := Without(s.queue, i)))
  {
    RemoveSound(limit, maxConcurrency, s, i, Cancelled);
    assert Settle(s.waiters, s.queue[i], Cancelled) == s.waiters;
    assert Removed(s, i, Cancelled) == s.(queue := Without(s.queue, i));
  }

  /** Of the queue `before`, nothing but unwanted entries is gone, and the first
      `n` that are left are wanted. */
  ghost predicate Pruned(before: seq<Entry>, after: seq<Entry>, waiters: seq<Waiter>, n: nat) {
    && (forall e | e in after :: e in before)
    && (forall e | e in before && e !in after :: !Wanted(e, waiters))
    && (forall j | 0 <= j < n && j < |after| :: Wanted(after[j], waiters))
  }

  lemma PruneOne(before: seq<Entry>, after: seq<Entry>, waiters: seq<Waiter>, i: nat)
    requires Pruned(before, after, waiters, i) && i < |after| && !Wanted(after[i], waiters)
    ensures Pruned(before, Without(after, i), waiters, i)
  {
    forall e | e in after && e != after[i] ensures e in Without(after, i) {
      var j :| 0 <= j < |after| && after[j] == e;
      assert Without(after, i)[if j < i then j else j - 1] == e;
    }
  }

  /** Closing has failed the callers of the entries that left the queue. */
  ghost predicate Failing(queue0: seq<Entry>, queue: seq<Entry>, waiters0: seq<Waiter>, waiters: seq<Waiter>,
                          home: seq<nat>)
  {
    && |waiters| == |waiters0| == |home|
    && (forall w | 0 <= w < |waiters| && Queued(queue, home[w], w) :: Queued(queue0, home[w], w))
    && (forall w | 0 <= w < |waiters| ::
          waiters[w] == if Queued(queue0, home[w], w) && !Queued(queue, home[w], w) && waiters0[w].Pending?
                        then Failed(Backpressure) else waiters0[w])
  }

  lemma FailFirst(limit: nat, maxConcurrency: nat, s: State, queue0: seq<Entry>, waiters0: seq<Waiter>)
    requires Sound(limit, maxConcurrency, s) && s.queue != []
    requires Failing(queue0, s.queue, waiters0, s.waiters, s.home)
    ensures var t := Removed(s, 0, Failed(Backpressure));
      Failing(queue0, t.queue, waiters0, t.waiters, t.home)
  {
    var q := Without(s.queue, 0);
    forall w | 0 <= w < |s.waiters|
      ensures Queued(q, s.home[w], w) <==> Queued(s.queue, s.home[w], w) && w !in s.queue[0].waiters
    {
      if Queued(s.queue, s.home[w], w) {
        if w in s.queue[0].waiters {
          assert At(w, s.queue[0].sequence, s.waiters, s.home);
          assert forall j | 0 <= j < |q| :: q[j].sequence > s.queue[0].sequence;
        } else {
          var j :| 0 <= j < |s.queue| && s.queue[j].sequence == s.home[w] && w in s.queue[j].waiters;
          assert q[j - 1] == s.queue[j];
        }
      }
      if Queued(q, s.home[w], w) {
        var j :| 0 <= j < |q| && q[j].sequence == s.home[w] && w in q[j].waiters;
        assert s.queue[j + 1] == q[j];
      }
    }
    forall w: nat | w in s.queue[0].waiters ensures w < |s.waiters| && Queued(s.queue, s.home[w], w) {
      assert At(w, s.queue[0].sequence, s.waiters, s.home);
    }
  }

  /** Cancelling an active operation. */
  ghost function Ended(s: State, k: nat): State
    requires k in s.active
  {
    match s.active[k].phase
    case Running => Released(Finished(s, k, Failed(Backpressure)), k)
    case Logging(_) => Abandoned(s, k)
    case Settled => Released(s, k)
  }

  lemma EndSound(limit: nat, maxConcurrency: nat, s: State, k: nat)
    requires Sound(limit, maxConcurrency, s) && k in s.active && s.closing
    ensures Sound(limit, maxConcurrency, Ended(s, k))
  {
    match s.active[k].phase
    case Running =>
      FinishSound(limit, maxConcurrency, s, k, Failed(Backpressure));
      ReleaseSound(limit, maxConcurrency, Finished(s, k, Failed(Backpressure)), k);
    case Logging(_) => AbandonSound(limit, maxConcurrency, s, k);
    case Settled => ReleaseSound(limit, maxConcurrency, s, k);
  }

  /** Closing has cancelled the operations that are in `active0` but not in `active`. */
  ghost predicate Cancelling(active0: map<nat, Active>, active: map<nat, Active>,
                             waiters0: seq<Waiter>, waiters: seq<Waiter>, home: seq<nat>,
                             stranded0: set<nat>, stranded: set<nat>)
  {
    && |waiters| == |waiters0| == |home|
    && (forall k | k in active :: k in active0 && active[k] == active0[k])
    && (forall k: nat :: k in stranded <==> k in stranded0 || (k in active0 && k !in active && active0[k].phase.Logging?))
    && (forall w | 0 <= w < |waiters| ::
          waiters[w] == if waiters0[w].Pending? && home[w] in active0 && home[w] !in active && active0[home[w]].phase.Running?
                        then Failed(Backpressure) else waiters0[w])
  }

  lemma CancelOne(s: State, active0: map<nat, Active>, waiters0: seq<Waiter>, stranded0: set<nat>, k: nat)
    requires WaitersOk(s.queue, s.active, s.waiters, s.home, s.stranded) && s.queue == [] && k in s.active
    requires StrandedOk(s.queue, s.active, s.sequence, s.stranded)
    requires Cancelling(active0, s.active, waiters0, s.waiters, s.home, stranded0, s.stranded)
    ensures var t := Ended(s, k);
      Cancelling(active0, t.active, waiters0, t.waiters, t.home, stranded0, t.stranded)
  {
    var t := Ended(s, k);
    assert t.active == s.active - {k};
    assert t.home == s.home;
    if s.active[k].phase.Running? {
      assert t.waiters == Settle(s.waiters, s.active[k].entry, Failed(Backpressure));
      forall w | 0 <= w < |s.waiters| && s.waiters[w].Pending?
        ensures w in s.active[k].entry.waiters <==> s.home[w] == k
      {
        if w in s.active[k].entry.waiters { assert At(w, k, s.waiters, s.home); }
        if s.home[w] == k { assert Awaited(s.active, k, w); }
      }
    }
  }

  lemma EndShrinks(s: State, k: nat)
    requires k in s.active && Exclusive(s.active)
    ensures |Ended(s, k).active| < |s.active|
  {
    assert Ended(s, k).active == s.active - {k};
    TargetFreed(s.active, k);
  }

  lemma NobodyElseWaits(s: State, active0: map<nat, Active>, waiters0: seq<Waiter>, stranded0: set<nat>)
    requires WaitersOk(s.queue, s.active, s.waiters, s.home, s.stranded) && s.queue == [] && s.active == map[]
    requires Cancelling(active0, s.active, waiters0, s.waiters, s.home, stranded0, s.stranded)
    ensures forall w | 0 <= w < |s.waiters| && s.waiters[w].Pending? ::
      s.home[w] in stranded0 || (s.home[w] in active0 && active0[s.home[w]].phase.Logging?)
  {
    forall w | 0 <= w < |s.waiters| && s.waiters[w].Pending?
      ensures s.home[w] in stranded0 || (s.home[w] in active0 && active0[s.home[w]].phase.Logging?)
    {
      assert s.home[w] in s.stranded;
    }
  }

  class Coordinator {
    const limit: nat
    const maxConcurrency: nat
    var queue: seq<Entry>
    var active: map<nat, Active>
    var activeTargets: set<Target>
    var lastStarted: map<Target, int>
    var waiters: seq<Waiter>
    var sequence: nat
    var closing: bool
    ghost var home: seq<nat>
    ghost var history: map<nat, seq<Request>>
    ghost var starts: seq<Start>
    ghost var consistent: bool
    ghost var stranded: set<nat>

    ghost function Current(): State
      reads this
    {
      State(queue, active, activeTargets, lastStarted, waiters, sequence, closing,
            home, history, starts, consistent, stranded)
    }

    ghost predicate Valid()
      reads this
    {
      Sound(limit, maxConcurrency, Current())
    }

    constructor (limit: nat, maxConcurrency: nat)
      requires limit >= 1 && maxConcurrency >= 1
      ensures Valid() && this.limit == limit && this.maxConcurrency == maxConcurrency
      ensures Current() == State([], map[], {}, map[], [], 0, false, [], map[], [], true, {})
    {
      this.limit, this.maxConcurrency := limit, maxConcurrency;
      queue, active, activeTargets, lastStarted, waiters := [], map[], {}, map[], [];
      sequence, closing := 0, false;
      home, history, starts, consistent, stranded := [], map[], [], true, {};
    }

    /** `_coalescible_entry`: the first waiting entry under the key that somebody still wants. */
    method CoalescibleEntry(key: Option<string>) returns (found: Option<nat>)
      requires Valid()
      ensures found.Some? ==> found.value < |queue| && FirstFit(queue, waiters, key, found.value)
      ensures found.None? ==> forall i | 0 <= i < |queue| :: !Fits(queue, waiters, key, i)
    {
      if key.None? { return None; }
      var i := 0;
      while i < |queue|
        invariant 0 <= i <= |queue|
        invariant forall j | 0 <= j < i :: !Fits(queue, waiters, key, j)
      {
        if queue[i].request.key == key && Wanted(queue[i], waiters) { return Some(i); }
        i := i + 1;
      }
      return None;
    }

    method Join(i: nat, request: Request)
      requires i < |queue| && queue[i].sequence in history
      modifies `queue, `waiters, `home, `history, `consistent
      ensures Current() == Joined(old(Current()), i, request)
    {
      var e := queue[i];
      var kept := if e.request.terminal && !request.terminal then e.request else request;
      consistent := consistent && Behind(starts, kept.target, e.sequence);
      queue := queue[i := Entry(e.sequence, kept, e.waiters + [|waiters|])];
      history := history[e.sequence := history[e.sequence] + [request]];
      home, waiters := home + [e.sequence], waiters + [Pending];
    }

    method Enqueue(request: Request)
      modifies `queue, `waiters, `sequence, `home, `history
      ensures Current() == Enqueued(old(Current()), request)
    {
      sequence := sequence + 1;
      queue := queue + [Entry(sequence, request, [|waiters|])];
      history := history[sequence := [request]];
      home, waiters := home + [sequence], waiters + [Pending];
    }

    /** The part of `execute` before it waits. A request that fits a waiting
        entry joins it, `joined` says which, and a terminal request is not
        replaced by one that is not; any other request needs room in the queue. */
    method Execute(request: Request) returns (verdict: Verdict, ghost joined: Option<nat>)
      requires Valid()
      modifies `queue, `waiters, `sequence, `home, `history, `consistent
      ensures Valid()
      ensures joined.Some? ==>
        && joined.value < |old(queue)| && FirstFit(old(queue), old(waiters), request.key, joined.value)
        && old(queue)[joined.value].sequence in old(history)
      ensures joined.None? && !closing ==>
        forall i | 0 <= i < |old(queue)| :: !Fits(old(queue), old(waiters), request.key, i)
      ensures verdict.Refused? <==> closing || (joined.None? && |old(queue)| >= limit)
      ensures verdict.Refused? ==>
        verdict.error == if !closing && request.priority >= 20 && request.key.Some? then Dropped else Backpressure
      ensures verdict.Accepted? ==> verdict.waiter == |old(waiters)|
      ensures Current() ==
        if verdict.Refused? then old(Current())
        else if joined.Some? then Joined(old(Current()), joined.value, request)
        else Enqueued(old(Current()), request)
    {
      joined := None;
      if closing {
        verdict := Refused(Backpressure);
      } else {
        var existing := CoalescibleEntry(request.key);
        joined := existing;
        verdict := Accepted(|waiters|);
        if existing.Some? {
          JoinSound(limit, maxConcurrency, Current(), existing.value, request);
          Join(existing.value, request);
        } else if |queue| >= limit {
          verdict := Refused(if request.priority >= 20 && request.key.Some? then Dropped else Backpressure);
        } else {
          EnqueueSound(limit, maxConcurrency, Current(), request);
          Enqueue(request);
        }
      }
    }

    /** A caller gives up. */
    method Cancel(w: nat)
      requires Valid() && w < |waiters|
      modifies `waiters
      ensures Valid()
      ensures waiters == if old(waiters)[w].Pending? then old(waiters)[w := Cancelled] else old(waiters)
    {
      if waiters[w].Pending? {
        CancelSound(limit, maxConcurrency, Current(), w);
        waiters := waiters[w := Cancelled];
      }
    }

    method Skip(i: nat)
      requires Valid() && i < |queue| && !Wanted(queue[i], waiters)
      modifies `queue
      ensures Valid() && queue == Without(old(queue), i)
    {
      SkipSound(limit, maxConcurrency, Current(), i);
      queue := Without(queue, i);
    }

    /** Entries nobody waits for any more leave the queue. */
    method Prune()
      requires Valid()
      modifies `queue
      ensures Valid() && Pruned(old(queue), queue, waiters, |queue|)
    {
      ghost var before := queue;
      var i := 0;
      while i < |queue|
        invariant 0 <= i <= |queue| && Valid() && Pruned(before, queue, waiters, i)
        decreases |queue| - i
      {
        if Wanted(queue[i], waiters) {
          i := i + 1;
        } else {
          PruneOne(before, queue, waiters, i);
          Skip(i);
        }
      }
    }

    /** `_select`: the least ready head, or how long until one may be ready. */
    method Select(now: int) returns (ready: Option<nat>, delay: Option<int>)
      ensures ready.Some? ==>
        ready.value < |queue| && LeastReady(queue, activeTargets, lastStarted, now, ready.value) && delay == Some(0)
      ensures ready.None? ==>
        && ShortestWait(queue, activeTargets, lastStarted, now, |queue|, delay)
        && (delay.Some? ==> delay.value > 0)
    {
      ready, delay := None, None;
      for i := 0 to |queue|
        invariant ready.Some? ==>
          && ready.value < i && Head(queue, activeTargets, ready.value)
          && Wait(queue[ready.value].request, lastStarted, now) == 0
        invariant forall j | 0 <= j < i && Head(queue, activeTargets, j) && Wait(queue[j].request, lastStarted, now) == 0 ::
          ready.Some? && Before(queue[ready.value], queue[j])
        invariant ShortestWait(queue, activeTargets, lastStarted, now, i, delay)
        invariant delay.Some? ==> delay.value >= 0
      {
        if Head(queue, activeTargets, i) {
          var wait := Wait(queue[i].request, lastStarted, now);
          if wait == 0 && (ready.None? || !Before(queue[ready.value], queue[i])) {
            ready := Some(i);
          }
          if delay.None? || wait < delay.value {
            delay := Some(wait);
          }
        }
      }
    }

    method FailEntry(i: nat, outcome: Waiter)
      requires i < |queue|
      modifies `queue, `waiters
      ensures Current() == Removed(old(Current()), i, outcome)
    {
      waiters := Settle(waiters, queue[i], outcome);
      queue := Without(queue, i);
    }

    method Begin(i: nat, now: int)
      requires i < |queue|
      modifies `queue, `active, `activeTargets, `lastStarted, `starts
      ensures Current() == Begun(old(Current()), i, now)
    {
      var e := queue[i];
      starts := starts + [Start(now, e.sequence, e.request)];
      queue := Without(queue, i);
      lastStarted := lastStarted[e.request.target := now];
      activeTargets := activeTargets + {e.request.target};
      active := active[e.sequence := Active(e, Running)];
    }

    /** One round of the worker. `seen` is the state it decided on, after
        entries nobody waits for were dropped; `chosen` is what it decided on. */
    method WorkerTurn(now: int) returns (turn: Turn, ghost seen: State, ghost chosen: nat)
      requires Valid()
      modifies `queue, `waiters, `active, `activeTargets, `lastStarted, `starts
      ensures Valid()
      ensures closing ==> turn == Idle(None) && Current() == old(Current())
      ensures !closing ==>
        && seen == old(Current()).(queue := seen.queue)
        && Pruned(old(queue), seen.queue, seen.waiters, |seen.queue|)
      ensures !closing && (|seen.queue| == 0 || |seen.active| >= maxConcurrency) ==> turn == Idle(None)
      ensures !closing && |seen.queue| > 0 && |seen.active| < maxConcurrency ==>
        match turn
        case Idle(delay) =>
          && ShortestWait(seen.queue, seen.activeTargets, seen.lastStarted, now, |seen.queue|, delay)
          && (delay.Some? ==> delay.value > 0)
        case Missed(e) =>
          && chosen < |seen.queue| && e == seen.queue[chosen]
          && LeastReady(seen.queue, seen.activeTargets, seen.lastStarted, now, chosen)
          && e.request.deadline.Some? && now >= e.request.deadline.value
        case Started(e) =>
          && chosen < |seen.queue| && e == seen.queue[chosen]
          && LeastReady(seen.queue, seen.activeTargets, seen.lastStarted, now, chosen)
          && (e.request.deadline.None? || now < e.request.deadline.value)
      ensures turn.Missed? ==> chosen < |seen.queue| && Current() == Removed(seen, chosen, Failed(DeadlineExceeded))
      ensures turn.Started? ==> chosen < |seen.queue| && Current() == Begun(seen, chosen, now)
      ensures turn.Idle? && !closing ==> Current() == seen
    {
      turn, seen, chosen := Idle(None), Current(), 0;
      if !closing {
        Prune();
        seen := Current();
        if |queue| > 0 && |active| < maxConcurrency {
          var ready, delay := Select(now);
          if ready.None? {
            turn := Idle(delay);
          } else {
            chosen := ready.value;
            turn := Dispatch(ready.value, now);
          }
        }
      }
    }

    /** Start a ready head, unless its deadline has come. */
    method Dispatch(i: nat, now: int) returns (turn: Turn)
      requires Valid() && i < |queue| && |active| < maxConcurrency
      requires Head(queue, activeTargets, i) && Wait(queue[i].request, lastStarted, now) == 0
      modifies `queue, `waiters, `active, `activeTargets, `lastStarted, `starts
      ensures Valid()
      ensures var due := old(queue)[i].request.deadline;
        if due.Some? && now >= due.value
        then turn == Missed(old(queue)[i]) && Current() == Removed(old(Current()), i, Failed(DeadlineExceeded))
        else turn == Started(old(queue)[i]) && Current() == Begun(old(Current()), i, now)
      ensures queue == old(queue)[..i] + old(queue)[i + 1..]
      ensures turn.Missed? ==> active == old(active) && Hear(old(waiters), waiters, old(queue)[i], Failed(DeadlineExceeded))
      ensures turn.Started? ==>
        && waiters == old(waiters) && active == old(active)[old(queue)[i].sequence := Active(old(queue)[i], Running)]
        && lastStarted == old(lastStarted)[old(queue)[i].request.target := now]
        && activeTargets == old(activeTargets) + {old(queue)[i].request.target}
    {
      var entry := queue[i];
      if entry.request.deadline.Some? && now >= entry.request.deadline.value {
        RemoveSound(limit, maxConcurrency, Current(), i, Failed(DeadlineExceeded));
        FailEntry(i, Failed(DeadlineExceeded));
        turn := Missed(entry);
      } else {
        BeginSound(limit, maxConcurrency, Current(), i, now);
        Begin(i, now);
        turn := Started(entry);
      }
    }

    method SettleActive(k: nat, outcome: Waiter)
      requires k in active
      modifies `active, `waiters
      ensures Current() == Finished(old(Current()), k, outcome)
    {
      waiters := Settle(waiters, active[k].entry, outcome);
      active := active[k := active[k].(phase := Settled)];
    }

    method Free(k: nat)
      requires k in active
      modifies `active, `activeTargets
      ensures Current() == Released(old(Current()), k)
    {
      activeTargets := activeTargets - {active[k].entry.request.target};
      active := active - {k};
    }

    /** The callback of an active operation returned a value, or was refused by
        the limiter below it. */
    method CallbackEnded(k: nat, result: Option<int>)
      requires Valid() && k in active && active[k].phase.Running?
      modifies `active, `waiters
      ensures Valid()
      ensures Hear(old(waiters), waiters, old(active)[k].entry, if result.Some? then Value(result.value) else Failed(Backpressure))
      ensures active == old(active)[k := old(active)[k].(phase := Settled)]
      ensures Current() == Finished(old(Current()), k, if result.Some? then Value(result.value) else Failed(Backpressure))
    {
      var outcome := if result.Some? then Value(result.value) else Failed(Backpressure);
      FinishSound(limit, maxConcurrency, Current(), k, outcome);
      SettleActive(k, outcome);
    }

    /** The callback raised; its callers hear of it once the failure is logged. */
    method CallbackRaised(k: nat, code: int)
      requires Valid() && k in active && active[k].phase.Running?
      modifies `active
      ensures active == old(active)[k := old(active)[k].(phase := Logging(code))]
      ensures Valid() && Current() == Troubled(old(Current()), k, code)
    {
      TroubleSound(limit, maxConcurrency, Current(), k, code);
      active := active[k := active[k].(phase := Logging(code))];
    }

    method FailureLogged(k: nat)
      requires Valid() && k in active && active[k].phase.Logging?
      modifies `active, `waiters
      ensures Hear(old(waiters), waiters, old(active)[k].entry, Failed(Raised(old(active)[k].phase.code)))
      ensures active == old(active)[k := old(active)[k].(phase := Settled)]
      ensures Valid() && Current() == Finished(old(Current()), k, Failed(Raised(old(active)[k].phase.code)))
    {
      var outcome := Failed(Raised(active[k].phase.code));
      FinishSound(limit, maxConcurrency, Current(), k, outcome);
      SettleActive(k, outcome);
    }

    /** The `finally` part of `_invoke_active`. */
    method Release(k: nat)
      requires Valid() && k in active && active[k].phase.Settled?
      modifies `active, `activeTargets
      ensures active == old(active) - {k} && activeTargets == old(activeTargets) - {old(active)[k].entry.request.target}
      ensures Valid() && Current() == Released(old(Current()), k)
    {
      ReleaseSound(limit, maxConcurrency, Current(), k);
      Free(k);
    }

    /** The part of `close` that fails whoever still waits in the queue. */
    method CloseQueue()
      requires Valid()
      modifies `closing, `queue, `waiters
      ensures Valid() && closing && queue == []
      ensures |waiters| == |old(waiters)| == |home|
      ensures forall w | 0 <= w < |waiters| ::
        waiters[w] == if Queued(old(queue), home[w], w) && old(waiters)[w].Pending? then Failed(Backpressure)
                      else old(waiters)[w]
    {
      closing := true;
      FailAll();
    }

    method FailAll()
      requires Valid()
      modifies `queue, `waiters
      ensures Valid() && queue == []
      ensures Failing(old(queue), [], old(waiters), waiters, home)
    {
      ghost var queue0, waiters0 := queue, waiters;
      while |queue| > 0
        invariant Valid() && Failing(queue0, queue, waiters0, waiters, home)
        decreases |queue|
      {
        FailFirst(limit, maxConcurrency, Current(), queue0, waiters0);
        RemoveSound(limit, maxConcurrency, Current(), 0, Failed(Backpressure));
        FailEntry(0, Failed(Backpressure));
      }
    }

    method EndActive(k: nat)
      requires k in active
      modifies `active, `activeTargets, `waiters, `stranded
      ensures Current() == Ended(old(Current()), k)
    {
      if active[k].phase.Running? {
        SettleActive(k, Failed(Backpressure));
      } else if active[k].phase.Logging? {
        stranded := stranded + {k};
      }
      Free(k);
    }

    method EndOne(k: nat, ghost active0: map<nat, Active>, ghost waiters0: seq<Waiter>, ghost stranded0: set<nat>)
      requires Valid() && closing && queue == [] && k in active
      requires Cancelling(active0, active, waiters0, waiters, home, stranded0, stranded)
      modifies `active, `activeTargets, `waiters, `stranded
      ensures Valid() && |active| < |old(active)|
      ensures Cancelling(active0, active, waiters0, waiters, home, stranded0, stranded)
    {
      CancelOne(Current(), active0, waiters0, stranded0, k);
      EndSound(limit, maxConcurrency, Current(), k);
      EndShrinks(Current(), k);
      EndActive(k);
    }

    method EndAll()
      requires Valid() && closing && queue == []
      modifies `active, `activeTargets, `waiters, `stranded
      ensures Valid() && active == map[]
      ensures Cancelling(old(active), map[], old(waiters), waiters, home, old(stranded), stranded)
    {
      ghost var active0, waiters0, stranded0 := active, waiters, stranded;
      while active != map[]
        invariant Valid() && Cancelling(active0, active, waiters0, waiters, home, stranded0, stranded)
        decreases |active|
      {
        var k :| k in active;
        EndOne(k, active0, waiters0, stranded0);
      }
    }

    /** The part of `close` that cancels what is active. A running operation
        settles its callers and ends; one that is logging its failure ends
        without, so its callers wait for ever, and nobody else does. */
    method CancelActive()
      requires Valid() && closing && queue == []
      modifies `active, `activeTargets, `waiters, `stranded
      ensures Valid() && active == map[] && activeTargets == {}
      ensures |waiters| == |old(waiters)| == |home|
      ensures forall w | 0 <= w < |waiters| ::
        waiters[w] == if old(waiters)[w].Pending? && home[w] in old(active) && old(active)[home[w]].phase.Running?
                      then Failed(Backpressure) else old(waiters)[w]
      ensures forall w | 0 <= w < |waiters| :: waiters[w].Pending? <==>
        old(waiters)[w].Pending? && (home[w] in old(stranded) || (home[w] in old(active) && old(active)[home[w]].phase.Logging?))
    {
      ghost var active0, waiters0, stranded0 := active, waiters, stranded;
      EndAll();
      NobodyElseWaits(Current(), active0, waiters0, stranded0);
      activeTargets := {};
    }
  }
  /** A caller is in no entry but its own, and while the coordinator is open a
      caller that waits is in that one, queued or active but not both. */
  lemma WaitsInOneEntry(limit: nat, maxConcurrency: nat, s: State, w: nat)
    requires Sound(limit, maxConcurrency, s) && w < |s.waiters|
    ensures forall k: nat | Queued(s.queue, k, w) || Awaited(s.active, k, w) :: k == s.home[w]
    ensures !(Queued(s.queue, s.home[w], w) && Awaited(s.active, s.home[w], w))
    ensures s.waiters[w].Pending? && !s.closing ==>
      Queued(s.queue, s.home[w], w) || Awaited(s.active, s.home[w], w)
  {
    forall k: nat | Queued(s.queue, k, w) || Awaited(s.active, k, w) ensures k == s.home[w] {
      if Queued(s.queue, k, w) {
        var i :| 0 <= i < |s.queue| && s.queue[i].sequence == k && w in s.queue[i].waiters;
        assert At(w, s.queue[i].sequence, s.waiters, s.home);
      } else {
        assert At(w, k, s.waiters, s.home);
      }
    }
  }

  ghost function Fresh(): State {
    State([], map[], {}, map[], [], 0, false, [], map[], [], true, {})
  }

  // ----- runs -----

  datatype Action =
    | Queue(request: Request) | Coalesce(i: nat, request: Request) | GiveUp(w: nat) | Forget(i: nat)
    | Miss(i: nat, now: int) | Launch(i: nat, now: int)
    | End(k: nat, outcome: Waiter) | Trouble(k: nat, code: int) | Release(k: nat)
    | BeginClose | FailQueued(i: nat) | CancelActive(k: nat)

  /** The worker picks the `i`-th entry: nobody else's turn comes first. */
  ghost predicate Picks(maxConcurrency: nat, s: State, i: nat, now: int) {
    && i < |s.queue| && |s.active| < maxConcurrency && !s.closing
    && (forall j | 0 <= j < |s.queue| :: Wanted(s.queue[j], s.waiters))
    && LeastReady(s.queue, s.activeTargets, s.lastStarted, now, i)
  }

  /** What each step of `execute`, the worker, an operation or `close` needs. */
  ghost predicate Enabled(limit: nat, maxConcurrency: nat, s: State, a: Action) {
    match a
    case Queue(request) =>
      |s.queue| < limit && !s.closing && forall i | 0 <= i < |s.queue| :: !Fits(s.queue, s.waiters, request.key, i)
    case Coalesce(i, request) =>
      i < |s.queue| && !s.closing && FirstFit(s.queue, s.waiters, request.key, i) && s.queue[i].sequence in s.history
    case GiveUp(w) => w < |s.waiters| && s.waiters[w].Pending?
    case Forget(i) => i < |s.queue| && !Wanted(s.queue[i], s.waiters)
    case Miss(i, now) =>
      Picks(maxConcurrency, s, i, now) && s.queue[i].request.deadline.Some? && now >= s.queue[i].request.deadline.value
    case Launch(i, now) =>
      && Picks(maxConcurrency, s, i, now)
      && (s.queue[i].request.deadline.Some? ==> now < s.queue[i].request.deadline.value)
    case End(k, outcome) => k in s.active && !s.active[k].phase.Settled? && !outcome.Pending?
    case Trouble(k, _) => k in s.active && s.active[k].phase.Running?
    case Release(k) => k in s.active && s.active[k].phase.Settled?
    case BeginClose => true
    case FailQueued(i) => i < |s.queue| && s.closing
    case CancelActive(k) => k in s.active && s.closing
  }

  ghost function Step(limit: nat, maxConcurrency: nat, s: State, a: Action): State
    requires Enabled(limit, maxConcurrency, s, a)
  {
    match a
    case Queue(request) => Enqueued(s, request)
    case Coalesce(i, request) => Joined(s, i, request)
    case GiveUp(w) => s.(waiters := s.waiters[w := Cancelled])
    case Forget(i) => s.(queue := Without(s.queue, i))
    case Miss(i, _) => Removed(s, i, Failed(DeadlineExceeded))
    case Launch(i, now) => Begun(s, i, now)
    case End(k, outcome) => Finished(s, k, outcome)
    case Trouble(k, code) => Troubled(s, k, code)
    case Release(k) => Released(s, k)
    case BeginClose => s.(closing := true)
    case FailQueued(i) => Removed(s, i, Failed(Backpressure))
    case CancelActive(k) => Ended(s, k)
  }

  lemma StepSound(limit: nat, maxConcurrency: nat, s: State, a: Action)
    requires Sound(limit, maxConcurrency, s) && Enabled(limit, maxConcurrency, s, a)
    ensures Sound(limit, maxConcurrency, Step(limit, maxConcurrency, s, a))
  {
    match a
    case Queue(request) => EnqueueSound(limit, maxConcurrency, s, request);
    case Coalesce(i, request) => JoinSound(limit, maxConcurrency, s, i, request);
    case GiveUp(w) => CancelSound(limit, maxConcurrency, s, w);
    case Forget(i) => SkipSound(limit, maxConcurrency, s, i);
    case Miss(i, _) => RemoveSound(limit, maxConcurrency, s, i, Failed(DeadlineExceeded));
    case Launch(i, now) => BeginSound(limit, maxConcurrency, s, i, now);
    case End(k, outcome) => FinishSound(limit, maxConcurrency, s, k, outcome);
    case Trouble(k, code) => TroubleSound(limit, maxConcurrency, s, k, code);
    case Release(k) => ReleaseSound(limit, maxConcurrency, s, k);
    case BeginClose =>
    case FailQueued(i) => RemoveSound(limit, maxConcurrency, s, i, Failed(Backpressure));
    case CancelActive(k) => EndSound(limit, maxConcurrency, s, k);
  }

  /** No step settles a caller twice or forgets one. */
  lemma StepSettlesOnce(limit: nat, maxConcurrency: nat, s: State, a: Action)
    requires Enabled(limit, maxConcurrency, s, a)
    ensures OnlySettles(s.waiters, Step(limit, maxConcurrency, s, a).waiters)
  {
  }

  ghost function Run(limit: nat, maxConcurrency: nat, actions: seq<Action>): Option<State> {
    if actions == [] then Some(Fresh())
    else
      var last := |actions| - 1;
      var u := Run(limit, maxConcurrency, actions[..last]);
      if u.Some? && Enabled(limit, maxConcurrency, u.value, actions[last])
      then Some(Step(limit, maxConcurrency, u.value, actions[last])) else None
  }

  lemma {:induction false} RunSound(limit: nat, maxConcurrency: nat, actions: seq<Action>, t: State)
    requires Run(limit, maxConcurrency, actions) == Some(t)
    ensures Sound(limit, maxConcurrency, t)
  {
    if actions != [] {
      var last := |actions| - 1;
      var u := Run(limit, maxConcurrency, actions[..last]).value;
      RunSound(limit, maxConcurrency, actions[..last], u);
      StepSound(limit, maxConcurrency, u, actions[last]);
    } else {
      assert TargetsOf(map[]) == {};
    }
  }

  /** Whatever callers, the worker and operations do: at most one operation per
      target and no more than allowed are active; every entry starts at most
      once, before its deadline, after its target's rest, with the request its
      submissions call for; and operations on a target start in the order of
      their entries while no coalesced request moves its entry to a target on
      which a younger operation has been started. */
  lemma StartsAreOrderly(limit: nat, maxConcurrency: nat, actions: seq<Action>, t: State)
    requires Run(limit, maxConcurrency, actions) == Some(t)
    ensures |t.active| <= maxConcurrency && |t.queue| <= limit
    ensures forall a, b | a in t.active && b in t.active && a != b ::
      t.active[a].entry.request.target != t.active[b].entry.request.target
    ensures forall i, j | 0 <= i < j < |t.starts| :: t.starts[i].sequence != t.starts[j].sequence
    ensures forall i | 0 <= i < |t.starts| && t.starts[i].request.deadline.Some? ::
      t.starts[i].at < t.starts[i].request.deadline.value
    ensures forall i, j | 0 <= i < j < |t.starts| && t.starts[i].request.target == t.starts[j].request.target ::
      t.starts[i].at + t.starts[j].request.minInterval <= t.starts[j].at
    ensures forall i | 0 <= i < |t.starts| ::
      t.starts[i].sequence in t.history && t.history[t.starts[i].sequence] != []
      && t.starts[i].request == Chosen(t.history[t.starts[i].sequence])
    ensures t.consistent ==>
      forall i, j | 0 <= i < j < |t.starts| && t.starts[i].request.target == t.starts[j].request.target ::
        t.starts[i].sequence < t.starts[j].sequence
  {
    RunSound(limit, maxConcurrency, actions, t);
  }

  // ----- coalescing -----

  /** Under one key at most one entry that is still wanted waits. */
  ghost predicate OnePerKey(queue: seq<Entry>, waiters: seq<Waiter>) {
    forall i, j | 0 <= i < j < |queue| && queue[i].request.key.Some? && queue[i].request.key == queue[j].request.key ::
      !Wanted(queue[i], waiters) || !Wanted(queue[j], waiters)
  }

  lemma NoMoreWanted(e: Entry, before: seq<Waiter>, after: seq<Waiter>)
    requires OnlySettles(before, after) && Wanted(e, after)
    requires forall w | w in e.waiters :: w < |before|
    ensures Wanted(e, before)
  {
    var w :| w in e.waiters && w < |after| && !after[w].Cancelled?;
    assert w < |before| && !before[w].Cancelled?;
  }

  /** Callers are settled, and perhaps an entry leaves. */
  lemma FewerPerKey(queue: seq<Entry>, before: seq<Waiter>, after: seq<Waiter>)
    requires OnePerKey(queue, before) && OnlySettles(before, after)
    requires forall i, w: nat {:trigger w in queue[i].waiters} | 0 <= i < |queue| && w in queue[i].waiters :: w < |before|
    ensures OnePerKey(queue, after)
    ensures forall i: nat | i < |queue| :: OnePerKey(Without(queue, i), after)
  {
    forall i | 0 <= i < |queue| && Wanted(queue[i], after) ensures Wanted(queue[i], before) {
      NoMoreWanted(queue[i], before, after);
    }
  }

  lemma CallersExist(s: State)
    requires WaitersOk(s.queue, s.active, s.waiters, s.home, s.stranded)
    ensures forall i, w: nat {:trigger w in s.queue[i].waiters} | 0 <= i < |s.queue| && w in s.queue[i].waiters :: w < |s.waiters|
  {
  }

  lemma QueuePerKey(limit: nat, maxConcurrency: nat, s: State, request: Request)
    requires WaitersOk(s.queue, s.active, s.waiters, s.home, s.stranded)
    requires Enabled(limit, maxConcurrency, s, Queue(request)) && OnePerKey(s.queue, s.waiters)
    ensures OnePerKey(Enqueued(s, request).queue, Enqueued(s, request).waiters)
  {
    var t := Enqueued(s, request);
    FewerPerKey(s.queue, s.waiters, t.waiters);
    forall i | 0 <= i < |s.queue| && Wanted(s.queue[i], t.waiters) ensures !Fits(s.queue, t.waiters, request.key, i) {
      NoMoreWanted(s.queue[i], s.waiters, t.waiters);
      assert !Fits(s.queue, s.waiters, request.key, i);
    }
  }

  lemma JoinPerKey(limit: nat, maxConcurrency: nat, s: State, i: nat, request: Request)
    requires WaitersOk(s.queue, s.active, s.waiters, s.home, s.stranded)
    requires Enabled(limit, maxConcurrency, s, Coalesce(i, request)) && OnePerKey(s.queue, s.waiters)
    ensures OnePerKey(Joined(s, i, request).queue, Joined(s, i, request).waiters)
  {
    var t := Joined(s, i, request);
    forall j | 0 <= j < |t.queue| && Wanted(t.queue[j], t.waiters) ensures Wanted(s.queue[j], s.waiters) {
      if j != i { NoMoreWanted(s.queue[j], s.waiters, t.waiters); }
    }
    assert forall j | 0 <= j < |t.queue| :: t.queue[j].request.key == s.queue[j].request.key;
  }

  lemma StepPerKey(limit: nat, maxConcurrency: nat, s: State, a: Action)
    requires WaitersOk(s.queue, s.active, s.waiters, s.home, s.stranded)
    requires Enabled(limit, maxConcurrency, s, a) && OnePerKey(s.queue, s.waiters)
    ensures var t := Step(limit, maxConcurrency, s, a); OnePerKey(t.queue, t.waiters)
  {
    match a
    case Queue(request) => QueuePerKey(limit, maxConcurrency, s, request);
    case Coalesce(i, request) => JoinPerKey(limit, maxConcurrency, s, i, request);
    case _ =>
      StepSettlesOnce(limit, maxConcurrency, s, a);
      CallersExist(s);
      FewerPerKey(s.queue, s.waiters, Step(limit, maxConcurrency, s, a).waiters);
  }

  /** However callers come and go, a key never has two waiting entries that
      anybody still wants. */
  lemma {:induction false} KeysAreShared(limit: nat, maxConcurrency: nat, actions: seq<Action>, t: State)
    requires Run(limit, maxConcurrency, actions) == Some(t)
    ensures OnePerKey(t.queue, t.waiters)
  {
    if actions != [] {
      var last := |actions| - 1;
      var u := Run(limit, maxConcurrency, actions[..last]).value;
      KeysAreShared(limit, maxConcurrency, actions[..last], u);
      RunSound(limit, maxConcurrency, actions[..last], u);
      StepPerKey(limit, maxConcurrency, u, actions[last]);
    }
  }

  // ----- what the order and the callers are not promised -----

  /** A coalesced request keeps the order of starts exactly when every operation
      started on the target it leaves its entry with is older than that entry;
      a request for the entry's own target always does. */
  lemma JoiningKeepsOrderIff(limit: nat, maxConcurrency: nat, s: State, i: nat, request: Request)
    requires Sound(limit, maxConcurrency, s) && InOrder(s.starts, s.queue)
    requires i < |s.queue| && s.queue[i].sequence in s.history
    ensures var t := Joined(s, i, request);
      && (InOrder(t.starts, t.queue) <==> Behind(s.starts, t.queue[i].request.target, s.queue[i].sequence))
      && (request.target == s.queue[i].request.target ==> InOrder(t.starts, t.queue))
  {
    CoalesceKeeps(s.starts, s.lastStarted, s.history, s.queue, s.active, s.sequence, i, request, |s.waiters|);
  }

  lemma Advance(limit: nat, maxConcurrency: nat, actions: seq<Action>, i: nat, t: State) returns (u: State)
    requires i < |actions| && Run(limit, maxConcurrency, actions[..i]) == Some(t)
    requires Enabled(limit, maxConcurrency, t, actions[i])
    ensures u == Step(limit, maxConcurrency, t, actions[i])
    ensures Run(limit, maxConcurrency, actions[..i + 1]) == Some(u)
  {
    assert actions[..i + 1][..i] == actions[..i];
    u := Step(limit, maxConcurrency, t, actions[i]);
  }

  ghost function OneQueued(request: Request): State {
    Fresh().(queue := [Entry(1, request, [0])], waiters := [Pending], sequence := 1, home := [1],
             history := map[1 := [request]])
  }

  ghost function OneActive(request: Request): State {
    OneQueued(request).(queue := [], active := map[1 := Active(Entry(1, request, [0]), Running)],
                        activeTargets := {request.target}, lastStarted := map[request.target := 0],
                        starts := [Start(0, 1, request)])
  }

  lemma OneStarts(request: Request)
    ensures Enqueued(Fresh(), request) == OneQueued(request)
    ensures Begun(OneQueued(request), 0, 0) == OneActive(request) && Picks(1, OneQueued(request), 0, 0)
  {
    var s := OneQueued(request);
    assert Enqueued(Fresh(), request).queue == s.queue;
    assert 0 in s.queue[0].waiters;
    assert Without(s.queue, 0) == [];
  }

  ghost function OneLogging(request: Request, code: int): State {
    OneActive(request).(active := map[1 := Active(Entry(1, request, [0]), Logging(code))])
  }

  lemma OneStranded(request: Request, code: int)
    ensures Troubled(OneActive(request), 1, code) == OneLogging(request, code)
    ensures var t := Ended(OneLogging(request, code).(closing := true), 1);
      t.waiters == [Pending] && t.queue == [] && t.active == map[]
  {
  }

  function StrandingRun(request: Request, code: int): seq<Action> {
    [Queue(request), Launch(0, 0), Trouble(1, code), BeginClose, CancelActive(1)]
  }

  lemma RunOne(request: Request, code: int)
    requires request.deadline.None?
    ensures Run(1, 1, StrandingRun(request, code)[..2]) == Some(OneActive(request))
  {
    OneStarts(request);
    var t := Advance(1, 1, StrandingRun(request, code), 0, Fresh());
    t := Advance(1, 1, StrandingRun(request, code), 1, t);
  }

  lemma RunTrouble(request: Request, code: int)
    requires Run(1, 1, StrandingRun(request, code)[..2]) == Some(OneActive(request))
    ensures Run(1, 1, StrandingRun(request, code)[..3]) == Some(OneLogging(request, code))
  {
    OneStranded(request, code);
    var t := Advance(1, 1, StrandingRun(request, code), 2, OneActive(request));
  }

  lemma RunClose(request: Request, code: int)
    requires Run(1, 1, StrandingRun(request, code)[..3]) == Some(OneLogging(request, code))
    ensures Run(1, 1, StrandingRun(request, code)[..4]) == Some(OneLogging(request, code).(closing := true))
  {
    var t := Advance(1, 1, StrandingRun(request, code), 3, OneLogging(request, code));
  }

  /** Closing while a failed operation is being logged leaves its caller waiting. */
  lemma CallerLeftWaiting(request: Request, code: int)
    requires request.deadline.None?
    ensures var t := Run(1, 1, StrandingRun(request, code));
      t.Some? && t.value.waiters == [Pending] && t.value.queue == [] && t.value.active == map[]
  {
    RunOne(request, code);
    RunTrouble(request, code);
    RunClose(request, code);
    OneStranded(request, code);
    var t := Advance(1, 1, StrandingRun(request, code), 4, OneLogging(request, code).(closing := true));
    assert StrandingRun(request, code)[..5] == StrandingRun(request, code);
  }

  function OrderRun(a: Request, b: Request, c: Request): seq<Action> {
    [Queue(a), Queue(b), Launch(1, 0), End(2, Value(0)), Release(2), Coalesce(0, c), Launch(0, 5)]
  }

  ghost function BothQueued(a: Request, b: Request): State {
    Fresh().(queue := [Entry(1, a, [0]), Entry(2, b, [1])], waiters := [Pending, Pending], sequence := 2,
             home := [1, 2], history := map[1 := [a], 2 := [b]])
  }

  ghost function YoungerDone(a: Request, b: Request): State {
    BothQueued(a, b).(queue := [Entry(1, a, [0])], waiters := [Pending, Value(0)], lastStarted := map[b.target := 0],
                      starts := [Start(0, 2, b)])
  }

  lemma BothInOrder(a: Request, b: Request)
    ensures Enqueued(Fresh(), a).queue == [Entry(1, a, [0])]
    ensures Enqueued(Enqueued(Fresh(), a), b) == BothQueued(a, b)
  {
    var s, u := Enqueued(Enqueued(Fresh(), a), b), BothQueued(a, b);
    assert s.queue == u.queue && s.history == u.history && s.waiters == u.waiters && s.home == u.home;
  }

  lemma QueueBoth(a: Request, b: Request, c: Request)
    requires b.key != a.key
    ensures Run(2, 1, OrderRun(a, b, c)[..2]) == Some(BothQueued(a, b))
  {
    var t := Advance(2, 1, OrderRun(a, b, c), 0, Fresh());
    BothInOrder(a, b);
    t := Advance(2, 1, OrderRun(a, b, c), 1, t);
  }

  lemma YoungerPicked(a: Request, b: Request)
    requires a.target != b.target && b.priority < a.priority
    ensures Picks(1, BothQueued(a, b), 1, 0)
  {
    var s := BothQueued(a, b);
    assert 0 in s.queue[0].waiters && 1 in s.queue[1].waiters;
  }

  ghost function YoungerActive(a: Request, b: Request): State {
    YoungerDone(a, b).(active := map[2 := Active(Entry(2, b, [1]), Running)], activeTargets := {b.target},
                       waiters := [Pending, Pending])
  }

  ghost function YoungerSettled(a: Request, b: Request): State {
    YoungerDone(a, b).(active := map[2 := Active(Entry(2, b, [1]), Settled)], activeTargets := {b.target})
  }

  lemma YoungerRuns(a: Request, b: Request)
    ensures Begun(BothQueued(a, b), 1, 0) == YoungerActive(a, b)
    ensures Finished(YoungerActive(a, b), 2, Value(0)) == YoungerSettled(a, b)
    ensures Released(YoungerSettled(a, b), 2) == YoungerDone(a, b)
  {
    var s, t, u := BothQueued(a, b), YoungerActive(a, b), YoungerSettled(a, b);
    assert Without(s.queue, 1) == t.queue;
    var v := Finished(t, 2, Value(0));
    assert v.waiters == u.waiters && v.active == u.active;
  }

  lemma RunYounger(a: Request, b: Request, c: Request)
    requires a.target != b.target && b.priority < a.priority && b.deadline.None?
    requires Run(2, 1, OrderRun(a, b, c)[..2]) == Some(BothQueued(a, b))
    ensures Run(2, 1, OrderRun(a, b, c)[..3]) == Some(YoungerActive(a, b))
  {
    YoungerPicked(a, b);
    YoungerRuns(a, b);
    var t := Advance(2, 1, OrderRun(a, b, c), 2, BothQueued(a, b));
  }

  lemma EndYounger(a: Request, b: Request, c: Request)
    requires Run(2, 1, OrderRun(a, b, c)[..3]) == Some(YoungerActive(a, b))
    ensures Run(2, 1, OrderRun(a, b, c)[..4]) == Some(YoungerSettled(a, b))
  {
    YoungerRuns(a, b);
    var t := Advance(2, 1, OrderRun(a, b, c), 3, YoungerActive(a, b));
  }

  lemma ReleaseYounger(a: Request, b: Request, c: Request)
    requires Run(2, 1, OrderRun(a, b, c)[..4]) == Some(YoungerSettled(a, b))
    ensures Run(2, 1, OrderRun(a, b, c)[..5]) == Some(YoungerDone(a, b))
  {
    YoungerRuns(a, b);
    var t := Advance(2, 1, OrderRun(a, b, c), 4, YoungerSettled(a, b));
  }

  lemma OlderMoves(a: Request, b: Request, c: Request)
    requires a.key.Some? && a.key == c.key && !a.terminal && b.target == c.target && c.minInterval == 0
    ensures FirstFit(YoungerDone(a, b).queue, YoungerDone(a, b).waiters, c.key, 0)
    ensures var t := Joined(YoungerDone(a, b), 0, c); t.queue == [Entry(1, c, [0, 2])] && Picks(1, t, 0, 5)
  {
    var s := YoungerDone(a, b);
    assert 0 in s.queue[0].waiters;
    var t := Joined(s, 0, c);
    assert [0] + [2] == [0, 2];
    assert t.queue[0] == Entry(1, c, [0, 2]) && 0 in t.queue[0].waiters;
    assert t.waiters[0] == Pending;
  }

  lemma MoveOlder(a: Request, b: Request, c: Request) returns (t: State)
    requires a.key.Some? && a.key == c.key && !a.terminal && b.target == c.target && c.minInterval == 0
    requires Run(2, 1, OrderRun(a, b, c)[..5]) == Some(YoungerDone(a, b))
    ensures Run(2, 1, OrderRun(a, b, c)[..6]) == Some(t)
    ensures t.queue == [Entry(1, c, [0, 2])] && Picks(1, t, 0, 5) && t.starts == [Start(0, 2, b)]
  {
    OlderMoves(a, b, c);
    t := Advance(2, 1, OrderRun(a, b, c), 5, YoungerDone(a, b));
  }

  /** A coalesced request may move its entry to another target, and then two
      operations on that target start against the order of their entries: the
      older entry, of lower priority, waits while the younger one runs. */
  lemma OrderNeedsOneTargetPerKey(a: Request, b: Request, c: Request)
    requires a.key.Some? && a.key == c.key && !a.terminal && a.target != b.target == c.target
    requires b.key != a.key && b.priority < a.priority && c.minInterval == 0
    requires b.deadline.None? && c.deadline.None?
    ensures var t := Run(2, 1, OrderRun(a, b, c)); t.Some? && t.value.starts == [Start(0, 2, b), Start(5, 1, c)]
  {
    QueueBoth(a, b, c);
    RunYounger(a, b, c);
    EndYounger(a, b, c);
    ReleaseYounger(a, b, c);
    var t := MoveOlder(a, b, c);
    t := Advance(2, 1, OrderRun(a, b, c), 6, t);
    assert OrderRun(a, b, c)[..7] == OrderRun(a, b, c);
  }
}
