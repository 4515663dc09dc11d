/** Admission control for Discord REST requests (src/copilotd/discord_http_limiter.py).

    Each lock-held region of the limiter is one method. What the trace keeps per request
    (its context) is kept here in one table. Ghost fields record the whole history, so that
    `Valid` speaks about every run so far. */
module HttpLimiter {
  import opened Options

  type Key = string

  /** A route bucket; `interval` is the pacing learned for it, if any. */
  datatype Bucket = Bucket(lastSeen: real, interval: Option<real>, nextAt: real, cooldownUntil: real, resetAt: real, inFlight: int)

  function NewBucket(now: real): Bucket {
    Bucket(now, None, 0.0, 0.0, 0.0, 0)
  }

  /** A request counts in its bucket and, where one was learned, starts the next interval. */
  function AdmittedTo(b: Bucket, at: real): Bucket {
    b.(inFlight := b.inFlight + 1, lastSeen := at, nextAt := if b.interval.Some? then at + b.interval.value else b.nextAt)
  }

  predicate Protected(b: Bucket, now: real) {
    b.inFlight > 0 || b.cooldownUntil > now || b.nextAt > now || b.resetAt > now
  }

  /** Nobody uses the bucket and nothing it learned lies ahead. */
  predicate Idle(b: Bucket, now: real) {
    b.inFlight <= 0 && b.cooldownUntil <= now && b.nextAt <= now && b.resetAt <= now
  }

  /** One admitted request: the bucket it was admitted under and when, whether its reservation was given
      back, and for a 429 response whether its body is unread, whether it was recorded as invalid
      and whether its headers were processed. */
  datatype Context = Context(key: Key, admittedAt: real, released: bool, bodyPending: bool, recorded: bool, ready: bool, respondedAt: real)

  datatype Config = Config(globalLimit: nat, globalWindow: real, invalidLimit: nat, invalidWindow: real,
                           maxBuckets: nat, routeTtl: real)
  {
    /** What the constructor checks. */
    predicate Valid() {
      && 0 < globalLimit <= 40 && 0 < invalidLimit <= 8000
      && globalWindow > 0.0 && invalidWindow > 0.0 && maxBuckets >= 1 && routeTtl > 0.0
    }
  }

  /** One pass of the admission loop: the wait until the next try, if any is known. */
  datatype Start = Admitted(id: nat) | Wait(delay: Option<real>) | CapacityExceeded | Closed

  /** What the headers of a response say, as far as it matters here; `convertible` says that
      working out the timings from them raises nothing (a limit so small that the budget
      underflows to zero does). */
  datatype Headers = Headers(status: nat, retryAfter: Option<real>, isGlobal: bool, isUser: bool,
                             key: Key, learned: Option<Bucket>, convertible: bool)
  {
    /** A 429 whose headers say how long to wait. */
    predicate Cools() { status == 429 && retryAfter.Some? }

    /** Known to count as invalid before the body is read. */
    predicate Invalid() {
      status in {401, 403} || (status == 429 && (isGlobal || isUser))
    }
  }

  /** What the body of a 429 response adds; `available` says that reading it was not cancelled and
      `convertible` that its fields convert (an integer beyond the floating-point range does not). */
  datatype Body = Body(retryAfter: real, isGlobal: bool, isShared: bool, key: Key, available: bool, convertible: bool)

  // ---------------------------------------------------------------- deques and logs

  /** How many entries at the front of the deque are at or before the cutoff. */
  function OldPrefix(s: seq<real>, cutoff: real): (n: nat)
    ensures n <= |s|
  {
    if s == [] || s[0] > cutoff then 0 else 1 + OldPrefix(s[1..], cutoff)
  }

  lemma {:induction false} OldPrefixIsOld(s: seq<real>, cutoff: real)
    ensures forall j :: 0 <= j < OldPrefix(s, cutoff) ==> s[j] <= cutoff
    ensures OldPrefix(s, cutoff) < |s| ==> s[OldPrefix(s, cutoff)] > cutoff
  {
    if s != [] && s[0] <= cutoff {
      OldPrefixIsOld(s[1..], cutoff);
      forall j | 0 <= j < OldPrefix(s, cutoff) ensures s[j] <= cutoff {
        if j > 0 { assert s[j] == s[1..][j - 1]; }
      }
    }
  }

  function DropOld(s: seq<real>, cutoff: real): seq<real> {
    s[OldPrefix(s, cutoff)..]
  }

  /** How many entries cleaning up leaves. */
  function Left(s: seq<real>, cutoff: real): nat {
    |s| - OldPrefix(s, cutoff)
  }

  /** The deque holds the log from `popped` on; what left it was older than the window. */
  ghost predicate TailOf(deque: seq<real>, log: seq<real>, popped: nat, window: real, clock: real) {
    && popped <= |log|
    && deque == log[popped..]
    && forall j :: 0 <= j < popped ==> log[j] <= clock - window
  }

  lemma DropKeepsTail(deque: seq<real>, log: seq<real>, popped: nat, window: real, clock: real, now: real, clock': real)
    requires TailOf(deque, log, popped, window, clock) && clock <= clock' && now <= clock'
    ensures TailOf(DropOld(deque, now - window), log, popped + OldPrefix(deque, now - window), window, clock')
  {
    OldPrefixIsOld(deque, now - window);
    var n := OldPrefix(deque, now - window);
    forall j | 0 <= j < popped + n ensures log[j] <= clock' - window {
      if popped <= j { assert log[j] == deque[j - popped]; }
    }
    assert log[popped + n..] == log[popped..][n..];
  }

  lemma AppendKeepsTail(deque: seq<real>, log: seq<real>, popped: nat, window: real, clock: real, t: real)
    requires TailOf(deque, log, popped, window, clock)
    ensures TailOf(deque + [t], log + [t], popped, window, clock)
  {
    assert (log + [t])[popped..] == log[popped..] + [t];
  }

  /** Any `limit` + 1 consecutive admissions (and so any more) span at least the window. */
  ghost predicate Spaced(log: seq<real>, limit: nat, window: real) {
    forall i, j :: 0 <= i && i + limit <= j < |log| ==> log[j] - log[i] >= window
  }

  /** Admitting when fewer than `limit` admissions are left in the deque keeps the log spaced. */
  lemma AdmitKeepsSpacing(deque: seq<real>, log: seq<real>, popped: nat, limit: nat, window: real, clock: real, t: real)
    requires TailOf(deque, log, popped, window, clock) && Spaced(log, limit, window)
    requires clock <= t && |deque| < limit
    ensures Spaced(log + [t], limit, window)
  {
    var log' := log + [t];
    forall i, j | 0 <= i && i + limit <= j < |log'| ensures log'[j] - log'[i] >= window {
      if j == |log| {
        assert log[i] <= clock - window;
      }
    }
  }

  /** How many entries of the log are younger than the cutoff. */
  ghost function Recent(log: seq<real>, cutoff: real): nat {
    if log == [] then 0 else Recent(log[..|log| - 1], cutoff) + if log[|log| - 1] > cutoff then 1 else 0
  }

  lemma {:induction false} RecentInTail(log: seq<real>, cutoff: real, n: nat)
    requires n <= |log| && forall j :: 0 <= j < |log| - n ==> log[j] <= cutoff
    ensures Recent(log, cutoff) <= n
  {
    if log != [] {
      RecentInTail(log[..|log| - 1], cutoff, if n == 0 then 0 else n - 1);
    }
  }

  // ---------------------------------------------------------------- contexts and counters

  ghost function Open(c: map<nat, Context>): set<nat> {
    set i | i in c && !c[i].released
  }

  ghost function OpenAt(c: map<nat, Context>, k: Key): set<nat> {
    set i | i in c && !c[i].released && c[i].key == k
  }

  ghost function Pending(c: map<nat, Context>): set<nat> {
    set i | i in c && c[i].bodyPending
  }

  ghost function Unrecorded(c: map<nat, Context>): set<nat> {
    set i | i in c && c[i].bodyPending && !c[i].recorded
  }

  /** Every per-bucket counter is the number of open requests of that bucket, and no open request
      lost its bucket. */
  ghost predicate BucketsCount(c: map<nat, Context>, b: map<Key, Bucket>) {
    && (forall k :: k in b ==> b[k].inFlight == |OpenAt(c, k)|)
    && (forall i :: i in Open(c) ==> c[i].key in b)
  }

  /** b' lacks only buckets that were not protected at `now`. */
  ghost predicate Evicted(b: map<Key, Bucket>, b': map<Key, Bucket>, now: real) {
    && (forall k :: k in b' ==> k in b && b'[k] == b[k])
    && (forall k :: k in b && Protected(b[k], now) ==> k in b')
  }

  /** Every bucket of b that is protected at `now` has one of the keys. */
  ghost predicate Keeps(b: map<Key, Bucket>, keys: set<Key>, now: real) {
    forall k :: k in b && Protected(b[k], now) ==> k in keys
  }

  function Later(a: real, b: real): real { if a < b then b else a }

  function CooldownOf(b: map<Key, Bucket>, key: Key): real {
    if key in b then b[key].cooldownUntil else 0.0
  }

  /** The cooldown of the bucket of `key` once it learned from headers. */
  function Taught(b: map<Key, Bucket>, key: Key, learned: Option<Bucket>): real {
    if learned.None? then CooldownOf(b, key) else Later(CooldownOf(b, key), learned.value.cooldownUntil)
  }

  predicate Learned(b: Bucket, learned: Bucket) {
    b.interval == learned.interval && b.nextAt == learned.nextAt && b.resetAt == learned.resetAt
  }

  /** Only who uses a bucket and when it was seen differs. */
  predicate SameTimes(a: Bucket, b: Bucket) {
    b == a.(inFlight := b.inFlight, lastSeen := b.lastSeen)
  }

  /** The bucket of `key` now cools down until `until`, other buckets cool down as before,
      and none is gone before its cooldown is over. */
  ghost predicate Cooled(b: map<Key, Bucket>, b': map<Key, Bucket>, key: Key, until: real, now: real) {
    && (forall k :: k in b' && k != key ==> k in b && SameTimes(b[k], b'[k]))
    && (key in b' ==> b'[key].cooldownUntil == until)
    && (until > now ==> key in b')
    && (forall k :: k in b && k != key && b[k].cooldownUntil > now ==> k in b')
  }

  /** No cooldown ends earlier than before, and no bucket goes before its end. */
  ghost predicate NoneShortened(b: map<Key, Bucket>, b': map<Key, Bucket>, now: real) {
    forall k :: k in b && b[k].cooldownUntil > now ==> k in b' && b'[k].cooldownUntil >= b[k].cooldownUntil
  }

  /** The bucket of `key` cools down until `until`, and then buckets that are not protected go. */
  ghost predicate Recooled(b: map<Key, Bucket>, b': map<Key, Bucket>, key: Key, until: real, now: real)
    requires key in b
  {
    Evicted(b[key := b[key].(cooldownUntil := until)], b', now)
  }

  lemma CooledThrough(b: map<Key, Bucket>, b1: map<Key, Bucket>, b2: map<Key, Bucket>, key: Key, was: real, until: real, now: real)
    requires Cooled(b, b1, key, was, now) && key in b1 && Recooled(b1, b2, key, until, now)
    requires CooldownOf(b, key) <= was <= until
    ensures Cooled(b, b2, key, until, now) && NoneShortened(b, b2, now)
    ensures key in b2 ==> b2[key] == b1[key].(cooldownUntil := until)
  {
    RecooledAgain(b, b1, key, was, until, now);
    EvictedCooled(b, b1[key := b1[key].(cooldownUntil := until)], b2, key, until, now);
  }

  lemma EvictedCooled(b: map<Key, Bucket>, b1: map<Key, Bucket>, b2: map<Key, Bucket>, key: Key, until: real, now: real)
    requires Cooled(b, b1, key, until, now) && Evicted(b1, b2, now)
    ensures Cooled(b, b2, key, until, now)
  {
  }

  lemma CooledShortensNone(b: map<Key, Bucket>, b': map<Key, Bucket>, key: Key, until: real, now: real)
    requires Cooled(b, b', key, until, now) && until >= CooldownOf(b, key)
    ensures NoneShortened(b, b', now)
  {
  }

  lemma RecooledAgain(b: map<Key, Bucket>, b1: map<Key, Bucket>, key: Key, was: real, until: real, now: real)
    requires Cooled(b, b1, key, was, now) && key in b1
    ensures Cooled(b, b1[key := b1[key].(cooldownUntil := until)], key, until, now)
  {
  }

  lemma EvictedThenKeeps(b: map<Key, Bucket>, b1: map<Key, Bucket>, keys: set<Key>, now: real)
    requires Evicted(b, b1, now) && Keeps(b1, keys, now)
    ensures Keeps(b, keys, now)
  {
  }

  lemma EvictionKeepsCount(c: map<nat, Context>, b: map<Key, Bucket>, b': map<Key, Bucket>, now: real)
    requires BucketsCount(c, b) && Evicted(b, b', now)
    ensures BucketsCount(c, b')
  {
    forall i | i in Open(c) ensures c[i].key in b' {
      assert i in OpenAt(c, c[i].key);
    }
  }

  lemma EvictionShrinks(b: map<Key, Bucket>, b': map<Key, Bucket>, now: real)
    requires Evicted(b, b', now)
    ensures |b'| <= |b|
  {
    SubsetSize(b'.Keys, b.Keys);
    assert |b'| == |b'.Keys| && |b| == |b.Keys|;
  }

  lemma {:induction false} SubsetSize<T>(a: set<T>, b: set<T>)
    requires a <= b
    ensures |a| <= |b|
  {
    if a != {} {
      var x :| x in a;
      SubsetSize(a - {x}, b - {x});
    }
  }

  lemma EvictedTransitive(b: map<Key, Bucket>, b1: map<Key, Bucket>, b2: map<Key, Bucket>, now: real)
    requires Evicted(b, b1, now) && Evicted(b1, b2, now)
    ensures Evicted(b, b2, now)
  {
  }

  function WithoutStale(b: map<Key, Bucket>, staleBefore: real, now: real): (r: map<Key, Bucket>)
    ensures Evicted(b, r, now)
    ensures forall k :: k in b && k !in r ==> b[k].lastSeen < staleBefore
    ensures forall k :: k in r && !Protected(r[k], now) ==> r[k].lastSeen >= staleBefore
  {
    map k | k in b && !(b[k].lastSeen < staleBefore && !Protected(b[k], now)) :: b[k]
  }

  /** A bucket nobody uses may be added. */
  lemma AddBucket(c: map<nat, Context>, b: map<Key, Bucket>, key: Key, added: Bucket)
    requires BucketsCount(c, b) && key !in b && added.inFlight == 0
    ensures BucketsCount(c, b[key := added])
    ensures b[key := added] - {key} == b
  {
    assert forall i | i in OpenAt(c, key) :: i in Open(c);
    assert OpenAt(c, key) == {};
  }

  lemma AddedSize(b: map<Key, Bucket>, key: Key, added: Bucket)
    requires key !in b
    ensures |b[key := added]| == |b| + 1
  {
    assert b[key := added].Keys == b.Keys + {key};
    assert |b[key := added].Keys| == |b.Keys| + 1;
  }

  lemma DropBucket(b: map<Key, Bucket>, key: Key)
    requires key in b
    ensures |b - {key}| == |b| - 1
  {
    assert (b - {key}).Keys == b.Keys - {key};
    assert |(b - {key}).Keys| == |b.Keys| - 1;
  }

  lemma SetSwap<T>(a: set<T>, b: set<T>, x: T)
    requires a - {x} == b - {x}
    ensures |a| - (if x in a then 1 else 0) == |b| - (if x in b then 1 else 0)
  {
    assert x in a ==> |a| == |a - {x}| + 1;
    assert x in b ==> |b| == |b - {x}| + 1;
    assert x !in a ==> a == a - {x};
    assert x !in b ==> b == b - {x};
  }

  lemma AdmitSets(c: map<nat, Context>, id: nat, x: Context)
    requires id !in c && !x.released && !x.bodyPending
    ensures var c' := c[id := x];
            Open(c') == Open(c) + {id} && Pending(c') == Pending(c) && Unrecorded(c') == Unrecorded(c)
  {
  }

  lemma AdmitOpenAt(c: map<nat, Context>, id: nat, x: Context, k: Key)
    requires id !in c && !x.released
    ensures |OpenAt(c[id := x], k)| == |OpenAt(c, k)| + if k == x.key then 1 else 0
  {
    var c' := c[id := x];
    if k == x.key {
      assert OpenAt(c', k) == OpenAt(c, k) + {id} && id !in OpenAt(c, k);
    } else {
      assert OpenAt(c', k) == OpenAt(c, k);
    }
  }

  lemma AdmitCounts(c: map<nat, Context>, b: map<Key, Bucket>, id: nat, x: Context, admitted: Bucket)
    requires BucketsCount(c, b) && id !in c && x.key in b && !x.released && !x.bodyPending
    requires admitted.inFlight == b[x.key].inFlight + 1
    ensures var c' := c[id := x];
            && BucketsCount(c', b[x.key := admitted])
            && |Open(c')| == |Open(c)| + 1 && Pending(c') == Pending(c) && Unrecorded(c') == Unrecorded(c)
  {
    var c' := c[id := x];
    AdmitSets(c, id, x);
    forall k | k in b ensures |OpenAt(c', k)| == |OpenAt(c, k)| + if k == x.key then 1 else 0 {
      AdmitOpenAt(c, id, x, k);
    }
    forall i | i in Open(c') ensures c'[i].key in b[x.key := admitted] {
      if i != id { assert i in Open(c) && c'[i] == c[i]; }
    }
  }

  /** Releasing an open request finds its bucket with a positive counter. */
  lemma ReleaseCounts(c: map<nat, Context>, b: map<Key, Bucket>, id: nat)
    requires BucketsCount(c, b) && id in c && !c[id].released
    ensures c[id].key in b && b[c[id].key].inFlight >= 1 && |Open(c)| >= 1
    ensures var k, c' := c[id].key, c[id := c[id].(released := true)];
            && BucketsCount(c', b[k := b[k].(inFlight := b[k].inFlight - 1)])
            && |Open(c')| == |Open(c)| - 1 && Pending(c') == Pending(c) && Unrecorded(c') == Unrecorded(c)
  {
    var key, c' := c[id].key, c[id := c[id].(released := true)];
    assert id in Open(c) && id in OpenAt(c, key);
    assert Open(c') == Open(c) - {id};
    forall k ensures OpenAt(c', k) == if k == key then OpenAt(c, k) - {id} else OpenAt(c, k) {}
  }

  /** Notes about the body of a response do not touch the reservations. */
  lemma NoteCounts(c: map<nat, Context>, b: map<Key, Bucket>, id: nat, x: Context)
    requires BucketsCount(c, b) && id in c && x.key == c[id].key && x.released == c[id].released
    ensures var c' := c[id := x];
            && BucketsCount(c', b) && Open(c') == Open(c)
            && |Pending(c')| == |Pending(c)| + (if x.bodyPending then 1 else 0) - (if c[id].bodyPending then 1 else 0)
            && |Unrecorded(c')| == |Unrecorded(c)| + (if x.bodyPending && !x.recorded then 1 else 0)
                                   - (if c[id].bodyPending && !c[id].recorded then 1 else 0)
  {
    var c' := c[id := x];
    forall k ensures OpenAt(c', k) == OpenAt(c, k) {}
    NoteSets(c, id, x);
    SetSwap(Pending(c'), Pending(c), id);
    SetSwap(Unrecorded(c'), Unrecorded(c), id);
  }

  lemma NoteSets(c: map<nat, Context>, id: nat, x: Context)
    requires id in c && x.released == c[id].released
    ensures var c' := c[id := x];
            && Open(c') == Open(c)
            && Pending(c') - {id} == Pending(c) - {id}
            && Unrecorded(c') - {id} == Unrecorded(c) - {id}
            && (id in Pending(c') <==> x.bodyPending)
            && (id in Unrecorded(c') <==> x.bodyPending && !x.recorded)
  {
  }

  /** A bucket's timing may change as long as its counter does not. */
  lemma RetimeCounts(c: map<nat, Context>, b: map<Key, Bucket>, key: Key, x: Bucket)
    requires BucketsCount(c, b) && key in b && x.inFlight == b[key].inFlight
    ensures BucketsCount(c, b[key := x]) && |b[key := x]| == |b|
  {
    assert b[key := x].Keys == b.Keys;
    assert |b[key := x]| == |b[key := x].Keys|;
  }

  /** A key with the least `lastSeen`. */
  method Oldest(b: map<Key, Bucket>, keys: set<Key>) returns (oldest: Key)
    requires keys != {} && keys <= b.Keys
    ensures oldest in keys && forall k :: k in keys ==> b[oldest].lastSeen <= b[k].lastSeen
  {
    oldest :| oldest in keys;
    var rest := keys - {oldest};
    while rest != {}
      invariant rest <= keys && oldest in keys
      invariant forall k :: k in keys - rest ==> b[oldest].lastSeen <= b[k].lastSeen
    {
      var k :| k in rest;
      if b[k].lastSeen < b[oldest].lastSeen { oldest := k; }
      rest := rest - {k};
    }
  }

  /** No bucket can be made for the key: the hard limit is reached and every bucket is protected. */
  ghost predicate NoRoom(b: map<Key, Bucket>, hardLimit: nat, key: Key, now: real) {
    key !in b && |b| >= hardLimit && forall k :: k in b ==> Protected(b[k], now)
  }

  /** A deque of times, with the whole log of what was ever appended. */
  class TimeLog {
    const window: real
    var entries: seq<real>
    ghost var log: seq<real>
    ghost var popped: nat     // how much of the log left the deque
    ghost var clock: real     // the latest time entries were dropped for

    ghost predicate Valid() reads this {
      TailOf(entries, log, popped, window, clock)
    }

    constructor (window: real)
      ensures Valid() && this.window == window && log == [] && entries == [] && clock == 0.0
    {
      this.window := window;
      entries, log, popped, clock := [], [], 0, 0.0;
    }

    method Append(t: real)
      requires Valid()
      modifies this
      ensures Valid() && clock == old(clock)
      ensures entries == old(entries) + [t] && log == old(log) + [t]
    {
      AppendKeepsTail(entries, log, popped, window, clock, t);
      entries, log := entries + [t], log + [t];
    }

    /** Drops from the front what lies at or before the start of the window that ends now. */
    method DropBefore(now: real)
      requires Valid()
      modifies this
      ensures Valid() && log == old(log) && popped == old(popped) + OldPrefix(old(entries), now - window)
      ensures |entries| == Left(old(entries), now - window) && YoungFront(entries, now - window)
      ensures clock == if now > old(clock) then now else old(clock)
    {
      ghost var clock' := if now > clock then now else clock;
      ghost var n := OldPrefix(entries, now - window);
      DropKeepsTail(entries, log, popped, window, clock, now, clock');
      PopWhileOld(now - window);
      popped, clock := popped + n, clock';
    }

    method PopWhileOld(cutoff: real)
      modifies `entries
      ensures entries == DropOld(old(entries), cutoff) && |entries| == Left(old(entries), cutoff)
      ensures YoungFront(entries, cutoff)
    {
      while entries != [] && entries[0] <= cutoff
        invariant DropOld(entries, cutoff) == DropOld(old(entries), cutoff)
        decreases |entries|
      {
        entries := entries[1..];
      }
    }
  }

  // ---------------------------------------------------------------- the limiter

  class Limiter {
    const config: Config
    const globalAdmissions: TimeLog    // admissions that count against the global window
    const invalidResponses: TimeLog    // recorded invalid responses
    var invalidInFlight: int
    var unresolved429Bodies: int
    var globalCooldownUntil: real
    var buckets: map<Key, Bucket>
    var nextAdmissionId: nat
    var closed: bool
    var contexts: map<nat, Context>

    var clock: real                  // the latest time read so far
    ghost var unread: nat            // 429 responses whose body is unread and that are not recorded
    ghost var unrecorded: nat        // invalid responses whose processing failed before recording

    ghost predicate CountersValid()
      reads `contexts, `buckets, `invalidInFlight, `unresolved429Bodies, `unread, `nextAdmissionId
    {
      && BucketsCount(contexts, buckets)
      && invalidInFlight == |Open(contexts)|
      && unresolved429Bodies == |Pending(contexts)| && unread == |Unrecorded(contexts)|
      && (forall i :: i in contexts ==> i <= nextAdmissionId)
      && (forall i :: i in contexts && !contexts[i].released ==> !contexts[i].recorded)
      && |buckets| <= config.maxBuckets + config.globalLimit
    }

    ghost predicate HistoryValid()
      reads globalAdmissions, invalidResponses, `clock
    {
      && globalAdmissions != invalidResponses && clock >= 0.0
      && globalAdmissions.Valid() && globalAdmissions.window == config.globalWindow && globalAdmissions.clock <= clock
      && invalidResponses.Valid() && invalidResponses.window == config.invalidWindow && invalidResponses.clock <= clock
      && Spaced(globalAdmissions.log, config.globalLimit, config.globalWindow)
    }

    /** Recorded invalid responses, requests in flight, and 429 responses whose body is unread. */
    ghost function Used(): int
      reads invalidResponses`entries, `invalidInFlight, `unread
    {
      |invalidResponses.entries| + invalidInFlight + unread
    }

    ghost predicate Valid() reads this, globalAdmissions, invalidResponses {
      config.Valid() && CountersValid() && HistoryValid() && Used() <= config.invalidLimit
    }

    constructor (config: Config)
      requires config.Valid()
      ensures Valid() && fresh(globalAdmissions) && fresh(invalidResponses)
      ensures this.config == config && contexts == map[] && buckets == map[] && !closed
      ensures globalAdmissions.log == [] && invalidResponses.log == [] && unrecorded == 0 && clock == 0.0
    {
      this.config := config;
      globalAdmissions := new TimeLog(config.globalWindow);
      invalidResponses := new TimeLog(config.invalidWindow);
      invalidInFlight, unresolved429Bodies, clock, unread, unrecorded := 0, 0, 0.0, 0, 0;
      globalCooldownUntil, buckets, nextAdmissionId, closed, contexts := 0.0, map[], 0, false, map[];
    }

    /** In every reachable state the recorded invalid responses of the last window, the requests in
        flight and the unread 429 bodies stay within the budget, although the deque is not sorted. */
    lemma RecentInvalidWithinBudget()
      requires Valid()
      ensures Recent(invalidResponses.log, clock - config.invalidWindow) + invalidInFlight + unread <= config.invalidLimit
    {
      RecentInTail(invalidResponses.log, clock - config.invalidWindow, |invalidResponses.entries|);
    }

    // -------------------------------------------------------------- cleaning up and making room

    /** `_cleanup_locked`: the two deques, stale buckets, then the oldest surplus ones. */
    method Cleanup(now: real)
      requires config.Valid() && CountersValid() && HistoryValid()
      modifies globalAdmissions, invalidResponses, `buckets, `clock
      ensures CountersValid() && HistoryValid() && Evicted(old(buckets), buckets, now)
      ensures clock == if now > old(clock) then now else old(clock)
      ensures globalAdmissions.log == old(globalAdmissions.log) && invalidResponses.log == old(invalidResponses.log)
      ensures |globalAdmissions.entries| == Left(old(globalAdmissions.entries), now - config.globalWindow)
      ensures |invalidResponses.entries| == Left(old(invalidResponses.entries), now - config.invalidWindow)
      ensures YoungFront(globalAdmissions.entries, now - config.globalWindow)
      ensures YoungFront(invalidResponses.entries, now - config.invalidWindow)
      ensures forall k :: k in buckets && Idle(buckets[k], now) ==> now - config.routeTtl <= buckets[k].lastSeen
      ensures forall k :: k in old(buckets) && k !in buckets ==>
                && Idle(old(buckets)[k], now)
                && (|old(buckets)| <= config.maxBuckets ==> old(buckets)[k].lastSeen < now - config.routeTtl)
      ensures forall k, j :: k in old(buckets) && k !in buckets && j in buckets && Idle(buckets[j], now) ==>
                old(buckets)[k].lastSeen <= buckets[j].lastSeen
      ensures |buckets| > config.maxBuckets ==> forall k :: k in buckets ==> !Idle(buckets[k], now)
    {
      CleanDeques(now);
      CleanupBuckets(now);
    }

    method CleanDeques(now: real)
      requires config.Valid() && HistoryValid()
      modifies globalAdmissions, invalidResponses, `clock
      ensures HistoryValid() && clock == if now > old(clock) then now else old(clock)
      ensures globalAdmissions.log == old(globalAdmissions.log) && invalidResponses.log == old(invalidResponses.log)
      ensures |globalAdmissions.entries| == Left(old(globalAdmissions.entries), now - config.globalWindow)
      ensures |invalidResponses.entries| == Left(old(invalidResponses.entries), now - config.invalidWindow)
      ensures YoungFront(globalAdmissions.entries, now - config.globalWindow)
      ensures YoungFront(invalidResponses.entries, now - config.invalidWindow)
    {
      globalAdmissions.DropBefore(now);
      invalidResponses.DropBefore(now);
      if now > clock { clock := now; }
    }

    method CleanupBuckets(now: real)
      requires CountersValid()
      modifies `buckets
      ensures CountersValid() && Evicted(old(buckets), buckets, now)
      ensures forall k :: k in buckets && !Protected(buckets[k], now) ==> now - config.routeTtl <= buckets[k].lastSeen
      ensures |old(buckets)| <= config.maxBuckets ==>
                forall k :: k in old(buckets) && k !in buckets ==> old(buckets)[k].lastSeen < now - config.routeTtl
      ensures forall k, j :: k in old(buckets) && k !in buckets && j in buckets && !Protected(buckets[j], now) ==>
                old(buckets)[k].lastSeen <= buckets[j].lastSeen
      ensures |buckets| > config.maxBuckets ==> forall k :: k in buckets ==> Protected(buckets[k], now)
    {
      var lively := WithoutStale(buckets, now - config.routeTtl, now);
      var kept := EvictSurplus(lively, now);
      EvictedTransitive(buckets, lively, kept, now);
      EvictionKeepsCount(contexts, buckets, kept, now);
      EvictionShrinks(buckets, kept, now);
      EvictionShrinks(buckets, lively, now);
      buckets := kept;
    }

    /** Drops the oldest unprotected buckets until the bound holds or none is left to drop. */
    method EvictSurplus(b: map<Key, Bucket>, now: real) returns (kept: map<Key, Bucket>)
      ensures Evicted(b, kept, now)
      ensures if |b| <= config.maxBuckets then kept == b else |kept| >= config.maxBuckets
      ensures |kept| > config.maxBuckets ==> forall k :: k in kept ==> Protected(kept[k], now)
      ensures forall k, j :: k in b && k !in kept && j in kept && !Protected(b[j], now) ==> b[k].lastSeen <= b[j].lastSeen
    {
      kept := b;
      var evictable := set k | k in b && !Protected(b[k], now);
      while |kept| > config.maxBuckets && evictable != {}
        invariant Evicted(b, kept, now)
        invariant if |b| <= config.maxBuckets then kept == b else |kept| >= config.maxBuckets
        invariant evictable == set k | k in kept && !Protected(kept[k], now)
        invariant forall k, j :: k in b && k !in kept && j in evictable ==> b[k].lastSeen <= b[j].lastSeen
        decreases evictable
      {
        var k := Oldest(kept, evictable);
        DropBucket(kept, k);
        kept := kept - {k};
        evictable := evictable - {k};
      }
      forall k | k in kept && !Protected(kept[k], now) ensures k in evictable {}
    }

    /** `_bucket_for_route_locked` with `_make_route_bucket_room_locked`: a new bucket takes the
        place of the oldest unprotected one, or a place below the hard limit. */
    method BucketFor(key: Key, now: real) returns (ok: bool)
      requires config.Valid() && CountersValid()
      modifies `buckets
      ensures CountersValid()
      ensures ok ==> key in buckets && (key in old(buckets) ==> buckets == old(buckets))
      ensures ok && key !in old(buckets) ==>
                buckets[key] == NewBucket(now) && Evicted(old(buckets), buckets - {key}, now)
      ensures Keeps(old(buckets), buckets.Keys, now)
      ensures !ok ==> buckets == old(buckets)
      ensures !ok <==> NoRoom(old(buckets), config.maxBuckets + config.globalLimit, key, now)
    {
      if key in buckets { return true; }
      ok := MakeRoom(now);
      if !ok { return; }
      AddBucket(contexts, buckets, key, NewBucket(now));
      AddedSize(buckets, key, NewBucket(now));
      buckets := buckets[key := NewBucket(now)];
    }

    method MakeRoom(now: real) returns (ok: bool)
      requires config.Valid() && CountersValid()
      modifies `buckets
      ensures CountersValid() && Evicted(old(buckets), buckets, now)
      ensures |old(buckets)| < config.maxBuckets ==> buckets == old(buckets)
      ensures |old(buckets)| <= |buckets| + 1
      ensures |old(buckets)| >= config.maxBuckets && (exists k :: k in old(buckets) && !Protected(old(buckets)[k], now)) ==>
                |buckets| + 1 == |old(buckets)|
      ensures forall k, j :: k in old(buckets) && k !in buckets && j in buckets && !Protected(buckets[j], now) ==>
                old(buckets)[k].lastSeen <= buckets[j].lastSeen
      ensures ok ==> |buckets| < config.maxBuckets + config.globalLimit
      ensures !ok ==> buckets == old(buckets)
      ensures !ok <==> |old(buckets)| >= config.maxBuckets + config.globalLimit &&
                       forall k :: k in old(buckets) ==> Protected(old(buckets)[k], now)
    {
      if |buckets| < config.maxBuckets { return true; }
      var evictable := set k | k in buckets && !Protected(buckets[k], now);
      if evictable != {} {
        var oldest := Oldest(buckets, evictable);
        DropBucket(buckets, oldest);
        EvictionKeepsCount(contexts, buckets, buckets - {oldest}, now);
        buckets := buckets - {oldest};
        return true;
      }
      forall k | k in buckets ensures Protected(buckets[k], now) {
        assert k !in evictable;
      }
      ok := |buckets| < config.maxBuckets + config.globalLimit;
    }

    // -------------------------------------------------------------- admission

    /** Waiting times that are not over yet, smallest first; None for one without a known end. */
    static function Shortest(waits: seq<Option<real>>): Option<real> {
      if waits == [] then None
      else
        var rest := Shortest(waits[1..]);
        if waits[0].Some? && waits[0].value > 0.0 && (rest.None? || waits[0].value < rest.value) then waits[0] else rest
    }

    static predicate Active(wait: Option<real>) {
      wait.None? || wait.value > 0.0
    }

    static ghost predicate Finite(waits: seq<Option<real>>, d: real) {
      d > 0.0 && Some(d) in waits
    }

    /** The least finite wait that is not over, or None when there is none. */
    static ghost predicate Least(waits: seq<Option<real>>, delay: Option<real>) {
      match delay
      case None => forall d :: !Finite(waits, d)
      case Some(d) => Finite(waits, d) && forall e :: Finite(waits, e) ==> d <= e
    }

    static lemma {:induction false} ShortestIsLeast(waits: seq<Option<real>>)
      ensures Least(waits, Shortest(waits))
    {
      if waits != [] {
        ShortestIsLeast(waits[1..]);
        forall d ensures Finite(waits, d) <==> Finite(waits[1..], d) || (waits[0] == Some(d) && d > 0.0) {
          assert waits == [waits[0]] + waits[1..];
        }
      }
    }

    /** `_route_wait_locked`: pacing, cooldown and the window of the bucket. */
    static function RouteWait(b: Bucket, paced: real, now: real): real {
      var wait := if b.nextAt > now then b.nextAt - now else 0.0;
      var cooled := if b.cooldownUntil - now > wait then b.cooldownUntil - now else wait;
      if paced > cooled then paced else cooled
    }

    /** The waits of one pass: global cooldown, global window, route, invalid budget, unread bodies. */
    function Waits(key: Key, exempt: bool, paced: real, now: real): (w: seq<Option<real>>)
      requires key in buckets
      reads this, globalAdmissions, invalidResponses
      ensures |w| == 5
    {
      [if exempt then Some(0.0) else Some(globalCooldownUntil - now),
       if exempt then Some(0.0) else Some(GlobalWait(now)),
       Some(RouteWait(buckets[key], paced, now)),
       InvalidWait(now),
       if unresolved429Bodies > 0 then None else Some(0.0)]
    }

    /** The waits for the two windows end exactly when an entry has left the deque. */
    lemma WaitsForTheWindow(now: real, later: real)
      requires config.Valid() && now <= later
      ensures |globalAdmissions.entries| >= config.globalLimit ==>
                (Left(globalAdmissions.entries, later - config.globalWindow) < |globalAdmissions.entries|
                 <==> later >= now + GlobalWait(now))
      ensures |invalidResponses.entries| + invalidInFlight >= config.invalidLimit && InvalidWait(now).Some? ==>
                (Left(invalidResponses.entries, later - config.invalidWindow) < |invalidResponses.entries|
                 <==> later >= now + InvalidWait(now).value)
    {
    }

    function GlobalWait(now: real): real reads globalAdmissions {
      if |globalAdmissions.entries| < config.globalLimit || globalAdmissions.entries == [] then 0.0
      else if globalAdmissions.entries[0] + config.globalWindow > now then globalAdmissions.entries[0] + config.globalWindow - now else 0.0
    }

    function InvalidWait(now: real): Option<real> reads this, invalidResponses {
      if |invalidResponses.entries| + invalidInFlight < config.invalidLimit then Some(0.0)
      else if invalidResponses.entries != [] then
        Some(if invalidResponses.entries[0] + config.invalidWindow > now then invalidResponses.entries[0] + config.invalidWindow - now else 0.0)
      else None
    }

    /** What must hold for an admission, once both deques were cleaned up. */
    ghost predicate MayAdmit(key: Key, exempt: bool, paced: real, now: real) reads this, globalAdmissions, invalidResponses {
      && (exempt || (globalCooldownUntil <= now && Left(globalAdmissions.entries, now - config.globalWindow) < config.globalLimit))
      && (key in buckets ==> buckets[key].nextAt <= now && buckets[key].cooldownUntil <= now) && paced <= 0.0
      && Left(invalidResponses.entries, now - config.invalidWindow) + invalidInFlight < config.invalidLimit
      && unresolved429Bodies == 0
    }

    /** The same on cleaned-up deques. */
    ghost predicate NothingToWaitFor(key: Key, exempt: bool, paced: real, now: real) reads this, globalAdmissions, invalidResponses {
      && (exempt || (globalCooldownUntil <= now && |globalAdmissions.entries| < config.globalLimit))
      && (key in buckets ==> buckets[key].nextAt <= now && buckets[key].cooldownUntil <= now) && paced <= 0.0
      && |invalidResponses.entries| + invalidInFlight < config.invalidLimit && unresolved429Bodies == 0
    }

    /** One pass of the loop of `on_request_start`. `key` is the bucket the route maps to, and
        `paced` what the number of requests in that bucket's own window asks for. */
    method OnRequestStart(key: Key, exempt: bool, paced: real, now: real, admittedAt: real) returns (r: Start)
      requires Valid() && clock <= now <= admittedAt
      modifies globalAdmissions, invalidResponses, `buckets, `clock, `contexts, `invalidInFlight, `nextAdmissionId
      ensures Valid() && invalidResponses.log == old(invalidResponses.log)
      ensures r.Closed? <==> old(closed)
      ensures r.CapacityExceeded? ==> |old(buckets)| >= config.maxBuckets + config.globalLimit
      ensures r.Wait? ==> key in buckets && Least(Waits(key, exempt, paced, now), r.delay)
      ensures r.Closed? || r.CapacityExceeded? || (r.Admitted? <==> old(MayAdmit(key, exempt, paced, now)))
      ensures r.Admitted? ==>
                && r.id !in old(contexts) && contexts == old(contexts)[r.id := Context(key, admittedAt, false, false, false, false, 0.0)]
                && invalidInFlight == old(invalidInFlight) + 1
                && globalAdmissions.log == old(globalAdmissions.log) + (if exempt then [] else [admittedAt])
                && key in buckets && buckets[key].lastSeen == admittedAt && clock == admittedAt
                && (buckets[key].interval.Some? ==> buckets[key].nextAt == admittedAt + buckets[key].interval.value)
      ensures buckets.Keys <= old(buckets).Keys + {key}
      ensures !r.Admitted? ==>
                contexts == old(contexts) && invalidInFlight == old(invalidInFlight) && globalAdmissions.log == old(globalAdmissions.log)
      ensures Keeps(old(buckets), buckets.Keys, now) && NoneShortened(old(buckets), buckets, now)
      ensures r.Wait? || r.CapacityExceeded? ==> clock == now
      ensures r.Closed? ==> buckets == old(buckets) && clock == old(clock)
    {
      if closed { return Closed; }
      var ok := CleanupAndRoute(key, now, exempt, paced);
      if !ok { return CapacityExceeded; }
      r := Decide(key, exempt, paced, now, admittedAt);
    }

    method CleanupAndRoute(key: Key, now: real, ghost exempt: bool, ghost paced: real) returns (ok: bool)
      requires Valid() && clock <= now
      modifies globalAdmissions, invalidResponses, `buckets, `clock
      ensures globalAdmissions.log == old(globalAdmissions.log) && invalidResponses.log == old(invalidResponses.log)
      ensures Valid() && clock == now
      ensures ok ==> key in buckets
      ensures !ok ==> |old(buckets)| >= config.maxBuckets + config.globalLimit
      ensures buckets.Keys <= old(buckets).Keys + {key}
      ensures old(MayAdmit(key, exempt, paced, now)) <==> NothingToWaitFor(key, exempt, paced, now)
      ensures YoungFront(globalAdmissions.entries, now - config.globalWindow)
      ensures YoungFront(invalidResponses.entries, now - config.invalidWindow)
      ensures Keeps(old(buckets), buckets.Keys, now) && NoneShortened(old(buckets), buckets, now)
    {
      CleanupForStart(key, now, exempt, paced);
      ghost var b1 := buckets;
      ok := BucketFor(key, now);
      EvictedThenKeeps(old(buckets), b1, buckets.Keys, now);
      EvictionShrinks(old(buckets), b1, now);
    }

    method CleanupForStart(ghost key: Key, now: real, ghost exempt: bool, ghost paced: real)
      requires Valid() && clock <= now
      modifies globalAdmissions, invalidResponses, `buckets, `clock
      ensures globalAdmissions.log == old(globalAdmissions.log) && invalidResponses.log == old(invalidResponses.log)
      ensures Valid() && clock == now && Evicted(old(buckets), buckets, now)
      ensures old(MayAdmit(key, exempt, paced, now)) <==> NothingToWaitFor(key, exempt, paced, now)
      ensures YoungFront(globalAdmissions.entries, now - config.globalWindow)
      ensures YoungFront(invalidResponses.entries, now - config.invalidWindow)
    {
      Cleanup(now);
    }

    /** The waits, and the admission if none is left. */
    method Decide(key: Key, exempt: bool, paced: real, now: real, admittedAt: real) returns (r: Start)
      requires Valid() && clock <= admittedAt && now <= clock && key in buckets
      requires YoungFront(globalAdmissions.entries, now - config.globalWindow)
      requires YoungFront(invalidResponses.entries, now - config.invalidWindow)
      modifies globalAdmissions, `invalidInFlight, `buckets, `contexts, `clock, `nextAdmissionId
      ensures Valid()
      ensures r.Admitted? || r.Wait?
      ensures r.Admitted? <==> old(NothingToWaitFor(key, exempt, paced, now))
      ensures r.Wait? ==> key in buckets && Least(Waits(key, exempt, paced, now), r.delay)
      ensures r.Admitted? ==>
                && r.id !in old(contexts) && contexts == old(contexts)[r.id := Context(key, admittedAt, false, false, false, false, 0.0)]
                && invalidInFlight == old(invalidInFlight) + 1
                && globalAdmissions.log == old(globalAdmissions.log) + (if exempt then [] else [admittedAt])
                && buckets == old(buckets)[key := AdmittedTo(old(buckets)[key], admittedAt)] && clock == admittedAt
      ensures !r.Admitted? ==>
                contexts == old(contexts) && invalidInFlight == old(invalidInFlight) && globalAdmissions.log == old(globalAdmissions.log) && buckets == old(buckets)
                && clock == old(clock)
    {
      var waits := Waits(key, exempt, paced, now);
      if Active(waits[0]) || Active(waits[1]) || Active(waits[2]) || Active(waits[3]) || Active(waits[4]) {
        ShortestIsLeast(waits);
        return Wait(Shortest(waits));
      }
      nextAdmissionId := nextAdmissionId + 1;
      Admit(nextAdmissionId, key, exempt, admittedAt);
      r := Admitted(nextAdmissionId);
    }

    method Admit(id: nat, key: Key, exempt: bool, admittedAt: real)
      requires Valid() && clock <= admittedAt && key in buckets && id !in contexts && id <= nextAdmissionId
      requires exempt || |globalAdmissions.entries| < config.globalLimit
      requires |invalidResponses.entries| + invalidInFlight < config.invalidLimit && unresolved429Bodies == 0
      modifies globalAdmissions, `invalidInFlight, `buckets, `contexts, `clock
      ensures Valid()
      ensures contexts == old(contexts)[id := Context(key, admittedAt, false, false, false, false, 0.0)]
      ensures invalidInFlight == old(invalidInFlight) + 1
      ensures globalAdmissions.log == old(globalAdmissions.log) + (if exempt then [] else [admittedAt])
      ensures buckets == old(buckets)[key := AdmittedTo(old(buckets)[key], admittedAt)] && clock == admittedAt
    {
      LogAdmission(exempt, admittedAt);
      assert Unrecorded(contexts) <= Pending(contexts);
      CountAdmission(id, key, admittedAt);
    }

    method CountAdmission(id: nat, key: Key, admittedAt: real)
      requires CountersValid() && key in buckets && id !in contexts && id <= nextAdmissionId
      modifies `invalidInFlight, `buckets, `contexts
      ensures CountersValid()
      ensures contexts == old(contexts)[id := Context(key, admittedAt, false, false, false, false, 0.0)]
      ensures invalidInFlight == old(invalidInFlight) + 1
      ensures buckets == old(buckets)[key := AdmittedTo(old(buckets)[key], admittedAt)]
    {
      var b := buckets[key];
      var b' := AdmittedTo(b, admittedAt);
      AdmitCounts(contexts, buckets, id, Context(key, admittedAt, false, false, false, false, 0.0), b');
      SameKeysSameSize(buckets, buckets[key := b']);
      invalidInFlight := invalidInFlight + 1;
      buckets := buckets[key := b'];
      contexts := contexts[id := Context(key, admittedAt, false, false, false, false, 0.0)];
    }

    method LogAdmission(exempt: bool, admittedAt: real)
      requires HistoryValid() && clock <= admittedAt
      requires exempt || |globalAdmissions.entries| < config.globalLimit
      modifies globalAdmissions, `clock
      ensures HistoryValid() && clock == admittedAt
      ensures globalAdmissions.log == old(globalAdmissions.log) + (if exempt then [] else [admittedAt])
    {
      clock := admittedAt;
      if !exempt {
        AdmitKeepsSpacing(globalAdmissions.entries, globalAdmissions.log, globalAdmissions.popped,
                          config.globalLimit, config.globalWindow, globalAdmissions.clock, admittedAt);
        globalAdmissions.Append(admittedAt);
      }
    }

    // -------------------------------------------------------------- responses

    /** What a response of time `at` makes of the global cooldown. */
    static function GlobalAfter(was: real, h: Headers, at: real): real {
      if h.Cools() && h.isGlobal then Later(was, at + h.retryAfter.value) else was
    }

    /** What the body of a 429 makes of its bucket's, when it is for the route only. */
    static function RetriedAfter(was: real, b: Body, at: real): real {
      if b.isGlobal then was else Later(was, at + b.retryAfter)
    }

    /** What it makes of its bucket's. */
    static function RouteAfter(was: real, h: Headers, at: real): real {
      if h.Cools() && !h.isGlobal then Later(was, at + h.retryAfter.value) else was
    }

    /** `_release_reservation_locked`: the first release of a request gives its reservation back;
        neither counter is ever clamped at zero. */
    method Release(id: nat)
      requires config.Valid() && CountersValid() && id in contexts
      modifies `invalidInFlight, `buckets, `contexts
      ensures CountersValid() && contexts == old(contexts)[id := old(contexts)[id].(released := true)]
      ensures invalidInFlight == old(invalidInFlight) - (if old(contexts)[id].released then 0 else 1)
      ensures invalidInFlight >= 0 && buckets.Keys == old(buckets).Keys
      ensures forall k :: k in buckets ==> buckets[k] == old(buckets)[k].(inFlight := buckets[k].inFlight)
    {
      if contexts[id].released {
        assert contexts == contexts[id := contexts[id].(released := true)];
        return;
      }
      ReleaseCounts(contexts, buckets, id);
      var key := contexts[id].key;
      invalidInFlight := if invalidInFlight - 1 < 0 then 0 else invalidInFlight - 1;
      if key in buckets {
        var n := buckets[key].inFlight - 1;
        SameKeysSameSize(buckets, buckets[key := buckets[key].(inFlight := if n < 0 then 0 else n)]);
        buckets := buckets[key := buckets[key].(inFlight := if n < 0 then 0 else n)];
      }
      contexts := contexts[id := contexts[id].(released := true)];
    }

    /** `_response_bucket_locked`: finds or makes the bucket the response belongs to and takes over
        what its headers taught. */
    method ResponseBucket(id: nat, key: Key, learned: Option<Bucket>, now: real) returns (ok: bool)
      requires config.Valid() && CountersValid() && id in contexts
      modifies `buckets
      ensures CountersValid()
      ensures ok ==> key in buckets && Cooled(old(buckets), buckets, key, Taught(old(buckets), key, learned), now)
      ensures ok && learned.Some? ==> Learned(buckets[key], learned.value)
      ensures ok && key in old(buckets) && key == contexts[id].key ==> buckets[key].lastSeen == old(buckets)[key].lastSeen
      ensures ok && !(key in old(buckets) && key == contexts[id].key) ==> buckets[key].lastSeen == now
      ensures !ok ==> buckets == old(buckets)
      ensures !ok <==> NoRoom(old(buckets), config.maxBuckets + config.globalLimit, key, now)
      ensures buckets.Keys <= old(buckets).Keys + {key}
    {
      ok := BucketFor(key, now);
      if !ok { return; }
      var b := buckets[key];
      if key != contexts[id].key {
        b := b.(lastSeen := now);
      }
      if learned.Some? {
        b := b.(interval := learned.value.interval, nextAt := learned.value.nextAt,
                cooldownUntil := Later(b.cooldownUntil, learned.value.cooldownUntil), resetAt := learned.value.resetAt);
      }
      RetimeCounts(contexts, buckets, key, b);
      buckets := buckets[key := b];
    }

    /** `_apply_429_cooldown_locked`. */
    method ApplyCooldown(key: Key, until: real, isGlobal: bool)
      requires CountersValid() && key in buckets
      modifies `globalCooldownUntil, `buckets
      ensures CountersValid() && buckets.Keys == old(buckets).Keys
      ensures globalCooldownUntil == if isGlobal then Later(old(globalCooldownUntil), until) else old(globalCooldownUntil)
      ensures buckets == if isGlobal then old(buckets)
                         else old(buckets)[key := old(buckets)[key].(cooldownUntil := Later(CooldownOf(old(buckets), key), until))]
    {
      if isGlobal {
        globalCooldownUntil := if globalCooldownUntil < until then until else globalCooldownUntil;
        return;
      }
      var b := buckets[key].(cooldownUntil := if buckets[key].cooldownUntil < until then until else buckets[key].cooldownUntil);
      RetimeCounts(contexts, buckets, key, b);
      SameKeysSameSize(buckets, buckets[key := b]);
      buckets := buckets[key := b];
    }

    /** Changes the notes a context keeps about its response. */
    method Note(id: nat, x: Context)
      requires CountersValid() && id in contexts && x.key == contexts[id].key && x.released == contexts[id].released
      requires !x.released ==> !x.recorded
      modifies `contexts, `unresolved429Bodies, `unread
      ensures CountersValid() && contexts == old(contexts)[id := x]
      ensures unread == old(unread) + (if x.bodyPending && !x.recorded then 1 else 0)
                - (if old(contexts)[id].bodyPending && !old(contexts)[id].recorded then 1 else 0)
      ensures unresolved429Bodies == old(unresolved429Bodies) + (if x.bodyPending then 1 else 0) - (if old(contexts)[id].bodyPending then 1 else 0)
    {
      NoteCounts(contexts, buckets, id, x);
      if x.bodyPending && !contexts[id].bodyPending {
        unresolved429Bodies := unresolved429Bodies + 1;
      } else if !x.bodyPending && contexts[id].bodyPending {
        unresolved429Bodies := if unresolved429Bodies - 1 < 0 then 0 else unresolved429Bodies - 1;
      }
      contexts := contexts[id := x];
      unread := |Unrecorded(contexts)|;
    }

    /** A response can be processed: there is a bucket for it, or room for one, and what it says
        converts. */
    ghost predicate Processable(key: Key, convertible: bool, now: real) reads `buckets {
      convertible && !NoRoom(buckets, config.maxBuckets + config.globalLimit, key, now)
    }

    /** `on_request_end` up to the release of the lock. The time was read before the lock was
        taken, so it may lie before times already seen. When no bucket can be made for the
        response or its headers do not convert, its reservation is still given back but nothing
        is recorded. */
    method OnRequestEnd(id: nat, h: Headers, responseAt: real)
      requires Valid() && id in contexts && !contexts[id].released && !contexts[id].bodyPending
      modifies globalAdmissions, invalidResponses, `buckets, `clock, `contexts, `invalidInFlight, `unresolved429Bodies, `unread,
               `unrecorded, `globalCooldownUntil
      ensures Valid() && globalAdmissions.log == old(globalAdmissions.log)
      ensures invalidInFlight == old(invalidInFlight) - 1
      ensures var processed := old(Processable(h.key, h.convertible, responseAt));
              && contexts == old(contexts)[id := Context(old(contexts)[id].key, old(contexts)[id].admittedAt, true, h.status == 429,
                               processed && h.status == 429 && (h.isGlobal || h.isUser), processed, responseAt)]
              && invalidResponses.log == old(invalidResponses.log) + (if processed && (h.status in {401, 403} || (h.status == 429 && (h.isGlobal || h.isUser))) then [responseAt] else [])
              && unrecorded == old(unrecorded) + (if !processed && h.status in {401, 403} then 1 else 0)
      ensures buckets.Keys <= old(buckets).Keys + {h.key}
      ensures clock == Later(old(clock), responseAt)
      ensures var processed := old(Processable(h.key, h.convertible, responseAt));
              globalCooldownUntil == if processed then GlobalAfter(old(globalCooldownUntil), h, responseAt) else old(globalCooldownUntil)
      ensures old(Processable(h.key, h.convertible, responseAt)) ==>
                && Cooled(old(buckets), buckets, h.key, RouteAfter(Taught(old(buckets), h.key, h.learned), h, responseAt), responseAt)
                && (h.learned.Some? && h.key in buckets ==> Learned(buckets[h.key], h.learned.value))
      ensures NoneShortened(old(buckets), buckets, responseAt)
    {
      ghost var c := contexts[id];
      var ok := GiveBack(id, h, responseAt);
      ghost var taught := buckets;
      Twice(old(contexts), id, contexts[id],
            Context(c.key, c.admittedAt, true, h.status == 429, ok && h.status == 429 && h.Invalid(), ok, responseAt));
      Finish(id, h, ok, responseAt);
      if ok {
        CooledThrough(old(buckets), taught, buckets, h.key, Taught(old(buckets), h.key, h.learned),
                      RouteAfter(Taught(old(buckets), h.key, h.learned), h, responseAt), responseAt);
      }
    }

    method Finish(id: nat, h: Headers, ok: bool, responseAt: real)
      requires Valid() && id in contexts && (ok ==> h.key in buckets)
      requires contexts[id].released && !contexts[id].recorded && contexts[id].bodyPending == (h.status == 429)
      requires h.status != 429 ==> Used() < config.invalidLimit
      modifies `globalCooldownUntil, `buckets, `contexts, `unresolved429Bodies, `unread, invalidResponses,
               globalAdmissions, `clock, `unrecorded
      ensures globalAdmissions.log == old(globalAdmissions.log)
      ensures Valid()
      ensures contexts == old(contexts)[id := old(contexts)[id].(recorded := ok && h.status == 429 && h.Invalid(),
                                                                 ready := ok, respondedAt := responseAt)]
      ensures invalidResponses.log == old(invalidResponses.log) + if ok && h.Invalid() then [responseAt] else []
      ensures unrecorded == old(unrecorded) + if !ok && h.status in {401, 403} then 1 else 0
      ensures buckets.Keys <= old(buckets).Keys
      ensures clock == Later(old(clock), responseAt)
      ensures globalCooldownUntil == if ok then GlobalAfter(old(globalCooldownUntil), h, responseAt) else old(globalCooldownUntil)
      ensures if ok then Recooled(old(buckets), buckets, h.key, RouteAfter(CooldownOf(old(buckets), h.key), h, responseAt), responseAt)
              else buckets == old(buckets)
    {
      if ok {
        ProcessHeaders(id, h, responseAt);
      } else {
        LeaveUnprocessed(id, h.status in {401, 403}, responseAt);
      }
    }

    /** The exception path: nothing is learned and nothing recorded. */
    method LeaveUnprocessed(id: nat, wasInvalid: bool, responseAt: real)
      requires Valid() && id in contexts && contexts[id].released
      modifies `contexts, `unresolved429Bodies, `unread, `unrecorded, `clock
      ensures Valid() && unread == old(unread) && clock == Later(old(clock), responseAt)
      ensures contexts == old(contexts)[id := old(contexts)[id].(ready := false, respondedAt := responseAt)]
      ensures unrecorded == old(unrecorded) + if wasInvalid then 1 else 0
    {
      Note(id, contexts[id].(ready := false, respondedAt := responseAt));
      Observe(responseAt);
      if wasInvalid { unrecorded := unrecorded + 1; }
    }

    method Observe(at: real)
      requires Valid()
      modifies `clock
      ensures Valid() && clock == Later(old(clock), at)
    {
      clock := Later(clock, at);
    }

    /** Marks a 429 body as unread, looks the bucket up and releases the reservation. */
    method GiveBack(id: nat, h: Headers, responseAt: real) returns (ok: bool)
      requires config.Valid() && CountersValid() && id in contexts && !contexts[id].released && !contexts[id].bodyPending
      modifies `contexts, `unresolved429Bodies, `unread, `invalidInFlight, `buckets
      ensures CountersValid()
      ensures unread == old(unread) + if h.status == 429 then 1 else 0
      ensures invalidInFlight == old(invalidInFlight) - 1
      ensures contexts == old(contexts)[id := old(contexts)[id].(released := true, bodyPending := h.status == 429)]
      ensures ok <==> old(Processable(h.key, h.convertible, responseAt))
      ensures ok ==> h.key in buckets && Cooled(old(buckets), buckets, h.key, Taught(old(buckets), h.key, h.learned), responseAt)
      ensures ok && h.learned.Some? ==> Learned(buckets[h.key], h.learned.value)
      ensures NoneShortened(old(buckets), buckets, responseAt)
      ensures buckets.Keys <= old(buckets).Keys + {h.key}
    {
      Twice(contexts, id, contexts[id].(bodyPending := h.status == 429), contexts[id].(released := true, bodyPending := h.status == 429));
      Note(id, contexts[id].(bodyPending := h.status == 429));
      ok := ResponseBucket(id, h.key, h.learned, responseAt);
      ok := ok && h.convertible;
      Release(id);
    }

    method ProcessHeaders(id: nat, h: Headers, responseAt: real)
      requires Valid() && id in contexts && h.key in buckets
      requires contexts[id].released && !contexts[id].recorded && contexts[id].bodyPending == (h.status == 429)
      requires h.status != 429 ==> Used() < config.invalidLimit
      modifies `globalCooldownUntil, `buckets, `contexts, `unresolved429Bodies, `unread, invalidResponses,
               globalAdmissions, `clock
      ensures globalAdmissions.log == old(globalAdmissions.log)
      ensures Valid()
      ensures contexts == old(contexts)[id := old(contexts)[id].(recorded := h.status == 429 && h.Invalid(),
                                                                 ready := true, respondedAt := responseAt)]
      ensures invalidResponses.log == old(invalidResponses.log) +
                if h.Invalid() then [responseAt] else []
      ensures buckets.Keys <= old(buckets).Keys
      ensures clock == Later(old(clock), responseAt)
      ensures globalCooldownUntil == GlobalAfter(old(globalCooldownUntil), h, responseAt)
      ensures Recooled(old(buckets), buckets, h.key, RouteAfter(CooldownOf(old(buckets), h.key), h, responseAt), responseAt)
    {
      CoolByHeaders(h, responseAt);
      NoteHeaders(id, h, responseAt);
      Cleanup(responseAt);
    }

    method CoolByHeaders(h: Headers, responseAt: real)
      requires CountersValid() && h.key in buckets
      modifies `globalCooldownUntil, `buckets
      ensures CountersValid() && buckets.Keys == old(buckets).Keys
      ensures globalCooldownUntil == GlobalAfter(old(globalCooldownUntil), h, responseAt)
      ensures buckets == old(buckets)[h.key := old(buckets)[h.key].(
                cooldownUntil := RouteAfter(CooldownOf(old(buckets), h.key), h, responseAt))]
    {
      if h.status == 429 && h.retryAfter.Some? {
        ApplyCooldown(h.key, responseAt + h.retryAfter.value, h.isGlobal);
      }
    }

    method NoteHeaders(id: nat, h: Headers, responseAt: real)
      requires Valid() && id in contexts
      requires contexts[id].released && !contexts[id].recorded && contexts[id].bodyPending == (h.status == 429)
      requires h.status != 429 ==> Used() < config.invalidLimit
      modifies `contexts, `unresolved429Bodies, `unread, invalidResponses
      ensures Valid()
      ensures contexts == old(contexts)[id := old(contexts)[id].(recorded := h.status == 429 && h.Invalid(),
                                                                 ready := true, respondedAt := responseAt)]
      ensures invalidResponses.log == old(invalidResponses.log) +
                if h.Invalid() then [responseAt] else []
    {
      var invalidNow := h.Invalid();
      if invalidNow {
        invalidResponses.Append(responseAt);
      }
      Note(id, contexts[id].(recorded := h.status == 429 && invalidNow, ready := true, respondedAt := responseAt));
    }

    /** The second half of `on_request_end` for a 429 response, once its body was read. */
    method OnBodyRead(id: nat, b: Body, now: real) returns (processed: bool)
      requires Valid() && id in contexts && contexts[id].bodyPending && clock <= now
      modifies globalAdmissions, invalidResponses, `buckets, `clock, `contexts, `unresolved429Bodies, `unread,
               `unrecorded, `globalCooldownUntil
      ensures Valid() && globalAdmissions.log == old(globalAdmissions.log) && clock == now
      ensures processed <==> old(contexts)[id].ready && b.available && old(Processable(b.key, b.convertible, now))
      ensures contexts == old(contexts)[id := old(contexts)[id].(bodyPending := false)]
      ensures unresolved429Bodies == old(unresolved429Bodies) - 1
      ensures var c, shared := old(contexts)[id], !b.isGlobal && b.isShared;
              && invalidResponses.log == old(invalidResponses.log) + (if processed && !shared && !c.recorded then [c.respondedAt] else [])
              && unrecorded == old(unrecorded) + (if !processed && !shared && !c.recorded then 1 else 0)
      ensures globalCooldownUntil ==
        if processed && b.isGlobal then Later(old(globalCooldownUntil), old(contexts)[id].respondedAt + b.retryAfter)
        else old(globalCooldownUntil)
      ensures processed ==>
        Cooled(old(buckets), buckets, b.key, RetriedAfter(CooldownOf(old(buckets), b.key), b, old(contexts)[id].respondedAt), now)
      ensures NoneShortened(old(buckets), buckets, now)
    {
      var c, shared := contexts[id], !b.isGlobal && b.isShared;
      processed := TakeBody(id, b, now);
      ghost var taken := buckets;
      FinishBody(b, processed, !shared && !c.recorded, c.respondedAt, now);
      if processed {
        CooledThrough(old(buckets), taken, buckets, b.key, CooldownOf(old(buckets), b.key),
                      RetriedAfter(CooldownOf(old(buckets), b.key), b, c.respondedAt), now);
      }
    }

    method TakeBody(id: nat, b: Body, now: real) returns (processed: bool)
      requires config.Valid() && CountersValid() && id in contexts && contexts[id].bodyPending
      modifies `buckets, `contexts, `unresolved429Bodies, `unread
      ensures CountersValid() && unresolved429Bodies == old(unresolved429Bodies) - 1
      ensures unread == old(unread) - (if old(contexts)[id].recorded then 0 else 1)
      ensures contexts == old(contexts)[id := old(contexts)[id].(bodyPending := false)]
      ensures processed ==> b.key in buckets && Cooled(old(buckets), buckets, b.key, CooldownOf(old(buckets), b.key), now)
      ensures NoneShortened(old(buckets), buckets, now)
      ensures processed <==> old(contexts)[id].ready && b.available && old(Processable(b.key, b.convertible, now))
    {
      processed := contexts[id].ready && b.available;
      if processed {
        processed := ResponseBucket(id, b.key, None, now);
        processed := processed && b.convertible;
      }
      Note(id, contexts[id].(bodyPending := false));
    }

    method FinishBody(b: Body, processed: bool, record: bool, respondedAt: real, now: real)
      requires Valid() && clock <= now && (processed ==> b.key in buckets) && (record ==> Used() < config.invalidLimit)
      modifies `globalCooldownUntil, `buckets, invalidResponses, globalAdmissions, `clock, `unrecorded
      ensures Valid() && globalAdmissions.log == old(globalAdmissions.log) && clock == now
      ensures globalCooldownUntil ==
        if processed && b.isGlobal then Later(old(globalCooldownUntil), respondedAt + b.retryAfter) else old(globalCooldownUntil)
      ensures if processed
              then Recooled(old(buckets), buckets, b.key, RetriedAfter(CooldownOf(old(buckets), b.key), b, respondedAt), now)
              else buckets == old(buckets)
      ensures invalidResponses.log == old(invalidResponses.log) + if processed && record then [respondedAt] else []
      ensures unrecorded == old(unrecorded) + if !processed && record then 1 else 0
    {
      if processed {
        ProcessBody(b, record, respondedAt, now);
      } else {
        Observe(now);
        if record { unrecorded := unrecorded + 1; }
      }
    }

    method CoolByBody(b: Body, respondedAt: real)
      requires CountersValid() && b.key in buckets
      modifies `globalCooldownUntil, `buckets
      ensures CountersValid() && buckets.Keys == old(buckets).Keys
      ensures globalCooldownUntil == if b.isGlobal then Later(old(globalCooldownUntil), respondedAt + b.retryAfter) else old(globalCooldownUntil)
      ensures buckets == old(buckets)[b.key := old(buckets)[b.key].(
                cooldownUntil := RetriedAfter(CooldownOf(old(buckets), b.key), b, respondedAt))]
    {
      ApplyCooldown(b.key, respondedAt + b.retryAfter, b.isGlobal);
    }

    method ProcessBody(b: Body, record: bool, respondedAt: real, now: real)
      requires Valid() && b.key in buckets
      requires record ==> Used() < config.invalidLimit
      modifies `globalCooldownUntil, `buckets, invalidResponses, globalAdmissions, `clock
      ensures globalAdmissions.log == old(globalAdmissions.log)
      ensures Valid() && clock == Later(old(clock), now)
      ensures globalCooldownUntil == if b.isGlobal then Later(old(globalCooldownUntil), respondedAt + b.retryAfter) else old(globalCooldownUntil)
      ensures Recooled(old(buckets), buckets, b.key, RetriedAfter(CooldownOf(old(buckets), b.key), b, respondedAt), now)
      ensures invalidResponses.log == old(invalidResponses.log) + if record then [respondedAt] else []
    {
      CoolByBody(b, respondedAt);
      RecordInvalid(record, respondedAt);
      Cleanup(now);
    }

    method RecordInvalid(record: bool, respondedAt: real)
      requires Valid() && (record ==> Used() < config.invalidLimit)
      modifies invalidResponses
      ensures Valid()
      ensures invalidResponses.log == old(invalidResponses.log) + if record then [respondedAt] else []
    {
      if record { invalidResponses.Append(respondedAt); }
    }

    /** `on_request_exception`, and the release of `on_request_redirect`. */
    method OnRequestException(id: nat)
      requires Valid() && id in contexts && !contexts[id].bodyPending
      modifies `buckets, `contexts, `invalidInFlight
      ensures Valid()
      ensures contexts == old(contexts)[id := old(contexts)[id].(released := true)]
      ensures invalidInFlight == old(invalidInFlight) - (if old(contexts)[id].released then 0 else 1)
      ensures buckets.Keys == old(buckets).Keys && NoneShortened(old(buckets), buckets, clock)
    {
      Release(id);
    }

    // -------------------------------------------------------------- cooldowns over whole runs

    /** The bucket of `key` cools down until `until`, or that time has come. */
    ghost predicate Cooling(key: Key, until: real) reads `buckets, `clock {
      clock >= until || (key in buckets && buckets[key].cooldownUntil >= until)
    }

    /** Requests known before are the same ones; new ones for `key` came at `until` or later. */
    ghost predicate OnlyAfter(was: map<nat, Context>, key: Key, until: real) reads `contexts {
      && (forall i :: i in was ==> i in contexts && contexts[i].key == was[i].key && contexts[i].admittedAt == was[i].admittedAt)
      && (forall i :: i in contexts && i !in was && contexts[i].key == key ==> contexts[i].admittedAt >= until)
    }

    ghost predicate LogAfter(was: seq<real>, until: real) reads globalAdmissions`log {
      was <= globalAdmissions.log && forall i :: |was| <= i < |globalAdmissions.log| ==> globalAdmissions.log[i] >= until
    }

    /** Any traffic at all, for a bucket that cools down until `until`. No request that is not
        exempt is admitted before the global cooldown is over, and none under `key` before `until`. */
    method Traffic(ghost key: Key, ghost until: real)
      requires Valid() && Cooling(key, until)
      modifies this, globalAdmissions, invalidResponses
      ensures Valid() && Cooling(key, until) && globalCooldownUntil >= old(globalCooldownUntil)
      ensures LogAfter(old(globalAdmissions.log), old(globalCooldownUntil)) && OnlyAfter(old(contexts), key, until)
    {
      var steps: nat := *;
      while steps > 0
        invariant Valid() && Cooling(key, until) && globalCooldownUntil >= old(globalCooldownUntil)
        invariant LogAfter(old(globalAdmissions.log), old(globalCooldownUntil)) && OnlyAfter(old(contexts), key, until)
      {
        steps := steps - 1;
        SomeStep(key, until);
      }
    }

    method SomeStep(ghost key: Key, ghost until: real)
      requires Valid() && Cooling(key, until)
      modifies this, globalAdmissions, invalidResponses
      ensures Valid() && Cooling(key, until) && globalCooldownUntil >= old(globalCooldownUntil)
      ensures LogAfter(old(globalAdmissions.log), old(globalCooldownUntil)) && OnlyAfter(old(contexts), key, until)
    {
      var kind: nat := *;
      if kind == 0 {
        SomeStart(key, until);
      } else {
        var id: nat := *;
        if id in contexts {
          if kind == 1 {
            SomeEnd(id, key, until);
          } else if kind == 2 {
            SomeBody(id, key, until);
          } else if !contexts[id].bodyPending {
            OnRequestException(id);
          }
        }
      }
    }

    method SomeStart(ghost key: Key, ghost until: real)
      requires Valid() && Cooling(key, until)
      modifies this, globalAdmissions, invalidResponses
      ensures Valid() && Cooling(key, until) && globalCooldownUntil == old(globalCooldownUntil)
      ensures LogAfter(old(globalAdmissions.log), old(globalCooldownUntil)) && OnlyAfter(old(contexts), key, until)
    {
      var route: Key, exempt: bool, paced: real, now: real, admittedAt: real := *, *, *, *, *;
      if clock <= now <= admittedAt {
        var r := OnRequestStart(route, exempt, paced, now, admittedAt);
      }
    }

    method SomeEnd(id: nat, ghost key: Key, ghost until: real)
      requires Valid() && Cooling(key, until) && id in contexts
      modifies this, globalAdmissions, invalidResponses
      ensures Valid() && Cooling(key, until) && globalCooldownUntil >= old(globalCooldownUntil)
      ensures globalAdmissions.log == old(globalAdmissions.log) && OnlyAfter(old(contexts), key, until)
    {
      var h: Headers, at: real := *, *;
      if !contexts[id].released && !contexts[id].bodyPending { OnRequestEnd(id, h, at); }
    }

    method SomeBody(id: nat, ghost key: Key, ghost until: real)
      requires Valid() && Cooling(key, until) && id in contexts
      modifies this, globalAdmissions, invalidResponses
      ensures Valid() && Cooling(key, until) && globalCooldownUntil >= old(globalCooldownUntil)
      ensures globalAdmissions.log == old(globalAdmissions.log) && OnlyAfter(old(contexts), key, until)
    {
      var b: Body, now: real := *, *;
      if contexts[id].bodyPending && clock <= now {
        var processed := OnBodyRead(id, b, now);
      }
    }

    /** After a 429 whose headers say how long to wait, and any traffic, nothing was admitted
        too early: no request that is not exempt when it was global, else none to its bucket. */
    method HeadersHoldTrafficBack(id: nat, h: Headers, at: real)
      requires Valid() && id in contexts && !contexts[id].released && !contexts[id].bodyPending
      requires Processable(h.key, h.convertible, at) && h.Cools()
      modifies this, globalAdmissions, invalidResponses
      ensures Valid()
      ensures h.isGlobal ==> LogAfter(old(globalAdmissions.log), at + h.retryAfter.value)
      ensures !h.isGlobal ==> OnlyAfter(old(contexts), h.key, at + h.retryAfter.value)
    {
      EndAndCool(id, h, at);
      Traffic(h.key, if h.isGlobal then clock else at + h.retryAfter.value);
    }

    method EndAndCool(id: nat, h: Headers, at: real)
      requires Valid() && id in contexts && !contexts[id].released && !contexts[id].bodyPending
      requires Processable(h.key, h.convertible, at) && h.Cools()
      modifies this, globalAdmissions, invalidResponses
      ensures Valid() && globalAdmissions.log == old(globalAdmissions.log)
      ensures contexts.Keys == old(contexts).Keys && OnlyAfter(old(contexts), h.key, 0.0)
      ensures if h.isGlobal then globalCooldownUntil >= at + h.retryAfter.value else Cooling(h.key, at + h.retryAfter.value)
    {
      OnRequestEnd(id, h, at);
    }

    /** The same for what the body of a 429 says. */
    method BodyHoldsTrafficBack(id: nat, b: Body, now: real)
      requires Valid() && id in contexts && contexts[id].bodyPending && contexts[id].ready && clock <= now
      requires b.available && Processable(b.key, b.convertible, now)
      modifies this, globalAdmissions, invalidResponses
      ensures Valid()
      ensures b.isGlobal ==> LogAfter(old(globalAdmissions.log), old(contexts)[id].respondedAt + b.retryAfter)
      ensures !b.isGlobal ==> OnlyAfter(old(contexts), b.key, old(contexts)[id].respondedAt + b.retryAfter)
    {
      var until := contexts[id].respondedAt + b.retryAfter;
      ReadAndCool(id, b, now);
      Traffic(b.key, if b.isGlobal then clock else until);
    }

    method ReadAndCool(id: nat, b: Body, now: real)
      requires Valid() && id in contexts && contexts[id].bodyPending && contexts[id].ready && clock <= now
      requires b.available && Processable(b.key, b.convertible, now)
      modifies this, globalAdmissions, invalidResponses
      ensures Valid() && globalAdmissions.log == old(globalAdmissions.log)
      ensures contexts.Keys == old(contexts).Keys && OnlyAfter(old(contexts), b.key, 0.0)
      ensures var until := old(contexts)[id].respondedAt + b.retryAfter;
              if b.isGlobal then globalCooldownUntil >= until else Cooling(b.key, until)
    {
      var processed := OnBodyRead(id, b, now);
    }

    method Close()
      requires Valid()
      modifies `closed
      ensures Valid() && closed
    {
      closed := true;
    }
  }

  lemma Twice<K, V>(m: map<K, V>, k: K, u: V, v: V)
    ensures m[k := u][k := v] == m[k := v]
  {
  }

  lemma SameKeysSameSize(b: map<Key, Bucket>, b': map<Key, Bucket>)
    requires b.Keys == b'.Keys
    ensures |b| == |b'|
  {
    assert |b.Keys| == |b| && |b'.Keys| == |b'|;
  }

  ghost predicate YoungFront(s: seq<real>, cutoff: real) {
    s != [] ==> s[0] > cutoff
  }

  /** The budget speaks of recorded responses only, and a response can go unrecorded: two requests
      hold the only two buckets there may be, and one is answered 401 under a third. */
  method InvalidResponseUnrecorded() returns (l: Limiter)
    ensures l.Valid() && l.unrecorded == 1 && l.invalidResponses.log == []
  {
    l := new Limiter(Config(1, 1.0, 10, 600.0, 1, 900.0));
    var first := l.OnRequestStart("a", true, 0.0, 1.0, 1.0);
    OneOpen(l, first.id, "a");
    assert l.buckets.Keys == {"a"};
    AnswerUnderThirdBucket(l, first.id);
  }

  method AnswerUnderThirdBucket(l: Limiter, first: nat)
    requires l.Valid() && l.config == Config(1, 1.0, 10, 600.0, 1, 900.0) && !l.closed && l.clock <= 1.0
    requires l.contexts == map[first := Context("a", 1.0, false, false, false, false, 0.0)] && l.buckets.Keys == {"a"}
    requires l.invalidResponses.log == [] && l.unrecorded == 0 && l.invalidInFlight == 1
    modifies l, l.globalAdmissions, l.invalidResponses
    ensures l.Valid() && l.unrecorded == 1 && l.invalidResponses.log == []
  {
    OneOpen(l, first, "a");
    var second := l.OnRequestStart("b", true, 0.0, 1.0, 1.0);
    AnswerSecond(l, first, second.id);
  }

  method AnswerSecond(l: Limiter, first: nat, second: nat)
    requires l.Valid() && l.config == Config(1, 1.0, 10, 600.0, 1, 900.0) && first != second && l.buckets.Keys <= {"a", "b"}
    requires l.contexts == map[first := Context("a", 1.0, false, false, false, false, 0.0),
                               second := Context("b", 1.0, false, false, false, false, 0.0)]
    requires l.invalidResponses.log == [] && l.unrecorded == 0
    modifies l, l.globalAdmissions, l.invalidResponses
    ensures l.Valid() && l.unrecorded == 1 && l.invalidResponses.log == []
  {
    OneOpen(l, first, "a");
    OneOpen(l, second, "b");
    TwoHeldBuckets(l.buckets);
    l.OnRequestEnd(second, Headers(401, None, false, false, "c", None, true), 2.0);
  }

  lemma TwoHeldBuckets(b: map<Key, Bucket>)
    requires {"a", "b"} <= b.Keys <= {"a", "b"} && b["a"].inFlight >= 1 && b["b"].inFlight >= 1
    ensures NoRoom(b, 2, "c", 2.0)
  {
    assert b.Keys == {"a", "b"};
    assert |b| == |b.Keys|;
  }

  lemma OneOpen(l: Limiter, id: nat, k: Key)
    requires l.CountersValid() && id in l.contexts && !l.contexts[id].released && l.contexts[id].key == k
    requires forall i :: i in l.contexts ==> !l.contexts[i].bodyPending
    ensures k in l.buckets && l.buckets[k].inFlight >= 1 && l.unresolved429Bodies == 0
    ensures |l.buckets| == |l.buckets.Keys|
  {
    assert id in Open(l.contexts) && id in OpenAt(l.contexts, k);
    assert Pending(l.contexts) == {};
  }

  /** A second way: there is room for the response, but its body does not convert. */
  method BodyUnrecorded() returns (l: Limiter, ghost room: bool)
    ensures l.Valid() && l.unrecorded == 1 && l.invalidResponses.log == [] && l.unresolved429Bodies == 0
    ensures room
  {
    l := new Limiter(Config(1, 1.0, 10, 600.0, 1, 900.0));
    var only := l.OnRequestStart("a", true, 0.0, 1.0, 1.0);
    room := BodyDoesNotConvert(l, only.id);
  }

  method BodyDoesNotConvert(l: Limiter, id: nat) returns (ghost room: bool)
    requires l.Valid() && l.config == Config(1, 1.0, 10, 600.0, 1, 900.0) && l.clock <= 1.0
    requires l.contexts == map[id := Context("a", 1.0, false, false, false, false, 0.0)] && l.buckets.Keys <= {"a"}
    requires l.invalidResponses.log == [] && l.unrecorded == 0
    modifies l, l.globalAdmissions, l.invalidResponses
    ensures l.Valid() && l.unrecorded == 1 && l.invalidResponses.log == [] && l.unresolved429Bodies == 0
    ensures room
  {
    OneBucket(l.buckets);
    l.OnRequestEnd(id, Headers(429, None, false, false, "a", None, true), 2.0);
    OneBucket(l.buckets);
    room := !NoRoom(l.buckets, l.config.maxBuckets + l.config.globalLimit, "a", 3.0);
    NonePending(l.contexts, id);
    var processed := l.OnBodyRead(id, Body(1.0, false, false, "a", true, false), 3.0);
  }

  lemma OneBucket(b: map<Key, Bucket>)
    requires b.Keys <= {"a"}
    ensures |b| <= 1
  {
    SubsetSize(b.Keys, {"a"});
    assert |b| == |b.Keys|;
  }

  lemma NonePending(c: map<nat, Context>, id: nat)
    requires c.Keys == {id} && c[id].bodyPending
    ensures Pending(c) == {id} && |Pending(c)| == 1
  {
  }
}
