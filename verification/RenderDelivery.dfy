/** Delivery of one render plan to a Discord thread, retried after crashes
    (`discord_app.py`, `_deliver_render_plan` and the two methods it uses).

    A plan is a sequence of batches. Each batch is shown in one message. Before
    a batch is sent, an intent row with a nonce derived from the batch's index
    becomes durable; after it is sent, one transaction records the message. A
    process may stop anywhere in between, and the next attempt looks for the
    nonce in the thread's history. */
module RenderDelivery {
  import opened Options

  type MessageId = nat
  type Batch = seq<char>

  /** Name-based identifiers never collide, so a nonce is what it is made of. */
  datatype Nonce = Nonce(delivery: nat, index: nat)

  /** A message of the thread: messages the bridge sent for a batch carry a nonce. */
  datatype Message = Message(nonce: Option<Nonce>, at: int, content: Batch)

  datatype Progress = Prepared | Sent

  /** A row of `render_batch_intents`. */
  datatype Intent = Intent(nonce: Nonce, payload: Batch, progress: Progress,
                           message: Option<MessageId>, createdAt: int)

  /** The row of `render_attachment_checkpoints`. */
  datatype Checkpoint = Checkpoint(first: MessageId, next: nat, finalized: bool)

  datatype Outcome = Delivered(first: MessageId) | Permanent | Interrupted

  /** The batch index a message belongs to; a message without a nonce is a
      placeholder the first batch may take over. */
  function Owner(m: Message): nat {
    if m.nonce.Some? then m.nonce.value.index else 0
  }

  /** The durable rows of one delivery: the first `done` batches are recorded,
      at most one more is announced. Batches in `legacy` were recorded before
      intents existed. */
  ghost predicate RowsOk(delivery: nat, intents: map<nat, Intent>, batches: map<nat, MessageId>,
                         checkpoint: Option<Checkpoint>, done: nat, legacy: set<nat>)
  {
    && (forall i: nat :: i in batches <==> i < done)
    && (forall i | i in intents ::
          && i <= done && intents[i].nonce == Nonce(delivery, i)
          && (i < done ==> intents[i].progress == Sent && intents[i].message == Some(batches[i]))
          && (i == done ==> intents[i].progress == Prepared && intents[i].message == None))
    && (forall i | i in batches :: i in intents || i in legacy)
    && (checkpoint.Some? <==> done > 0)
    && (done > 0 ==> checkpoint.value.first == batches[0] && checkpoint.value.next == done)
  }

  /** What the thread shows: a recorded batch is shown in its own message and
      shows what its intent announced; a message with one of this delivery's
      nonces was announced before; such messages appear in index order, and a
      second one for the same index only after the first was deleted; and one
      that was not deleted is the one its batch is recorded with. */
  ghost predicate ThreadOk(delivery: nat, intents: map<nat, Intent>, batches: map<nat, MessageId>,
                           channel: map<MessageId, Message>, deleted: set<MessageId>, legacy: set<nat>, named: bool)
  {
    && (forall i | i in batches ::
          && batches[i] in channel && Owner(channel[batches[i]]) == i
          && (i in legacy || (i in intents && channel[batches[i]].content == intents[i].payload)))
    && (forall m | m in channel && Own(delivery, channel[m]) ::
          && Owner(channel[m]) in intents
          && channel[m].at > 0 && channel[m].at > intents[Owner(channel[m])].createdAt - 1000)
    && InOrder(delivery, channel, deleted)
    && (forall i | i in batches :: OnlyFor(delivery, i, channel, deleted, batches[i], named))
  }

  /** No other undeleted message than `m` carries the nonce of batch `i`. The
      first batch is exempt once a caller named the message it moves into. */
  ghost predicate OnlyFor(delivery: nat, i: nat, channel: map<MessageId, Message>, deleted: set<MessageId>, m: MessageId,
                          named: bool) {
    (i == 0 && named) || forall n | n in channel && n !in deleted && channel[n].nonce == Some(Nonce(delivery, i)) :: n == m
  }

  predicate Own(delivery: nat, m: Message) {
    m.nonce.Some? && m.nonce.value.delivery == delivery
  }

  /** Message identifiers grow with time, so this is the order of sending. */
  ghost predicate InOrder(delivery: nat, channel: map<MessageId, Message>, deleted: set<MessageId>) {
    forall m, n | m in channel && n in channel && m < n && Own(delivery, channel[m]) && Own(delivery, channel[n]) ::
      Owner(channel[m]) < Owner(channel[n])
      || (Owner(channel[m]) == Owner(channel[n]) && m in deleted)
  }

  /** Rows that earlier deliveries of the same family left, latest first. */
  ghost predicate EarlierOk(delivery: nat, earlier: map<nat, seq<Intent>>, channel: map<MessageId, Message>) {
    forall i, k | i in earlier && 0 <= k < |earlier[i]| ::
      && earlier[i][k].nonce.delivery != delivery && earlier[i][k].nonce.index == i
      && (earlier[i][k].message.Some? ==>
            earlier[i][k].message.value in channel && Owner(channel[earlier[i][k].message.value]) == i)
  }

  /** The message of the latest row that has one; rows come latest first. */
  function LatestMessage(rows: seq<Intent>): Option<MessageId> {
    if rows == [] then None
    else if rows[0].message.Some? then rows[0].message
    else LatestMessage(rows[1..])
  }

  /** The family shows no first batch that could be taken over. */
  predicate FamilyGone(earlier: map<nat, seq<Intent>>, deleted: set<MessageId>) {
    var latest := if 0 in earlier then LatestMessage(earlier[0]) else None;
    latest.Some? ==> latest.value in deleted
  }

  /** No message was sent for the first batch. */
  ghost predicate NoneSent(delivery: nat, channel: map<MessageId, Message>) {
    forall m | m in channel :: channel[m].nonce != Some(Nonce(delivery, 0))
  }

  /** The newest message with the nonce, not older than a second before its intent. */
  ghost predicate Newest(channel: map<MessageId, Message>, deleted: set<MessageId>, nonce: Nonce, createdAt: int,
                         found: Option<MessageId>)
  {
    && (forall m | m in channel && m !in deleted && channel[m].nonce == Some(nonce)
                   && channel[m].at > 0 && channel[m].at > createdAt - 1000 :: found.Some? && m <= found.value)
    && (found.Some? ==>
          && found.value in channel && found.value !in deleted && channel[found.value].nonce == Some(nonce)
          && channel[found.value].at > 0 && channel[found.value].at > createdAt - 1000)
  }

  /** What a row of an earlier delivery of the family still shows. */
  ghost predicate RowShows(channel: map<MessageId, Message>, deleted: set<MessageId>, row: Intent, found: Option<MessageId>) {
    if row.message.Some? then found == if row.message.value in deleted then None else row.message
    else Newest(channel, deleted, row.nonce, row.createdAt, found)
  }

  /** The message of the latest row of the family that still shows one, if any does. */
  ghost predicate FamilyShows(channel: map<MessageId, Message>, deleted: set<MessageId>, rows: seq<Intent>,
                              found: Option<MessageId>)
  {
    if rows == [] then found.None?
    else
      || (found.Some? && RowShows(channel, deleted, rows[0], found))
      || (RowShows(channel, deleted, rows[0], None) && FamilyShows(channel, deleted, rows[1..], found))
  }

  function RowsFor(earlier: map<nat, seq<Intent>>, index: nat): seq<Intent> {
    if index in earlier then earlier[index] else []
  }

  /** No message shows the batch under a nonce of this delivery. */
  ghost predicate OwnGone(channel: map<MessageId, Message>, deleted: set<MessageId>, nonce: Nonce) {
    forall m | m in channel && m !in deleted :: channel[m].nonce != Some(nonce)
  }

  /** The message to edit is the one this delivery sent for the batch, or else the one
      that the family still shows. */
  ghost predicate Recovers(channel: map<MessageId, Message>, deleted: set<MessageId>, nonce: Nonce, rows: seq<Intent>,
                           announced: Option<Intent>, found: Option<MessageId>)
  {
    || (found.Some? && announced.Some? && Newest(channel, deleted, nonce, announced.value.createdAt, found))
    || (OwnGone(channel, deleted, nonce) && FamilyShows(channel, deleted, rows, found))
  }

  /** The plan contradicts what is already durable: it lost an index that was
      announced, or changed a batch that was recorded. */
  ghost predicate Changed(plan: seq<Batch>, intents: map<nat, Intent>, batches: map<nat, MessageId>) {
    Shrunk(plan, intents, batches) || Rewritten(plan, intents, batches)
  }

  ghost predicate Shrunk(plan: seq<Batch>, intents: map<nat, Intent>, batches: map<nat, MessageId>) {
    exists i: nat :: (i in intents || i in batches) && i >= |plan|
  }

  ghost predicate Rewritten(plan: seq<Batch>, intents: map<nat, Intent>, batches: map<nat, MessageId>) {
    exists i | 0 <= i < |plan| :: i in batches && i in intents && intents[i].payload != plan[i]
  }

  function Max(a: nat, b: nat): nat { if a < b then b else a }

  /** The message to edit for batch `i`, if any, belongs to it and is the only one
      with its nonce; with none there is no message with the nonce. */
  ghost predicate Recoverable(delivery: nat, i: nat, channel: map<MessageId, Message>, deleted: set<MessageId>,
                              recovery: Option<MessageId>, named: bool)
  {
    if recovery.Some? then
      && recovery.value in channel && Owner(channel[recovery.value]) == i
      && OnlyFor(delivery, i, channel, deleted, recovery.value, named)
    else
      forall m | m in channel && m !in deleted :: channel[m].nonce != Some(Nonce(delivery, i))
  }

  /** Deletions and messages by others do not change that. */
  lemma StillRecoverable(delivery: nat, i: nat, channel: map<MessageId, Message>, deleted: set<MessageId>,
                         channel': map<MessageId, Message>, deleted': set<MessageId>, recovery: Option<MessageId>, named: bool)
    requires Recoverable(delivery, i, channel, deleted, recovery, named) && deleted' >= deleted
    requires forall m | m in channel :: m in channel' && channel'[m] == channel[m]
    requires forall m | m in channel' && m !in channel :: channel'[m].nonce == None
    ensures Recoverable(delivery, i, channel', deleted', recovery, named)
  {
  }

  /** Changing the content of a message that shows no recorded batch keeps the rest. */
  lemma EditKeeps(delivery: nat, intents: map<nat, Intent>, batches: map<nat, MessageId>,
                  channel: map<MessageId, Message>, deleted: set<MessageId>, legacy: set<nat>,
                  m: MessageId, batch: Batch, named: bool)
    requires ThreadOk(delivery, intents, batches, channel, deleted, legacy, named)
    requires m in channel && Owner(channel[m]) !in batches
    ensures ThreadOk(delivery, intents, batches, channel[m := channel[m].(content := batch)], deleted, legacy, named)
  {
    var after := channel[m := channel[m].(content := batch)];
    assert forall n | n in after :: n in channel && after[n].nonce == channel[n].nonce && after[n].at == channel[n].at;
    assert forall i | i in batches :: batches[i] != m;
    assert InOrder(delivery, after, deleted);
  }

  /** Sending the latest announced batch, when no undeleted message shows it, keeps the order. */
  lemma SendKeeps(delivery: nat, intents: map<nat, Intent>, batches: map<nat, MessageId>,
                  channel: map<MessageId, Message>, deleted: set<MessageId>, legacy: set<nat>,
                  m: MessageId, index: nat, at: int, batch: Batch, named: bool)
    requires ThreadOk(delivery, intents, batches, channel, deleted, legacy, named)
    requires forall n | n in channel :: n < m
    requires index in intents && index !in batches && at > 0 && at > intents[index].createdAt - 1000
    requires forall i | i in intents :: i <= index
    requires forall n | n in channel && n !in deleted :: channel[n].nonce != Some(Nonce(delivery, index))
    ensures ThreadOk(delivery, intents, batches,
                     channel[m := Message(Some(Nonce(delivery, index)), at, batch)], deleted, legacy, named)
  {
    var after := channel[m := Message(Some(Nonce(delivery, index)), at, batch)];
    forall a, b | a in after && b in after && a < b && Own(delivery, after[a]) && Own(delivery, after[b])
      ensures Owner(after[a]) < Owner(after[b]) || (Owner(after[a]) == Owner(after[b]) && a in deleted)
    {
      assert a in channel;
      if Owner(after[a]) == index && b == m {
        assert after[a].nonce == Some(Nonce(delivery, index));
      }
    }
  }

  /** Messages keep their nonces and are never forgotten. */
  ghost predicate Grows(before: map<MessageId, Message>, after: map<MessageId, Message>) {
    forall m | m in before :: m in after && after[m].nonce == before[m].nonce
  }

  /** Messages that belong to the first `done` batches look as before. */
  ghost predicate Untouched(before: map<MessageId, Message>, after: map<MessageId, Message>, done: nat) {
    forall m | m in before && Owner(before[m]) < done :: m in after && after[m] == before[m]
  }

  /** At most the row of `index` differs. */
  ghost predicate SameElsewhere(before: map<nat, Intent>, after: map<nat, Intent>, index: nat) {
    forall i | i != index :: (i in after <==> i in before) && (i in before ==> after[i] == before[i])
  }

  lemma StillUntouched(a: map<MessageId, Message>, b: map<MessageId, Message>, c: map<MessageId, Message>,
                       done: nat)
    requires Grows(a, b) && Untouched(a, b, done) && Grows(b, c) && Untouched(b, c, done)
    ensures Grows(a, c) && Untouched(a, c, done)
  {
    forall m | m in a ensures m in c && c[m].nonce == a[m].nonce && (Owner(a[m]) < done ==> c[m] == a[m]) {
      assert m in b;
    }
  }

  /** How far an attempt that began with the `0` rows came: the batches below
      `index` are recorded as planned, the other rows are as they were. */
  ghost predicate Underway(plan: seq<Batch>, index: nat,
                           intents0: map<nat, Intent>, batches0: map<nat, MessageId>,
                           intents: map<nat, Intent>, batches: map<nat, MessageId>)
  {
    && (forall i | i in batches0 :: i in batches && batches[i] == batches0[i])
    && (forall i | 0 <= i < index && i < |plan| ::
          && i in intents && intents[i].payload == plan[i]
          && (i in batches0 && i in intents0 ==> intents0[i].payload == plan[i]))
    && (forall i | i >= index :: (i in intents <==> i in intents0) && (i in intents0 ==> intents[i] == intents0[i]))
  }

  lemma OneFurther(plan: seq<Batch>, index: nat,
                   intents0: map<nat, Intent>, batches0: map<nat, MessageId>,
                   intents: map<nat, Intent>, batches: map<nat, MessageId>,
                   intents': map<nat, Intent>, batches': map<nat, MessageId>)
    requires Underway(plan, index, intents0, batches0, intents, batches) && index < |plan|
    requires SameElsewhere(intents, intents', index)
    requires forall i | i in batches :: i in batches' && batches'[i] == batches[i]
    requires index in intents' && intents'[index].payload == plan[index]
    requires index in batches && index in intents ==> intents[index].payload == plan[index]
    ensures Underway(plan, index + 1, intents0, batches0, intents', batches')
  {
  }

  lemma UnderwayMeansUnchanged(plan: seq<Batch>,
                               intents0: map<nat, Intent>, batches0: map<nat, MessageId>,
                               intents: map<nat, Intent>, batches: map<nat, MessageId>)
    requires Underway(plan, |plan|, intents0, batches0, intents, batches)
    requires !Shrunk(plan, intents0, batches0)
    requires forall i | i in batches :: i < |plan|
    ensures !Changed(plan, intents0, batches0) && !Changed(plan, intents, batches)
  {
  }

  /** An attempt that stopped at `index`: as `Underway`, but for the row of `index`. */
  ghost predicate Stopped(plan: seq<Batch>, index: nat, intents0: map<nat, Intent>, intents: map<nat, Intent>)
  {
    && index < |plan|
    && (forall i | 0 <= i < index :: i in intents && intents[i].payload == plan[i])
    && (forall i | i > index && i in intents :: i in intents0)
  }

  lemma StoppedHere(plan: seq<Batch>, index: nat,
                    intents0: map<nat, Intent>, batches0: map<nat, MessageId>,
                    intents: map<nat, Intent>, batches: map<nat, MessageId>, intents': map<nat, Intent>)
    requires Underway(plan, index, intents0, batches0, intents, batches) && index < |plan|
    requires SameElsewhere(intents, intents', index)
    ensures Stopped(plan, index, intents0, intents')
  {
  }

  lemma StoppedMeansUnchanged(plan: seq<Batch>, index: nat,
                              intents0: map<nat, Intent>, batches0: map<nat, MessageId>,
                              intents: map<nat, Intent>, batches: map<nat, MessageId>)
    requires Stopped(plan, index, intents0, intents) && !Shrunk(plan, intents0, batches0)
    requires forall i | i in batches :: i < index
    ensures !Changed(plan, intents, batches)
  {
  }

  lemma OneRewritten(plan: seq<Batch>, index: nat,
                     intents0: map<nat, Intent>, batches0: map<nat, MessageId>,
                     intents: map<nat, Intent>, batches: map<nat, MessageId>)
    requires Underway(plan, index, intents0, batches0, intents, batches) && index < |plan|
    requires index in batches0 && index in intents && intents[index].payload != plan[index]
    ensures Changed(plan, intents0, batches0)
  {
  }

  lemma EarlierKept(delivery: nat, earlier: map<nat, seq<Intent>>,
                    before: map<MessageId, Message>, after: map<MessageId, Message>)
    requires EarlierOk(delivery, earlier, before) && Grows(before, after)
    ensures EarlierOk(delivery, earlier, after)
  {
  }

  /** Announcing, recording and posting by others keep the rows and the thread. */
  lemma AnnounceKeeps(delivery: nat, intents: map<nat, Intent>, batches: map<nat, MessageId>,
                      checkpoint: Option<Checkpoint>, done: nat, legacy: set<nat>,
                      channel: map<MessageId, Message>, deleted: set<MessageId>, row: Intent, named: bool)
    requires RowsOk(delivery, intents, batches, checkpoint, done, legacy)
    requires ThreadOk(delivery, intents, batches, channel, deleted, legacy, named)
    requires row.nonce == Nonce(delivery, done) && row.progress == Prepared && row.message == None
    requires done in intents ==> row.createdAt == intents[done].createdAt
    ensures RowsOk(delivery, intents[done := row], batches, checkpoint, done, legacy)
    ensures ThreadOk(delivery, intents[done := row], batches, channel, deleted, legacy, named)
  {
  }

  lemma RecordKeeps(delivery: nat, intents: map<nat, Intent>, batches: map<nat, MessageId>,
                    checkpoint: Option<Checkpoint>, done: nat, legacy: set<nat>,
                    channel: map<MessageId, Message>, deleted: set<MessageId>,
                    row: Intent, message: MessageId, first: MessageId, named: bool)
    requires RowsOk(delivery, intents, batches, checkpoint, done, legacy)
    requires ThreadOk(delivery, intents, batches, channel, deleted, legacy, named)
    requires done in intents && row == intents[done].(progress := Sent, message := Some(message))
    requires message in channel && Owner(channel[message]) == done
    requires channel[message].content == row.payload && OnlyFor(delivery, done, channel, deleted, message, named)
    requires done == 0 ==> first == message
    ensures ThreadOk(delivery, intents[done := row], batches[done := message], channel, deleted, legacy, named)
    ensures RowsOk(delivery, intents[done := row], batches[done := message], Advanced(checkpoint, first, done + 1), done + 1, legacy)
  {
    assert done !in batches;
  }

  /** The checkpoint row after a batch: its first message never changes. */
  function Advanced(checkpoint: Option<Checkpoint>, first: MessageId, next: nat): Option<Checkpoint> {
    if checkpoint.None? then Some(Checkpoint(first, next, false))
    else Some(checkpoint.value.(next := Max(checkpoint.value.next, next)))
  }

  lemma PostKeeps(delivery: nat, intents: map<nat, Intent>, batches: map<nat, MessageId>,
                  channel: map<MessageId, Message>, deleted: set<MessageId>, legacy: set<nat>,
                  m: MessageId, posted: Message, more: set<MessageId>, named: bool)
    requires ThreadOk(delivery, intents, batches, channel, deleted, legacy, named)
    requires m !in channel && posted.nonce == None
    ensures ThreadOk(delivery, intents, batches, channel[m := posted], deleted + more, legacy, named)
  {
    var after := channel[m := posted];
    assert forall n | n in after && Own(delivery, after[n]) :: n in channel && after[n] == channel[n];
    assert InOrder(delivery, after, deleted + more);
  }

  lemma NamingKeeps(delivery: nat, intents: map<nat, Intent>, batches: map<nat, MessageId>,
                    channel: map<MessageId, Message>, deleted: set<MessageId>, legacy: set<nat>, named: bool)
    requires ThreadOk(delivery, intents, batches, channel, deleted, legacy, named)
    ensures ThreadOk(delivery, intents, batches, channel, deleted, legacy, true)
  {
  }

  /** Of two undeleted messages of the thread, at most one carries a given nonce. */
  lemma OneMessagePerNonce(delivery: nat, channel: map<MessageId, Message>, deleted: set<MessageId>,
                           m: MessageId, n: MessageId)
    requires InOrder(delivery, channel, deleted)
    requires m in channel && n in channel && m !in deleted && n !in deleted
    requires Own(delivery, channel[m]) && channel[m].nonce == channel[n].nonce
    ensures m == n
  {
    if m < n {
      assert Own(delivery, channel[n]);
    } else if n < m {
      assert Own(delivery, channel[n]);
    }
  }

  /** No message shows two batches. */
  lemma BatchesDoNotShareMessages(delivery: nat, intents: map<nat, Intent>, batches: map<nat, MessageId>,
                                  channel: map<MessageId, Message>, deleted: set<MessageId>,
                                  legacy: set<nat>, i: nat, j: nat, named: bool)
    requires ThreadOk(delivery, intents, batches, channel, deleted, legacy, named)
    requires i in batches && j in batches && i != j
    ensures batches[i] != batches[j]
  {
    assert Owner(channel[batches[i]]) == i;
  }

  /** One delivery's durable rows together with the thread it writes to. */
  class Delivery {
    const delivery: nat
    const earlier: map<nat, seq<Intent>>
    var intents: map<nat, Intent>
    var batches: map<nat, MessageId>
    var checkpoint: Option<Checkpoint>
    var channel: map<MessageId, Message>
    var deleted: set<MessageId>
    var nextId: MessageId
    ghost var done: nat
    ghost var legacy: set<nat>
    ghost var clock: int
    ghost var named: bool

    ghost predicate Valid()
      reads this
    {
      && RowsOk(delivery, intents, batches, checkpoint, done, legacy)
      && ThreadOk(delivery, intents, batches, channel, deleted, legacy, named)
      && EarlierOk(delivery, earlier, channel)
      && (forall m | m in channel :: m < nextId)
      && (forall i | i in intents :: intents[i].createdAt <= clock)
      && (named || done > 0 || FamilyGone(earlier, deleted) || NoneSent(delivery, channel))
    }

    /** A thread in which this delivery has not begun. */
    constructor (delivery: nat, earlier: map<nat, seq<Intent>>, channel: map<MessageId, Message>,
                 nextId: MessageId)
      requires EarlierOk(delivery, earlier, channel)
      requires forall m | m in channel :: m < nextId && !Own(delivery, channel[m])
      ensures Valid() && this.delivery == delivery && this.earlier == earlier
      ensures intents == map[] && batches == map[] && done == 0
      ensures this.channel == channel && deleted == {} && clock == 0 && !named
    {
      this.delivery, this.earlier := delivery, earlier;
      intents, batches, checkpoint := map[], map[], None;
      this.channel, deleted, this.nextId := channel, {}, nextId;
      done, legacy, clock, named := 0, {}, 0, false;
    }

    /** People delete messages and post their own at any time. */
    method OthersMeddle(posted: Message)
      requires Valid() && posted.nonce == None
      modifies `deleted, `channel, `nextId
      ensures Valid()
      ensures deleted >= old(deleted) && nextId >= old(nextId)
      ensures channel == old(channel)[old(nextId) := posted]
    {
      var more: set<MessageId> := *;
      PostKeeps(delivery, intents, batches, channel, deleted, legacy, nextId, posted, more, named);
      EarlierKept(delivery, earlier, channel, channel[nextId := posted]);
      deleted := deleted + more;
      channel := channel[nextId := posted];
      nextId := nextId + 1;
    }

    /** `_find_message_by_nonce`: the thread's history after a second before the intent, newest
        message first (times are milliseconds). */
    method FindMessageByNonce(nonce: Nonce, createdAt: int) returns (found: Option<MessageId>)
      requires forall m | m in channel :: m < nextId
      ensures Newest(channel, deleted, nonce, createdAt, found)
    {
      var after := if createdAt < 1000 then 0 else createdAt - 1000;
      var id := nextId;
      found := None;
      while id > 0 && found.None?
        invariant id <= nextId
        invariant found.None? ==> forall m | m in channel && m !in deleted && channel[m].nonce == Some(nonce) && m >= id ::
          channel[m].at <= after
        invariant found.Some? ==>
          && found.value in channel && found.value !in deleted && channel[found.value].nonce == Some(nonce)
          && channel[found.value].at > after
          && forall m | m in channel && m !in deleted && channel[m].nonce == Some(nonce) && m > found.value ::
               channel[m].at <= after
      {
        id := id - 1;
        if id in channel && id !in deleted && channel[id].at > after && channel[id].nonce == Some(nonce) {
          found := Some(id);
        }
      }
    }

    /** The message that the latest earlier delivery of the family with one shows
        as its first batch, when it still exists. */
    method FamilyFirst() returns (found: Option<MessageId>)
      requires EarlierOk(delivery, earlier, channel)
      ensures var latest := if 0 in earlier then LatestMessage(earlier[0]) else None;
        found == if latest.Some? && latest.value !in deleted then latest else None
      ensures found.Some? ==> found.value in channel && Owner(channel[found.value]) == 0
    {
      found := None;
      if 0 in earlier {
        var k := 0;
        while k < |earlier[0]| && earlier[0][k].message.None?
          invariant 0 <= k <= |earlier[0]|
          invariant LatestMessage(earlier[0]) == LatestMessage(earlier[0][k..])
        {
          k := k + 1;
        }
        if k < |earlier[0]| && earlier[0][k].message.value !in deleted {
          found := earlier[0][k].message;
        }
      }
    }

    /** The message to edit instead of sending a new one: the caller's for the
        first batch, else one with this batch's nonce, else an earlier
        delivery's. When there is none, no undeleted message carries the nonce.
        `announced` is the
        intent as it was before this attempt. */
    method FindRecovery(index: nat, first: Option<MessageId>, announced: Option<Intent>)
      returns (found: Option<MessageId>)
      requires EarlierOk(delivery, earlier, channel) && InOrder(delivery, channel, deleted)
      requires forall m | m in channel :: m < nextId
      requires first.Some? ==> first.value in channel && Owner(channel[first.value]) == 0
      requires index == 0 && first.Some? ==> named || NoneSent(delivery, channel)
      requires announced.None? ==> forall m | m in channel :: channel[m].nonce != Some(Nonce(delivery, index))
      requires announced.Some? ==> forall m | m in channel && channel[m].nonce == Some(Nonce(delivery, index)) ::
        channel[m].at > 0 && channel[m].at > announced.value.createdAt - 1000
      ensures Recoverable(delivery, index, channel, deleted, found, named)
      ensures if index == 0 && first.Some? then found == first
              else found.Some? ==> found.value !in deleted
      ensures index > 0 || first.None? ==>
        Recovers(channel, deleted, Nonce(delivery, index), RowsFor(earlier, index), announced, found)
    {
      found := None;
      if index == 0 && first.Some? {
        found := first;
      } else {
        if announced.Some? {
          found := FindMessageByNonce(Nonce(delivery, index), announced.value.createdAt);
        }
        if found.None? { found := FindInFamily(index); }
        forall n | n in channel && n !in deleted && channel[n].nonce == Some(Nonce(delivery, index))
          ensures found == Some(n)
        {
          OneMessagePerNonce(delivery, channel, deleted, n, found.value);
        }
      }
    }

    /** The rows that earlier deliveries of the family left for the batch, latest first. */
    method FindInFamily(index: nat) returns (found: Option<MessageId>)
      requires EarlierOk(delivery, earlier, channel) && forall m | m in channel :: m < nextId
      requires OwnGone(channel, deleted, Nonce(delivery, index))
      ensures FamilyShows(channel, deleted, RowsFor(earlier, index), found)
      ensures found.Some? ==> found.value in channel && found.value !in deleted && Owner(channel[found.value]) == index
    {
      found := None;
      if index in earlier {
        var k := 0;
        while k < |earlier[index]| && found.None?
          invariant 0 <= k <= |earlier[index]|
          invariant found.Some? ==> found.value in channel && found.value !in deleted && Owner(channel[found.value]) == index
          invariant found.None? ==> forall any :: FamilyShows(channel, deleted, earlier[index][k..], any) ==> FamilyShows(channel, deleted, earlier[index], any)
          invariant found.Some? ==> FamilyShows(channel, deleted, earlier[index], found)
        {
          var row := earlier[index][k];
          if row.message.Some? {
            found := if row.message.value in deleted then None else row.message;
          } else {
            found := FindMessageByNonce(row.nonce, row.createdAt);
          }
          assert RowShows(channel, deleted, row, found);
          assert earlier[index][k..][0] == row && earlier[index][k..][1..] == earlier[index][k + 1..];
          k := k + 1;
        }
      }
    }

    /** Make the intent of the next batch durable, or take over the payload of
        one that was announced but not recorded. */
    method Announce(index: nat, batch: Batch, now: int)
      requires Valid() && index == done && now >= clock
      modifies `intents
      ensures Valid()
      ensures index in intents && intents[index].payload == batch
      ensures intents[index].createdAt == if index in old(intents) then old(intents)[index].createdAt else now
      ensures SameElsewhere(old(intents), intents, index)
      ensures clock == now
      modifies `clock
    {
      clock := now;
      if index !in intents {
        ghost var row := Intent(Nonce(delivery, index), batch, Prepared, None, now);
        AnnounceKeeps(delivery, intents, batches, checkpoint, done, legacy, channel, deleted, row, named);
        intents := intents[index := Intent(Nonce(delivery, index), batch, Prepared, None, now)];
      } else if intents[index].payload != batch {
        ghost var row := intents[index].(payload := batch);
        AnnounceKeeps(delivery, intents, batches, checkpoint, done, legacy, channel, deleted, row, named);
        intents := intents[index := intents[index].(payload := batch)];
      }
    }

    method Edit(index: nat, batch: Batch, message: MessageId)
      requires Valid() && index == done && message in channel && Owner(channel[message]) == index
      requires OnlyFor(delivery, index, channel, deleted, message, named)
      modifies `channel
      ensures Valid() && Displays(index, batch, message)
      ensures Grows(old(channel), channel) && Untouched(old(channel), channel, index)
    {
      EditKeeps(delivery, intents, batches, channel, deleted, legacy, message, batch, named);
      EarlierKept(delivery, earlier, channel, channel[message := channel[message].(content := batch)]);
      channel := channel[message := channel[message].(content := batch)];
    }

    /** Discord stamps a new message with a time less than a second behind the
        local clock. */
    method Send(index: nat, batch: Batch) returns (message: MessageId)
      requires Valid() && index == done && index in intents
      requires Recoverable(delivery, index, channel, deleted, None, named)
      requires index == 0 ==> named || FamilyGone(earlier, deleted)
      modifies `channel, `nextId
      ensures Valid() && Displays(index, batch, message) && message !in old(channel)
      ensures Grows(old(channel), channel) && Untouched(old(channel), channel, index)
    {
      var at: int := *;
      if at <= 0 { at := 1; }
      if at <= intents[index].createdAt - 1000 { at := intents[index].createdAt; }
      message := nextId;
      SendKeeps(delivery, intents, batches, channel, deleted, legacy, nextId, index, at, batch, named);
      EarlierKept(delivery, earlier, channel, channel[nextId := Message(Some(Nonce(delivery, index)), at, batch)]);
      channel := channel[nextId := Message(Some(Nonce(delivery, index)), at, batch)];
      nextId := nextId + 1;
    }

    /** The message is the one that shows the batch. */
    ghost predicate Displays(index: nat, batch: Batch, message: MessageId)
      reads `channel, `deleted, `named
    {
      && message in channel && Owner(channel[message]) == index && channel[message].content == batch
      && OnlyFor(delivery, index, channel, deleted, message, named)
    }

    /** Edit the recovered message or send a new one with the batch's nonce. The
        attempt may fail, before or after Discord did it. */
    method Show(index: nat, batch: Batch, recovery: Option<MessageId>, crashy: bool)
      returns (shown: Option<MessageId>)
      requires Valid() && index == done && index in intents
      requires Recoverable(delivery, index, channel, deleted, recovery, named)
      requires index == 0 && recovery.None? ==> named || FamilyGone(earlier, deleted)
      modifies `channel, `nextId
      ensures Valid()
      ensures shown.Some? ==> Displays(index, batch, shown.value) && (recovery.Some? ==> shown == recovery)
      ensures shown.Some? && recovery.None? ==> shown.value !in old(channel)
      ensures !crashy && (recovery.Some? ==> recovery.value !in deleted) ==> shown.Some?
      ensures Grows(old(channel), channel) && Untouched(old(channel), channel, index)
    {
      shown := None;
      if crashy {
        if * { return; }
      }
      if recovery.Some? {
        if recovery.value in deleted { return; }
        Edit(index, batch, recovery.value);
        shown := recovery;
      } else {
        var message := Send(index, batch);
        shown := Some(message);
      }
      if crashy {
        if * { shown := None; }
      }
    }

    /** `_checkpoint_render_batch`: one transaction over the three tables. */
    method Record(index: nat, message: MessageId, first: MessageId)
      requires Valid() && index == done && index in intents && Displays(index, intents[index].payload, message)
      requires index == 0 ==> first == message
      modifies `intents, `batches, `checkpoint, `done
      ensures Valid() && done == index + 1
      ensures batches == old(batches)[index := message] && checkpoint == Advanced(old(checkpoint), first, index + 1)
      ensures intents == old(intents)[index := old(intents)[index].(progress := Sent, message := Some(message))]
    {
      var row := intents[index].(progress := Sent, message := Some(message));
      RecordKeeps(delivery, intents, batches, checkpoint, done, legacy, channel, deleted, row, message, first, named);
      WriteRows(index, row, message, first);
    }

    method WriteRows(index: nat, row: Intent, message: MessageId, first: MessageId)
      requires index == done
      modifies `intents, `batches, `checkpoint, `done
      ensures intents == old(intents)[index := row] && batches == old(batches)[index := message]
      ensures checkpoint == Advanced(old(checkpoint), first, index + 1) && done == index + 1
    {
      intents := intents[index := row];
      batches := batches[index := message];
      checkpoint := Advanced(checkpoint, first, index + 1);
      done := done + 1;
    }

    /** Look for a message to edit while others use the thread. */
    method Locate(index: nat, first: Option<MessageId>, announced: Option<Intent>, meanwhile: Message)
      returns (recovery: Option<MessageId>)
      requires Valid() && meanwhile.nonce == None
      requires first.Some? ==> first.value in channel && Owner(channel[first.value]) == 0
      requires index == 0 && first.Some? ==> named || NoneSent(delivery, channel)
      requires announced.None? ==> forall m | m in channel :: channel[m].nonce != Some(Nonce(delivery, index))
      requires announced.Some? ==> forall m | m in channel && channel[m].nonce == Some(Nonce(delivery, index)) ::
        channel[m].at > 0 && channel[m].at > announced.value.createdAt - 1000
      modifies `deleted, `channel, `nextId
      ensures Valid() && deleted >= old(deleted)
      ensures forall m | m in old(channel) :: m in channel && channel[m] == old(channel)[m]
      ensures Recoverable(delivery, index, channel, deleted, recovery, named)
      ensures index == 0 && first.Some? ==> recovery == first
    {
      OthersMeddle(meanwhile);
      recovery := FindRecovery(index, first, announced);
      ghost var channel0, deleted0 := channel, deleted;
      OthersMeddle(meanwhile);
      StillRecoverable(delivery, index, channel0, deleted0, channel, deleted, recovery, named);
    }

    /** The batch is announced and, unless interrupted, it is known which
        message to edit. */
    method Seek(index: nat, batch: Batch, first: Option<MessageId>, now: int, crashy: bool)
      returns (ok: bool, recovery: Option<MessageId>)
      requires Valid() && index == done && now >= clock
      requires first.Some? ==> first.value in channel && Owner(channel[first.value]) == 0
      requires index == 0 && first.Some? ==> named || NoneSent(delivery, channel)
      modifies `intents, `clock, `deleted, `channel, `nextId
      ensures Valid() && clock == now && deleted >= old(deleted)
      ensures Grows(old(channel), channel) && Untouched(old(channel), channel, index)
      ensures index in intents && intents[index].payload == batch && SameElsewhere(old(intents), intents, index)
      ensures ok ==> Recoverable(delivery, index, channel, deleted, recovery, named)
      ensures ok ==> (index == 0 && first.Some? ==> recovery == first)
      ensures !crashy ==> ok && deleted == old(deleted) && channel == old(channel) && nextId == old(nextId)
      ensures !crashy && (index > 0 || first.None?) ==>
        Recovers(old(channel), old(deleted), Nonce(delivery, index), RowsFor(earlier, index),
                 if index in old(intents) then Some(old(intents)[index]) else None, recovery)
      ensures !crashy && recovery.Some? ==> recovery.value !in deleted || (index == 0 && recovery == first)
    {
      ok, recovery := false, None;
      var announced := if index in intents then Some(intents[index]) else None;
      Announce(index, batch, now);
      if crashy {
        if * { return; }
        recovery := Locate(index, first, announced, Message(None, now, batch));
        if * { return; }
      } else {
        recovery := FindRecovery(index, first, announced);
      }
      ok := true;
    }

    /** Show the announced batch and record it. */
    method ShowAndRecord(index: nat, batch: Batch, recovery: Option<MessageId>,
                         firstId: Option<MessageId>, crashy: bool)
      returns (shown: Option<MessageId>)
      requires Valid() && index == done && index in intents && intents[index].payload == batch
      requires Recoverable(delivery, index, channel, deleted, recovery, named)
      requires index == 0 ==> firstId.None? || firstId == recovery
      requires index == 0 && recovery.None? ==> named || FamilyGone(earlier, deleted)
      modifies `channel, `nextId, `intents, `batches, `checkpoint, `done
      ensures Valid()
      ensures Grows(old(channel), channel) && Untouched(old(channel), channel, index)
      ensures shown.Some? ==>
        && Recorded(old(intents), old(batches), index, batch, shown.value)
        && (if recovery.Some? then shown == recovery else shown.value !in old(channel))
      ensures shown.None? ==> done == index && batches == old(batches) && intents == old(intents)
      ensures !crashy && (recovery.Some? ==> recovery.value !in deleted) ==> shown.Some?
    {
      shown := Show(index, batch, recovery, crashy);
      if shown.None? { return; }
      Record(index, shown.value, if firstId.Some? then firstId.value else shown.value);
    }

    /** The rows after `index` was recorded; rows of other indices are as before. */
    ghost predicate Recorded(wasIntents: map<nat, Intent>, wasBatches: map<nat, MessageId>,
                             index: nat, batch: Batch, message: MessageId)
      reads `done, `batches, `intents
    {
      && done == index + 1 && batches == wasBatches[index := message]
      && index in intents && intents[index].payload == batch
      && SameElsewhere(wasIntents, intents, index)
    }

    /** The first batch that is not recorded yet: announce it, show it, record it. */
    method DeliverNext(index: nat, batch: Batch, first: Option<MessageId>, firstId: Option<MessageId>,
                       now: int, crashy: bool)
      returns (shown: Option<MessageId>, ghost taken: Option<MessageId>)
      requires Valid() && index == done && now >= clock
      requires first.Some? ==> first.value in channel && Owner(channel[first.value]) == 0
      requires index == 0 ==> firstId == first
      requires index == 0 ==> named || if first.Some? then NoneSent(delivery, channel) else FamilyGone(earlier, deleted)
      modifies this
      ensures Valid() && named == old(named) && clock == now && legacy == old(legacy) && deleted >= old(deleted)
      ensures Grows(old(channel), channel) && Untouched(old(channel), channel, index)
      ensures shown.Some? ==>
        && Recorded(old(intents), old(batches), index, batch, shown.value)
        && (index == 0 && first.Some? ==> shown == first)
      ensures shown.None? ==>
        done == index && batches == old(batches) && SameElsewhere(old(intents), intents, index)
      ensures !crashy && (index == 0 && first.Some? ==> first.value !in old(deleted)) ==> shown.Some?
      ensures !crashy ==> deleted == old(deleted)
      ensures !crashy && (index > 0 || first.None?) ==>
        Recovers(old(channel), old(deleted), Nonce(delivery, index), RowsFor(earlier, index),
                 if index in old(intents) then Some(old(intents)[index]) else None, taken)
      ensures shown.Some? ==> if taken.Some? then shown == taken else shown.value !in old(channel)
    {
      shown, taken := None, None;
      var ok, recovery := Seek(index, batch, first, now, crashy);
      if !ok { return; }
      ghost var found := channel;
      taken := recovery;
      shown := ShowAndRecord(index, batch, recovery, firstId, crashy);
      StillUntouched(old(channel), found, channel, index);
    }

    /** A recorded batch must still be the one that was announced. A batch
        recorded before intents existed is taken at its word. */
    method Recheck(index: nat, batch: Batch, now: int) returns (same: bool)
      requires Valid() && index < done && now >= clock
      modifies `intents, `clock
      ensures Valid() && clock == now
      ensures same <==> (index in old(intents) ==> old(intents)[index].payload == batch)
      ensures index in intents && SameElsewhere(old(intents), intents, index)
      ensures same ==> intents[index].payload == batch
    {
      clock := now;
      if index !in intents {
        assert index in batches;
        intents := intents[index := Intent(Nonce(delivery, index), batch, Sent, Some(batches[index]), now)];
      }
      var row := intents[index];
      same := row.nonce == Nonce(delivery, index) && row.payload == batch
              && row.progress == Sent && row.message == Some(batches[index]);
    }

    /** Every batch of the plan is recorded, as the plan has it. */
    ghost predicate Complete(plan: seq<Batch>)
      reads `done, `intents
    {
      done == |plan| && forall i | 0 <= i < |plan| :: i in intents && intents[i].payload == plan[i]
    }

    ghost predicate Usable(first: Option<MessageId>)
      reads `channel
    {
      first.Some? ==> first.value in channel && Owner(channel[first.value]) == 0
    }

    /** Until the first batch is recorded: if no caller named its message, it goes
        into the family's, and was never sent, or the family has none. */
    ghost predicate Known(first: Option<MessageId>)
      reads `channel, `deleted, `done, `named
    {
      done == 0 && !named ==> if first.Some? then NoneSent(delivery, channel) else FamilyGone(earlier, deleted)
    }

    /** One round of the loop: recheck a recorded batch or deliver the next. */
    method DeliverIndex(index: nat, batch: Batch, first: Option<MessageId>, firstId: Option<MessageId>,
                        now: int, crashy: bool)
      returns (ended: Option<Outcome>, nextFirst: Option<MessageId>)
      requires Valid() && index <= done && now >= clock && Usable(first) && Known(first)
      requires if done == 0 then firstId == first else firstId.Some?
      modifies this
      ensures Valid() && clock == now && legacy == old(legacy) && deleted >= old(deleted) && done >= old(done)
      ensures named == old(named) && (ended.None? ==> Known(first))
      ensures Grows(old(channel), channel) && Untouched(old(channel), channel, old(done)) && Usable(first)
      ensures SameElsewhere(old(intents), intents, index)
      ensures forall i | i in old(batches) :: i in batches && batches[i] == old(batches)[i]
      ensures ended.None? ==>
        && done == Max(old(done), index + 1) && index in intents && intents[index].payload == batch
        && (index < old(done) && index in old(intents) ==> old(intents)[index].payload == batch)
        && nextFirst == (if old(done) == 0 && firstId.None? then Some(batches[0]) else firstId)
        && (old(done) == 0 && first.Some? ==> batches[0] == first.value)
      ensures ended.Some? ==> !ended.value.Delivered?
      ensures ended == Some(Interrupted) ==> done == index && batches == old(batches)
      ensures ended == Some(Permanent) ==>
        index in old(batches) && index in old(intents) && old(intents)[index].payload != batch
      ensures !crashy && (old(done) == 0 && first.Some? ==> first.value !in old(deleted)) ==>
        ended != Some(Interrupted)
      ensures !crashy ==> deleted == old(deleted)
    {
      ended, nextFirst := None, firstId;
      if index in batches {
        var same := Recheck(index, batch, now);
        if !same { ended := Some(Permanent); }
      } else {
        var shown;
        ghost var taken;
        shown, taken := DeliverNext(index, batch, first, firstId, now, crashy);
        if shown.None? {
          ended := Some(Interrupted);
        } else if firstId.None? {
          nextFirst := shown;
        }
      }
    }

    /** The same, in an attempt that began with the rows `intents0` and `batches0`. */
    method DeliverOnPlan(plan: seq<Batch>, index: nat, first: Option<MessageId>, firstId: Option<MessageId>,
                         now: int, crashy: bool, ghost intents0: map<nat, Intent>, ghost batches0: map<nat, MessageId>)
      returns (ended: Option<Outcome>, nextFirst: Option<MessageId>)
      requires Valid() && index <= done && now >= clock && Usable(first) && Known(first)
      requires if done == 0 then firstId == first else firstId.Some?
      requires index < |plan| && Underway(plan, index, intents0, batches0, intents, batches)
      requires index in batches ==> index in batches0
      modifies this
      ensures Valid() && clock == now && legacy == old(legacy) && deleted >= old(deleted) && done >= old(done)
      ensures named == old(named) && (ended.None? ==> Known(first))
      ensures Grows(old(channel), channel) && Untouched(old(channel), channel, old(done)) && Usable(first)
      ensures forall i | i in old(batches) :: i in batches && batches[i] == old(batches)[i]
      ensures ended.None? ==>
        && done == Max(old(done), index + 1) && Underway(plan, index + 1, intents0, batches0, intents, batches)
        && nextFirst == (if old(done) == 0 && firstId.None? then Some(batches[0]) else firstId)
        && (old(done) == 0 && first.Some? ==> batches[0] == first.value)
      ensures ended.Some? ==> !ended.value.Delivered?
      ensures ended == Some(Interrupted) ==> done == index && Stopped(plan, index, intents0, intents)
      ensures ended == Some(Permanent) ==> Changed(plan, intents0, batches0)
      ensures !crashy && (old(done) == 0 && first.Some? ==> first.value !in old(deleted)) ==>
        ended != Some(Interrupted)
      ensures !crashy ==> deleted == old(deleted)
    {
      ghost var intents1, batches1 := intents, batches;
      ended, nextFirst := DeliverIndex(index, plan[index], first, firstId, now, crashy);
      if ended.None? {
        OneFurther(plan, index, intents0, batches0, intents1, batches1, intents, batches);
      } else if ended.value.Permanent? {
        OneRewritten(plan, index, intents0, batches0, intents1, batches1);
      } else {
        StoppedHere(plan, index, intents0, batches0, intents1, batches1, intents);
      }
    }

    /** The loop over the batches of a plan that lost no announced index. */
    method DeliverAll(plan: seq<Batch>, first: Option<MessageId>, firstId0: Option<MessageId>,
                      now: int, crashy: bool)
      returns (ended: Option<Outcome>, firstId: Option<MessageId>)
      requires Valid() && now >= clock && done <= |plan| && Usable(first) && Known(first)
      requires if done == 0 then firstId0 == first else firstId0.Some?
      modifies this
      ensures Valid() && clock <= now && legacy == old(legacy) && deleted >= old(deleted) && done >= old(done)
      ensures named == old(named)
      ensures Grows(old(channel), channel) && Untouched(old(channel), channel, old(done))
      ensures forall i | i in old(batches) :: i in batches && batches[i] == old(batches)[i]
      ensures ended.None? ==>
        && done == |plan| && Underway(plan, |plan|, old(intents), old(batches), intents, batches)
        && firstId == (if firstId0.None? && plan != [] then Some(batches[0]) else firstId0)
        && (plan != [] && old(done) == 0 && first.Some? ==> batches[0] == first.value)
      ensures ended.Some? ==> !ended.value.Delivered?
      ensures ended == Some(Permanent) ==> Changed(plan, old(intents), old(batches))
      ensures ended == Some(Interrupted) ==> Stopped(plan, done, old(intents), intents)
      ensures !crashy && (old(done) == 0 && first.Some? ==> first.value !in old(deleted)) ==>
        ended != Some(Interrupted)
    {
      ghost var intents0, batches0, channel0, done0 := intents, batches, channel, done;
      ended, firstId := None, firstId0;
      var index := 0;
      while index < |plan|
        invariant 0 <= index <= |plan| && ended.None?
        invariant Valid() && clock <= now && legacy == old(legacy) && deleted >= old(deleted) && Usable(first)
        invariant named == old(named) && Known(first)
        invariant !crashy ==> deleted == old(deleted)
        invariant Grows(channel0, channel) && Untouched(channel0, channel, done0)
        invariant done == Max(index, done0) && Underway(plan, index, intents0, batches0, intents, batches)
        invariant firstId == if index > 0 && firstId0.None? then Some(batches[0]) else firstId0
        invariant done > 0 && done0 == 0 && first.Some? ==> batches[0] == first.value
      {
        ghost var channel1 := channel;
        ended, firstId := DeliverOnPlan(plan, index, first, firstId, now, crashy, intents0, batches0);
        StillUntouched(channel0, channel1, channel, done0);
        if ended.Some? { break; }
        index := index + 1;
      }
    }

    /** The caller may name the message of a first batch that is not recorded yet. */
    ghost method Name(first: Option<MessageId>)
      requires Valid()
      modifies `named
      ensures Valid() && named == (old(named) || (first.Some? && done == 0))
    {
      NamingKeeps(delivery, intents, batches, channel, deleted, legacy, named);
      named := named || (first.Some? && done == 0);
    }

    /** Which message the first batch should take over, and the identifier the
        delivery will report, as far as it is known before the loop. */
    method Begin(first: Option<MessageId>) returns (firstMessage: Option<MessageId>, firstId: Option<MessageId>)
      requires Valid() && Usable(first) && (first.Some? && done == 0 ==> named)
      ensures Usable(firstMessage) && Known(firstMessage)
      ensures first.Some? ==> firstMessage == first && firstId == first
      ensures first.None? && done > 0 ==> firstMessage.None? && firstId == Some(batches[0])
      ensures first.None? && done == 0 ==>
        firstId == firstMessage && (firstMessage.Some? ==> firstMessage.value !in deleted)
    {
      firstMessage := first;
      firstId := if checkpoint.Some? then Some(checkpoint.value.first) else None;
      if first.Some? {
        firstId := first;
      } else if firstId.None? {
        firstMessage := FamilyFirst();
        firstId := firstMessage;
      }
    }

    /** `_deliver_render_plan` for one delivery. `crashy` attempts may stop at
        any durable or remote operation, after or before it took effect, while
        others use the thread. An attempt that ends normally either rejects a
        plan that contradicts the durable rows or leaves every batch recorded
        and shown; one that meets no failure always ends that way. */
    method Deliver(plan: seq<Batch>, first: Option<MessageId>, finalized: bool, now: int, crashy: bool)
      returns (outcome: Outcome)
      requires Valid() && now >= clock && Usable(first)
      modifies this
      ensures Valid() && clock <= now && legacy == old(legacy) && deleted >= old(deleted) && done >= old(done)
      ensures named == (old(named) || (first.Some? && old(done) == 0))
      ensures Grows(old(channel), channel) && Untouched(old(channel), channel, old(done))
      ensures forall i | i in old(batches) :: i in batches && batches[i] == old(batches)[i]
      ensures outcome.Delivered? ==> !Changed(plan, old(intents), old(batches)) && Complete(plan)
      ensures outcome.Delivered? && plan != [] ==>
        && checkpoint.value.finalized == finalized
        && outcome.first == (if first.Some? then first.value else batches[0])
        && (first.Some? && old(done) == 0 ==> batches[0] == first.value)
      ensures outcome.Permanent? ==> Changed(plan, old(intents), old(batches)) || (plan == [] && first.None?)
      ensures !outcome.Permanent? ==> !Changed(plan, intents, batches)
      ensures outcome.Permanent? && Shrunk(plan, old(intents), old(batches)) ==> channel == old(channel)
      ensures !crashy && plan != [] && (old(done) == 0 && first.Some? ==> first.value !in old(deleted)) ==>
        !outcome.Interrupted?
    {
      Name(first);
      var firstMessage, firstId := Begin(first);
      outcome := DeliverFrom(plan, firstMessage, firstId, finalized, now, crashy);
    }

    /** The attempt once it is known which message the first batch takes over. */
    method DeliverFrom(plan: seq<Batch>, firstMessage: Option<MessageId>, firstId: Option<MessageId>,
                       finalized: bool, now: int, crashy: bool)
      returns (outcome: Outcome)
      requires Valid() && now >= clock && Usable(firstMessage) && Known(firstMessage)
      requires if done == 0 then firstId == firstMessage else firstId.Some?
      modifies this
      ensures Valid() && clock <= now && legacy == old(legacy) && deleted >= old(deleted) && done >= old(done)
      ensures named == old(named)
      ensures Grows(old(channel), channel) && Untouched(old(channel), channel, old(done))
      ensures forall i | i in old(batches) :: i in batches && batches[i] == old(batches)[i]
      ensures outcome.Delivered? ==> !Changed(plan, old(intents), old(batches)) && Complete(plan)
      ensures outcome.Delivered? && plan != [] ==>
        && checkpoint.value.finalized == finalized
        && outcome.first == (if firstId.Some? then firstId.value else batches[0])
        && (firstMessage.Some? && old(done) == 0 ==> batches[0] == firstMessage.value)
      ensures outcome.Permanent? ==> Changed(plan, old(intents), old(batches)) || (plan == [] && firstId.None?)
      ensures !outcome.Permanent? ==> !Changed(plan, intents, batches)
      ensures outcome.Permanent? && Shrunk(plan, old(intents), old(batches)) ==> channel == old(channel)
      ensures !crashy && plan != [] && (old(done) == 0 && firstMessage.Some? ==> firstMessage.value !in old(deleted)) ==>
        !outcome.Interrupted?
    {
      if exists i | i in intents.Keys + batches.Keys :: i >= |plan| {
        return Permanent;
      }
      ghost var intents0, batches0 := intents, batches;
      assert !Shrunk(plan, intents, batches);
      assert done <= |plan| by { assert |plan| !in batches; }
      var ended, shownFirst := DeliverAll(plan, firstMessage, firstId, now, crashy);
      if ended.Some? {
        if ended.value.Interrupted? { StoppedMeansUnchanged(plan, done, intents0, batches0, intents, batches); }
        outcome := ended.value;
      } else if shownFirst.None? {
        outcome := Permanent;
      } else {
        UnderwayMeansUnchanged(plan, intents0, batches0, intents, batches);
        if checkpoint.Some? {
          checkpoint := Some(checkpoint.value.(finalized := finalized));
        }
        outcome := Delivered(shownFirst.value);
      }
    }

    /** Any number of attempts at a plan, each interrupted anywhere. */
    method TryRepeatedly(plan: seq<Batch>, finalized: bool, attempts: nat, now: int)
      requires Valid() && now >= clock && !Changed(plan, intents, batches) && plan != []
      modifies this
      ensures Valid() && clock <= now && legacy == old(legacy) && named == old(named) && !Changed(plan, intents, batches)
      ensures Grows(old(channel), channel) && Untouched(old(channel), channel, old(done)) && done >= old(done)
    {
      ghost var channel0, done0 := channel, done;
      for k := 0 to attempts
        invariant Valid() && clock <= now && legacy == old(legacy) && named == old(named) && !Changed(plan, intents, batches)
        invariant Grows(channel0, channel) && Untouched(channel0, channel, done0) && done >= done0
      {
        ghost var before := channel;
        var attempt := Deliver(plan, None, finalized, now, true);
        StillUntouched(channel0, before, channel, done0);
      }
    }

    /** Any number of interrupted attempts at a plan, then one that meets no
        failure: every batch is recorded and shown, each in a message of its
        own, and of the undeleted messages at most one was sent for each. */
    method DeliverThroughCrashes(plan: seq<Batch>, finalized: bool, attempts: nat, now: int)
      returns (first: MessageId)
      requires Valid() && now >= clock && plan != [] && !Changed(plan, intents, batches)
      modifies this
      ensures Valid() && Complete(plan) && legacy == old(legacy) && named == old(named)
      ensures Grows(old(channel), channel) && Untouched(old(channel), channel, old(done))
      ensures first == batches[0] && checkpoint == Some(Checkpoint(first, |plan|, finalized))
      ensures Shown(plan) && OneEach()
    {
      TryRepeatedly(plan, finalized, attempts, now);
      ghost var before := channel;
      var outcome := Deliver(plan, None, finalized, now, false);
      StillUntouched(old(channel), before, channel, old(done));
      first := outcome.first;
      ShownInOwnMessages(plan);
    }

    /** Every batch of the plan is shown, in a message of its own. */
    ghost predicate Shown(plan: seq<Batch>)
      reads `batches, `channel, `legacy
    {
      && (forall i | 0 <= i < |plan| :: i in batches && batches[i] in channel)
      && (forall i | 0 <= i < |plan| && i !in legacy :: channel[batches[i]].content == plan[i])
      && (forall i, j | 0 <= i < j < |plan| :: batches[i] != batches[j])
    }

    /** No batch was sent a second time while its message was still there, and
        none is shown in a message other than the one it was sent in, but for the
        first when a caller named its message. */
    ghost predicate OneEach()
      reads `channel, `deleted, `batches, `named
    {
      && (forall m | m in channel && m !in deleted && Own(delivery, channel[m]) && Owner(channel[m]) in batches && (Owner(channel[m]) > 0 || !named) ::
            m == batches[Owner(channel[m])])
      && (forall m, n | m in channel && n in channel && m !in deleted && n !in deleted && Own(delivery, channel[m]) ::
            channel[m].nonce == channel[n].nonce ==> m == n)
    }

    lemma ShownInOwnMessages(plan: seq<Batch>)
      requires Valid() && Complete(plan)
      ensures Shown(plan) && OneEach()
    {
      forall i, j | 0 <= i < j < |plan| ensures batches[i] != batches[j] {
        BatchesDoNotShareMessages(delivery, intents, batches, channel, deleted, legacy, i, j, named);
      }
      forall m, n | m in channel && n in channel && m !in deleted && n !in deleted && Own(delivery, channel[m])
        ensures channel[m].nonce == channel[n].nonce ==> m == n
      {
        if channel[m].nonce == channel[n].nonce { OneMessagePerNonce(delivery, channel, deleted, m, n); }
      }
    }
  }

  /** When a caller names a different first message after the first batch was
      recorded, the delivery reports that message, not the one that shows the
      batch; `Deliver` reports the latter exactly when the two agree. */
  method NamedFirstMessageIsReported() returns (reported: MessageId, shown: MessageId)
    ensures reported != shown
  {
    var thread := new Delivery(0, map[], map[7 := Message(None, 5, "working"), 8 := Message(None, 6, "working")], 9);
    var one := thread.Deliver(["done"], Some(8), true, 10, false);
    assert one.Delivered?;
    shown := thread.batches[0];
    var two := thread.Deliver(["done"], Some(7), true, 11, false);
    assert two.Delivered?;
    reported := two.first;
  }
}
