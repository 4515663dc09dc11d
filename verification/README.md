# Verified model of copilotd

copilotd is a daemon that connects Discord threads to Copilot sessions and survives crashes,
restarts and takeovers. This project models the protocols that make it survive and proves what
they promise. `dafny verify dfyconfig.toml` checks everything.

| module | models |
|---|---|
| `Migration` | the journaled merge of an old state directory into a new one, interrupted at any file operation (`config.py`) |
| `HttpLimiter` | admission of HTTP requests: a rolling window, an invalid-response budget, buckets under eviction (`discord_http_limiter.py`) |
| `FrameFitting` | choosing which attachments go inline and which by reference (`core/attachments.py`) |
| `RenderDelivery` | sending a message of several batches, retried after crashes (`discord_app.py`) |
| `Splitting` | splitting text and files into what Discord accepts, and unique file names (`discord_app.py`) |
| `Coordinator` | the scheduler of logical operations with coalescing (`discord_requests.py`) |
| `Mailbox` | at-most-once execution of mutating operations (`core/mailbox.py`) |
| `Fencing` | generations and fences: bindings, liveness leases, pending interactions (`core/bindings.py`, `core/liveness.py`, `core/interactions.py`, `core/recovery.py`) |
| `Elicitation` | forms: schema, stored form and validated answer (`core/interactions.py`) |
| `Protocol` | pairing of protocol requests and completions, and claims on them (`core/protocol.py`) |
| `Inbox` | the bounded inbox and its ingress (`core/inbox.py`) |
| `Extensions`, `Generations` | the extension configuration's parser and printer, and its generations (`core/extensions.py`) |

Code that changes state is modelled by classes whose methods change fields. Where several actors
interleave, a datatype `State` with one function per atomic step states what each step does,
lemmas carry the invariants over every run, and the methods are proved equal to the steps. A
lock-held region, a stretch of asynchronous code without a wait, and a database transaction are
one step each. A crash may happen between any two file, database or Discord operations; a
commit or a send may take effect and still be reported as failed. Time is a number with a
monotone clock where the code reads one clock. Digests, nonces and name-based identifiers
(section 5.5 of RFC 9562) are modelled as injective.

What an outside party decides is a parameter or a nondeterministic choice: results of callbacks,
loss of fences, deletions by people, learned rate limits, times. The HTTP status 429 is that of
section 4 of RFC 6585.

## Findings

Properties one would expect of the code that do not hold, with their exact conditions:

- Closing the coordinator does not settle every caller: an operation that failed and is being
  logged (`discord_requests.py:381-390`) is cancelled inside its exception handler and its callers
  wait for ever. `CancelActive` states that these and no others are left, `CallerLeftWaiting` is a
  run.
- Operations on one target start in sequence order as long as no coalesced request moves its entry
  to a target on which a younger operation has been started (`StartsAreOrderly`); each such request
  breaks the order of what was started and what waits (`JoiningKeepsOrderIff`), and `OrderNeedsOneTargetPerKey` is a run with one. Exclusion
  and the rest between starts hold regardless.
- A submission that reaches a mailbox after it was stopped and passes admission is queued with no
  worker to answer it (`mailbox.py:486-535`); `LateCallerWaits` gives the exact condition,
  `OneCallerWaits` a run.
- Two responses to one interaction whose stored request is gone, or one and a timeout, may give one
  future a result twice, and the later call raises (`interactions.py:503-513` waits between its check
  and its result). `RaisesIffOvertaken` gives the exact condition, `TwoResponsesSetOneFuture` and
  `TimeoutSetsTheFutureFirst` are runs. All other completions check and set without waiting.
- Once the inbox's loop is closed, a handover from another thread gives its room back and then raises
  before the loss is recorded, because the wake-up goes through the closed loop too
  (`inbox.py:312-318`, `334-338`), and a reservation that fills the inbox keeps its room for good
  (`inbox.py:305-306`). `NothingIsLostSilently` shows that exactly these break its equations,
  `ClosedLoopLosesSilently` gives two runs, `OpenLoopLosesNothing` that neither happens before.
- An invalid response goes unrecorded exactly when no bucket can be made for it
  (`discord_http_limiter.py:275-314`), or its headers or, for a 429, its body do not convert
  (`discord_http_limiter.py:927-932` lets an overflow escape), or its body could not be read; the
  budget theorem speaks of recorded ones. `InvalidResponseUnrecorded` and `BodyUnrecorded` are runs.
- The order of a request's two events decides its final response state for the requests that SDK
  handlers answer; it is independent of the order exactly for those the application answers.
- A delivery reports its caller's first message even when batch 0 is recorded in another one;
  the two agree unless the caller names a different message after batch 0 was recorded.
- `orphan_previous_generations` also orphans the leases of a newer attachment when a controller of
  an older one calls it; `EarlierAttachmentOrphansTheCurrent` is a run.
- A form departs from its schema in four ways: an empty enumeration, which nothing could satisfy,
  restricts nothing, of values or of items; enumerations take 0 and 1 for truth values; and lists are
  capped at 25 items where the schema sets no bound. `AcceptsWhatIsMeant` shows that these are all.

One holds beyond what is promised: adding attachments one by one, without ever turning a reference
back into a blob, is as good as the one-shot choice (`IncrementalIsOptimal`).

## Model

| member | source | states |
|---|---|---|
| Migration.NothingIsLost | src/copilotd/config.py:472-635 | At every crash point every file and directory of both original trees is still in legacy, target or staging, at its path and with its content |
| Migration.DatabaseAlwaysExists | src/copilotd/config.py:561-640 | At every crash point a whole database exists: a source's until the hand-off is journaled, the finalized copy from then on |
| Migration.MigrateThroughCrashes | src/copilotd/config.py:366-671 | Any number of interrupted runs and one uninterrupted run end in exactly one of: nothing to do, refusal with nothing changed (iff the trees conflict), or the union in the target, staging gone, sources empty, journal at the last phase; a further run changes nothing |
| Migration.Disk.Adopt | src/copilotd/config.py:366-671 | One run, interrupted anywhere or not, keeps the reachable states; which outcome is returned is decided exactly by entries, compatibility, quiescer and crash; without a quiescer nothing is ever touched; a completed migration is left alone |
| Migration.Disk.CheckState | src/copilotd/config.py:472-512 | The run stops before touching anything exactly when there is nothing to migrate or the trees conflict |
| Migration.Disk.Work | src/copilotd/config.py:513-666 | From any reachable compatible state the run ends complete, or crashes in a reachable state |
| Migration.Disk.Prepare | src/copilotd/config.py:518-577 | Staging exists, an incomplete copy is gone and the journal says that entries may move; every crash in between is reachable |
| Migration.Disk.OpenMerge | src/copilotd/config.py:544-577 | The journal passes staged and, with a database to copy, database_staging, over a clean database area |
| Migration.Disk.RemoveIncomplete | src/copilotd/config.py:974-979 | Removes whatever an interrupted database staging left, file by file, and nothing else |
| Migration.Disk.MergeBoth | src/copilotd/config.py:578-607 | Both sources are merged: all files and a copy of the database are in staging |
| Migration.Disk.MergeTarget | src/copilotd/config.py:578-590 | The target's entries are merged first; conflicts cannot occur in a compatible migration |
| Migration.Disk.MergeLegacy | src/copilotd/config.py:591-607 | The legacy entries are merged second; afterwards everything is staged |
| Migration.Disk.FinishDatabase | src/copilotd/config.py:608-631 | The staged database is finalized between the journal phases database_finalizing and handoff_staged, whatever the crash point |
| Migration.Disk.RemoveSources | src/copilotd/config.py:632-637 | The sources' database files go only once staging holds the final state |
| Migration.Disk.Swap | src/copilotd/config.py:638-663 | Staging becomes the target between the journal phases swap_started and swapped_pending_install |
| Migration.Disk.CompleteAdoption | src/copilotd/config.py:44-53 | Removing the journal leaves a state in which a further run finds nothing to do |
| Migration.Directory.MergeEntry | src/copilotd/config.py:922-955 | Merging an entry and all below it, interrupted anywhere, only moves entries and drops one only when staging has its equal; uninterrupted, nothing of it is left in the source; it raises iff the trees differ under it |
| Migration.Directory.MergeChildren | src/copilotd/config.py:938-949 | The recursion over the entries of a directory both trees have |
| Migration.Directory.MergeAll | src/copilotd/config.py:584-607 | All root entries, in any order: ordinary ones are merged, database files are deferred and the main one is copied unless staging is authoritative |
| Migration.Directory.StageDatabase | src/copilotd/config.py:28-36 | The contract of the guard: an exact copy in staging, or after a crash at worst a partial one |
| Migration.CollectConflicts | src/copilotd/config.py:895-919 | Adds conflicts exactly when the two trees differ somewhere under the entry |
| Migration.AssertMergeCompatible | src/copilotd/config.py:877-892 | Succeeds iff all entries agree, and the databases too unless they are ignored |
| Migration.MergeKeeps | src/copilotd/config.py:578-607 | A merge step keeps the invariant of its journal phase |
| Migration.FinalizeKeeps | src/copilotd/config.py:608-631 | Announcing, finalizing and handing off the copied database keeps the invariant |
| Migration.SourcesAgree | src/copilotd/config.py:482-512 | While entries move, both sources agree with staging wherever both have an entry, so no merge meets a conflict |
| Migration.StagingAgrees | src/copilotd/config.py:494-505 | In every reachable state with staging the legacy tree agrees with it, so a resumed run is never refused |
| HttpLimiter.Limiter.RecentInvalidWithinBudget | src/copilotd/discord_http_limiter.py:534-540 | In every reachable state the recorded invalid responses within the window, requests in flight and unread 429 bodies stay within the invalid limit, although the deque may be unsorted |
| HttpLimiter.AdmitKeepsSpacing | src/copilotd/discord_http_limiter.py:529-532 | Admitting when fewer than the limit are in the deque keeps any limit+1 consecutive admissions at least a window apart |
| HttpLimiter.RecentInTail | src/copilotd/discord_http_limiter.py:462-468 | What is younger than the window is still in the deque, whatever older times cleanup was called with |
| HttpLimiter.Limiter.OnRequestStart | src/copilotd/discord_http_limiter.py:175-257 | One pass of admission: admitted iff no wait is left, that of the bucket's pacing and cooldown included; else the delay is the least finite wait; the state it leaves; protected buckets stay; both windows and all counters kept |
| HttpLimiter.Limiter.Decide | src/copilotd/discord_http_limiter.py:202-257 | The waits are computed on the cleaned deques, admission happens iff all are over, and the delay is the least that is finite |
| HttpLimiter.Limiter.ShortestIsLeast | src/copilotd/discord_http_limiter.py:239-251 | The delay chosen among the waits is the least finite one that is not over, or none |
| HttpLimiter.Limiter.WaitsForTheWindow | src/copilotd/discord_http_limiter.py:529-540 | The waits for the two windows end exactly when an entry has left its deque |
| HttpLimiter.Limiter.Admit | src/copilotd/discord_http_limiter.py:221-241 | An admission counts in flight globally and in its bucket, starts the bucket's next interval and is logged unless exempt |
| HttpLimiter.Limiter.Cleanup | src/copilotd/discord_http_limiter.py:462-519 | Both deques drop exactly their old prefix; only idle buckets go, the stale ones and then the oldest surplus ones |
| HttpLimiter.Limiter.EvictSurplus | src/copilotd/discord_http_limiter.py:503-519 | Surplus buckets go oldest first, never a protected one, until the bound holds or only protected ones are left |
| HttpLimiter.Limiter.BucketFor | src/copilotd/discord_http_limiter.py:568-600 | A route gets its bucket, or a new one in the place of the oldest unprotected one; it fails iff the hard limit is reached and all are protected, and then changes nothing |
| HttpLimiter.Limiter.MakeRoom | src/copilotd/discord_http_limiter.py:585-600 | Room is made by evicting the oldest unprotected bucket, or refused iff there is none |
| HttpLimiter.Limiter.OnRequestEnd | src/copilotd/discord_http_limiter.py:259-321 | A response releases its reservation once; it is recorded iff it is invalid, its headers convert and a bucket could be made for it; a 429 stays pending until its body is read and cools down the whole limiter or its bucket until the time its headers say, exactly; the budget is kept |
| HttpLimiter.Limiter.OnBodyRead | src/copilotd/discord_http_limiter.py:323-392 | A 429 is resolved once: it is recorded iff it was not before, is not shared, its body was read and converts, and a bucket could be made; then it cools down the limiter or its bucket until the time the body says, exactly; the pending count falls by one whatever happens |
| HttpLimiter.Limiter.Traffic | src/copilotd/discord_http_limiter.py:175-419 | Whatever starts, responses, bodies and failures follow, cooldowns only grow, and nothing is admitted before they end |
| HttpLimiter.Limiter.HeadersHoldTrafficBack | src/copilotd/discord_http_limiter.py:285-304 | The same for what the headers of a 429 say |
| HttpLimiter.Limiter.BodyHoldsTrafficBack | src/copilotd/discord_http_limiter.py:343-376 | After the body of a 429 and any traffic whatever: no request that is not exempt was admitted before the time the body says if it was global, and none to its bucket otherwise |
| HttpLimiter.Limiter.OnRequestException | src/copilotd/discord_http_limiter.py:394-419 | The reservation is given back once, nothing is recorded |
| HttpLimiter.Limiter.Release | src/copilotd/discord_http_limiter.py:674-692 | The first release lowers both counters by one, neither is ever clamped at zero; further ones change nothing |
| HttpLimiter.Limiter.ResponseBucket | src/copilotd/discord_http_limiter.py:602-672 | The response's bucket exists afterwards, with its counters untouched and its cooldown never shortened by what the headers taught |
| HttpLimiter.Limiter.ApplyCooldown | src/copilotd/discord_http_limiter.py:694-709 | The cooldown becomes the later of the old and the new time, globally or for one bucket, and nothing else changes |
| HttpLimiter.Limiter.Close | src/copilotd/discord_http_limiter.py:168-173 | Marks the limiter closed and changes nothing else |
| HttpLimiter.AdmitCounts | src/copilotd/discord_http_limiter.py:225-236 | Global and bucket counters stay equal to the number of unreleased contexts when one is admitted |
| HttpLimiter.ReleaseCounts | src/copilotd/discord_http_limiter.py:674-692 | They stay equal when one is released, and its bucket's counter was positive |
| HttpLimiter.EvictionKeepsCount | src/copilotd/discord_http_limiter.py:470-519 | They stay equal when unprotected buckets go |
| HttpLimiter.TimeLog.DropBefore | src/copilotd/discord_http_limiter.py:462-468 | Cleaning drops from the front only and never loses a younger time |
| HttpLimiter.Oldest | src/copilotd/discord_http_limiter.py:503-519 | The bucket seen least recently |
| HttpLimiter.InvalidResponseUnrecorded | src/copilotd/discord_http_limiter.py:275-314 | A concrete run in which a 401 goes unrecorded because its bucket lookup fails |
| HttpLimiter.BodyUnrecorded | src/copilotd/discord_http_limiter.py:323-392 | A concrete run in which a 429 goes unrecorded although there is room for its bucket: its body does not convert (lines 927-932) |
| FrameFitting.SendIsOptimal | src/copilotd/core/attachments.py:517-567 | The greedy loop returns a fit iff some choice of blobs and files fits, and turns the fewest blobs into references of any that fits |
| FrameFitting.IncrementalIsOptimal | src/copilotd/core/attachments.py:486-515 | The prefix-by-prefix variant raises its frame error iff no choice fits, and is minimal too |
| FrameFitting.FrameStrictlyIncreasing | src/copilotd/core/attachments.py:1108-1146 | The framed size grows strictly with the bytes of the list, through every change of the length header |
| FrameFitting.SizeIsLength | src/copilotd/core/attachments.py:1108-1146 | What the loops measure is the length of the list of serialized forms, or of the whole frame with its header |
| FrameFitting.Exchange | src/copilotd/core/attachments.py:1029-1056 | One greedy pick can be exchanged into any fitting rival at no cost |
| FrameFitting.GreedyAgainst | src/copilotd/core/attachments.py:1029-1056 | The loop ends in a fit whenever an extension of its start fits, and is never worse than it |
| FrameFitting.CompareSavings | src/copilotd/core/attachments.py:1037-1051 | Measuring savings on whole frames picks the same item as comparing the items' own savings |
| FrameFitting.DowngradeBlobsBySavings | src/copilotd/core/attachments.py:1029-1056 | The loop returns the greedy choice and its size, and terminates |
| FrameFitting.SdkAttachments | src/copilotd/core/attachments.py:486-515 | The loop over prefixes returns a legal choice that fits with the fewest references, or raises iff none fits |
| FrameFitting.SdkAttachmentsForSend | src/copilotd/core/attachments.py:517-567 | The one-shot loop returns a legal choice whose frame fits with the fewest references, or raises iff none fits |
| RenderDelivery.Delivery.DeliverThroughCrashes | src/copilotd/discord_app.py:1439-1794 | Any number of attempts interrupted anywhere, then one that is not: every batch is recorded and shown, each in a message of its own; of undeleted messages at most one was sent for each batch and it is the one that shows it, for the first too unless a caller ever named its message; the first message is that of batch 0 |
| RenderDelivery.Delivery.Deliver | src/copilotd/discord_app.py:1439-1794 | One attempt, interrupted anywhere or not, keeps the rows and the thread consistent and touches no recorded batch; it ends normally iff the plan does not contradict the durable rows; it reports the caller's first message or else that of batch 0 |
| RenderDelivery.Delivery.DeliverAll | src/copilotd/discord_app.py:1522-1776 | The loop: batches are recorded in index order, and an attempt stops in a state from which the same plan still goes on |
| RenderDelivery.Delivery.DeliverNext | src/copilotd/discord_app.py:1583-1776 | The next batch is announced, shown and recorded in this order; a crash in between leaves nothing a retry cannot find; an attempt that meets no failure shows it in the message it recovers, and in a new one iff there is none |
| RenderDelivery.Delivery.Recheck | src/copilotd/discord_app.py:1523-1582 | A recorded batch passes iff it is the one announced; a row from before intents existed is adopted |
| RenderDelivery.Delivery.Announce | src/copilotd/discord_app.py:1583-1653 | The intent with its nonce is durable before anything is sent; the payload of an unsent intent may be replaced |
| RenderDelivery.Delivery.FindRecovery | src/copilotd/discord_app.py:1671-1706 | The caller's message for the first batch; else the newest the delivery itself sent for the batch; else the one the family still shows; when it finds none, no undeleted message carries the batch's nonce |
| RenderDelivery.Delivery.FindInFamily | src/copilotd/discord_app.py:1683-1706 | The message of the latest row of an earlier delivery of the family that still shows one, by its identifier or by its nonce |
| RenderDelivery.Delivery.Show | src/copilotd/discord_app.py:1708-1765 | Edits the recovered message or sends a new one with the nonce; messages of earlier batches stay untouched; failure may come before or after the effect |
| RenderDelivery.Delivery.Edit | src/copilotd/discord_app.py:1708-1735 | Editing changes what one message shows and nothing else |
| RenderDelivery.Delivery.Send | src/copilotd/discord_app.py:1736-1765 | A sent message carries the batch's nonce and is the only undeleted one that does |
| RenderDelivery.Delivery.Record | src/copilotd/discord_app.py:1796-1876 | One transaction marks the intent sent, records the batch and moves the checkpoint, whose first message never changes |
| RenderDelivery.Delivery.FindMessageByNonce | src/copilotd/discord_app.py:1878-1912 | The newest undeleted message with the nonce among those later than a second before the intent; none only if there is none |
| RenderDelivery.Delivery.FamilyFirst | src/copilotd/discord_app.py:1464-1489 | The message an earlier delivery of the family shows first, if it still exists |
| RenderDelivery.Delivery.Begin | src/copilotd/discord_app.py:1455-1489 | The first message is the caller's, else the checkpoint's, else the family's |
| RenderDelivery.OneMessagePerNonce | src/copilotd/discord_app.py:1708-1765 | Of two undeleted messages at most one carries a given nonce of the delivery |
| RenderDelivery.BatchesDoNotShareMessages | src/copilotd/discord_app.py:1796-1876 | No message shows two batches |
| RenderDelivery.SendKeeps | src/copilotd/discord_app.py:1736-1765 | Sending the announced batch when no undeleted message shows it keeps messages in index order |
| RenderDelivery.NamedFirstMessageIsReported | src/copilotd/discord_app.py:1455-1463 | A concrete run in which the reported message is not that of batch 0: a caller names another one after batch 0 was recorded |
| Splitting.StreamContentBatches | src/copilotd/discord_app.py:5415-5432 | Batches concatenate to the input, each at most 1851 characters; every cut is after the last separator in its window, or at 1850 when there is none |
| Splitting.PrepareAssets | src/copilotd/discord_app.py:5574-5607 | Each file becomes itself, nothing (an oversized image) or its parts, in order; the counts are those of oversized files, oversized images and parts |
| Splitting.SplitAsset | src/copilotd/discord_app.py:5593-5607 | Parts rejoin to the file, none is empty or larger than allowed, all but the last are as large as allowed, names carry index and count |
| Splitting.PartNamesDiffer | src/copilotd/discord_app.py:5598-5604 | Parts of one file have different names |
| Splitting.PartNameCarries | src/copilotd/discord_app.py:5598-5604 | A part's name carries the stem, its index, the count and the extension |
| Splitting.StemAndSuffix | src/copilotd/discord_app.py:5595-5597 | Stem and suffix make up the name; a suffix starts at the last dot, which is neither the first nor the last character |
| Splitting.PreparedKeepsContent | src/copilotd/discord_app.py:5586-5607 | Content survives iff the file is not an oversized image, and every piece fits |
| Splitting.Annotated | src/copilotd/discord_app.py:5619-5625 | A note is appended whole and the content shortened to make room for it |
| Splitting.AnnotatedKeepsMost | src/copilotd/discord_app.py:5619-5625 | The content is kept whole when it fits with the note, and else as far as fills 1850 characters with an ellipsis and the note |
| Splitting.AnnotatedFits | src/copilotd/discord_app.py:5608-5625 | What is sent fits 1850 characters iff, without a note, the content does, and with one, the note leaves room for a character (or for none and there is no content) |
| Splitting.NoteLength | src/copilotd/discord_app.py:5608-5620 | The exact length of the note that the code builds from its three counts |
| Splitting.NoteSays | src/copilotd/discord_app.py:5608-5620 | Which count stands where in the note, and when which half of it is there |
| Splitting.DigitsBelow | src/copilotd/discord_app.py:5610-5618 | A count has at most k digits iff it is below the k-th power of ten |
| Splitting.PrepareMessage | src/copilotd/discord_app.py:5574-5626 | The whole function: the files as above, and the text annotated with the note for exactly these counts; with counts of at most 500 digits it fits 1850 characters iff the content did or something was split or omitted |
| Splitting.AppendAssets | src/copilotd/discord_app.py:5714-5734 | No file is lost or reordered: the first batch is filled to ten, the rest follows ten at a time |
| Splitting.UniqueAssets | src/copilotd/discord_app.py:5316-5342 | The loop ends with names distinct after case folding, contents and order kept; each file gets the first free candidate, and nothing is renamed iff names were distinct |
| Splitting.FreeName | src/copilotd/discord_app.py:5326-5333 | The renaming loop terminates and finds the first candidate whose folded form is unused |
| Splitting.CandidatesDiffer | src/copilotd/discord_app.py:5329-5333 | Numbered candidates of a name are distinct even after case folding |
| Splitting.StillFinite | src/copilotd/discord_app.py:5327-5333 | As many candidates in use as rounds tried: the pigeonhole bound on the loop |
| Coordinator.StartsAreOrderly | src/copilotd/discord_requests.py:259-355 | In every run: at most one active operation per target and no more than allowed; every entry starts at most once, before its deadline, after its target's rest, with the request its submissions call for; in sequence order per target as long as no coalesced request moves its entry to a target on which a younger operation was started |
| Coordinator.JoiningKeepsOrderIff | src/copilotd/discord_requests.py:149-158 | A coalesced request keeps the order of starts iff every operation started on the target it leaves its entry with is older than the entry; one for the entry's own target always does |
| Coordinator.KeysAreShared | src/copilotd/discord_requests.py:236-247 | In every run at most one entry that is still wanted waits under a key |
| Coordinator.WaitsInOneEntry | src/copilotd/discord_requests.py:141-171 | A caller belongs to one entry only; while the coordinator is open, one that waits is in it, queued or active but not both |
| Coordinator.StepSettlesOnce | src/copilotd/discord_requests.py:357-416 | No step settles a caller twice |
| Coordinator.ChosenStepwise | src/copilotd/discord_requests.py:149-158 | Replacing all but a terminal request by a non-terminal one keeps the last terminal request, or the last one |
| Coordinator.StepSound | src/copilotd/discord_requests.py:141-416 | Every step of callers, of the worker, which starts the least ready head only, of operations and of close keeps the invariants |
| Coordinator.Coordinator.Execute | src/copilotd/discord_requests.py:141-171 | A request joins the first wanted entry under its key or, when there is none, is queued; it is refused iff closing or full, with the error its priority and key call for, and then changes nothing |
| Coordinator.Coordinator.CoalescibleEntry | src/copilotd/discord_requests.py:236-247 | The first queued entry under the key that somebody still waits for |
| Coordinator.Coordinator.Cancel | src/copilotd/discord_requests.py:166-171 | A caller that gives up is cancelled, a settled one is not touched |
| Coordinator.Coordinator.Prune | src/copilotd/discord_requests.py:266-270 | Exactly the entries nobody waits for go |
| Coordinator.Coordinator.Select | src/copilotd/discord_requests.py:319-337 | The least ready head by priority and sequence, or the shortest wait of a head, or none |
| Coordinator.LeastReadyMeans | src/copilotd/discord_requests.py:319-337 | The head that starts has the smallest priority, and among equals the smallest sequence, of the heads whose target is free and rested |
| Coordinator.ShortestWaitMeans | src/copilotd/discord_requests.py:319-345 | The worker's delay ends exactly when the first head has rested |
| Coordinator.Coordinator.WorkerTurn | src/copilotd/discord_requests.py:259-317 | One round: idle, a missed deadline, or the start of the least ready head, each exactly when due |
| Coordinator.Coordinator.Dispatch | src/copilotd/discord_requests.py:293-317 | A ready head is started iff its deadline has not come, else exactly its waiting callers hear that it was missed; the whole new state |
| Coordinator.Coordinator.CallbackEnded | src/copilotd/discord_requests.py:357-411 | Exactly the callers that still wait get the result, or backpressure from the limiter |
| Coordinator.Coordinator.CallbackRaised | src/copilotd/discord_requests.py:378-390 | A failed operation logs before its callers hear of it |
| Coordinator.Coordinator.FailureLogged | src/copilotd/discord_requests.py:388-390 | Then exactly those that still wait get the error |
| Coordinator.Coordinator.Release | src/copilotd/discord_requests.py:346-355 | A settled operation frees its target, and only that |
| Coordinator.Coordinator.CloseQueue | src/copilotd/discord_requests.py:173-182 | Closing fails exactly the callers in the queue and empties it |
| Coordinator.Coordinator.CancelActive | src/copilotd/discord_requests.py:183-194 | After closing a caller waits iff its operation was logging a failure when it was cancelled; all others are settled |
| Coordinator.CallerLeftWaiting | src/copilotd/discord_requests.py:378-390 | A concrete run in which closing leaves a caller waiting for ever |
| Coordinator.OrderNeedsOneTargetPerKey | src/copilotd/discord_requests.py:149-158 | A concrete run, by the worker's own choices, in which a coalesced request with another target makes two operations on a target start against their order |
| Coordinator.BeginSound | src/copilotd/discord_requests.py:310-317 | Starting a ready head keeps exclusion, order, rest and the place of every caller |
| Coordinator.JoinSound | src/copilotd/discord_requests.py:149-158 | Coalescing keeps them |
| Mailbox.CalledAtMostOnce | src/copilotd/core/mailbox.py:302-716 | In every run of processes, callers, crashes and takeovers: a key is called at most once, in submission order, after its row durably started; confirmed means it ran and the fence was valid afterwards; a fence-loss or emergency deferral means it never ran; a result is heard only when durable |
| Mailbox.CallsOnlyStarted | src/copilotd/core/mailbox.py:586-608 | While the mailbox owns the session it calls an operation only when the row says started |
| Mailbox.RunPersists | src/copilotd/core/mailbox.py:136-203 | In every run the identity of a row persists, confirmed and rejected rows never change, and unknown ones only by a deferral after a takeover |
| Mailbox.StepSound | src/copilotd/core/mailbox.py:302-716 | Every step of the worker, callers, shutdown, other processes and recovery keeps the invariants |
| Mailbox.Process.Execute | src/copilotd/core/mailbox.py:548-666 | One round of the worker, with arbitrary interference at every wait, is a run of the state machine that leaves the worker idle; the caller hears of a result iff the call returned, the fence was valid afterwards and the row was durably confirmed under the binding, and likewise for each other reply; with acknowledged commits and no takeover, rebinding or recovery, reply, row and code are those the call or the lost fence calls for |
| Mailbox.RoundTells | src/copilotd/core/mailbox.py:548-716 | In every round each reply is heard iff a step of the run called for it: an acknowledged commit that found the row started under the binding, a deferral that found the row deferrable, or neither |
| Mailbox.CalmRound | src/copilotd/core/mailbox.py:568-666 | In a round without takeover, rebinding or recovery and with acknowledged commits: a returned call ends confirmed with its result, a rejection rejected, a deferral deferred, another failure unknown; a fence lost before the call means it is not called and deferred if it may be |
| Mailbox.Process.EmergencyStop | src/copilotd/core/mailbox.py:419-470 | Emergency shutdown, with arbitrary interference while it waits, is a run that ends with no worker, nothing queued and nobody waiting |
| Mailbox.StopAnswersEverybody | src/copilotd/core/mailbox.py:463-470 | A stop tells everybody who still waits that the outcome is unknown, and nobody else anything |
| Mailbox.LateCallerWaits | src/copilotd/core/mailbox.py:486-535 | A submission to a stopped mailbox leaves its caller waiting in every continuation without another stop, crash or new mailbox iff it passes admission, the binding still names the attachment, the key is new and the row is known to be durable |
| Mailbox.OneCallerWaits | src/copilotd/core/mailbox.py:486-535 | A concrete run in which that happens |
| Mailbox.Process.Submit | src/copilotd/core/mailbox.py:472-542 | A known or shared key is never queued again; a new one gets a durable pending row before it is queued |
| Mailbox.Process.TransitionRow | src/copilotd/core/mailbox.py:136-203 | A transition takes effect iff the binding still names the attachment and the row is in the expected state, and may fail even then |
| Mailbox.Process.Defer | src/copilotd/core/mailbox.py:269-299 | A deferral settles a pending, started or taken-over row and tells the caller which it was |
| Mailbox.Process.CheckBeforeStart | src/copilotd/core/mailbox.py:568-586 | A lost fence before the start defers or fails the operation |
| Mailbox.Process.MarkStarted | src/copilotd/core/mailbox.py:586-587 | The row must durably reach started before anything else |
| Mailbox.Process.CheckBeforeDispatch | src/copilotd/core/mailbox.py:587-602 | A lost fence before the call defers or fails the operation |
| Mailbox.Process.CheckAfterwards | src/copilotd/core/mailbox.py:637-646 | A result counts only if the fence is valid after the call |
| Mailbox.Process.Conclude | src/copilotd/core/mailbox.py:619-665 | The settled state is durable before the caller hears of it, else the outcome is ambiguous |
| Mailbox.Process.FinishAmbiguous | src/copilotd/core/mailbox.py:696-716 | The caller always hears, whether or not the row could be settled |
| Mailbox.SubmitSound | src/copilotd/core/mailbox.py:472-535 | Admission keeps submission order and gives each key one row |
| Mailbox.DispatchSound | src/copilotd/core/mailbox.py:602-604 | A call comes after all earlier ones and happens to a key that was never called |
| Mailbox.TakeOverSound | src/copilotd/storage/leases.py:124-136 | A takeover settles the unsettled rows of earlier owners as unknown |
| Mailbox.RecoverSound | src/copilotd/core/recovery.py:221-236 | Startup recovery settles unsettled rows without a live owner as unknown |
| Fencing.GenerationsRise | src/copilotd/core/bindings.py:344-622 | In every run the generation never falls, and the fence changes only with it |
| Fencing.BeginClearsTheOld | src/copilotd/core/bindings.py:344-492 | A begun attachment raises the generation by one and leaves no active lease and no pending interaction |
| Fencing.ReattachClearsTheOld | src/copilotd/core/bindings.py:495-626 | So does a reattachment, which keeps the fence |
| Fencing.StaleActorsAreFencedOut | src/copilotd/core/bindings.py:858-898 | After a later attachment began, transitions, closes, requests and settlements of an earlier one change nothing, for ever |
| Fencing.RaisesIffOvertaken | src/copilotd/core/interactions.py:503-513 | In every run a response without a stored request raises iff somebody else completes its future between its check that it is open and its own result |
| Fencing.TwoResponsesSetOneFuture | src/copilotd/core/interactions.py:503-513 | A concrete run in which two responses find one future open and the second to set it raises |
| Fencing.TimeoutSetsTheFutureFirst | src/copilotd/core/interactions.py:503-513 | A concrete run in which one response raises because a timeout completes the future while it looks up what to answer |
| Fencing.CurrentActorsAreNot | src/copilotd/core/bindings.py:858-898 | While none began, a transition goes through iff the state is an expected one |
| Fencing.SettledForGood | src/copilotd/core/interactions.py:551-688 | In every run an interaction leaves pending once and for all, and claims are never lost |
| Fencing.WinnerIsCurrent | src/copilotd/core/interactions.py:585-632 | A settlement wins only under the current generation and fence and, if it resolves, before expiry; afterwards nobody else can win |
| Fencing.RunSound | src/copilotd/core/liveness.py:71-134 | In every run at most one active lease exists per kind and source, at most one settlement claims an interaction, pending ones belong to the current attachment, and a resolved one was claimed before it expired |
| Fencing.StepSound | src/copilotd/core/bindings.py:344-898 | Every transaction and every step in the gateway keeps that |
| Fencing.OrphaningSparesTheCallerOnly | src/copilotd/core/liveness.py:47-69 | Orphaning spares the current attachment's leases iff that attachment calls it or has none |
| Fencing.EarlierAttachmentOrphansTheCurrent | src/copilotd/core/liveness.py:47-69 | A concrete run in which a worker of the first attachment orphans the lease of the second |
| Fencing.AcquireSound | src/copilotd/core/liveness.py:71-134 | Acquiring never makes a second active lease for a source |
| Fencing.RecoverSound | src/copilotd/core/recovery.py:155-173 | Startup recovery takes interactions out of pending without a claim and releases their leases |
| Fencing.RecoveryClears | src/copilotd/core/recovery.py:155-173 | Startup recovery leaves nothing active and nothing pending, and moves exactly the named interactions to content unavailable |
| Fencing.LoseContentSound | src/copilotd/core/interactions.py:484-502 | The first statement, which takes an interaction without content out of pending, keeps the invariants although its lease is released by a second one |
| Fencing.Session.BeginAttachment | src/copilotd/core/bindings.py:344-492 | Succeeds iff owner, admission, intent and state allow it, and else leaves all rows alone |
| Fencing.Session.BeginReattach | src/copilotd/core/bindings.py:495-626 | Succeeds iff the same owner is attached and active, and else leaves all rows alone |
| Fencing.Session.TransitionAttachment | src/copilotd/core/bindings.py:858-898 | Succeeds iff generation, fence and state are as expected, and else leaves the row alone |
| Fencing.Session.Close | src/copilotd/core/bindings.py:770-802 | Succeeds iff the attachment the caller saw is still attached |
| Fencing.Session.Activate | src/copilotd/core/bindings.py:823-856 | Succeeds iff admitted and closed, and then only the intent and the row's version change |
| Fencing.Session.AcquireLease | src/copilotd/core/liveness.py:71-134 | Succeeds iff every active lease of the source is the caller's own; then there is one, and no other lease changes |
| Fencing.Session.ReleaseLease | src/copilotd/core/liveness.py:170-197 | Releases a lease iff it is active and of the attachment it was acquired for |
| Fencing.Session.ClaimInteraction | src/copilotd/core/interactions.py:574-632 | Claims iff pending, of the gateway's attachment and, to resolve, not expired; then the row moves and its lease is released, and else nothing changes |
| Fencing.Session.SettleInteraction | src/copilotd/core/interactions.py:551-688 | Wins iff it may claim at the moment of its transaction, whatever others do before and after; it then owns a claim that nobody can take; the future has a result at the end, and one that is there is not set again |
| Fencing.Session.Respond | src/copilotd/core/interactions.py:343-480 | Accepted iff the call's own settlement claims the interaction at its step of the run, which it tries iff the row it read, the future, the stored request and the answer all allow it; with nobody before it a fitting answer is accepted; invalid iff the interaction is unknown or the open, present request does not fit the answer; it raises iff its future was completed between its check and its own result |
| Fencing.Session.ExpireContent | src/copilotd/core/interactions.py:482-522 | Whoever waits for an interaction without content is answered, and it has left pending; others act between any two of its five steps, and then it may raise |
| Fencing.Session.CancelPending | src/copilotd/core/interactions.py:524-549 | Everything that was pending for the attachment when it looked has left pending at the end |
| Fencing.Session.Complete | src/copilotd/core/interactions.py:673-676 | A settlement gives a future its result unless it has one |
| Elicitation.AnswersFitTheSchema | src/copilotd/core/interactions.py:127-143 | Parsing a schema, storing the form, reading it back and validating an answer accepts exactly the answers that fit the schema as the code reads it, and returns them unchanged |
| Elicitation.FieldMeansProperty | src/copilotd/core/interactions.py:848-884 | Validating a value against a parsed field accepts exactly what the property of the schema allows as the code reads it |
| Elicitation.FormRoundTrip | src/copilotd/core/interactions.py:68-125 | A stored form is read back unchanged |
| Elicitation.DefaultsAreAccepted | src/copilotd/core/interactions.py:775-845 | A parsed field accepts its own default, and storing does not change it |
| Elicitation.ParsedForm | src/copilotd/core/interactions.py:742-773 | A parsed form has exactly the properties of the schema as fields, each parsed as required or not |
| Elicitation.ParsesExactlyWhen | src/copilotd/core/interactions.py:775-845 | A property parses iff type, enumeration, items and bounds are well formed and it allows its own default |
| Elicitation.SchemaParsesExactlyWhen | src/copilotd/core/interactions.py:742-773 | A schema parses iff it is an object of at most 25 properties with names of 1 to 100 characters, all of which parse, names only its own as required, and allows no others |
| Elicitation.RequiredFields | src/copilotd/core/interactions.py:742-773 | A parsed field is required iff the schema names it so |
| Elicitation.ParsedLabels | src/copilotd/core/interactions.py:818-845 | Name, title, description and default of a parsed field are those of its property; a missing title is the name |
| Elicitation.AcceptsWhatIsMeant | src/copilotd/core/interactions.py:775-884 | A parsed field accepts, for every value, exactly what its property strictly means iff the property does not depart: by an empty enumeration, one that takes 0 and 1 for truth values, the cap of 25 items, or an empty enumeration of items |
| Elicitation.AnswersAreMeant | src/copilotd/core/interactions.py:127-143 | When no property departs, the whole way from schema to validated answer accepts exactly the answers the schema means |
| Elicitation.EmptyEnumerationAcceptsAnything | src/copilotd/core/interactions.py:742-884 | A concrete schema and answer: under an empty enumeration any text is accepted though nothing is meant |
| Elicitation.OneAcceptsTrue | src/copilotd/core/interactions.py:742-884 | A concrete schema and answer: an enumeration of the number 1 accepts true |
| Elicitation.LongListsAreRejected | src/copilotd/core/interactions.py:742-884 | A concrete schema and answer: without a bound of its own, 26 items are meant but rejected |
| Protocol.WireIsOrderFree | src/copilotd/core/protocol.py:268-438 | Types, event identifiers, hashes and wire state depend only on which events were seen, not on order, repetition or any claim, settlement or recovery in between |
| Protocol.SameEventsSameWire | src/copilotd/core/protocol.py:268-438 | Two runs that saw the same events agree on all of these |
| Protocol.ResponseIsOrderFreeForAppRpcOnly | src/copilotd/core/protocol.py:300-437 | Once both events were seen the response state is independent of their order iff the application answers the request itself |
| Protocol.ResponseOfEvents | src/copilotd/core/protocol.py:300-437 | The response state that any sequence of events alone leads to |
| Protocol.ClaimedAtMostOnce | src/copilotd/core/protocol.py:67-162 | In every run a request is claimed at most once, and only while its request was seen and its completion was not |
| Protocol.PlaneIsThatOfTheKind | src/copilotd/core/protocol.py:268-300 | Once the request was seen, who answers it is decided by its kind, whichever event came first |
| Protocol.ClaimableExactlyWhen | src/copilotd/core/protocol.py:108-134 | In every run a request can be claimed iff its kind is one the application answers, it was seen, its completion was not, and no claim, refusal or loss of content came after it was seen |
| Protocol.NoClaimAfterCompletion | src/copilotd/core/protocol.py:108-134 | Once the completion was seen, nothing adds a claim |
| Protocol.AnswerUnderWayIsKept | src/copilotd/core/protocol.py:164-211 | An answer under way is not overridden by events: the row ends as the application reports |
| Protocol.SettledForGood | src/copilotd/core/protocol.py:175-187 | An attempt is settled at most once |
| Protocol.RecoveryWrites | src/copilotd/core/recovery.py:155-236 | What startup recovery writes to rows and attempts |
| Protocol.CompletionSettles | src/copilotd/core/protocol.py:300-437 | The second event completes a row that nobody has begun to answer and leaves any other as it is |
| Protocol.LateSettlementIsKeptOut | src/copilotd/core/protocol.py:175-211 | A settlement changes its row only while that waits for it |
| Protocol.Repository.ApplyEvent | src/copilotd/core/protocol.py:268-438 | An event changes its own request's row as the state machine says, and no other |
| Protocol.Repository.TryClaim | src/copilotd/core/protocol.py:67-162 | Claims iff claimable, and then marks the row and makes the attempt |
| Protocol.Repository.SettleAttempt | src/copilotd/core/protocol.py:164-211 | Settles a started attempt and, if it still responds, its row; any other outcome than the four final ones is refused |
| Protocol.Repository.MarkAsUnsupported | src/copilotd/core/protocol.py:213-243 | Only a pending request becomes unsupported |
| Inbox.NothingIsLostSilently | src/copilotd/core/inbox.py:207-332 | In every interleaving: numbers issued are acknowledged, outstanding or recorded as lost iff no other thread handed over to a closed loop; all that is outstanding is somewhere iff no other thread's reservation filled the inbox of a closed loop |
| Inbox.OpenLoopLosesNothing | src/copilotd/core/inbox.py:207-332 | While the loop is open, both equations hold in every interleaving |
| Inbox.RoomAndOrder | src/copilotd/core/inbox.py:201-332 | In every interleaving: outstanding fits the capacity and equals the time stamps; a reserved envelope finds room; acknowledgements never underflow; ingress events are taken in the order of receipt |
| Inbox.FirstLossIsRemembered | src/copilotd/core/inbox.py:352-378 | Once something was lost, the first loss is what the inbox remembers, in every continuation |
| Inbox.NothingAfterClosing | src/copilotd/core/inbox.py:235-240 | After closing nothing more is admitted or numbered, in every continuation |
| Inbox.ClosedLoopLosesSilently | src/copilotd/core/inbox.py:270-320 | Two concrete runs on a closed loop: a number neither outstanding nor recorded as lost, and room taken for good |
| Inbox.StepSound | src/copilotd/core/inbox.py:207-378 | Every step of producers of any thread, of the loop, its closing and the consumer keeps the counts, those of escaped and leaked envelopes included, and the order |
| Inbox.PutFindsRoom | src/copilotd/core/inbox.py:322-332 | A reserved envelope never finds the queue full |
| Inbox.CountsPositive | src/copilotd/core/inbox.py:207-225 | What is on its way, queued or taken is counted, so an acknowledgement has something to take |
| Inbox.ReserveSound | src/copilotd/core/inbox.py:270-307 | A reservation gets fresh numbers, above all earlier ones |
| Inbox.ReducerInbox.TryReserve | src/copilotd/core/inbox.py:270-307 | Succeeds iff open, not full and nothing raised; raises exactly when it must reach a closed loop, to clear the wake-up from another thread or to announce an overflow; the whole new state |
| Inbox.ReducerInbox.Schedule | src/copilotd/core/inbox.py:309-320 | The envelope goes to an open loop; else its room is given back and the loss recorded from the loop's own thread, while from another the call raises first |
| Inbox.ReducerInbox.PutReserved | src/copilotd/core/inbox.py:322-332 | The oldest scheduled envelope enters the queue |
| Inbox.ReducerInbox.Get | src/copilotd/core/inbox.py:201-205 | The oldest queued envelope is taken |
| Inbox.ReducerInbox.AcknowledgeEnvelope | src/copilotd/core/inbox.py:207-225 | One less outstanding, one more acknowledged, the oldest time stamp dropped; the check for underflow never fires |
| Inbox.ReducerInbox.Ingest | src/copilotd/core/inbox.py:90-109 | An event is accepted iff open with room and loop; else, if open, it is counted as lost unless another thread meets a closed loop |
| Inbox.ReducerInbox.FailPending | src/copilotd/core/inbox.py:241-248 | Closing acknowledges everything queued and loses nothing |
| Inbox.ReducerInbox.RecordOverflow | src/copilotd/core/inbox.py:352-378 | The first loss is remembered and every loss counted |
| Extensions.RoundTrip | src/copilotd/core/extensions.py:231-290 | Every valid configuration is parsed back from its printed form unchanged |
| Extensions.MayOmitDefaults | src/copilotd/core/extensions.py:245-290 | Every valid configuration is read back from its printed form, whatever empty lists and default values are left out of it at any level |
| Extensions.ParsedIsValid | src/copilotd/core/extensions.py:245-290 | Only valid configurations are accepted |
| Extensions.AcceptedServers | src/copilotd/core/extensions.py:58-229 | What holds of every server of an accepted payload: name, timeout, command or URL and bindings are in order, its name is its own, and the references it names are there |
| Extensions.AcceptedAgents | src/copilotd/core/extensions.py:143-229 | What holds of every agent of an accepted payload: its name, prompt and effort are in order, its name is its own, and the servers it names are there |
| Extensions.PrintingIsInjective | src/copilotd/core/extensions.py:292-301 | Different valid configurations print differently, so digests tell them apart |
| Extensions.StoredReverifies | src/copilotd/core/extensions.py:1012-1029 | The stored text of a valid configuration re-verifies against its digest and reads back as that configuration |
| Extensions.ServerRoundTrip | src/copilotd/core/extensions.py:1204-1304 | Every valid server of either transport is parsed back unchanged |
| Extensions.ServerMayOmit | src/copilotd/core/extensions.py:1231-1304 | A server is read back without any keys that have their default values, the tools `*` among them |
| Extensions.AgentRoundTrip | src/copilotd/core/extensions.py:1307-1355 | Every valid agent is parsed back unchanged |
| Extensions.AgentMayOmit | src/copilotd/core/extensions.py:1322-1355 | So is an agent |
| Generations.ChainsOnlyGrow | src/copilotd/core/extensions.py:1032-1087 | In every run each scope's versions count from 1 without gaps, rows never change or go, neighbours differ in digest |
| Generations.StoredGenerationsReadBack | src/copilotd/core/extensions.py:1012-1029 | When only valid configurations are published, every stored generation reads back for ever as a valid one of its digest |
| Generations.RepeatedReloadIsStable | src/copilotd/core/extensions.py:704-880 | Repeating a reload with the same key returns the same version, creates no claim and publishes nothing, whatever happened in between, as long as no transition names another version |
| Generations.ClaimAndPublishGenerations | src/copilotd/core/extensions.py:621-880 | A successful reload returns a version whose stored digest is the configuration's, and publishes only for a claim without a version |
| Generations.PublishedIsLatest | src/copilotd/core/extensions.py:1032-1087 | The version a publication returns is the latest of its scope and has the configuration's digest |
| Generations.OneTransitionAtATime | src/copilotd/core/extensions.py:780-860 | A reload never replaces another transition under way, and leaves its own under way unless settled or running already |
| Generations.ReloadTakesTheClaim | src/copilotd/core/extensions.py:692-860 | A reload that succeeds leaves its key claimed for the configuration and its version, by the caller and started, unless it was confirmed or rejected before |
| Generations.FreshReloadSucceedsWhen | src/copilotd/core/extensions.py:621-860 | A reload under a new key succeeds iff its caller owns the session, the scope is at the expected version and no other transition is under way |
| Generations.SettledClaimsStay | src/copilotd/core/extensions.py:886-967 | In every run a confirmed or rejected reload stays so |
| Generations.PublishSound | src/copilotd/core/extensions.py:1032-1087 | A publication of what is current changes nothing; any other appends exactly one row, under the next version, to the chain of its scope and leaves all other chains and the claims alone |
| Generations.RunKeepsVersion | src/copilotd/core/extensions.py:886-967 | In every run a claim keeps its digest and version unless a transition names another one |
| Generations.ConfigStore.LatestVersion | src/copilotd/core/extensions.py:1043-1055 | The highest version of a scope |
| Generations.ConfigStore.PublishConfig | src/copilotd/core/extensions.py:1032-1087 | Refuses iff the scope is not at the expected version, and then changes nothing; else returns the latest version, which holds the content, adding it iff it was not current |
| Generations.ConfigStore.MakeClaimOnly | src/copilotd/core/extensions.py:570-619 | A claim is made once per key; a different digest is refused |
| Generations.ConfigStore.ReloadConfig | src/copilotd/core/extensions.py:621-880 | The whole transaction, rolled back when any of its checks fails |
| Generations.ConfigStore.FixVersion | src/copilotd/core/extensions.py:692-752 | The claim gets its version, once |
| Generations.ConfigStore.TakeOver | src/copilotd/core/extensions.py:753-860 | The claim is taken over and the session told, unless another transition is pending |
| Generations.ConfigStore.MoveClaim | src/copilotd/core/extensions.py:886-967 | A claim moves iff its caller owns the session, saw it as it is, and the transition is one of the eight allowed |

## Left out

- Discord, aiohttp and Copilot SDK calls, Git, image compression, logging, the command line, embeds, usage text and event tables: outside parties or formatting.
- SQL text: tables are maps of rows and each transaction is one guarded update.
- The reducer, scheduler and session runtime: only the guard that a commit succeeds for the attachment the binding names and from the expected state.
- Migration: the lock file's age, database files inside subdirectories, and a crash while empty directories are pruned. On a case-sensitive file system a distinct `copilotD` directory beside other entries of `copilotd` would be a third tree; Windows does not distinguish the two.
- Migration: one migrator runs at a time, and the guard's copy and finalization are a contract (an exact copy or, after a crash, a partial one; finalization keeps the content and may be repeated).
- HttpLimiter: learning route hashes (the bucket key of each event is a parameter), what headers and bodies say, the number of requests in one bucket's own window (a wait that is a parameter), metrics, and cancellation inside trace callbacks other than while a body is read; whether headers and bodies convert is a parameter.
- RenderDelivery: deliveries of the same family are rows that do not change meanwhile, and `_prune_previous_render_batches`, because a shorter revision after a crash is beyond what the rows record.
- Splitting: turning paths into base names and safe image names; `UniqueAssets` starts from base names. Case folding is any character-wise folding that keeps digits.
- Coordinator: priorities of operations other than by number, counters of `snapshot`, and a callback that swallows its cancellation.
- Mailbox: what is stored of a result and read by a later submission of the same key, draining and freezing apart from admission, and an operation that swallows its cancellation; `start` on a stopped mailbox; `stop` is one step.
- Fencing: a settlement's event that cannot be committed, after which its caller waits until the timeout; and futures of a request that could not be recorded.
- Fencing: permission posture, runtime observations and other columns that a new attachment only resets; creation of bindings; renewal of an owner lease.
- Fencing: the value that the loser of a settlement reads, which may be redacted; only who wins is modelled.
- Elicitation: keywords that the parser does not read, such as `pattern` and `const`, are no part of what a property means.
- Elicitation: the order of fields (a form is a map by name), rounding of numbers, which of several errors is reported, and that an unhashable `type` or `additionalProperties` raises another exception than the validation error.
- Fencing: reading the stored request and checking the answer are parameters of `Respond`; `Elicitation` models the check of a form.
- Inbox: what a wake-up does to a producer that waits for room, observers and lag; that a wake-up through a closed loop raises is modelled.
- Generations: normalization of directories against the file system, the child tables of a generation and dynamic headers.
- Hash strength, secrets, permissions and file modes.
