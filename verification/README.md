# Verification of the agent's durable state

This project models the parts of the agent worker that have to keep state through overload, crashes and
concurrent callers, and proves what each of them promises over every run. It covers

- the buffered event writer and its stream of stored activity rows (`EventWriter`, `EventStream`, `FlushBarrier`,
  `FlushBatching`),
- the archive of untracked workspace files: which of them fit a budget, how they are packed, validated and restored
  (`WorkspaceTree`, `Sorting`, `ArchiveSelection`, `ArchiveDeterminism`, `ArchiveTransfer`),
- the publication of workspace checkpoints to an object store (`CheckpointPublication`, `CheckpointInvariants`,
  `CheckpointAnswers`, `CheckpointProgress`, `CheckpointRuns`, `CheckpointRetirement`, `CheckpointExamples`,
  `AnchorFraming`, `AsyncCoalescing`),
- the desktop broker with its messages and key chords (`DesktopBroker`, `BrokerAnswers`, `ActionProtocol`, `KeyChord`),
- the Slack connector's hand-off, notice lease and draft approval (`WhiteSpace`, `ConversationDispatch`, `NoticeLease`,
  `DraftMachine`, `DraftOutcomes`),
- the fold of out-of-band messages into a replayed transcript, and when it starts over (`TranscriptFold`,
  `TranscriptRuns`, `TranscriptExamples`).

Verify it with `dafny verify dfyconfig.toml`.

## How it is built

Code that changes fields under a lock is a class whose methods are proved to do to the fields what a function on plain
values says (`ensures Model() == F(old(Model()))`). Above the classes each protocol is a state machine: its actions are the
sections that run under one lock, one database statement, one patch, one store request or one channel operation, and a run
is any sequence of them by any number of goroutines, connectors or processes. The theorems are about every state that any
run reaches. Failures are actions or parameters like any other: a refused request, a request that took effect although its
answer was lost, a crash between two requests, a clock that passes a deadline.

Where a promise is false of the code in some circumstances, the project proves exactly when it holds and gives a run that
breaks it otherwise:

- `Flush` is a barrier if no drop is pending at the call and none happens while it waits. For a store that writes events one
  by one this is exact: with a pending drop there is always a run without further drops in which it returns too early. For a
  store that writes whole batches it is a barrier in every run without further drops unless a drop is pending and the buffered
  events, more than one batch of them, leave one event over; then there is such a run. If drops may happen while it waits, it
  is a barrier in every run exactly if nothing was undecided at the call.
- A checkpoint attempt that returns nil has left a manifest of what it captured exactly if it sent that manifest itself or the
  process knows the answer to the last one it sent. Lost answers to payloads or to earlier processes do no harm.
- Retiring a checkpoint has to be the last thing a process does, because it does not make the process forget.
  `cmd/agent/plan.go:461` only cancels the periodic goroutine and does not wait for it, so an attempt can come later. The
  manifest it publishes restores exactly if no repository in it is unchanged and none uses a cached anchor of a retired entry;
  and if its generation is unchanged it returns nil with no manifest in the store at all. The same holds of every later
  attempt, for what is missing by then.
- A request for an asynchronous checkpoint is lost exactly when an attempt that started after it is cut short, its context
  having ended, while the flag has not been set again and no synchronous caller waits: the attempt of a synchronous caller
  that gives up, an asynchronous one that a cleanup cancelled, or the cleanup's own. It is recovered exactly by the next
  request, the next synchronous caller or a cleanup's last attempt.
- A notice goes out again, with no further failure and no other value of it in between, exactly if its last post has not been
  recorded.
- A draft is posted as several messages if it is long. It can get into the channel by two calls, with no further call torn,
  exactly if it has already, or a call was torn before and some click can still post it; for a pending draft that means just
  the torn call. A call is torn if it failed after one of its messages had reached the channel: because an answer was lost, or
  because a later message was refused. Nothing of a dismissed draft is in the channel exactly if no call was torn.
- A message of the transcript loop's own is in the context once as what a pass generated or opened with, if it is a reply or a
  nudge that opened a pass, and once as a fold, if it was unread when the loop stopped skipping it, or never known to be
  skipped, and was read later. With successful reads and known answers only one of the two happens; a failed read, or an
  append whose answer is lost, can bring both about, and a nudge replaced by a user message enters by the fold alone.
- A transcript starts over when the context was cleared, or when the last pass left none. The fallback it then starts with is
  made from all messages above the floor exactly if the first pass can read. If it cannot, what had been read before stays out
  of the transcript for good, because later reads are only above the watermark.
- An anchor payload round-trips exactly when both its parts are non-empty.

Comments in `broker.go` and `slack_notifications.go` describe some of these properties; where the code is more precise than
its comments the model follows the code. The comment on `Flush` promises that every event accepted before the call has been
decided on return, which the counting code does not keep in the circumstances above. The comment in `loop.go` that the
durable-tail fallback includes the messages of others by construction is true of a fallback whose read succeeded.

## Model

| member | source | states |
|---|---|---|
| EventWriter.PgEventWriter.Write | cmd/agent/pg_event_writer.go:118-149 | a write to a closed writer changes nothing and fails; otherwise the buffer becomes what accepting the event specifies, with slice, head and byte count consistent |
| EventWriter.AcceptShedsFewest | cmd/agent/pg_event_writer.go:127-137 | accepting an event drops the fewest oldest events that bring count and bytes back within both limits, and never the new one |
| EventWriter.PgEventWriter.DropOldestEvent | cmd/agent/pg_event_writer.go:151-159 | the oldest buffered event leaves the queue, counted as dropped, as pending for a marker and as settled |
| EventWriter.PgEventWriter.SettleEvents | cmd/agent/pg_event_writer.go:161-169 | settling counts the events and closes the current settle channel, or does nothing for none |
| EventWriter.PgEventWriter.Compact | cmd/agent/pg_event_writer.go:417-431 | compaction restores the space invariant and never changes the abstract queue or any counter |
| EventWriter.PgEventWriter.SpaceBound | cmd/agent/pg_event_writer.go:413-431 | the cleared part of the slice is at most 1024 slots or smaller than the live part |
| EventWriter.PgEventWriter.PopBatch | cmd/agent/pg_event_writer.go:372-411 | what a poll takes: nothing after expiry, else up to 64 oldest events led by a marker for pending drops, else stop or wait |
| EventWriter.PgEventWriter.FinishBatchWrite | cmd/agent/pg_event_writer.go:275-303 | a finished batch settles its events unless close has settled them already |
| EventWriter.PgEventWriter.FinishOneWrite | cmd/agent/pg_event_writer.go:340-348 | the same for one event of a batch |
| EventWriter.PgEventWriter.ExpireClose | cmd/agent/pg_event_writer.go:233-245 | at the close deadline everything buffered or in flight is counted as unflushed and settled, and the buffer is empty |
| EventWriter.PgEventWriter.FlushProbe | cmd/agent/pg_event_writer.go:176-195 | whether Flush has to wait, and on which settle channel |
| EventStream.StepInv | cmd/agent/pg_event_writer.go:118-169 | every step of writers, drainer and closer keeps conservation, order, gap exactness, limits and wake-ups together |
| EventStream.StreamIsGapExact | cmd/agent/pg_event_writer.go:383-402 | reading the popped rows, then the pending gap, then the queue, gives back the log of accepted events with a gap at each dropped one |
| EventStream.AcceptanceIndexRecovered | cmd/agent/pg_event_writer.go:383-402 | counting 1 for an event and a marker for its number, an event's position in the rows is its exact acceptance index |
| EventStream.CleanCloseReportsEveryDrop | cmd/agent/pg_event_writer.go:372-411 | a drainer that ends without expiry leaves nothing buffered and no drop unreported |
| EventStream.DrainerIsWoken | cmd/agent/pg_event_writer.go:144-147 | the drainer never sleeps on buffered work or on a close without a wake-up on its way |
| EventStream.FateIsConserved | cmd/agent/pg_event_writer.go:217-246 | enqueued = settled + buffered + in flight until expiry, settled = enqueued after it, and the keys handed out are those with a fate and those open, never both |
| EventStream.CountersMatchFates | cmd/agent/pg_event_writer.go:248-256 | the dropped and unflushed counts reported at close are the numbers of events dropped, and failed or abandoned |
| EventStream.FateIsFinal | cmd/agent/pg_event_writer.go:290-298 | no step changes a fate, not even a batch that completes after expiry |
| FlushBarrier.NoLostWakeup | cmd/agent/pg_event_writer.go:161-195 | a Flush asleep on a settle channel that is still open still has something to wait for, after any run |
| FlushBarrier.FlushIsBarrier | cmd/agent/pg_event_writer.go:171-195 | without a pending drop at the call and without drops while waiting, every event accepted before the call is final when Flush may return |
| FlushBarrier.FlushIsBarrierIffNoGapPending | cmd/agent/pg_event_writer.go:388-399 | for a one-by-one store this holds in every drop-free continuation if and only if no drop is pending at the call |
| FlushBarrier.GapIsReachable | cmd/agent/pg_event_writer.go:127-137 | two writes above the byte budget lead from the start to a pending drop, whatever the store |
| FlushBatching.FlushIsBarrierUnlessMisleading | cmd/agent/pg_event_writer.go:379-399 | for a batching store it holds in every drop-free continuation if and only if no drop is pending, or at most 64 events are buffered, or their number modulo 64 is not 1 |
| FlushBatching.MisleadingIsReachable | cmd/agent/pg_event_writer.go:127-137 | one write above the byte budget and 65 small ones lead from the start to a state that meets the failing condition |
| FlushBarrier.LaterDropsStandIn | cmd/agent/pg_event_writer.go:118-195 | from an open writer, with drops allowed while it waits, Flush is a barrier in every continuation if and only if every event was decided at the call |
| Sorting.SortSet | cmd/agent/workspace_untracked_snapshot.go:316-327 | the elements of a set, each once, in the order of a comparison without ties |
| WorkspaceTree.JoinInjective | cmd/agent/workspace_untracked_snapshot.go:413-421 | two sequences of slash-free components with the same joined path are the same |
| WorkspaceTree.ValidNameIff | cmd/agent/workspace_untracked_snapshot.go:409-423 | the checks on a name as a string, with the cleaning of path.Clean, accept exactly the names whose components are all plain |
| WorkspaceTree.ValidPathIff | cmd/agent/workspace_untracked_snapshot.go:409-423 | a path is valid if and only if following it from the root leads strictly further below at every step, never through Git's own directory in any case, and no name holds a separator or a NUL |
| WorkspaceTree.UnderIff | cmd/agent/workspace_untracked_snapshot.go:532-537 | the parents of a path are exactly the paths whose name and a slash start its name |
| ArchiveSelection.Selection.Measure | cmd/agent/workspace_untracked_snapshot.go:272-302 | succeeds if and only if every path is valid, there, and a regular file or a link; then the entries are what the paths lead to, with their total and the bytes below every folder; otherwise the refusal is of the first path that is not so, with the kind that fits it |
| ArchiveSelection.SkipTracked | cmd/agent/workspace_untracked_snapshot.go:305-315 | after a skip the running total and the bytes of every folder not skipped are exactly what is left |
| ArchiveSelection.Selection.PruneFolders | cmd/agent/workspace_untracked_snapshot.go:316-332 | prunes, deepest first, exactly until every folder left fits; each pruned folder was over budget with everything inside it fitting |
| ArchiveSelection.Selection.DropGroups | cmd/agent/workspace_untracked_snapshot.go:334-361 | drops root groups largest first until the total fits, and none that could be put back |
| ArchiveSelection.SelectEntries | cmd/agent/workspace_untracked_snapshot.go:271-374 | succeeds, and refuses, exactly as that says; the selection fits the budget and accounts for every byte; each warning is exact, and putting any skipped item back would exceed the budget |
| ArchiveSelection.NothingSkippedWhenAllFits | cmd/agent/workspace_untracked_snapshot.go:328-361 | when everything fits nothing is skipped |
| ArchiveDeterminism.SamePrunedSet | cmd/agent/workspace_untracked_snapshot.go:316-332 | two prunings of the same entries under the same budget prune the same folders |
| ArchiveDeterminism.SelectionIsDetermined | cmd/agent/workspace_untracked_snapshot.go:271-374 | entries and budget determine the selection, the pruned folders and the dropped groups, whatever the order of Go's maps |
| ArchiveTransfer.Build | cmd/agent/workspace_untracked_snapshot.go:202-260 | packs the entries in order, each with its path, what opening the file reads by then and the low nine bits of its mode, or its link target; fails exactly if one cannot be read, has changed its size or is of no supported type, and then for the first such, or the compressed archive is too large |
| ArchiveTransfer.ValidationIsExact | cmd/agent/workspace_untracked_snapshot.go:503-581 | the validation walk accepts exactly the archives with valid unique names, supported types, good link targets, a total within the limit and no name below a link in any order, and changes nothing |
| ArchiveTransfer.RefusalFits | cmd/agent/workspace_untracked_snapshot.go:525-563 | when the loop refuses an archive, everything before some record was in order, and that record is unfit for the reason given |
| ArchiveTransfer.Checkout.SafeDestination | cmd/agent/workspace_untracked_snapshot.go:624-655 | makes missing parents and stops at one that is not a directory |
| ArchiveTransfer.Checkout.ExtractRecord | cmd/agent/workspace_untracked_snapshot.go:583-622 | refuses to overwrite, else writes the file or link with its permissions, as the next row says exactly |
| ArchiveTransfer.ExtractIff | cmd/agent/workspace_untracked_snapshot.go:583-655 | a record is extracted if and only if nothing is at its name and nothing but directories above it; otherwise the refusal tells which of the two is wrong |
| ArchiveTransfer.Checkout.Walk | cmd/agent/workspace_untracked_snapshot.go:506-581 | the walk's checks and extraction record by record, then the check of every name against every link |
| ArchiveTransfer.Checkout.Restore | cmd/agent/workspace_untracked_snapshot.go:492-501 | an archive that is not acceptable leaves the checkout untouched |
| ArchiveTransfer.ExtractionOnlyAdds | cmd/agent/workspace_untracked_snapshot.go:583-655 | whether it fails or not, extracting changes nothing that was there and adds only archived paths, as the very link or as a regular file with the content and the low nine bits of the mode, and directories above them |
| ArchiveTransfer.RestoreStaysInside | cmd/agent/workspace_untracked_snapshot.go:492-655 | whatever an accepted archive adds to a checkout, completely or not, lies strictly below its root at the end of a chain of directories, none of it Git's own |
| ArchiveTransfer.RestoreIsBounded | cmd/agent/workspace_untracked_snapshot.go:541-549 | restoring an accepted archive writes at most 256 MiB |
| ArchiveTransfer.RestoreSucceedsIff | cmd/agent/workspace_untracked_snapshot.go:583-655 | an accepted archive restores onto a clean checkout if and only if none of its names lies above another |
| ArchiveTransfer.BuiltIsAccepted | cmd/agent/workspace_untracked_snapshot.go:202-254 | what is built from selected entries passes validation, including the equal size limit |
| ArchiveTransfer.RoundTrip | cmd/agent/workspace_untracked_snapshot.go:173-263 | building and restoring gives back exactly the selected files and links, a file with the very mode if that has nine bits and else with its low nine, and changes nothing else but missing parents |
| ArchiveTransfer.SelectionIsArchivable | cmd/agent/workspace_untracked_snapshot.go:169-171 | every selection within the limit can be built while the files keep their sizes |
| CheckpointPublication.CheckManifest | cmd/agent/workspace_snapshot.go:140-166 | accepts exactly the manifests of the current version with complete entries under the run prefix, unique IDs and at most one primary |
| CheckpointPublication.RestoreIff | cmd/agent/workspace_snapshot.go:860-925 | an entry restores to a content if and only if its bundle is stored and holds just its commit on its HEAD with that content, and the anchor it names is stored and is all that the bundle depends on |
| CheckpointPublication.WorkspaceSnapshotter.constructor | cmd/agent/workspace_snapshot.go:219-240 | a new process remembers keys, entries, anchors and generation of the manifest it loaded |
| CheckpointPublication.WorkspaceSnapshotter.CachedAnchorObject | cmd/agent/workspace_snapshot.go:668-681 | returns the cached key; the fallback search of the last entries never finds more |
| CheckpointPublication.WorkspaceSnapshotter.SnapshotRepo | cmd/agent/workspace_snapshot.go:529-630 | reuses an unchanged entry, else uploads anchor and bundle in this order and stops at the first failure |
| CheckpointPublication.WorkspaceSnapshotter.SnapshotLocked | cmd/agent/workspace_snapshot.go:458-527 | uploads every repository, skips the manifest if the generation is unchanged, else publishes it last and then updates memory |
| CheckpointPublication.WorkspaceSnapshotter.Cleanup | cmd/agent/workspace_snapshot.go:354-414 | retires a clean checkpoint, latest manifest first and every remembered payload after it, else takes a last checkpoint |
| CheckpointInvariants.UploadAllStep | cmd/agent/workspace_snapshot.go:467-494 | whatever fails, uploads keep every payload, leave the latest manifest alone, and yield entries that record the captures and whose payloads are stored |
| CheckpointInvariants.PublishStep | cmd/agent/workspace_snapshot.go:495-517 | on success the latest manifest is this attempt's if and only if it was uploaded or the process was right about the latest one |
| CheckpointInvariants.ManifestDescribes | cmd/agent/workspace_snapshot.go:506-509 | a manifest with an attempt's entries restores each captured repository to its captured tree, HEAD and archive, and names no other |
| CheckpointRuns.EveryMomentIsIntact | cmd/agent/workspace_snapshot.go:354-630 | at every moment of every run with crashes, refusals and lost answers, the latest manifest, if any, loads and restores completely |
| CheckpointAnswers.DescribedIsOwn | cmd/agent/workspace_snapshot.go:561-569 | a stored manifest that describes what an attempt captured, when that is the generation the process remembers, is that generation's very manifest |
| CheckpointAnswers.NilStep | cmd/agent/workspace_snapshot.go:495-517 | for any store and memory, an attempt that returns nil left a manifest of exactly what it captured if and only if it sent it or no doubt is left about the last one |
| CheckpointProgress.ReadyAttemptCheckpoints | cmd/agent/workspace_snapshot.go:458-527 | with every request answered and every repository ready, an attempt succeeds, and without doubt about the last manifest it leaves a checkpoint of exactly what it captured |
| CheckpointProgress.RepeatIsFree | cmd/agent/workspace_snapshot.go:495-498 | an attempt that finds every repository as the process published it sends nothing and succeeds |
| CheckpointProgress.SecondAttemptIsFree | cmd/agent/workspace_snapshot.go:458-527 | so a second attempt at an unchanged workspace is free once the first has published it |
| CheckpointProgress.ChangeCosts | cmd/agent/workspace_snapshot.go:561-609 | a changed repository costs one request for its bundle, and one more for an anchor that the process has not sent before and remembers from then on |
| CheckpointRuns.NilMeansCaptured | cmd/agent/workspace_snapshot.go:495-517 | the same for every attempt of every run, where doubt is left only by a lost answer to the running process's own last manifest |
| CheckpointExamples.LostAnswerMakesNilStale | cmd/agent/workspace_snapshot.go:502-516 | the witness: one lost answer, and the third of three attempts returns nil for a manifest that describes something else |
| CheckpointRetirement.AllProceed | cmd/agent/workspace_snapshot.go:561-609 | uploads after retiring never bring a deleted object back, and an entry names one exactly if its capture relies on it |
| CheckpointRetirement.AnyAttempt | cmd/agent/workspace_snapshot.go:458-517 | for any store and any sound memory, an attempt whose manifest takes effect leaves a checkpoint that restores if and only if no repository in it relies on a missing object; any other leaves the latest manifest alone |
| CheckpointRetirement.AttemptAfterRetiring | cmd/agent/workspace_snapshot.go:391-411 | whatever the deletes met, an attempt after retiring leaves a checkpoint that restores if and only if no repository in it relies on an object that is gone; unless the delete of the manifest was refused, an attempt that returns nil leaves a manifest if and only if its generation is new |
| CheckpointRetirement.AttemptsAfterRetiring | cmd/agent/workspace_snapshot.go:391-411 | the same after any number of attempts since the retiring, for what is missing by then |
| CheckpointRetirement.RetiringMustBeLastUnless | cmd/agent/workspace_snapshot.go:561-594 | after a fully acknowledged retiring that means: no repository is unchanged, and none uses the cached anchor of a retired entry |
| CheckpointExamples.RetiringMustBeLast | cmd/agent/workspace_snapshot.go:391-411 | the witness: after retiring, a changed branch name publishes a manifest that cannot be restored, and no change at all returns nil with no manifest stored |
| AnchorFraming.CreatePayload | cmd/agent/workspace_snapshot.go:687-714 | frames commit and pack, or fails exactly if the commit length needs more than 32 bits or the payload is too large |
| AnchorFraming.SplitPayload | cmd/agent/workspace_snapshot.go:716-730 | returns parts that frame to the very payload, or fails exactly if no non-empty parts do |
| AnchorFraming.FrameInjective | cmd/agent/workspace_snapshot.go:687-714 | no two pairs of parts share a payload |
| AnchorFraming.RoundTripsIff | cmd/agent/workspace_snapshot.go:687-730 | a payload is accepted again if and only if both its parts are non-empty |
| AsyncCoalescing.AttemptsNeverOverlap | cmd/agent/workspace_snapshot.go:268-302 | no two attempts run at the same time |
| AsyncCoalescing.NoRequestIsForgotten | cmd/agent/workspace_snapshot.go:268-360 | unless an attempt was cut short and no request came since it started, every request was followed by an attempt that was not cut short, or is covered by the lock holder or a waiting synchronous caller, or has left the flag set |
| AsyncCoalescing.RequestsAreLostIff | cmd/agent/workspace_snapshot.go:268-360 | in every run of requests, synchronous callers and cleanups, a step loses requests if and only if it cuts short an attempt that covers them with the flag clear and no synchronous caller waiting; a step brings them back if and only if it is a new request, a new synchronous caller or the start of a cleanup's last attempt |
| AsyncCoalescing.CutCallerLosesRequest | cmd/agent/workspace_snapshot.go:331-343 | the witness: a request that comes in while a caller takes the lock, whose context then ends |
| AsyncCoalescing.CleanupLosesRequest | cmd/agent/workspace_snapshot.go:354-411 | the witness: a cleanup cancels the only attempt of a request and finds nothing that needs a checkpoint |
| AsyncCoalescing.CancelledForAWaiter | cmd/agent/workspace_snapshot.go:331-360 | an attempt is only cancelled for a caller still waiting for its turn: a synchronous one, whose own attempt is still to come, or a cleanup |
| AsyncCoalescing.NextRequestPicksUp | cmd/agent/workspace_snapshot.go:268-302 | a flag left by the race at the end of the loop is picked up by the next request |
| AsyncCoalescing.LoopGoesOnUnlessItFails | cmd/agent/workspace_snapshot.go:287-301 | after a successful attempt the loop goes on with one that covers every request made meanwhile, and lets the lock go if there was none; after a failed one it lets the lock go and leaves the flag |
| DesktopBroker.Broker.CheckExpiry | internal/computeruse/broker.go:91-104 | fails a pending request past its deadline, then ends an idle session past its lease |
| DesktopBroker.Broker.Handling | internal/computeruse/broker.go:144-188 | an exchange after validation and expiry check, up to its answer or its first wait |
| DesktopBroker.Broker.Poll | internal/computeruse/broker.go:197-213 | hands over the pending request, setting its deadline once, or starts to wait |
| DesktopBroker.Broker.Resume | internal/computeruse/broker.go:223-236 | a long poll after its wait |
| DesktopBroker.Broker.Submit | internal/computeruse/broker.go:241-267 | refuses an invalid, unserved, competing or off-screen action, else makes it pending |
| DesktopBroker.StepInv | internal/computeruse/broker.go:77-280 | every locked section keeps the broker's eight invariants together |
| DesktopBroker.PendingNeedsSession | internal/computeruse/broker.go:84-115 | a pending request implies a live session, and a closed broker has neither |
| DesktopBroker.OneFatePerRequest | internal/computeruse/broker.go:77-82 | sending an outcome never blocks, and a request is exactly one of pending, resolved and given up |
| DesktopBroker.OutcomesAreFinal | internal/computeruse/broker.go:77-82 | a request's outcome never changes once sent |
| DesktopBroker.AnswersAreFromTheSession | internal/computeruse/broker.go:170-185 | an answer comes only from the owner and session the request was accepted from and handed to, under its exact ID |
| DesktopBroker.ResolutionIsBounded | internal/computeruse/broker.go:91-100 | an expiry check at or after acceptance + 30 s + 300 s finds the request resolved or given up |
| DesktopBroker.LeaseSparesBusySessions | internal/computeruse/broker.go:101-103 | the lease check ends only sessions out of contact for the whole lease, with no open poll and no handed-over request within its deadline |
| DesktopBroker.RequestsAreOnScreen | internal/computeruse/broker.go:258-263 | a request accepted after a full screenshot names only pixels of the latest one |
| DesktopBroker.NoLostWakeup | internal/computeruse/broker.go:72-75 | a poll still asleep has nothing to hand over and still owns the session |
| DesktopBroker.ResponsesAreValid | internal/computeruse/protocol.go:409-425 | every response of the broker passes Response.Validate |
| BrokerAnswers.HandedOverIsAsked | internal/computeruse/broker.go:199-210 | whatever request a reply carries was accepted under its identifier from the caller's owner and session with exactly that action, and is neither resolved nor given up |
| BrokerAnswers.PollGetsThePending | internal/computeruse/broker.go:195-213 | a poll of the owning session gets the pending request, handed over before or not, and waits if there is none |
| BrokerAnswers.WakeGetsThePending | internal/computeruse/broker.go:214-236 | so does a poll that wakes up; one that was stopped is told that it is still connected |
| BrokerAnswers.AskIs | internal/computeruse/broker.go:241-268 | a valid action is accepted, as the pending request for 30 s, if and only if a session is there, nothing is pending and all it names is on the last full screenshot; otherwise the refusal tells the first that fails |
| BrokerAnswers.ResultIs | internal/computeruse/broker.go:170-185 | a result is taken if and only if it comes from the owning session for a request handed over and still open; then it is what the agent gets, and its screenshot becomes the reference unless it shows a zoomed region |
| BrokerAnswers.CheckIs | internal/computeruse/broker.go:91-104 | the expiry check, exactly: a request fails 30 s after acceptance, or 300 s after it was first handed over, and a session without polls, contact for 30 s or a running request ends |
| BrokerAnswers.ActiveMeansConnected | internal/computeruse/broker.go:127-135 | a reply calls the caller active if and only if its session is the connected one after the call |
| BrokerAnswers.ConnectIs | internal/computeruse/broker.go:152-164 | connecting succeeds if and only if no other owner's session is there; the same session goes on as it was, and another of the same owner ends first with its request |
| BrokerAnswers.DisconnectIs | internal/computeruse/broker.go:165-170 | disconnecting ends the caller's own session and its request, and no other |
| BrokerAnswers.CloseEnds | internal/computeruse/broker.go:106-115 | closing ends any session and fails its request |
| BrokerAnswers.ClosedIff | internal/computeruse/broker.go:106-115 | nothing but closing closes the broker, and nothing reopens it |
| ActionProtocol.BoundsMeanOnScreen | internal/computeruse/protocol.go:125-226 | a valid action passes CheckBounds if and only if every pixel it names, all of its region included, is on the screen |
| ActionProtocol.ShapeByField | internal/computeruse/protocol.go:87-176 | field by field, which kinds of action need it, which others may have it, and what points and regions may be |
| KeyChord.ParseKeyChord | internal/computeruse/protocol.go:290-329 | the loop over modifiers and the lookups of the key do what parsing specifies |
| KeyChord.ChordBuilder.SetModifier | internal/computeruse/protocol.go:277-288 | sets the named flag, or reports an unknown or duplicate modifier and changes nothing |
| KeyChord.ParsesTokens | internal/computeruse/protocol.go:298-314 | a chord of plus-joined tokens is parsed token by token, with the plus key included |
| KeyChord.SameTokensSameChord | internal/computeruse/protocol.go:246-329 | neither the order of modifiers nor the choice among aliases matters |
| KeyChord.CaseInsensitive | internal/computeruse/protocol.go:290-329 | parsing ignores ASCII case, on every input |
| KeyChord.RoundTrip | internal/computeruse/protocol.go:290-329 | every parsed chord has a canonical form of at most 64 bytes that parses back to it, and is never the reserved chord |
| WhiteSpace.TrimIs | cmd/agent/slack_dispatch.go:124-127 | trimming takes away exactly the white space around a text |
| ConversationDispatch.MergeDecisions | cmd/agent/slack_dispatch.go:112-132 | one message stays as it is; a burst goes to the target of the latest message with every file, and its text is made of the trimmed texts of exactly the messages that are not blank, in order, at given places with one newline between two of them and nothing else |
| ConversationDispatch.OneWorkerPerConversation | cmd/agent/slack_dispatch.go:23-75 | while the context lives a conversation has at most one worker |
| ConversationDispatch.NoMessageIsStranded | cmd/agent/slack_dispatch.go:33-74 | no accepted message sits in a channel without a live worker, not even across the idle exit |
| ConversationDispatch.HandledInOrder | cmd/agent/slack_dispatch.go:49-110 | handled batches, current batch and channel concatenate to the accepted messages |
| ConversationDispatch.EnqueueIs | cmd/agent/slack_dispatch.go:23-47 | a message is taken in if and only if fewer than 64 wait in its conversation's channel, a worker serves that channel from then on, and no other conversation notices |
| ConversationDispatch.IdleIs | cmd/agent/slack_dispatch.go:62-73 | an idle worker leaves exactly if no message waits, and otherwise takes one |
| ConversationDispatch.EveryMessageCanBeHandled | cmd/agent/slack_dispatch.go:49-110 | after any run the worker's own steps handle every message of the conversation that was taken in |
| ConversationDispatch.NoFileIsLost | cmd/agent/slack_dispatch.go:112-132 | however messages are batched, no attachment is lost, duplicated or reordered |
| NoticeLease.LeaseExcludes | cmd/agent/slack_notifications.go:202-253 | at most one connector in time is between lease and record for a notice |
| NoticeLease.RecordedWasPosted | cmd/agent/slack_notifications.go:243-250 | a recorded value was posted |
| NoticeLease.RepeatsNeedAFailure | cmd/agent/slack_notifications.go:197-201 | a value is posted twice without another in between only if the first poster failed, crashed or ran out of time before its record |
| NoticeLease.RepeatsIff | cmd/agent/slack_notifications.go:197-253 | with no further failure, the value of a notice's last post can go out again before any other value if and only if that post has not been recorded |
| NoticeLease.DeliveryGetsThrough | cmd/agent/slack_notifications.go:202-253 | after any run, whoever failed or crashed, any value of a notice can still be posted and recorded without further failure |
| NoticeLease.OnlyAnswersLeadOn | cmd/agent/slack_notifications.go:220-252 | a refused request changes nothing, and a connector goes on to post or to record only after an answer |
| DraftMachine.SplitMarkdown | internal/slack/agent.go:206-219 | the loop over a long text gives non-empty messages of at most 12000 characters that joined are the text |
| DraftMachine.PostedAtMostOnce | cmd/agent/slack_interactions.go:114-154 | the channel holds exactly what of each call reached it; only the last call can succeed, and at most one reaches the channel besides the torn ones |
| DraftMachine.PostedTwiceIff | cmd/agent/slack_interactions.go:122-133 | from any reachable state, with no further call torn, the draft can get into the channel by two calls if and only if it has already, or a call was torn and some click can still post it; for a pending draft, if and only if a call was torn |
| DraftMachine.LostAnswerTears | internal/slack/client.go:164-183 | the witness: a lost answer leaves the draft pending with its message in the channel |
| DraftMachine.RefusedMessageTears | internal/slack/client.go:164-183 | the witness: so does the refusal of a second message, with no answer lost |
| DraftMachine.TornPostsTwice | cmd/agent/slack_interactions.go:124-133 | from there, a second approval posts the first message again, and a dismissal leaves it in the channel of a dismissed draft |
| DraftMachine.OutcomesAreFinal | cmd/agent/slack_interactions.go:378-387 | sent and dismissed are never left and nothing is posted from there |
| DraftMachine.DismissedMeansNothingPosted | cmd/agent/slack_interactions.go:57-63 | nothing of a dismissed draft is in the channel if and only if no call was torn |
| DraftMachine.SentRowMatchesThePost | cmd/agent/slack_interactions.go:134-145 | a sent row records the text of the last call, as edited or as drafted, and the channel ends with exactly that text |
| DraftMachine.UneditedPostCarriesRowText | cmd/agent/slack_interactions.go:88-94 | an unedited post carries the text the claim returned, message by message, which still is the row's |
| DraftOutcomes.ApprovalPosts | cmd/agent/slack_interactions.go:80-155 | an undisturbed approval of a pending draft posts exactly its text and leaves it sent |
| DraftOutcomes.EditPosts | cmd/agent/slack_interactions.go:178-192 | an undisturbed edit posts what was typed without the white space around it, keeps the drafted text and records the edit beside it |
| DraftOutcomes.ClickIs | cmd/agent/slack_interactions.go:80-83 | a click on a draft that is not pending is taken up only if it is a dismissal |
| DraftOutcomes.LoadedMoves | cmd/agent/slack_interactions.go:51-63 | a click moves the row exactly if that is still pending and the statement takes effect, and to the status that the click asks for; a blank edit does nothing |
| DraftOutcomes.FailedCallIsPending | cmd/agent/slack_interactions.go:124-133 | a failed call leaves the draft pending with the text that it tried to post |
| DraftOutcomes.RegenerationIs | cmd/agent/slack_interactions.go:219-260 | a regeneration leaves the draft pending with the revision, or with its text as it was if the revision is blank |
| TranscriptFold.ChatRuntime.LoadTurnMessages | cmd/agent/loop.go:1738-1758 | reads from the watermark when the transcript is live and the floor unmoved, else from the floor |
| TranscriptFold.ChatRuntime.PrepareTurn | cmd/agent/loop.go:1472-1500 | a moved floor clears the transcript; otherwise unread messages of others are folded in; the watermark advances, and the input is the transcript or else the fallback |
| TranscriptRuns.ReadIs | cmd/agent/loop.go:1738-1758 | a successful read returns, in order, exactly the messages above the floor, without those already seen if the transcript is live, loaded once and from the same floor |
| TranscriptRuns.MovedFloorClears | cmd/agent/loop.go:1475-1500 | after a preparation under a moved floor the context holds the fallback, made from all messages above the new floor, and the opening message, and nothing from before |
| TranscriptFold.OutOfBandItems | cmd/agent/session_context.go:61-76 | folds exactly the non-user messages above the watermark that are not skipped, in order |
| TranscriptFold.MaxSeenMessageID | cmd/agent/session_context.go:78-89 | the largest ID seen |
| TranscriptFold.IncrementalReadIsEnough | cmd/agent/loop.go:1738-1745 | reading only above the watermark folds the same items and gives the same watermark as reading from the floor |
| TranscriptRuns.FallbackIsAllOrNothing | cmd/agent/loop.go:1472-1500 | in every run the fallback is made from all messages between the floor and the start of the transcript, or from none if its first pass could not read, and nothing up to the start is ever folded |
| TranscriptRuns.OutOfBandEntersOnce | cmd/agent/session_context.go:49-76 | whatever reads fail and floors move, a message of others above the start of the transcript enters it exactly once, when the watermark passes it |
| TranscriptRuns.UserMessagesAreNeverFolded | cmd/agent/session_context.go:55-57 | a user's message is never folded, in any run |
| TranscriptRuns.OwnMessagesRepeatIff | cmd/agent/loop.go:2095-2107 | a reply or nudge above the start is in the context exactly once for having been generated or opened a pass that was kept, and once more for having been folded, which takes that it was unread when the loop stopped skipping it, or never known to be skipped, and was read later |
| TranscriptRuns.EachMessageEntersOnce | cmd/agent/loop.go:1472-1500 | with successful reads and known answers, whatever users send, whichever passes are given up or interrupted and however often the context is cleared, every non-user message above the floor is in the context at most once, the fallback included, and exactly once when read unless it opened a pass that was stopped |
| TranscriptExamples.FailedReadRepeatsReply | cmd/agent/loop.go:1747-1750 | one failed read is enough for a reply to enter twice |
| TranscriptExamples.LostNudgeRepeats | cmd/agent/loop.go:2238-2246 | with every read successful, a nudge whose append took effect but reported an error enters twice |
| TranscriptExamples.ReplacedNudgeEntersOnce | cmd/agent/loop.go:1174-1193 | a nudge that a steering message replaces before its pass is folded, and enters once |
| TranscriptExamples.FailedReadForgets | cmd/agent/loop.go:1740-1750 | the witness: a message that was read, and is above the floor, is in no context once the transcript has started over in a pass whose read failed |

## Left out

- Go integers are unbounded here: counters, byte sums and clocks that would have to pass 63 bits to wrap are not followed there.
- Logging, metrics, activity rows, reactions, approval cards and session status are best effort and change no modelled state.
- Git, gzip, tar, JSON, base64, image and URL formats, TLS, Postgres, Kubernetes and Slack transports are replaced by values with failing and succeeding requests; AES-GCM is a value that can be sealed and opened, and SHA-256 is injective.
- Object keys are values rather than strings, so the cleaning that path.Join does to an unusual run prefix or directory name is not followed.
- Negative sizes in a tar header, and files that shrink or grow while they are extracted, cannot occur with content as a sequence of bytes.
- The slice of the event writer is a sequence: appending and compacting in place are modelled, sharing of a backing array and spare capacity are not.
- The JSON text of events and the idempotency keys' randomness: keys are numbered by the counter they are taken at.
- The retries inside one store write of the event writer count as part of that write; so do the retries inside one upload.
- EventWriter.PgEventWriter.FlushProbe: one pass of Flush's loop under the lock; the target taken before the loop and the exits on a finished drainer or an ended context are states of FlushBarrier, where an ended context promises nothing.
- Only one process publishes checkpoints of a run at a time; two pods of the same run are not modelled.
- Cleanup's Git checks of each repository are one verdict per repository, and budgets and timeouts of an attempt are its failures.
- Restoring a checkpoint into a checkout that already has commits (fast-forward and divergence) is not modelled; Restore is into one that has nothing.
- AsyncCoalescing has attempts that succeed, fail or are cut short by a context that has ended, and not the other reasons for failing; what an attempt after a cleanup does to the store is CheckpointRetirement's.
- The broker's ticker, its Unix socket and the desktop side; two reads of the clock in one locked section are one.
- UTF-8 decoding and Unicode case folding: key chords are over ASCII characters and typed text is a sequence of characters.
- Decisions other than target, text and files, and the routing that computes a conversation's key.
- NoticeLease models one run object; a poll visits several, which are independent of each other, and the cache of direct-message channels is not modelled.
- DraftMachine leaves out drafts of the removed inbox feature, which are dismissed without being posted.
- The fallback at the start of a transcript is the messages it is made from: how many of them it keeps is up to agentsdk, which is not part of this model, and so is compaction inside a pass.
- Retry back-off, deadline clamps, name sanitising and role resolution: each is one function without state, and none of the modelled state depends on its result.
