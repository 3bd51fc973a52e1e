# Paperminer: a verified model

Paperminer polls a document server for documents that carry a "todo" tag. A walk lists them and
hands each to a pool of handlers. A handler loads the record of the document version, waits until
its retry time has come, runs the fact extractors, checks that nobody changed the document, sends
a patch and saves the attempt. A failed attempt is retried with growing delays; the last one marks
the document with a "failed" tag. Meanwhile a pruner deletes old records, other programs write to
the server, and notifications wake the poll loop.

The project models these protocols and proves what they keep in every run:

- **Key codec** (`Utf8`, `Quote`, `TaskKey`). The primary key of a record, from bytes to quoted
  strings, with a decoder and a proof that the key tells document versions apart.
- **One attempt** (`Errors`, `Store`, `Backoff`, `History`, `Tasks`). The record, the gate in front
  of an attempt, the conflict check, the saving of the result, pruning and the delay arithmetic.
- **From plugins to patch** (`Extraction`, `Ids`, `Patches`, `PatchBuilder`, `Updater`). Parallel
  plugins, the fall-through over file variants, the patch builder with its pointers, the
  success/failure protocol of one update, and what a patch means for the document.
- **The cataloger at work** (`Cataloger` and the modules named after it). One state machine whose
  actions are the single steps of walks, handlers, pruner, clock and foreign writers. Its
  invariants are proved step by step in one module each (`CatalogerWalk` exclusion,
  `CatalogerConflicts` versions, `CatalogerRecords` records, `CatalogerBackoff` retry times,
  `CatalogerPatches` origin of patches, `CatalogerRetries` retries, `CatalogerOutcomes` outcomes)
  and put together for all runs in `CatalogerTheorems`. `CatalogerAlone` shows that a handler
  nobody disturbs does what the sequential program of `Tasks` and `Updater` does,
  `CatalogerVerdicts` what becomes of its document, `CatalogerGap` what can happen between check
  and patch, `CatalogerCoverage` which documents a walk reaches, `CatalogerPasses` that its walks
  are those of `Walk`, `CatalogerProgress` that walks which reach a document settle it, and
  `CatalogerRuns` and `CatalogerLimits` build the runs that show what is not promised.
- **The walk** (`Walk`): repeated listing up to a fixed point, with its worker pool.
- **Resolver** (`MemProvider`, `Resolver`, `Flights`). Get and get-or-create by name, alone and
  with any number of callers that share flights; `SharedResolvers` says what this means for the
  patches of concurrent attempts.
- **Poller** (`Delays`, `Timers`, `Poller`). Clamping and jitter, the timer and the notify channel,
  and the loop as a state machine.
- **Both together** (`Workflow`). The cataloger under its poll loop, where every poll is one walk.

Code that updates state in the program is a class or a method here, proved equal to a function on
values; the state machines are built from those functions. Times are nanoseconds since the Unix
epoch, byte strings are sequences of numbers below 256, and 64-bit wrap-around is explicit
(`Common.Wrap64`).

In the state machine of the cataloger a document on the server keeps its earlier versions, and some
fields only record the past: `due` the retry times ever set, `maxDelay` the longest delay used, and
`tally`, for each document, how many attempts at its present version passed the gate, how many of
these failed without a fault, and how many met a fault; `settledBy` the attempt whose patch the
server accepted last. A fault is a failing resolution of the two
tags, a failing conflict check, patch request or store write, or an attempt that began on an
outdated listing. The tally starts afresh when anybody else writes the document and when the record
of its present version is pruned.

The leaves of an error are the plain errors inside its wrappers and lists, from left to right; an
error is temporary unless a leaf says that the document is too large or the first failed request
among the leaves was answered with 404.

Where the code and its documentation differ, the model follows the code: the flag
`cataloger_retries_max` is described as the maximum number of retries, but attempts that cannot
resolve the two tags, check or patch the document or save their result are retried for ever
(`CatalogerLimits.RetriedForever`); `build` is said to
return changed fields, but sends an unchanged correspondent, document type or storage path
(`Patches.UnchangedObjectIsSent`); `IsEmpty` is described as its own negation.

## Model

The main results come first; the rows after `Ids.NormalizeIDs` are the operations and the results they
rest on.

| member | source | states |
|---|---|---|
| `CatalogerTheorems.RetryBound` | internal/cataloger/workflow.go:98-131 | In every run, while a document has the todo tag and the two tags differ: of the attempts at its present version that passed the gate, all but max(retriesMax, 0) met a fault, unless one is running; so without faults at most max(retriesMax, 0) + 1 pass |
| `CatalogerTheorems.AttemptsSettle` | internal/cataloger/updater.go:189-199 | Once max(retriesMax, 0) + 1 attempts are over and none met a fault, the todo tag is gone and the document is settled by the attempt whose patch was accepted: it is the target of the facts this attempt extracted, or it is marked as failed and this attempt had an error on its last retry or a permanent one |
| `CatalogerTheorems.TodoGoneMeansSettled` | internal/cataloger/updater.go:128-178 | In every run, a document that lost the todo tag after attempts without faults, and was not written by others since, is settled in that sense by the attempt on record |
| `CatalogerProgress.DeliveriesSettle` | internal/cataloger/workflow.go:98-131 | In every run between two idle points in which a document meets no fault, no foreign write and no prune of its record, and its handlers come when it is due: every walk that delivers it adds exactly one pass, and once max(retriesMax, 0) + 1 did, the todo tag is gone and the document is settled |
| `CatalogerLimits.RetriedForever` | internal/cataloger/workflow.go:98-117 | Faults are retried without limit: from every reachable quiet state, for every kind of fault (tags that do not resolve, failing checks, failing patch requests, failing store writes after an error) and every n there is a run in which n more attempts at a waiting document pass the gate, all meet the fault, and the document still waits unchanged; the record counts n more failures, or none if the store failed |
| `CatalogerLimits.RetriesAreUsed` | internal/cataloger/workflow.go:116 | The bound on attempts is reached: from every reachable quiet state there is a run in which a waiting document uses up all its retries on temporary errors, without a fault, and still waits |
| `CatalogerTheorems.Exclusion` | internal/cataloger/walk.go:25-53 | In every interleaving of walks and handlers no two handlers work on the same document, none runs between walks, and no more run than the pool has workers |
| `CatalogerTheorems.ConflictSafety` | internal/cataloger/updater.go:133-139 | In every run a patch is sent only after a check that read the listed version, and it was computed from that version |
| `CatalogerTheorems.CheckPassesIff` | internal/cataloger/task.go:147-175 | The conflict check passes exactly when it read the version that was listed and the checksums are those the attempt began with, provided every write gives a modification time not used before |
| `CatalogerTheorems.OvertakenNeverPatches` | internal/cataloger/task.go:147-175 | Once a write overtook the check of an attempt, no continuation of the run sends a patch of that attempt, not even the one that marks a failure |
| `CatalogerTheorems.ForeignWritePreventsPatch` | internal/cataloger/task.go:42-55 | A foreign write after the listing and before the check, even of tags only, prevents every patch of the attempt |
| `CatalogerGap.GapHoldsForeignWrites` | internal/cataloger/updater.go:133-139 | In every run from a state in which a handler is at the present version: when it gets to send a patch, the versions between the checked one and the one the patch meets are exactly the foreign writes of the run |
| `CatalogerGap.PatchMeetsCheckedIff` | internal/cataloger/updater.go:133-139 | So the patch meets the version it was checked against exactly when the run holds no foreign write of the document |
| `CatalogerGap.GapBeginsAtRead` | internal/cataloger/task.go:147-156 | The unprotected gap begins with the first request of the check: a write after it that keeps the checksums passes the check, and the patch replaces the tags of a version that was never read |
| `CatalogerTheorems.RecordHistory` | internal/cataloger/task.go:177-201 | In every run every record's retry count, retry time and time stamps follow from its attempts, it stands under its own key, and its attempts do not overlap |
| `CatalogerTheorems.NoLostAttempt` | internal/cataloger/task.go:123-138 | In every run concurrent handlers write different keys, and the record a handler extends is the one in the store; no save overwrites another attempt |
| `CatalogerTheorems.HistoryGrows` | internal/cataloger/task.go:193-198 | Along every run without a prune each record keeps its attempts as a prefix |
| `CatalogerTheorems.BackoffGrows` | internal/cataloger/workflow.go:126-130 | In every run, for every positive poll interval P: when the first m attempts of a record failed and the delay after the m-th fits 64 bits, the next begins more than P (4.5 (1.5^m - 1) - m) after the first ended |
| `CatalogerLimits.WaitsIff` | internal/cataloger/workflow.go:126-130 | Every failure on record is followed by a wait, in all runs of a configuration, exactly when all its delays are positive |
| `CatalogerTheorems.BackoffIsRespected` | internal/cataloger/task.go:131-136 | In every run with delays of at most 24 hours and a nanosecond, no attempt passes the gate before the retry time last set for its document version, even if its record was pruned meanwhile |
| `CatalogerLimits.BackoffHoldsIff` | internal/core/storepruner.go:39-51 | Retry times are respected in all runs of a configuration exactly when none of its delays exceeds 24 hours and a nanosecond |
| `CatalogerTheorems.LongDelayIsForgottenIff` | internal/store/prune.go:13-37 | In every run, for an attempt in front of the gate: a wait and a round of the pruner can open the gate too early exactly when the retry time lies ahead, the last attempt failed and its delay exceeds 24 hours and a nanosecond |
| `CatalogerAlone.UndisturbedAttempt` | internal/cataloger/task.go:203-233 | From every state with a handler at the present version and an open gate, for all findings and all replies to its requests: the handler's moves can run to the end, and then the store is what the sequential processDocument leaves for the error of the update, and the document what the requests of the update leave |
| `CatalogerVerdicts.FactsAreApplied` | internal/cataloger/updater.go:144-167 | An undisturbed attempt whose check and patch succeed turns a tagged document into the target of the facts an update applies, for all findings with such facts, and records a success |
| `CatalogerVerdicts.FailureIsRetried` | internal/cataloger/updater.go:189-199 | An undisturbed attempt that fails to apply facts with a temporary error, while the retry count is below the maximum, leaves the document as it is and records one failure more with its retry time |
| `CatalogerVerdicts.FailureIsMarked` | internal/cataloger/updater.go:189-199 | For every other error, and for all errors from the maximum on, it marks the document as failed if check and patch succeed |
| `Walk.WalkDocuments` | internal/cataloger/walk.go:18-67 | Over any finite set of IDs the walk ends within their number plus one passes; the handlers got every delivered document once, as first delivered, and have ended on every return; a return without error means the last pass delivered only known IDs |
| `CatalogerPasses.WalkEndsWithin` | internal/cataloger/walk.go:29-64 | In every run of the machine a walk over a finite set of IDs ends within their number plus one passes |
| `CatalogerPasses.WalkStartsFirsts` | internal/cataloger/walk.go:32-53 | In every run of a walk from its beginning, the machine starts handlers for exactly the documents that the loop of `Walk` hands out for the same pages: each ID once, as first delivered |
| `CatalogerCoverage.QuiescentPassHandlesAll` | internal/cataloger/walk.go:29-63 | A pass during which no document changes and whose pages cover the tagged documents has, when its pages are used up, handed every document that still has the tag to a handler of the walk |
| `TaskKey.KeyInjective` | internal/store/document.go:39-60 | Two records have equal keys exactly when ID, both times in microseconds and both checksums agree |
| `TaskKey.DecodeInvertsKey` | internal/store/document.go:39-60 | The key can be decoded: all five fields are recovered, although the two strings have no separator |
| `Quote.QuoteRoundTrip` | internal/store/document.go:52-57 | Every byte string, well-formed UTF-8 or not, is recovered from its quoted form, and reading stops at the closing quote whatever follows |
| `Quote.QuotePrefixFree` | internal/store/document.go:52-57 | No quoted form is a prefix of another |
| `Quote.QuotedRune` | internal/store/document.go:56 | What is written for a rune: quote and backslash behind a backslash, printable ASCII as itself, seven control characters by letter, the others by x and two lower-case hexadecimal digits, all else by u and four or U and eight, and then the rest of the string |
| `Quote.QuotedBrokenByte` | internal/store/document.go:56 | A byte that begins no encoding of a rune is written by x and two digits |
| `Quote.PlainQuoted` | internal/store/document.go:56 | A string of printable ASCII without quote and backslash is quoted as itself between two quotes |
| `TaskKey.KeyIsPlain` | internal/store/document.go:39-60 | The key of a record with such checksums and times in range, byte by byte: ID and both times in microseconds as eight bytes each, the lowest first, a zero, and the two checksums in quotes |
| `Flights.CreatedAtMostOnce` | internal/objectresolver/resolver.go:70-88 | In every interleaving of any number of callers, who may join until the flight has landed, each name is created at most once, and a create request never finds the name taken |
| `Flights.LeaderSucceeds` | internal/objectresolver/resolver.go:70-88 | A get-or-create call that leads its own flight succeeds |
| `Flights.JoinersGetLeadersResult` | internal/objectresolver/resolver.go:31-41 | Callers that share a flight return the same result |
| `Flights.SuccessesAgree` | internal/objectresolver/memprovider.go:35-70 | Over a whole run successful callers get the same object exactly when they asked for the same name, and different objects have different IDs |
| `SharedResolvers.SameNameSameId` | internal/objectresolver/resolver.go:31-88 | Over a whole run of a resolver, two attempts, however they interleave, get the same ID exactly for the same name |
| `Flights.GetOrCreateFailsIff` | internal/objectresolver/resolver.go:64-88 | A byte that begins no encoding of a rune is written by x and two digits |
| `Flights.FlightsLand` | internal/objectresolver/resolver.go:31-41 | A flight can always go on, lands within four steps of its own whatever the others do, and then all its callers can return |
| `Poller.NoLostNotification` | internal/poller/poller.go:81-119 | In every run a notification sent since the latest poll began is in the channel, or the loop can do nothing but poll next |
| `Poller.NotifiedPollFollows` | internal/poller/poller.go:84-118 | After a notification the loop can always go on without the timer, and within three of its own steps it polls |
| `Poller.NotificationsBoundPolls` | internal/poller/poller.go:87-109 | Notifications never cause more polls than there were calls |
| `Poller.NoStaleTick` | internal/poller/poller.go:98-117 | In every run the timer is stopped and its channel empty at every reset, and a sleep that ends by the timer lasted until its deadline |
| `Poller.PollSpacing` | internal/poller/poller.go:81-119 | With a maximum delay in that range, in every run polls that no notification asked for are each at least (1 - J/2) times the minimum delay, and at least 1 ns, after the one before |
| `Poller.SleepEnds` | internal/poller/poller.go:92-110 | In every run with a maximum and delays in range a sleep is at most (1 + J/2) times the maximum: that long after it was armed the tick is there or the timer can fire |
| `Poller.CancelledLoopReturns` | internal/poller/poller.go:84-110 | Once its context is cancelled, the loop can go on without the timer and, unless it is notified again, returns within seven of its own steps |
| `Delays.DelayIsNear` | internal/poller/poller.go:40-56 | A wanted delay within the bounds is changed by at most J/2 of itself and not at all without jitter; the same holds around the minimum for one below and around the maximum for one above; a distorted delay that does not fit 64 bits comes out negative |
| `Delays.DelayBounds` | internal/poller/poller.go:40-56 | The delay is at least 1 ns, at least (1 - J/2) times the minimum and at most (1 + J/2) times the maximum, exactly when the distorted delay fits 64 bits |
| `Delays.AllFitIff` | internal/poller/poller.go:53-55 | Every random distortion of a wanted delay fits 64 bits exactly when the clamped delay, extended by half the jitter, is at most 2^63 |
| `Workflow.WalksDoNotOverlap` | internal/cataloger/workflow.go:160-181 | In every run of cataloger and poll loop together, no walk goes on and no handler runs when a poll starts its walk, nor outside polls |
| `Workflow.NotificationIsAnswered` | internal/cataloger/workflow.go:91-96 | A notification is answered by a poll that begins within three steps of the loop and whose walk starts after it |
| `Workflow.PartsAreReachable` | internal/cataloger/workflow.go:160-181 | In such runs the cataloger and the poller each go through runs of their own, so that all their theorems apply |
| `Patches.PatchMeaning` | internal/cataloger/patchbuilder.go:88-185 | The patch exists exactly when all names resolve, and applying it gives the document the facts ask for: given title and time, resolved or cleared objects, tags (old + set) - unset - removed |
| `Patches.SecondPatchHasNoEffect` | internal/cataloger/patchbuilder.go:157-185 | Building again from the patched document with the same facts and answers changes nothing |
| `Updater.FailureIsolation` | internal/cataloger/updater.go:128-199 | On every path at most one patch succeeds and it is the last request, every patch follows a check that passed, and a patch that marks a failure is the one of the original document |
| `Updater.Updater.Do` | internal/cataloger/updater.go:189-199 | For all findings and replies: the requests and the error are those of applying the facts, when that went well, or failed with a temporary error while it is not the last retry; otherwise those of marking the document as failed follow, and its error is returned |
| `Updater.PreparedIff` | internal/cataloger/updater.go:144-167 | There is a patch for the facts exactly when the files are within the limit, the extraction comes to facts or to none without failing, and all names resolve; it leads to the target of these facts without the todo and failed tags |
| `Updater.PreparedError` | internal/cataloger/updater.go:144-167 | Otherwise the leaves of the error are too-large for the size, or those of the first name that does not resolve, or those of all failing file variants in order |
| `Updater.StartDecision` | internal/cataloger/updater.go:189-199 | When there is no patch, the update gives up with the error exactly when it is not the last retry, no leaf of the error is too-large and its first failed request was not answered with 404; otherwise the failed mark is submitted |
| `Updater.SendErrorDecision` | internal/cataloger/updater.go:189-199 | The same after a failed check or patch of the facts; an error of marking is final |
| `Extraction.Extract` | internal/facter/group.go:56-92 | For every completion order of the plugins, results and errors are those of running them one after the other |
| `Extraction.FirstFactsMeaning` | internal/document/facts.go:20-43 | The facts are those that the first variant to find any finds; an error is returned exactly when none finds any and one fails, and its leaves are those of all failing variants in order |
| `Extraction.VariantFactsMeaning` | internal/document/variantfacts.go:81-105 | A variant comes to an error exactly when its file cannot be read, its removal fails, a plugin fails, or two plugins return facts with some property set; otherwise to the facts of the only plugin that returned any, under its name unless they name a reporter, or to none |
| `Ids.NormalizeIDs` | internal/cataloger/patchbuilder.go:16-26 | The result is the one strictly increasing list with the elements of the input |
| `CatalogerTheorems.PatchSettles` | internal/cataloger/updater.go:128-142 | A patch that meets the version it was computed from gives the target of the facts, or the failed mark and nothing else |
| `CatalogerOutcomes.SettlementRecordsSender` | internal/cataloger/updater.go:133-141 | The attempt on record is the one whose patch the server accepted last; only an accepted patch sets it and only a foreign write drops it |
| `CatalogerOutcomes.FindingsAreExtracted` | internal/cataloger/updater.go:144-162 | The findings of an attempt are what its extraction step found |
| `CatalogerTheorems.UpdaterFailureLeavesDocument` | internal/cataloger/workflow.go:99-114 | One failing resolution of the two tags adds a failure to the record and leaves the server as it was |
| `CatalogerTheorems.GapOverwritesTags` | internal/cataloger/updater.go:133-139 | A write after the whole check does not stop the patch either, which then replaces the tags of a version that was never checked |
| `CatalogerLimits.ThirteenHoursAreForgotten` | internal/cataloger/workflow.go:126-130 | A poll interval of 13 hours, which no flag forbids, waits 26 hours after the first failure, and a reachable state lets an attempt through earlier |
| `CatalogerLimits.ThirteenHoursLoseBackoff` | internal/cataloger/workflow.go:126-130 | With a poll interval of 13 hours a reachable record with 30 failures has a retry time in the past, because the product wrapped around, and the gate is open at once |
| `CatalogerLimits.ManyFailuresAreForgotten` | internal/cataloger/workflow.go:126-130 | The same happens for every poll interval from 0.2 seconds to an hour after enough failures |
| `CatalogerTheorems.StepInv` | internal/cataloger/walk.go:18-67 | Every step of every actor keeps all invariants of the cataloger together |
| `CatalogerRecords.KeyTellsId` | internal/store/document.go:39-60 | Equal keys belong to the same document ID |
| `CatalogerRecords.GateGivesReadyJob` | internal/cataloger/task.go:127-138 | The record behind an open gate is fresh or consistent, was updated before the attempt began, and is due |
| `CatalogerRecords.HistoryIsAppendOnly` | internal/cataloger/task.go:193-194 | A step keeps the attempts of every record as a prefix, and only a prune removes records, namely expired ones |
| `CatalogerBackoff.PruneForgetsNothing` | internal/core/storepruner.go:39-51 | Deleting what was not updated for a day forgets no retry time that lies ahead, if no delay exceeded that limit |
| `CatalogerPatches.PatchRemovesTodo` | internal/cataloger/updater.go:164-177 | Whatever version it is applied to, a patch computed from a document with the todo tag removes that tag |
| `CatalogerPatches.StartSendsOrFails` | internal/cataloger/updater.go:189-199 | An update of a document with the todo tag sends a patch, or returns an error while retries are left |
| `CatalogerOutcomes.PatchSettlesDocument` | internal/cataloger/updater.go:144-178 | A patch computed from the present version settles the document |
| `CatalogerCoverage.DeliveredIsSeen` | internal/cataloger/walk.go:32-39 | In every run within one walk, everything that pages delivered has been handed out when the last page is used up |
| `CatalogerCoverage.SeenStartsHandler` | internal/cataloger/walk.go:38-41 | A document is recorded as seen only together with the start of a handler for it |
| `CatalogerAlone.Updating` | internal/cataloger/updater.go:128-199 | The same from every point of an update, so that what is proved of the requests of an update holds of the handler's moves |
| `Walk.Pass` | internal/cataloger/walk.go:32-55 | A listing starts a handler for exactly the documents with new IDs and reports whether there were any |
| `Walk.Pool.Go` | internal/cataloger/walk.go:25-41 | Starting a handler waits for another to end if the pool is full |
| `Walk.FirstsMeaning` | internal/cataloger/walk.go:33-39 | The handled documents have the IDs delivered, each once |
| `Walk.FirstsAreFirst` | internal/cataloger/walk.go:33-39 | Each was handled as the first copy delivered under its ID |
| `Walk.QuiescentWalkIsComplete` | internal/cataloger/walk.go:58-63 | If the last listing of a walk without error delivered every tagged document, the documents handled before it were all of them |
| `Tasks.Task.CheckModified` | internal/cataloger/task.go:147-175 | No error exactly when both requests succeed and ID, the three times, title, content, both checksums and the presence of an archive are as they were; tags are not compared; otherwise the error of the request, or the conflict |
| `Tasks.Task.SaveResult` | internal/cataloger/task.go:177-201 | Appends the attempt, counts and delays after an error, and writes the record unless the store fails |
| `Tasks.LoadTask` | internal/cataloger/task.go:89-141 | An error exactly when a request fails; otherwise the task with its stored or fresh record, or none before the retry time |
| `Tasks.ProcessDocument` | internal/cataloger/task.go:203-233 | The store changes by exactly one saved attempt when the gate is open and nothing fails, and else not at all |
| `Tasks.GateOpensWhenDue` | internal/cataloger/task.go:127-136 | The gate opens exactly when there is no record or its retry time has come |
| `Tasks.DocumentKeyFields` | internal/cataloger/task.go:111-125 | The key under which an attempt is recorded decodes to the ID, times and checksums of the listed document |
| `History.SaveKeepsConsistent` | internal/cataloger/task.go:187-194 | A saved record stays consistent with its attempts, extends them and keeps its key |
| `History.AttemptsDoNotOverlap` | internal/store/document.go:10-15 | Of two attempts of a consistent record the earlier ended before the later began |
| `History.DelaysAddUp` | internal/cataloger/task.go:187-190 | After m failures in a row the next attempt waited for the sum of m delays |
| `Backoff.DelayFitsIff` | internal/cataloger/workflow.go:126-130 | The delay after k failures is P floor(1.5^(k+2)), and a positive one, exactly when P is positive and the product fits 64 bits |
| `Backoff.HourFits` | internal/cataloger/workflow.go:18-19 | Poll intervals of up to an hour fit for up to 31 earlier failures |
| `Backoff.ThirteenHoursWrap` | internal/cataloger/workflow.go:126-130 | The thirtieth delay of a poll interval of 13 hours is negative |
| `Backoff.DelayIncreases` | internal/cataloger/workflow.go:126-130 | As long as the delays fit 64 bits, each further failure waits at least one poll interval longer |
| `Backoff.TotalDelayBound` | internal/cataloger/workflow.go:126-130 | As long as they fit, the first m delays sum to more than P (4.5 (1.5^m - 1) - m) |
| `Store.Store.Prune` | internal/store/prune.go:13-37 | Deletes exactly the records updated before the cutoff, or nothing when the transaction fails |
| `Store.PruneKeepsExactly` | internal/store/prune.go:14-34 | A prune keeps, unchanged, exactly the records updated at or after the cutoff |
| `Store.PrunesCompose` | internal/core/storepruner.go:45-49 | Two prunes have the effect of the one with the later cutoff |
| `TaskKey.Key` | internal/store/document.go:39-60 | The buffer built step by step is the encoding of ID, both times in microseconds and both checksums, given byte by byte for plain checksums |
| `TaskKey.Int64RoundTrip` | internal/store/document.go:42-46 | Signed 64-bit integers survive the little-endian two's-complement form |
| `TaskKey.PutInt64Bytes` | internal/store/document.go:42-46 | The eight bytes of an integer, lowest first |
| `TaskKey.KeyIsAsciiBehindHeader` | internal/store/document.go:39-60 | Every key is three integers, a zero byte and printable ASCII: the quoted checksums |
| `Quote.QuotedIsAscii` | internal/store/document.go:56 | Nothing but printable ASCII is written |
| `TaskKey.MicrosecondsTellApart` | internal/store/document.go:44-45 | Times within range that differ by a microsecond give different keys |
| `Utf8.DecodeInvertsEncode` | internal/store/document.go:56 | A decoded rune encodes to exactly the bytes it was read from |
| `Utf8.DecodesEncoded` | internal/store/document.go:56 | The encoding of every rune is decoded to it, whatever follows |
| `Utf8.BrokenIff` | internal/store/document.go:56 | A byte counts as broken exactly when no rune is encoded there |
| `Utf8.EncodingExamples` | internal/store/document.go:56 | Characters of section 7 of RFC 3629 |
| `Errors.PermanentIff` | internal/cataloger/updater.go:180-187 | However errors are wrapped and joined, one is permanent exactly when a leaf says too large or the first failed request found nothing |
| `Errors.AppendLeaves` | internal/document/facts.go:26 | Collecting an error adds its leaves behind those collected before |
| `Errors.EarlierRequestHidesNotFound` | internal/cataloger/updater.go:182-187 | A failed request that comes first hides a later not-found answer |
| `Updater.NewUpdater` | internal/cataloger/updater.go:54-71 | Succeeds exactly when both tags resolve, in either order |
| `Updater.Updater.CheckSize` | internal/cataloger/updater.go:73-94 | No error exactly when the original and an existing archive version are within the limit |
| `Updater.Updater.PatchDocument` | internal/cataloger/updater.go:128-142 | An empty patch makes no request; otherwise the check comes first and only then the patch |
| `Updater.Updater.DoApplyFacts` | internal/cataloger/updater.go:144-167 | Requests and error: none but the error of preparing when there is no patch, else those of submitting it; `Updater.PreparedIff` and `Updater.PreparedError` say when |
| `Updater.Updater.DoMarkFailed` | internal/cataloger/updater.go:169-178 | Sends the patch computed from the original document alone |
| `Updater.FailedPatchMeaning` | internal/cataloger/updater.go:169-178 | The failure patch holds at most the tags: failed is set and todo removed unless the two are one; it is empty exactly when that changes nothing |
| `Updater.PreparedMeaning` | internal/cataloger/updater.go:144-167 | A prepared patch leads to the target of the facts without the todo and failed tags, and the files were not too large |
| `Updater.FoundFactsMeaning` | internal/cataloger/updater.go:96-126 | The facts to apply: those of an existing archived file that finds any, else those of the original, else none unless one of them failed |
| `Updater.NotFoundMarks` | internal/cataloger/updater.go:180-199 | A download answered with 404 marks a tagged document as failed at the first attempt; another status is returned for a retry while retries are left |
| `Updater.OutcomeFollows` | internal/cataloger/updater.go:189-199 | The same as for `Do`, about the step protocol |
| `Updater.FactsReachDocument` | internal/cataloger/updater.go:144-167 | Facts that an update applies are sent to a tagged document right after a check that passes, and nothing else is |
| `Updater.LastRetrySettles` | internal/cataloger/workflow.go:116 | On the last retry a document with the todo tag loses it, whatever the extraction does, if check and patch succeed |
| `Patches.EmptyPatchIff` | internal/cataloger/updater.go:129-131 | The patch is empty exactly when the document is its own target and no object was named |
| `Patches.UnchangedObjectIsSent` | internal/cataloger/patchbuilder.go:130-141 | An unchanged correspondent is sent all the same |
| `Patches.SentFields` | internal/cataloger/patchbuilder.go:130-185 | Which fields are sent: a given title or time that differs, every resolved object, a cleared object if there is one, the tags if the set changes |
| `Patches.BuiltTags` | internal/cataloger/patchbuilder.go:180-182 | Tags are sent, as a strictly increasing list, exactly when the tag set changes |
| `Patches.SetFactsMeaning` | internal/cataloger/patchbuilder.go:88-128 | Setting facts succeeds exactly when all names resolve, and then holds all of them, unsetting after setting; else the leaves of the error are those of the first name looked up that does not resolve |
| `Patches.SetNamesMeaning` | internal/cataloger/patchbuilder.go:110-125 | A list of tag names is applied in full, or stops with the error of the first name that does not resolve |
| `PatchBuilder.SetObjectFact` | internal/cataloger/patchbuilder.go:65-86 | Leaves the field out, clears it or points it to a new variable holding the resolved ID; an error leaves it as it was |
| `PatchBuilder.PointersDecide` | internal/cataloger/patchbuilder.go:130-141 | Comparing pointers sends every resolved ID, and a cleared object only if there was one |
| `PatchBuilder.PointersAreNotIds` | internal/cataloger/patchbuilder.go:136 | Comparing the IDs instead would give another patch |
| `SharedResolvers.SameCorrespondent` | internal/cataloger/patchbuilder.go:65-96 | Two documents whose patches were applied have the same correspondent exactly when their facts name the same |
| `SharedResolvers.SameTag` | internal/cataloger/patchbuilder.go:110-125 | A tag set by one attempt and unset by another under the same name is one tag |
| `PatchBuilder.PatchBuilder.SetFacts` | internal/cataloger/patchbuilder.go:88-128 | Fields and error are those of the function whose meaning is proved |
| `PatchBuilder.PatchBuilder.Build` | internal/cataloger/patchbuilder.go:157-185 | The patch does not depend on the order in which the tag map is read |
| `Ids.Sort` | internal/cataloger/patchbuilder.go:23 | Sorts in place and keeps the elements |
| `Ids.Compact` | internal/cataloger/patchbuilder.go:25 | Moves one copy of each value to the front, in order |
| `Ids.CanonicalUnique` | internal/cataloger/patchbuilder.go:16-26 | A set has only one strictly increasing list |
| `Ids.CanonicalIff` | internal/cataloger/patchbuilder.go:16-26 | Two lists normalise equally exactly when they have the same elements |
| `Extraction.SequentialMeaning` | internal/facter/group.go:70-82 | The results are the non-empty facts of plugins without error, in order, and there is an error exactly when a plugin failed |
| `Extraction.CandidatesMeaning` | internal/facter/group.go:70-82 | The results are what the plugins said that succeeded and set some property, each with a reporter; how many there are tells whether none, one or several did |
| `Extraction.YieldsIff` | internal/document/facts.go:30 | A variant yields facts exactly when nothing failed and a plugin returned some; they are never empty and name their reporter |
| `Extraction.VariantLeaves` | internal/document/variantfacts.go:81-105 | The leaves of its error are those of the download, of the failing plugins in order, or of the choice among several, and then of the removal |
| `Extraction.ExtractFacts` | internal/document/facts.go:20-43 | The loop returns the facts of the first variant that finds any; it fails exactly when none does and one fails, with the errors of all |
| `Extraction.ArchivedFirst` | internal/cataloger/updater.go:96-126 | An existing archived file is preferred to the original, which alone decides when it finds nothing or does not exist |
| `MemProvider.MemProvider.Create` | internal/objectresolver/memprovider.go:35-46 | Fails exactly when the name exists; otherwise adds one object with a new ID, so IDs stay distinct |
| `Resolver.GetFirst` | internal/objectresolver/resolver.go:43-53 | Succeeds for exactly one object; not-found for none |
| `Resolver.GetOrCreateSucceedsIff` | internal/objectresolver/resolver.go:70-88 | Get-or-create succeeds exactly when the object was there as the only one, or the listing found none, it could be created and then was there as the only one |
| `Resolver.GetOrCreateLeaves` | internal/objectresolver/resolver.go:70-88 | A failing get-or-create keeps the leaves of the answer it failed at |
| `Resolver.NotFoundLeaves` | internal/objectresolver/resolver.go:74 | An error is a not-found error exactly when one of its leaves is |
| `Resolver.GetByName` | internal/objectresolver/resolver.go:55-68 | Succeeds exactly when the request does and the object exists |
| `Resolver.GetOrCreateByName` | internal/objectresolver/resolver.go:70-88 | Without faults always returns the object of the name, which it created only if there was none |
| `Flights.JoinerMayGetNotFound` | internal/objectresolver/resolver.go:64-71 | That case happens, from every initial state without the name |
| `Delays.Prepare` | internal/poller/poller.go:59-73 | Options are refused exactly when a function is missing or the jitter is out of range; a minimum of 0 becomes a second |
| `Delays.NextDelay` | internal/poller/poller.go:40-56 | The wanted delay within the bounds, or else the bound it exceeds, plus the truncation of itself times J (random - 1/2), cut down to 64 bits; without jitter itself |
| `Delays.DistortedMeaning` | internal/poller/poller.go:53-55 | A distorted delay stays within half the jitter of its base, or does not fit 64 bits and is negative |
| `Delays.TruncateMeaning` | internal/poller/poller.go:55 | Truncation keeps the sign and drops less than 1 |
| `Delays.MinuteStaysMinute` | internal/cataloger/workflow.go:170-176 | With the bounds of the cataloger a minute is a minute at the centre of the jitter |
| `Delays.MaximumDecides` | internal/poller/poller.go:43-55 | With a maximum, all wanted delays are in range exactly when (1 + J/2) times the maximum is at most 2^63 |
| `Delays.ProgramDelaysInRange` | internal/cataloger/workflow.go:170-176 | The bounds of the cataloger satisfy this for whatever its flag asks, and so does the hourly delay of the pruner, which has no maximum |
| `Delays.LongDelayWraps` | internal/poller/poller.go:53-55 | Without a maximum a long wanted delay can come out negative |
| `Timers.StopAndDrain` | internal/poller/poller.go:112-117 | After stopping and draining, the timer is stopped and its channel empty |
| `Timers.StartTimer` | internal/poller/poller.go:98-103 | Making a timer, or resetting the stopped and drained one, leaves it armed with an empty channel |
| `Poller.SpacingUpTo` | internal/poller/poller.go:81-119 | The same without a maximum, for every run whose longest wanted delay is in range |
| `Poller.ArmedDeadline` | internal/poller/poller.go:92-103 | Arming sets the deadline near the wanted delay, or near the bound it exceeds, from the present time |
| `Poller.ReturnsOnlyCancelled` | internal/poller/poller.go:84-110 | The loop returns for no other reason than cancellation |
| `Timers.Notifications.NotifyPostConsume` | internal/cataloger/workflow.go:91-96 | A notification leaves a token in the channel and never blocks |

## Left out

- The poll loop never ends on its own, so it is a state machine over its steps and not a method; the mapping of a cancelled context to a nil error around it is not modelled.
- Poller.PollSpacing: asks for a maximum delay which, extended by half the jitter, is at most 2^63 ns; `Delays.AllFitIff` shows that beyond it some random number makes the delay wrap around.
- CatalogerTheorems.RetryBound: counts an attempt that began on an outdated listing, or met a failing request or store write, as a fault instead of excluding it; the two tags must resolve to different IDs.
- CatalogerTheorems.CheckPassesIff: relies on the server giving every write a modification time the document never had; nothing is claimed for a server that reuses one.
- CatalogerTheorems.BackoffGrows: asks that the last delay fits 64 bits; `Backoff.DelayFitsIff` says exactly when delays do, and `CatalogerLimits.ThirteenHoursLoseBackoff` what happens otherwise. 1.5 is raised to a power exactly, as the floating-point power is for exponents up to 33; the rounding of greater powers is not modelled. Flags do not limit the poll interval in this formula, although the poller clamps its own use of it.
- Flights.CreatedAtMostOnce: holds for the in-memory provider, which compares names exactly; the server ignores case when it looks names up, so two names that differ in case are two flights for one object.
- Resolver.GetOrCreateByName: answers of a server that lists several objects of a name are covered by `GetOrCreateSucceedsIff` only.
- Walk.QuiescentWalkIsComplete: takes as a hypothesis what the last listing delivered; `CatalogerCoverage.QuiescentPassHandlesAll` is the statement for pages that read the server. A listing disturbed by concurrent changes may miss documents.
- The wrap-around of the provider's 64-bit ID counter, and the `set` operation of the provider, which only tests use.
- The wording of error messages is shortened; which errors are wrapped and joined is not.
- Reading the clock and writing the record at the end of an attempt are one step; so are sending a patch and its application by the server. A patch the server carried out although its request failed is covered.
- A document deleted from the server appears as failing requests only.
- The two checksums, the ID and the times of the snapshot are compared as values; its JSON form, and so the loss of invalid UTF-8 and of time zones in it, is not modelled.
- Names resolve to one answer each within one call of `setFacts`; `SharedResolvers` relates the answers of different calls for the in-memory provider.
- The facts of a plugin are values; that a reporter is written through a pointer shared with the plugin is not visible.
- Octal escapes and raw newlines are not read back by the unquoter; quoting never writes them.
- A timer that fires puts its tick into the channel at the same moment.
- Records found in the store at the start of a run are assumed to have been written by earlier runs with the same poll interval.
- HTTP, pagination, logging, metrics, flags, downloads and temporary files, the parsing of document files, panics and time-outs: plumbing, or outcomes the model leaves open.
- Permissions of created objects, the providers of the single object kinds, and the group and store plumbing: thin, or repeats of what is proved.
