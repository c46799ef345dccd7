# SightMesh: proofs about the task kernel, the evidence index, succession and leases

SightMesh keeps its truth in SQLite rows that many writers touch at once: SDK callers, a reconciler,
several pumps, crashed owners. These Dafny modules model those rows and the transactions that move
them, and prove what the design relies on. A table is a map or a sequence of rows, one
`BEGIN IMMEDIATE` block is one step, the clock is a parameter, a fresh identifier is the next number,
and a crash is a run that stops. Where the source updates rows in place there is a class whose
methods are proved against a function from the old state to the new one; runs fold that function
over arbitrary operations, and the main results are invariants of every run, together with what
each operation is sure to get done.

`dafny verify dfyconfig.toml` checks everything.

| module | about |
|---|---|
| `Sequences`, `Utf8` | joined pieces; encoding and the incremental decoder (section 3 of RFC 3629) |
| `EvidenceSearch` | windows over frames and artifact chunks; search against naive substring search |
| `EvidenceSync` | page validation and racing syncs that keep a confirmed prefix |
| `Streaming` | the two line reassemblers against splitting the whole text |
| `TaskStore` | task rows, guarded transitions, failover and its termination |
| `Wakes`, `WakeRuns` | the wake outbox and its runs: no child event lost, claim fencing |
| `WakeProgress`, `Reports` | that due wakes are delivered and unheard events told, and exactly what is reported when |
| `StallEpisodes` | at most two stall wakes for each episode, losses told once |
| `EffectJournal`, `LaunchRaces` | launch leases, and launches that come back to a task that moved |
| `History` | sparse history that replays to the row |
| `Reservations` | reservation batches, child limits, the parent forest |
| `Succession`, `Handoff` | the successor forest and the crash-restartable handoff |
| `Leases` | stored leases never conflict, expired ones included |
| `Detector` | fairness of the rotating scan |

## What the proofs found

- **Failover is bounded only without uncharged blocks.** `sdk.blocked()` and the approval timeout
  (`durable.py:779-782`) block a task without charging an attempt, and `prepare_replacement` continues
  a blocked task for free. The exact bound is `epoch <= attempts + 1 + unpaid`, where `unpaid` counts
  those blocks and operator replacements of a running worker; for every `n` there is a run with `n`
  such blocks, no operator and no attempt spent that opens `n` more epochs, each past an outcome that
  was recorded while the epoch before it was active.
- **An operator can spend the last attempt on a live row.** Resuming an automatic replacement
  (`sdk.py:571-579`) adds an attempt without the circuit breaker's check. A failure can then no longer
  be recorded: it is recorded if and only if an attempt is left.
- **A bare `store.finish` is not heard.** `expire_reservations` (`effects.py:496-501`) loses a task
  outside `finish_with_wake`. Its parent's predicate is armed by the next rescan if and only if an
  earlier event is still unheard or a wake for it is still live; for an only child neither holds.
- **A terminal row under a task that did not move.** A workspace that a launch returns is recorded
  unless the journal row ended while the task's epoch and version stayed; then `mark_launched` raises
  and nothing names the workspace. It takes a cut between two commits: a sweep that has retired the
  reservation (`effects.py:494`) and not yet finished the task (`effects.py:496`), or a rejection that
  has recorded its outcome and not yet blocked it (`sdk.py:1333-1343`).
- **The status comparison alone does not keep the prefix.** A caller re-reads the status outside its
  own commit, so the comparison can pass for a frame another caller stored; the uniqueness of
  `(source_key, frame_start)` is what refuses it.
- **Handoff keys need the key in the record.** Archiving (`cli/workspaces.py:68-70`) retires a session
  without a logical key. Two handoffs of such a source under different keys give its successor two
  copies of one command; with a recorded key there is at most one.
- **`change` blocks of one row should not nest.** The savepoint in `history.change` would allow it, and
  no present caller does it. A block inside another of the same row makes the history misreport a
  column exactly when the outer block leaves the value it found while the inner one left another.

## Model

| member | source | states |
|---|---|---|
| Utf8.DecodeOfEncoded | src/sightmesh/evidence_index.py:631-640 | decoding encoded characters followed by an unfinished one gives those characters and keeps the rest pending |
| Utf8.DecodedIsEncoded | src/sightmesh/evidence_index.py:631-640 | what the decoder accepts is the encoding of its text, followed by the pending bytes |
| Utf8.DecodeContinues | src/sightmesh/evidence_index.py:331-336 | decoding chunk by chunk with the pending bytes carried over equals decoding the concatenation |
| Utf8.InvalidContinues | src/sightmesh/evidence_index.py:336 | bytes once refused are refused with any continuation |
| Utf8.ByteMatchIsCharacterMatch | src/sightmesh/evidence_index.py:452-476 | a byte occurrence of an encoded query in encoded text lies on character boundaries |
| Utf8.CharacterMatchIsByteMatch | src/sightmesh/evidence_index.py:452-476 | a character match is a byte occurrence at its byte offset |
| Utf8.EncodedLength | src/sightmesh/evidence_index.py:38-39 | a text of n characters takes between n and 4n bytes, the bound behind the overlap |
| EvidenceSearch.Utf8Window | src/sightmesh/evidence_index.py:631-640 | the skipping loop computes the specified window |
| EvidenceSearch.WindowText | src/sightmesh/evidence_index.py:631-640 | a window cut anywhere out of a valid source is exactly the whole characters inside it |
| EvidenceSearch.FirstOwned | src/sightmesh/evidence_index.py:452-462 | the find loop returns the first match that ends past the overlap, or that there is none |
| EvidenceSearch.FirstOwnedIsNaive | src/sightmesh/evidence_index.py:452-476 | that match is the first occurrence in the whole source whose end the frame owns |
| EvidenceSearch.SearchRow | src/sightmesh/evidence_index.py:425-485 | one candidate row: digest check, decoding and the offsets of its hit |
| EvidenceSearch.FrameSearchIsNaive | src/sightmesh/evidence_index.py:214-223 | a frame yields a hit if and only if an occurrence of the query ends in its raw range, and the hit is the first such occurrence at its true offsets |
| EvidenceSearch.OwningRow | src/sightmesh/evidence_index.py:204-223 | every end offset of an indexed prefix lies in exactly one frame |
| EvidenceSearch.SearchIsNaive | src/sightmesh/evidence_index.py:370-497 | an occurrence that ends in the indexed prefix, however it straddles frames, belongs to one row, which is a candidate and yields a hit |
| EvidenceSearch.CandidatesAfter | src/sightmesh/evidence_index.py:412-423 | continuing after the last candidate of a page gives exactly the remaining candidates |
| EvidenceSearch.CandidatesAreAll | src/sightmesh/evidence_index.py:391-414 | candidates come in row order and none that passes the filters is missing |
| EvidenceSearch.Index.Select | src/sightmesh/evidence_index.py:391-414 | the statement returns the first limit + 1 candidates past the cursor that pass the filters, whatever these are |
| EvidenceSearch.Index.SearchEach | src/sightmesh/evidence_index.py:424-485 | the row loop keeps the hits of its candidates in order |
| EvidenceSearch.Index.Search | src/sightmesh/evidence_index.py:370-497 | refused exactly for an unusable query, limit or cursor; otherwise one page of hits and the cursor of the next, or none when nothing is left |
| EvidenceSearch.FollowedPagesAreOne | src/sightmesh/evidence_index.py:423-485 | pages that follow next_after until there is none search every candidate once |
| EvidenceSearch.FollowedSearchIsNaive | src/sightmesh/evidence_index.py:370-497 | following next_after from zero gives, in row order, exactly one hit for each kept row that owns an occurrence, the first one it owns |
| EvidenceSearch.ChunkWindow | src/sightmesh/evidence_index.py:334-354 | tail plus chunk is the window of a frame of the concatenated stream |
| EvidenceSearch.StreamChunk | src/sightmesh/evidence_index.py:335-354 | one turn of the artifact loop indexes one more frame, and refuses only what no continuation can repair |
| EvidenceSearch.Index.SyncArtifact | src/sightmesh/evidence_index.py:296-368 | an artifact is indexed whole, in frames of its chunks, if and only if these are bounded, match the size and digest of its receipt and are UTF-8; a complete one is left alone and refused under another receipt |
| EvidenceSearch.Index.IndexStream | src/sightmesh/evidence.py:94-111 | the loop over verified chunks indexes them all, or stops at a chunk or a size it must refuse, or at bytes that are not UTF-8 |
| EvidenceSync.ValidatePage | src/sightmesh/evidence_stream.py:41-117 | a page is accepted if and only if its frames continue the confirmed prefix one after another and cursor, outcome and end agree |
| EvidenceSync.SourceTables.Commit | src/sightmesh/evidence_index.py:244-287 | one frame is stored if and only if the whole status is as expected and its start is not taken; otherwise nothing changes |
| EvidenceSync.SourceTables.FinishPage | src/sightmesh/evidence_index.py:225-235 | the closing update applies only while the cursor is that page's |
| EvidenceSync.SourceTables.MarkUnavailable | src/sightmesh/evidence_index.py:289-294 | a failure writes its category and nothing else |
| EvidenceSync.CommitContinues | src/sightmesh/evidence_index.py:211-224 | a commit that passes the comparison and the uniqueness continues the stored prefix, however callers interleave |
| EvidenceSync.CommitMakesProgress | src/sightmesh/evidence_index.py:253-287 | a frame that begins where the stored prefix ends and has a window is stored by a commit with the current status, and the cursor moves past it |
| EvidenceSync.HonestPagesAreAccepted | src/sightmesh/evidence_stream.py:41-117 | every page of frames end to end, within the bounds and sealed only at the end, is accepted |
| EvidenceSync.UndisturbedSyncStoresThePage | src/sightmesh/evidence_index.py:195-242 | after any run that left the source unsealed, an undisturbed call answered honestly stores all frames of its page and ends at the page's end without an error |
| EvidenceSync.RacingSyncsKeepAPrefix | src/sightmesh/evidence_index.py:204-287 | after every interleaving with arbitrary pages the frames tile the confirmed prefix in raw and in compressed bytes and none follows a seal |
| EvidenceSync.RacingSyncsIndexAPrefix | src/sightmesh/evidence_index.py:576-603 | the stored rows index exactly that prefix of the source |
| EvidenceSync.EveryIndexedOccurrenceIsFound | src/sightmesh/evidence_index.py:370-497 | ingestion and search together: after any run every occurrence in the confirmed prefix is found, in one row |
| EvidenceSync.CompareAloneIsNotEnough | src/sightmesh/evidence_index.py:136-144 | a run after which the comparison passes for a frame already stored and only the uniqueness refuses it |
| Streaming.SplitIsUnique | src/sightmesh/usage.py:247-273 | splitting at newlines is the only way to cut a text into newline-free lines that join to it |
| Streaming.LineTurn | src/sightmesh/usage.py:250-269 | what a part that ends a line adds to the lines consumed |
| Streaming.PartTurn | src/sightmesh/usage.py:257-273 | what a part without a newline adds |
| Streaming.EveryLineIsConsumed | src/sightmesh/usage.py:256-273 | each complete line is consumed in order without the returns at its end if it fits one mebibyte, and is one over-long record otherwise |
| Streaming.FirstErrorIsFirst | src/sightmesh/usage.py:140-144 | the error kept is that of the first over-long record or line that does not parse |
| Streaming.StdoutReader.Consume | src/sightmesh/usage.py:247-273 | a chunk leaves the reader where the concatenation so far puts it |
| Streaming.StdoutReader.Advance | src/sightmesh/usage.py:249-273 | one turn of the loop, with its pending, counting and discarding state |
| Streaming.Derive | src/sightmesh/usage.py:247-292 | lines, over-long records, first error and partial-record error depend only on the concatenated text |
| Streaming.FailedStays | src/sightmesh/evidence_stream.py:174-182 | the first over-long record is found at the same place whatever bytes follow |
| Streaming.RecordsAreTheFirstGoodLines | src/sightmesh/evidence_stream.py:174-182 | the records are the lines before the first that is over-long or does not parse, each with its newline |
| Streaming.FailedExactly | src/sightmesh/evidence_stream.py:174-182 | the traversal fails exactly for such a line, or for an over-long unfinished one |
| Streaming.NativeRecords.Frame | src/sightmesh/evidence_stream.py:165-190 | a frame yields the records its bytes complete |
| Streaming.ReadPage | src/sightmesh/evidence_stream.py:165-190 | the frames of a page add their concatenation |
| Streaming.Finish | src/sightmesh/evidence_stream.py:192-198 | the unfinished record at the end is given if the source is sealed, and an error otherwise |
| Streaming.Traverse | src/sightmesh/evidence_stream.py:155-201 | the records, up to the first over-long one, and the error are those of the bytes of the pages read within the budget, for any pages and frames |
| TaskStore.Store.Transition | src/sightmesh/task_store.py:921-952 | a guarded update moves the row and adds one to its version, or changes nothing |
| TaskStore.Store.Activate | src/sightmesh/task_store.py:965-992 | activation from its three predecessors only |
| TaskStore.Store.Replace | src/sightmesh/task_store.py:994-1058 | a replacement opens an epoch and clears what was observed about the predecessor, while attempts remain |
| TaskStore.Store.FinishTask | src/sightmesh/task_store.py:1456-1605 | each target from its own predecessors; losses and charged failures exhaust at the limit |
| TaskStore.Store.ReissueExpired | src/sightmesh/sdk.py:737-770 | only an expired reservation with an attempt left is reopened |
| TaskStore.Store.ObserveLiveness | src/sightmesh/task_store.py:1292-1367 | an episode opens or closes only when the stretch changes, on a row that has not ended |
| TaskStore.Store.BlockUnroutable | src/sightmesh/sdk.py:1052-1067 | blocks with a charge, and is silent for a blocked task |
| TaskStore.Store.AdvancePastOutcome | src/sightmesh/sdk.py:927-1023 | exhausts, blocks or opens the next epoch, with the failure charged once |
| TaskStore.FinishKeeps | src/sightmesh/task_store.py:26-37 | no finish leaves completed, cancelled, exhausted or lost, or moves the epoch |
| TaskStore.FinishLeaves | src/sightmesh/task_store.py:1456-1605 | exactly when a finish is taken, and every column it leaves: the state and result asked for, unless a charged last failure exhausts the task |
| TaskStore.FailuresLeave | src/sightmesh/task_store.py:1535-1562 | a loss, a rejected launch and a failed process leave the row lost or blocked, and exhausted exactly on the last attempt |
| TaskStore.ReplacementLeaves | src/sightmesh/task_store.py:1022-1056 | exactly when a replacement is opened, and that every observation about the predecessor is cleared |
| TaskStore.OtherMovesLeave | src/sightmesh/sdk.py:571-595 | when activation, checkpoint, reissue and the operator's replace are taken, and what they leave |
| TaskStore.ObservationLeaves | src/sightmesh/task_store.py:1345-1372 | an episode opens when a child falls silent or is parked, closes when it works, and goes on under a new label |
| TaskStore.OutcomeLeaves | src/sightmesh/sdk.py:944-1020 | past a recorded outcome an active epoch is charged and goes on, blocks or exhausts; a blocked one goes on uncharged or waits |
| TaskStore.EndedReplacementLeaves | src/sightmesh/sdk.py:944-969 | an automatic replacement whose epoch ended is blocked with a charge, and nothing else moves without an outcome |
| TaskStore.StepKeepsLifecycle | src/sightmesh/task_store.py:22-40 | what each single step keeps: final rows, epochs, attempts, versions |
| TaskStore.Lifecycle | src/sightmesh/task_store.py:22-40 | over any run final rows never change, lost rows leave only with a larger epoch, and equal versions mean equal lifecycle columns |
| TaskStore.OneWriterWins | src/sightmesh/task_store.py:931-951 | after a writer that expected a version has won, no later writer that expects it can |
| TaskStore.StepKeepsEpochsPaid | src/sightmesh/sdk.py:1011-1020 | each step pays for the epoch it opens or is counted as unpaid |
| TaskStore.EpochsAreBudgeted | src/sightmesh/sdk.py:944-1020 | in every run epochs exceed attempts by at most one and the unpaid steps, and attempts never pass the limit |
| TaskStore.AutomaticFailoverTerminates | src/sightmesh/sdk.py:944-969 | without operator and uncharged block a task opens at most max_attempts epochs and, unless exhausted, has an attempt left |
| TaskStore.UnchargedBlocksOpenEpochsForever | src/sightmesh/durable.py:758-791 | with n uncharged blocks and no attempt spent a run opens n more epochs, each past an outcome recorded while the epoch before it was active |
| TaskStore.OperatorSpendsTheLastAttempt | src/sightmesh/sdk.py:571-590 | an operator can leave a live row without an attempt |
| TaskStore.FailuresAreRecordedWhileAttemptsRemain | src/sightmesh/task_store.py:1535-1562 | a failure is recorded if and only if an attempt is left |
| Wakes.Outbox.InsertOrIgnore | src/sightmesh/task_store.py:493-496 | a row is inserted unless a live row has its key |
| Wakes.Outbox.RecordWakes | src/sightmesh/wakes.py:265-311 | one pending wake per satisfied predicate, only past the watermark |
| Wakes.Outbox.Arm | src/sightmesh/wakes.py:424-463 | a one-shot report is inserted only if nobody was told of it |
| Wakes.Outbox.RecordLivenessWakes | src/sightmesh/wakes.py:314-413 | loss, stall and budget reports of one child, insert and counter together |
| Wakes.Outbox.Finish | src/sightmesh/wakes.py:175-211 | transition, event and wakes in one transaction, or nothing |
| Wakes.Outbox.Claim | src/sightmesh/wakes.py:494-518 | every pending or expired row gets a token of its own |
| Wakes.Outbox.PersistPayload | src/sightmesh/wakes.py:571-594 | the first payload stays; only the current holder learns it |
| Wakes.Outbox.SettleClaim | src/sightmesh/wakes.py:596-646 | only the current holder settles, and only a delivery moves the watermark, never back |
| WakeRuns.BatchIsSteps | src/sightmesh/wakes.py:500-516 | a claim batch is its rows claimed one by one |
| WakeRuns.RescanArmsExactlyWhenBehind | src/sightmesh/wakes.py:280-311 | a rescan arms every satisfied predicate exactly when the watermark is behind, and otherwise changes nothing |
| WakeRuns.FinishArms | src/sightmesh/wakes.py:194-211 | a child's commit leaves one more event, unheard, and a live wake for each predicate then satisfied |
| WakeRuns.WatermarkIsTheLatestDelivery | src/sightmesh/wakes.py:631-643 | in every run last_woken_seq is the largest event number of the delivered cohort wakes, or zero, and at most child_event_seq |
| WakeRuns.NoChildEventIsLost | src/sightmesh/wakes.py:265-311 | every event is told by a delivered message rendered after it, or the next rescan leaves a live wake for every satisfied predicate |
| WakeRuns.BareMoveIsHeardOnlyWhenBehind | src/sightmesh/effects.py:494-501 | a transition outside finish_with_wake is armed by a rescan if and only if an event is unheard or a wake is live already |
| WakeRuns.ExpiredReservationIsNeverTold | src/sightmesh/effects.py:494-501 | a run in which an only child's expired reservation arms nothing for its parent |
| WakeRuns.OldHoldersChangeNothing | src/sightmesh/wakes.py:605-630 | once a wake is claimed again or settled, no step of its old holder changes the database, after any run |
| WakeRuns.OneSettlementSucceeds | src/sightmesh/wakes.py:596-646 | delivered and resolved are absorbing, and after one settlement no other has an effect |
| WakeRuns.SendsOfAWakeAgree | src/sightmesh/wakes.py:550-563 | every send of one wake, by any pump, carries the bytes of its row |
| WakeProgress.ClaimTakesExactlyDueRows | src/sightmesh/wakes.py:500-516 | a row is claimed exactly if it is pending or its claim has run out, and then has a new token and a whole lease |
| WakeProgress.BatchTakesEveryDueRow | src/sightmesh/wakes.py:494-518 | a claim takes every due row, each under a token of its own, and no other |
| WakeProgress.EveryClaimRunsOut | src/sightmesh/wakes.py:500-516 | in every run a claimed row carries a lease, after which it is due again |
| WakeProgress.DueWakesCanBeDelivered | src/sightmesh/wakes.py:482-563 | a due wake, pending or left by a holder that is gone, is delivered by one new holder with the bytes it sent |
| WakeProgress.SuppressionTellsNobody | src/sightmesh/wakes.py:565-569 | the current holder can park a wake with its reason, which moves no watermark |
| WakeProgress.UnheardEventsCanBeTold | src/sightmesh/wakes.py:265-311 | in every run whose claims have lapsed, at most two rounds of rescan and delivery bring a parent's watermark up to its last event |
| Reports.ManagersAreWoken | src/sightmesh/wakes.py:175-211 | the commit that blocks a child, or ends the last one, leaves the manager a live wake for it |
| Reports.CohortsAreWokenOnlyForThat | src/sightmesh/wakes.py:214-234 | the two cohort predicates hold exactly for a blocked child and for children that have all ended |
| StallEpisodes.MoveDrifts | src/sightmesh/task_store.py:1345-1367 | how any transition may move epoch, episode, counter and clock |
| StallEpisodes.ArmStallKeepsEpisodes | src/sightmesh/wakes.py:369-404 | the one step that inserts a stall wake keeps the cap and the spacing |
| StallEpisodes.AtMostTwoStallWakes | src/sightmesh/wakes.py:369-404 | over the whole run an episode of an epoch of a child has at most two stall wakes, the second at least the timeout after the first |
| StallEpisodes.LossesAreToldOnce | src/sightmesh/wakes.py:424-463 | over the whole run a lost or over-budget epoch has at most one wake that is not suppressed |
| Reports.StallIsArmedExactlyWhenDue | src/sightmesh/wakes.py:369-404 | the first report of an episode is armed at once and the second after the timeout, with counter and clock, and nothing else is |
| Reports.ReportsExactly | src/sightmesh/wakes.py:338-413 | everything one pass reports of a child: a loss once, a due stall, an overrun budget once |
| Reports.FirstReport | src/sightmesh/wakes.py:369-404 | an active child's untold silent episode gets exactly one stall wake, dated now, and its counter is one |
| Reports.SilenceIsReported | src/sightmesh/durable.py:668-705 | in every run a tick that finds a working or parked child silent opens an episode and reports it once |
| Reports.LossIsTold | src/sightmesh/wakes.py:206-210 | the commit that loses a child, or exhausts it by a loss, tells its manager |
| EffectJournal.Journal.ReserveLaunch | src/sightmesh/effects.py:95-183 | state first, then lease, owner and request; a takeover keeps the request |
| EffectJournal.Journal.Advance | src/sightmesh/effects.py:586-625 | a write applies only in the states it names, and otherwise raises |
| EffectJournal.Journal.BindSession | src/sightmesh/effects.py:185-195 | an open row gets the native identifiers, a terminal one raises |
| EffectJournal.Journal.EndEpoch | src/sightmesh/effects.py:197-216 | the first terminal outcome is kept |
| EffectJournal.Journal.RecordRefusal | src/sightmesh/effects.py:218-242 | a temporary refusal leaves the reservation as it is |
| EffectJournal.Journal.Supersede | src/sightmesh/effects.py:244-257 | an open row ends and names the workspace to stop |
| EffectJournal.Journal.CleanupWorkspace | src/sightmesh/effects.py:259-283 | a late workspace is attached to a terminal row only |
| EffectJournal.Journal.AcknowledgeStop | src/sightmesh/effects.py:295-324 | the workspace is cleared only if it is the one that was stopped |
| EffectJournal.Journal.RetireReservation | src/sightmesh/effects.py:562-584 | only a reservation still expired is retired |
| EffectJournal.RowsMoveForward | src/sightmesh/effects.py:185-257 | over any run a row moves only forward, keeps its request, and once terminal is never granted again |
| EffectJournal.GrantsAreKept | src/sightmesh/effects.py:154-183 | the lease runs from the last grant, which went to the row's owner, and grants stay a lease apart |
| EffectJournal.OwnersAreALeaseApart | src/sightmesh/effects.py:95-183 | two owners are granted one launch at least a ttl apart, whatever else is written to the row |
| EffectJournal.ReservationsAreTakenOver | src/sightmesh/effects.py:95-183 | a free or expired reservation is granted to whoever asks, and until the new lease runs out others are busy and another request of the owner conflicts |
| EffectJournal.OnlyReservationsAreGranted | src/sightmesh/effects.py:143-165 | a launched row is handed over unchanged, an ended one refused, and a live reservation kept from other owners and requests |
| EffectJournal.WritesLandOnOpenRows | src/sightmesh/effects.py:185-257 | what each write leaves of a row that has not ended |
| EffectJournal.WritesLandOnEndedRows | src/sightmesh/effects.py:259-324 | on an ended row a cleanup workspace and its acknowledgement land, and nothing else |
| LaunchRaces.WriteKeeps | src/sightmesh/effects.py:295-324 | a terminal row forgets its workspace only when it is acknowledged |
| LaunchRaces.SupersededWorkspacesAreKept | src/sightmesh/sdk.py:1344-1363 | in every run a superseded workspace stays on its terminal row until a stop of exactly it has returned |
| LaunchRaces.LaunchedOnlyIfUnchanged | src/sightmesh/sdk.py:1344-1365 | a session is bound if and only if epoch and version are those of the snapshot and the row is open, and then every lifecycle column is as it was seen |
| LaunchRaces.WorkspaceIsRecordedUnlessTheRowEndedAlone | src/sightmesh/sdk.py:1344-1365 | in every run a returned workspace ends on its row if and only if it was there, the task moved, or the row is open |
| LaunchRaces.RowCanEndAlone | src/sightmesh/effects.py:494-501 | a run with a sweep cut between retiring the row and finishing the task, after which the starter's workspace is named nowhere |
| LaunchRaces.UndisturbedLaunchIsBound | src/sightmesh/sdk.py:1279-1366 | a first launch that nothing disturbs ends with its row naming workspace and session |
| LaunchRaces.CleanupsFinish | src/sightmesh/effects.py:295-351 | a workspace on an ended row is stopped by one reader of the row and is then off it |
| History.Store.RecordChange | src/sightmesh/history.py:254-290 | an empty change appends nothing |
| History.Store.Execute | src/sightmesh/history.py:111-149 | a block keeps its writes and its entry together, or neither when it raises |
| History.Store.RecordBaselines | src/sightmesh/history.py:203-237 | one observed snapshot per existing row |
| History.StepsKeepFaithful | src/sightmesh/history.py:111-149 | over any run, with nested blocks and rollbacks, a column written only inside its row's blocks is what its entries replay to |
| History.HistoryReplaysToTheRow | src/sightmesh/history.py:111-149 | the same from the baseline on, for rows that predate the history and rows created later |
| History.BaselinesSayHistoryIsMissing | src/sightmesh/history.py:203-237 | every baseline entry is marked as missing what came before it |
| History.ChangeAppendsExactlyWhatMoved | src/sightmesh/history.py:240-251 | one entry with exactly the mirrored columns that moved, its kind and its cause, if any moved, and none otherwise |
| History.AbortedChangeLeavesNothing | src/sightmesh/history.py:145-149 | a block that raises leaves rows and history as before |
| History.RawWriteIsForgotten | src/sightmesh/durable.py:857-864 | a write past the history keeps the replay right if and only if it writes the value that was there |
| History.RawWriteLastsUntilABlockMovesIt | src/sightmesh/durable.py:857-864 | over any run after such a write the column is replayed right again if and only if a block of its row has moved it |
| History.MisreportLastsUntilABlockMovesIt | src/sightmesh/history.py:111-149 | any misreport, however it came about, ends exactly when a block of the row moves the column |
| History.OuterBlockReplaysExactlyWhen | src/sightmesh/history.py:111-149 | a block around any body, nested blocks of its row included, replays right if and only if it moved the column or the entries inside already do |
| History.NestedBlockMisreportsExactlyWhen | src/sightmesh/history.py:111-149 | a block inside one of its own row misreports a column exactly when the outer leaves what it found and the inner left another value |
| History.NestedBlocksMisreport | src/sightmesh/history.py:111-149 | the smallest such block, which no present caller writes |
| Reservations.Store.CountNewKeys | src/sightmesh/task_store.py:543-550 | how many keys of a batch are not in the store |
| Reservations.Store.Reserve | src/sightmesh/task_store.py:510-601 | duplicate keys, a missing parent, the limit, then the transaction |
| Reservations.Store.InsertMissing | src/sightmesh/task_store.py:556-596 | inserts what is missing, or rolls back at the first spec that cannot be had |
| Reservations.BatchIsAllOrNothing | src/sightmesh/task_store.py:510-601 | exactly when a batch is refused, that a refusal changes nothing, and that a granted batch appends precisely the missing rows, each with its parent, text and child limit |
| Reservations.ReachableStores | src/sightmesh/task_store.py:527-553 | in every reachable store ids are distinct, no task has more children than its limit, and parents precede children |
| Reservations.KnownBatchIsGrantedAgain | src/sightmesh/task_store.py:558-596 | a batch whose rows exist with the same text is granted in any reachable store without an insert |
| Reservations.BatchIsIdempotent | src/sightmesh/task_store.py:510-601 | a granted batch repeated inserts nothing |
| Reservations.ParentLinksAreAForest | src/sightmesh/task_store.py:527-536 | climbing parents never comes back to where it began |
| Succession.OwnershipStore.Retire | src/sightmesh/succession.py:127-167 | the first terminal record wins for ever |
| Succession.OwnershipStore.LinkSuccessor | src/sightmesh/succession.py:169-229 | writes a successor once, unless the link would reach back or the chain already loops |
| Succession.OwnershipStore.WouldCycle | src/sightmesh/succession.py:198-209 | the walk ends, and reports a cycle exactly when the chain reaches the source or loops |
| Succession.OwnershipStore.ResolveLiveSuccessor | src/sightmesh/succession.py:300-313 | a live answer is the unquarantined end of the chain; none means a quarantined end or a loop, in any store |
| Succession.SuccessionIsAForest | src/sightmesh/succession.py:127-229 | over every run chains end, records are never rewritten and successors are written once |
| Succession.ForestHasNoCycle | src/sightmesh/succession.py:198-209 | no session is its own successor, directly or through others |
| Succession.ResolverFindsTheEnd | src/sightmesh/succession.py:300-313 | in every reachable store the chain has one end and the resolver gives it, or nothing exactly when it is quarantined |
| Succession.CycleMeansReachingBack | src/sightmesh/succession.py:198-209 | in a reachable store a link is refused for a cycle exactly when it would close one |
| Succession.FirstRetirementIsRecorded | src/sightmesh/succession.py:127-167 | a first retirement writes exactly the record asked for |
| Succession.LinksTakeExactlyWhenTheyCan | src/sightmesh/succession.py:169-229 | in a reachable store a link holds afterwards exactly if it was there, or the source is retired without a successor and the chain does not lead back |
| Handoff.Client.TransferOwnership | src/sightmesh/succession.py:332-414 | an uninterrupted call is a run of the step machine; it goes to the recorded successor, else to the spawned session, and is refused exactly if that is the source or quarantined; otherwise every listed command with a body is in that queue under its key, and is cancelled where possible |
| Handoff.Client.ForwardAll | src/sightmesh/succession.py:386-395 | the forwarding loop is its steps, and leaves every listed command with a body in the queue under its key |
| Handoff.Client.CancelAll | src/sightmesh/succession.py:397-409 | the cancelling loop is its steps, closes every listed command if it can, and touches no body or queue |
| Handoff.OneSuccessor | src/sightmesh/succession.py:369-380 | over any number of interrupted runs at most one successor is ever recorded |
| Handoff.CopiesGoToTheSuccessor | src/sightmesh/succession.py:386-395 | every copy any run sent is in the recorded successor's queue |
| Handoff.CancelledWasForwarded | src/sightmesh/succession.py:397-409 | no run cancels a non-empty open command that is not in that queue with its body |
| Handoff.OneCopyWhenTheKeyIsRecorded | src/sightmesh/succession.py:358-360 | with the record's key set, each command has at most one copy over all runs |
| Handoff.HandoffRecordsAKey | src/sightmesh/succession.py:358-360 | a source first retired by a handoff has its key set for ever |
| Handoff.CopiesOfOneCommand | src/sightmesh/succession.py:391 | two copies of one command have different derived keys, and only under a record without a key |
| Handoff.DifferentKeysDuplicate | src/sightmesh/succession.py:391 | conversely, a command without its own key forwarded under two logical keys has two copies |
| Handoff.ArchivedSourceCanBeCopiedTwice | src/sightmesh/cli/workspaces.py:66-74 | such a run, for a source archived without a key |
| Leases.LeaseStore.Acquire | src/sightmesh/leases.py:185-228 | acquired if and only if nothing live conflicts, in any order of files, leaving the live leases and the new one; refused part-way it has removed only expired ones |
| Leases.LeaseStore.RecoverStale | src/sightmesh/leases.py:174-183 | exactly the live leases stay |
| Leases.LeaseStore.Renew | src/sightmesh/leases.py:230-258 | the holder's lease gets a new expiry, expired or not, and nothing else moves |
| Leases.LeaseStore.RenewWorkspace | src/sightmesh/leases.py:307-336 | the same through the workspace mapping |
| Leases.LeaseStore.AttachWorkspace | src/sightmesh/leases.py:260-282 | workspace and session of the holder's lease, and its mapping |
| Leases.LeaseStore.Release | src/sightmesh/leases.py:284-289 | the holder's lease and its mapping are removed |
| Leases.LeaseStore.ReleaseWorkspace | src/sightmesh/leases.py:291-305 | the same through the workspace mapping |
| Leases.AcquireKeepsDisjoint | src/sightmesh/leases.py:209-227 | an acquired lease replaces no file and conflicts with none that stays |
| Leases.StoredLeasesNeverConflict | src/sightmesh/leases.py:64-73 | in every state of every run stored leases, expired ones included, are pairwise without conflict |
| Leases.RenewalNeedsTheExpired | src/sightmesh/leases.py:238-257 | renewals keep live leases apart if and only if all stored leases are apart |
| Leases.ConflictsExactly | src/sightmesh/leases.py:64-73 | leases conflict exactly if they share a worktree, or a repository that one of them has whole |
| Leases.FreeExactly | src/sightmesh/leases.py:209-222 | an acquisition is refused exactly for such a lease that is live when it is looked at |
| Leases.BearersHoldTheirLease | src/sightmesh/leases.py:362-389 | the bearer of a token may touch exactly its lease, live or expired, under the owner and workspace it names |
| Leases.HoldersChangeTheirLeaseOnly | src/sightmesh/leases.py:230-305 | what renewing, attaching and releasing leave of a lease and of the others |
| Detector.Reconciler.FindStart | src/sightmesh/durable.py:599-606 | the first task past the cursor, or the first of all |
| Detector.Reconciler.DetectLiveness | src/sightmesh/durable.py:474-507 | what a pass handles and where it leaves the cursor, with raising tasks and the deadline |
| Detector.PassIsAStretch | src/sightmesh/durable.py:599-613 | a pass handles a cyclic stretch of at least one task that the next pass continues |
| Detector.EveryTaskWithinAsManyPasses | src/sightmesh/durable.py:484-505 | every watched task is handled within any n consecutive passes, wherever each is cut |
| Detector.EveryTaskWithinOneRound | src/sightmesh/durable.py:599-613 | and within ceil(n / tasks_per_pass) passes when none is cut |
| Detector.FewerPassesAreNotEnough | src/sightmesh/durable.py:484-505 | for every set of n tasks, n - 1 passes each cut after a task leave one unhandled |

## Left out

- SHA-256, name-based UUIDs, request hashes and the texts of wake and dedupe keys are read as injective; FTS5 matching is "the posted text contains the query".
- Lone surrogates, which the query check refuses before searching, are not characters of the model.
- EvidenceSearch.SearchRow: does not write the failure category of a row whose original changed; `EvidenceSync.SourceTables.MarkUnavailable` is that write.
- EvidenceSearch.Index.Search: leaves out the coverage lists and the excerpt of a hit; filters are an arbitrary choice of rows.
- EvidenceSearch.Index.SyncArtifact: the facts of a receipt besides size and digest are one value, and the shape checks of `receipt_facts` are left out.
- EvidenceSync.ValidatePage: field shapes, types, capture time, legacy metadata and sizes are one flag per frame and one per page.
- TaskStore.Store.Activate: leaves out the workspace and session columns it writes.
- TaskStore.Store.Replace: of the target it writes only whether it carries the recovery marker.
- TaskStore.Store.AdvancePastOutcome: the effect row, its typed outcome and the route selection are arguments; `TaskStore.OutcomesRecorded` says when a run has recorded the outcomes it advances past.
- The network: a client that fails is a step that does not happen; retry loops and their delays are not modelled.
- Concurrent `rebuild` with `sync`, legacy JSON import, schema migration and budget reset.
- Streaming.Traverse: whether the bytes of a record parse is an arbitrary predicate; pages are taken as validated.
- Why a pump suppresses a wake (no holder, an ended or quarantined parent) and the wording of its message: any holder may suppress, and any text may be rendered.
- Liveness evidence and its classification are an arbitrary label per tick; route selection is an arbitrary answer.
- Outgoing-command and cleanup-intent bookkeeping, checkpoints' contents and external-run subscriptions.
- `expire_reservations` as a whole: its journal step, its bare finish and its adoption of a native session are separate steps.
- Task rows in `LaunchRaces` move by every transition of `TaskStore`; the executor is a map from epoch to workspace.
- Wakes.Outbox.Finish: the fence a caller must hold is not modelled; transactions are atomic instead.
- Handoff: other sources that forward to the same successor, whose dedupe keys could coincide, are not in its queue.
- History.HistoryReplaysToTheRow: entries carry the row's key as one value, not split over entity, task, epoch and entity id.
- Leases: capability files, the lock's timeout and malformed lease files; the canonical form of paths is taken as given.
- Detector: `tasks_per_pass` is at least one; with zero the source would hand nothing to classification.
