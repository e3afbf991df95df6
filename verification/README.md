# OpenAgentd: verified core

A Dafny model of the stateful core of OpenAgentd, with proofs of what it keeps. Check it all
with `dafny verify dfyconfig.toml`.

- **The session transcript.** Rows carry sparse integer positions and are read in `(seq, id)`
  order (`Transcript`, `Positions`, `Room`). Appends, anchored summaries, healed tool stubs and
  released queue rows are shown to be edits of a plain sorted list (`Heal`, `Queue`). What a model
  call sees is derived from kind, position and pin (`Window`) and filtered so that calls and
  replies pair up (`ToolPairs`, `Deserialize`); `HealSettles`, `HealTwice` and `HealForever` say
  when a heal makes that filter idle and when healing never ends. `Store` is the table as an object.
  `WindowLaws`, `QueueLaws`, `HealLaws` and `LoadLaws` say on a row's own fields what is shown,
  released, healed, saved and loaded.
- **The checkpointer.** `Checkpoint` says what one sync writes, `WriteBack` and `WriteBackRuns` that
  over any run each message gets one row and when the pin record stays right, `Loading` and
  `LoadThenSync` what a load hands out and what syncing it writes, `SyncLaws` on the messages' own
  fields what is stored, `TurnReturns` that a stored turn comes back, `Compaction`,
  `CompactionWindow`, `CompactionCut` and `CompactionLimits` when a reload shows what the live list
  sends, `HistoryCache` and `HealedCache` what the read cache may serve. `SyncLoop` and
  `Checkpointer` are the loop and the object, with message objects it updates in place.
- **History paging** (`HistoryPages`, `MemberPages`): pages, their cursors, member sessions beside
  a scrolled lead, and the delta a client merges.
- **The task scheduler.** `Scheduler` is its books and rows as an object; `SchedulerSteps` the step
  system, one step for each stretch of code between awaits, with the state lock, cancellation at
  every await and free choice of timers and agent answers; `SchedulerBooks` what every run keeps;
  `SchedulerTask` the system as one task sees it, on which `SchedulerRuns` (dispatches),
  `SchedulerLimits` (run limits) and `SchedulerRunning` (rows left running) build; `SchedulerLaws`
  what each step makes of a row, field by field; `SchedulerCases` the runs that show the conditions
  occur.
- **The PNG reader and writer** (`Bytes`, `PngFilters`, `PngChunks`, and byte by byte `PngLaws`),
  after RFC 2083.
- **The JSONL writer** (`JsonlWriter`, `JsonlRuns`, `JsonlLaws`): producers, one flusher, shutdown.
- **Three small guards**: the streaming request limit (`RequestLimit`, `RequestLaws`), denied and
  allowed roots (`DeniedPaths`), and upload names (`Uploads`); `Text` is their white space.

Where the source loops or updates fields in place, the model does too, and each such method is
proved equal to a function on values; the lemmas are about those functions. Tables are sequences
of rows in creation order, ids are natural numbers handed out in that order (the original's are
time-ordered UUIDs), and a transaction is one step.

## What the proofs turned up

The model follows the code; these are places where it does less than its comments say.

- A pinned call below the active summary that nothing answers never settles: its stubs are not
  pinned, so every heal adds new ones and the load filter still strips the call
  (`HealForever.NeverSettles`; `HealTwice.HealSettlesIff` has the exact condition).
- A pinned message at the head of the kept tail changes places with the summary after a reload,
  unless it shares the anchor's position (`CompactionCut.WindowIsLiveListIff`,
  `CompactionLimits.PinnedHeadReorders`).
- A heal in the middle of a transcript moves neither revision nor cursor, so a cached window
  survives it (`HealedCache.HealFreshIff`, `HealedCache.HealStaleHappens`).
- A load served from the cache returns messages that are not registered, so a later sync stores
  each of them again (`LoadThenSync.LoadSyncIff`).
- An update can leave a completed task that is neither one-shot nor used up, and a paused task that
  is enabled (`SchedulerLaws.EditRightIff`, `SchedulerCases.CompletedRecurringHappens`,
  `SchedulerCases.PausedEnabledHappens`).
- The pin record of a user message that is registered without a write takes the message's flag,
  not the row's (`WriteBackRuns.SyncKeepsRecordIff`); and the record does not learn of another
  writer's flip (`WriteBackRuns.ForeignFlipStands`).
- Four steps leave a task's row running with nobody to settle it (`SchedulerRunning.StrandedIff`,
  with a run for each in `SchedulerCases`): the first locked section of a firing does not look at
  the version, so one made stale while it waits marks its row and then stands down; an
  administrative call fails after it has moved the version; a firing is cancelled again while it
  restores its row; a dispatch is refused after such a failed call. Update, pause, resume and
  removal cancel the timer they find together with its firing, so in the first, second and fourth
  way the firing left behind is a spawned one, from a trigger or a restart.
- Lowering a task's limit while a firing is past its mark lets the count pass it
  (`SchedulerLimits.EditSafeIff`, `SchedulerCases.LimitPassed`).
- An app that catches the request-size error of a send and reads on is handed the oversized body;
  after the error of a read the message is gone (`RequestLimit.CaughtSendIff`,
  `RequestLimit.CaughtReadKeeps`).
- A record accepted after the JSONL flusher's last look at its queue is never written, though the
  writer still takes it (`JsonlRuns.WrittenIffBeforeLastLook`, `JsonlRuns.LateRecordUnwritten`).

## Model

| member | source | states |
|---|---|---|
| `Positions.SeqBetween` | app/services/chat_service.py:135-143 | the midpoint lies in [prev, next), splits the gap evenly to within one, and is prev exactly when fewer than two positions are left |
| `Positions.AppendGoesLast` | app/services/chat_service.py:124-132 | a row saved at the next position becomes the last of the sorted transcript, whatever gaps are used up, and nothing else moves |
| `Positions.AnchorBeforeIff` | app/services/chat_service.py:146-156 | a row saved before an anchor sorts ahead of it exactly when some row lies lower or the anchor is at a positive position; it then lands between all lower rows and the anchor's whole tie block |
| `Positions.BeforeHalves` | app/services/chat_service.py:135-156 | that position halves the gap between the next lower one, or 0, and the anchor, to within one |
| `Room.AnchorAlwaysLeads` | app/services/chat_service.py:124-156 | that condition always holds: after any run of saves, syncs, releases, cancels and heals from positive positions, a summary written before a row that is no summary sorts ahead of it |
| `Positions.NestedSplitsIff` | app/services/chat_service.py:135-143 | a gap survives every choice of k nested splits exactly when it is at least 2^k wide |
| `Positions.StepAllowsTenSplits` | app/models/chat.py:24-28 | the allocation step admits every ten nested splits, and not every eleven |
| `Positions.StubsLandTogether` | app/services/chat_service.py:285-300 | rows at non-decreasing positions inside an empty gap land as one block, in order, right behind every row at or below its start |
| `Transcript.SavedView` | app/services/chat_service.py:312-430 | writing a newest row at any position keeps every other pair of rows in order |
| `Transcript.SortedUnique` | app/services/chat_service_revert.py:101-106 | the (seq, id) order has one arrangement, so the model's sort is the query's |
| `Transcript.FilterView` | app/services/chat_service_revert.py:201-230 | selecting rows and ordering them commute |
| `Window.ActiveSummary` | app/services/chat_service_revert.py:139-154 | the active summary is a summary row of the session, absent exactly when there is none |
| `Window.ActiveSummaryNewest` | app/services/chat_service_revert.py:139-154 | it is the newest-created summary, wherever it is anchored |
| `WindowLaws.UncompactedLlm` | app/services/chat_service_revert.py:210-227 | without a summary the model is shown all rows in position order but the reverted and the queued ones, notes included |
| `WindowLaws.CompactedWindow` | app/services/chat_service_revert.py:201-230 | behind the newest-created summary the window is exactly, in position order: that summary and no other, chat and note rows that are pinned or not ahead of it, queued rows likewise when asked for, no reverted row |
| `ToolPairs.SanitizeToolMessagePairs` | app/services/chat_service_messages.py:238-305 | the filter's loop computes the specification the next rows are about |
| `ToolPairs.FollowingReplies` | app/services/chat_service_messages.py:253-262 | the scan stops at the first message that is no tool reply and collects the non-empty ids before it |
| `ToolPairs.SanitizedWellPaired` | app/services/chat_service_messages.py:238-305 | for any message sequence, every kept call is answered exactly once in the run directly behind its assistant and no tool message strays |
| `ToolPairs.SanitizeIdentityIff` | app/services/chat_service_messages.py:238-305 | the filter leaves a list alone exactly when it is well paired |
| `ToolPairs.SanitizeIdempotent` | app/services/chat_service_messages.py:238-305 | filtering twice is filtering once |
| `ToolPairs.SanitizeKeepsSpoken` | app/services/chat_service_messages.py:238-305 | every human, system and non-empty assistant message survives, in order |
| `ToolPairs.PairedIsWellPaired` | app/services/chat_service_messages.py:238-305 | reading the list once from left to right decides the positional definition of pairing |
| `Deserialize.DeserializeMessages` | app/services/chat_service_messages.py:148-207 | the load loops compute the specification: rows that are no message skipped, unparseable calls and the replies to them dropped, the rest paired |
| `Deserialize.DeserializedAccepted` | app/services/chat_service_messages.py:148-207 | a loaded list is well paired, keeps only calls with parseable arguments, and keeps every speaking message in order |
| `Deserialize.DeserializeIdentityIff` | app/services/chat_service_messages.py:148-207 | loading changes nothing exactly when the rows are already acceptable |
| `Deserialize.TrimCalls` | app/services/chat_service_messages.py:163-189 | the trimming loop drops exactly the unparseable calls and collects exactly their ids |
| `LoadLaws.SpeakersLoad` | app/services/chat_service_messages.py:148-207 | every system and user row is loaded unchanged, once and in order, and a row of no known role never |
| `LoadLaws.CallsLoad` | app/services/chat_service_messages.py:163-189 | exactly the calls whose arguments parse stay, in order; the ids of the others are collected |
| `LoadLaws.RepliesLoad` | app/services/chat_service_messages.py:189-200 | before pairing, exactly the tool replies to calls that do not parse are dropped |
| `LoadLaws.LoadedAs` | app/services/chat_service_messages.py:60-145 | the message a row becomes carries its id, role, text, calls, reply id, pin, summary and hidden flags, and is in context |
| `LoadLaws.SavedAs` | app/services/chat_service.py:340-420 | kind and pin of a saved row: the given kind, else summary, else note for a hidden message, else chat; the given pin, else exactly a note hidden from summaries is pinned |
| `Store.SessionStore.FindOrphans` | app/services/chat_service.py:241-269 | the scan finds exactly the rows with an unanswered call, and nothing when no call carries an id |
| `Store.SessionStore.HealOrphanedToolCalls` | app/services/chat_service.py:201-309 | the heal loops add the specified stubs and change neither revision |
| `Heal.HealRowsBlocks` | app/services/chat_service.py:277-301 | on the sorted list a heal puts each orphan's stubs as one block right behind the rows at its position or lower, whatever rows share a position, and moves nothing else |
| `Heal.HealRowsView` | app/services/chat_service.py:277-301 | where no row shares an orphan's position, its stubs stand directly behind it |
| `HealLaws.HealedAre` | app/services/chat_service.py:241-269 | a row is healed exactly when it is an assistant row of the window with a call that has no id or that no tool row answers, and some call in the window has an id |
| `HealLaws.StubsSay` | app/services/chat_service.py:277-301 | one reply for each unanswered call, in order, with the interruption text, as plain unpinned chat rows |
| `HealLaws.StubPositions` | app/services/chat_service.py:277-301 | each reply halves what is left of the gap between its row and the next higher position, or of 2048 behind the last row |
| `HealTwice.HealSettlesIff` | app/services/chat_service.py:201-309 | with recorded replies adjacent and orphans alone at their positions, the healed window passes the load filter untouched, and a second heal inserts nothing, exactly when no orphan lies below the active summary |
| `HealTwice.HealedView` | app/services/chat_service.py:277-301 | the healed table sorts to the healed list, and the active summary stays |
| `HealTwice.AnsweredIffSettled` | app/services/chat_service.py:255-269 | after a heal every call in the window is answered exactly when every orphan was at or after the summary |
| `HealForever.NeverSettles` | app/services/chat_service.py:201-309 | a shown call under the active summary that nothing answers is healed by every one of n heals, each of which adds a reply to the table, and none of which the window ever shows |
| `HealForever.StuckHappens` | app/services/chat_service.py:201-309 | a pinned interrupted call with a summary behind it is such a table |
| `Queue.ReleasedView` | app/services/chat_service_queue.py:51-85 | a release yields the transcript without its queued rows, followed by them in their order |
| `Queue.PromoteAllKeeps` | app/services/chat_service_queue.py:51-68 | released rows keep their ids and contents and take successive positions one step apart |
| `QueueLaws.ReleaseEmpties` | app/services/chat_service_queue.py:51-85 | after a release no user message is queued, so a second release changes nothing |
| `QueueLaws.ReleaseBumps` | app/services/chat_service.py:512-529 | a release moves both revisions exactly when someone waited; repeated, it moves nothing |
| `QueueLaws.ReleaseShows` | app/services/chat_service_queue.py:51-85 | a release adds to what the model sees exactly the messages that waited, as they were written, as chat, in order and one step apart behind everything seen before |
| `QueueLaws.CancelMeans` | app/services/chat_service_queue.py:105-148 | cancelling deletes exactly the queued row of that id and the rows attached to it and moves both revisions; for any other id it changes nothing |
| `QueueLaws.SaveMeans` | app/services/chat_service.py:124-132 | a row saved without a position goes one step behind the highest one; only a summary moves the revisions |
| `Queue.MovedToEnd` | app/services/chat_service_queue.py:58-68 | rewriting one row to the highest position takes it to the end and moves no other |
| `Queue.CancelledView` | app/services/chat_service_queue.py:105-148 | cancelling removes the queued row and its attachment rows, keeps the order of the rest, and does nothing to any other row |
| `Store.SessionStore.PromoteQueued` | app/services/chat_service_queue.py:51-68 | the promotion loop rewrites the rows to the specified table |
| `Store.SessionStore.ReleaseQueuedUserMessages` | app/services/chat_service.py:512-529 | releasing (popping is the same) promotes the queued rows and bumps both revisions exactly when there were any |
| `Store.SessionStore.CancelQueuedUserMessage` | app/services/chat_service.py:532-542 | cancelling reports whether the row was queued, and bumps both revisions exactly then |
| `Store.SessionStore.SaveMessage` | app/services/chat_service.py:312-430 | a saved row's kind and pin follow the stated precedence, its position is the given one or the next, and only a flushed summary bumps the revisions |
| `Store.SessionStore.BumpHistoryRevision` | app/services/chat_service.py:79-95 | the revision always moves, the structure revision only when asked |
| `WriteBack.SyncTwice` | app/agent/checkpointer.py:372-541 | an immediately repeated sync writes no row, flips no pin and bumps no revision |
| `WriteBackRuns.StoredOnce` | app/agent/checkpointer.py:384-540 | over any run of loads, syncs, new messages, pin changes and writes by others, no message object is ever given a second row |
| `WriteBackRuns.StoredIff` | app/agent/checkpointer.py:455-540 | followed through any such run, a new message has a row id exactly when one row was written for it, and then the table holds exactly one row of that id, which says what the message says |
| `WriteBackRuns.RecordStepIff` | app/agent/checkpointer.py:264-540 | a step keeps the pin record equal to the table exactly when it is no sync that registers a user message disagreeing with its row, and no foreign flip of a row on record |
| `WriteBackRuns.SyncKeepsRecordIff` | app/agent/checkpointer.py:403-540 | the same for one sync: the record stays right exactly when the user messages it registers without a write agree with their rows |
| `WriteBackRuns.PinsAlwaysWritten` | app/agent/checkpointer.py:264-540 | from a new checkpointer, after any run of such steps, the record is right for every registered message, and the next sync leaves every row with its message's flag exactly when its user messages agree with their rows |
| `WriteBackRuns.ForeignFlipStands` | app/agent/checkpointer.py:403-446 | a flip by another writer between load and sync stands whatever the live flag is, the record takes the live flag, and the two agree exactly when the live flag was changed as well |
| `WriteBack.RecordedPins` | app/agent/checkpointer.py:409-415 | after a sync the pin record holds the live flag of every registered message |
| `WriteBack.PinsWrittenIff` | app/agent/checkpointer.py:403-538 | with a right record, after a sync every registered message's row carries its live flag, exactly when the user messages registered without a write already agreed with their rows |
| `WriteBack.ViewPins` | app/agent/checkpointer.py:431-446 | flipping pins reorders nothing |
| `SyncLaws.SyncAdds` | app/agent/checkpointer.py:455-541 | a sync leaves the old rows but for pins and adds exactly one row for each new tool message, each new assistant with text, reasoning, calls or the summary flag, and each new hidden or summary user message, in order, with its role, text, calls, reply id, pin and kind |
| `SyncLaws.MessageStored` | app/agent/checkpointer.py:455-541 | each such message is registered under the id of its row; any other new message gets no row and no id, and only a user message is registered |
| `SyncLaws.SyncAddsStepwise` | app/agent/checkpointer.py:432-446 | without a new summary the added rows go behind the highest position, 1024 apart |
| `SyncLaws.RevisionsMoveIff` | app/agent/checkpointer.py:537-541 | both revisions move exactly when a registered message's flag is not the one on record or a new summary is stored |
| `SyncLaws.MemoDroppedIff` | app/agent/checkpointer.py:559-562 | a sync drops its memo exactly when some message is new or some flag is not the one on record |
| `TurnReturns.TurnComesBack` | app/agent/checkpointer.py:455-541 | new assistant messages and tool replies, well paired and parseable, once synced come back from a fresh load as they were said, behind what the load would have given without them |
| `Checkpointer.Checkpointer.MarkLoaded` | app/agent/checkpointer.py:264-280 | messages are registered, and a pin already on record is kept |
| `Checkpointer.Checkpointer.Load` | app/agent/checkpointer.py:321-370 | a load serves the memo exactly while revision and cursor match, as unregistered copies, and otherwise derives, registers and remembers the window; an empty one is neither returned nor remembered |
| `Checkpointer.Checkpointer.Sync` | app/agent/checkpointer.py:372-562 | the in-place sync leaves exactly the specified rows, message ids, registrations, pin record and revisions, and drops the memo exactly when it wrote or met a new message |
| `Checkpointer.Checkpointer.StoreNew` | app/agent/checkpointer.py:455-538 | which new messages get a row, at which position and kind, and what is registered |
| `Checkpointer.Checkpointer.StoreAll` | app/agent/checkpointer.py:455-538 | the loop over new messages reaches the outcome computed on values |
| `Loading.LoadedDraws` | app/services/chat_service_messages.py:148-207 | a load hands out distinct rows of the table, changed in nothing but dropped calls |
| `LoadThenSync.LoadSyncIff` | app/agent/checkpointer.py:321-396 | syncing the list a load returned adds no row exactly when the load was not served from the memo or holds nothing storable; otherwise it adds, behind the unchanged table, a row repeating each storable message |
| `LoadThenSync.MissSyncsNothing` | app/agent/checkpointer.py:348-426 | after a load that was not served from the memo, with a right record, a sync is the identity |
| `SyncLoop.NothingToSync` | app/agent/checkpointer.py:423-426 | with every message registered and no pin to flip a sync is the identity |
| `SyncLoop.RemainingStep` | app/agent/checkpointer.py:455-538 | handling one message leaves the same outcome to reach |
| `CompactionCut.WindowIsLiveListIff` | app/agent/checkpointer.py:81-129 | after a compaction is synced, the ids the derived window shows are the ids the live list sends, in the same order, exactly when the head of the kept tail lies at or after the position where the summary lands |
| `CompactionCut.WindowShape` | app/agent/checkpointer.py:81-129 | in any case the window shows what was kept below, the kept tail as far as it lies ahead of the anchor, the summary, the rest of the tail, and the new rows |
| `CompactionWindow.LiveSide` | app/agent/state.py:149-156 | what the live list sends after the sync: what was kept below, the summary, the kept tail, the new messages |
| `CompactionWindow.DbShape` | app/agent/checkpointer.py:81-129 | the synced table in position order: the rows below the cut, the summary, the kept tail, the new rows |
| `CompactionWindow.AlignedSplit` | app/agent/checkpointer.py:81-113 | the anchor cuts the stored rows where the live list was cut |
| `CompactionLimits.PinnedHeadReorders` | app/agent/checkpointer.py:102-110 | the other case occurs: a pinned message heading the kept tail is passed over as the anchor and then shown ahead of the summary |
| `HistoryCache.LoadIsFresh` | app/agent/checkpointer.py:321-370 | after any run of saves, syncs by any checkpointer, releases, cancels, loads and invalidations, a load serves what a fresh derivation gives |
| `HistoryCache.FitIsFresh` | app/agent/checkpointer.py:337-342 | an equal revision and cursor mean the memo is the fresh window |
| `LoadLaws.MemoServed` | app/agent/checkpointer.py:334-370 | the memo is served exactly while both revisions and the newest row's position are the ones it was taken at; otherwise the window is derived anew and remembered unless empty |
| `HistoryCache.LastPositionIs` | app/services/chat_service.py:110-121 | the cursor names the row that no row follows |
| `HistoryCache.NewRowsFollow` | app/agent/checkpointer.py:432-446 | a sync without a summary puts every new row behind all others |
| `HealedCache.HealKeepsCursorIff` | app/services/chat_service.py:277-301 | a heal leaves the cursor where it is exactly when every interrupted row has a row above it |
| `HealedCache.HealShowsIff` | app/services/chat_service.py:277-301 | a heal changes the window exactly when some interrupted row is not under the active summary's position |
| `HealedCache.HealFreshIff` | app/agent/checkpointer.py:337-342 | with a memo that fitted before the heal, the next load serves the healed window exactly when some interrupted row had no row above it or all lie under the summary |
| `HealedCache.HealStaleHappens` | app/agent/checkpointer.py:337-342 | the other case occurs: an interrupted call with a later user message is healed, and the window without the stub is served |
| `HistoryPages.GetAgentHistory` | app/services/chat_service.py:1107-1173 | the query-and-reverse steps return the newest hundred visible rows before the cursor in reading order, whether there are more, and the oldest one's position |
| `WindowLaws.UserSees` | app/services/chat_service_revert.py:233-235 | the user is shown chat, queued and summary rows, in position order, and no note or reverted row |
| `WindowLaws.PageIs` | app/services/chat_service.py:1107-1173 | a page is the last hundred shown rows before the cursor, with whether there are more and the first row's position; a cursor without an id stands before every row of its position |
| `WindowLaws.DeltaIs` | app/services/chat_service.py:1073-1084 | a delta is the first shown rows created after the cursor, up to the limit, in position order, and says whether that was not all |
| `HistoryPages.WalkIsShown` | app/services/chat_service.py:1107-1173 | walking the pages by their cursors ends and puts together exactly the visible rows, each once, in order, despite ties |
| `HistoryPages.WalkIsOlder` | app/services/chat_service.py:1107-1173 | the same from any cursor, in one page for each hundred rows begun |
| `HistoryPages.OlderPagesStay` | app/services/chat_service.py:858-864 | rows written behind the cursor while the user scrolls change no older page |
| `HistoryPages.LegacyCursorIff` | app/services/chat_service.py:858-864 | a cursor without an id reads on correctly exactly when no earlier visible row shares the boundary's position |
| `MemberPages.MemberWalkIff` | app/services/chat_service.py:947-994 | while a lead of any number of pages is scrolled, a member session is shown whole, each row once and in order, exactly when between one lead cursor and the next it has as many rows as the page fetches and the rest fits the last page |
| `HistoryPages.UntruncatedDelta` | app/services/chat_service.py:1073-1084 | a delta is flagged truncated exactly when more rows than the limit are newer, and otherwise is all of them |
| `HistoryPages.DeltaMergesIff` | app/services/chat_service.py:1047-1104 | sorting an untruncated delta into the client's rows gives the current history exactly when those rows are still shown unchanged |
| `Scheduler.TaskScheduler.SpawnFire` | app/scheduler/scheduler.py:478-484 | a spawn adds one to the firings owed |
| `Scheduler.TaskScheduler.Discard` | app/scheduler/scheduler.py:486-494 | the done-callback takes one off, and collects the version entry with the last unless the task is firing |
| `Scheduler.TaskScheduler.InvalidateFire` | app/scheduler/scheduler.py:498-502 | an administrative change moves the version, unless nothing could hold the old one |
| `Scheduler.TaskScheduler.EnterFire` | app/scheduler/scheduler.py:561-571 | a firing enters exactly when its version is current and the task is not firing |
| `Scheduler.TaskScheduler.LeaveFire` | app/scheduler/scheduler.py:577-580 | leaving frees the task, and its version unless firings are owed |
| `Scheduler.TaskScheduler.MarkRunning` | app/scheduler/scheduler.py:642-655 | the row is marked exactly when it exists, is enabled and has runs left |
| `Scheduler.TaskScheduler.CountRun` | app/scheduler/scheduler.py:771-807 | one run is counted on an existing row, and its next status follows pause, error, limit and schedule |
| `Scheduler.TaskScheduler.RescheduleWithoutFiring` | app/scheduler/scheduler.py:582-610 | only an enabled, unpaused row of the current version goes back to pending |
| `Scheduler.TaskScheduler.MarkFireCancelled` | app/scheduler/scheduler.py:612-632 | only a running row is restored |
| `Scheduler.TaskScheduler.Update` | app/scheduler/scheduler.py:265-325 | the merged fields are written, a running status is taken back, and firings in progress go stale |
| `Scheduler.TaskScheduler.Pause` | app/scheduler/scheduler.py:376-393 | the row is disabled and firings in progress go stale |
| `Scheduler.TaskScheduler.Resume` | app/scheduler/scheduler.py:395-425 | the row is enabled again unless its runs are used up, and firings in progress go stale |
| `Scheduler.TaskScheduler.Remove` | app/scheduler/scheduler.py:327-341 | the row is deleted and firings in progress go stale |
| `Scheduler.TaskScheduler.Trigger` | app/scheduler/scheduler.py:427-462 | a firing is owed unless the runs are used up; a disabled row is enabled |
| `SchedulerBooks.BooksAlways` | app/scheduler/scheduler.py:478-580 | in every reachable state: one lock holder, one process per firing task, exact pending counts, version entries only where needed, captured versions behind the current one exactly when stale |
| `SchedulerBooks.FiringsNeverOverlap` | app/scheduler/scheduler.py:561-580 | two firings of one task are never under way at once, in any interleaving of timers, triggers, restarts and cancellations |
| `SchedulerBooks.DispatchIffCurrent` | app/scheduler/scheduler.py:681-683 | a dispatch begins exactly when no update, pause, resume or removal came since the firing captured its version; collecting version entries neither hides nor feigns one |
| `SchedulerBooks.StaleIff` | app/scheduler/scheduler.py:498-502 | a firing is stale exactly when such a call on its task came after its capture |
| `SchedulerBooks.VersionsCollected` | app/scheduler/scheduler.py:478-502 | version entries exist only for tasks with a live firing, and all books are empty when none is left |
| `SchedulerTask.StepSeen` | app/scheduler/scheduler.py:556-807 | every step of the system is one event of a small machine of one task: its row, the firing inside it, and whether a call is rewriting it |
| `SchedulerRuns.DispatchesConserved` | app/scheduler/scheduler.py:657-807 | along any run, the dispatches begun and the attempts that failed before one are exactly the runs the row counts, those refused, those cancelled, and the one under way |
| `SchedulerLaws.CountMeans` | app/scheduler/scheduler.py:775-807 | what a count makes of a row, field by field: a disabled or paused row keeps its status, an error fails it, the last good run completes and disables it, a one-shot schedule completes it, any other good run leaves it pending |
| `SchedulerLaws.DispatchCounts` | app/scheduler/scheduler.py:684-807 | a firing in its dispatch, left alone, counts its row: as failed exactly when the agent failed |
| `SchedulerLaws.PutOff` | app/scheduler/scheduler.py:582-610 | a firing refused by a busy session or an unanswered question, left alone, counts nothing: a current one puts an enabled, unpaused row back to pending, any other changes nothing |
| `SchedulerLaws.CancelRestores` | app/scheduler/scheduler.py:574-632 | a cancelled firing, left alone, puts a running row back to pending or, when disabled, to paused, and changes no other |
| `SchedulerLaws.MarkMeans` | app/scheduler/scheduler.py:642-655 | a firing waiting for its mark sets running exactly a row that is enabled and has runs left, and otherwise is over |
| `SchedulerLaws.CallMeans` | app/scheduler/scheduler.py:265-462 | what update, pause, resume, removal and trigger make of their row, field by field, and that they touch no other |
| `SchedulerLaws.CallSpawns` | app/scheduler/scheduler.py:427-462 | a firing is spawned exactly by a trigger of a row with runs left |
| `SchedulerLaws.CallOutdates` | app/scheduler/scheduler.py:496-502 | an update, pause, resume or removal of a task that exists outdates every version captured for it, and no other call outdates any |
| `SchedulerLaws.CreateMeans` | app/scheduler/scheduler.py:160-185 | a task is stored as given under a new id, and completed at once when its runs are used up |
| `SchedulerLaws.EntryMeans` | app/scheduler/scheduler.py:561-571 | a spawned firing enters exactly when its version is current and its task is not firing |
| `SchedulerLaws.TimerMeans` | app/scheduler/scheduler.py:552-571 | a timer's firing enters at once, under the current version, exactly when its task is not firing |
| `SchedulerLaws.CancelMeans` | app/scheduler/scheduler.py:572-580 | what a cancellation does in each phase of a firing |
| `SchedulerLaws.CompletedAndPaused` | app/scheduler/scheduler.py:265-807 | along any run without an edit of limit, schedule kind or enablement, a completed row is one-shot or used up and a paused one is disabled |
| `SchedulerLaws.EditRightIff` | app/scheduler/scheduler.py:265-325 | which updates break those two, exactly |
| `SchedulerCases.PausedEnabledHappens` | app/scheduler/scheduler.py:312-325 | a run from the start: a paused task enabled by an update stays paused |
| `SchedulerCases.CompletedRecurringHappens` | app/scheduler/scheduler.py:312-325 | a run from the start: a one-shot task that has run and is made recurring stays completed |
| `SchedulerLimits.LimitSafeIff` | app/scheduler/scheduler.py:642-807 | from any reachable state, no continuation short of an edit of the limit passes it exactly when it has room for the runs counted and a firing past its mark |
| `SchedulerLimits.EditSafeIff` | app/scheduler/scheduler.py:265-325 | an edit of the limit is safe exactly when it leaves room for the current count and a firing past its mark |
| `SchedulerLimits.RunsWithinLimit` | app/scheduler/scheduler.py:642-807 | in every interleaving the run count stays within the limit, provided each edit of the limit leaves that room |
| `SchedulerCases.LimitPassed` | app/scheduler/scheduler.py:320-325 | a run from the start counts two runs of a limit of one: the limit is lowered while a triggered firing is under way |
| `SchedulerRunning.StrandedIff` | app/scheduler/scheduler.py:556-807 | in any reachable state a step leaves a row running with nobody to settle it exactly when it strands it in one of four ways, or it was so and the step does not take the row up again |
| `SchedulerRunning.RunningIsOwned` | app/scheduler/scheduler.py:556-807 | without such a step, a running row always has a firing that will settle it or a call that will rewrite it |
| `SchedulerRunning.StrandedStays` | app/scheduler/scheduler.py:556-807 | a stranded row says running until a current firing marks it, a firing is cancelled inside, a call rewrites it or a trigger completes it |
| `SchedulerCases.MarksStaleHappens` | app/scheduler/scheduler.py:642-683 | first way, a run from the start: a triggered firing made stale while it waits marks its row and stands down |
| `SchedulerCases.GivesUpHappens` | app/scheduler/scheduler.py:265-325 | second way: an update that fails after it has moved the version |
| `SchedulerCases.CancelledAgainHappens` | app/scheduler/scheduler.py:574-632 | third way: a firing cancelled again while it restores its row |
| `SchedulerCases.RefusedStaleHappens` | app/scheduler/scheduler.py:713-724 | fourth way: a dispatch refused after such an update |
| `Bytes.BigEndianRoundTrip` | scripts/generate_icons.py:82 | 32-bit big-endian lengths round-trip both ways (RFC 2083 section 2.1) |
| `PngFilters.PaethNearest` | scripts/generate_icons.py:126-129 | the predictor picks the neighbour nearest to left plus up minus corner, ties going left, then up (RFC 2083 section 6.6) |
| `PngLaws.RowUndone` | scripts/generate_icons.py:111-131 | each byte of a recovered row in the standard's terms: plus the byte to the left, above, their average rounded down, or the nearest of three, modulo 256 (RFC 2083 section 6) |
| `PngLaws.ReadRowsMean` | scripts/generate_icons.py:100-132 | every row of any image read is what its scanline stands for under the row above |
| `PngFilters.RecoverInvertsFilter` | scripts/generate_icons.py:111-131 | undoing any filter recovers the row, whatever the type, the row and the row above |
| `PngFilters.FilterInvertsRecover` | scripts/generate_icons.py:111-131 | filtering the recovered row gives the filtered bytes back, so no two stand for one row |
| `PngFilters.UnfilterRow` | scripts/generate_icons.py:111-131 | the in-place loops over the row buffer recover exactly the specified row, first pixel and first row included |
| `PngFilters.ReadPixels` | scripts/generate_icons.py:100-132 | the loop over scanlines stores exactly the recovered rows |
| `PngFilters.PixelsInvertScanlines` | scripts/generate_icons.py:100-132 | for every image and every choice of filter per row the reader gives the image back |
| `PngChunks.ParseChunks` | scripts/generate_icons.py:77-97 | the index loop returns what the chunk-by-chunk specification does, errors included |
| `PngChunks.ReadPng` | scripts/generate_icons.py:73-132 | reading a file returns the image or the error of the first thing wrong |
| `PngChunks.WritePng` | scripts/generate_icons.py:135-155 | writing returns the specified file, or fails exactly when a size does not fit 32 bits |
| `PngChunks.DataChunksJoin` | scripts/generate_icons.py:92-99 | the stream is the same however it is split into IDAT chunks (RFC 2083 section 4.1.3) |
| `PngChunks.FileParses` | scripts/generate_icons.py:77-97 | the chunk loop finds the header's size and the joined stream of any written file |
| `PngLaws.ChunkMeans` | scripts/generate_icons.py:80-97 | what one chunk does to the reader, whatever its checksum: a header sets the size or is refused, data is appended, the end ends it, others are passed over |
| `PngLaws.AnyLayoutReadsBack` | scripts/generate_icons.py:73-132 | any RGBA image reads back under any filters and splitting, with other chunks in between, a longer header, any checksums, and bytes behind the end or the scanlines |
| `PngLaws.Refused` | scripts/generate_icons.py:73-99 | a file without the signature or without a header is refused |
| `PngLaws.FileLays` | scripts/generate_icons.py:142-155 | a written file byte for byte: signature, header with size and format, data, end, each chunk with the checksum of its type and data |
| `PngChunks.AnyEncodingReadsBack` | scripts/generate_icons.py:73-132 | any RGBA image, under any filters and any splitting of its stream, reads back as itself |
| `PngChunks.WrittenReadsBack` | scripts/generate_icons.py:135-155 | reading what the writer wrote returns the same width, height and pixels |
| `JsonlWriter.JsonlBatchWriter.Write` | app/core/jsonl_writer.py:119-143 | a record is queued exactly when the queue has room, and otherwise dropped |
| `JsonlWriter.JsonlBatchWriter.Close` | app/core/jsonl_writer.py:145-156 | the stop flag is set and a sentinel queued if there is room |
| `JsonlWriter.JsonlBatchWriter.Group` | app/core/jsonl_writer.py:206-209 | the grouping loop gives each partition exactly its records, in order |
| `JsonlWriter.JsonlBatchWriter.Flush` | app/core/jsonl_writer.py:204-226 | each file gains the records of its partition as far as the disk takes them, and without errors all are counted |
| `JsonlRuns.RecordsConserved` | app/core/jsonl_writer.py:160-202 | in every interleaving accepted records are flushed, then batch, then queue as one sequence, and each file without a failed append is the subsequence of its key |
| `JsonlRuns.ClosedWritesAll` | app/core/jsonl_writer.py:145-202 | once the flusher has ended, the records accepted before the close head their files, each once and in order, where no append failed |
| `JsonlRuns.BoundedMemory` | app/core/jsonl_writer.py:160-192 | the queue always, and the batch until the shutdown drain, stay within their configured sizes |
| `JsonlLaws.WriteQueues` | app/core/jsonl_writer.py:119-143 | a record is accepted behind all others exactly when the queue is unbounded or has room |
| `JsonlLaws.CloseQueues` | app/core/jsonl_writer.py:145-156 | a close sets the flag and leaves one sentinel if there is room |
| `JsonlLaws.BatchWritten` | app/core/jsonl_writer.py:185-192 | when a batch is full or the interval is over it is written whole, else it waits as it is |
| `JsonlLaws.FileGains` | app/core/jsonl_writer.py:204-226 | a flush adds to each file the records of its partition, in order, as far as the append reaches |
| `JsonlLaws.SentinelStops` | app/core/jsonl_writer.py:168-183 | a sentinel ends a wait by going to the shutdown drain and a gathering by deciding, and is never written |
| `JsonlLaws.ShutdownEnds` | app/core/jsonl_writer.py:145-202 | once the flag is set and writers are quiet the flusher ends within its queue's length and six steps |
| `JsonlLaws.CloseFlushesAll` | app/core/jsonl_writer.py:145-202 | a first close in any run, with quiet writers after it, ends with every record accepted by then flushed |
| `JsonlRuns.WrittenIffBeforeLastLook` | app/core/jsonl_writer.py:119-202 | in every run that ends the flusher there is one last look at the queue: what is flushed is exactly the records accepted before it, and nothing later ever is |
| `JsonlRuns.FlushedByLastLook` | app/core/jsonl_writer.py:160-202 | the same at a given last look, with each file that had no failed append exactly the subsequence of its key |
| `JsonlRuns.LateRecordUnwritten` | app/core/jsonl_writer.py:119-128 | a run from the start in which a record is accepted after that look and left unwritten |
| `RequestLimit.RequestSizeLimit.ConsumeRequest` | app/core/middlewares.py:235-246 | reading ahead buffers and counts to the end of the request |
| `RequestLimit.RequestSizeLimit.SendWrapper` | app/core/middlewares.py:248-253 | a response message is forwarded only after the request is complete |
| `RequestLimit.RequestSizeLimit.ReceiveWrapper` | app/core/middlewares.py:255-268 | buffered messages are replayed first, later ones counted as they come |
| `RequestLimit.LimitHolds` | app/core/middlewares.py:231-282 | for every conforming request and order of calls: what was received is delivered or buffered in order, the app gets no more than the limit, and a 413 is sent exactly when the limit was passed and never after another response |
| `RequestLimit.DeclaredRefused` | app/core/middlewares.py:209-230 | an oversized declared length is refused unread; any other is not trusted |
| `RequestLaws.ReadOutcome` | app/core/middlewares.py:255-268 | a read hands over the next message of the stream, waits exactly at its end, and fails exactly when that message takes the body over the limit |
| `RequestLaws.SendOutcome` | app/core/middlewares.py:248-253 | a send goes out, adding its own message, exactly when the whole body is within the limit and the request ends; it fails exactly when the body is over the limit |
| `RequestLaws.CallsInOrder` | app/core/middlewares.py:231-282 | while no call fails or waits, n reads have handed over the first n messages and what was sent is the app's own messages in order |
| `RequestLimit.OverHandedIff` | app/core/middlewares.py:231-282 | whatever an app does with size errors, it has been handed more than the limit exactly when the count passes it by more than is still buffered or was lost |
| `RequestLimit.CaughtSendIff` | app/core/middlewares.py:235-253 | when the first error comes from a send, an app that carries on is handed more than the limit exactly when its reads reach the message the send failed on |
| `RequestLimit.CaughtReadKeeps` | app/core/middlewares.py:255-268 | when it comes from a read, an app that only reads on never gets past the limit: the message is gone |
| `RequestLimit.CaughtErrorReplays` | app/core/middlewares.py:235-242 | the first case occurs with one oversized message, a send and a read |
| `DeniedPaths.LongestPrefixWins` | app/agent/denied_paths.py:162-174 | a path is denied by a root exactly when the deepest denied root above it is strictly deeper than every allowed root above it |
| `DeniedPaths.PatternsAlwaysDeny` | app/agent/denied_paths.py:162-179 | a matching user pattern denies whatever the roots say |
| `DeniedPaths.VerdictIs` | app/agent/denied_paths.py:162-179 | the verdict names the first denied root above the path with no allowed root between the two, else the first matching pattern, else nothing |
| `DeniedPaths.DeniedPathPolicy.ShieldedDeniedRoots` | app/agent/denied_paths.py:181-206 | the memoised table is the one recomputed from the configuration |
| `DeniedPaths.DeniedPathPolicy.IsDenied` | app/agent/denied_paths.py:162-179 | the verdict over the memo is the verdict recomputed for the path alone |
| `Uploads.Dedupe` | app/services/agent_service.py:279-291 | the search ends within one try more than the directory has names, with a name not in it: the given one if free, else the first free numbered one |
| `Uploads.CandidateInjective` | app/services/agent_service.py:285-289 | different numbers give different names |
| `Uploads.CandidateIs` | app/services/agent_service.py:285-289 | a numbered name is what fits of the stem in 200 characters without spaces at its end, the number in parentheses in decimal, and the extension |
| `Uploads.CandidateFits` | app/services/agent_service.py:285-289 | a numbered name fits 200 characters whenever extension and number leave six |
| `Uploads.TightCandidateFits` | app/services/agent_service.py:285-289 | with less room it fits exactly when some of the stem survives trimming |

## Left out

- CompactionCut.WindowIsLiveListIff: takes the shape the summarisation hook leaves as its conditions: below the summary exactly the unpinned messages are excluded and lie before the anchor's tie block, the kept tail is in context, both have rows and follow their order, there is room before the anchor (`Room.AnchorAlwaysLeads` provides it), one new summary, new messages behind it, the pin record is right and user messages not yet registered agree with their rows, and stored rows outside the list are unshown or below the cut. New user messages without a row id, the hook's choice of what to keep, and the comparison of messages beyond the ids of their rows are not modelled.
- HealTwice.HealSettlesIff: asks that replies recorded so far sit in the run behind their calls with distinct ids, and that no row shares an orphan's position; with shared positions `Heal.HealRowsBlocks` says where stubs go, and they may stand behind another row than their call.
- HealTwice.HealedView: the same condition on shared positions.
- HealTwice.AnsweredIffSettled: the same condition on recorded replies.
- Heal.HealRowsView: the same condition on shared positions; Heal.HealRowsBlocks is without it.
- HistoryCache.LoadIsFresh: in-place edits of a row's extra fields, undo and redo, and heals (see HealedCache) are not among the steps; the memo stands for the loaded messages through its rows.
- Checkpointer.Checkpointer.Sync: the message list holds each object once, one session is modelled, and object identities are not reused; seeded token counts and the stream-buffer commit are not modelled.
- WriteBackRuns.StoredOnce: one checkpointer and one session; messages that leave the list do not come back to it, and the window of a memo hit is taken to be the table's, as HistoryCache.LoadIsFresh shows for every step but a heal.
- WriteBack.SyncTwice: only the repeat at once; runs are the subject of WriteBackRuns.
- WriteBack.PinsWrittenIff: assumes a right record; WriteBackRuns says when it is.
- TurnReturns.TurnComesBack: asks that no older call that fails to parse shares an id with one of the turn's replies; reasoning text comes back only as far as it makes an assistant due.
- Room.AnchorAlwaysLeads: asks that summaries make no calls and that a stored summary is never the anchor, which the summarisation hook sees to by excluding earlier summaries.
- Store.SessionStore.SaveMessage: reasoning text, names, parts and display timestamps are not stored; of the extra fields only the two flags that choose kind and pin and the attachment link are kept.
- Deserialize.DeserializeMessages: attachment hints and the content overrides applied behind it are not modelled; the JSON parser is a predicate.
- HistoryPages.UntruncatedDelta: the truncation flag of one session; members' flags are combined with it in the original.
- HistoryPages.DeltaMergesIff: one session; the per-member deltas and their combined truncation flag are not modelled.
- SchedulerBooks.BooksAlways: timers are not tracked by name: any task may be fired by a timer at any time, which covers every behaviour of the timer table but says nothing about a timer being missing.
- SchedulerLimits.RunsWithinLimit: database failures inside a locked section are not modelled, except that an administrative call may fail before it writes; when a task next fires may be any time.
- Scheduler.TaskScheduler.Update: the cancelling and restarting of the task's timer; in the step system a timer may fire at any time and any firing may be cancelled.
- Scheduler.TaskScheduler.Pause: the cancelling of the task's timer.
- Scheduler.TaskScheduler.Resume: the restarting of the task's timer.
- Scheduler.TaskScheduler.Remove: the cancelling of the task's timer.
- Scheduler.TaskScheduler.Trigger: the restarting of the task's timer.
- PngChunks.ReadPng: a stream too short for its scanlines is an error here, while the original lets the pixel buffer shrink when the cut row is unfiltered or is a first row under the Up filter; zlib and CRC-32 are function parameters, with only the inverse law assumed of zlib.
- JsonlRuns.ClosedWritesAll: a failed append counts against its whole partition; a record whose encoding raises ends the original's flusher thread and is not modelled.
- JsonlWriter.JsonlBatchWriter.Close: the join with the flusher thread and its timeout.
- JsonlWriter.JsonlBatchWriter.Flush: an encoding error inside a partition.
- RequestLimit.LimitHolds: the app makes one call at a time; two calls waiting at once may take client messages in either order.
- DeniedPaths.DeniedPathPolicy.IsDenied: a path is a sequence of resolved components; resolving symbolic links and compiling patterns are not modelled.
- Uploads.Dedupe: takes the stem and extension apart from the name; cleaning an uploaded name and categories of files are not modelled.
- Window.ActiveSummary: the optional undo boundary is left unset.
- Undo, redo and the clean-up of reverted tails: the undo boundary is unset throughout.
- Turn life cycle, providers, tools, routes and user interfaces: foreign code.
- Box resizing and compositing of icons, and the regeneration of platform icons.
- Settings, cost sums and partition name formats: they would only add easy members.
