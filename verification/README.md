# Verified models of msgvault's sync engines and daemon protocols

msgvault archives messages, calendar events and meetings from services it does not control, and runs a
daemon that must not let a backup, an index rebuild and a sync step on each other. This project models
the parts of it that are easy to get wrong and proves what they are for: a stored cursor never claims more
than the archive holds, a backup window has the operation gate to itself for as long as it thinks it has, a
transcript once archived is never lost, and a few smaller results that hold exactly.

The files follow the program's components. Code that changes records step by step is modelled as classes
and methods that change their fields, each proved to compute a specification function; what the program
promises is then proved about those functions, over every sequence of runs, calls or interleaved steps.

- `BeeperState`, `BeeperWalk`, `BeeperImporter`, `BeeperRuns`, `BeeperGap` - the two-cursor walk over a Beeper
  chat, the merge of a baseline with a checkpoint, whole lineages of runs with crashes and failures, and one
  lineage in which a failed read leaves a hole.
- `BeeperParticipants` - resolving Beeper users to participants, with merges.
- `CalendarRows`, `CalendarSync` - the calendar event upsert, and full, resumed, bounded, incremental and
  expired runs against one stored sync token.
- `OperationGate`, `ServerProtocols`, `ServerTraces` - the operation gate, backup freeze windows with their
  watchdog, index rebuilds and the ungated index worker as one transition system, and its executions.
- `IdleShutdown` - the idle tracker.
- `CirclebackRetry`, `CirclebackTranscript`, `CirclebackImport` - the retry scheduler, the transcript shapes,
  and the import run with its recovery after failed runs.
- `SchemaRewrite` - the in-place rewrite of a cyclic schema graph.
- `ContentVerify`, `HybridPaging`, `IdentifierNames` - the verifying stream reader, windowed paging, and the
  file-name encoding. `Options` and `Text` are shared helpers.

How the outside world appears:

- A Beeper chat on the server is a growing sequence of messages; a cursor is a position in it, which the
  importer only compares for equality and emptiness. What the server answers to each request is any page
  allowed by the paging contract (`ServesBefore`, `ServesAfter`), or a failure, or a cancellation.
- A calendar is a log of changes and a sync token a position in it. A listing delivers, for every key it
  mentions, a version no older than what its token will cover, and is never behind a token handed out before.
- The daemon's threads stand at program points; one move is one stretch between synchronisation points.
- Crashes are scripts that end early: everything a run has written stays, everything it held is gone.
- The hash of the stream reader is a parameter of every statement about it.

Four claims one might expect are false of the code, and are stated with their exact conditions:

- `Done` is or-ed when a baseline is merged with a checkpoint, so a merge can claim messages that were never
  fetched when the checkpoint does not descend from the baseline. That happens after an interrupted `--full`
  run, and also after an ordinary run whose read of the baseline failed: a failed read is passed over, and the
  run starts from nothing. `UnreadBaselineLeavesGap` is such a lineage. `MergeIsHonestExactly` says when a merge
  is right: when no gap opens between what the two records claim. (The importer could not check that itself: it
  compares positions, which only the server knows.) `StartsHarmlessExactly` says which starts keep a chat's
  record a descendant of the baseline's: those without `--full` that could read the baseline or a checkpoint,
  and all starts while the baseline has nothing of the chat.
- A chat that was empty when its backfill finished is walked again with `Done` still set. Such a walk is right
  exactly when it ends by exhaustion or its cursors reach the beginning (`RewalkEndsHonest`,
  `RewalkHonestExactly`); one that stops early passes for finished. Whatever the server answers it is right
  exactly up to one message (`RewalkSafeExactly`). Likewise a chat that is gone from the server is marked
  done: `VanishedIsHonestExactly`.
- A set "index complete" flag can be stale: a rebuild fits between the worker's second generation load and its
  store (`RebuildFitsBetween`). The flag is right throughout an execution exactly when no such store falls between
  a rebuild's forget and its next successful fill (`FlagSoundExactly`), and so whenever every such store still
  finds the generation its check passed on (`FlagSoundWhenUnmoved`).
- A persist is six writes: the message row, metadata, body, raw event, sender and attendees. Replaying a delta
  after attempts that broke off converges to one clean pass exactly when no cancellation of an unseen event
  broke off, the first time it wrote anything, after its message row and with something still to write: its raw
  event, or recipients it has. The retry finds the row and only sets its status
  (`HalfPersistExactly`, `ReplayConvergesExactly`; `ReplayConverges` is the case of whole persists). A
  broken-off update may also leave a row with parts of several changes; `TokenNeverAhead` says that no part is
  older than what the stored token covers.

In the lineage results the first two are told chat by chat: a chat is `exempt` while nothing is promised for it.
`HarmlessChatIsHonest` discharges that from the actions on that chat alone, whatever happens to others, and
`CompletedRunRepairs` says which completed runs, `--full` ones among them, restore the promise.

A smaller one: a retry record whose schedule has a fraction of a second can be renewed once after its stored
deadline (`ExpiredEndsExactly`, `FractionRenews`).

## Model

| member | source | states |
|---|---|---|
| BeeperState.ChatState.Absorb | internal/beeper/syncstate.go:94-104 | the per-chat merge, in place: the other record's cursors and buffer where it has them, `Done` or-ed |
| BeeperState.SyncState.EnsureChat | internal/beeper/syncstate.go:72-79 | makes the record if it is missing and changes no other |
| BeeperState.SyncState.Merge | internal/beeper/syncstate.go:86-112 | the in-place merge of every chat equals the merge function; the other state is untouched; anchors and watermark as promised |
| BeeperState.MergeOfDefiningCheckpoint | internal/beeper/syncstate.go:81-105 | merging with a checkpoint that descends from the baseline keeps the checkpoint's cursors exactly |
| BeeperState.MergeDefinesBoth | internal/beeper/syncstate.go:86-105 | a merge loses no value of either side |
| BeeperWalk.BackfillTurnKeepsWalk | internal/beeper/importer.go:398-476 | one backfill round, whatever the server serves and wherever it fails, keeps everything between the cursors settled |
| BeeperWalk.BackfillKeepsCoverage | internal/beeper/importer.go:355-476 | the same over the whole walk, of a chat whose backfill began unfinished; and every message whose ID is in the duplicate window has been processed |
| BeeperWalk.ExtendTurnKeepsWalk | internal/beeper/importer.go:480-531 | one incremental round keeps all of history through the newest cursor settled, reaction refetches included |
| BeeperWalk.ExtendKeepsCoverage | internal/beeper/importer.go:480-531 | the same over the whole incremental fetch |
| BeeperWalk.ExtendGoesOnOnlyForward | internal/beeper/importer.go:503-530 | the incremental loop goes on only past a page that moved its cursor forward |
| BeeperWalk.ExtendTerminates | internal/beeper/importer.go:480-531 | so it fetches at most once more than there are messages past its cursor |
| BeeperWalk.BackfillTerminates | internal/beeper/importer.go:355-476 | if page items are new or repeat one of the last five pages, the backfill ends after at most one fetch more than there are messages |
| BeeperWalk.RewalkEndsHonest | internal/beeper/importer.go:281-286 | a re-walk of a chat finished while empty that ends by exhaustion leaves an honest record |
| BeeperWalk.RewalkSafeExactly | internal/beeper/importer.go:281-283 | under every answer of the server it is safe exactly while the chat has at most one message |
| BeeperWalk.RewalkLeavesGap | internal/beeper/importer.go:281-299 | the execution in which it passes for finished |
| BeeperImporter.RecentIdWindow.Contains | internal/beeper/importer.go:373-380 | finds exactly the IDs of the remembered pages |
| BeeperImporter.RecentIdWindow.Add | internal/beeper/importer.go:382-391 | appends a page and drops the oldest beyond the bound |
| BeeperImporter.ChatScope.ProcessMessage | internal/beeper/importer.go:584-613 | archives exactly the messages that are to be stored and buffers their replies |
| BeeperImporter.ChatScope.BackfillChat | internal/beeper/importer.go:398-476 | the loop in place follows the walk round by round, offers exactly the walk's records to the checkpoint, and ends |
| BeeperImporter.ChatScope.IncrementalChat | internal/beeper/importer.go:480-531 | the loop in place follows the incremental walk and ends |
| BeeperImporter.ChatScope.FlushReplies | internal/beeper/importer.go:779-786 | applies the buffered links in order and empties the buffer |
| BeeperImporter.OffersAreJustified | internal/beeper/importer.go:459-464 | every record a backfill hands to the throttled checkpoint is honest, not only the last |
| BeeperRuns.MergeIsHonestExactly | internal/beeper/syncstate.go:86-105 | a merge of two honest records is honest exactly when no gap opens between their claims |
| BeeperRuns.ResumeOk | internal/beeper/importer.go:79-92 | whichever of the two saved states could be read, what the next run loads is honest |
| BeeperRuns.EndChatKeeps | internal/beeper/importer.go:294-299 | flushing and emptying the reply buffer of a finished chat loses no link |
| BeeperRuns.StepKeeps | internal/beeper/importer.go:79-208 | every step of a run, starts with failed reads, every new message, crash and completion keep the invariant of all saved and running copies |
| BeeperRuns.SavedRecordsAreHonest | internal/beeper/importer.go:79-531 | over every lineage, what a saved or merged record covers is archived, and its replies are linked or still buffered |
| BeeperRuns.HarmlessChatIsHonest | internal/beeper/importer.go:79-301 | chat by chat: a lineage with no harmful start, vanish mark or early end of a re-walk of this chat keeps that for it, whatever happens to other chats |
| BeeperRuns.StartsHarmlessExactly | internal/beeper/importer.go:79-115 | which starts keep a chat's record a descendant of the baseline's, failed reads and `--full` included |
| BeeperGap.UnreadBaselineLeavesGap | internal/beeper/importer.go:79-92 | the lineage, harmless but for one failed read of the baseline, whose next run claims a message nobody fetched |
| BeeperRuns.CompletedRunRepairs | internal/beeper/importer.go:79-208 | a completed run that resumed nothing bad of a chat, such as a `--full` run, restores the promise for it if it does not harm it itself |
| BeeperRuns.VanishedIsHonestExactly | internal/beeper/importer.go:239-247 | marking a vanished chat done is honest exactly when its backfill had reached the beginning |
| BeeperRuns.RewalkHonestExactly | internal/beeper/importer.go:398-476 | what a given re-walk claims is honest exactly when it ended by exhaustion or its cursors reach the beginning |
| BeeperParticipants.ParticipantResolver.ResolveUser | internal/beeper/participants.go:48-89 | the caches and tables after a call, and its answer |
| BeeperParticipants.ParticipantResolver.RecordRich | internal/beeper/participants.go:99-119 | folds a weaker owner into the row, points the identifier at it, moves the caches |
| BeeperParticipants.ParticipantResolver.ResolveID | internal/beeper/participants.go:124-140 | the bare-ID rung |
| BeeperParticipants.ResolveUserKeeps | internal/beeper/participants.go:48-119 | one call keeps rows single-owned, caches right, and every ID handed out in its user's row |
| BeeperParticipants.NeverForks | internal/beeper/participants.go:48-140 | over any calls in any runs all IDs handed out for a user are in one row, which is no other user's |
| BeeperParticipants.StrengthNeverDrops | internal/beeper/participants.go:67-84 | bare ID, email, phone: no call weakens what is known of any user |
| BeeperParticipants.ChangedNumberForks | internal/beeper/participants.go:104-111 | without the one-phone hypothesis a user does fork, as the code intends |
| CalendarRows.KeyIsIdentity | internal/calsync/persist.go:237-258 | two changes share a row exactly when they are of one event or one occurrence, given the service's alphabets |
| CalendarRows.StrayBarCollides | internal/calsync/persist.go:241-248 | without them two can collide |
| CalendarRows.CancellationKeepsTheRest | internal/calsync/persist.go:180-231 | a cancellation keeps everything of its row but the status, and touches no other row |
| CalendarRows.ReplayConvergesExactly | internal/calsync/persist.go:104-199 | after any attempts at a delta, broken off before or after any of an event's writes, persisting all of it leaves what one clean pass leaves exactly when no cancellation of an unseen event broke off, at its first turn that wrote anything, after its message row and with its raw event or some of its recipients unwritten |
| CalendarRows.HalfPersistExactly | internal/calsync/persist.go:104-199 | one persist that broke off after any number of its writes is made good by the next exactly when it is no such cancellation |
| CalendarRows.ReplayConverges | internal/calsync/incremental.go:160-176 | events persisted whole before, in any order, do no harm |
| CalendarSync.CalendarSyncer.Persist | internal/calsync/calsync.go:383-400 | the upsert in place, and what one leaves that broke off between its writes |
| CalendarSync.CalendarSyncer.SyncCalendarFull | internal/calsync/calsync.go:201-342 | the loop in place computes the run function on every script of answers and failures |
| CalendarSync.CalendarSyncer.IncrementalCalendar | internal/calsync/incremental.go:101-184 | the incremental loop in place computes its run function |
| CalendarSync.CalendarSyncer.SyncIncremental | internal/calsync/incremental.go:55-86 | full without a token, incremental with one, cleared and full after an expired one |
| CalendarSync.FullTurnKeeps | internal/calsync/calsync.go:259-316 | one turn of the full loop keeps the stored and the resumable token honest |
| CalendarSync.DeltaTurnKeeps | internal/calsync/incremental.go:113-158 | one turn of the incremental loop does too |
| CalendarSync.ListingReflects | internal/calsync/calsync.go:318-333 | a complete listing, all of it archived, reflects everything its token covers |
| CalendarSync.TokenNeverAhead | internal/calsync/calsync.go:201-342 | over every sequence of runs of every kind, whatever writes fail, a stored token covers no change unless every part of its archived row shows it or a later change of the event; a cancellation is shown by the status |
| CalendarSync.FullRunCursor | internal/calsync/calsync.go:318-333 | a full run moves the token only to one it reached unlimited and unbounded |
| CalendarSync.DeltaRunCursor | internal/calsync/incremental.go:160-182 | an incremental run moves it only when no item failed |
| CalendarSync.ResumedRunFinishes | internal/calsync/calsync.go:213-257 | a run resumed at a saved page stores the listing's token without refetching earlier pages |
| CalendarSync.ExpiredTokenHeals | internal/calsync/incremental.go:73-83 | an expired token is replaced by the one of an undisturbed full run |
| OperationGate.GateIsExclusive | internal/api/operation_gate.go:73-142 | in every interleaving at most one holder; semaphore, active and waiter counters agree under repeated releases |
| OperationGate.DrainedStaysIdle | internal/api/operation_gate.go:167-215 | once draining with nothing active, nothing becomes active |
| OperationGate.SerialOperationGate.TryAdmit | internal/api/operation_gate.go:110-124 | the section after the semaphore admits exactly a live context on a gate that is not draining |
| OperationGate.SerialOperationGate.ReleaseActive | internal/api/operation_gate.go:130-141 | the release decrements once, however often it is called |
| OperationGate.SerialOperationGate.WaitPoll | internal/api/operation_gate.go:183-205 | a wait that sees nothing active on a draining gate may return for good |
| ServerProtocols.StepKeeps | internal/api/backup_freeze.go:96-204 | every move of every thread keeps gate, windows, generation, workers and the index's builders consistent |
| ServerTraces.EndMeansHeldThroughout | internal/api/backup_freeze.go:137-163 | an end that clears a window finds that the window had the gate, alone, in every state since its begin replied |
| ServerTraces.ReleasedOnce | internal/api/backup_freeze.go:158-204 | a window's release takes effect once |
| ServerTraces.ClosedIsReleased | internal/api/backup_freeze.go:153-163 | and has when end replies |
| ServerTraces.ClearedIsOwn | internal/api/backup_freeze.go:184-204 | a closer gets the release exactly of its own token, if that window is open |
| ServerTraces.CloserTouchesItsWindowOnly | internal/api/backup_freeze.go:171-182 | and never releases another window |
| ServerTraces.DrainedForGood | internal/api/operation_gate.go:167-205 | after a drain no thread is ever at work under the gate |
| ServerTraces.OddMeansRebuilding | internal/api/cli_handlers.go:1538-1547 | the generation is odd exactly while a rebuild is between its bumps |
| ServerTraces.PassMeansNoOverlap | internal/api/cli_handlers.go:1440-1457 | a passed check means no rebuild overlapped since the snapshot load, and the index is complete |
| ServerTraces.GatedStoreIsRight | internal/api/cli_handlers.go:1462-1477 | the gated path needs no check: nobody else can empty the index before its store |
| ServerTraces.IncompleteExactly | internal/api/cli_handlers.go:1440-1457 | at an ungated store the index is incomplete exactly when a rebuild cleared it and nothing has filled it since |
| ServerTraces.FlagSoundExactly | internal/api/cli_handlers.go:1440-1457 | in an execution a set flag always means a complete index exactly when no ungated store falls between a rebuild's forget and its next successful fill |
| ServerTraces.FlagSoundWhenUnmoved | internal/api/server.go:168-174 | so it does when each store finds the generation its check passed on |
| ServerTraces.RebuildFitsBetween | internal/api/cli_handlers.go:1451-1454 | the execution in which a rebuild fits between check and store |
| IdleShutdown.DrainingIsQuiet | internal/api/idle.go:50-73 | draining means no active request or work, and the callback ran at most once, then |
| IdleShutdown.DrainsAfterFullTimeout | internal/api/idle.go:158-173 | a drain starts only a full timeout after the tracker was made and after a full timeout without any activity |
| IdleShutdown.WaitIsEnough | internal/api/idle.go:104-134 | the wait asked for is at most a timeout, and exactly as long as it takes |
| IdleShutdown.IdleTracker.NextWait | internal/api/idle.go:158-173 | the poll's decision and wait |
| IdleShutdown.IdleTracker.DoneExternal | internal/api/idle.go:136-156 | a done function counts down once |
| CirclebackRetry.RecordsAreInOrder | internal/circleback/importer.go:117-156 | every record attempts no later than its deadline and never moves a deadline earlier |
| CirclebackRetry.GivesUpExactly | internal/circleback/importer.go:119-134 | the scheduler gives up exactly when every deadline has come |
| CirclebackRetry.ExpiredEndsExactly | internal/circleback/importer.go:117-134 | an expired record ends the retries exactly when the schedule's week has run out too |
| CirclebackRetry.SpacedByCadence | internal/circleback/importer.go:136-149 | attempts are six hours apart, to the second |
| CirclebackRetry.AttemptsBounded | internal/circleback/importer.go:117-156 | a fixed schedule bounds the attempts by the time to the deadline |
| CirclebackRetry.AWeekOfAttempts | internal/circleback/importer.go:21-35 | at most 29 for a scheduled meeting, 9 for an unscheduled one |
| CirclebackRetry.Validate | internal/circleback/importer.go:158-189 | accepts exactly the valid cursors |
| CirclebackRetry.CompletedCursorValidates | internal/circleback/importer.go:158-189 | a completed cursor is accepted exactly when its IDs are not blank and differ by more than white space |
| CirclebackTranscript.ClassifyEntries | internal/circleback/types.go:503-524 | present, explicitly empty or unrecognized, exactly |
| CirclebackTranscript.ContentEntries | internal/circleback/types.go:527-538 | the entries with something said, in order, none added |
| CirclebackTranscript.ComposeThenRecover | internal/circleback/importer.go:1096-1108 | an archived transcript with content reads back as itself |
| CirclebackTranscript.DriftIsNotEmpty | internal/circleback/types.go:309-369 | a foreign entry shape is never archived as an empty transcript |
| CirclebackTranscript.EmptyExactly | internal/circleback/types.go:309-524 | a payload decodes as explicitly empty exactly when it names its meeting, has one of the two known fields, and its text and every entry are blank in a known shape |
| CirclebackImport.Importer.Handle | internal/circleback/importer.go:453-562 | the archive, the retries and the errors after one meeting |
| CirclebackImport.HandleKeeps | internal/circleback/importer.go:453-562 | no meeting leaves the archive, no content is lost, nothing else moves, whatever fails |
| CirclebackImport.HandledInStep | internal/circleback/importer.go:524-562 | without an error a meeting is archived, and retried exactly when archived as pending |
| CirclebackImport.PresentIsForGood | internal/circleback/importer.go:505-562 | archived content stays present and readable after every answer, in every kind of run |
| CirclebackImport.EmptyAnswerKeepsTranscript | internal/circleback/importer.go:507-522 | an answer without content keeps the archived transcript itself |
| CirclebackImport.Importer.ProcessBatch | internal/circleback/importer.go:325-580 | a clean batch leaves every meeting in step; expired and given-up meetings are not asked about again |
| CirclebackImport.Importer.Search | internal/circleback/importer.go:589-676 | a complete search leaves out only processed, retried, or unchanged and not pending meetings |
| CirclebackImport.RunHeals | internal/circleback/importer.go:582-682 | a complete traversal without errors accounts for every meeting the search returned |
| CirclebackImport.Importer.Import | internal/circleback/importer.go:217-713 | from whatever failed runs left, a completed unlimited run archives every returned meeting and stores the retry of every pending one; its cursor is valid; archived content is never lost |
| SchemaRewrite.Walk | internal/api/openapi.go:211-232 | the walk ends, visits only reachable schemas, deals with each once, and leaves the graph as it was |
| SchemaRewrite.WalkAll | internal/api/openapi.go:174-189 | with a shared visited set it visits exactly the reachable schemas |
| SchemaRewrite.ReplaceStrict | internal/api/openapi.go:151-172 | changes exactly the response-reachable, not request-reachable, strict schemas |
| SchemaRewrite.ReplaceTwice | internal/api/openapi.go:124-172 | two passes in place leave what the first one left |
| ContentVerify.ParsesExactly64Digits | internal/contentverify/reader.go:106-114 | an expected digest is 64 hexadecimal digits |
| ContentVerify.CaseDoesNotMatter | internal/contentverify/reader.go:24-27 | of either case |
| ContentVerify.EndIffWholeVerifies | internal/contentverify/reader.go:60-83 | at the source's end a read reports the end exactly when the whole-content check accepts the bytes delivered |
| ContentVerify.EndMeansVerified | internal/contentverify/reader.go:60-83 | no read reports the end of other bytes |
| ContentVerify.TerminalIsStable | internal/contentverify/reader.go:60-63 | a terminal result is returned again by every later read |
| ContentVerify.CloseExactly | internal/contentverify/reader.go:85-104 | a close succeeds exactly after a verified end, up to the source's own close error |
| ContentVerify.ReadCloser.ReadNext | internal/contentverify/reader.go:60-83 | the reader object computes the call function |
| HybridPaging.PageIsSlice | internal/api/handlers.go:746-930 | while the sums fit 64 bits a page is the window's slice and has_more is right |
| HybridPaging.LimitExactlyWhenFits | internal/api/handlers.go:760-892 | the search limit is the one meant exactly while they fit |
| HybridPaging.PanicsExactly | internal/api/handlers.go:927-930 | a request panics exactly when the start of its page and the page size overflow |
| HybridPaging.FollowReassembles | internal/api/handlers.go:746-930 | following has_more ends, stays in the window, and reassembles its part of the ranking |
| IdentifierNames.SanitizeIdentifier | internal/circleback/oauth.go:549-566 | the loop writes the encoding, which decodes back and has no path separator |
| IdentifierNames.RoundTrip | internal/circleback/oauth.go:543-548 | every identifier is recovered from its name |
| IdentifierNames.DecodedReencodes | internal/circleback/oauth.go:549-566 | and every name made of safe bytes and well-formed upper-case triples is some identifier's |
| IdentifierNames.EncodeIsInjective | internal/circleback/oauth.go:543-548 | two identifiers never share a file name |
| IdentifierNames.PlainPassesThrough | internal/circleback/oauth.go:543-545 | exactly the plain identifiers pass through unchanged |

## Left out

- Reading a saved state fails as a whole or not at all: a Beeper or calendar state that decodes is the one that was saved.
- Calendar checkpoint text: JSON of some kind around a page token, not characters.
- Beeper anchors: a lineage is of one installation; the probe that detects another is not part of this model.
- Beeper message text, media, edits, tombstones, mentions and reaction sets: a message is its ID, its kind and the reply it makes; marking a message deleted changes no row here.
- Beeper chat discovery by activity watermark: a run visits any chats in any order, so what the watermark skips is not modelled.
- Beeper counters, progress and per-item records.
- BeeperParticipants.NeverForks: assumes that no Beeper user ID begins with a plus sign, because IDs and phone numbers share one identifier namespace; store errors within a call are not modelled, and a merge is the survivor taking over what the absorbed row had.
- CalendarSync.TokenNeverAhead: runs of one calendar do not overlap.
- CalendarRows.ReplayConvergesExactly: participants, conversations and the full-text row are not modelled; the full-text write comes last, a failure of it is passed over and leaves a hole for a later index build.
- BeeperRuns.SavedRecordsAreHonest: runs of one source do not overlap; a lineage has one run at a time.
- CalendarRows.KeyIsIdentity: the text of an occurrence's start is taken as the service formats it.
- Calendar enumeration, source configuration, OAuth and the item error records.
- The gate's holder label and the choice of which paths are gated: tables without an invariant.
- Liveness of the gate: a waiting thread is never promised a turn, only that turns are exclusive.
- ServerProtocols.StepKeeps: freeze tokens are taken to be unique; new mail arriving in the index is outside "complete", which is about rebuild clears.
- IdleShutdown.DrainsAfterFullTimeout: the clock read under the lock does not go back.
- CirclebackImport.Importer.Import: the provider's meeting IDs have no white space around them, and transcripts reach the importer through the client's decoder; the skipped write of an unchanged snapshot, the order of the worklists and of the saved records, and the error texts are not modelled.
- CirclebackTranscript.EmptyExactly: JSON values, not their bytes: duplicate keys, keys in another case and white space inside an empty list are outside the model.
- SchemaRewrite.ReplaceStrict: the schemas form a finite closed set whose references resolve to schemas that are not references; the order of map iteration is any.
- ContentVerify: buffer sizes, and a source that is nil.
- HybridPaging.FollowReassembles: the ranking does not change between requests, and the total and the window plus the page size stay below 2^63; hits whose rows have disappeared are dropped after paging and not modelled.
- Token files, browser launch and the OAuth exchange around the file-name encoding.
- HTTP routing, JSON output, configuration, the SQL store, vector search and the command line: not part of this model.
