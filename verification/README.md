# moh's session engine, modelled and proved in Dafny

moh keeps long-running chat sessions in a backend. One actor owns each live session. It keeps four
copies of the session in step: the harness that drives the model run, the live projection that
snapshots are made of, the durable record, and the SQLite row that is written behind it. It streams
sequenced events through bounded queues to clients, which rebuild the same state and recover from
gaps. Restarts, failing writes, cancellation, deletion and late title generation interleave with all
of that. This project models those parts and proves what they promise.

## How the model is laid out

| file | what it holds |
|---|---|
| Prelude, Titles, TitleText | machine integers; title validation, the fallback title, clean-up of generated titles; what each clean-up step keeps and drops |
| Utf8, Lines, Capture, Readers | incremental UTF-8 decoding (section 4 of RFC 3629, maximal-subpart substitution of section 3.9 of the Unicode Standard), line splitting, the bounded tail, two readers of one store |
| Records | session values; the transcript grammar, the durable effect of run events, interruption |
| Repository, Store | what each repository operation does to whole records; the tables, their codecs and the statements that do it |
| Migration | the legacy tables and their migration |
| Projection, Harness | the live projection and the run lifecycle, as objects with their specification functions |
| Session | one session as a value (`World`): actor, projection, harness, observers' channels and store; every command, run event and environment step as a function on it |
| SessionInvariants, SessionRuns, SessionEffects | the session invariant, its preservation by every step, and what a step may touch |
| SessionTheorems, Deletion | what holds in every reachable state: lockstep, write-behind, crash recovery, streams, leaving, deletion |
| Commands | what every command, run event and write answers and leaves behind, in terms of what was there before |
| SessionActor | the actor as an object whose methods update its fields, each proved equal to its specification function |
| Client, Workspace, Replication, CatchUp | the client's update loop, the client's own reducer and controller, and the end-to-end system, for what it never does wrong and for what it delivers |
| Backend | all actors over one shared store and one activity tracker; the invariant of the whole |
| Opening, Removal, Shutdown | the manager's commands as functions on the backend: opening and creating, deleting, shutting down, flushing and routing titles |
| ManagerAnswers | what every command of the manager answers and leaves stored and registered |
| ManagerRuns, ManagerTitles | every run of the manager, restarts included: ownership, titles, identities |
| FailedShutdown | what a failed shutdown can lead to |
| Manager | the manager as an object, against those functions |
| Activity, IdleShutdown | activity accounting, the idle deadline, the idle exit |

Three devices keep the model faithful and the proofs short. A store operation takes a flag `refuse`
that says whether the database fails; it is then not applied at all. Everything the environment
decides (clocks, engine output, job lists, which write fails, what the wire does) is an argument, so
that a statement about all arguments is a statement about all environments. An actor handles one input
at a time, so each command is one step, and between two steps of the manager any actor may take any
number of steps.

## Main results

* **End to end** (`Replication.WorkspaceShowsActor`): however actors come and go, writes fail, the wire
  loses, repeats and reorders, and calls are cancelled, an attached workspace never rejects an update
  its client delivers, and until sequence numbers run out it shows exactly what its actor projected at
  that sequence. It also catches up (`CatchUps.WorkspaceCatchesUp`): when what waits for it is published
  and arrives, one call per event makes it show what its actor holds now. The two links of that chain are
  exact: an event is queued for precisely the observers with fewer than 128 events waiting
  (`SessionAnswers.EventReaches`), and a call delivers the next event, or begins a recovery precisely when
  an event is missing or the stream has ended (`SessionClients.CallAnswers`, `SessionClients.RecoveryBegins`).
* **One invariant for one session** (`SessionRuns.StepKeeps`, `SessionRuns.ReachableIsInvariant`):
  record, projection and harness agree, the stored row is the record or the record is waiting with a
  warning showing, and every observer's queue is a contiguous run of events with one slot to spare.
* **What every command does** (`SessionAnswers`, `ManagerAnswers`): for each command and each outcome of the
  engine, when it is accepted, what it is answered, and what becomes of the record, the row, the harness,
  the projection and the stream of events. Run identifiers come out of it: within one life of an actor
  they increase by one and are refused only after the last (`SessionAnswers.RunIdsNeverRepeat`).
* **One owner per session** (`ManagerRuns.SingleOwnership`): over any run of the manager, restarts
  included, as long as no shutdown has failed. This is false without the condition; see below.
* **Titles over whole runs** (`ManagerTitles.ManualTitleWins`): under the same condition a user's title is
  never replaced by a generated one and no title moves back, from the life in which a session is
  created on, through renames of sessions nobody has open and restarts at any point; a deleted
  session's identity never returns.
* **Crash recovery** (`Repository.LoadRecovers`, `SessionTheorems.CrashRecovers`) and **migration**
  (`Migration.MigratedStoreIsValid`): a migrated database is one that the current store could have
  written, if and only if every session it keeps is readable.
* **Deletion** (`Removals.DeletionIsHeard`, `Deletions.DeletionIsAnnounced`,
  `Deletions.AbortedDeletionReloadsCancelled`).
* **The idle exit** (`IdleShutdown.ExitMeansNothingWasTracked`, `IdleShutdown.IdleExitLosesNothing`):
  every run of the manager keeps the activity tracker equal to the actors' runs, the tracker's
  publications form the timeline that the deadline is measured on, and when the exit is taken no actor
  has a run and every open session is stored as its actor holds it.
* **Output capture** (`Capture.ReadOutput`, `Readers.EntriesAreStreams`): however the bytes are cut into
  reads, and however the two readers of a process are interleaved.

## Where the code does not do what one would expect

* **Two owners after a failed shutdown.** If `shutdown` fails for a session (its jobs do not stop, or
  its last write fails), the actor stays registered but refuses every change. `delete` is then refused
  by `prepare_delete` and again by `abort_delete`, yet the manager forgets the handle; the next `open`
  loads the session a second time. `Removals.DeleteKeepsOwnership` proves that deletion keeps ownership
  if and only if the registered actor is not in that state, `FailedShutdowns.FailedShutdownAllowsTwoOwners`
  proves the failure for the whole family, and `FailedShutdowns.TwoOwnersAreReachable` gives a run of four commands.
  The orphaned actor goes on as long as somebody else holds a handle or it has a run; once all handles
  are dropped it leaves, and ownership holds again, if and only if it has no run
  (`Removals.OrphanLeavesWhenIdle`). In moh itself the manager's shutdown has one caller, the exit path of
  `run_backend` (src/backend/server.rs:364-370), so what remains is a deletion and an open that arrive
  from still connected clients while that exit is under way; the statements are about the manager on its own.
  What it costs: a user's rename is stored by the one owner, and the next plan update of the other puts
  its old title back (`FailedShutdowns.TwoOwnersLoseARename`, `FailedShutdowns.ALostRenameIsReachable`).
* **A warning that is not shown.** Every step keeps "the warning shows if and only if a record is
  unwritten", if and only if it is not an accepted preparation of a deletion that finds the record
  written and fails to write it (`SessionTheorems.WarningSurvives`; in terms of the write,
  `SessionTheorems.PreparationAgrees`). `SessionTheorems.DeletionMayHideAWarning` is the concrete case.
* **A write lost when handles are dropped.** Without handles an idle actor leaves at once and writes
  nothing (`SessionTheorems.LeavingWithoutHandles`): what is stored is its record whenever nothing was
  outstanding. A model selection whose write fails is lost that way
  (`SessionTheorems.DroppedHandlesLoseAWrite`).
* **Migration does not read what it copies.** A legacy row with an unknown reasoning level, a negative
  token count, a timestamp that is not RFC 3339 or an invalid plan is migrated and only rejected when it
  is loaded. A migrated session loads if and only if it is `Readable` (`Migration.ReadableIsExact`);
  `Migration.UnreadableSessionsMigrate` gives two that do not.
* **Identities after a migration.** The legacy identity counter is not carried over: the next session gets
  an identity that had been given out before, exactly unless the session that was created last is kept
  (`Migration.IdentitiesReturn`).
* **Unnoticed title tasks.** At generation `u64::MAX` the two title-task operations change the count
  before they panic on the generation. `Activity.OneOperation` proves that a state can change under an
  unchanged generation exactly there; `Activity.TitlesCanChangeUnnoticed` is the concrete case.
* **Plans change until the end.** A plan update is accepted if and only if sequence numbers are left,
  also by an actor that is being deleted or has failed to shut down
  (`SessionTheorems.PlanUpdatesAreNotGuarded`, `SessionTheorems.PlansChangeDuringTheEnd`).
* **A catalog that never arrives.** `CatalogChanged` is handled by both reducers but no actor emits it:
  an actor keeps the catalog it was started with, and one started while the catalog was loading refuses
  every choice of reasoning for as long as it runs (`SessionTheorems.CatalogIsFixed`).
* **Eight-bit control sequences leak.** The clean-up drops a control sequence introduced by ESC `[` with its
  parameters (`TitleTexts.ControlSequenceIsDropped`), but treats the one-character introducer U+009B like
  ESC itself: it drops the introducer and one character, and keeps the rest of the sequence as text, so
  that `U+009B 31mred` becomes `1mred` (`TitleTexts.EightBitSequenceLeaks`).
* **A deletion reported to nobody.** A client call cancelled while it asks what to show after a deletion
  has already left for a draft and never reports the deletion
  (`Workspaces.WorkspaceController.NextUpdate`).

## Model

| member | source | states |
|---|---|---|
| Titles.FallbackTitleParsesAndIsIdempotent | src/session/title.rs:85-97 | Every first message yields a title that `parse` accepts, so its `expect` is unreachable, and a fallback title is its own fallback title. |
| Titles.SanitizedTitleIsFixedPoint | src/session/title.rs:99-106 | Whatever clean title comes out of generated text, cleaning it again gives it back. |
| Titles.SanitizedTitleExists | src/session/title.rs:99-106 | A generated title is refused exactly when nothing visible survives in its first visible line. |
| Titles.TruncateKeepsTidy | src/session/title.rs:150-162 | Truncation keeps a text free of controls and stray spaces, within 64 scalars, never empties it, and marks a cut with an ellipsis. |
| Titles.CollapseIsTidy | src/session/title.rs:146-148 | Collapsing leaves only lone interior spaces and invents no other character. |
| TitleTexts.PlainTextIsKept | src/session/title.rs:189-205 | Text without controls survives the stripping character by character. |
| TitleTexts.ControlSequenceIsDropped | src/session/title.rs:207-233 | A control sequence introduced by ESC `[` is dropped up to and with its final character. |
| TitleTexts.SystemCommandIsDropped | src/session/title.rs:207-233 | An operating-system command is dropped up to its terminator, BEL or ESC backslash. |
| TitleTexts.EightBitSequenceLeaks | src/session/title.rs:189-233 | Of a sequence introduced by U+009B only the introducer and one character are dropped. |
| TitleTexts.CollapsedWords | src/session/title.rs:146-148 | Collapsing leaves exactly the words of the text, one space apart. |
| TitleTexts.PairIsDropped | src/session/title.rs:164-179 | A pair of equal quotes around a text is dropped, for each of the five marks. |
| TitleTexts.FirstVisibleLineIs | src/session/title.rs:99-106 | The line taken is the first that shows anything, without its line ending. |
| TitleTexts.CutIs | src/session/title.rs:150-162 | A text over 64 scalars is cut at the last space that leaves it within 63, or at 63 if there is none, and gets an ellipsis. |
| TitleTexts.FallbackIs | src/session/title.rs:85-97 | The fallback title is the collapsed visible text of the message, cut, or `Untitled session`. |
| Titles.ConsumeEscapeSequence | src/session/title.rs:207-233 | The loop over an escape sequence terminates and stops exactly where the recursive description of the sequence says. |
| Titles.StripTerminalControls | src/session/title.rs:189-205 | The stripping loop computes the specified text, with or without whitespace preserved. |
| Titles.TrimPairedSurrounding | src/session/title.rs:164-179 | The quote-stripping loop terminates and removes all paired surroundings. |
| Titles.MakeFallbackTitle | src/session/title.rs:85-97 | The steps of the fallback title compute its specification. |
| Titles.SanitizeTitle | src/session/title.rs:99-106 | The steps of the clean-up compute its specification, including every refusal. |
| Utf8.ScanMeetsGrammar | src/tools/bash.rs:508-535 | What one scan of the head consumes is a well-formed sequence of RFC 3629, or its maximal ill-formed subpart, or an unfinished prefix. |
| Utf8.DecodeRound | src/tools/bash.rs:508-535 | How each outcome of validation advances the incremental decoder agrees with the settled decoding. |
| Utf8.SettleThenContinue | src/tools/bash.rs:508-535 | Decoding what is settled now and the rest together with later bytes gives the one-shot lossy decoding. |
| Utf8.UnfinishedIsOneReplacement | src/tools/bash.rs:499-504 | Bytes left unfinished at the end of the stream are one replacement character. |
| Utf8.LossyInvertsEncode | src/tools/bash.rs:508-535 | Lossy decoding of an encoded text is the text. |
| Utf8.BoundaryAhead | src/tools/bash.rs:339-357 | From any byte of an encoded text a character boundary is at most three bytes ahead. |
| Lines.LinesContinue | src/tools/bash.rs:537-554 | Publishing the lines of a first piece and keeping its remainder loses and reorders nothing, wherever the text is cut. |
| Lines.LinesComplete | src/tools/bash.rs:537-554 | Lines published so far and those of the remainder with the rest of the text are the lines of the whole text. |
| Lines.LinesRejoin | src/tools/bash.rs:537-554 | Without carriage returns the lines rejoined are the text; no line holds a newline, and only the last may be unterminated, and then it is not empty. |
| Capture.StreamCarry.DecodeAvailable | src/tools/bash.rs:508-535 | The decoding loop terminates, appends exactly the settled text and keeps exactly the unfinished bytes. |
| Capture.StreamCarry.PublishLines | src/tools/bash.rs:537-554 | Publishes exactly the complete lines, at end of stream also the last unterminated one, in order, to the log and the store. |
| Capture.ReadOutput | src/tools/bash.rs:480-506 | However the bytes are cut into reads, the entries and the log are those of the lines of the one-shot decoding of the whole stream. |
| Readers.SharesAreStreams | src/tools/bash.rs:480-506 | However the two readers are interleaved line by line, what one source has appended and what its reader has ahead are together the lines of its whole stream. |
| Readers.EntriesAreStreams | src/tools/bash.rs:480-506 | At the end the store's entries of one source, in order, are those of that source's lines. |
| Readers.StepsFinish | src/tools/bash.rs:480-506 | Every step of a reader that is not done brings it closer to its end. |
| Readers.Turn | src/tools/bash.rs:537-570 | What a reader does on its carry and the shared store between two waits is the specified step. |
| Capture.OutputStore.AppendLine | src/tools/bash.rs:297-316 | After any appends the kept lines are the longest suffix of all entries that fits, or the clipped last entry; all counters and the truncation flag follow from the entries. |
| Capture.OutputStore.TrimTail | src/tools/bash.rs:339-357 | The trimming loop stops at the first suffix that fits, or clips the single line that does not; the byte count stays exact, so nothing underflows. |
| Capture.ClippedEntry | src/tools/bash.rs:339-357 | A clipped line is its source prefix and a suffix of its text that starts at a character and wastes at most three bytes of the limit. |
| Capture.SuffixStartIsLeast | src/tools/bash.rs:339-357 | The kept suffix fits and no longer one does. |
| Capture.TruncatedMeansDropped | src/tools/bash.rs:297-316 | The tail always fits, and it is everything exactly when that is at most 2000 lines and 50 KiB. |
| Capture.EntriesAreLabelledLines | src/tools/bash.rs:297-316 | Every entry is the source's label and the text of one line in UTF-8, and the log is the labelled lines put together again. |
| Transcripts.GrammarMeansSegments | src/session/actor.rs:1434-1511 | The transcript grammar says exactly that every turn owns one segment: its prompt, its run's tool calls, and one matching terminal item unless it is the running last turn. |
| Transcripts.DurableEventKeepsGrammar | src/session/actor.rs:1434-1522 | Durable events keep the grammar, are accepted exactly when the turn they need is running (or none is, for a start), and extend the history by exactly the completed exchange. |
| Transcripts.RunningIsLast | src/session/actor.rs:1513-1522 | In a grammatical transcript a running turn is found exactly if the last turn runs with that identifier, and it is the last one. |
| Transcripts.InterruptionRecovers | src/session/store.rs:889-951 | Interruption closes the one running turn with one matching failure, keeps the record consistent and its history unchanged, and is idempotent. |
| Repository.LoadRecovers | src/session/store.rs:875-956 | Loading gives the last committed record with its running turn interrupted by one retryable failure, and a second load changes nothing. |
| Repository.LoadAfterCheckpoint | src/session/store.rs:1271-1451 | A checkpoint of an in-range valid record without a running turn loads back as that record. |
| Repository.LoadKeepsWellFormed | src/session/store.rs:875-956 | A loaded session can be stored again and is consistent. |
| Repository.TitleOperationsAdvance | src/session/store.rs:1173-1251 | Renaming and compare-and-set only move the revision forward, and compare-and-set changes nothing once the title is manual or the revision has moved. |
| Repository.GeneratedTitleStores | src/session/store.rs:1239-1245 | A generated title is stored if and only if the source is not manual, the revision is the expected one and below the column's maximum, and then the row has that title, source `generated` and the next revision. |
| Repository.RenameStores | src/session/store.rs:1173-1203 | A rename stores the given title as the user's with the next revision, or is out of range. |
| Repository.MaterializedIsConsistent | src/session/store.rs:783-837 | A newly created session is consistent with its first turn running. |
| Repository.GrammarIsNumbered | src/session/actor.rs:1434-1511 | Turns of a grammatical record carry their own positions. |
| Store.ItemReadsBack | src/session/store.rs:1499-1618 | Encoding an item succeeds exactly when its identifiers are in range, and then decodes to the same item. |
| Store.RowsReadBack | src/session/store.rs:958-1125 | The rows of any storable record read back, table by table, as that record. |
| Store.TableReadsBack | src/session/store.rs:985-1108 | Reading a child table in position order gives the encoded sequence. |
| Store.SessionStore.LoadRecord | src/session/store.rs:958-1125 | Reads one session or reports exactly the error its rows call for. |
| Store.SessionStore.ReadTable | src/session/store.rs:985-1108 | The row loop accepts exactly contiguous positions with decodable rows. |
| Store.SessionStore.Load | src/session/store.rs:875-956 | The interruption loop changes the tables to those of the interrupted record, or nothing on error. |
| Store.SessionStore.Checkpoint | src/session/store.rs:1271-1451 | All or nothing: replaces the child tables and the session row so that the stored record becomes the given one, except its directory and creation time; turns are stored under the positions they carry, and two that share one make the database refuse. |
| Store.SessionStore.EncodeAll | src/session/store.rs:1309-1321 | The encoding loop fails exactly if some item is out of range. |
| Store.SessionStore.UpdateMetadata | src/session/store.rs:1453-1482 | Changes title, settings and activity time of the stored record and nothing else, or nothing. |
| Store.SessionStore.Rename | src/session/store.rs:1173-1203 | Stores a manual title with the next revision and returns the stored record. |
| Store.SessionStore.SetGeneratedTitle | src/session/store.rs:1205-1251 | Compare-and-set on the stored source and revision, on the tables; what it stores is `Repository.GeneratedTitleStores`. |
| Store.TableMeans | src/session/store.rs:985-1108 | A child table is readable exactly if it has no gap and every row decodes, and then gives those rows in order. |
| Store.StorableFitsSchema | src/session/store.rs:31-84 | Every row that is written passes the column checks of the schema and fits its integer columns. |
| Store.SpellingsRead | src/session/store.rs:31-84 | The texts that can be read are exactly those the column checks allow. |
| Store.SessionStore.Delete | src/session/store.rs:1253-1269 | Removes the session with all child rows, and no other session. |
| Store.SessionStore.Materialize | src/session/store.rs:783-837 | Stores a consistent record under an identity never given out before. |
| Migration.MigrateLegacy | src/session/store.rs:598-727 | Succeeds exactly if every session with messages is well paired and well named; then keeps exactly the sessions with messages, each as its migrated rows. |
| Migration.CheckMessages | src/session/store.rs:650-667 | The two passes over the messages accept exactly contiguous user/assistant pairs. |
| Migration.InsertMessages | src/session/store.rs:694-705 | Every message becomes a history row and a transcript row at its position. |
| Migration.InsertTurns | src/session/store.rs:706-713 | Every pair becomes one completed turn with run identifier ordinal plus one. |
| Migration.MigratedReadsBack | src/session/store.rs:598-727 | A migrated session whose metadata is readable loads as the expected record. |
| Migration.ReadableIsExact | src/session/store.rs:958-1125 | A migrated session loads if and only if its reasoning level is known, its token count is not negative, both timestamps parse and its plan reads. |
| Migration.UnreadableSessionsMigrate | src/session/store.rs:598-727 | Two legacy sessions that migrate and then do not load: an unknown reasoning level, and a date that is no timestamp. |
| Migration.MigratedIsCanonical | src/session/store.rs:598-727 | Its rows are ones the current store could have written if and only if it is readable. |
| Migration.PairsAreTurns | src/session/store.rs:694-713 | Message pairs are grammatical completed turns whose history is exactly the messages. |
| Migration.MigratedSessionsAreConsistent | src/session/store.rs:598-727 | Migrated sessions keep identity, messages, name and surviving plan, and every copied column and exchange; they satisfy the current store's invariants, and are unchanged by opening. |
| Migration.MigratedStoreIsValid | src/session/store.rs:598-727 | The whole migrated database is valid if and only if every kept session is readable, and then each loads as its expected record, consistent, with nothing running and unchanged by opening. |
| Migration.IdentitiesReturn | src/session/store.rs:598-727 | The next identity that the migrated store gives out had been given out before, exactly unless the session that the legacy counter stands at is kept. |
| Projections.SessionProjection.Apply | src/session/projection.rs:102-113 | Gives a valid event the next sequence and reduces it; an invalid event or an exhausted sequence changes nothing. |
| Projections.SessionProjection.ApplyUnsequenced | src/session/projection.rs:115-122 | Reduces a valid event without a sequence. |
| Projections.SessionProjection.InstallPersistedStarted | src/session/projection.rs:124-140 | Marks the first run active without adding its prompt to the transcript again. |
| Harnesses.Harness.Submit | src/harness/state.rs:41-71 | The method starts a run as specified and gives it the identifier that was next; that identifiers never repeat is `SessionAnswers.RunIdsNeverRepeat`. |
| SessionAnswers.RunIdsNeverRepeat | src/harness/state.rs:53-57 | Over any run of an actor, accepted prompts get identifiers that increase by one, all below the next one, and a prompt is refused for want of one exactly after the last has been given out. |
| SessionAnswers.FirstRunIds | src/harness/state.rs:26-38 | They start at 0 in an opened session, and at 1 in a created one, whose first run has 0. |
| Harnesses.Harness.NextEvent | src/harness/state.rs:73-145 | Turns one engine outcome into one event of the active run; only a non-blank reply extends the history. |
| Harnesses.Harness.Cancel | src/harness/state.rs:147-153 | Ends the active run, if any, without touching the history. |
| SessionInvariants.StartAligned | src/session/actor.rs:1020-1057 | A submission the harness accepts is accepted by the durable turns and the projection, and all three agree afterwards. |
| SessionInvariants.EndAligned | src/session/actor.rs:1059-1074 | A run ends in the harness, the projection and the durable turn at once, and only a completion extends the history. |
| SessionInvariants.EmitKeepsLog | src/session/actor.rs:1282-1297 | The projection stays its origin with all sequenced events applied, each valid where it was applied. |
| SessionInvariants.EmitKeepsStreams | src/session/actor.rs:1306-1311 | Broadcasting keeps every channel a contiguous run of events; surviving observers are complete and keep one free slot. |
| SessionInvariants.SettleRestores | src/session/actor.rs:1338-1365 | Whatever a write's outcome, afterwards the row is the record, or the record is waiting and the warning is up. |
| SessionInvariants.PersistMetadataRestores | src/session/actor.rs:1324-1331 | Writing metadata alone suffices exactly because it is done only when nothing else is unwritten. |
| SessionRuns.StepKeeps | src/session/actor.rs:672-717 | Every command, run event and environment step, with any failure, keeps the session invariant. |
| SessionRuns.RunKeeps | src/session/actor.rs:672-717 | The invariant holds after every run. |
| SessionRuns.ReachableIsInvariant | src/session/actor.rs:169-248 | It holds in every state reachable from an opened or a newly created session. |
| SessionRuns.OpenedStarts | src/session/actor.rs:171-200 | An actor spawned on a loaded session starts in the invariant. |
| SessionRuns.MaterializedStarts | src/session/actor.rs:203-248 | So does one spawned on a newly created session, whose run is already durable. |
| SessionRuns.PrepareDeleteKeeps | src/session/actor.rs:928-992 | Preparation ends the run in all machines; if it succeeds, the stored row is the record with the run cancelled. |
| SessionRuns.FinalEmit | src/session/actor.rs:1313-1322 | With the slot kept free, the terminal event reaches every observer whose receiver is open. |
| SessionEffects.HandleEffects | src/session/actor.rs:719-856 | No command but a deletion's end does more than append to its log, advance its title and change its own row. |
| SessionEffects.ExitEffects | src/session/actor.rs:1385-1395 | Leaving changes nothing durable beyond one last flush. |
| SessionTheorems.HarnessEventsAreAccepted | src/session/actor.rs:1162-1229 | In every reachable state whatever the engine yields, and the start of any prompt the harness has an identifier for, is accepted by durable turn and projection. |
| SessionTheorems.TranscriptsAreGrammatical | src/session/actor.rs:1434-1511 | In every reachable state the visible transcript splits into one segment per turn and the harness's history is exactly that of its completed turns. |
| SessionTheorems.WritesAreNeverLost | src/session/actor.rs:1324-1383 | Clean means that a stored row is the record, dirty holds the record itself; short of a deletion the row is there and the warning shows exactly while dirty. |
| SessionTheorems.WarningSurvives | src/session/actor.rs:1338-1383 | Every step keeps the agreement of warning and unwritten record, if and only if it is not an accepted preparation that finds the record written and fails to write it. |
| SessionTheorems.PreparationAgrees | src/session/actor.rs:928-992 | The same for preparation, from any state of the invariant: agreement afterwards exactly unless the checkpoint fails on a record that was written. |
| SessionTheorems.PendingDeletionKeepsWarning | src/session/actor.rs:928-1018 | While a deletion is pending, every step of the running actor keeps the agreement. |
| SessionTheorems.DeletionMayHideAWarning | src/session/actor.rs:965-982 | The exception exists: a session just opened and one refused checkpoint during preparation. |
| SessionTheorems.CrashRecovers | src/session/store.rs:875-956 | After a crash in any reachable state, within the range of the columns, the load succeeds and gives the stored row, interrupted, consistent and unchanged by a second load; for a clean session that row is the record. |
| SessionTheorems.InRangeLoads | src/session/store.rs:875-956 | A stored consistent session loads as itself, interrupted, if and only if its identity and its transcript with the interruption fit the columns. |
| SessionTheorems.LeavingWithoutHandles | src/session/actor.rs:676-683 | Without handles the actor leaves exactly if no run is active, and writes nothing then or later; the row is the record if nothing was outstanding. |
| SessionTheorems.DroppedHandlesLoseAWrite | src/session/actor.rs:676-683 | An outstanding record is lost: a model selection whose write fails is not in the row after the actor has left. |
| SessionTheorems.PlanUpdatesAreNotGuarded | src/session/actor.rs:1231-1251 | A plan update is accepted exactly while sequence numbers are left, whether or not the actor is being deleted or shut down. |
| SessionTheorems.PlansChangeDuringTheEnd | src/session/actor.rs:1231-1251 | It is accepted in both of those states, which are reached from any session just opened. |
| SessionTheorems.CatalogIsFixed | src/session/actor.rs:1100-1133 | An actor keeps the catalog it started with; one started without a ready catalog always refuses a choice of reasoning. |
| SessionTheorems.ActivityFollowsHarness | src/session/actor.rs:1055-1062 | A live session is counted as running exactly while its harness runs and its projection is busy. |
| SessionTheorems.ObserversFollow | src/session/actor.rs:1306-1311 | Every observer's queue is the run of events after what it received, complete up to the projection, with one slot free. |
| SessionTheorems.ChannelsHoldSlices | src/session/actor.rs:1306-1322 | Detached and closed streams also hold contiguous runs of events. |
| SessionTheorems.TitlesAdvance | src/session/actor.rs:875-926 | Every step moves the title revision forward, on the record and on the row, and never replaces a manual title by a generated one. |
| Deletions.LiveActorsAreNotDeleted | src/session/actor.rs:994-1004 | No running actor has announced a deletion. |
| Deletions.DeletionIsAnnounced | src/session/actor.rs:994-1004 | Finishing a prepared deletion ends the actor, and every observer still listening receives exactly one `Deleted`, as its last event, or, once sequence numbers have run out, just the end of its stream. |
| Deletions.PreparationGuard | src/session/actor.rs:928-930 | Preparation is refused without effect exactly while deleting or shutting down, and otherwise stops the run. |
| Deletions.DeletedStaysDeleted | src/session/store.rs:1362-1366 | Once the row is gone, nothing that may happen to the session brings its identity back. |
| Deletions.AbortedDeletionReloadsCancelled | src/session/manager.rs:765-771 | If the session was prepared but not removed, whatever happened meanwhile, it reloads unchanged and a run that was active shows as cancelled. |
| SessionAnswers.EventReaches | src/session/actor.rs:1306-1311 | An event below saturation is queued, with the next sequence, for exactly the observers that listen and have fewer than 128 events waiting; every other observer is dropped and its stream ends as it was. |
| SessionAnswers.EventReachesNobodyElse | src/session/actor.rs:1306-1311 | Nobody becomes an observer by an event, and no other channel changes. |
| SessionAnswers.SubmissionAnswers | src/session/actor.rs:1020-1057 | A prompt is accepted exactly while no run is active and identifiers are left; record, harness and projection then hold the new run, and the record is stored unless the write fails. |
| SessionAnswers.EngineAnswers | src/session/actor.rs:1162-1229 | What each outcome of the engine appends to the record and makes of the last turn, written on the outcome: tool calls as yielded, a visible reply as a completed exchange, a blank one, a failure and an early end as exactly that failure, and nothing else. |
| SessionAnswers.CancellationAnswers | src/session/actor.rs:1059-1074 | Cancelling takes exactly a running session and ends its run as cancelled. |
| SessionAnswers.RenameAnswers | src/session/actor.rs:875-883 | A rename succeeds exactly if it is stored, and is then the title in record, row, projection and stream. |
| SessionAnswers.GeneratedTitleAnswers | src/session/actor.rs:885-926 | A generated title is cleaned and becomes the title everywhere exactly while it is current and no user has chosen one. |
| SessionAnswers.ModelAnswers | src/session/actor.rs:1076-1098 | A model is taken unless a ready catalog does not list it, and nothing else of the settings changes. |
| SessionAnswers.ReasoningAnswers | src/session/actor.rs:1100-1133 | A level is taken exactly if a ready catalog's first entry for the model advertises it. |
| SessionAnswers.PlanAnswers | src/session/actor.rs:1231-1251 | A plan update replaces the plan and nothing else while sequence numbers last. |
| SessionAnswers.FlushAnswers | src/session/actor.rs:1367-1383 | A flush succeeds exactly if what is outstanding can be written, and then stores the record. |
| SessionAnswers.ShutdownAnswers | src/session/actor.rs:1385-1395 | An actor leaves exactly if what is outstanding can be written and its jobs stop; otherwise it stays and accepts no more changes. |
| SessionAnswers.PreparationAnswers | src/session/actor.rs:928-992 | An accepted preparation ends the run as cancelled, and succeeds exactly if the jobs stop and the record can be written. |
| SessionAnswers.EndingAnswers | src/session/actor.rs:994-1018 | Finishing announces the deletion and leaves, aborting leaves without a word; both only after a preparation. |
| SessionAnswers.AttachAnswers | src/session/actor.rs:721-741 | Attaching answers with the present state and begins an empty stream right after it; refused exactly while deleting, or without the jobs. |
| SessionAnswers.DetachAnswers | src/session/actor.rs:742-752 | Exactly that attachment's observers leave, only their streams end, and the others are counted. |
| SessionAnswers.DisconnectAnswers | src/session/actor.rs:753-760 | A lost connection takes all of its observers and no others. |
| SessionAnswers.JobsAnswers | src/session/actor.rs:1270-1280 | A change of jobs is announced as it is, unless the session is being deleted. |
| SessionActors.FindRunningTurn | src/session/actor.rs:1513-1522 | The search loop finds the first running turn with the identifier. |
| SessionActors.ApplyDurableEvent | src/session/actor.rs:1434-1511 | The durable effect, with its searches as loops, equals its specification, and an error changes nothing. |
| SessionActors.ValidateMaterializedStart | src/session/actor.rs:1403-1432 | Accepts exactly a single running turn with this run and this prompt. |
| SessionActors.StartIsLastTurn | src/session/actor.rs:1403-1432 | For consistent records that means exactly that the last turn is this running turn. |
| SessionActors.WriteCommutes | src/session/actor.rs:1211-1229 | Writing between projecting an event and broadcasting it equals broadcasting it first. |
| SessionActors.SessionActor.Spawn | src/session/actor.rs:171-200 | Spawning on a loaded record establishes the invariant. |
| SessionActors.SessionActor.SpawnMaterialized | src/session/actor.rs:203-248 | Spawning on a created record succeeds exactly for a valid start and establishes the invariant. |
| SessionActors.SessionActor.Project | src/session/actor.rs:1282-1297 | Sequenced while numbers last; afterwards unsequenced and without observers; invalid events change nothing. |
| SessionActors.SessionActor.BroadcastTo | src/session/actor.rs:1306-1322 | The loop offers the event to every observer and keeps those that took it; which those are is `SessionAnswers.EventReaches`. |
| SessionActors.SessionActor.PersistMetadata | src/session/actor.rs:1324-1331 | A metadata write, or a full one while something is unwritten. |
| SessionActors.SessionActor.ProjectAndCommit | src/session/actor.rs:1216-1228 | Project, install the record, write, broadcast, announce: equal to emitting and persisting in one step. |
| SessionActors.SessionActor.HandleRunEvent | src/session/actor.rs:1162-1209 | For every event of the run the method does the specified step, whatever the write does; what that makes of each outcome is `SessionAnswers.EngineAnswers`. |
| SessionActors.SessionActor.NextRunEvent | src/session/actor.rs:684-706 | The engine's next outcome, taken in by the harness and then handled, keeps the invariant; without a run nothing happens. |
| SessionActors.SessionActor.PersistDurableRunEvent | src/session/actor.rs:1211-1229 | A transcript event reaches record, projection, store and observers, or none of them. |
| SessionActors.SessionActor.SelectModel | src/session/actor.rs:1076-1098 | Refuses exactly an unknown model of a ready catalog, by a search loop. |
| SessionActors.SessionActor.Shutdown | src/session/actor.rs:1385-1395 | The actor leaves only after a successful flush and stopped jobs; otherwise it stays, immutable. |
| SessionActors.SessionActor.PrepareDelete | src/session/actor.rs:928-992 | Attempts cancellation, jobs and checkpoint in turn, and replies with the first failure. |
| SessionActors.SessionActor.Detach | src/session/actor.rs:742-762 | The loop keeps exactly the other observers and counts them. |
| SessionActors.SessionActor.HandleInput | src/session/actor.rs:684-709 | One turn of the actor's loop: for any input the command's method, with its early returns and fields updated in place, keeps the invariant and leaves exactly the state and reply of the specified step. |
| SessionClients.RpcSessionClient.NextUpdate | src/rpc/client.rs:563-612 | The update loop, over any inbox, closure, connection loss and recovery outcome, equals its specification, whose answers are `SessionClients.CallAnswers` and `SessionClients.PendingAnswers`. |
| SessionClients.RpcSessionClient.ResumeRecovery | src/rpc/client.rs:781-818 | A recovery stays outstanding until it completes, and is installed once. |
| SessionClients.CallAnswers | src/rpc/client.rs:585-612 | The whole answer of a call by the first message that matters: the next event is delivered, one further on begins a recovery, the deletion and an unreadable message are reported, and without one the call waits, fails with the connection, or recovers an ended stream. |
| SessionClients.SomeFirstRelevant | src/rpc/client.rs:585-604 | Every call has such a message or none at all, so that its answer is determined. |
| SessionClients.RecoveryBegins | src/rpc/client.rs:571-612 | A recovery begins if and only if the first event that matters skips one, the stream has ended with nothing left that matters, or the last number is reached. |
| SessionClients.PendingAnswers | src/rpc/client.rs:563-577 | A pending warning comes first and once; an outstanding recovery is all that is looked at, and replaces everything the client held. |
| SessionClients.NextEventsAreDelivered | src/rpc/client.rs:585-612 | If the messages that matter are the next k events in order, k calls return exactly them and end k further on. |
| SessionClients.OneCallDelivers | src/rpc/client.rs:563-612 | Conversely, whatever the wire does, a call delivers the event directly after the last position, installs the recovered snapshot, or leaves the position alone. |
| SessionClients.ConversationsAreContiguous | src/rpc/client.rs:563-612 | Over any calls and any environment, the delivered updates have no gap and no repetition. |
| SessionClients.RecoverySurvivesCancellation | src/rpc/client.rs:752-790 | Cancelled calls keep the one outstanding recovery and its reason. |
| SessionClients.ExhaustionIsFinal | src/rpc/client.rs:571-577 | At the last sequence number, however often the one recovery is waited for and cancelled, a snapshot still at that number leads to exhaustion for good, after at most one warning. |
| SessionClients.OnlyTheLastNumberExhausts | src/rpc/client.rs:807-811 | The exhausted state is entered only at the last sequence number. |
| SessionClients.AttachmentIds.Allocate | src/rpc/client.rs:849-858 | Attachment identifiers increase and run out instead of wrapping. |
| Workspaces.ApplySessionEvent | src/client/workspace.rs:476-590 | The client's reducer, statement by statement, equals its specification and rejects without change. |
| Workspaces.RefreshRunningSummary | src/client/workspace.rs:592-603 | Counts running jobs by a loop and derives the running flag. |
| Workspaces.ReducersAgree | src/client/workspace.rs:476-640 | The two separately written reducers accept the same events and agree on all shared state. |
| Workspaces.SnapshotShowsProjection | src/client/workspace.rs:467-474 | A fresh snapshot shows its projection and passes the client's coherence check. |
| Workspaces.WorkspaceController.NextUpdate | src/client/workspace.rs:231-251 | Only accepted updates change what is presented, and only a deletion ends the attachment; a call dropped during the startup request leaves a draft. |
| Workspaces.WorkspaceController.ApplyProjectionUpdate | src/client/workspace.rs:438-465 | A rejected update leaves the presented session unchanged. |
| Workspaces.WorkspaceController.StartupFallback | src/client/workspace.rs:426-435 | After a session is gone: the backend's running session, or a draft that keeps directory, settings and catalog; the draft is there before the backend is asked. |
| Workspaces.WorkspaceController.NewDraft | src/client/workspace.rs:338-348 | Leaves the session for a draft; a failed detach is only remembered. |
| Workspaces.WorkspaceController.SwitchSession | src/client/workspace.rs:354-376 | Leaves the old session only once the right new one is attached. |
| Workspaces.WorkspaceController.DeleteSession | src/client/workspace.rs:386-424 | Falls back on success; on failure reattaches to the same session if it can. |
| Replication.RunPump | src/rpc/server.rs:575-591 | The pump's loop forwards exactly the specified prefix. |
| Replication.PumpsForwardPrefixes | src/rpc/server.rs:575-591 | A pump forwards a prefix in order, nothing after a terminal event, and everything up to one or up to the publication that fails. |
| Replication.PumpIsPublications | src/rpc/server.rs:575-591 | A pump's whole run is that many publications of the end-to-end system: exactly what it forwards is sent and exactly that is gone from its channel. |
| Replication.AttachingLaunches | src/session/manager.rs:521-523 | Attaching to any running session that is not being deleted is a launch, so the end-to-end statement is about every attachment. |
| Replication.MoveKeeps | src/rpc/client.rs:563-612 | Every move of actors, pumps, wire and client keeps the simulation. |
| Replication.SystemSimulates | src/client/workspace.rs:438-465 | The simulation holds over every run from any launch. |
| CatchUps.WorkspaceCatchesUp | src/rpc/client.rs:563-612 | When everything that waits for an up-to-date workspace is published and arrives in order, possibly among stale messages, one call per event leaves it showing exactly what its actor holds now. |
| CatchUps.LaunchIsUpToDate | src/session/actor.rs:721-741 | A workspace that has just attached is up to date. |
| Workspaces.SummaryIsRight | src/client/workspace.rs:592-603 | Once a start, an end or a change of jobs has been shown, the summary counts exactly the running jobs and says exactly whether anything runs, after every further event. |
| Replication.WorkspaceShowsActor | src/client/workspace.rs:476-590 | An attached workspace never rejects an update, and until sequences run out it equals its actor's projection at its sequence. |
| Backends.AskKeeps | src/session/manager.rs:361-373 | One actor's step keeps every actor's invariant and the shared store. |
| Openings.OpenKeeps | src/session/manager.rs:497-523 | Opening attaches to the registered actor, or loads a session that nobody owns and registers its only actor. |
| Openings.UnregisteredIsIdle | src/session/manager.rs:505-520 | A session that is not registered has no running actor, so loading it interrupts no live run. |
| Openings.CreateKeeps | src/session/manager.rs:579-644 | Creating uses a fresh identity and keeps all invariants, whatever fails on the way. |
| Openings.FreshId | src/session/store.rs:783-837 | A new identity belongs to no stored session and no actor. |
| Openings.FailedStartIsConsistent | src/session/manager.rs:646-684 | A start that failed is stored as one failed turn, consistent and unchanged by reloading. |
| Openings.RecordFailedStart | src/session/manager.rs:646-679 | Whatever the record held, the rewriting yields that one failed turn. |
| Openings.ValidationMeans | src/session/manager.rs:843-866 | Settings pass exactly if a ready catalog's first entry for the model advertises the level, or no catalog is ready. |
| Openings.ValidatedHasTitleReasoning | src/session/manager.rs:843-887 | After validation both `expect`s of the title reasoning level are unreachable, and the level is the cheapest that is advertised. |
| ManagerAnswers.OpenSessionAnswers | src/session/manager.rs:497-506 | An open session is attached to, unless it is being deleted, and nothing stored changes. |
| ManagerAnswers.LoadedSessionAnswers | src/session/manager.rs:505-523 | A session without an actor is opened exactly if its row loads, a runtime starts and its jobs can be listed; the row is then the interrupted one, and its one actor holds it with the given catalog. |
| ManagerAnswers.CreationAnswers | src/session/manager.rs:579-684 | A new session is stored as it was asked for under the next identity, or something stands in the way and nothing changes; a start that fails leaves one failed turn, or nothing. |
| ManagerAnswers.StoredDeletionAnswers | src/session/manager.rs:754-782 | A session nobody has open is removed exactly if the store does it. |
| ManagerAnswers.LiveDeletionAnswers | src/session/manager.rs:754-782 | An open session is deleted exactly if its actor is prepared and its row can be removed. |
| ManagerAnswers.FlushingAnswers | src/session/manager.rs:830-840 | Flushing everybody succeeds exactly if everybody can write. |
| ManagerAnswers.FirstFlushFault | src/session/manager.rs:830-840 | What is reported is why the first who could not write could not. |
| ManagerAnswers.StoppingAnswers | src/session/manager.rs:811-828 | Shutting everybody down succeeds exactly if everybody can leave; exactly those who can are forgotten. |
| ManagerAnswers.FirstStopFault | src/session/manager.rs:811-828 | What is reported is why the first who could not leave could not. |
| ManagerAnswers.StoredRenameAnswers | src/session/manager.rs:741-752 | A session nobody has open is renamed in the store, exactly if the store takes it. |
| ManagerAnswers.LiveRenameAnswers | src/session/manager.rs:741-752 | An open session is renamed by its actor, in row and projection. |
| ManagerAnswers.RoutedTitleAnswers | src/session/manager.rs:700-706 | A generated title for an open session is cleaned and stored exactly while it is current and no user has chosen a title. |
| Removals.DeleteKeepsOwnership | src/session/manager.rs:754-782 | Deletion keeps single ownership if and only if the registered actor has not failed to shut down; success leaves no row, entry or actor. |
| Removals.DeleteOrphans | src/session/manager.rs:779-782 | Otherwise the refusing actor goes on running unregistered. |
| Removals.OrphanLeavesWhenIdle | src/session/actor.rs:676-683 | That actor leaves once all other handles are dropped, and ownership holds again, exactly if it has no run by then. |
| Removals.DeletionIsHeard | src/session/manager.rs:754-782 | When the manager has deleted a session that had an actor, everybody still listening ends with exactly one `Deleted`, whatever others did meanwhile. |
| Removals.MeanwhileCreatesNothing | src/session/store.rs:1362-1366 | No interleaving of actors' steps recreates a removed row. |
| Shutdowns.StoppingKeeps | src/session/manager.rs:811-828 | Shutting down asks every actor, keeps ownership whatever fails, and without a failure leaves none. |
| Shutdowns.FlushStoresEverything | src/session/manager.rs:830-840 | When flushing succeeds every registered session is stored exactly as its actor holds it. |
| Shutdowns.TitlesKeep | src/session/manager.rs:700-752 | Renaming and title completions keep all invariants, with and without an actor. |
| ManagerRuns.MoveKeepsOwnership | src/session/manager.rs:410-495 | Every manager command keeps the whole invariant, except exactly the deletion after a failed shutdown. |
| ManagerRuns.SingleOwnership | src/session/manager.rs:386-408 | As long as no shutdown has failed, over any run, restarts included, there is at most one running actor per session, it is the registered one, and the tracker counts exactly the actors' runs. |
| Backends.InstallKeepsCount | src/session/actor.rs:1055-1062 | After any step of an actor the tracker counts exactly the registered sessions whose actor has a run, until its generations run out. |
| ManagerTitles.MoveForward | src/session/store.rs:1173-1251 | Every move of the manager keeps every stored title moving forward and gives no old identity to a new session. |
| ManagerTitles.ManualTitleWins | src/session/store.rs:1205-1251 | Over any run with created sessions, direct renames and restarts: no revision moves back, a manual title is never replaced by a generated one, and an identity that was given out and is not stored never returns. |
| FailedShutdowns.FailedShutdownAllowsTwoOwners | src/session/manager.rs:754-782 | After a failed shutdown, deleting and reopening a session gives it two running actors. |
| FailedShutdowns.JobsCanMakeAnActorRefuse | src/session/actor.rs:1385-1390 | Any registered session gets into that state when its jobs do not stop once. |
| FailedShutdowns.TwoOwnersAreReachable | src/session/manager.rs:754-782 | A concrete run of four commands ends with two owners. |
| FailedShutdowns.TwoOwnersLoseARename | src/session/actor.rs:1231-1251 | With two owners, a rename stored by the registered one is undone by the next plan update of the other. |
| FailedShutdowns.ALostRenameIsReachable | src/session/manager.rs:754-782 | A concrete run of six commands after which a user's title is gone. |
| Managers.SessionManager.OpenSession | src/session/manager.rs:497-523 | The method keeps the invariant and equals the specified opening. |
| Managers.SessionManager.DeleteSession | src/session/manager.rs:754-782 | The method equals the specified deletion and keeps the invariant exactly when the actor is not stuck. |
| Managers.SessionManager.MaterializeAndSubmit | src/session/manager.rs:579-644 | The method keeps the invariant and equals the specified creation. |
| Managers.SessionManager.PersistFailedMaterialization | src/session/manager.rs:646-684 | Stores the failed start, or removes the session again. |
| Managers.SessionManager.ShutdownActors | src/session/manager.rs:811-828 | The loop over the registry asks everyone; without an error nobody is left running. |
| Managers.SessionManager.FlushActors | src/session/manager.rs:830-840 | The loop over the registry; without an error every registered session is stored as held. |
| Managers.SessionManager.RouteTitleCompletion | src/session/manager.rs:700-706 | A generated title reaches only a session that still has an actor. |
| Activity.OneOperation | src/backend/activity.rs:113-193 | An operation changes the state exactly if it advances the generation, except a title task at the last generation. |
| Activity.EqualGenerationsEqualActivity | src/backend/activity.rs:113-193 | Over any run without that exception, equal generations mean the state was the same throughout. |
| Activity.TitlesCanChangeUnnoticed | src/backend/activity.rs:158-179 | The exception exists. |
| Activity.IdleMeansNothingTracked | src/backend/activity.rs:29-36 | A published idle snapshot means nothing is tracked at all. |
| Activity.TotalWithout | src/backend/activity.rs:195-200 | The job total does not depend on the order of the map. |
| Activity.ActivityTracker.SetConnection | src/backend/activity.rs:113-126 | Changes and publishes exactly real changes of a connection. |
| Activity.ActivityTracker.SetRun | src/backend/activity.rs:128-141 | Changes and publishes exactly real changes of a run. |
| Activity.ActivityTracker.SetRunningJobs | src/backend/activity.rs:143-156 | Changes exactly real changes of a job count, and publishes them unless the total exceeds the machine's word, at which it panics with the old snapshot still published. |
| Activity.ActivityTracker.BeginTitleTask | src/backend/activity.rs:158-169 | What is published stays what is tracked exactly unless the generation is exhausted. |
| Activity.ActivityTracker.FinishTitleTask | src/backend/activity.rs:171-179 | The same for the end of a title task. |
| Activity.ActivityTracker.Publish | src/backend/activity.rs:195-208 | The checked addition panics exactly if the total exceeds the machine's word, and otherwise the loop publishes exactly the tracked counts. |
| Activity.PublicationsAreTimeline | src/backend/activity.rs:113-208 | What any run of the tracker publishes is in order of time, with strictly growing generations. |
| Activity.PublishedIsCurrent | src/backend/activity.rs:195-208 | What was published last is what is tracked, unless an operation panicked half-way. |
| Activity.VisibleIsTracked | src/backend/activity.rs:195-208 | The same at every moment of the run. |
| Activity.WaitForIdle | src/backend/activity.rs:212-246 | Returns only for one idle snapshot that was visible throughout at least the whole timeout, and no longer than the task is polled late; a first snapshot that lasts so long is the one returned. |
| Activity.SameThroughout | src/backend/activity.rs:240-243 | Equal generations at both ends of an interval mean nothing was published in between. |
| Activity.IdleBranch | src/backend/server.rs:302-356 | Exits exactly if no connection was queued, the flush succeeded, and the snapshot is the deadline's before and after it; a queued connection is accepted instead. |
| IdleShutdown.ExitTurnsNobodyAway | src/backend/server.rs:302-356 | When the exit is taken no connection was waiting before the flush or after it. |
| Activity.OperationTakes | src/backend/activity.rs:113-193 | What each operation makes of the tracked state, key by key, below the last generation. |
| Activity.ChangesMeans | src/backend/activity.rs:113-193 | Which operations change something. |
| Activity.ExitMeansIdleThroughFlush | src/backend/server.rs:326-339 | The backend was idle from the start of the deadline until after the flush. |
| IdleShutdown.ExitMeansNothingWasTracked | src/backend/server.rs:302-356 | If the exit is taken, then at every moment from the start of the deadline until after the flush no connection, run or title task was tracked. |
| IdleShutdown.IdleExitLosesNothing | src/backend/server.rs:302-356 | After any run of the manager without a failed shutdown, when the exit is taken no actor has a run, and every open session is stored as its actor holds it and, within the range of the columns, loads as exactly that. |

## Left out

- Errors are reduced to their categories: which field, position or SQLite operation failed is text only.
- A timestamp column is the instant its text stands for, or none if it is not RFC 3339: two spellings of one instant are not told apart. JSON arguments are opaque text; both are formatted and parsed by inverse pairs.
- Positions and ordinals in memory are natural numbers; only the bounds of what SQLite stores are checked.
- Channels, queues and snapshots are values: that a sender and a receiver share one buffer is expressed by keeping every channel in the session's `channels` map.
- The manager's actors are values too (`Backends.Instance`): an actor's own loop, its command queue and its shared handle are not objects, so waiting in a full command queue is not modelled.
- An awaited write lies inside its step: a receiver that closes or drains between projecting and broadcasting one event does so before or after the step instead.
- One command of the manager is one move: a crash, or another actor's step, falls before or after an opening, a creation, a shutdown or a flush of all sessions, not inside it. A deletion lets other actors go on at both places where it waits.
- The job registry, its monitor task and the commands about single jobs: jobs are lists and outcomes given from outside.
- `snapshot`, `list`, `startup` and title selectors of the manager: they read state and choose a session, and change nothing.
- File errors while output is captured (`append_line` and `finish` failing), the log file's creation and permissions, child processes, signals and timeouts.
- The Cap'n Proto layer: the wire carries events unchanged, or unreadable, or not at all.
- Materialising a draft from the workspace and selecting its model: the controller's session transitions are modelled, its draft commands are not.
- Database initialisation, quarantine of corrupt files, the upgrade that only adds the plan table, and reading the legacy rows themselves.
- Sockets, locks, configuration, authentication and the terminal user interface.
- IdleShutdown.IdleExitLosesNothing: asks that the tracker has a generation left; at the last one the next change of a run panics while the tracker's lock is held, and what that panic does to the actor that caused it is not modelled.
