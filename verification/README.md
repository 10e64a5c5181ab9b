# Verified model of the Herdr agent bridge core

This project models the parts of the bridge whose correctness depends on crashes,
interleavings or loops, and proves what they guarantee. It is written in Dafny 4.11;
`dafny verify dfyconfig.toml` checks all of it.

- **SQLite maintenance.** `MaintenanceFiles` gives the renames of activation,
  reconciliation and rollback as sequences that can stop after any step, and says what
  every history of stopped processes leaves on disk. `MaintenanceTrace` is the record of
  what processes do: every act uses up one turn of a list that is given beforehand and says
  how the act ends (done, failed, killed) and what a dependency writes, so the files are
  determined by the acts that are chosen. `MaintenanceCycle` is the journaled cycle itself,
  a class whose contracts hold for all turns and so for every crash point and every failing
  dependency. The journal and the files survive a kill; the record in memory does not.
  `MaintenanceExample` builds the histories of two of the findings below.
- **Answer timeline.** `ToolGroups` decides which tools form an indivisible group,
  `TimelinePage` is the page planner, `TimelineCoverage` proves what its pages contain,
  `TimelineElements` that what is sent are the renderings of it, and `TimelineDelivery` drives it one delivered page at a time against a store in which
  deliveries settle at any moment and the timeline changes.
- **Bounding loops.** `CardBounds` shortens the texts of a card in place until it fits;
  `PanelSearch` looks for the largest detail that fits without assuming monotonicity.
- **Input submission and control.** `AgentInput` is the submission protocol with the
  store's transactions, `AgentInputEnds` what each answer makes of a row, `RecoveryLoop` the startup recovery with its retries and its stop,
  `NativeCircuit` the circuit around native requests, `TailQueue` the per-prompt queue.
  Each class has one method for what runs between two awaits, tied to a step function,
  and the theorems range over every run of those steps.
- **Service logs.** `LogRotation` is the rotation with its undo list, `LogTail` the
  windowed reader and the printer over several files, against a plain division of a
  file into lines.

Rendering, serialized lengths of characters, the answers of Core, dependencies, clocks,
short reads and failing effects are parameters: nothing is assumed about them beyond what
a contract states.

## Findings

Some things the code promises or suggests hold only under a condition. Each has a concrete
failing case and the exact condition.

- **Stranded sidecars.** A process killed inside reconciliation, after the main file is
  back, leaves the sidecars beside the preserved name for good, because the next resume sees
  the database in place and returns (`SecondCrashStrandsSidecars`, `StrandedSidecarExample`).
  If the cycle goes on and activates, the result is the same (`StrandedActivationAgrees`).
- **Restart after a failed reconciliation.** If the put-back of an interrupted original
  fails, the handler starts the service without any database and journals `rolled_back`,
  which cannot be resumed (`RestartsWithoutDatabase`, the last clause of `Cycle.Run`). A
  restart without a rollback is on exactly the source if and only if nothing of an activation
  is left (`RestartsOn`, `InPlaceIff`, `PutBackIff`).
- **Unrecorded activation.** The record in memory says that the candidate is active only after
  the preserved original was hashed. If that hash fails, the handler does not roll back: it
  starts the service on the candidate and journals `rolled_back` (`UnrecordedActivation`).
  Otherwise a restart after the renames back were done is on exactly the source, and this is
  the only exception (`Cycle.Run`).
- **Stray sidecars.** Rollback restores the source if and only if the stopped service left
  no sidecar where the source had none (`RestoreUndoesActivation`, `StraySidecarExample`).
- **Carried offsets.** A cursor with an offset that points at a thinking or status item
  loses the beginning of the message that follows if and only if every such item up to the
  message fits on the first page (`CarriedOffsetLosesText`, `StaleOffsetExample`). The
  planner itself never makes such a cursor (`SoundAfter`).
- **Late results.** A page with late results ends where it started if and only if they leave
  no room for what stands at the cursor (`LateResultsStallIff`, `LateResultsCanStall`).
- **Overlapping pages.** A page stays active until the card of the next one is delivered. If
  a convergence in between gives it another end, because a late result came in or a child
  joined the tool at the cut, the two pages overlap or leave a gap. Every page ends, and can
  only come to end, where the next one starts if and only if no convergence does that
  (`LinkedIff`, `DivergenceShows`, `DivergingRun`).
- **Cards within the limit.** The target of the payload bound leaves out two characters, so
  a card that is exactly as long as the limit can be replaced (`NeedlessReplacement`). Where
  cutting makes no text longer, a card is replaced if and only if no shortening could make it
  fit (`TurnCard.BoundPayload`). In JSON a text gets longer if and only if it has exactly two
  characters more than the marker and nothing after its first character is escaped, and then
  by one character (`JsonGrowth`).
- **At most once.** An input is sent to Core at most once if and only if no failed command
  names the code `agent_input_typed_message_v1_unavailable`: the store claims an uncertain
  row with that code again. README.md:90-92 of the bridge promises that an uncertain effect
  is only queried (`AtMostOnce`, `NamedCapabilityResends`).
- **Circuit deadline.** It counts from the admission of the failed request, so a failure can
  move it back, exactly when the request was admitted before the one that set it
  (`DeadlineMovesBack`, `DeadlineMovesBackExample`).
- **Log rotation.** A failed rotation leaves the logs as they were if and only if each rename
  made before the failure could be renamed back (`LogDirectory.RotateLogs`,
  `DisplacedExample`, `DisplacedLog`).

## Model

| member | source | states |
|---|---|---|
| `MaintenanceFiles.RenameBack` | src/cli/sqlite-maintenance-cycle.ts:371-379 | a rename that replaced nothing is undone by renaming back |
| `MaintenanceFiles.ActivationCrashKeepsFiles` | src/cli/sqlite-maintenance-cycle.ts:354-370 | at every crash point of activation the two main files are at one path each, no source file is lost, and the files show how far it got |
| `MaintenanceFiles.ReconcileCrashKeepsFiles` | src/cli/sqlite-maintenance-cycle.ts:227-254 | the same at every crash point of reconciliation, with exactly what is still beside the preserved name |
| `MaintenanceFiles.LifeKeepsFiles` | src/cli/sqlite-maintenance-cycle.ts:114-180 | a process that reconciles and activates, stopped anywhere, keeps every source file |
| `MaintenanceFiles.EveryHistoryReconciles` | src/cli/sqlite-maintenance-cycle.ts:219-255 | after any number of stopped processes the inconsistent branch is unreachable and reconciliation ends in the layout before activation or in the confirmed one after it |
| `MaintenanceFiles.FinishedIsFinal` | src/cli/sqlite-maintenance-cycle.ts:234-243 | once activation is finished no later process touches a file |
| `MaintenanceFiles.OneCrashIsUndone` | src/cli/sqlite-maintenance-cycle.ts:244-253 | one crash inside activation and a whole reconciliation give back exactly the files before, sidecars included |
| `MaintenanceFiles.SecondCrashStrandsSidecars` | src/cli/sqlite-maintenance-cycle.ts:230-253 | after a crash inside reconciliation the sidecars are back if and only if the crash came before the first rename or left none to move |
| `MaintenanceFiles.StrandedSidecarExample` | src/cli/sqlite-maintenance-cycle.ts:244-253 | a write-ahead log that stays beside the preserved name |
| `MaintenanceFiles.StrandedActivationAgrees` | src/cli/sqlite-maintenance-cycle.ts:354-370 | activation ends in the same files whether or not a sidecar was stranded |
| `MaintenanceFiles.InPlaceIff` | src/cli/sqlite-maintenance-cycle.ts:227-254 | the files at the database path are exactly the source if and only if nothing of an activation is left, a candidate of the same content aside |
| `MaintenanceFiles.PutBackIff` | src/cli/sqlite-maintenance-cycle.ts:244-253 | a reconciliation that stops after any number of renames leaves the source in place if and only if it never left or all of it is back |
| `MaintenanceFiles.RestoreUndoesActivation` | src/cli/sqlite-maintenance-cycle.ts:382-392 | rollback puts exactly the preserved source back if and only if no stray sidecar is in the way, and keeps the failed candidate |
| `MaintenanceFiles.StraySidecarExample` | src/cli/sqlite-maintenance-cycle.ts:382-392 | a write-ahead log of the failed candidate that ends up beside the restored source |
| `MaintenanceTrace.InOrderMeansPhaseOrder` | src/cli/sqlite-maintenance-cycle.ts:112-194 | in the acts of every history the effects of the phases come in phase order and one is repeated only by a later process |
| `MaintenanceTrace.OnceOnlyMeansOnce` | src/cli/sqlite-maintenance-cycle.ts:354-380 | in the acts of every history a completed activation is applied again only after it was undone |
| `MaintenanceTrace.NothingRenamed` | src/cli/sqlite-maintenance-cycle.ts:112-180 | in the acts of every history without an activation nothing was renamed |
| `MaintenanceTrace.OrderlyMeansDue` | src/cli/sqlite-maintenance-cycle.ts:118-194 | in the acts of every history each act came when it was due: a phase is journaled right after its dependency was done and, where the source looks, the deadline had not passed; the deadline is looked at before the service is stopped, the backup made, the source identified and the database moved away, which is then still the expected file; a rolled back or failed phase is journaled right after the restart or the failure |
| `MaintenanceTrace.RanMeansDone` | src/cli/sqlite-maintenance-cycle.ts:118-192 | what is noted of a dependency was done at an act of the trace, with the candidate in place by then or not |
| `MaintenanceTrace.NotedMeansComplete` | src/cli/sqlite-maintenance-cycle.ts:112-194 | such a history stopped the service before it moved the database away, put the candidate in its place after that and did not undo it before it started the service, and passed the smoke test last |
| `MaintenanceCycle.LiveCandidateIsEarned` | src/cli/sqlite-maintenance-cycle.ts:112-180 | a candidate at the database path implies acts that proved the lease release, passed the journaled backup and candidate, and built the candidate from the file that is now preserved |
| `MaintenanceCycle.EveryPhaseWasDone` | src/cli/sqlite-maintenance-cycle.ts:112-194 | for every phase that a journal which holds has passed, its dependency was done at an act of the trace, after the activation exactly with the candidate in place |
| `MaintenanceCycle.Cycle.SavePhase` | src/cli/sqlite-maintenance-cycle.ts:518-529 | the journal is the new record if its rename was done, also when the sync after it fails, and the old one otherwise |
| `MaintenanceCycle.Cycle.Perform` | src/cli/sqlite-maintenance-cycle.ts:118-188 | whatever a dependency does and however it ends, the journal still holds; if it is done, the trace says so and in which layout |
| `MaintenanceCycle.Cycle.StopAdmission` | src/cli/sqlite-maintenance-cycle.ts:118-122 | reaches its phase only with admission stopped in time, or leaves a state that can be resumed and restored |
| `MaintenanceCycle.Cycle.StopService` | src/cli/sqlite-maintenance-cycle.ts:123-129 | the same for stopping the service, with the deadline looked at before and after |
| `MaintenanceCycle.Cycle.ProveLeaseReleased` | src/cli/sqlite-maintenance-cycle.ts:130-133 | the phase is journaled only once the release was proved |
| `MaintenanceCycle.Cycle.CreateBackup` | src/cli/sqlite-maintenance-cycle.ts:134-141 | the journaled backup is the file that was written |
| `MaintenanceCycle.Cycle.ValidateBackup` | src/cli/sqlite-maintenance-cycle.ts:142-147 | the phase is journaled only for the backup that passed, with its validation, and the backup is still that file |
| `MaintenanceCycle.Cycle.DrainRetention` | src/cli/sqlite-maintenance-cycle.ts:148-152 | reaches its phase only with the retention drained in time, and keeps a resumable state while the database is rewritten |
| `MaintenanceCycle.Cycle.CreateCandidate` | src/cli/sqlite-maintenance-cycle.ts:153-164 | journals the candidate with the source as it was before the copy began |
| `MaintenanceCycle.Cycle.ValidateCandidate` | src/cli/sqlite-maintenance-cycle.ts:165-170 | the phase is journaled only for the candidate that passed, with both validations, and with nothing of an earlier activation left |
| `MaintenanceCycle.Cycle.VerifySource` | src/cli/sqlite-maintenance-cycle.ts:172-175 | activation goes on only if the database is the file the candidate was built from and, looked at after that, the deadline has not passed |
| `MaintenanceCycle.Cycle.MoveCandidateIn` | src/cli/sqlite-maintenance-cycle.ts:356-370 | wherever it stops, the files are a prefix of activation and the undo list is what was moved; it is done only once the last rename was synced |
| `MaintenanceCycle.Cycle.UndoSidecars` | src/cli/sqlite-maintenance-cycle.ts:373-375 | the moved sidecars go back last first, one prefix at a time, and the trace says whether each was done |
| `MaintenanceCycle.Cycle.UndoActivation` | src/cli/sqlite-maintenance-cycle.ts:371-379 | the files are as before if every rename back was done, which the acts of the trace and the given turns decide |
| `MaintenanceCycle.Cycle.ActivateCandidate` | src/cli/sqlite-maintenance-cycle.ts:354-380 | all four renames, or on failure the files before if every rename back was done; killed, some prefix |
| `MaintenanceCycle.Cycle.Swap` | src/cli/sqlite-maintenance-cycle.ts:176 | the same with the journal still holding and the source still held |
| `MaintenanceCycle.Cycle.SwapIn` | src/cli/sqlite-maintenance-cycle.ts:176-177 | the same, and then the preserved original is identified; if that fails, the candidate stays in place and nothing in memory says so |
| `MaintenanceCycle.Cycle.RecordActivation` | src/cli/sqlite-maintenance-cycle.ts:177-179 | journals an activation that the files already show, with the preserved original as the source |
| `MaintenanceCycle.Cycle.Activate` | src/cli/sqlite-maintenance-cycle.ts:171-180 | ends activated and journaled, or resumable, or with the files as the first activation found them if every rename back was done, or with the candidate in place exactly as the four renames leave it if only the original could not be identified |
| `MaintenanceCycle.Cycle.PutBack` | src/cli/sqlite-maintenance-cycle.ts:247-251 | wherever it stops, the files are a prefix of reconciliation, a failed first rename changes nothing, and it is done only once synced |
| `MaintenanceCycle.Cycle.ConfirmActivation` | src/cli/sqlite-maintenance-cycle.ts:234-243 | a finished activation is journaled only if both files are the journaled ones |
| `MaintenanceCycle.Cycle.ReconcileInterruptedActivation` | src/cli/sqlite-maintenance-cycle.ts:219-255 | never takes the inconsistent branch; ends activated exactly if activation was finished, else ready to activate |
| `MaintenanceCycle.Cycle.StartService` | src/cli/sqlite-maintenance-cycle.ts:181-186 | reaches its phase only if the service was started, in time and with the candidate in place, and the source is still preserved |
| `MaintenanceCycle.Cycle.Smoke` | src/cli/sqlite-maintenance-cycle.ts:187-194 | completes only with an earned candidate, both validations, and the dependency of every phase done |
| `MaintenanceCycle.Cycle.RestoreOriginal` | src/cli/sqlite-maintenance-cycle.ts:382-392 | carries out the whole rollback |
| `MaintenanceCycle.Cycle.RollBackActivation` | src/cli/sqlite-maintenance-cycle.ts:196-207 | the database's files are exactly the preserved ones if and only if the stopped service left no stray sidecar |
| `MaintenanceCycle.Cycle.RestartService` | src/cli/sqlite-maintenance-cycle.ts:208-214 | the service is started on the files as they are, and the journal then says whether that was done, reverted or failed, or the last act failed |
| `MaintenanceCycle.Cycle.HandleFailure` | src/cli/sqlite-maintenance-cycle.ts:195-216 | runs only after an act or a comparison failed; it starts the service again unless its own rollback failed or it was killed, however the journal then ends, and a journal that could be written names the phase of that ending; that start is on files where no process has renamed anything, or exactly the source if and only if no sidecar is stray or the source is in place; where every rename back was done, on the files before what was begun or, unrecorded, after all of it |
| `MaintenanceCycle.Cycle.Forward` | src/cli/sqlite-maintenance-cycle.ts:113-194 | from any resumable journal: completion with an earned candidate, or a state that can be resumed and, after a failure, handled; the source is held throughout |
| `MaintenanceCycle.Cycle.Resume` | src/cli/sqlite-maintenance-cycle.ts:95-99 | takes over only a resumable journal, and rebuilds from disk what the phases need |
| `MaintenanceCycle.Cycle.Create` | src/cli/sqlite-maintenance-cycle.ts:100-111 | refuses if any file of the cycle exists, and changes nothing then |
| `MaintenanceCycle.Cycle.Run` | src/cli/sqlite-maintenance-cycle.ts:73-217 | one whole process under all turns: the files are what its acts made of them, each act when it was due; phases in order, no second activation; without a killed turn no crash, and without a failing act or comparison it finishes unless it was refused; if it finishes, the history stopped the service, swapped, started it on the candidate and smoke-tested it, in this order; a kill leaves a resumable state with the source held, a live candidate is earned, only a running journal is resumed; a failure restarts as described, and if no activation had begun before, the renames back were done and no sidecar is stray, on exactly the source if and only if no completed activation was left unrecorded; a failed put-back restarts without a database |
| `MaintenanceCycle.Cycle.Live` | src/cli/sqlite-maintenance-cycle.ts:73-217 | one life of a cycle, fresh or resumed: it keeps what is promised of the files and the activation that the trace shows at its start, and is refused only by a failing turn, a finished journal or occupied names |
| `MaintenanceCycle.Cycle.LiveThrough` | src/cli/sqlite-maintenance-cycle.ts:73-217 | any number of lives: the trace is the earlier one followed by each life's acts, which use that life's turns; every life but the last was killed with the source held as the first activation found it; the last ends as one life does, and only a crash is followed by another; a history that finishes has stopped the service before its first activation and started it after the swap, whichever lives did so |
| `MaintenanceExample.KilledActivation` | src/cli/sqlite-maintenance-cycle.ts:112-176 | all acts of a process that is killed between the renames of its activation, which leaves a journal that holds and an interrupted layout |
| `MaintenanceExample.RestartsWithoutDatabase` | src/cli/sqlite-maintenance-cycle.ts:195-254 | the next process fails to put the original back, starts the service without a database and leaves a journal that cannot be resumed |
| `MaintenanceExample.UnrecordedActivation` | src/cli/sqlite-maintenance-cycle.ts:176-216 | whenever only the preserved original cannot be read after the four renames, the service is started on the candidate and the journal says rolled back |
| `ToolGroups.GroupPrefix` | src/cards/answer-tool-render-ports.ts:82-114 | a group cut short is still a group |
| `ToolGroups.GroupableIff` | src/cards/answer-tool-render-ports.ts:82-114 | children form a group if and only if there are some, none is a plan update, and they are all reads, reads with exactly one search, all edits, all skills, or commands and tests |
| `ToolGroups.ProjectGroupAt` | src/cards/answer-tool-render-ports.ts:123-134 | the loop finds exactly the group that starts at an item |
| `ToolGroups.PanelEndAppend` | src/cards/answer-tool-render-ports.ts:123-134 | appending moves a panel's end only if an appended tool joins a run of children that reaches the end |
| `TimelinePage.LeadPage` | src/cards/answer-timeline-page.ts:26-39 | late results are taken in order until the first that does not fit |
| `TimelinePage.PlaceMessage` | src/cards/answer-timeline-page.ts:51-65 | the next slice of a message is put on the page, with its element, or ends it; PageIsDrawn and PageIsFull state what that means |
| `TimelinePage.PlanAnswerTimelinePage` | src/cards/answer-timeline-page.ts:19-102 | the loops compute the planned page, whose items, elements, ids, bounds and end the following rows state |
| `TimelinePage.CursorForms` | src/cards/answer-timeline-page.ts:24-25 | every form of a cursor starts a page where its plain form does |
| `TimelinePage.SliceEndsAtCut` | src/cards/answer-timeline-page.ts:52-53 | a slice ends exactly where the renderer cuts |
| `TimelinePage.PageMakesProgress` | src/cards/answer-timeline-page.ts:41-101 | a page that is not the last ends strictly beyond its cursor |
| `TimelineCoverage.PageKeepsEverything` | src/cards/answer-timeline-page.ts:41-101 | what is on a page and what is left after it are together exactly what its cursor promised |
| `TimelineCoverage.SoundAfter` | src/cards/answer-timeline-page.ts:41-101 | the planner's own cursors point into the timeline, with an offset only inside a message |
| `TimelineCoverage.ChainKeepsEverything` | src/cards/answer-timeline-page.ts:41-101 | the same for all pages of a chain from a cursor |
| `TimelineCoverage.AllPagesShowTheTimeline` | src/cards/answer-timeline-page.ts:19-102 | the chain from the beginning ends and shows every character of every message and every other item once and in order |
| `TimelineCoverage.CarriedOffsetLosesText` | src/cards/answer-timeline-page.ts:93-99 | the pages from any cursor lose text if and only if the cursor has an offset at a note and every note up to a message with text fits on the first page |
| `TimelineCoverage.StaleOffsetExample` | src/cards/answer-timeline-page.ts:93-99 | the smallest lost character |
| `TimelineCoverage.LateResultsStallIff` | src/cards/answer-timeline-page.ts:27-101 | a page does not get beyond its cursor if and only if what stands there is blocked by the late results |
| `TimelineCoverage.LateResultsCanStall` | src/cards/answer-timeline-page.ts:27-39 | the smallest such page |
| `TimelineCoverage.EveryPageIsBounded` | src/cards/answer-timeline-page.ts:27-101 | every page is within the limit or holds one element |
| `TimelineCoverage.PagesBreakAtHumans` | src/cards/answer-timeline-page.ts:43-50 | nothing is shown on a page before a human message that the page has passed, and after late results none is passed |
| `TimelineCoverage.ChainNeverCutsGroups` | src/cards/answer-timeline-page.ts:66-79 | no page of a chain, with any late results, ends inside a group that the planner makes one panel of; where tools have names, inside no group at all |
| `TimelineCoverage.UnnamedToolsOverlap` | src/cards/answer-tool-render-ports.ts:123-134 | without names a child can head a group of its own, and a planned page ends inside it |
| `TimelineCoverage.PageListsItsItems` | src/cards/answer-timeline-page.ts:26-101 | the reported ids are those of the items on the page, late results included |
| `TimelineCoverage.AppendLeavesFullPagesAlone` | src/cards/answer-timeline-page.ts:41-101 | a page with a next cursor is unchanged by appended items unless one joins the group at the cut |
| `TimelineElements.SerializedIsJson` | src/cards/answer-timeline-page.ts:31-33 | the length the planner compares with the limit is that of the JSON text of the elements |
| `TimelineElements.PageIsDrawn` | src/cards/answer-timeline-page.ts:19-102 | the elements of every planned page, late results included, are the renderings of the parts whose items it lists, in order: the text of each message slice, one element for a group, at most one for any other item, each drawn for the room left at its turn; the ids are those of the items, a message named once |
| `TimelineElements.PageIsFull` | src/cards/answer-timeline-page.ts:41-101 | a page that is not the last ends before a human message, inside a message that it shows up to the cut, or because what comes next would make it longer than the limit |
| `TimelineElements.LateResultsComeFirst` | src/cards/answer-timeline-page.ts:27-39 | late results stand first, in order and without gaps, up to the first that would make the page too long |
| `TimelineElements.LateResultsLoseNothing` | src/cards/answer-timeline-page.ts:27-101 | nothing that the cursor promises is lost for the late results before it |
| `TimelineDelivery.AnswerPageWorkflow.ConvergeTimeline` | src/coordinator/answer-page-workflow.ts:96-126 | one convergence makes exactly the reservations of the step function |
| `TimelineDelivery.ConvergeReserves` | src/coordinator/answer-page-workflow.ts:96-126 | with nothing on its way, a convergence reserves the active page exactly as planned now, unless it was delivered like that, and then the next page as planned from its end |
| `TimelineDelivery.PagesFollowDelivery` | src/coordinator/answer-page-workflow.ts:105-118 | in every run a page is added only behind one that is settled and delivered up to exactly the new page's start |
| `TimelineDelivery.LinkedIff` | src/coordinator/answer-page-workflow.ts:96-126 | over every run, with any late results and any timeline changes, each page with a successor ends where it starts if and only if no convergence gave a page another end after its successor was reserved |
| `TimelineDelivery.DivergenceShows` | src/coordinator/answer-page-workflow.ts:99-106 | such a convergence makes the two pages disagree once its delivery settles |
| `TimelineDelivery.DivergingRun` | src/coordinator/answer-page-workflow.ts:96-126 | a run in which a tool ends up on two pages |
| `TimelineDelivery.CalmRunsNeverDiverge` | src/coordinator/answer-page-workflow.ts:96-126 | without late results, and with growth that joins no group at a cut, no convergence does that |
| `TimelineDelivery.TilesCover` | src/coordinator/answer-page-workflow.ts:96-126 | what linked pages show and the timeline from the next start on make up the whole timeline |
| `TimelineDelivery.DeliveredPagesTile` | src/coordinator/answer-page-workflow.ts:96-126 | in every run in which none does and the timeline only grows, with any late results and any growth, the delivered ranges leave no gap, do not overlap and never go back |
| `TimelineDelivery.RestIsComplete` | src/coordinator/answer-page-workflow.ts:96-126 | in such a run, once nothing is on its way and a convergence has nothing to do, the delivered pages show the whole timeline |
| `TailQueue.Convergence.Converge` | src/coordinator/answer-page-workflow.ts:25-32 | the call waits for the prompt's tail and becomes the tail, and the queue stays in order |
| `TailQueue.Convergence.Finish` | src/coordinator/answer-page-workflow.ts:27-28 | a body ends, failed or not, and the queue stays in order |
| `TailQueue.Convergence.CleanUp` | src/coordinator/answer-page-workflow.ts:30 | the entry is removed only if it is still the call's own |
| `TailQueue.EveryInterleavingIsOk` | src/coordinator/answer-page-workflow.ts:25-32 | the invariant of order, chaining and tails holds in every interleaving |
| `TailQueue.BodiesNeverOverlap` | src/coordinator/answer-page-workflow.ts:25-28 | two bodies of a prompt never overlap and run in call order |
| `TailQueue.TailsAreDroppedLast` | src/coordinator/answer-page-workflow.ts:29-30 | an entry is there while anything of the prompt is unfinished, and none is left at rest |
| `TailQueue.FailureIsOwn` | src/coordinator/answer-page-workflow.ts:26-31 | a call's promise rejects exactly if its own body failed |
| `TailQueue.FirstUnsettledCanGo` | src/coordinator/answer-page-workflow.ts:26-28 | the queue never gets stuck, because a failed body's tail is fulfilled |
| `CardBounds.RetextedSize` | src/cards/turn-card.ts:189-202 | replacing the candidate texts changes the size by exactly what the texts changed |
| `CardBounds.RetextedBack` | src/cards/turn-card.ts:189-202 | the texts put in are the texts read back, and putting the first texts back gives the first elements |
| `CardBounds.CutChangesTextsOnly` | src/cards/turn-card.ts:189-208 | whatever texts are cut, nothing else of the card changes |
| `CardBounds.ShorteningShortens` | src/cards/turn-card.ts:206-207 | a shortened text loses exactly 32 characters or 1.2 times the excess, rounded up, down to its first character and the marker, and is still a first part of the original with the marker |
| `CardBounds.Longest` | src/cards/turn-card.ts:204 | the candidate taken is a longest one |
| `CardBounds.ShortenLongest` | src/cards/turn-card.ts:204-207 | exactly one text changes, a longest one, and it is cut by that much and no more; if none can be cut, all are as short as they get |
| `CardBounds.Shrink` | src/cards/turn-card.ts:203-208 | the loop ends, with the elements within the target or every text cut to exactly its first character and the marker; the texts got there by a course of such cuts, each made while the elements were over the target and by their excess |
| `CardBounds.CutsAreFair` | src/cards/turn-card.ts:203-208 | in every such course each text keeps its first character and the marker, and only one that was at least as long as every text is in the end was cut |
| `CardBounds.LastCutWasNeeded` | src/cards/turn-card.ts:203-208 | if anything was cut, the elements were over the target before the last cut, and the texts differ from those by that one cut of a longest text |
| `CardBounds.NothingIsShorter` | src/cards/turn-card.ts:203-209 | no shortening gives a smaller card than the shortest texts, but for what cutting adds to texts that it makes longer |
| `CardBounds.TurnCard.BoundPayload` | src/cards/turn-card.ts:184-216 | returns with the whole card within the limit or refuses with its length; untouched if within the target, else its texts are cut by a course in which every cut was needed; replaced only if the shortest texts are too long, and always if they are too long by more than what cutting adds to texts it makes longer |
| `CardBounds.JsonGrowth` | src/cards/turn-card.ts:184-213 | in JSON cutting makes a text longer if and only if it has exactly two characters more than the marker and nothing after its first is escaped, and then by one |
| `CardBounds.NeedlessReplacement` | src/cards/turn-card.ts:186-213 | every card of one such text that is exactly as long as the limit is replaced |
| `PanelSearch.SearchDetailLimit` | src/cards/answer-timeline.ts:121-131 | returns the full panel if it fits, else a limit that fits while the next larger does not, whenever the panel without detail fits |
| `PanelSearch.SearchIsQuick` | src/cards/answer-timeline.ts:123-130 | the search renders logarithmically many panels |
| `PanelSearch.EdgeIsLargestWhenMonotone` | src/cards/answer-timeline.ts:143-153 | the limit is the largest that fits where length grows with detail |
| `PanelSearch.EdgeNeedNotBeLargest` | src/cards/answer-timeline.ts:143-153 | otherwise a larger one may fit |
| `PanelSearch.SearchCanMissWithoutZero` | src/cards/answer-timeline.ts:143-153 | if the panel without detail does not fit, the search can miss one that does |
| `AgentInput.StepGrounded` | src/store/sqlite/submission-intent-store.ts:166-312 | every step keeps rows sound: no claimed row is recorded again, an observation stays, an ended row stays, no request changes |
| `AgentInput.StepPermits` | src/coordinator/agent-input-drainer.ts:33-69 | no step gives a submission a second permission to be sent while Core does not name the missing capability |
| `AgentInput.NamedCapabilityResends` | src/store/sqlite/submission-intent-store.ts:166-178 | a run that sends one plain input twice |
| `AgentInput.AtMostOnce` | src/coordinator/agent-input-drainer.ts:33-69 | over all runs with crashes at any await, each submission is sent at most once if and only if Core never names the missing capability |
| `AgentInput.RejectionIsJustified` | src/adapters/herdr-agent-input-adapter.ts:25-97 | a row is cancelled only by a refusal before the call, a definite code or a receipt, and a refused one was never sent |
| `AgentInput.ClaimIsForever` | src/coordinator/agent-input-drainer.ts:185-221 | whatever follows a claim, the row is never recorded again and keeps its request |
| `AgentInput.DrainEnds` | src/coordinator/agent-input-drainer.ts:46-68 | in every run a direct drain whose call returns leaves the row with its receipt, its rejection or its uncertainty, or, if another task moved the row on, with theirs or seen by the agent; CallEnds and LateAnswerEnds say which, by the answer |
| `AgentInput.PageEnds` | src/store/sqlite/submission-intent-store.ts:278-312 | a recovery page is written whole if and only if every outcome has a place, and then each row has ended with its own outcome; otherwise no row changes |
| `AgentInputEnds.ReceiptsAreOwn` | src/domain/submission-intent.ts:108-126 | in every run an adopted receipt names the row's own submission, pane, terminal, agent kind and, if one is expected, session |
| `AgentInputEnds.OnlyConsistentAreSent` | src/adapters/herdr-agent-input-adapter.ts:60-67 | in every run what was sent has the recorded text, and a choice its session |
| `AgentInputEnds.CallEnds` | src/adapters/herdr-agent-input-adapter.ts:60-97 | in every run an untouched row gets the receipt if and only if Core replied with one of its own, is rejected with a code if and only if Core failed with that definite code, and is otherwise uncertain with the code that says why; a refused call rejects with its own code |
| `AgentInputEnds.LateAnswerEnds` | src/coordinator/agent-input-drainer.ts:56-65 | on a row that moved on meanwhile an own receipt is adopted unless it would take an observation back, an uncertain row may get another reason, and nothing else changes |
| `AgentInputEnds.ProceedDecides` | src/coordinator/agent-input-drainer.ts:246-266 | after the capability check an input is sent if and only if its text is the recorded one and, for a choice, there is a session and Core is capable; what is not sent is refused or can be claimed again |
| `AgentInputEnds.PageCallEnds` | src/store/sqlite/submission-intent-store.ts:278-312 | in every run the answer to a recovery task ends its row, when its page is written, as a direct one does; a query ends it with the receipt or uncertain and never rejects |
| `AgentInputEnds.PageIsWrittenIff` | src/store/sqlite/submission-intent-store.ts:278-312 | in every run a page is written if and only if no reply names another submission, no failure meets a row that was observed or has ended, and no receipt takes an observation back |
| `AgentInputEnds.PageClaims` | src/store/sqlite/submission-intent-store.ts:249-276 | in every run a page submits exactly the rows that were never sent and queries all others, unchanged |
| `AgentInputEnds.NoRowIsStuck` | src/coordinator/agent-input-drainer.ts:185-221 | from every reachable state one restart and one page that Core replies to bring any row that was not observed to its end |
| `AgentInput.AgentInputDrainer.Drain` | src/coordinator/agent-input-drainer.ts:33-35 | claims exactly the claimable row |
| `AgentInput.AgentInputDrainer.ClaimRecoveryWorkPage` | src/store/sqlite/submission-intent-store.ts:249-276 | hands out a submission only for a row it claims, and a query otherwise |
| `AgentInput.AgentInputDrainer.Report` | src/coordinator/agent-input-drainer.ts:56-65 | a drain's outcome is written at once, a recovery task's is kept for its page |
| `AgentInput.AgentInputDrainer.Proceed` | src/coordinator/agent-input-drainer.ts:246-266 | after the capability check the input is refused, given back or sent |
| `AgentInput.AgentInputDrainer.TakeAnswer` | src/adapters/herdr-agent-input-adapter.ts:86-112 | the answer is taken as the step function says; CallEnds, LateAnswerEnds and PageCallEnds state what every answer makes of the row |
| `AgentInput.AgentInputDrainer.CompleteRecoveryWorkPage` | src/store/sqlite/submission-intent-store.ts:278-312 | the loop writes all outcomes or rolls back |
| `RecoveryLoop.RetryDelaysGrow` | src/coordinator/agent-input-drainer.ts:158-162 | delays lie between the initial and the maximum value, begin at the initial one and never shrink with the attempt |
| `RecoveryLoop.RetryDelayDoubles` | src/coordinator/agent-input-drainer.ts:158-162 | each delay is twice the one before, up to the maximum, for sixteen retries |
| `RecoveryLoop.StepKeepsOk` | src/coordinator/agent-input-drainer.ts:80-156 | every step keeps one page at a time, wakeable waits, growing delays and stops that wait for all |
| `RecoveryLoop.NeverTwoPages` | src/coordinator/agent-input-drainer.ts:80-150 | no two pages are ever in flight |
| `RecoveryLoop.StopWaitsForAll` | src/coordinator/agent-input-drainer.ts:152-156 | when a stop settles and nothing was started since its call, nothing is under way |
| `RecoveryLoop.StartDuringStop` | src/coordinator/agent-input-drainer.ts:80-82 | a start between the call of a stop and its end takes effect |
| `RecoveryLoop.NoPageWhileStopped` | src/coordinator/agent-input-drainer.ts:102-112 | from the call of a stop to the next start no page begins and no retry is left waiting |
| `RecoveryLoop.DelaysNeverShrink` | src/coordinator/agent-input-drainer.ts:91-121 | in every run the delays of a loop since its last success are within bounds and never shrink |
| `RecoveryLoop.OneWaitPerFailure` | src/coordinator/agent-input-drainer.ts:91-121 | in every run the loop has waited once for each failure since the last success, the first time for the initial delay |
| `RecoveryLoop.WaitsForTimer` | src/coordinator/agent-input-drainer.ts:164-182 | in every run a wait ends only because its delay is zero, its timer fired or recovery was stopped |
| `RecoveryLoop.RestsOnlyWhenDone` | src/coordinator/agent-input-drainer.ts:102-149 | in every run, unless stopped, recovery comes to rest only after a page with nothing behind it |
| `RecoveryLoop.LoopNeverSticks` | src/coordinator/agent-input-drainer.ts:102-120 | a loop can always go on once its page has settled or its timer has fired |
| `RecoveryLoop.StartupRecovery.StartRecovery` | src/coordinator/agent-input-drainer.ts:80-138 | does nothing while something is under way, else begins a page or, if none can be claimed, a retry |
| `RecoveryLoop.StartupRecovery.FirstPageSettled` | src/coordinator/agent-input-drainer.ts:138-149 | attaches the loop only if there is more and no stop was called |
| `RecoveryLoop.StartupRecovery.NextPage` | src/coordinator/agent-input-drainer.ts:102-109 | begins a page only when not stopping |
| `RecoveryLoop.StartupRecovery.PageSettled` | src/coordinator/agent-input-drainer.ts:109-119 | a success resets the delays, a failure waits for a retry |
| `RecoveryLoop.StartupRecovery.StopRecovery` | src/coordinator/agent-input-drainer.ts:152-156 | resolves a waiting retry and returns the promises to wait for |
| `NativeCircuit.StepKeepsOk` | src/adapters/herdr-adapter.ts:715-735 | every step keeps the flag, the count and the deadline in agreement |
| `NativeCircuit.AtMostOneProbe` | src/adapters/herdr-adapter.ts:718-720 | at most one probe is outstanding, and then the flag is set |
| `NativeCircuit.FlagMeansProbe` | src/adapters/herdr-adapter.ts:732-734 | the flag is set only then |
| `NativeCircuit.DeadlineMeansFailures` | src/adapters/herdr-adapter.ts:722-730 | there is a deadline if and only if the failures since the last success reach the threshold |
| `NativeCircuit.AdmittedIff` | src/adapters/herdr-adapter.ts:115-119 | a request is admitted if and only if the reported status is not open and no probe is outstanding; a refused one changes nothing |
| `NativeCircuit.ProbeIff` | src/adapters/herdr-adapter.ts:718-720 | in every run an admitted request is a probe if and only if the failures since the last recorded success have reached the threshold |
| `NativeCircuit.ProbeShutsOthersOut` | src/adapters/herdr-adapter.ts:715-720 | in every run, from the admission of a probe to its own answer, every request is refused at any time |
| `NativeCircuit.OneHalfOpenRequest` | src/adapters/herdr-adapter.ts:715-735 | in every run at most one request that was admitted in the half-open state is unanswered |
| `NativeCircuit.DeadlineMovesBack` | src/adapters/herdr-adapter.ts:727-730 | a failure brings the deadline forward exactly when its request was admitted before the one that set it |
| `NativeCircuit.DeadlineMovesBackExample` | src/adapters/herdr-adapter.ts:727-730 | two overlapping requests that do so |
| `NativeCircuit.NativeTransport.NativeTransportStatus` | src/adapters/herdr-adapter.ts:115-119 | open while a deadline lies ahead, closed below the threshold, with the failures since the last success |
| `NativeCircuit.NativeTransport.Request` | src/adapters/herdr-adapter.ts:715-720 | admission, and being a probe, decided before the await; ProbeIff and ProbeShutsOthersOut state what a probe is |
| `NativeCircuit.NativeTransport.Answer` | src/adapters/herdr-adapter.ts:722-734 | what a success or a failure records after the await |
| `LogRotation.UndoLast` | src/cli/service-lifecycle.ts:386-389 | renaming the last one back gives the logs before it, and replaces a log created since |
| `LogRotation.LogDirectory.MoveLogs` | src/cli/service-lifecycle.ts:379-385 | which effect fails first decides how far it gets and what the list says |
| `LogRotation.LogDirectory.Undo` | src/cli/service-lifecycle.ts:386-389 | the logs are back as they were if and only if the effects for it are all done |
| `LogRotation.LogDirectory.RotateLogs` | src/cli/service-lifecycle.ts:369-392 | given beforehand which effects fail: the rotated log is the old current log and the current log is empty if none does; else the logs are as they were if and only if the renames back are done, as they are whenever only one effect fails |
| `LogRotation.DisplacedExample` | src/cli/service-lifecycle.ts:379-389 | every rotation of a log above the size that displaces an older one fails and leaves the logs changed when the creation and the second rename back fail |
| `LogRotation.DisplacedLog` | src/cli/service-lifecycle.ts:369-392 | a directory in which that happens |
| `LogTail.SplitIsLines` | src/cli/service-lifecycle.ts:545-547 | splitting at newlines and dropping an empty last piece gives the lines |
| `LogTail.WindowShowsItsLines` | src/cli/service-lifecycle.ts:540-547 | the pieces of a window are exactly the file's lines that begin inside it |
| `LogTail.FillWindow` | src/cli/service-lifecycle.ts:535-539 | short reads add up to the window |
| `LogTail.StartsAtBoundary` | src/cli/service-lifecycle.ts:540-544 | whether the window begins a line |
| `LogTail.ReadLogTail` | src/cli/service-lifecycle.ts:527-550 | for every file, budget and sequence of non-empty short reads, exactly the lines that begin in the final window |
| `LogTail.BudgetIsOneWindow` | src/cli/service-lifecycle.ts:508-517 | spending the budget file by file shows the lines of one window over all files |
| `LogTail.CollectLogs` | src/cli/service-lifecycle.ts:508-517 | each file gets what is left of the budget, newest first, the lines end up oldest first, and no more window bytes are read than the budget |
| `LogTail.MatchingAt` | src/cli/service-lifecycle.ts:518 | every line is kept or left out for itself, in its place |
| `LogTail.LastOf` | src/cli/service-lifecycle.ts:518 | the last n lines: a suffix of that length, or all |
| `LogTail.PrintLogs` | src/cli/service-lifecycle.ts:503-525 | refuses a missing log or an option out of range, else prints the suffix of the matching of those lines that has the asked length, or all of them |

## Left out

- A process killed inside the failure handler of the maintenance cycle: the handler does not journal its own steps, so the model reports it as unrecorded and promises only what it says of a service that was started by then; what a later process finds is not described.
- `chmod` does not fail on its own, so a sidecar that was moved is always in the undo list; the second hash of a confirmed original is the first one; file identity is equality of contents, and private-file checks, syncs and the deadline are steps that may fail.
- Cycle identifiers, the argument parser and the operator's dependencies of the maintenance command; another writer that touches the files between a crash and its resume.
- `prepareAnswerTimelineItems` and the selection of late results: the planner gets prepared items, and appended items are assumed to leave earlier prepared ones unchanged.
- TimelineDelivery.DeliveredPagesTile: speaks of timelines that only get longer, because an item that changes in place changes what a delivered page shows; LinkedIff holds for any changes.
- Static pages, replacement cards, stream content and finishing a completed answer in the page workflow: other card kinds of the same store, with the same reservation pattern. That a page can also be frozen before its successor is active is left out: the model lets it converge for longer.
- Renderers of items, groups, markdown and cards: any function in their place, with a page of markdown that ends strictly later than it starts.
- CardBounds.TurnCard.BoundPayload: where cutting makes texts longer, whether a card whose shortest texts are too long by no more than that is replaced depends on the order of the cuts; only the two bounds are stated.
- Lengths of card texts count characters where the source counts UTF-16 units; a cut inside a surrogate pair is not modelled.
- CardBounds.Longest: takes a longest candidate where the source sorts the list; ties may be resolved differently.
- CardBounds.ShortenLongest: computes the cut with the exact ceiling of six fifths, not with a floating-point product, and rewrites the elements once at the end from the texts shortened in place.
- Paging of the recovery scan by creation time: a page may hold any distinct pending rows, which includes every page the scan produces. Migrations of rows and the cards that mirror their states are not modelled.
- The single-page `recover` call runs the same page steps as the startup loop in AgentInput; RecoveryLoop is only about the startup loop.
- LogTail.PrintLogs: requires that no read comes back empty before the end of a file, because an empty read ends a window early; lines are byte sequences and are not decoded as UTF-8.
- Lark and Herdr transports, card wording, configuration, composition, binding workflows and the card action router.
