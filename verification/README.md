# Kent terminal client, verified in Dafny

Kent is a client/server agent shell. Its terminal client runs several asynchronous state machines whose answers come
late, out of order, or not at all. This project models those machines and proves what holds in every run of them.

Each machine is a specification by functions on values (`OngoingController`, `DetailWindow`, `WorkspacePicker`,
`SessionPicker`, `GoalMutations`, `AskController`, `MouseSgr`, `Onboarding`, `GeneratedSync`), theorems about all of its
runs, and, where the program changes fields in place or loops, classes and methods proved to do what the specification
says.

- Transcript delivery: `LiveReadModel`, `OngoingController`, `TranscriptDelivery`, `TranscriptExactness`,
  `TranscriptDeferral`, `TranscriptChannel`, `TranscriptRecovery`. The goroutine, the bounded event stream, the request
  slot with the client's gate for it, and the controller are one transition system; the main theorems say that the
  terminal never shows a silent gap and never waits in vain for a hydration.
- Detail transcript window: `DetailWindow`, `DetailRefinement`, `DetailReader`. A cursor-paged cache of at most two pages
  is always a contiguous slice of the transcript, through paging, refreshing and rollback navigation.
- Startup pickers: `PickerViewport`, `PageWindow`, `WorkspacePicker`, `WorkspaceRuns`, `WorkspaceKeys`,
  `WorkspaceAnswers`, `WorkspacePickerModel`, `SessionPicker`, `SessionFreshness`, `SessionPages`, `SessionKeys`,
  `SessionPickerModel`.
- Single-flight machines: `GoalMutations`, `GoalRuns`, `GoalSessions`, `AskController`, `AskRuns`, `AskProjection`,
  `AskUpdates`, `AskAnswers`.
- Kernels: `MouseSgr`, `MouseStripping`, `MouseRestripping`, `Onboarding`, `OnboardingRuns`, `OnboardingVerbosity`,
  `OnboardingScreens`, `OnboardingOutcomes`, `OnboardingModel`, `TreeStream`, `GeneratedSync`.

`dafny verify dfyconfig.toml` checks the whole project.

## Properties that turned out to be conditional

Eleven properties one would expect do not hold of the code as it is. The code is modelled as it is; each has its exact
condition and a run that shows it can fail:

- A resize cutover that arrives while the buffer is not owned and the queue holds exactly 1000 works overflows the queue
  and drops its own reset; the next hydration then continues the old block. `TranscriptExactness.GapExactlyWhenResetIsLost`
  shows that this is the only way to a gap, `LostResetIsReachable` that there is one.
- Single flight of goal mutations holds within a session. Leaving a session with a mutation in flight, mutating in another
  and coming back breaks it: `GoalSessions.SingleFlightExactlyWithoutReturns`, `GoalRuns.RevisitIsReachable`.
- A goal mutation that waits behind one that fails is dropped: `GoalRuns.LastAskedIsSentExactly`,
  `DroppedMutationIsReachable`.
- A goal read overtaken by a mutation is ignored when it succeeds, but its failure is reported if that mutation had to
  wait: `GoalRuns.ReadTakesEffectOnlyWhenCurrent`, `FailedReadIsHeededExactly`, `OvertakenFailureIsReachable`.
- The answer to a goal mutation that comes while another session is on screen is dropped, and mutations of its session go
  on waiting for it: `GoalSessions.WaitingEndsExactly`, `StrandedForGood`, `StrandingIsReachable`.
- An update of the current question that arrives while the terminal size is unknown and an older text is being rendered is
  undone by that rendering, unless the size becomes known again before it ends; and an update of a queued question is
  overlooked: `AskUpdates.PromptsStayLatestExactly`, `AskProjection.BlindUpdateIsReachable`,
  `AskUpdates.BlindUpdateCanRecover`, `OutdatedPromptIsReachable`.
- The cursor returned with stripped mouse input is wrong when it was inside a removed report, behind another removed report
  and before kept text: `MouseStripping.CursorIsRightExactly`, `WrongCursorIsReachable`.
- Stripping mouse input twice is not stripping it once: taking a report out can bring the parts of another one together.
  `MouseRestripping.RestrippingIsIdleExactly`, `StrippingCanExposeAReport`.
- A model change in the setup keeps a verbosity level the new model does not list:
  `OnboardingVerbosity.VerbosityListedExactly`, `UnlistedVerbosityIsReachable`.
- A supervisor thinking level that was typed in and is then picked from the list stays a typed one, and its screen goes on
  showing it so: `OnboardingScreens.ChoiceIsShownExactly`, `TypedLevelStaysTyped`.
- The generated-tree stream reads back exactly when it holds no NUL bytes in paths and contents:
  `TreeStream.StreamDecodesExactlyWhenPlain`, `NulContentsCollide`.

In the same way an abort closes its tool exactly when its id has no outer whitespace.

## Model

| member | source | states |
|---|---|---|
| `TranscriptChannel.EndToEndNoSilentGap` | cli/app/session_transcript_channel.go:47-131 | In every execution of channel goroutine, event stream and controller, with any ownership changes, the works given to the surface split at resets into blocks, each exactly the terminal messages 1 to k of one subscription from its hydration on; and once the controller has accepted all it received, the last block, with what is queued, is all the open subscription has for the terminal. The one hypothesis is that no consumed cutover loses its own reset |
| `TranscriptChannel.StepIsCoherent` | cli/app/session_transcript_channel.go:133-186 | Every action of the goroutine keeps what it sent in step with what a consumer of the stream will receive, so all that the controller is told is lawful: history first, hydration at 1 only, nothing after a loss before the next cutover |
| `TranscriptChannel.ExecutionTracks` | cli/app/session_transcript_channel.go:84-117 | Whole executions keep the tracking invariant of channel and controller together |
| `TranscriptRecovery.NeverWaitsInVain` | cli/app/ui_ongoing_reducer.go:35-127 | In every execution of goroutine, stream, controller and the gate for reopening, whatever is lost, refused, overflows or is asked for meanwhile: while the controller has no hydration, one is still to come, or a cutover, or a loss that will lead to one, unless the stream ended for good; and a goroutine that waits for a request finds one once its loss has been consumed |
| `TranscriptRecovery.StepIsAlive` | cli/app/ui_ongoing_rehydration.go:43-70 | Every action keeps that: a reopening asked for has a cutover coming, one that is cut over has its hydration coming |
| `TranscriptRecovery.RequestsKeepTheirReason` | cli/app/ui_ongoing_rehydration.go:43-55 | A request in the channel stays until it is taken and goes into the cutover; a new one has the reason asked for, or is the resize that is due |
| `TranscriptRecovery.DueResizeIsAsked` | cli/app/ui_ongoing_rehydration.go:57-70 | A resize that is due is asked for when the buffer is regained and when the awaited hydration arrives |
| `TranscriptRecovery.OutageIsReportedOnce` | cli/app/session_transcript_channel.go:84-100 | While a connection stays down failing to open is reported once |
| `TranscriptDelivery.NoRunHasASilentGap` | cli/app/session_transcript_controller.go:75-97 | Any lawful interleaving of messages, losses, cutovers and ownership changes shows no gap: every block of works is a prefix of one subscription, later blocks showing later subscriptions; a controller that has caught up shows all there is, at once while it owns the buffer |
| `TranscriptDelivery.StepTracks` | cli/app/session_transcript_controller.go:172-217 | One input of any kind keeps the invariant: what the surface was given, and what it will have been given once the queue is drained, are both gapless |
| `TranscriptDelivery.DeliverTracks` | cli/app/session_transcript_controller.go:259-304 | A delivered message, whether shown, queued, refused or overflowing the queue, keeps the invariant |
| `TranscriptDelivery.CutoverTracks` | cli/app/session_transcript_controller.go:205-217 | A cutover, with the buffer owned, deferred, or dropped with a full queue under an empty block, keeps the invariant |
| `TranscriptExactness.GapExactlyWhenResetIsLost` | cli/app/session_transcript_controller.go:205-217 | After any gapless run, a cutover is followed by a gap in some continuation if and only if it is a resize that meets an exactly full queue while the terminal is showing messages |
| `TranscriptExactness.LostResetIsReachable` | cli/app/session_transcript_controller.go:294-304 | A concrete run that loses a reset: one hydration, the buffer given up, a thousand queued messages, then a resize |
| `TranscriptExactness.LostResetShowsGap` | cli/app/session_transcript_controller.go:172-188 | Once the reset is lost, regaining the buffer and hydrating again puts two hydrations into one block |
| `TranscriptDeferral.DeferralRefinesImmediacy` | cli/app/session_transcript_controller.go:306-341 | A run that loses nothing and ends with the buffer owned gives the surface the same works, in order, as the same run with the buffer owned throughout |
| `TranscriptDeferral.WorkIsConserved` | cli/app/session_transcript_controller.go:294-320 | What was due plus what arrives is what is given plus what is still due, at every step |
| `TranscriptDeferral.CalmRunsLoseNothing` | cli/app/session_transcript_controller.go:88-96 | Runs without gap, loss, overflow or non-resize cutover lose nothing, so the refinement applies to them |
| `OngoingController.EveryRunIsSound` | cli/app/session_transcript_controller.go:75-120 | In every run, whatever is sent: the queue holds at most 1000 works, is empty while owned or overflowed, and the messages admitted since the last reset are 1 to lastSequence with only the first a hydration |
| `OngoingController.LiveToolsReflectRun` | cli/app/session_transcript_controller.go:343-425 | After every run the live tools are exactly those started since the last reset and not closed since by a committed tool row or an abort, in start order |
| `OngoingController.AdmissionContinues` | cli/app/session_transcript_controller.go:259-280 | Admission extends the numbered sequence by one or resets it |
| `OngoingController.RequestsAreMadeExactly` | cli/app/session_transcript_controller.go:172-188 | After any run a step asks for rehydration if and only if the subscription is lost, a message arrives that is not the next in number, or the buffer is regained after an overflow; in that step, once, and with that reason |
| `OngoingController.LossWhileAwayAsksOnReturn` | cli/app/session_transcript_controller.go:254-273 | A loss or a message out of order while the buffer is given up: whatever follows until the cutover, regaining the buffer shows nothing and asks for rehydration |
| `OngoingController.OwnedIsPainted` | cli/app/session_transcript_controller.go:75-97 | In every run, while the buffer is owned nothing that changed in the live section is left unpainted |
| `OngoingController.RegainingPaintsLast` | cli/app/session_transcript_controller.go:306-320 | After any run, regaining the buffer gives the queued works in order and then paints, if and only if something had changed in the live section meanwhile or nothing was queued |
| `OngoingController.OwnedMessageIsShown` | cli/app/session_transcript_controller.go:322-341 | After any run the next message is shown at once while the buffer is owned, followed by a painting where it prints nothing of its own |
| `OngoingController.HandoverShowsEachRowOnce` | cli/app/session_transcript_controller.go:99-146 | Of the first hydration after a history page, wherever it begins, exactly these rows are shown, in order: the completions of the tools the page showed unfinished, then every row past the page; a row of the page comes again only as such a completion |
| `OngoingController.KeepUnshown` | cli/app/session_transcript_controller.go:131-144 | The loop that drops already shown hydration rows keeps exactly those past the page end or completing a tool |
| `OngoingController.TranscriptController.AcceptMessage` | cli/app/session_transcript_controller.go:75-97 | The method on the mutable controller does what the specified step does: state, surface calls and result |
| `OngoingController.TranscriptController.AcceptHistoryPage` | cli/app/session_transcript_controller.go:99-120 | History is refused after hydration, else remembered and shown or queued |
| `OngoingController.TranscriptController.AcceptCutoverEvent` | cli/app/session_transcript_controller.go:205-217 | Resets admission, keeps or drops the queue, then shows or queues the reset |
| `OngoingController.TranscriptController.HandleLoss` | cli/app/session_transcript_controller.go:254-257 | A lost subscription drops everything and asks for rehydration |
| `OngoingController.TranscriptController.SetOwnership` | cli/app/session_transcript_controller.go:172-188 | Regaining the buffer drains the queue, or asks for rehydration after an overflow |
| `OngoingController.TranscriptController.DrainQueued` | cli/app/session_transcript_controller.go:306-320 | Applies the queued works in order and clears the queue |
| `LiveReadModel.ListReflectsLog` | cli/app/session_transcript_read_model.go:85-111 | For every log of starts, closes and clears, the list is the tools in force in opening order, each with its latest description, and none is missing |
| `LiveReadModel.AbortClosesItsTool` | cli/app/session_transcript_controller.go:361-408 | An abort closes the tool it names exactly when the id has no outer whitespace |
| `LiveReadModel.ReadModel.AddPendingTool` | cli/app/session_transcript_read_model.go:85-95 | Adds or replaces a tool and keeps the index the exact inverse of the list |
| `LiveReadModel.ReadModel.RemovePendingTool` | cli/app/session_transcript_read_model.go:97-111 | Removes a tool and reindexes: the index is again the exact inverse |
| `LiveReadModel.Reindex` | cli/app/session_transcript_read_model.go:107-109 | The reindexing loop turns the index of the longer list into the inverse of the shorter one |
| `DetailRefinement.WindowRefinesTranscript` | cli/app/ui_detail_transcript_window.go:91-223 | Over one immutable transcript, however pages from anywhere replace the window, or are prepended, appended, repeated, evicted or read again, the window is a contiguous slice cut into its segments, with exactly the cursors and flags of its two ends |
| `DetailReader.EveryRunShowsTheTranscript` | cli/app/ui_runtime_reducer.go:59-144 | In every run of page requests, answers, failures, rollback navigation to pages anywhere and the restoring of the window after it, the window is such a slice: the one request at a time always fits the window its answer meets |
| `DetailReader.AnswerIsLegal` | cli/app/ui_runtime_reducer.go:96-130 | Whatever the reducer makes of a truthful answer, refresh, replace, append or prepend, is a load that keeps the refinement |
| `DetailReader.MatchHasSameEnds` | cli/app/ui_runtime_reducer.go:100-103 | The same rows in answer to the same request come from the same place, so reading the ends again finds the cursors and flags the window has |
| `DetailReader.AskingNamesTheEnd` | cli/app/ui_detail_transcript_window.go:314-328 | Asking for older or newer rows names the first or last row of the window, if and only if the transcript goes on there |
| `DetailReader.AnswerIsHeld` | cli/app/ui_runtime_reducer.go:96-131 | A page with rows that answers a request is in the window afterwards, or is all of it |
| `DetailReader.RollbackIsUndone` | cli/app/ui_rollback.go:506-526 | However far rollback navigation went, ending it shows what was shown before, with nothing under way |
| `DetailReader.LocatedPageReplaces` | cli/app/ui_rollback.go:74-91 | A page located for rollback is asked for by its end, and its answer takes the place of the window |
| `DetailReader.SkippedPageIsNotShown` | cli/app/ui_rollback.go:381-408 | A page without candidates is not shown; the answer to the next request takes the place of the window |
| `DetailRefinement.RefreshChangesExactly` | cli/app/ui_detail_transcript_window.go:91-103 | Taking over the cursors of a page leaves the window as it is, but for the rollback candidate, if and only if the page has the ends of the window |
| `DetailReader.ApplyDetailLoad` | cli/app/ui_runtime_reducer.go:96-131 | The reducer on the mutable window: matches and refreshes, replaces, appends or prepends as specified |
| `DetailRefinement.AppendRefines` | cli/app/ui_detail_transcript_window.go:188-223 | An append of the page after, of a resident page or of an empty page keeps the refinement |
| `DetailRefinement.PrependRefines` | cli/app/ui_detail_transcript_window.go:146-186 | A prepend keeps the refinement likewise |
| `DetailRefinement.LoadStaysBounded` | cli/app/ui_detail_transcript_window.go:261-308 | No load leaves more than two segments |
| `DetailWindow.AppendConservesRows` | cli/app/ui_detail_transcript_window.go:188-223 | Rows evicted at the front followed by the window are the old window followed by the page |
| `DetailWindow.PrependKeepsPrefix` | cli/app/ui_detail_transcript_window.go:146-186 | A prepend evicts only at the far end: the window is a prefix of the page followed by the old window |
| `DetailWindow.EvictionKeepsAnchor` | cli/app/ui_detail_transcript_window.go:261-308 | Eviction ends with at most two segments, and the segment of the anchor with its rows is one of them |
| `DetailWindow.AppendTwice` | cli/app/ui_detail_transcript_window.go:197-223 | Appending the same page twice is appending it once |
| `DetailWindow.PrependTwice` | cli/app/ui_detail_transcript_window.go:155-186 | Prepending the same page twice is prepending it once |
| `DetailWindow.RepeatIsIgnored` | cli/app/ui_detail_transcript_window.go:225-252 | A page already resident changes nothing |
| `DetailWindow.ForeignPageReplaces` | cli/app/ui_detail_transcript_window.go:146-204 | A page of another session takes the place of the window however it is added, and never counts as what is shown |
| `DetailWindow.OwnPageIsAdded` | cli/app/ui_detail_transcript_window.go:146-223 | A new page of the session adds all its rows |
| `DetailWindow.TranscriptWindow.Append` | cli/app/ui_detail_transcript_window.go:188-223 | The method on the mutable window does the specified append |
| `DetailWindow.TranscriptWindow.Prepend` | cli/app/ui_detail_transcript_window.go:146-186 | The method on the mutable window does the specified prepend |
| `DetailWindow.TranscriptWindow.HoldsPage` | cli/app/ui_detail_transcript_window.go:225-252 | Finds a resident segment with this page by comparing bounds and rows |
| `DetailWindow.TranscriptWindow.EvictFarSegments` | cli/app/ui_detail_transcript_window.go:279-305 | The eviction loop ends, and does what repeated eviction of the farther segment does |
| `DetailWindow.TranscriptWindow.FindAnchor` | cli/app/ui_detail_transcript_window.go:270-278 | The last segment that starts at or before the row |
| `PickerViewport.EnsureVisible` | cli/app/session_picker_window.go:8-33 | From any starting offset the scroll ends at the least offset that shows the selection |
| `PickerViewport.VisibilityIsMonotone` | cli/app/session_picker_window.go:70-77 | A row visible from an offset is visible from every later offset up to the row |
| `PickerViewport.RowsFitBudget` | cli/app/session_picker_window.go:35-68 | The rows shown, previews and separators included, never take more lines than there are |
| `PickerViewport.RowsFillBudget` | cli/app/session_picker_window.go:35-68 | A row is left out only where not even its one line fits |
| `PickerViewport.PreviewsShowWhenTheyFit` | cli/app/session_picker_window.go:35-68 | A row shows its preview if and only if it has one and both lines fit |
| `PickerViewport.LeastOffsetIsUnique` | cli/app/internal/projectbinding/projectpicker_picker.go:83-104 | There is one such offset, so where the list was scrolled before makes no difference |
| `PickerViewport.ComputeVisibleRows` | cli/app/session_picker_window.go:35-68 | The row loop finds exactly the rows that fit |
| `PickerViewport.IsRowVisible` | cli/app/internal/projectbinding/projectpicker_picker.go:156-163 | A row is found exactly when it is among the visible rows |
| `PageWindow.AnsweredAtMostOnce` | cli/app/startup_paged_picker.go:100-184 | In every run of begin, complete, fail and reset, requests in flight stay distinct, and a request once answered or abandoned is never matched again |
| `PageWindow.AnswerSpends` | cli/app/startup_paged_picker.go:150-184 | Completing, failing or resetting spends a request and leaves the other directions alone |
| `PageWindow.NewPageAndNeighbour` | cli/app/startup_paged_picker.go:57-71 | A page that is appended or prepended stays together with the page next to it, and no other page does |
| `WorkspaceRuns.EveryRunStaysContiguous` | cli/app/project_workspace_picker.go:564-684 | For every interleaving of keys, resizes and answers: at most two pages at consecutive offsets; while ready the cursor is the index of the selected row and the offset that of the top row; a failed edge shows as ReadyWithEdgeFailure |
| `WorkspaceRuns.AnswerChangesPages` | cli/app/project_workspace_picker.go:564-643 | The resident pages change if and only if the answer is to the request in flight of its direction, still fits the boundary, is usable and keeps the selected and top rows resident; then by its page alone |
| `WorkspaceRuns.OnlyAnswersChangePages` | cli/app/project_workspace_picker.go:283-323 | No key and no resize changes the resident pages |
| `WorkspaceRuns.BackgroundLoadKeepsPlace` | cli/app/project_workspace_picker.go:629-684 | An answer the user did not ask for by walking off the edge keeps the same workspace selected and the same row on top, even when a page is evicted or prepended |
| `WorkspaceRuns.CrossingLandsOnPage` | cli/app/project_workspace_picker.go:655-678 | A taken crossing answer selects the landing row of its page, which always exists |
| `WorkspaceRuns.MoveLandsWhereItAimed` | cli/app/project_workspace_picker.go:479-494 | The landing row of a crossing is the row one step, or a screenful, from the cursor in the list with the arrived page joined on, as far as that list goes |
| `WorkspaceRuns.EdgeMoveIsHeard` | cli/app/project_workspace_picker.go:283-323 | Walking off an edge, by a row or by a screenful, leaves it loading or known to be the end: a failed edge is always retried |
| `WorkspaceKeys.KeysSelectWhereTheyAim` | cli/app/project_workspace_picker.go:152-170 | In a ready picker an arrow selects the next row its way and a page key the row a screenful away, scrolled to just where it can be seen; past the resident rows neither touches rows or selection |
| `WorkspaceKeys.ChoosesExactly` | cli/app/project_workspace_picker.go:170-187 | In every sound state: Enter chooses the workspace of the selected row, a first page that is a single workspace chooses that, and nothing else chooses anything |
| `WorkspaceKeys.MovesPrefetch` | cli/app/project_workspace_picker.go:384-398 | A row move that comes within a screenful of an end has the page past it on the way, or there is none; elsewhere nothing is asked for |
| `WorkspaceKeys.ResizeShowsTheSelection` | cli/app/project_workspace_picker.go:352-381 | Resizing scrolls to just where the selected row can be seen, and selects nothing else |
| `WorkspaceKeys.FirstPageShowsItsFirstRow` | cli/app/project_workspace_picker.go:584-620 | A first page of several rows is shown from its first row on |
| `WorkspaceAnswers.CrossingAsksBeyond` | cli/app/project_workspace_picker.go:422-477 | Walking off an end asks for exactly the page past it, in a request that fits the rows it was made for |
| `WorkspaceAnswers.NearingAsksBeyond` | cli/app/project_workspace_picker.go:384-398 | Coming near an end asks for that page in the background |
| `WorkspaceAnswers.FirstAnswerSettles` | cli/app/project_workspace_picker.go:564-626 | The first answer leads to rows, a choice, an empty list or a failure, each exactly when it should, with the edges known |
| `WorkspaceAnswers.EdgesEndExactly` | cli/app/project_workspace_picker.go:626-648 | An edge is given up as the end if and only if there is no page past it, or that page came empty |
| `WorkspaceAnswers.AnswersSettleThePhase` | cli/app/project_workspace_picker.go:626-650 | After an answer at an edge the picker shows a failure if and only if one of its edges has failed |
| `WorkspaceAnswers.CrossingShowsItsRow` | cli/app/project_workspace_picker.go:655-684 | The row a crossing lands on can be seen |
| `WorkspaceAnswers.ScreenFits` | cli/app/project_workspace_picker.go:264-281 | What is shown fits the terminal with all that is around the rows, and every row that fits is shown |
| `WorkspaceAnswers.StepLoadingAsks` | cli/app/project_workspace_picker.go:519-553 | While the picker loads, with nothing chosen, its first request is out |
| `WorkspaceAnswers.StepKeepsPagesSmall` | cli/app/project_workspace_picker.go:578-585 | No page longer than was asked for ever becomes resident |
| `WorkspaceRuns.StepIsSound` | cli/app/project_workspace_picker.go:129-198 | Every action keeps the full invariant of pages, requests, edges and anchors |
| `WorkspaceRuns.SyncedEdgeIsSound` | cli/app/project_workspace_picker.go:762-797 | Reconciling an edge with the page list leaves no stale failure and no dead unknown edge |
| `WorkspaceRuns.CandidateIsContiguous` | cli/app/project_workspace_picker.go:716-749 | A page that passes the boundary check continues the list on its side |
| `WorkspaceRuns.OccurrenceRoundTrip` | cli/app/project_workspace_picker.go:331-350 | The occurrence taken at an index is found again at that index |
| `WorkspaceRuns.OccurrenceLeadsToRow` | cli/app/project_workspace_picker.go:840-854 | An occurrence leads to the row it names whatever pages surround its page |
| `WorkspacePicker.FoundWhenNamed` | cli/app/project_workspace_picker.go:807-819 | A row is found exactly when some resident page names it |
| `WorkspacePickerModel.PickerModel.ApplyPageLoaded` | cli/app/project_workspace_picker.go:564-684 | The method on the mutable picker does the specified step and keeps the picker sound |
| `WorkspacePickerModel.PickerModel.MoveCursorBy` | cli/app/project_workspace_picker.go:283-300 | Moves by one row, or asks for the page past the edge |
| `WorkspacePickerModel.PickerModel.MoveCursorPage` | cli/app/project_workspace_picker.go:302-323 | Moves by a screenful, or asks for the page past the edge |
| `WorkspacePickerModel.PickerModel.PressEnter` | cli/app/project_workspace_picker.go:170-187 | Chooses the row under the cursor, or retries the first page |
| `WorkspacePickerModel.Find` | cli/app/project_workspace_picker.go:840-854 | The loop finds the index of a remembered row |
| `WorkspacePickerModel.IsResident` | cli/app/project_workspace_picker.go:807-819 | The loop decides whether a remembered row is still resident |
| `WorkspacePickerModel.Locate` | cli/app/project_workspace_picker.go:337-348 | The loop names the row at an index by its page |
| `WorkspacePickerModel.Flatten` | cli/app/startup_paged_picker.go:73-83 | The rows of all pages in order |
| `SessionFreshness.SettledTabIsFresh` | cli/app/session_picker.go:175-193 | In every run a tab has at most one request outstanding; a pending refresh waits behind one; and whenever nothing is outstanding every page on screen was asked for after the last catalog change |
| `SessionFreshness.StepIsCoherent` | cli/app/session_picker.go:166-232 | Every event keeps that invariant |
| `SessionFreshness.ArrivalIsCoherent` | cli/app/session_picker.go:498-581 | Every answer, stale or failed included, keeps it, the refresh that was waiting being started at once |
| `SessionPages.TabPagesAdjoin` | cli/app/session_picker.go:303-341 | In every run, whatever the server answers, a tab has at most two pages, the second where the first says its successor is or the first as the one asked for before the second; so they are fifty rows apart unless the first page names another successor or the second lay within the first fifty rows |
| `SessionPicker.SelectionRoundTrip` | cli/app/session_picker_tab.go:105-144 | Selecting a row and looking for it finds that row if and only if no earlier row is the same session |
| `SessionPicker.JoinSelectsNeighbour` | cli/app/session_picker.go:543-555 | After a page joins, the rows on the far side of the selected row are exactly those of the old page that stays, with the create row; looking the selection up finds that row if and only if no earlier row is the same session |
| `SessionKeys.ArrowsMoveByOne` | cli/app/session_picker.go:303-341 | An arrow selects the next row its way; at the end it asks for the page beyond, if there is one and nothing is under way; with nothing selected it selects the first row |
| `SessionKeys.PageKeysMoveByScreen` | cli/app/session_picker.go:343-396 | A page key selects the row a screenful away, asks for the page beyond the end, or settles for the last row that way |
| `SessionKeys.CreateRowIsFirst` | cli/app/session_picker_tab.go:60-104 | The row to create a session is the first, in the main tab, if and only if the newest sessions are resident |
| `SessionKeys.ShowingRetries` | cli/app/session_picker.go:195-232 | Showing a tab that failed loads it afresh; showing any other scrolls it to its selected row |
| `SessionKeys.StrayAnswersAreIgnored` | cli/app/session_picker.go:498-529 | An answer other than to the one request that is out changes nothing |
| `SessionKeys.FirstPageIsShown` | cli/app/session_picker_tab.go:156-169 | A first page of this project and kind is shown, scrolled to the selected row; an empty one shows an empty tab |
| `SessionKeys.NextPageIsShown` | cli/app/session_picker.go:541-581 | A page past an end joins the rows, and the row it selects can be seen |
| `SessionKeys.FailureIsShown` | cli/app/session_picker.go:498-540 | An answer of another project or kind, too long, or an error empties the tab and shows the failure |
| `SessionPickerModel.FindSelected` | cli/app/session_picker_tab.go:105-129 | The loop finds the first row of the selected session, or the create row |
| `SessionPickerModel.TabModel.PageArrived` | cli/app/session_picker.go:187-193 | The method on the mutable tab applies an answer and starts a waiting refresh |
| `SessionPickerModel.TabModel.CatalogChange` | cli/app/session_picker.go:175-186 | Marks the tab stale and reloads it unless a request is outstanding |
| `SessionPickerModel.TabModel.MoveRow` | cli/app/session_picker.go:303-341 | Selects the next row or asks for the page past the edge |
| `SessionPickerModel.TabModel.MoveScreen` | cli/app/session_picker.go:343-396 | Selects a row a screenful away, asks for a page, or settles for the last row |
| `GoalRuns.MutationsCoalesce` | cli/app/ui_goal.go:185-217 | Within one session at most one mutation is in flight and the machine waits exactly while there is one; if none fails, then once idle the mutation last sent is the one last asked for |
| `GoalRuns.SingleFlightExactlyWithoutRevisits` | cli/app/ui_goal.go:198-216 | Across sessions: no session ever has two mutations in flight if and only if no step asks for a mutation in a session that has one in flight while the machine tracks another session |
| `GoalRuns.RevisitIsReachable` | cli/app/ui_goal.go:198-216 | For any two sessions, mutating in one, then the other, then the first again puts two in flight |
| `GoalRuns.ReadTakesEffectOnlyWhenCurrent` | cli/app/ui_goal.go:306-367 | In every run a Show or Check result, after whose sending a mutation was asked for, takes effect if and only if it is a failure, nothing was sent since, and its session is on screen; so a success overtaken by a mutation never does |
| `GoalRuns.FailedReadIsHeededExactly` | cli/app/ui_goal.go:313-337 | After any run a read is sent and any events follow: its failure is heeded if and only if none of them sent anything, mutations that waited excepted, and its session is on screen |
| `GoalRuns.OvertakenFailureIsReachable` | cli/app/ui_goal.go:198-203 | A concrete run in which a failed read is heeded after a mutation was asked for, and no success would be |
| `GoalRuns.ChecksAskOrGoOn` | cli/app/ui_goal.go:350-367 | The answer to a current check: a running goal puts the question about that goal and sends nothing; otherwise the mutation is asked for at once and no question is put |
| `GoalRuns.ShowIsShown` | cli/app/ui_goal.go:342-349 | A current read shows exactly the goal it was answered with, and does nothing else |
| `GoalRuns.MutationIsShown` | cli/app/ui_goal.go:368-397 | A mutation that succeeds shows the goal it answers with, where it has one, and closes the question it was for |
| `GoalRuns.RequestIsSent` | cli/app/ui_goal.go:219-254 | What is sent is what was asked for, trimmed, for the session on screen; a mutation behind one in flight takes the place of what waits |
| `GoalRuns.FailureDropsTheWaiting` | cli/app/ui_goal.go:324-327 | A failed mutation leaves the machine up to date if and only if nothing was waiting behind it |
| `GoalRuns.LastAskedIsSentExactly` | cli/app/ui_goal.go:324-341 | Through a whole run in one session: whenever nothing is in flight the mutation last sent is the one last asked for, if and only if no mutation fails while another waits behind it |
| `GoalRuns.DroppedMutationIsReachable` | cli/app/ui_goal.go:324-327 | A concrete run after which the mutation last asked for was never sent and nothing is in flight |
| `GoalSessions.SingleFlightExactlyWithoutReturns` | cli/app/ui_goal.go:198-216 | The same told by what is sent and answered: no session ever has two mutations in flight if and only if none is asked for in a session with an unanswered mutation after which one for another session was sent |
| `GoalSessions.WaitingEndsExactly` | cli/app/ui_goal.go:313-322 | Across sessions: a mutation that waits always waits for an answer still to come, if and only if no answer to the mutation in flight comes while another session is on screen |
| `GoalSessions.StrandingStep` | cli/app/ui_goal.go:306-327 | For each event, when the machine comes to wait for an answer already gone, and when that ends: by a mutation in another session only |
| `GoalSessions.StrandedForGood` | cli/app/ui_goal.go:198-203 | From then on, as long as mutations are asked for in that session only, none is ever sent |
| `GoalSessions.StrandingIsReachable` | cli/app/ui_goal.go:320-322 | For any two sessions, looking at the other one while the answer comes leads there, with no command out |
| `GoalRuns.StepIsTracked` | cli/app/ui_goal.go:306-418 | Every event within the session keeps tracking exact and, without failures, up to date |
| `GoalMutations.GoalClient.ApplyDone` | cli/app/ui_goal.go:306-400 | Deals with a result: dropped when stale, else failure, follow-up, display or question |
| `AskRuns.PromptsKeepArrivalOrder` | cli/app/ui_ask_controller.go:56-128 | In every run the current prompt followed by the queue is a subsequence of the arrivals |
| `AskRuns.ResolveRemovesExactly` | cli/app/ui_ask_controller.go:78-128 | Resolving an id removes it wherever it waits and nothing else; the rest keeps its order |
| `AskRuns.StepMovesPrompts` | cli/app/ui_ask_controller.go:56-76 | What each event does to the waiting prompts, rendering results and answers included |
| `AskRuns.DeliveryAnswersTheCurrentPrompt` | cli/app/ui_ask_controller.go:469-490 | In every run a delivery under way belongs to the current prompt; its success resolves that prompt and no other |
| `AskRuns.StaleResultIsIgnored` | cli/app/transcript_prompt_answers.go:69-107 | The result of an attempt that was withdrawn, superseded or finished changes nothing, however much later it comes |
| `AskRuns.StepDelivers` | cli/app/ui_ask_controller.go:522-544 | Every attempt but the one under way has been called off |
| `AskAnswers.SubmittingDeliversExactly` | cli/app/ui_ask_controller.go:469-490 | In every run, submitting begins a new delivery for the current prompt if and only if none is under way, the prompt has a tool call, the answer is for it and fits; otherwise nothing about deliveries changes |
| `AskAnswers.DecliningDeliversExactly` | cli/app/ui_ask_controller.go:469-490 | In every run, declining calls off the delivery under way and begins a new one if and only if the prompt has a tool call and the answer fits |
| `AskAnswers.DeliveryStaysUntilEnded` | cli/app/ui_ask_controller.go:522-544 | A delivery under way ends only with its result, by declining, or with its prompt |
| `AskAnswers.ArrivalGoesWhereItBelongs` | cli/app/ui_ask_controller.go:56-76 | A prompt takes the place of the current one of the same tool call, becomes current where none is, and otherwise waits last |
| `AskAnswers.ResolvingMovesOn` | cli/app/ui_ask_controller.go:78-128 | Resolving drops all prompts of the tool call and moves on to the next under a new token |
| `AskProjection.SettledPromptIsShown` | cli/app/ui_ask_projection.go:92-177 | In every run without rendering errors a wanted rendering is always being worked on, and once nothing is, the prompt is shown exactly as rendering its present text at the present width gives |
| `AskProjection.RowsBelongToCurrentPrompt` | cli/app/ui_ask_projection.go:144-177 | In every run the rows on screen were rendered for the prompt that is current |
| `AskProjection.ActivationIsAnnouncedOnce` | cli/app/attention_notification_events.go:70-82 | In every run activations are announced in order, each at most once |
| `AskAnswers.FirstShowingAnnounces` | cli/app/ui_ask_projection.go:150-177 | The first rendering shown of a live prompt announces it, at once if it has attention and otherwise as soon as it has; later ones and hydrated prompts announce nothing |
| `AskAnswers.AttentionAnnouncesExactly` | cli/app/attention_notification_events.go:70-82 | Attention announces what was not announced yet, and does nothing else |
| `AskAnswers.WidthIsLatest` | cli/app/ui_ask_projection.go:92-110 | In every run the width rendered for is the one last reported |
| `AskAnswers.UnwantedResultMakesWay` | cli/app/ui_ask_projection.go:150-160 | A result not wanted any more shows nothing, and what is wanted by now is rendered next |
| `AskAnswers.FailedRenderingWaits` | cli/app/ui_ask_projection.go:150-177 | A rendering that fails leaves what is shown and is not made again by itself |
| `AskProjection.KeepsUpExactlyUnlessBlind` | cli/app/ui_ask_projection.go:92-110 | Each event keeps the wanted rendering up with the prompt, if and only if it is not an update of the prompt while the width is unknown and an older text is wanted |
| `AskProjection.BlindUpdateIsReverted` | cli/app/ui_ask_projection.go:150-163 | After such an update the older result puts the older text back |
| `AskProjection.BlindUpdateIsReachable` | cli/app/ui_ask_projection.go:92-110 | For any two texts of a prompt, a run with a width that becomes unknown leads to such an update and to the older text |
| `AskUpdates.PromptsStayLatestExactly` | cli/app/ui_ask_projection.go:144-163 | Through a whole run every prompt that waits, current or queued, is the one last received for its id, if and only if no prompt arrives for an id already queued with another text and no rendering result arrives that is still wanted for a text the current prompt no longer has |
| `AskUpdates.RenderingsKeepUpExactly` | cli/app/ui_ask_projection.go:92-110 | Through a whole run that holds and any rendering wanted is of the prompt last received, if and only if no such arrival happens and no update comes while the width is unknown and an older text is wanted |
| `AskUpdates.BlindUpdateCanRecover` | cli/app/ui_ask_projection.go:92-110 | For any two texts of a prompt, such an update is not lost when the width becomes known again before the older rendering ends |
| `AskUpdates.CurrentPromptIsLastArrival` | cli/app/ui_ask_controller.go:60-76 | In every run without such an arrival or result the current prompt is the last that arrived with its id |
| `AskUpdates.OutdatedPromptIsReachable` | cli/app/ui_ask_controller.go:68-76 | For any prompt that arrives again while it is queued, the older text becomes current |
| `AskProjection.RenderingKeepsPrompt` | cli/app/ui_ask_projection.go:162-163 | Otherwise no rendering result changes the current prompt |
| `AskController.KeepOthers` | cli/app/ui_ask_controller.go:82-89 | The filtering loop drops exactly the prompts with the id |
| `AskController.AskModel.AcceptPrompt` | cli/app/ui_ask_controller.go:56-76 | Updates the current prompt, makes the prompt current, or queues it |
| `AskController.AskModel.ResolvePrompt` | cli/app/ui_ask_controller.go:78-128 | Drops the id and moves on to the next prompt |
| `AskController.AskModel.AnswerPrompt` | cli/app/ui_ask_controller.go:469-490 | Begins a delivery for the current prompt with a new generation |
| `AskController.AskModel.ApplyDeliveryResult` | cli/app/ui_ask_controller.go:530-544 | Acts only on the delivery under way |
| `AskController.AskModel.ApplyRenderResult` | cli/app/ui_ask_projection.go:144-177 | Shows the result, or starts the rendering wanted by now |
| `MouseSgr.RecogniserMatchesGrammar` | cli/app/mouse_sgr.go:52-91 | Accepts at a position up to an end if and only if the text between is an introducer, three numbers parted by semicolons and M or m; so the end is unique |
| `MouseSgr.ReportsAsTheyAreSent` | cli/app/mouse_sgr.go:52-91 | With or without the escape character, an introducer, any three numbers and M or m are a report |
| `MouseStripping.SpansAreLeftmost` | cli/app/mouse_sgr.go:3-19 | The removed spans are reports, disjoint and in order, and every report in the input begins inside one |
| `MouseStripping.LeftmostIsUnique` | cli/app/mouse_sgr.go:9-17 | Only one list of spans has that property |
| `MouseStripping.KeptIsCut` | cli/app/mouse_sgr.go:7-18 | The output is the input with exactly those spans cut out |
| `MouseStripping.CursorIsRightExactly` | cli/app/mouse_sgr.go:21-50 | The adjusted cursor is the number of kept runes before the cursor if and only if not all of: it lies strictly inside a removed report, an earlier report was removed, some later rune is kept |
| `MouseStripping.WrongCursorIsReachable` | cli/app/mouse_sgr.go:28-42 | A concrete input and cursor for which the cursor ends up behind the kept letter instead of before it |
| `MouseStripping.StrayCursorIsAtTheEnd` | cli/app/mouse_sgr.go:21-27 | A cursor outside the input counts as being at its end |
| `MouseRestripping.RestrippingIsIdleExactly` | cli/app/mouse_sgr.go:3-19 | Stripping the output again changes nothing if and only if no kept runes that were not all neighbours in the input spell a report together |
| `MouseRestripping.LeftReportIsParted` | cli/app/mouse_sgr.go:9-17 | Every report in the output was parted by something removed: a kept rune never begins a report of the input |
| `MouseRestripping.StrippingCanExposeAReport` | cli/app/mouse_sgr.go:3-19 | A concrete input whose output is a report |
| `MouseStripping.LandingCountsKept` | cli/app/mouse_sgr.go:28-42 | Outside reports the cursor loop counts kept runes; inside one it lands on the position in the input, never too low |
| `MouseStripping.ConsumeRunes` | cli/app/mouse_sgr.go:52-91 | The index loop computes the recogniser |
| `MouseStripping.ConsumeFields` | cli/app/mouse_sgr.go:68-83 | The loop over the three numbers |
| `MouseStripping.StripRunes` | cli/app/mouse_sgr.go:3-19 | The stripping loop keeps exactly the kept runes and reports whether anything was removed |
| `MouseStripping.StripRunesWithCursor` | cli/app/mouse_sgr.go:21-50 | Keeps the same runes as the other loop, and adjusts the cursor as specified |
| `OnboardingRuns.SetupNeverCorruptsItself` | cli/app/onboarding_selection_transitions.go:13-29 | With well-formed facts no run of transitions, in any order, meets the internal-state error, and every state reached satisfies the full invariant, skill coverage included |
| `OnboardingRuns.TransitionKeepsValid` | cli/app/onboarding_selection_invariants.go:41-60 | Each transition is refused and changes nothing, or commits a valid state |
| `OnboardingRuns.ChoicesFitTheModels` | cli/app/onboarding_workflow.go:104-259 | Once a model is chosen, every state reached through visible steps has no thinking for a model without it, a picked thinking level only if the model lists it, a verbosity exactly if the model has one, the large window only if there is one, and is a fixpoint of the supervisor normalisation |
| `OnboardingRuns.NormalizeIsIdempotent` | cli/app/onboarding_selection_transitions.go:412-435 | Normalising the supervisor thinking twice is normalising it once |
| `OnboardingRuns.HiddenStepBreaksFixpoint` | cli/app/onboarding_workflow.go:215-219 | Without its guard the supervisor step would break the fixpoint |
| `OnboardingScreens.ChoiceIsShownExactly` | cli/app/onboarding_workflow.go:56-283 | After a step its screen allowed, the screen shows what was chosen or typed, if and only if it is not a supervisor level whose name had been typed in by hand |
| `OnboardingScreens.ReviewerThinkingInForce` | cli/app/onboarding_selection_transitions.go:322-395 | Whatever is shown, the thinking in force for the supervisor is the one chosen or typed |
| `OnboardingScreens.TypedLevelStaysTyped` | cli/app/onboarding_selection_transitions.go:340-360 | A level typed in and then picked from the list stays a typed one |
| `OnboardingScreens.IndependentSettingsStay` | cli/app/onboarding_selection_transitions.go:31-131 | Theme, follow-up questions and compaction are changed by their own steps alone |
| `OnboardingScreens.IndependentStepsChangeNothingElse` | cli/app/onboarding_selection_transitions.go:31-131 | Their steps, and those of verbosity and context, change no other screen |
| `OnboardingScreens.FactIsTheFirstOfItsName` | cli/app/onboarding_selections.go:149-157 | A model goes by the first known fact of its name, and otherwise by the fallback |
| `OnboardingOutcomes.AcceptedExactly` | cli/app/onboarding_selection_transitions.go:133-395 | Every step accepts exactly the choices it should, and refuses the rest |
| `OnboardingOutcomes.InheritedModelFollows` | cli/app/onboarding_selection_transitions.go:300-320 | A supervisor model set to the main one follows it when that changes, unless it had been set apart under that name; any other stays |
| `OnboardingOutcomes.ReviewerThinkingInheritsExactly` | cli/app/onboarding_selection_transitions.go:322-395 | Thinking chosen or typed for the supervisor is inherited if and only if it is the main thinking and had not been set apart with that value |
| `OnboardingOutcomes.NormalizingKeepsTheValue` | cli/app/onboarding_selection_transitions.go:412-435 | Normalising keeps the thinking in force where the model thinks, and an explicit disabling everywhere |
| `OnboardingOutcomes.TypingStartsFromTheTyped` | cli/app/onboarding_selection_transitions.go:441-456 | Going to type a level in shows the one typed before, if the thinking is one |
| `OnboardingOutcomes.CandidatesGoWithTheImport` | cli/app/onboarding_imports.go:240-312 | The skills to decide on are those found for the import chosen, or for none; failing that, the built-in ones |
| `OnboardingOutcomes.SkillImportIsTaken` | cli/app/onboarding_selection_transitions.go:106-118 | Choosing the import there is already keeps the decisions about its skills; another starts from the defaults |
| `OnboardingOutcomes.DecisionsAreKept` | cli/app/onboarding_selection_transitions.go:396-410 | What is decided is kept for every skill on offer |
| `OnboardingOutcomes.EveryStateIsComplete` | cli/app/onboarding_selection_invariants.go:41-140 | In every run every state can be written out: nothing unset, blank or out of range, every skill decided |
| `OnboardingRuns.ModelStepIsValid` | cli/app/onboarding_selection_transitions.go:172-196 | Submitting a model keeps the selections valid |
| `OnboardingRuns.ModelStepFits` | cli/app/onboarding_selection_transitions.go:172-196 | Submitting a model brings that about: a thinking level it does not list becomes a custom one, and verbosity is set exactly if the model has it |
| `OnboardingVerbosity.VerbosityListedExactly` | cli/app/onboarding_selection_transitions.go:172-184 | Through a whole run the verbosity is always one the model lists, if and only if no model with verbosity is submitted that lacks the level in force, or lacks low when none is |
| `OnboardingVerbosity.ModelStepChoice` | cli/app/onboarding_selection_transitions.go:176-183 | A model change keeps the verbosity level there was, takes low if there was none, and drops it for a model without verbosity |
| `OnboardingVerbosity.UnlistedVerbosityIsReachable` | cli/app/onboarding_selection_transitions.go:179-183 | A run of three steps, all committed and fitting, that ends with a verbosity level the model does not list |
| `OnboardingRuns.SkillImportIsCovered` | cli/app/onboarding_selection_transitions.go:106-118 | Choosing an import, also one equal to the last, leaves every candidate skill decided |
| `OnboardingRuns.VisibleStepFits` | cli/app/onboarding_workflow.go:104-259 | Each visible step keeps that |
| `OnboardingRuns.LookupIsWellFormed` | cli/app/onboarding_selections.go:149-157 | A lookup ends in a known model or the fallback, so its levels are not blank |
| `Onboarding.Enabled` | cli/app/onboarding_selection_transitions.go:396-410 | Succeeds if and only if every candidate is decided, with each decision as given |
| `Onboarding.InitialEnablement` | cli/app/onboarding_selection_transitions.go:458-465 | Decides every candidate |
| `OnboardingModel.FindFact` | cli/app/onboarding_selections.go:149-157 | The lookup loop |
| `OnboardingModel.EnableSkills` | cli/app/onboarding_selection_transitions.go:396-410 | The loop over the candidates |
| `OnboardingModel.FindImport` | cli/app/onboarding_imports.go:312-324 | The loop over the import choices |
| `OnboardingModel.CheckSkills` | cli/app/onboarding_selection_invariants.go:51-58 | The coverage loop |
| `OnboardingModel.DefaultsFor` | cli/app/onboarding_selection_transitions.go:458-465 | The loop that takes the defaults |
| `OnboardingModel.SetupFlow.UpdateSelections` | cli/app/onboarding_selection_transitions.go:13-29 | Commits the changed copy if and only if it passes every check |
| `OnboardingModel.SetupFlow.Apply` | cli/app/onboarding_selection_transitions.go:31-131 | One transition of a sound setup: committed or refused, sound after |
| `TreeStream.StreamDecodesExactlyWhenPlain` | prompts/generated_sync.go:455-487 | The hashed stream reads back as the entries it was made from if and only if no path or content holds a NUL byte |
| `TreeStream.StreamIgnoresWalkOrder` | prompts/generated_sync.go:455-462 | The stream is the same whatever order the tree is walked in |
| `TreeStream.StreamTellsTreesApart` | prompts/generated_sync.go:463-486 | Trees without NUL bytes and with the same stream have the same entries |
| `TreeStream.NulContentsCollide` | prompts/generated_sync.go:465-485 | With NUL bytes one file can have the stream of two |
| `TreeStream.OrderedIsSorted` | prompts/generated_sync.go:376-385 | Sorting by path orders the entries strictly and keeps them all |
| `TreeStream.WriteStream` | prompts/generated_sync.go:463-486 | The hashing loop writes that stream |
| `GeneratedSync.SyncedRootIsClean` | prompts/generated_sync.go:108-167 | After a sync the next one, in whatever order it walks, finds the root clean and recovers nothing |
| `GeneratedSync.EveryUncleanRootIsKept` | prompts/generated_sync.go:579-631 | Over any number of starts, with anything done to the root in between and whether or not the trees could be written, every root ever found unclean is still there, whole and under its own name |
| `GeneratedSync.RootIsKeptExactlyWhenChanged` | prompts/generated_sync.go:108-167 | With a collision-free hash and no NUL bytes, a start keeps a root that a sync left if and only if a file or directory was added, removed or changed in it, system metadata excepted, or something was put there that is neither |
| `GeneratedSync.UnmarkedRootIsKept` | prompts/generated_sync.go:127-146 | A file in the place of the root and a folder without a readable marker, empty or not, are always kept; a missing root never is |
| `GeneratedSync.EveryChangedRootIsKept` | prompts/generated_sync.go:579-631 | Over any number of starts, a root found changed at any of them is still there at the end |
| `GeneratedSync.StartLeaves` | prompts/generated_sync.go:519-575 | A start leaves the expected tree with its marker; where that cannot be written, the root as it was, or none if it was moved away |
| `GeneratedSync.MetadataNames` | prompts/generated_sync.go:387-394 | The names that are ignored are .DS_Store, Thumbs.db, desktop.ini and those that begin with ._, and no others |
| `GeneratedSync.CleanExactlyWhenUntouched` | prompts/generated_sync.go:309-319 | With a collision-free hash and no NUL bytes a root is clean if and only if all that is hashed of it is as written: only system metadata may differ |
| `GeneratedSync.NulHidesAnEdit` | prompts/generated_sync.go:396-447 | With NUL bytes an edit can go unnoticed under any hash |
| `GeneratedSync.WalksHashAlike` | prompts/generated_sync.go:396-447 | Two walks over the same tree hash the same bytes |
| `GeneratedSync.NextRecoveryDir` | prompts/generated_sync.go:610-631 | The search for a recovery directory ends, with a name that was not used |
| `GeneratedSync.RecoveryNamesDiffer` | prompts/generated_sync.go:616-621 | The names tried never repeat |
| `GeneratedSync.Store.Synchronize` | prompts/generated_sync.go:108-167 | The method on the mutable store walks and judges the root, moves it under an unused name if need be, writes the expected tree and its marker; the next start, in whatever order it walks, judges the root clean. If entries are in each other's way it fails after the recovery |
| `GeneratedSync.WrittenTreeIsExact` | prompts/generated_sync.go:539-553 | Writing entries with different paths succeeds if and only if none is a file where another needs a directory, and then the tree holds exactly the given files, the given directories and the directories they lie in |
| `GeneratedSync.WritingOrderIsIrrelevant` | prompts/generated_sync.go:539-553 | In whatever order they are written the outcome is the same |
| `GeneratedSync.Store.WriteEntries` | prompts/generated_sync.go:539-553 | The writing loop, with the parent directories it makes, builds that tree or fails |
| `GeneratedSync.Store.Walk` | prompts/generated_sync.go:396-447 | A walk that takes the paths in any order meets the root and everything that is hashed, once |

## Left out

- Rendering, styling, Markdown, width measurement and terminal escape output: only line counts, line budgets and the calls made on the surface are modelled.
- The terminal surface never fails in this model, so the error returns of its calls are not followed.
- Runtime admission (`decideRuntimeTuple`) is a verdict given with each message.
- TranscriptRecovery.NeverWaitsInVain: assumes that no consumed message is rejected by the runtime admission, because a rejection ends the client.
- The debounce of a resize: whether one is due is given with each action; a protocol mismatch counts as an error that is none of the connection.
- The pending prompt lines of the live section: a prompt event only says whether the section is painted again.
- Context cancellation inside a blocked send of the transcript channel: the goroutine may stop at any point, but a half-done send is not a state.
- Growth of the transcript while the detail window reads it: one transcript is read throughout, each of its rows with a locator of its own. Which row a rollback step selects, and its deadline, are left to the events.
- Guards against nil receivers and against a loaded detail window without segments, a state no operation reaches.
- The clamp of a scroll offset to the last row, and the branch for a row taller than its space, which the computed bounds make idle.
- Group headings in the project list (`ShowGroup`): neither picker modelled here uses them.
- Wrap-around of 64-bit generations, tokens and serials, and of the 32-bit page offset: all are unbounded numbers.
- Identity of request boundaries: the program compares pointers that travel with the request, the model compares values, which generations make equivalent.
- Failure notices, spinners, headers and the update status of the pickers; the picker results other than the chosen workspace; `maybeCompleteAllEmpty`.
- The session picker is modelled one tab at a time: the two tabs share only the catalog event, which reaches both.
- SessionPages.OrderlyPagesAreConsecutive: assumes that a page with a successor says it starts fifty rows on, because the session picker does not check it; `SessionPages.TabPagesAdjoin` says what holds without.
- Starting a new session from the goal command, goal status notices, and whether the goal overlay is open; a confirmation is one optional question.
- Session and step of a prompt's answer key: the generation already tells attempts apart.
- Option lists, approval decisions, drafts and the dedicated presentation of a question; which surface and input mode has the user's attention is given with each event.
- Theme and link style in the identity of a rendered question: they do not change while a question is shown.
- Seeding of the onboarding selections from facts and local preferences, case folding of model ids (a parameter), lower-casing of theme names, and the connection steps before facts are known.
- The sixteen onboarding transitions work on a copied record, so all but the model step and the normalisation are modelled as functions on that record; update in place is modelled at the commit.
- File permissions, I/O errors and concurrent writers of the generated tree; a marker path among the expected entries.
- RPC clients, authentication, clipboard, process handling, help panes, log rotation and the repository's scripts.
