# Dockora: models and proofs

Dockora is a web application around Docker. Most of it passes calls on; what can go wrong in it are a few small
protocols and algorithms. This project models those in Dafny and proves what they promise, for every input, every
interleaving and every pattern of failing calls. `dafny verify dfyconfig.toml` checks all of it.

Code between two awaits is one atomic step. Code that updates variables is a class or a method with loops, proved
against functions; what is promised is proved about those functions or about all runs of a state machine. Calls into
Docker, the database, the network and the clock are steps that may succeed or fail, or parameters.

| modules | what they are about |
|---|---|
| `HomeStore`, `SaveQueue`, `SaveProtocol`, `SaveTheorems`, `LostSubmits` | the optimistic save of the shared home layout: any number of client queues against the stored rows |
| `ProjectLock`, `ComposeFile`, `ComposeOps`, `ComposeRuns` | the lock per project, the edits of a compose file, and all interleavings of the multi-step operations under the lock |
| `UpdateCache`, `ImageRef`, `DockerHost`, `ApplyUpdate`, `ApplyTrace`, `ApplyTheorems`, `UpdateGuard` | the cached image checks; pulling, tagging, recreating, health check and rollback on a Docker host whose calls may fail; what each step adds to the log of calls and what the result says about it; one update per container |
| `LoginLockout`, `AuthCaches`, `SessionCache` | failure windows of logins, the cached authentication flag, the cached session versions |
| `Sse`, `PushLoop`, `TtlMemo`, `PushOverMemo`, `ChangeStream` | the incremental event reader against the frames the API writes, the loops that push them, and the memo the dashboard reads through |
| `FitLayout`, `HomeBox`, `HomeLayout`, `HomeLayoutLaws` | department boxes: stacking, clamping, and the normaliser of the stored layout |
| `Interpolation`, `EnvFile`, `Ports`, `ComposeLabels`, `ComposeLabelLaws`, `DottedServices` | text: `${VAR}` references, `.env` files, port bindings, labels edited line by line |
| `Cron`, `UpdateCheckCron` | the next run of a cron expression, and the expressions made from an interval |
| `Text`, `Numbers` | strings and the few functions of `Math` |

## What the code does otherwise than one would expect

These came out of the proofs. Each is a lemma or a clause of the member named.

- The home layout is read row by row without a transaction, so a load can pair an old layout with a new revision. The
  client that adopts it overwrites a write it never saw (`SaveTheorems.TornLoadOverwrites`).
- A client that never loaded a revision overwrites any layout stored without one (`SaveTheorems.FirstWriteCanBeBlind`).
- A layout submitted after a save has begun that then meets a conflict, or during the reload, is dropped, and the queue
  writes the reloaded layout back (`LostSubmits.ReloadLosesSubmitIff`).
- A failing registry check is meant to keep the known digest. It does unless its error has an empty message
  (`UpdateCache.FailingCheckKeepsDigest`), or another check of the container finished meanwhile
  (`UpdateCache.OverlapRestoresOldDigest`).
- `rolledBack` is reported for every failed health check, even when the rollback itself failed
  (`ApplyTheorems.ResultSaysWhatHappened`, `ApplyTheorems.RollbackCanFail`), and after a rollback the tag keeps naming the
  failed digest (`ApplyTheorems.RollbackLeavesTheTag`).
- A standalone recreation that fails is not rolled back, although its container may be gone
  (`ApplyTheorems.ContainerCanBeLost`) or, when the removal fails after the stop, left behind stopped
  (`ApplyTheorems.ContainerCanBeStopped`).
- The health check watches the cached container name when the first inspection fails, so an update can succeed on the
  health of another container: exactly when another one runs under that name (`ApplyTheorems.MisleadsIff`).
- A dashboard stream subscribes only after its opening fetch. A Docker change during that fetch is shown no earlier than
  at the next timer or change (`PushLoop.ChangeIsMissedIff`, `PushOverMemo.OpeningChangeIsMissed`), and a connection that
  ends during it is never closed, so that its timer goes on (`PushLoop.CloseIsSeenIff`).
- For a change during a later fetch the stream fetches again, but the memo in between can serve that fetch the value from
  before the change (`PushOverMemo.ResendIsOldIff`, `PushOverMemo.ResendCanBeOld`).
- Clearing the session cache does not reach a request that has already read its row, and exactly those
  (`SessionCache.ClearingReachesIff`).
- Adding a service whose start fails reports an error and keeps the service in the file
  (`ComposeOps.FailedStartKeepsTheService`), and so does every update or addition whose details cannot be read afterwards
  (`ComposeOps.ErrorAfterTheWriteIff`).
- Default boxes are not normal from the ninth department on (`HomeBox.DefaultSteady`), and some boxes at the right edge
  need two applications of the normaliser (`HomeBox.SteadyIff`, `HomeLayoutLaws.NotFixedAtOnce`).
- In a cron list a star counts only when it is the whole field (`Cron.ListIsUnion`).
- The label editor finds services with a dot in their name, the icon reader does not: an icon set for such a service
  shows up at the service above it (`DottedServices.DottedIconReachesIff`).

## Model

| member | source | states |
|---|---|---|
| HomeStore.WriteThenRead | apps/api/src/modules/home/index.ts:139-164 | A write is refused exactly when it names another revision than a reader would get; otherwise the next read returns the new layout one revision later. |
| HomeStore.Table.Write | apps/api/src/modules/home/index.ts:139-164 | The transaction on the two stored rows, with their whole new contents. |
| HomeStore.Table.Read | apps/api/src/modules/home/index.ts:166-172 | What a reader gets from the two rows. |
| SaveQueue.LayoutSaveQueue.Submit | apps/web/src/lib/home-layout-save.ts:57-61 | A submit starts a save of exactly that layout, or only leaves a mark while one is out. |
| SaveQueue.LayoutSaveQueue.Run | apps/web/src/lib/home-layout-save.ts:18-29 | One entry of the loop up to the save call: which layout is sent with which revision. |
| SaveQueue.LayoutSaveQueue.Saved | apps/web/src/lib/home-layout-save.ts:28-46 | After a save the queue stops, or saves the newer layout with the returned revision. |
| SaveQueue.LayoutSaveQueue.Rejected | apps/web/src/lib/home-layout-save.ts:30-41 | A conflict leads to the reload and sends nothing; any other error ends the run. |
| SaveQueue.LayoutSaveQueue.Reloaded | apps/web/src/lib/home-layout-save.ts:32-38 | A reload replaces layout and revision. |
| SaveQueue.LayoutSaveQueue.Leave | apps/web/src/lib/home-layout-save.ts:47-50 | Leaving the loop starts the next run exactly when a submit asked for it. |
| SaveTheorems.WritesFormAChain | apps/api/src/modules/home/index.ts:139-164 | In every run of any number of clients, with loads read row by row and requests that outlive their client, each accepted write raises the revision by exactly one and a reader sees the last one. |
| SaveTheorems.WritesReplaceKnownLayouts | apps/web/src/lib/home-layout-save.ts:18-51 | An accepted write replaces a layout its client had saved or loaded, except that a client that never took a revision always writes blindly over revision 0, and that one whose last load had two rows that did not belong together may. |
| SaveTheorems.FirstWriteCanBeBlind | apps/web/src/lib/home-layout-save.ts:12-16 | The first exception happens: a client still at revision 0 overwrites any layout stored without a revision. |
| SaveTheorems.TornLoadOverwrites | apps/api/src/modules/home/index.ts:166-172 | The second exception happens, from any state of any run: a write between the two row reads of a load is overwritten unseen by that client. |
| SaveTheorems.NextSubmitOverwrites | apps/web/src/lib/home-layout-save.ts:25-46 | A client whose revision is current replaces the stored layout with its next submit. |
| SaveTheorems.SavedVersionsAreOwn | apps/web/src/lib/home-layout-save.ts:29-46 | A version a client counts as saved is one it wrote. |
| SaveTheorems.SendsAreFresh | apps/web/src/lib/home-layout-save.ts:18-61 | No layout submitted before a conflict reload finished is sent after it, and saves started never exceed submits, whatever fails. |
| SaveTheorems.IdleMeansStored | apps/web/src/lib/home-layout-save.ts:42-50 | Without errors the queue goes idle only when its last submitted layout is stored. |
| LostSubmits.ReloadLosesSubmitIff | apps/web/src/lib/home-layout-save.ts:28-51 | In every run: when the reload after a conflict ends, the last layout submitted since the reload before is never sent, in no continuation, exactly when a submit came after the save that met the conflict had begun; the queue then writes the reloaded layout back, and otherwise rests. |
| LostSubmits.SubmitDuringReloadIsLost | apps/web/src/lib/home-layout-save.ts:32-38 | From any state of any run with a reload about to end: a layout submitted then is lost. |
| LostSubmits.StepTells | apps/web/src/lib/home-layout-save.ts:18-61 | The invariant behind both: the last submit has been sent exactly when no mark is left for it, and no send is older than the last reload. |
| SaveProtocol.StepKeeps | apps/web/src/lib/home-layout-save.ts:18-61 | Every step of clients, server and network keeps the invariant behind these theorems. |
| SaveProtocol.RunKeeps | apps/web/src/lib/home-layout-save.ts:18-61 | So does every run, from any state that satisfies it. |
| ProjectLock.Exclusion | apps/api/src/modules/compose/compose.service.ts:62-83 | At most one call holds a project, and every call before the holder is over. |
| ProjectLock.ArrivalOrder | apps/api/src/modules/compose/compose.service.ts:62-83 | A waiting call may enter exactly when every earlier call on its project is over, whether those returned or threw. |
| ProjectLock.EntryWhileBusy | apps/api/src/modules/compose/compose.service.ts:78-82 | The map holds an entry for a project exactly while some call on it is unfinished. |
| ProjectLock.NeverStuck | apps/api/src/modules/compose/compose.service.ts:62-83 | A busy project without a holder has a call that may enter. |
| ProjectLock.Chains.Arrives | apps/api/src/modules/compose/compose.service.ts:63-72 | Arrival reads the old chain and installs the new one. |
| ProjectLock.Chains.Leaves | apps/api/src/modules/compose/compose.service.ts:77-82 | Leaving releases the gate and removes the entry only when it is the newest. |
| ProjectLock.RunKeeps | apps/api/src/modules/compose/compose.service.ts:62-83 | The chains stay linked in arrival order in every run. |
| ComposeFile.RemoveForgets | apps/api/src/modules/compose/compose.service.ts:1001-1037 | After a removal the other services stay in order, none mentions the removed one, all their other dependency names stay in order, no `depends_on` is left empty, and everything else is as it was. |
| ComposeFile.WithoutKeepsOthers | apps/api/src/modules/compose/compose.service.ts:1019-1029 | Filtering a dependency list takes out exactly that name and keeps the others, in order and as often as they were there. |
| ComposeFile.ForgetsNothing | apps/api/src/modules/compose/compose.service.ts:1016-1031 | A service is unchanged exactly when it neither mentions the name nor carries an empty `depends_on`. |
| ComposeFile.AddThenRemove | apps/api/src/modules/compose/compose.service.ts:838-877 | Removing a service just added gives the file back exactly when a services map existed and no service was touched. |
| ComposeFile.PinReplaces | apps/api/src/modules/compose/compose.service.ts:1040-1056 | Pinning keeps all other services, and only the last pin counts. |
| ComposeFile.Document.Remove | apps/api/src/modules/compose/compose.service.ts:1014-1031 | The in-place deletion and loop over the remaining services. |
| ComposeFile.ForgetIn | apps/api/src/modules/compose/compose.service.ts:1018-1030 | The loop body on one service. |
| ComposeOps.FinishIsEffect | apps/api/src/modules/compose/compose.service.ts:306-344 | Run alone, the steps of an update, addition, removal or pinned recreate, with the reading of the details at the end, amount to one effect on the file and one report, for every pattern of failures. |
| ComposeOps.PinAndFailedRemoveChangeNothing | apps/api/src/modules/compose/compose.service.ts:407-458 | A pinned recreate and a removal that does not report success leave the file as it was. |
| ComposeOps.FailedStartKeepsTheService | apps/api/src/modules/compose/compose.service.ts:775-796 | An addition whose start fails reports an error and keeps the service in the file. |
| ComposeOps.ErrorAfterTheWriteIff | apps/api/src/modules/compose/compose.service.ts:341-343 | An update or addition that reports an error has replaced the file all the same exactly when only what comes after the write failed, the start or the reading of the details. |
| ComposeOps.OneWritePerBase | apps/api/src/modules/compose/compose.service.ts:306-344 | Of the updates on one base at most one is written, unless some call may put the base back; pinned recreates, updates to other contents and calls stopped by a failure cannot. |
| ComposeOps.RestoringCall | apps/api/src/modules/compose/compose.service.ts:311-316 | Two updates written on one base have a call between them that put the base back. |
| ComposeOps.RestoredBaseAllowsTwoWrites | apps/api/src/modules/compose/compose.service.ts:311-316 | When a call does put the base back, both are written. |
| ComposeRuns.Serializable | apps/api/src/modules/compose/compose.service.ts:62-83 | Any interleaving of the four operations on one service object leaves the file that running the finished ones one by one in lock order leaves. |
| ComposeRuns.ReportsAreSequential | apps/api/src/modules/compose/compose.service.ts:62-83 | At any moment of any interleaving each finished call has reported what it reports at its place in lock order. |
| ComposeRuns.OneUpdatePerBase | apps/api/src/modules/compose/compose.service.ts:306-344 | So of the updates of one project on one base at most one reports success in any interleaving, unless some finished call on the project may put the base back. |
| ComposeRuns.TemporaryFilesAreOwn | apps/api/src/modules/compose/compose.service.ts:430-432 | While an operation needs its temporary or backup file, that file holds its own content. |
| ComposeRuns.RunKeeps | apps/api/src/modules/compose/compose.service.ts:306-796 | The invariant of lock, steps and files in every run. |
| FitLayout.FitDepartmentLayout | apps/web/src/lib/home-layout.ts:191-222 | The nested loops compute the specified tops and heights, box by box. |
| FitLayout.PushAll | apps/web/src/lib/home-layout.ts:200-214 | One pass of the two inner loops, and what its `moved` flag means. |
| FitLayout.OnePassIsEnough | apps/web/src/lib/home-layout.ts:198-216 | For distinct ids and heights above 1 a second pass moves nothing. |
| FitLayout.FitSettles | apps/web/src/lib/home-layout.ts:191-222 | Every stacking constraint then holds to within half a pixel, and no box has moved up. |
| FitLayout.FitIsLeast | apps/web/src/lib/home-layout.ts:191-222 | Every top is at or below the one in any exact solution. |
| FitLayout.ExactExists | apps/web/src/lib/home-layout.ts:191-222 | Such a solution always exists. |
| FitLayout.MutualStackingNeedsNoRoom | apps/web/src/lib/home-layout.ts:205 | Two boxes that count as below each other fit exactly only when they need no room. |
| FitLayout.TwinsHaveNoSolution | apps/web/src/lib/home-layout.ts:205 | Height 1 is not enough: two such boxes have no exact solution. |
| HomeBox.ClampDepartmentBox | apps/web/src/lib/home-layout.ts:244-263 | The client clamp, with its reassigned position and width. |
| HomeBox.DepartmentBox | apps/api/src/modules/home/layout.ts:107-130 | The server clamp of four finite numbers. |
| HomeBox.FractionFits | apps/api/src/modules/home/layout.ts:109-123 | A fraction box starts at 0 or later and ends at 1.0001 or earlier. |
| HomeBox.SteadyIff | apps/api/src/modules/home/layout.ts:98-131 | A second application of the clamp changes exactly the fraction boxes that reach the right edge, start at most 0.92 to the right, and start half-way between two grid points. |
| HomeBox.SteadyBySpan | apps/api/src/modules/home/layout.ts:98-131 | Seen from the result: those whose span, once rounded, sticks out of the canvas. |
| HomeBox.UnsteadyBox | apps/api/src/modules/home/layout.ts:98-131 | Such a box, and what both applications make of it. |
| HomeBox.SteadyAfterTwo | apps/api/src/modules/home/layout.ts:98-131 | Two applications always reach a fixed point. |
| HomeBox.DefaultSteady | apps/api/src/modules/home/layout.ts:104-106 | A default box is a fixed point exactly for the first eight departments. |
| HomeBox.ServerKeepsClientIff | apps/web/src/lib/home-layout.ts:244-263 | The server changes a client box only in width and by at most 0.0001, for all boxes, exactly when 1599 times the canvas is below 4000000. |
| HomeBox.NarrowCanvasTrims | apps/api/src/modules/home/layout.ts:109-123 | The direction that covers every canvas up to 2500 pixels. |
| HomeBox.WideCanvasMoves | apps/api/src/modules/home/layout.ts:109-123 | On a wider canvas some box is changed in another way. |
| HomeBox.PixelBoxesFit | apps/web/src/lib/home-layout.ts:156-177 | Every pixel box of a layout is drawn with its right edge inside the canvas. |
| HomeBox.NudgeByNothing | apps/web/src/lib/home-layout.ts:226-242 | A nudge by nothing keeps a stored fraction box exactly when, up to rounding, it is as wide as the canvas demands and ends inside, or is the narrowest box at the right edge. |
| HomeLayout.StringListLoop | apps/api/src/modules/home/layout.ts:154-166 | The string list loop with its cap and its seen set. |
| HomeLayout.NormalizeLinks | apps/api/src/modules/home/layout.ts:63-80 | The link loop. |
| HomeLayout.NormalizeDepartments | apps/api/src/modules/home/layout.ts:82-96 | The department loop, whose default boxes depend on how many were kept. |
| HomeLayout.NormalizeUrls | apps/api/src/modules/home/layout.ts:48-61 | The address loop, with its early exit. |
| HomeLayout.NormalizeAppDepartments | apps/api/src/modules/home/layout.ts:133-143 | The assignment loop over known departments. |
| HomeLayout.KeepFirstSpec | apps/api/src/modules/home/layout.ts:63-96 | At most the cap is kept, no key twice, each made from an item. |
| HomeLayout.KeepFirstPrefix | apps/api/src/modules/home/layout.ts:63-96 | What was kept is never displaced by later items. |
| HomeLayout.KeepFirstComplete | apps/api/src/modules/home/layout.ts:63-96 | While there is room, the key of every acceptable item is kept. |
| HomeLayoutLaws.NormalIsClean | apps/api/src/modules/home/layout.ts:33-46 | Every part of a normalised layout passes its own rules again. |
| HomeLayoutLaws.NormalizeAgain | apps/api/src/modules/home/layout.ts:33-46 | On such a layout the normaliser does nothing but clamp the boxes once more. |
| HomeLayoutLaws.FixedIff | apps/api/src/modules/home/layout.ts:33-131 | A normalised layout is a fixed point exactly when each department box is. |
| HomeLayoutLaws.SteadyBoxes | apps/api/src/modules/home/layout.ts:98-131 | Which items give a box that stays, in terms of the four numbers of the item or of its place in the list, and the 1.0001 bound for all fraction boxes. |
| HomeLayoutLaws.NotFixedAtOnce | apps/api/src/modules/home/layout.ts:33-46 | A layout whose normalisation is changed by normalising it again. |
| HomeLayoutLaws.FixedAfterTwo | apps/api/src/modules/home/layout.ts:188-199 | Two applications give a fixed point for every input, so every layout read from a store it wrote is one. |
| Sse.HeaderEventSource.Consume | apps/web/src/lib/sse.ts:61-74 | One call emits the events of the complete blocks and returns the unfinished text. |
| Sse.ReadBlock | apps/web/src/lib/sse.ts:64-72 | One block: the last event name, the data lines joined. |
| Sse.HeaderEventSource.Receive | apps/web/src/lib/sse.ts:90-95 | One chunk of the read loop. |
| Sse.ChunkingIsInvisible | apps/web/src/lib/sse.ts:61-95 | However the text is cut, feeding the pieces emits what one call on the whole emits and leaves the same rest. |
| Sse.FramesRoundTrip | apps/api/src/modules/events/index.ts:20-42 | For any sequence of comments, named and bare frames the events emitted are exactly those written, in order. |
| Sse.StreamDelivers | apps/api/src/modules/dashboard/index.ts:66-90 | The two together, for any chunking of any such sequence. |
| LoginLockout.LoginLocks.AssertAllowed | apps/api/src/modules/auth/login-lockout.ts:70-77 | When an attempt is let through. |
| LoginLockout.LoginLocks.RecordFailure | apps/api/src/modules/auth/login-lockout.ts:79-101 | The new counter of the key, nothing else. |
| LoginLockout.LoginLocks.Clear | apps/api/src/modules/auth/login-lockout.ts:103-106 | Exactly one key is forgotten. |
| LoginLockout.LoginLocks.Login | apps/api/src/modules/auth/login-lockout.ts:55-68 | Both identities are checked, then recorded or cleared. |
| LoginLockout.AtMostEightFailures | apps/api/src/modules/auth/login-lockout.ts:79-101 | In every run any half-open 15-minute interval holds at most eight failures of an account since its last success, from any addresses. |
| LoginLockout.EightIsReached | apps/api/src/modules/auth/login-lockout.ts:83-99 | For every address and account there is a run with exactly eight failures in one such interval. |
| LoginLockout.FifthFailureLocks | apps/api/src/modules/auth/login-lockout.ts:55-101 | In every run, once a failure is the fifth or a later one of its window, every attempt on the account in the next 15 minutes is refused, from any address and with any password. |
| LoginLockout.FewerFailuresDoNotLock | apps/api/src/modules/auth/login-lockout.ts:55-101 | With fewer failures in its window the account is not locked. |
| LoginLockout.LockHolds | apps/api/src/modules/auth/login-lockout.ts:55-77 | During a lock every attempt on the account is refused from any address, and no attempt ends or prolongs it. |
| LoginLockout.KeysDiffer | apps/api/src/modules/auth/login-lockout.ts:46-53 | No address key is an account key. |
| LoginLockout.RunKeeps | apps/api/src/modules/auth/login-lockout.ts:50-106 | What the counter knows of the recorded failures, in every run. |
| Interpolation.FindInterpolationRefs | apps/web/src/lib/compose-interpolation.ts:11-48 | The index-driven loop finds what the step-by-step scan finds, and ends. |
| Interpolation.ScanIsOrdered | apps/web/src/lib/compose-interpolation.ts:11-48 | Spans are in bounds, in order and disjoint, with valid names. |
| Interpolation.FindsExactly | apps/web/src/lib/compose-interpolation.ts:19-46 | A reference is found exactly when one starts at its place and no open `${` before it covers that place. |
| Interpolation.PreviewComposeInterpolation | apps/web/src/lib/compose-interpolation.ts:50-71 | Splicing from right to left gives the text read once from left to right, and the missing names. |
| Interpolation.RenderIsExpand | apps/web/src/lib/compose-interpolation.ts:58-69 | Replacing the found spans is the left-to-right reading. |
| Interpolation.DefaultIsUsed | apps/web/src/lib/compose-interpolation.ts:63-64 | A default is the text behind the first `:-`, without the closing brace. |
| Interpolation.UnsetStays | apps/web/src/lib/compose-interpolation.ts:60-67 | Without value and default the reference stays. |
| Interpolation.MissingIsWarned | apps/web/src/lib/compose-interpolation.ts:65-67 | The missing names are those the linter warns about, each listed once. |
| Interpolation.DefaultInRaw | apps/web/src/lib/compose-interpolation.ts:29-33 | The preview and the scan agree on which references have a default. |
| Interpolation.LintMissing | apps/web/src/lib/compose-lint.ts:32-42 | The loop of the linter. |
| EnvFile.ValueRoundTrip | apps/web/src/lib/env-file.ts:27-44 | A one-line value survives quoting and unquoting exactly when it has no double quote and no backslash. |
| EnvFile.LineRoundTrip | apps/web/src/lib/env-file.ts:11-15 | Every storable entry comes back from its line. |
| EnvFile.FileRoundTrip | apps/web/src/lib/env-file.ts:7-21 | Parsing a serialised list gives it back without its trailing blank lines, one blank line staying of an all-blank list. |
| EnvFile.EnvMapIsLast | apps/web/src/lib/compose-interpolation.ts:3-9 | A variable has the value of the last line that sets it. |
| EnvFile.EnvMapOnlyPairs | apps/web/src/lib/compose-interpolation.ts:3-9 | Only variables that some line sets are in the map. |
| EnvFile.EnvMapFromFile | apps/web/src/lib/compose-interpolation.ts:3-9 | The loop that builds the map. |
| UpdateCache.UpdatesAreSound | apps/api/src/modules/updates/updates.service.ts:206-234 | In every run of overlapping checks, errors and deletions an offered update has two known, different digests. |
| UpdateCache.FailingCheckKeepsDigest | apps/api/src/modules/updates/digest-fallback.ts:7-23 | A failing check writes a digest exactly when it had read it and its failure has a message. |
| UpdateCache.ErrorIsShown | apps/api/src/modules/updates/digest-fallback.ts:12-22 | A check reports an error exactly when its inspection failed, or its registry call did with a message that is no rate limit hiding behind a known digest. |
| UpdateCache.UndisturbedFailureKeepsDigest | apps/api/src/modules/updates/updates.service.ts:170-234 | In every run a failing check with a message that nothing disturbs keeps the known remote digest. |
| UpdateCache.OverlapRestoresOldDigest | apps/api/src/modules/updates/updates.service.ts:170-234 | Two overlapping checks: the failing one brings the replaced digest back. |
| UpdateCache.Table.PruneStaleCache | apps/api/src/modules/updates/updates.service.ts:123-159 | Pruning keeps only live rows, one per name, each name keeping one at least as new; with no live ids it deletes nothing. |
| UpdateCache.FindDuplicates | apps/api/src/modules/updates/updates.service.ts:144-153 | The loop marks exactly the rows whose name came up earlier. |
| UpdateCache.KeepsTheNewest | apps/api/src/modules/updates/updates.service.ts:139-158 | The row kept for a name is the newest. |
| ApplyTheorems.SuccessIsEarned | apps/api/src/modules/updates/updates.service.ts:254-390 | A success has, in this order and in this call, pointed the tag at the registry digest, recreated the container from that tag, and then seen the watched container healthy; nothing else follows the recreation. |
| ApplyTheorems.ResultSaysWhatHappened | apps/api/src/modules/updates/updates.service.ts:254-390 | For every way the calls turn out: success exactly when a recreation completed and a passing look was had, a rollback exactly when a recreation completed and none was had, a plain failure exactly when no recreation completed; and no failure without a failed call. |
| ApplyTheorems.Story | apps/api/src/modules/updates/updates.service.ts:254-390 | The calls of an offered update by stages, and which of them failed for each kind of result. |
| ApplyTheorems.UnderOneName | apps/api/src/modules/updates/updates.service.ts:316-334 | When the cached name is current, a success means that the container itself runs the registry digest and passed its check, and a rollback that went through that it runs the previous digest. |
| ApplyTheorems.MisleadsIff | apps/api/src/modules/updates/updates.service.ts:270-317 | A standalone update can succeed on the health of another container exactly when another container runs under the cached name. |
| ApplyTheorems.RollbackCanFail | apps/api/src/modules/updates/updates.service.ts:317-331 | From every state a run exists in which the rollback fails and `rolledBack` is reported. |
| ApplyTheorems.ContainerCanBeLost | apps/api/src/modules/updates/updates.service.ts:784-825 | From every state a run exists in which the container is removed, not created again, and nothing is rolled back. |
| ApplyTheorems.ContainerCanBeStopped | apps/api/src/modules/updates/updates.service.ts:779-784 | From every state a run exists in which the removal fails after the stop, so that the container stays behind stopped. |
| ApplyTheorems.FailureLeavesBehind | apps/api/src/modules/updates/updates.service.ts:765-825 | What a plain failure of a standalone update leaves, by what the log says: the container as it was, stopped, gone, or made anew and not running; all others untouched. |
| ApplyTheorems.RollbackLeavesTheTag | apps/api/src/modules/updates/updates.service.ts:400-408 | After a rollback the tag still names the failed digest, unless the rollback had to pull the tag itself. |
| ApplyTheorems.FewCreations | apps/api/src/modules/updates/updates.service.ts:803-825 | At most three creations, and one when no failure is about a port in use. |
| ApplyTheorems.SoundRowsCanRollBack | apps/api/src/modules/updates/updates.service.ts:401-404 | An offered update of a sound row always has a previous digest to go back to, other than the new one. |
| ApplyUpdate.ApplyUpdate | apps/api/src/modules/updates/updates.service.ts:254-390 | The steps in their order, with every early return. |
| ApplyUpdate.RecreateStandalone | apps/api/src/modules/updates/updates.service.ts:765-825 | The stop, the removal and the loop of attempts. |
| ApplyUpdate.WaitForContainerHealthy | apps/api/src/modules/updates/health-wait.ts:6-36 | The loop of looks up to the deadline, and how many there can be. |
| ApplyTrace.PullAndTagAdds | apps/api/src/modules/updates/updates.service.ts:283-300 | After pull and tag, with both fallbacks, the tag names the digest, by the last call. |
| ApplyTrace.RecreateAdds | apps/api/src/modules/updates/updates.service.ts:302-315 | A recreated container runs what the tag names; a failing recreation completes nothing. |
| ApplyTrace.SwapAdds | apps/api/src/modules/updates/updates.service.ts:779-825 | What stop, remove and the attempts do to one container, and that they leave all others alone. |
| ApplyTrace.WaitAdds | apps/api/src/modules/updates/health-wait.ts:6-36 | Only the last look can pass, and it decides; a stopped container never passes. |
| ApplyTrace.RollbackAdds | apps/api/src/modules/updates/updates.service.ts:392-430 | What a rollback that goes through restores, and when it moves the tag. |
| ImageRef.TagIsStripped | apps/api/src/modules/updates/updates.service.ts:828-836 | A tag is stripped. |
| ImageRef.UntaggedStays | apps/api/src/modules/updates/updates.service.ts:828-836 | A registry port is not taken for a tag. |
| ImageRef.PinnedParts | apps/api/src/modules/updates/updates.service.ts:286-289 | A pinned reference carries the digest and a repository without one. |
| UpdateGuard.UpdatesNeverOverlap | apps/api/src/modules/updates/updates.service.ts:242-252 | In every run two running updates are on different containers, and a call runs exactly when none runs for its id. |
| UpdateGuard.UpdatesService.Enter | apps/api/src/modules/updates/updates.service.ts:243-246 | A call on an id in flight is refused, any other is entered in the set. |
| UpdateGuard.UpdatesService.Leave | apps/api/src/modules/updates/updates.service.ts:249-251 | A call that ends, however it ends, takes exactly its id out. |
| PushLoop.Dashboard.Send | apps/api/src/modules/dashboard/index.ts:72-81 | When a call starts a fetch and when it only leaves a mark. |
| PushLoop.Dashboard.DockerChange | apps/api/src/modules/dashboard/index.ts:99-101 | A change calls it only once the stream has subscribed, after the opening fetch. |
| PushLoop.Dashboard.Settle | apps/api/src/modules/dashboard/index.ts:91-101 | A settled fetch starts the next one exactly when a mark was left, and the first one sets up timer, subscription and close handlers. |
| PushLoop.Dashboard.Cleanup | apps/api/src/modules/dashboard/index.ts:103-111 | The end of the connection closes the stream only when those handlers exist. |
| PushLoop.NoTriggerIsLost | apps/api/src/modules/dashboard/index.ts:68-98 | In every run one fetch at a time, never more than calls of `send`, and an open idle stream has begun a fetch since the last of them. |
| PushLoop.SettledFetchCatchesUp | apps/api/src/modules/dashboard/index.ts:91-94 | A call during a fetch starts the next one as soon as that fetch settles. |
| PushLoop.ChangeActsIff | apps/api/src/modules/dashboard/index.ts:97-101 | In every run a Docker change on an open stream starts or marks a fetch exactly when the opening fetch is over. |
| PushLoop.ChangeIsMissedIff | apps/api/src/modules/dashboard/index.ts:97-101 | In every run an idle open stream has missed a change exactly when that came during the opening fetch and no other fetch has begun since. |
| PushLoop.MissedUntilNextTrigger | apps/api/src/modules/dashboard/index.ts:97-101 | From any state with the opening fetch out, a change then is missed until a timer or another change. |
| PushLoop.CloseIsSeenIff | apps/api/src/modules/dashboard/index.ts:97-111 | In every run the end of the connection closes the stream exactly when the opening fetch was over by then; otherwise it is never closed. |
| PushLoop.RunIsGood | apps/api/src/modules/dashboard/index.ts:68-111 | The invariant behind these, in every run. |
| TtlMemo.ServedIsOlderThanClear | apps/api/src/infrastructure/cache/ttl-memo.ts:11-30 | The memo returns a value loaded before the last clear exactly when that load stored its value after the clear. |
| PushOverMemo.RepeatedFetchIsFreshIff | apps/api/src/modules/dashboard/index.ts:39-101 | In every run of a stream over the shared memo, from whatever state it finds that in, the fetch repeated after a change sends a load begun since the last change, unless the memo still holds a value whose load began before it and ended after it. |
| PushOverMemo.MissedChangeIsNotShown | apps/api/src/modules/dashboard/index.ts:39-101 | In every run a stream that has missed a change has last passed on a load begun before that change. |
| PushOverMemo.ResendIsOldIff | apps/api/src/modules/dashboard/index.ts:39-101 | From any state in which a fetch waits for a load and a change comes: the opening fetch is not repeated and shows the old load; a later one is repeated, and sends that same old load exactly when it ended well less than six seconds before. |
| PushOverMemo.OpeningChangeIsMissed | apps/api/src/modules/dashboard/index.ts:97-101 | The run from the opening on in which the change is missed. |
| PushOverMemo.ResendCanBeOld | apps/api/src/modules/dashboard/index.ts:39-101 | The run in which a change during the fetch of the first timer is answered with the load from before it. |
| PushOverMemo.JointKeepsGood | apps/api/src/modules/dashboard/index.ts:33-111 | The invariant of stream and memo together, in every run. |
| ChangeStream.ChangesAreNotLost | apps/api/src/modules/events/index.ts:26-39 | Frames carry changes in order and none twice, and once the timer is off the last change has been written. |
| AuthCaches.ServedFlagIsRecent | apps/api/src/modules/auth/auth-gate.ts:24-40 | In every run a flag served from the cache was read by a read begun after the latest invalidation. |
| AuthCaches.ServedFlagIsStored | apps/api/src/modules/auth/auth-gate.ts:24-40 | When every change is followed by an invalidation, the cache holds the setting itself. |
| AuthCaches.StoredUnlessInvalidated | apps/api/src/modules/auth/auth-gate.ts:34-38 | A finished read is stored exactly when nothing was invalidated since it began. |
| AuthCaches.AuthGate.Ask | apps/api/src/modules/auth/auth-gate.ts:29-34 | The method takes the Ask step of the machine the theorems are about, and answers from the cache or begins a read as that does. |
| AuthCaches.AuthGate.Finish | apps/api/src/modules/auth/auth-gate.ts:35-39 | Likewise the Finish step: what a finished read stores. |
| AuthCaches.AuthGate.Invalidate | apps/api/src/modules/auth/auth-gate.ts:24-27 | Likewise the Invalidate step. |
| AuthCaches.GateKeeps | apps/api/src/modules/auth/auth-gate.ts:24-40 | The invariant behind it, in every run. |
| SessionCache.AcceptedVersionWasHeld | apps/api/src/modules/auth/session-guard.ts:16-46 | In every run an accepted session carries a version, and gets a role, that the table held less than two seconds before the request read the clock, or later. |
| SessionCache.RefusedVersionDiffers | apps/api/src/modules/auth/session-guard.ts:16-46 | A refused session carries another version, or a user missing from the table, at such a moment. |
| SessionCache.ClearingEndsRevoked | apps/api/src/modules/auth/session-guard.ts:8-11 | In every run: when at a clearing no request on the user waits with a row already read, every later acceptance carries a version the table held since the clearing. |
| SessionCache.StaleRequestIsAccepted | apps/api/src/modules/auth/session-guard.ts:22-36 | From any state with such a request, answering it right after the clearing accepts the revoked version. |
| SessionCache.ClearingReachesIff | apps/api/src/modules/auth/session-guard.ts:8-36 | So a revoked version can be accepted after a clearing exactly when such a request was under way. |
| SessionCache.ClearMissesReadsUnderWay | apps/api/src/modules/auth/session-guard.ts:48-54 | A run with a bumped version: it is accepted after the clearing, and again from the cache. |
| SessionCache.SessionGuard.Clear | apps/api/src/modules/auth/session-guard.ts:8-11 | One user or all are forgotten, as in the step of the machine. |
| SessionCache.SessionGuard.Check | apps/api/src/modules/auth/session-guard.ts:16-22 | The first half of a request: decided from the cache or the table is asked, as in the machine. |
| SessionCache.SessionGuard.Answer | apps/api/src/modules/auth/session-guard.ts:23-46 | The second half, with the row the table gave, as in the machine. |
| Cron.NextCronRun | apps/api/src/modules/scheduler/next-cron-run.ts:5-30 | The earliest accepted minute in the horizon, and none exactly when there is none. |
| Cron.FieldMatches | apps/api/src/modules/scheduler/next-cron-run.ts:47-74 | The loop over the parts of a field. |
| Cron.CheckDay | apps/api/src/modules/scheduler/next-cron-run.ts:32-45 | The two day fields together. |
| Cron.StepField | apps/api/src/modules/scheduler/next-cron-run.ts:51-67 | A star with a step matches the multiples of the step. |
| Cron.RangeField | apps/api/src/modules/scheduler/next-cron-run.ts:76-81 | A range matches the values between its ends. |
| Cron.ListIsUnion | apps/api/src/modules/scheduler/next-cron-run.ts:48-73 | A list matches exactly what one of its two sides matches as a field of its own, except that a side that is a star matches nothing. |
| Cron.ListParts | apps/api/src/modules/scheduler/next-cron-run.ts:48-73 | A list matches what the parts of its two sides match. |
| UpdateCheckCron.FiveWords | apps/api/src/modules/scheduler/next-cron-run.ts:10-13 | Five words with single spaces are the five fields, in this order. |
| UpdateCheckCron.IntervalRunsInTime | apps/api/src/modules/settings/update-check-cron.ts:2-11 | Every generated expression accepts a minute within its interval, from every starting minute. |
| UpdateCheckCron.NextUpdateCheck | apps/api/src/modules/settings/update-check-cron.ts:2-11 | So the scan always finds the next run, at most m minutes or 60*h minutes away. |
| ComposeLabels.SetComposeServiceLabel | apps/web/src/lib/compose-icon-yaml.ts:61-104 | The search for the block, the filter and the splice, with the error cases, for the icon and both addresses. |
| ComposeLabels.FindEnd | apps/web/src/lib/compose-icon-yaml.ts:69-76 | The loop that finds the end of the block. |
| ComposeLabels.OwnedOnce | apps/web/src/lib/compose-icon-yaml.ts:79-86 | No line is a label of two kinds. |
| ComposeLabelLaws.OwnLineIsSet | apps/web/src/lib/compose-icon-yaml.ts:30-43 | Of its own kind an edited block holds exactly the line that was set, or none. |
| ComposeLabelLaws.EditsOnlyTheBlock | apps/web/src/lib/compose-icon-yaml.ts:61-104 | Lines outside the block stay, and the edited block is found again in its place. |
| ComposeLabelLaws.LastSetWins | apps/web/src/lib/compose-icon-yaml.ts:8-46 | The last non-empty value wins whatever was set before; with one value twice, setting is idempotent. |
| ComposeLabelLaws.RemoveAfterSet | apps/web/src/lib/compose-icon-yaml.ts:30-43 | Removing restores the block exactly when nothing was set or a `labels:` line was there before. |
| ComposeLabelLaws.OtherLabelsStay | apps/web/src/lib/compose-icon-yaml.ts:48-59 | Icon, address and public address leave each other alone. |
| ComposeLabelLaws.OtherIconsStay | apps/web/src/lib/container-icon.ts:30-74 | For a service without a dot in its name, the icons read for all other services stay. |
| ComposeLabelLaws.ExtractComposeServiceIcons | apps/web/src/lib/container-icon.ts:30-74 | The line loop of the reader. |
| DottedServices.DottedIconGoesAbove | apps/web/src/lib/container-icon.ts:30-74 | Wherever a service with a dot in its name stands, the icon set for it goes to the service above, unless a later line read for that one names an icon or there is none above; everything else is read as without it. |
| DottedServices.DottedIconReachesIff | apps/web/src/lib/container-icon.ts:49 | A service that does not have that icon anyway reads it exactly when it stands above and no later line read for it names an icon. |
| DottedServices.DottedServiceLeaks | apps/web/src/lib/container-icon.ts:49 | The case of a dotted service that ends the file, whatever stands before it. |
| Ports.PublishedRoundTrip | apps/web/src/lib/parse-ports.ts:18-69 | For every published port the printed text gives back address, both ports and the lower-cased protocol, or is refused exactly when the inner port is missing or the protocol is not alphanumeric. |
| Ports.UnpublishedRoundTrip | apps/api/src/domain/container-utils.ts:35 | An unpublished port comes back without a host side. |
| Ports.UsesExactlyItsPort | apps/api/src/domain/port-conflict.ts:34-37 | The printed text is taken for exactly its own host port. |
| Ports.FindContainerHoldingHostPort | apps/api/src/domain/port-conflict.ts:39-49 | The first container with such a binding, or none. |
| Ports.HolderPublishes | apps/api/src/domain/container-utils.ts:21-37 | A container uses a host port exactly when one of its ports is published there. |

## Left out

- SaveTheorems.WritesReplaceKnownLayouts: of a load whose rows did not belong together it says that the write may be blind, not always; such a client can know the version on other grounds, such as having saved it.
- SaveProtocol.RunKeeps: older clients that send no revision are not part of the system; they write unconditionally by design (`HomeStore.WriteThenRead` covers one such write).
- SaveProtocol.StepKeeps: a reload that itself fails is not modelled.
- ComposeOps.FinishIsEffect: writes that put the original file back are taken to succeed, a write that fails is taken to leave the file as it was, and files changed by outside programs are not modelled.
- ComposeRuns.Serializable: speaks of one service object; other modules build their own, which the code does not serialise, and whole-project creation and removal take no lock.
- ComposeFile.RemoveForgets: the file is an ordered map of services, not YAML text; comments, anchors and formatting are not modelled.
- ApplyUpdate.ApplyUpdate: other programs that move tags or containers meanwhile are not modelled, a whole-project recreate leaves any containers, a failing stop leaves the container running, and the cache row and the pruning after a success are not part of it.
- ApplyUpdate.RecreateStandalone: the copied container settings and the pauses between attempts are not modelled.
- ApplyTheorems.UnderOneName: says nothing about containers of projects that are recreated as a whole.
- ApplyTheorems.SuccessIsEarned: container names are taken without a leading slash, as the inspection returns them.
- UpdateCache.Table.PruneStaleCache: its three database calls run without a check in between; the soundness of rows holds in all interleavings.
- UpdateCache.UpdatesAreSound: registry, tag and the text of the registry protocol are not part of a row.
- LoginLockout.AtMostEightFailures: check and record are one step, addresses do not begin with `acct`, and the mirror file is not modelled.
- LoginLockout.LoginLocks.Login: lower-casing is that of ASCII, here and in all other modules.
- Sse.StreamDelivers: text is a sequence of characters; decoding of UTF-8 across chunks, carriage returns as line ends and the handlers behind the events are not modelled, and frames hold one-line texts, as JSON does.
- PushOverMemo.RepeatedFetchIsFreshIff: other readers of the memo are gets at any time; their own streams are not followed.
- PushLoop.NoTriggerIsLost: a timer may come at any time once it is set up; its period is not modelled.
- HomeLayoutLaws.FixedAfterTwo: numbers are exact reals, strings are characters instead of UTF-16 units, the URL parser is a parameter, field names are distinct, and `__proto__` is an ordinary name.
- FitLayout.FitDepartmentLayout: numbers are exact reals.
- Interpolation.FindInterpolationRefs: `$$` is not special, as in the code, although Compose treats it so.
- EnvFile.FileRoundTrip: speaks of values without quotes, backslashes and line ends, which `EnvFile.ValueRoundTrip` shows to be needed, and of other lines that are no pairs.
- Cron.NextCronRun: time is minutes of 24-hour days; time zones and daylight saving are not modelled, the calendar and `Number` on anything but plain digits are parameters.
- ComposeLabels.SetComposeServiceLabel: works on lines; tabs are measured as two spaces instead of being replaced, and a value with a line break is not modelled.
- ComposeLabelLaws.OtherIconsStay: which icon a line names is a parameter.
- ComposeFile.WithoutKeepsOthers: the settings behind a name in a `depends_on` map are not modelled.
- Ports.PublishedRoundTrip: an address holds no white space and no `>`.
- Interface code, translations, routes, roles, masking, metrics, monitoring, notifications, backups, archives and terminals: they pass data on and would only add easy members.
- Passwords, tokens, cookies and two-factor codes: library calls.
