# The operations room and its protocols

A model, with proofs, of the desktop application's state machines: the event-sourced store behind the
operations room, its replay mode and the paging loop that feeds it, the layering of a mission plan, two
asynchronous lookups with caches, the mission reducer and inbox, the terminal's cursor, and three escapers.

How the files fit together:

- `types.dfy`, `reducer.dfy`: the values of the operations room and what one event makes of each part.
- `images.dfy`, `ops_state.dfy`: the object graph behind those values. `OpsState` is a class whose methods change
  its fields, and the worker, task and log objects it points to, in place; `Memory` holds those objects by address,
  because successive snapshots share them. `Contents()` is the plain state that an object represents.
- `history.dfy`, `alert_history.dfy`: every derived view against its definition over the whole, unbounded history of
  events.
- `squads.dfy`, `world.dfy`, `counters.dfy`, `mission_workers.dfy`: the actions on the live world, the squad tables,
  the two derived counters, and mission progress. `decisions.dfy` says the review decisions of the actions alone, and
  `world_actions.dfy` what each other action writes.
- `edge_ends.dfy`: the stored and the redrawn dependency edges after a new mission has forgotten workers.
- `store.dfy`, `runs.dfy`: the store with its replay cursor and shadow world, and what holds in all of its runs;
  `replay_cursor.dfy`: where each step puts the cursor, and what playing a recording shows.
- `streams.dfy`, `pick_session.dfy`, `panel_steps.dfy`, `pick_progress.dfy`, `terminal.dfy`: reading a worker's stream
  page by page, and through a bucket that keeps the last 500 events.
- `chains.dfy`, `layering.dfy`, `plan_intake.dfy`: dependency chains, Kahn's algorithm, and the bounded intake.
- `identity.dfy`, `identity_answers.dfy`, `visibility.dfy`, `host_visibility.dfy`: the two lookups, under every
  interleaving of calls, replies and timers, and the host's side of the second.
- `missions.dfy`, `mission_records.dfy`, `mission_traces.dfy`: the mission reducer, how it runs on shared worker records,
  and the mission said of its own events alone.
- `inbox.dfy`, `escaping.dfy`: the inbox list, and the escapers with their readers.

Six findings, each with the exact condition under which the code does what is promised:

- The queue counter of the review panel is exact throughout a run if and only if no action of the run skews it. Two
  kinds can: a plain event that moves a mission worker across the terminal boundary, and the registration of a
  finished, queued standalone worker as a mission worker (`Counters.ExactIffSteady`, `Counters.MissionWorkerDrifts`).
  Starting a new mission recounts and removes any drift (`Counters.PruneCounts`).
- After a new mission has forgotten the workers of earlier ones, the canvas can show edges from or to them. The stored
  edges are stale if and only if one of them touches a mission worker, which up to the first such mission means that a
  mission worker waits or is waited on (`EdgeEnds.StoredEndsAfterPruneIff`, `EdgeEnds.StaleAfterPruneIff`). A redraw
  repairs them, unless a standalone worker waits on a task of a mission worker, because task owners are kept
  (`EdgeEnds.RedrawAfterPruneIff`). `EdgeEnds.StaleEdgeRun` and `EdgeEnds.DanglingEdgeRun` are runs that get there.
- Moving a replay's cursor, by a seek, a tick or an arriving page, loses the selection if and only if the projection is
  rebuilt: when the cursor moves back, and when a page arrives while the cursor is not at the end, although the cursor
  then moves forward (`Store.SelectionKeptIff`, `Store.SeekDropsRun`, `Store.PageDropsRun`).
- The mission reducer, documented as pure, writes to worker objects that it shares with the state before. The earlier
  state is left as it was if and only if the event is about no known worker, or its record says already what the event
  says (`MissionRecords.ApplyInPlace`). A first progress report always disturbs it (`MissionRecords.KeepThenProgress`).
- The host judges an arbiter's decision by tags in its text, the client shares one verdict among decisions that parse
  to the same kind. Sharing is right if each text mentions what it parses to and no more, and, where some decision of
  every kind does, only if all do (`HostVisibility.FactorsIffPlain`, `HostVisibility.NestedTagMisleads`).
- The terminal prints everything if and only if no more than 500 events arrive between two renderings
  (`Terminal.PrintsEverythingIff`).

## Model

| member | source | states |
|---|---|---|
| OpsHeap.OpsState.ApplyToOpsState | app/src/store/ops-state.ts:15-59 | the new state is the old one after the event; every object that existed before is unchanged, the previous state reads as it did, and the edge list keeps its identity exactly when its content stays the same |
| OpsHeap.OpsState.DetachEntries | app/src/store/ops-state.ts:42-56 | copies the worker, log and task objects the event is going to write to, and no others |
| OpsHeap.OpsState.Clone | app/src/store/ops-state.ts:69-109 | a deep copy: equal content, no worker, task or log object shared, an edge list of its own |
| OpsHeap.CopyEntries | app/src/store/ops-state.ts:71-88 | every entry is copied to an unused address, no two to the same one, and the originals stay |
| OpsHeap.OpsState.ApplyEvent | app/src/store/ingest.ts:119-336 | the in-place reducer: the object represents exactly what the plain specification gives, edges included |
| OpsHeap.OpsState.EnsureWorker | app/src/store/ingest.ts:121-136 | an unknown worker is created, listed, counted as active and announced; a known one is left alone |
| OpsHeap.OpsState.TrackSeq | app/src/store/ingest.ts:137-160 | regressions and gaps raise their alert, and the highest sequence number never goes back |
| OpsHeap.OpsState.PushBounded | app/src/store/ingest.ts:182-185 | appending and shifting leaves exactly the last 500 |
| OpsHeap.OpsState.LogEvent | app/src/store/ingest.ts:177-185 | the event goes into its worker's bucket, which is created if missing |
| OpsHeap.OpsState.TouchTask | app/src/store/ingest.ts:187-205 | the worker points to the task, and the task and its owner entry name the worker |
| OpsHeap.OpsState.CountTransition | app/src/store/ingest.ts:208-229 | both counters move exactly when the worker crosses the terminal boundary |
| OpsHeap.OpsState.NoteWorker | app/src/store/ingest.ts:230-316 | what each kind of payload writes into the worker object, and nothing else |
| OpsHeap.OpsState.ApplyPayload | app/src/store/ingest.ts:207-327 | the switch over payloads, on worker, task, alerts, spend and counters together |
| OpsHeap.OpsState.ComputeDependencyEdges | app/src/store/ingest.ts:338-360 | the collecting loops give the edges of the plain specification |
| OpsHeap.OpsState.EdgesEqual | app/src/store/ingest.ts:362-378 | true exactly for equal lists |
| OpsHeap.OpsState.RefreshEdges | app/src/store/ingest.ts:329-335 | the stored edges are those of a full redraw, and the list object is replaced exactly when the content differs |
| OpsHeap.OpsState.ApplyRange | app/src/store/replay.ts:190-198 | the loop over part of a session is the fold over it, and touches no object that existed before |
| OpsHeap.OpsState.ProjectReplay | app/src/store/replay.ts:184-200 | forward it is the fold of the events between, back it is a rebuild; the shown state is not disturbed |
| OpsHeap.OpsState.AppendPage | app/src/store/replay.ts:89-100 | a page is folded onto what is shown, or everything is rebuilt if the cursor was not at the end |
| Images.AbsorbReads | app/src/store/ingest.ts:119-327 | the reducer's moves on shared objects do to the plain state what the specification says of each part |
| Images.AbsorbKeeps | app/src/store/ingest.ts:119-327 | an event writes to no object but its worker's, its worker's log and its task's |
| Images.CopyOnWrite | app/src/store/ops-state.ts:9-14 | pre-cloning those three is enough: no existing object changes and the shared state reads as before |
| Images.DeepCopyContents | app/src/store/ops-state.ts:61-68 | a deep copy reads the same and owns all of its entry objects |
| Reducer.FoldConcat | app/src/store/replay.ts:180-183 | applying two stretches of events one after the other is applying their concatenation |
| History.Isolation | app/src/store/ingest.ts:119-327 | a worker's record depends on its own events alone |
| History.RecordMeans | app/src/store/ingest.ts:162-300 | event count, spend, state and dependencies of a record, from its events |
| History.RecordRemembers | app/src/store/ingest.ts:187-326 | log line, note, progress, tests, model, task, summaries and flash time are the latest its events gave |
| History.RecordAddsUp | app/src/store/ingest.ts:276-297 | files, lines, tokens and cost are the sums over its events |
| History.Bucket | app/src/store/ingest.ts:177-185 | each worker's bucket is the last 500 of its events, in order |
| History.HighestSeq | app/src/store/ingest.ts:159-160 | the tracked sequence number is the maximum over the worker's events |
| History.HighestMeans | app/src/store/ingest.ts:159-160 | that maximum is attained and never exceeded |
| History.OrderOfAppearance | app/src/store/ingest.ts:121-123 | workers are listed once each, in the order of their first events, and the list enumerates the table |
| History.Totals | app/src/store/ingest.ts:162-164 | the total of events is the length of the history, the total spend its sum |
| History.TotalsAreSums | app/src/store/ingest.ts:291-297 | both totals are the sums over the workers' records |
| AlertHistory.AlertFeed | app/src/store/ingest.ts:101-103 | the feed is the newest 24 of all alerts ever raised, by a log defined over the events alone |
| AlertHistory.AlertsMean | app/src/store/ingest.ts:121-325 | an alert is in that log if and only if an event raises it: a worker's first event, one that does not follow the highest number before it, one that blocks or resumes, a completion, a failure, each with its text, numbers, worker and time |
| History.TaskOwners | app/src/store/ingest.ts:187-205 | owners and tasks have the same keys, both name the last worker to emit for the task, and the task has the last state and completion time given for it |
| History.EdgesCurrent | app/src/store/ingest.ts:329-335 | after every event the stored edges are those of a recomputation from scratch |
| History.EdgesMeanWaits | app/src/store/ingest.ts:338-360 | an edge is there if and only if one worker waits on a task that another was the last to emit for |
| History.EdgesJoinKnownWorkers | app/src/store/ingest.ts:341-356 | no self-edges, and both ends are known workers |
| World.ComputeNeedsReview | app/src/store/review.ts:96-109 | the loop gives the finished, undecided standalone workers in list order |
| World.QueueChange | app/src/store/review.ts:26-38 | the delta is the change of the worker's place on the queue |
| World.NextFocus | app/src/store/review.ts:40-61 | where the focus goes |
| World.SetReviewStatus | app/src/store/review.ts:14-77 | status, counter and, in live mode, focus after a decision |
| World.DecidedLeavesQueue | app/src/store/review.ts:36-52 | deciding about a queued worker takes it, and no other, off the queue |
| World.FocusMovesOn | app/src/store/review.ts:40-61 | the focus moves to the following card, else to the one before, else nowhere; from off the queue to its first card |
| Decisions.DecisionMeans | app/src/store/review.ts:14-77 | a decision gives one worker its status and leaves every other status, and the rest of the world but counter and focus, as it was |
| Decisions.MissionWorkersAre | app/src/store/workers.ts:94-132 | in every run the mission workers are those registered for a mission since the last one was created |
| Decisions.LastDecisionMeans | app/src/store/review.ts:19 | which decision counts as the last: no later one, and no new mission while the worker belonged to one |
| Decisions.StatusIsLastDecision | app/src/store/review.ts:14-77 | in every run a worker's status is that of its last decision, or none |
| Decisions.StoredStatusIsLastDecision | app/src/store/review.ts:14-77 | so it is in every run of the store, in live mode and behind a replay |
| Decisions.QueueIsUndecided | app/src/store/review.ts:96-109 | in every run of the store the queue is the finished workers without a mission whose last decision is absent or puts them back, each once, in list order |
| WorldActions.RegisteredWorker | app/src/store/workers.ts:58-92 | who a worker is after it is registered, known or new, and what else changes |
| WorldActions.RegisteredMissionWorker | app/src/store/workers.ts:94-132 | the same for a mission worker |
| WorldActions.ModelSet | app/src/store/workers.ts:215-231 | setting a model writes that worker's model and nothing else |
| WorldActions.PrunedTables | app/src/store/workers.ts:299-360 | a new mission forgets its predecessors' workers in every table kept per worker, and no others |
| WorldActions.PrunedLists | app/src/store/workers.ts:312-337 | and in the list of workers and the alert feed |
| WorldActions.PrunedAlerts | app/src/store/workers.ts:335-337 | the alerts of the others stay, each as often as before and in the same order |
| WorldActions.PruneLeaves | app/src/store/workers.ts:330-359 | tasks, owners, edges, totals and the list of squads stay |
| WorldActions.PrunedSquad | app/src/store/workers.ts:314-328 | a squad loses the forgotten workers, and its lead if it is one of them |
| WorldActions.PrunedFocus | app/src/store/workers.ts:347-358 | selection and focus are dropped with their worker, unless that has the empty id |
| Squads.AssignWorkerToSquad | app/src/store/squads.ts:100-140 | the stepwise tables are: out of the prior squad, its lead cleared if need be, into the new one once |
| Squads.DeleteSquad | app/src/store/squads.ts:82-98 | the squad, its place in the order and all assignments to it are gone, and nothing else |
| Squads.CreateAgrees | app/src/store/squads.ts:27-56 | creating keeps the tables in agreement |
| Squads.RelabelAgrees | app/src/store/squads.ts:58-80 | so do renaming and recolouring |
| Squads.DeletedAgrees | app/src/store/squads.ts:82-98 | so does deleting |
| Squads.AssignedAgrees | app/src/store/squads.ts:100-140 | so does assigning, and the worker is then in the given squad |
| Squads.LedAgrees | app/src/store/squads.ts:142-160 | so does naming a lead, which only a member can be |
| WorldActions.SquadAfter | app/src/store/squads.ts:27-160 | a squad after it is created, renamed, recoloured, deleted or given a lead, and every other squad as before |
| WorldActions.SquadDeleted | app/src/store/squads.ts:82-98 | a deleted squad is off the list and its workers are free |
| WorldActions.AssigningKeepsLabels | app/src/store/squads.ts:100-140 | assigning a worker changes no name, colour, age or other membership, and a lead only if it leaves; to an unknown squad it changes nothing |
| Squads.PrunedAgreesIff | app/src/store/workers.ts:314-328 | so does forgetting workers, if and only if no squad is led by a forgotten worker with the empty id |
| Squads.SquadsAreDisjoint | app/src/store/types.ts:178-180 | no worker is in two squads |
| Counters.QueueLength | app/src/store/review.ts:96-109 | the length of the queue is the number of workers on it |
| Counters.IngestCounts | app/src/store/ingest.ts:121-126 | an event keeps the active count exact and moves the queue counter off the queue by its skew |
| Counters.ReviewCounts | app/src/store/review.ts:14-77 | a decision keeps both counters in step, also for a worker not known yet |
| Counters.RegisterMissionCounts | app/src/store/workers.ts:94-132 | registering a mission worker skews the counter exactly when the worker was on the queue |
| Counters.UpdateCounts | app/src/store/workers.ts:134-173 | mission progress keeps the active count exact and never touches the queue |
| Counters.PruneCounts | app/src/store/workers.ts:299-360 | a new mission recounts: the drift is gone |
| Counters.ActCounts | app/src/store/types.ts:153-160 | every action keeps the active count exact and changes the drift by its skew and no more |
| Counters.RunCounts | app/src/store/types.ts:153-159 | in every run the active count is the number of workers neither done nor failed |
| Counters.ExactIffSteady | app/src/store/types.ts:153-160 | the queue counter is exact all along a run if and only if no action in it skews it |
| Counters.SkewsMeansSkew | app/src/store/ingest.ts:213-229 | the guard of the two skewing actions says exactly when one skews |
| Counters.StandaloneIsSteady | app/src/store/ingest.ts:213-229 | without mission workers no action does |
| Counters.MissionWorkerDrifts | app/src/store/ingest.ts:217-222 | a mission worker finished by a plain event is counted but not queued |
| MissionProgress.UpdatesMean | app/src/store/workers.ts:134-173 | after a run of updates, each at its own time: the last hundred timeline entries, every update counted, the active count, the latest state, note, summaries and changed files, a flash since the worker was last finished, and nothing else changed |
| MissionProgress.FinishLeavesNoneOpen | app/src/store/workers.ts:175-197 | ending a mission leaves none of its workers unfinished, gives them the final state, note, summary and timeline entry, and leaves every other worker as it was |
| Store.ProjectShowsPrefix | app/src/store/replay.ts:180-200 | forward or rebuilt, the projection is the fold of the events up to the target |
| Store.AppendShowsAll | app/src/store/replay.ts:78-109 | so is the state after a page, whether it was folded on or rebuilt |
| Store.NextIsValid | app/src/store/replay.ts:21-178 | every step of the store keeps the replay invariant |
| Store.ReplayShowsPrefix | app/src/store/replay.ts:61-178 | in every run the cursor is in range and the visible state is the fold of the events before it, with no decisions and no squads |
| ReplayCursor.ReplayAfter | app/src/store/replay.ts:21-178 | session, events, cursor, speed, playing and loading after every kind of step, with the cursor in plain arithmetic |
| ReplayCursor.PlaysThrough | app/src/store/replay.ts:158-176 | ticks of the player show one event more each, in turn, until all are shown |
| ReplayCursor.StopsAtEnd | app/src/store/replay.ts:168-171 | a recording set playing before its end stops after exactly as many ticks as events are left |
| ReplayCursor.ShadowAfter | app/src/store/replay.ts:23-59 | the live world kept aside, selection and focus included, after every kind of step |
| ReplayCursor.EnterAndExit | app/src/store/replay.ts:23-59 | whatever is done inside a replay, leaving it brings back the store as it was before entering |
| Store.SelectionAfter | app/src/store/replay.ts:21-178 | selection and focus after every kind of step |
| Store.SelectionKeptIff | app/src/store/replay.ts:78-178 | moving the cursor, by a seek, a tick or a page, keeps the selection if and only if the projection is not rebuilt, or nothing is selected |
| Store.SeekingBackDropsSelection | app/src/store/replay.ts:184-200 | the selection after seeking, by where the cursor ends up |
| Store.SeekDropsRun | app/src/store/replay.ts:127-137 | a run in which seeking back loses the selection |
| Store.PageDropsRun | app/src/store/replay.ts:94-99 | a run in which an arriving page moves the cursor forward and loses it as well |
| Store.ActBlank | app/src/store/ops-state.ts:30-41 | no action on the world depends on what is selected or focused |
| Store.NextWorld | app/src/store/workers.ts:29-52 | what one step does to the live world, wherever it is kept |
| Store.ReplayIsInvisible | app/src/store/replay.ts:23-59 | striking all replay steps out of a run gives the same world, selection and focus aside |
| Store.ExitRestores | app/src/store/replay.ts:50-59 | leaving brings the shadowed world back exactly |
| Runs.WorldIsSound | app/src/store/squads.ts:21-162 | in every run the squad tables agree, workers are listed once, and the active count is exact |
| Runs.StandaloneCounterIsExact | app/src/store/review.ts:19-38 | in every run of the store without mission workers the queue counter is the length of the queue |
| Runs.ReplayedCounters | app/src/store/replay.ts:61-109 | the counters that a replay shows are right as well |
| History.AppliedIsCurrent | app/src/store/ingest.ts:329-335 | after any event, on any state, the stored edges are those of a redraw |
| EdgeEnds.JoinedIff | app/src/store/ingest.ts:340-357 | a redraw joins two workers if and only if one waits on a task of the other |
| EdgeEnds.EndsKnownIff | app/src/store/ingest.ts:340-357 | a redraw joins known workers if and only if the owners waited on are known |
| EdgeEnds.EdgesFitUntilPrune | app/src/store/ingest.ts:329-357 | in every run in which no mission worker has been forgotten, stored edges join known workers, and the ones a redraw would join |
| EdgeEnds.StoredEndsAfterPruneIff | app/src/store/workers.ts:330-359 | after a prune, stored edges join known workers if and only if they did and none touched a mission worker |
| EdgeEnds.StaleAfterPruneIff | app/src/store/workers.ts:330-359 | in every run up to its first prune, the stored edges are stale after it if and only if a mission worker waits or is waited on |
| EdgeEnds.RedrawAfterPruneIff | app/src/store/workers.ts:330-359 | a redraw after a prune joins known workers if and only if no standalone worker waits on a mission worker's task or on a forgotten owner's |
| EdgeEnds.StaleEdgeRun | app/src/store/workers.ts:299-360 | a run from the empty store that ends with a stored edge to a forgotten worker |
| EdgeEnds.DanglingEdgeRun | app/src/store/workers.ts:299-360 | a run from the empty store in which an edge from a forgotten worker is drawn again |
| Streams.LaterIsRest | app/src/replay/ReplayPanel.tsx:132-149 | after the last event of a prefix come exactly the events that follow it |
| PickSession.ShortPageIsRest | app/src-tauri/src/lib.rs:238-254 | a page shorter than asked for is the rest of the log, for requests up to the host's limit |
| PickSession.LongerPagesMislead | app/src-tauri/src/lib.rs:244-247 | for larger requests a short page can leave events out |
| PickSession.ClickKeeps | app/src/replay/ReplayPanel.tsx:118-131 | a click overtakes every pick under way and starts a current one |
| PickSession.UnmountKeeps | app/src/replay/ReplayPanel.tsx:48-58 | unmounting silences every pick of the panel |
| PanelSteps.ClickStarts | app/src/replay/ReplayPanel.tsx:118-138 | a click begins the session anew, sends one loop off from the start of the log, and overtakes all others |
| PanelSteps.UnmountSilences | app/src/replay/ReplayPanel.tsx:48-58 | unmounting overtakes every loop and ends the loading |
| PanelSteps.ExitLeaves | app/src/replay/ReplayPanel.tsx:48-51 | the exit button overtakes them too, and leaves the replay |
| PanelSteps.AnswerGivesPage | app/src-tauri/src/lib.rs:238-254 | a current loop is given what follows its events, at most 512 of them |
| PanelSteps.OvertakenDrops | app/src/replay/ReplayPanel.tsx:139-141 | an overtaken loop drops whatever it is answered |
| PanelSteps.RefusalEnds | app/src/replay/ReplayPanel.tsx:142-145 | a refused loop ends the loading and keeps what is shown |
| PanelSteps.FullPageGoesOn | app/src/replay/ReplayPanel.tsx:146-151 | a full page goes behind the events shown, and the next request is for what follows |
| PickSession.OneCurrent | app/src/replay/ReplayPanel.tsx:119-127 | at most one paging loop is current |
| PickSession.ResumeKeeps | app/src/replay/ReplayPanel.tsx:133-163 | taking up a reply, stale, failed, short or full, keeps the invariant and the promise that loading ends |
| PickSession.StepKeeps | app/src/replay/ReplayPanel.tsx:118-164 | so does every other step, in any order |
| PickSession.HoldsPrefixOfLog | app/src/store/replay.ts:78-109 | in every interleaving a replay holds the beginning of its session's log |
| PickSession.CleanEndIsWholeLog | app/src/replay/ReplayPanel.tsx:146-162 | a loop that ends without an error has shown the whole log as last read, and loading is off |
| PickSession.FullPageMakesProgress | app/src/replay/ReplayPanel.tsx:133-151 | a full page leaves 512 events fewer to read |
| PickProgress.CurrentBefore | app/src/replay/ReplayPanel.tsx:119-127 | a loop that was overtaken never becomes current again |
| PickProgress.PagesAreBounded | app/src/replay/ReplayPanel.tsx:133-151 | in every interleaving in which its log does not grow, a loop takes up no more pages than the unread events fill, and one |
| PickProgress.CleanEndShowsAll | app/src/replay/ReplayPanel.tsx:146-162 | if the log does not grow from the click on, a loop that ends without an error has shown all of it, and loading is off |
| PickProgress.LeftAloneItEnds | app/src/replay/ReplayPanel.tsx:133-163 | left alone with the host, a loop ends after exactly that many pages, with the whole log on show |
| Terminal.EventsAfterSeq | app/src/drawer/terminal-cursor.ts:9-18 | the backward walk gives the longest tail beyond the cursor, which on an increasing stream is all there is beyond it |
| Terminal.PrintsEverythingIff | app/src/drawer/RawTerminal.tsx:166-176 | every event from the first rendering on is printed once and in order if and only if at most 500 arrive between renderings |
| Chains.SettledIff | app/src/missions/plan-mind-map.ts:274-283 | a task is settled after some rounds if and only if no chain from it has that many links |
| Chains.UnsettledIffCycle | app/src/missions/plan-mind-map.ts:284-291 | a task that no round settles is exactly one whose dependencies lead into a cycle |
| Layering.CountEdges | app/src/missions/plan-mind-map.ts:255-268 | in-degrees and dependents are those of the dependency graph |
| Layering.FirstFrontier | app/src/missions/plan-mind-map.ts:270-272 | the first frontier is the tasks without dependencies |
| Layering.Round | app/src/missions/plan-mind-map.ts:274-283 | one round frees exactly the tasks whose last open dependencies it schedules |
| Layering.Unscheduled | app/src/missions/plan-mind-map.ts:284-288 | the tasks no wave holds, in ascending order |
| Layering.MakeWaves | app/src/missions/plan-mind-map.ts:269-291 | the loop ends, and its waves and the leftover wave are the layers of the graph, sorted |
| Layering.WaveIsLongestChain | app/src/missions/plan-mind-map.ts:255-291 | a task is in wave k exactly when its longest chain has k links, and in the leftover wave exactly when it reaches a cycle |
| Layering.InOneWave | app/src/missions/plan-mind-map.ts:284-291 | every task is in one wave, once |
| Layering.EdgesPointBack | app/src/missions/plan-mind-map.ts:348-364 | every edge goes from an earlier wave to a later one or lies inside the leftover wave |
| PlanIntake.StageTasks | app/src/missions/plan-mind-map.ts:387-440 | of the first 128, the tasks with a usable index not seen before; scope paths beyond 24 are counted |
| PlanIntake.StagedIsComplete | app/src/missions/plan-mind-map.ts:391-400 | no usable index is passed over |
| PlanIntake.StagedAreFirst | app/src/missions/plan-mind-map.ts:387-400 | of tasks with the same index the first is kept, and the kept ones keep their order |
| PlanIntake.KeepDependencies | app/src/missions/plan-mind-map.ts:447-471 | one task's entries within what is left of both budgets |
| PlanIntake.PrepareTasks | app/src/missions/plan-mind-map.ts:376-481 | the running budgets cut the whole list of entries at 2048 inspected and 512 kept, and all omissions are counted |
| PlanIntake.TasksArePrepared | app/src/missions/plan-mind-map.ts:442-475 | indexes differ, every kept edge is unique within its task and points to a kept task, at most 128 tasks |
| PlanIntake.DependenciesAreConserved | app/src/missions/plan-mind-map.ts:443-480 | the entries that are kept, those reported as omitted, and those ignored as invalid, invisible or repeated, counted one by one, add up |
| PlanIntake.BuildWaves | app/src/missions/plan-mind-map.ts:147-291 | from an untrusted list to waves that are exact for the kept graph |
| Identity.IdentityCache.ScheduleRetry | app/src/operations/useWorkerIdentity.ts:58-76 | a timer is set only for a watched worker and replaces an older one |
| Identity.IdentityCache.RecordTransportFailure | app/src/operations/useWorkerIdentity.ts:83-99 | only the awaited request can fail an entry |
| Identity.IdentityCache.StartFetch | app/src/operations/useWorkerIdentity.ts:101-112 | a new numbered request, or a failure at once if it cannot be sent |
| Identity.IdentityCache.EnsureFetch | app/src/operations/useWorkerIdentity.ts:143-155 | fetch, retry or wait, by entry and clock |
| Identity.IdentityCache.Subscribe | app/src/operations/useWorkerIdentity.ts:174-185 | watching asks for an identity |
| Identity.IdentityCache.Unsubscribe | app/src/operations/useWorkerIdentity.ts:186-192 | the last watcher takes the timer with it |
| Identity.IdentityCache.FireTimer | app/src/operations/useWorkerIdentity.ts:62-74 | a timer acts only for the deadline it was set for |
| Identity.IdentityCache.HandleReply | app/src/operations/useWorkerIdentity.ts:114-140 | what each reply makes of an awaited entry |
| IdentityAnswers.AnswerDecides | app/src/operations/useWorkerIdentity.ts:114-140 | an awaited answer decides its worker's entry: the identity given, missing for ten seconds, or failed for one, five or thirty |
| IdentityAnswers.ResolvedIff | app/src/operations/useWorkerIdentity.ts:124-128 | in every run an identity is resolved if and only if the host gave it in answer to an awaited request for that worker |
| IdentityAnswers.MissingSince | app/src/operations/useWorkerIdentity.ts:129-136 | in every run a worker is missing until ten seconds after the answer that left it so |
| IdentityAnswers.Asking | app/src/operations/useWorkerIdentity.ts:101-155 | when the host is asked, with which number and which attempt, and what is left if the call fails at once |
| IdentityAnswers.NotAsking | app/src/operations/useWorkerIdentity.ts:143-155 | otherwise nothing is asked, and only answers change entries |
| IdentityAnswers.WatchesAfter | app/src/operations/useWorkerIdentity.ts:174-192 | a callback watches a worker from its subscription to its unsubscription |
| Identity.NextKeeps | app/src/operations/useWorkerIdentity.ts:36-155 | every step keeps timers, requests, attempts and watchers in agreement |
| Identity.TimerIffWatchedAndWaiting | app/src/operations/useWorkerIdentity.ts:58-76 | in every run a timer exists exactly for watched workers whose entry waits, and for the entry's time |
| Identity.OneRequestEach | app/src/operations/useWorkerIdentity.ts:101-141 | in every run no worker has two requests under way |
| Identity.WatchedMakeProgress | app/src/operations/useWorkerIdentity.ts:143-155 | in every run a watched worker is resolved, awaited, or has a timer |
| Identity.StaleReplyIsIgnored | app/src/operations/useWorkerIdentity.ts:78-81 | a reply no longer awaited changes nothing |
| Identity.ResolvedStays | app/src/operations/useWorkerIdentity.ts:124-128 | a resolved identity is never left |
| Identity.AttemptsFollowFailures | app/src/operations/useWorkerIdentity.ts:89-96 | the attempt number is the failures in a row, counted in threes, plus one |
| Identity.FailuresRest | app/src/operations/useWorkerIdentity.ts:29-34 | retries after one and five seconds, and thirty after the third failure |
| Visibility.VisibilityClient.FetchVisibility | app/src/inbox/visibility-client.ts:28-61 | a cached verdict, a shared request, or a new one |
| Visibility.VisibilityClient.Settle | app/src/inbox/visibility-client.ts:44-50 | a verdict is cached, a failure is not |
| Visibility.VisibilityClient.Release | app/src/inbox/visibility-client.ts:56-59 | only the request that is in flight is released |
| Visibility.KeyTellsTag | app/src/inbox/visibility-client.ts:84-102 | the key begins with the event type |
| Visibility.FallbackFactors | app/src/inbox/visibility-client.ts:188-230 | events with the same key have the same fallback |
| Visibility.FallbackIs | app/src/inbox/visibility-client.ts:188-230 | the fallback verdict for every event type |
| Visibility.RecoveryKeys | app/src/inbox/visibility-client.ts:91-95 | recovery decisions share a slot exactly when they have the same single action, or neither has one |
| Visibility.VerdictKeys | app/src/inbox/visibility-client.ts:96-100 | completion verdicts share a slot exactly when they recommend the same |
| Visibility.FailedIsAskedAgain | app/src/inbox/visibility-client.ts:43-60 | a failed request is not remembered: the next event with its key asks again |
| Visibility.ArbiterKeys | app/src/inbox/visibility-client.ts:85-90 | arbiter keys are equal exactly when bound and discriminator are |
| Visibility.ColonsMislead | app/src/inbox/visibility-client.ts:89 | a colon in the bound breaks that |
| Visibility.CacheIsAuthoritative | app/src/inbox/visibility-client.ts:38-50 | in every run what is cached is a verdict of the host for that key |
| Visibility.OneOpenRequest | app/src/inbox/visibility-client.ts:35-36 | in every run one request per key is open, and none for a cached key |
| Visibility.CachedForGood | app/src/inbox/visibility-client.ts:31-33 | a cached key is not asked for again and its verdict stays |
| Visibility.SharedFallbackIsOwn | app/src/inbox/visibility-client.ts:35-60 | whoever shares a degraded reply gets the fallback of its own event |
| HostVisibility.DeservedIff | crates/orchestrator/src/escalation/visibility.rs:207-256 | the host's verdict is the one that the parsed kind deserves if and only if the text mentions what it parses to |
| HostVisibility.FactorsIffPlain | app/src/inbox/visibility-client.ts:63-90 | one verdict per key is right for all decisions that say what they parse to, and, where each key has such a decision, only then |
| HostVisibility.NestedTagMisleads | crates/orchestrator/src/escalation/visibility.rs:242-247 | two decisions with one key and different verdicts |
| HostVisibility.ServedIsOwn | app/src/inbox/visibility-client.ts:28-61 | in every run over such decisions, the cache serves each the verdict that the host would give it |
| Missions.LastMissionDecides | app/src/missions/ingest.ts:19-68 | the state is decided by the last created mission's own events, the repository directory aside |
| Missions.CwdStays | app/src/missions/ingest.ts:23-25 | the repository directory never changes |
| Missions.UpsertedMeans | app/src/missions/ingest.ts:572-579 | one item per kind, the others kept |
| Missions.AppliedFits | app/src/missions/ingest.ts:240-285 | every event keeps one item per kind, the item that a waiting lifecycle needs, and progress within 0 to 100 |
| Missions.WaitingHasAttention | app/src/missions/ingest.ts:405-432 | so they hold in every reachable state |
| MissionTraces.MissionFromEvents | app/src/missions/ingest.ts:19-473 | after any trace the mission is what the own events of the last created one say: lifecycle, status line, progress, tasks, workers and attention |
| MissionTraces.LatestMeans | app/src/missions/ingest.ts:70-76 | what the last event that says something says, unless a later one makes it void |
| MissionTraces.LifecycleIs | app/src/missions/ingest.ts:78-432 | the lifecycle is the one set by the last event that sets one; a review or an integration does not end a wait for attention |
| MissionTraces.WorkersAre | app/src/missions/ingest.ts:160-321 | a worker's status, note and files are those of its last events since it was last spawned |
| MissionTraces.TasksAre | app/src/missions/ingest.ts:84-321 | the tasks are those of the last plan, integrated if and only if the work was integrated since anybody last took the task up, with that integration's sha and tag |
| MissionTraces.ProgressIs | app/src/missions/ingest.ts:224-249 | progress is the rounded share of integrated tasks at the last integration, or 100 after completion |
| MissionTraces.PercentRounds | app/src/missions/ingest.ts:225-228 | the share is rounded to the nearest integer, halves up |
| MissionTraces.AttentionIs | app/src/missions/ingest.ts:240-432 | an item stands before the user if and only if it is the last of its kind and nothing has cleared it since |
| MissionTraces.StatusIs | app/src/missions/ingest.ts:79-432 | the status line is what the last event that had something to announce announced |
| MissionTraces.RestIs | app/src/missions/ingest.ts:235-395 | test result, completion, resolution, restored sha, abort, generation, extension, audit and verdict are the last reported |
| MissionTraces.OverlayAfter | app/src/missions/ingest.ts:460-472 | a dismissed overlay comes back with a decision about the mission or a new mission, and only then |
| MissionRecords.SpawnWorker | app/src/missions/ingest.ts:160-179 | a new record goes into a copy of the table, and the task it takes up is assigned; the earlier state keeps the old record |
| MissionRecords.NoteProgress | app/src/missions/ingest.ts:180-190 | writes note and status into the shared record |
| MissionRecords.SubmitResult | app/src/missions/ingest.ts:191-201 | writes status and files into the shared record |
| MissionRecords.StartReview | app/src/missions/ingest.ts:202-211 | writes the status into the shared record |
| MissionRecords.Integrate | app/src/missions/ingest.ts:212-234 | writes the status into the shared record, and marks the task in a copy of the list |
| MissionRecords.DecideByArbiter | app/src/missions/ingest.ts:286-321 | an escalation or a scrub fails the worker, and its task unless that is integrated |
| MissionRecords.ApplyInPlace | app/src/missions/ingest.ts:70-439 | the new state is right, and the earlier one reads as before if and only if its record says already what the event says |
| MissionRecords.ApplyAllInPlace | app/src/missions/ingest.ts:70-76 | however many events later, an earlier state reads the newest record of every worker not spawned again since |
| MissionRecords.ApplyMissionEvent | app/src/missions/ingest.ts:19-473 | the whole reducer, with what it leaves of the state before |
| MissionRecords.EarlierStateKeptIff | app/src/missions/ingest.ts:180-321 | the guard, kind by kind, under which an event leaves the earlier state as it was |
| MissionRecords.ProgressDisturbs | app/src/missions/ingest.ts:180-190 | a spawned worker's first report, in a trace from the start, disturbs the state before it |
| MissionRecords.KeepThenProgress | app/src/missions/ingest.ts:180-190 | the same trace on the store's objects: the kept state no longer reads as it did |
| Inbox.BySeqMeans | app/src/inbox/InboxState.ts:22-27 | sorting keeps the cards and orders them |
| Inbox.AlwaysInOrder | app/src/inbox/InboxState.ts:17-46 | in every run cards are in order and ids unique |
| Inbox.CardsAre | app/src/inbox/InboxState.ts:17-46 | in every run the inbox holds exactly the cards last put in and not cleared since, resolved if marked so since |
| Inbox.LookupOrderIsIrrelevant | app/src/missions/ingest.ts:656-669 | cards put in in another order, or repeatedly, give the same inbox |
| Escaping.QuotedAddsItself | app/src-tauri/src/lib.rs:722-724 | in any word, and whatever follows, a quoted value adds exactly itself |
| Escaping.ShellReadsBack | app/src-tauri/src/lib.rs:722-724 | a POSIX shell reads the quoted value as one word, the value |
| Escaping.AppleOnePass | app/src-tauri/src/lib.rs:726-728 | two replacement passes are one escaping pass |
| Escaping.AppleScriptReadsBack | app/src-tauri/src/lib.rs:726-728 | the literal reads back as the value and ends where it should |
| Escaping.XmlOnePass | app/src/missions/plan-mind-map-export.ts:436-443 | five replacement passes, in their order, are one escaping pass |
| Escaping.EscapedHasNoMarkup | app/src/missions/plan-mind-map-export.ts:436-443 | no markup character is left, and every ampersand begins one of the five entities |
| Escaping.DecodeUndoesEscape | app/src/missions/plan-content.ts:229-267 | decoding entities undoes escaping for every text |

## Left out

- ComputeDependencyEdges: walks the workers in list order. JavaScript enumerates integer-like ids before others, so
  for such ids the order of the edges, not their set, can differ. Ids such as `__proto__` are not modelled either.
- Memory: the dictionaries of a state are values, the objects in them are addressed. Spread copies of a dictionary are
  therefore not steps of their own.
- WorldIsSound: assumes that squad ids are fresh and not empty, as random UUIDs are, and that the orchestrator does
  not give a mission worker the empty id.
- HoldsPrefixOfLog: takes the repository's page query as given: the events of the worker after a sequence number, in
  order, with distinct sequence numbers. The retention sweep, which deletes from logs, and the demo banner, which
  fills a replay without a paging loop, are not modelled.
- TimerIffWatchedAndWaiting: each callback subscribes once and unsubscribes once. Reset hooks for tests are left out,
  here and in the visibility client.
- FallbackFactors: event types contain no colon. The parsing of embedded JSON is an input.
- PrintsEverythingIff: sequence numbers of a worker increase strictly; clearing the terminal when the worker changes
  starts a new run.
- LookupOrderIsIrrelevant: supposes that equal ids carry equal cards and that sequence numbers differ otherwise.
  Without that the latest write wins, as documented.
- AttentionIs: says which items there are, not in which order.
- CardsAre: likewise; cards are in order of their sequence numbers, and the order of those with the same number is not
  stated.
- Alert ids, short ids, titles and rendered texts of the operations room: determined by modelled fields.
- Clocks, unparsable timestamps and random ids: inputs. Spend is real, progress and tokens are integers; rounding of
  floating point is not modelled.
- The table that turns mission events into worker actions in `workers.ts`: each action it takes is modelled.
- The supervisor strip's text, criteria, roles and scope texts of mission tasks, plan overview and envelope.
- Sanitising of plan text other than entities, scope path parsing, layout coordinates, React, xterm and Tauri plumbing.
- FinishLeavesNoneOpen: one clock reading serves all workers of the mission; the program reads the clock for each.
- FactorsIffPlain: what a decision's text parses to is an input beside the text, and of the host's verdicts only those
  on arbiter decisions are modelled.
- The rest of the orchestrator's crates is not part of this model.
